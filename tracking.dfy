/**
 * The intervention tracking page (src/pages/SuivieUrgence2.tsx): the five-step timeline derived
 * from an intervention's `status` and `sub_status`, the index of the current step, the
 * "En cours..." marker, and the page state that `fetchInterventionStatus` updates.
 */
module InterventionTracking {
  import opened Wrappers
  import opened JsonValues
  import opened Http

  // ---------------------------------------------------------------------------
  // Timeline
  // ---------------------------------------------------------------------------

  /** One entry of the timeline; the icon is presentation and is left out. */
  datatype Step = Step(name: string, active: bool, isCompleted: bool)

  /** The names of the five steps, in display order. */
  const StepNames: seq<string> := ["Réceptionnée", "Agent Affecté", "En Route", "Arrivé", "Terminée"]

  /** `intervention.sub_status`, when it is a string. */
  function SubStatusOf(intervention: Json): Option<string> {
    StringProp(intervention, "sub_status")
  }

  /** `tokens.includes(status)`. */
  predicate StatusIn(status: Option<string>, tokens: seq<string>) {
    status.Some? && status.value in tokens
  }

  /** `completed` and `closed` end an intervention's lifecycle. */
  predicate IsTerminal(status: Option<string>) {
    status == Some("completed") || status == Some("closed")
  }

  /** No step after an inactive one is active. */
  predicate ActivePrefixClosed(steps: seq<Step>) {
    forall i, j | 0 <= j < i < |steps| :: steps[i].active ==> steps[j].active
  }

  /** `getSteps`: the timeline of the loaded intervention, or no steps while none is loaded. */
  function GetSteps(intervention: Json): (steps: seq<Step>)
    ensures !Truthy(intervention) ==> steps == []
    ensures Truthy(intervention) ==> |steps| == |StepNames|
    ensures forall k | 0 <= k < |steps| :: steps[k].name == StepNames[k]
    ensures |steps| > 0 ==> steps[0].active && steps[0].isCompleted
    ensures ActivePrefixClosed(steps)
    ensures forall k | 0 <= k < |steps| :: steps[k].isCompleted ==> steps[k].active
  {
    if !Truthy(intervention) then []
    else
      var status := StatusOf(intervention);
      var arrived := status == Some("in-progress") && SubStatusOf(intervention) == Some("arrive");
      var finished := StatusIn(status, ["completed", "closed"]);
      [ Step("Réceptionnée", true, true),
        Step("Agent Affecté",
             StatusIn(status, ["accepted", "in-progress", "completed", "closed"]),
             StatusIn(status, ["in-progress", "completed", "closed"])),
        Step("En Route", status == Some("in-progress") || finished, arrived || finished),
        Step("Arrivé", arrived || finished, finished),
        Step("Terminée", finished, finished) ]
  }

  /**
   * How far the lifecycle has progressed, as the number of steps that should be shown active:
   * an independent reading of the status against which the timeline is checked.
   */
  function ReachedSteps(status: Option<string>, subStatus: Option<string>): (n: nat)
    ensures 1 <= n <= 5
    ensures n == 5 <==> IsTerminal(status)
  {
    if IsTerminal(status) then 5
    else if status == Some("in-progress") then (if subStatus == Some("arrive") then 4 else 3)
    else if status == Some("accepted") then 2
    else 1
  }

  /** The number of steps that should be shown completed. */
  function CompletedSteps(status: Option<string>, subStatus: Option<string>): (n: nat)
    ensures 1 <= n <= ReachedSteps(status, subStatus)
    ensures n == ReachedSteps(status, subStatus) <==> IsTerminal(status) || ReachedSteps(status, subStatus) == 1
  {
    if IsTerminal(status) then 5
    else if status == Some("in-progress") then (if subStatus == Some("arrive") then 3 else 2)
    else 1
  }

  /** The timeline shows exactly the first `ReachedSteps` steps active and the first `CompletedSteps` completed. */
  lemma StepsFollowLifecycle(intervention: Json)
    requires Truthy(intervention)
    ensures var steps := GetSteps(intervention);
            var status, sub := StatusOf(intervention), SubStatusOf(intervention);
            |steps| == 5 &&
            forall k | 0 <= k < 5 ::
              (steps[k].active <==> k < ReachedSteps(status, sub)) &&
              (steps[k].isCompleted <==> k < CompletedSteps(status, sub))
  {
  }

  /** The per-status readings of the timeline. */
  lemma StatusCases(intervention: Json)
    requires Truthy(intervention)
    ensures var steps, status := GetSteps(intervention), StatusOf(intervention);
            |steps| == 5 &&
            // `pending`, and any status not listed, leaves only the first step active
            (!StatusIn(status, ["accepted", "in-progress", "completed", "closed"]) ==>
               forall k | 1 <= k < 5 :: !steps[k].active && !steps[k].isCompleted) &&
            // a terminal status makes every step active and completed
            (IsTerminal(status) ==> forall k | 0 <= k < 5 :: steps[k].active && steps[k].isCompleted) &&
            // while in progress, "Arrivé" is active exactly when the agent has arrived
            (status == Some("in-progress") ==>
               (steps[3].active <==> SubStatusOf(intervention) == Some("arrive")))
  {
    StepsFollowLifecycle(intervention);
  }

  // ---------------------------------------------------------------------------
  // Current step
  // ---------------------------------------------------------------------------

  /**
   * `steps.reduce((lastIndex, step, index) => step.active ? index : lastIndex, 0)`: the largest
   * index of an active step, or 0 when no step is active.
   */
  function CurrentStepIndex(steps: seq<Step>): (r: nat)
    ensures |steps| > 0 ==> r < |steps|
    ensures (exists k :: 0 <= k < |steps| && steps[k].active) ==>
              steps[r].active && forall k | r < k < |steps| :: !steps[k].active
    ensures (forall k | 0 <= k < |steps| :: !steps[k].active) ==> r == 0
  {
    ReduceLastActive(steps, 0, 0)
  }

  /**
   * The reduce from position `i` on, with accumulator `lastIndex`: it ends on the last active
   * step at or after `i`, or keeps its accumulator if there is none.
   */
  function ReduceLastActive(steps: seq<Step>, i: nat, lastIndex: nat): (r: nat)
    requires i <= |steps|
    ensures (exists k :: i <= k < |steps| && steps[k].active) ==>
              i <= r < |steps| && steps[r].active && forall k | r < k < |steps| :: !steps[k].active
    ensures (forall k | i <= k < |steps| :: !steps[k].active) ==> r == lastIndex
    decreases |steps| - i
  {
    if i == |steps| then lastIndex
    else
      var r := ReduceLastActive(steps, i + 1, if steps[i].active then i else lastIndex);
      assert steps[i].active && (forall k | i + 1 <= k < |steps| :: !steps[k].active) ==> r == i;
      r
  }

  /** The number of active steps. */
  function ActiveCount(steps: seq<Step>): (n: nat)
    ensures n <= |steps|
    ensures n == 0 <==> forall k | 0 <= k < |steps| :: !steps[k].active
    ensures n == |steps| <==> forall k | 0 <= k < |steps| :: steps[k].active
  {
    if steps == [] then 0 else (if steps[0].active then 1 else 0) + ActiveCount(steps[1..])
  }

  /** When the active steps are exactly the first `m`, there are `m` of them. */
  lemma {:induction false} ActiveCountOfPrefix(steps: seq<Step>, m: nat)
    requires m <= |steps|
    requires forall k | 0 <= k < |steps| :: steps[k].active <==> k < m
    ensures ActiveCount(steps) == m
  {
    if steps != [] {
      var rest := steps[1..];
      var m' := if m > 0 then m - 1 else 0;
      assert forall k | 0 <= k < |rest| :: rest[k] == steps[k + 1];
      ActiveCountOfPrefix(rest, m');
    }
  }

  /** On a prefix-closed timeline whose first step is active, the current step is the (active count - 1)-th. */
  lemma CurrentStepCountsActive(steps: seq<Step>)
    requires |steps| > 0 && steps[0].active
    requires ActivePrefixClosed(steps)
    ensures CurrentStepIndex(steps) == ActiveCount(steps) - 1
  {
    var r := CurrentStepIndex(steps);
    ActiveCountOfPrefix(steps, r + 1);
  }

  /** For a loaded intervention the current step lies in 0..4 and is the last step its status reaches. */
  lemma CurrentStepOfIntervention(intervention: Json)
    requires Truthy(intervention)
    ensures var steps := GetSteps(intervention);
            var r := CurrentStepIndex(steps);
            0 <= r <= 4 &&
            r == ActiveCount(steps) - 1 &&
            r == ReachedSteps(StatusOf(intervention), SubStatusOf(intervention)) - 1
  {
    var steps := GetSteps(intervention);
    StepsFollowLifecycle(intervention);
    CurrentStepCountsActive(steps);
    var reached := ReachedSteps(StatusOf(intervention), SubStatusOf(intervention));
    assert steps[reached - 1].active;
  }

  // ---------------------------------------------------------------------------
  // "En cours..." marker
  // ---------------------------------------------------------------------------

  /**
   * Whether the step at `index` carries the "En cours..." marker: the test runs for each rendered
   * step, so only for an index of the timeline, and the page renders nothing without an intervention.
   */
  predicate ShowsInProgress(intervention: Json, index: int)
    ensures ShowsInProgress(intervention, index) ==> 0 <= index < |GetSteps(intervention)|
    ensures ShowsInProgress(intervention, index) ==> !IsTerminal(StatusOf(intervention))
    ensures !Truthy(intervention) ==> !ShowsInProgress(intervention, index)
  {
    var steps := GetSteps(intervention);
    && 0 <= index < |steps|
    && index == CurrentStepIndex(steps)
    && StatusOf(intervention) != Some("completed")
    && StatusOf(intervention) != Some("closed")
  }

  /**
   * While the status is not terminal exactly one step carries the marker: the last active one,
   * never the final "Terminée" step. Once it is terminal no step carries it.
   */
  lemma InProgressMarkerPlacement(intervention: Json)
    requires Truthy(intervention)
    ensures var steps := GetSteps(intervention);
            var status := StatusOf(intervention);
            var current := ReachedSteps(status, SubStatusOf(intervention)) - 1;
            (forall k | 0 <= k < |steps| :: ShowsInProgress(intervention, k) <==> !IsTerminal(status) && k == current) &&
            (IsTerminal(status) ==> forall k | 0 <= k < |steps| :: !ShowsInProgress(intervention, k)) &&
            (!IsTerminal(status) ==>
               current < 4 && steps[current].active && !steps[current + 1].active)
  {
    StepsFollowLifecycle(intervention);
    CurrentStepOfIntervention(intervention);
  }

  // ---------------------------------------------------------------------------
  // Fetching the intervention
  // ---------------------------------------------------------------------------

  /**
   * `json.intervention || json.data || json`. Reading a property of `null` throws, so a body
   * that is `null` yields no intervention.
   */
  function SelectIntervention(json: Json): (data: Option<Json>)
    ensures data.None? <==> json == JNull
    ensures json != JNull && Present(Prop(json, "intervention")) ==> data == Prop(json, "intervention")
    ensures json != JNull && !Present(Prop(json, "intervention")) && Present(Prop(json, "data")) ==>
              data == Prop(json, "data")
    ensures json != JNull && !Present(Prop(json, "intervention")) && !Present(Prop(json, "data")) ==>
              data == Some(json)
  {
    if json == JNull then None
    else if Present(Prop(json, "intervention")) then Prop(json, "intervention")
    else if Present(Prop(json, "data")) then Prop(json, "data")
    else Some(json)
  }

  /** The three response envelopes the page accepts all deliver the same intervention record. */
  lemma EnvelopeShapes(record: map<string, Json>)
    requires "intervention" !in record && "data" !in record
    ensures SelectIntervention(JObj(map["intervention" := JObj(record)])) == Some(JObj(record))
    ensures SelectIntervention(JObj(map["data" := JObj(record)])) == Some(JObj(record))
    ensures SelectIntervention(JObj(record)) == Some(JObj(record))
  {
  }

  /** What one call of `fetchInterventionStatus` stores, or None when it keeps the previous intervention. */
  function FetchedIntervention(outcome: HttpOutcome): (data: Option<Json>)
    ensures data.Some? ==> outcome.Response? && IsOk(outcome.status) && outcome.body.Parsed?
    ensures data.Some? <==> outcome.Response? && IsOk(outcome.status) && outcome.body.Parsed? && outcome.body.json != JNull
    ensures data.Some? ==> data == SelectIntervention(outcome.body.json)
  {
    match outcome
    case NetworkError(_) => None
    case Response(status, body) =>
      if !IsOk(status) then None
      else match body
        case Unparsable(_) => None
        case Parsed(json) => SelectIntervention(json)
  }

  /**
   * The state of the tracking page. The network and the timer are not modelled: each call of
   * `FetchInterventionStatus` is one completed request, whether the mount effect, the
   * 10-second interval, the refresh button or pull-to-refresh issued it.
   */
  class TrackingPage {
    /** The `:id` route parameter; "" stands for a missing one. */
    const interventionId: string
    /** `intervention`: JNull until a fetch stores something. */
    var intervention: Json
    var isLoading: bool
    /** How many GET requests the page has issued. */
    var requestsSent: nat
    /** Targets of `history.replace`. */
    var redirects: seq<string>

    constructor (id: string)
      ensures interventionId == id
      ensures intervention == JNull && isLoading && requestsSent == 0 && redirects == []
    {
      interventionId := id;
      intervention := JNull;
      isLoading := true;
      requestsSent := 0;
      redirects := [];
    }

    /**
     * `fetchInterventionStatus`: without an id it does nothing. Otherwise it always sends a
     * request (there is no check of the current status), stores what the response selects or
     * keeps the previous intervention on any failure, and clears `isLoading` either way.
     */
    method FetchInterventionStatus(outcome: HttpOutcome)
      modifies this
      ensures interventionId == "" ==> unchanged(this)
      ensures interventionId != "" ==>
                && requestsSent == old(requestsSent) + 1
                && intervention == (match FetchedIntervention(outcome)
                                    case Some(data) => data
                                    case None => old(intervention))
                && !isLoading
                && redirects == old(redirects)
    {
      if interventionId == "" {
        return;
      }
      requestsSent := requestsSent + 1;
      var fetched := FetchedIntervention(outcome);
      if fetched.Some? {
        intervention := fetched.value;
      }
      isLoading := false;
    }

    /** The mount effect: with no id the page redirects home, otherwise it fetches once. */
    method Mount(outcome: HttpOutcome)
      modifies this
      ensures interventionId == "" ==>
                redirects == old(redirects) + ["/"] &&
                intervention == old(intervention) && isLoading == old(isLoading) && requestsSent == old(requestsSent)
      ensures interventionId != "" ==>
                && requestsSent == old(requestsSent) + 1
                && intervention == (match FetchedIntervention(outcome)
                                    case Some(data) => data
                                    case None => old(intervention))
                && !isLoading
                && redirects == old(redirects)
    {
      if interventionId == "" {
        redirects := redirects + ["/"];
        return;
      }
      FetchInterventionStatus(outcome);
    }

    /** The refresh button: it sets `isLoading` and fetches, which clears it again when there is an id. */
    method RefreshClicked(outcome: HttpOutcome)
      modifies this
      ensures isLoading == (interventionId == "")
      ensures interventionId == "" ==>
                intervention == old(intervention) && requestsSent == old(requestsSent) && redirects == old(redirects)
      ensures interventionId != "" ==>
                && requestsSent == old(requestsSent) + 1
                && intervention == (match FetchedIntervention(outcome)
                                    case Some(data) => data
                                    case None => old(intervention))
                && redirects == old(redirects)
    {
      isLoading := true;
      FetchInterventionStatus(outcome);
    }
  }
}
