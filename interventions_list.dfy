/**
 * The interventions list page (src/pages/InterventionsListPage.tsx): the status badge
 * classifier, the segment filter, the normalisation of the list response, and the
 * `loading` / `isRefreshing` / `error` flags that `fetchInterventions` moves.
 */
module InterventionsList {
  import opened Wrappers
  import opened JsonValues
  import opened Http

  // ---------------------------------------------------------------------------
  // Status badge
  // ---------------------------------------------------------------------------

  /** `status.toLowerCase()` on the letters A..Z; no other character lower-cases into one of the status tokens. */
  function LowerAscii(s: string): (r: string)
    ensures |r| == |s|
    ensures forall i | 0 <= i < |s| :: r[i] == (if 'A' <= s[i] <= 'Z' then (s[i] as int + 32) as char else s[i])
  {
    seq(|s|, i requires 0 <= i < |s| => if 'A' <= s[i] <= 'Z' then (s[i] as int + 32) as char else s[i])
  }

  /** The badge of an intervention; the icon is presentation and is left out. */
  datatype StatusStyle = StatusStyle(color: string, text: string)

  const Waiting := StatusStyle("danger", "En Attente")
  const Ongoing := StatusStyle("warning", "En Cours")
  const Finished := StatusStyle("success", "Terminée")
  const Unknown := StatusStyle("medium", "Inconnu")

  /** `getStatusStyle`: classifies the lower-cased status into one of four badges. */
  function GetStatusStyle(status: string): (style: StatusStyle)
    ensures style in {Waiting, Ongoing, Finished, Unknown}
    ensures style == Waiting <==> LowerAscii(status) == "pending"
    ensures style == Ongoing <==> LowerAscii(status) in {"accepted", "in-progress"}
    ensures style == Finished <==> LowerAscii(status) in {"completed", "closed"}
    ensures style == Unknown <==> LowerAscii(status) !in {"pending", "accepted", "in-progress", "completed", "closed"}
  {
    var token := LowerAscii(status);
    if token == "pending" then Waiting
    else if token == "accepted" || token == "in-progress" then Ongoing
    else if token == "completed" || token == "closed" then Finished
    else Unknown
  }

  /** Lower-casing twice is lower-casing once. */
  lemma LowerAsciiIdempotent(s: string)
    ensures LowerAscii(LowerAscii(s)) == LowerAscii(s)
  {
  }

  /** The badge ignores letter case: a status and its lower-cased form, such as "PENDING" and "pending", get the same badge. */
  lemma StatusStyleIgnoresCase(s: string)
    ensures GetStatusStyle(LowerAscii(s)) == GetStatusStyle(s)
  {
    LowerAsciiIdempotent(s);
  }

  // ---------------------------------------------------------------------------
  // Segment filter
  // ---------------------------------------------------------------------------

  /** The predicate given to `interventions.filter` for the selected segment (for an item that is not `null`). */
  predicate Keeps(filterStatus: string, inter: Json)
    ensures filterStatus == "all" ==> Keeps(filterStatus, inter)
    ensures Keeps(filterStatus, inter) && filterStatus != "all" ==>
              StatusOf(inter).Some? && (StatusOf(inter).value == filterStatus || filterStatus == "active")
    ensures filterStatus == "active" && StatusOf(inter) == Some("active") ==> !Keeps(filterStatus, inter)
  {
    if filterStatus == "all" then true
    else if filterStatus == "active" then StatusOf(inter) == Some("accepted") || StatusOf(inter) == Some("in-progress")
    else StatusOf(inter) == Some(filterStatus)
  }

  /** `a` is `b` with some elements removed, the rest in their original order. */
  predicate IsSubsequence<T(==)>(a: seq<T>, b: seq<T>)
    decreases |b|
  {
    if a == [] then true
    else if b == [] then false
    else (a[0] == b[0] && IsSubsequence(a[1..], b[1..])) || IsSubsequence(a, b[1..])
  }

  /**
   * `filteredInterventions`. Reading `status` of a `null` item throws, so any segment other
   * than "all" fails on a list that holds one (None).
   */
  function FilterInterventions(items: seq<Json>, filterStatus: string): (r: Option<seq<Json>>)
    ensures r.None? <==> filterStatus != "all" && JNull in items
    ensures r.Some? ==> |r.value| <= |items| && IsSubsequence(r.value, items)
    ensures r.Some? ==> forall x :: multiset(r.value)[x] == if Keeps(filterStatus, x) then multiset(items)[x] else 0
    decreases |items|
  {
    if items == [] then Some([])
    else if filterStatus != "all" && items[0] == JNull then None
    else
      match FilterInterventions(items[1..], filterStatus)
      case None => None
      case Some(rest) =>
        assert items == [items[0]] + items[1..];
        Some(if Keeps(filterStatus, items[0]) then [items[0]] + rest else rest)
  }

  /** The "all" segment shows the list unchanged. */
  lemma {:induction false} FilterAllIsIdentity(items: seq<Json>)
    ensures FilterInterventions(items, "all") == Some(items)
  {
    if items != [] {
      FilterAllIsIdentity(items[1..]);
      assert items == [items[0]] + items[1..];
    }
  }

  /**
   * The "active" segment keeps exactly the `accepted` and `in-progress` interventions; any other
   * segment keeps exactly those whose status equals it, compared case-sensitively.
   */
  lemma FilterKeepsExactly(items: seq<Json>, filterStatus: string)
    requires filterStatus != "all" && JNull !in items
    ensures var r := FilterInterventions(items, filterStatus);
            r.Some? &&
            (filterStatus == "active" ==>
               forall x :: x in r.value <==> x in items && (StatusOf(x) == Some("accepted") || StatusOf(x) == Some("in-progress"))) &&
            (filterStatus != "active" ==>
               forall x :: x in r.value <==> x in items && StatusOf(x) == Some(filterStatus))
  {
    var r := FilterInterventions(items, filterStatus);
    forall x
      ensures x in r.value <==> x in items && Keeps(filterStatus, x)
    {
      assert x in r.value <==> multiset(r.value)[x] > 0;
      assert x in items <==> multiset(items)[x] > 0;
    }
  }

  /**
   * The "pending", "active" and "completed" segments show only interventions whose badge reads
   * "En Attente", "En Cours" and "Terminée" respectively.
   */
  lemma SegmentsAgreeWithBadges(inter: Json)
    requires StatusOf(inter).Some?
    ensures Keeps("pending", inter) ==> GetStatusStyle(StatusOf(inter).value) == Waiting
    ensures Keeps("active", inter) ==> GetStatusStyle(StatusOf(inter).value) == Ongoing
    ensures Keeps("completed", inter) ==> GetStatusStyle(StatusOf(inter).value) == Finished
  {
  }

  /**
   * The converse fails: a `closed` intervention has the "Terminée" badge but is not in the
   * "completed" segment, and a "PENDING" one has the "En Attente" badge but is not in "pending".
   */
  lemma BadgeWithoutSegment()
    ensures var closed := JObj(map["status" := JStr("closed")]);
            GetStatusStyle("closed") == Finished && !Keeps("completed", closed)
    ensures var shouted := JObj(map["status" := JStr("PENDING")]);
            GetStatusStyle("PENDING") == Waiting && !Keeps("pending", shouted)
  {
    assert LowerAscii("PENDING") == "pending";
  }

  // ---------------------------------------------------------------------------
  // List response normalisation
  // ---------------------------------------------------------------------------

  /** What `result.data?.interventions || result.data || result` followed by `Array.isArray` selects. */
  datatype Selection =
    | Listed(items: seq<Json>)
    | NotAList      // the selected value is not an array: the list is emptied and a warning shown
    | NullResult    // `result` is null, so reading `result.data` throws

  /** The list the page stores from a parsed response body. */
  function NormalizeList(result: Json): (s: Selection)
    ensures s.NullResult? <==> result == JNull
    ensures s.Listed? ==>
              var data := Prop(result, "data");
              result == JArr(s.items) || data == Some(JArr(s.items)) ||
              (data.Some? && Prop(data.value, "interventions") == Some(JArr(s.items)))
  {
    if result == JNull then NullResult
    else
      var data := Prop(result, "data");
      var nested := if data.Some? && data.value != JNull then Prop(data.value, "interventions") else None;
      var list := if Present(nested) then nested.value else if Present(data) then data.value else result;
      if list.JArr? then Listed(list.items) else NotAList
  }

  /** The three envelopes the page accepts all deliver the same list. */
  lemma ListEnvelopeShapes(items: seq<Json>)
    ensures NormalizeList(JArr(items)) == Listed(items)
    ensures NormalizeList(JObj(map["data" := JArr(items)])) == Listed(items)
    ensures NormalizeList(JObj(map["data" := JObj(map["interventions" := JArr(items)])])) == Listed(items)
  {
  }

  /**
   * For every non-null body: the first truthy one of `result.data.interventions`,
   * `result.data` and `result` itself is the candidate, and the page stores a list exactly
   * when that candidate is an array, namely the array's elements.
   */
  lemma ListSelectionRule(result: Json)
    requires result != JNull
    ensures var data := Prop(result, "data");
            var nested := if Present(data) then Prop(data.value, "interventions") else None;
            var candidate := if Present(nested) then nested.value
                             else if Present(data) then data.value
                             else result;
            && (NormalizeList(result).Listed? <==> candidate.JArr?)
            && (candidate.JArr? ==> NormalizeList(result).items == candidate.items)
            && (!candidate.JArr? ==> NormalizeList(result) == NotAList)
  {
    var data := Prop(result, "data");
    if data.Some? && data.value != JNull && !Present(data) {
      // A falsy, non-null `data` is a boolean, number or string: none has an `interventions` key.
      assert !data.value.JObj?;
    }
  }

  /** An object under `data` without an `interventions` key is not itself a list. */
  lemma ListSelectionPriority(record: map<string, Json>)
    requires "interventions" !in record
    ensures NormalizeList(JObj(map["data" := JObj(record)])) == NotAList
  {
    ListSelectionRule(JObj(map["data" := JObj(record)]));
  }

  // ---------------------------------------------------------------------------
  // Fetching the list
  // ---------------------------------------------------------------------------

  /** The errors the page stores in `error`. */
  datatype ListError =
    | NoToken                 // no access token: the page redirects to the login screen
    | SessionExpired          // the server answered 401
    | HttpFailure(status: nat) // any other status outside 200..299
    | Thrown(message: string) // a rejected fetch or body, or a TypeError

  /** The message V8 gives the TypeError thrown by `result.data` when the body is `null`. */
  const NullDataMessage := "Cannot read properties of null (reading 'data')"

  /** Whether `s` is a non-empty string of decimal digits. */
  predicate IsDigits(s: string) {
    |s| > 0 && forall i | 0 <= i < |s| :: '0' <= s[i] <= '9'
  }

  /** The number a string of decimal digits denotes, most significant digit first. */
  function DigitsValue(s: string): nat
    requires forall i | 0 <= i < |s| :: '0' <= s[i] <= '9'
  {
    if s == [] then 0 else DigitsValue(s[..|s| - 1]) * 10 + (s[|s| - 1] as int - '0' as int)
  }

  /** The decimal digits of `n`, as template literals print it: they denote `n`, with no leading zero. */
  function Decimal(n: nat): (s: string)
    ensures IsDigits(s)
    ensures DigitsValue(s) == n
    ensures s[0] == '0' ==> s == "0"
  {
    if n < 10 then ["0123456789"[n]]
    else
      var prefix := Decimal(n / 10);
      var s := prefix + ["0123456789"[n % 10]];
      assert s[..|s| - 1] == prefix;
      s
  }

  const LoadFailedPrefix := "Échec du chargement: "

  /** The text of an error, as `setError` receives it. */
  function Message(e: ListError): (m: string)
    ensures e.NoToken? ==> m == "Erreur d'authentification. Session expirée."
    ensures e.SessionExpired? ==> m == "Session expirée."
    ensures e.HttpFailure? ==>
              && |m| > |LoadFailedPrefix|
              && m[..|LoadFailedPrefix|] == LoadFailedPrefix
              && IsDigits(m[|LoadFailedPrefix|..])
              && DigitsValue(m[|LoadFailedPrefix|..]) == e.status
    ensures e.Thrown? ==> m == e.message
  {
    match e
    case NoToken => "Erreur d'authentification. Session expirée."
    case SessionExpired => "Session expirée."
    case HttpFailure(status) =>
      var digits := Decimal(status);
      assert (LoadFailedPrefix + digits)[|LoadFailedPrefix|..] == digits;
      LoadFailedPrefix + digits
    case Thrown(message) => message
  }

  /** The list a completed request delivers, or the error it ends in. */
  function LoadResult(outcome: HttpOutcome): (r: Result<seq<Json>, ListError>)
    ensures r.Success? ==> outcome.Response? && IsOk(outcome.status) && outcome.body.Parsed?
    ensures outcome.Response? && outcome.status == 401 ==> r == Failure(SessionExpired)
    ensures outcome.Response? && !IsOk(outcome.status) && outcome.status != 401 ==> r == Failure(HttpFailure(outcome.status))
    ensures outcome.NetworkError? ==> r == Failure(Thrown(outcome.reason))
    ensures outcome.Response? && IsOk(outcome.status) && outcome.body.Unparsable? ==> r == Failure(Thrown(outcome.body.reason))
    ensures outcome.Response? && IsOk(outcome.status) && outcome.body.Parsed? ==>
              && (r.Failure? <==> outcome.body.json == JNull)
              && (outcome.body.json == JNull ==> r == Failure(Thrown(NullDataMessage)))
              && (NormalizeList(outcome.body.json).Listed? ==> r == Success(NormalizeList(outcome.body.json).items))
              && (NormalizeList(outcome.body.json).NotAList? ==> r == Success([]))
  {
    match outcome
    case NetworkError(reason) => Failure(Thrown(reason))
    case Response(status, body) =>
      if status == 401 then Failure(SessionExpired)
      else if !IsOk(status) then Failure(HttpFailure(status))
      else
        match body
        case Unparsable(reason) => Failure(Thrown(reason))
        case Parsed(json) =>
          match NormalizeList(json)
          case Listed(items) => Success(items)
          case NotAList => Success([])
          case NullResult => Failure(Thrown(NullDataMessage))
  }

  /** A 401 is reported as "Session expirée.". */
  lemma UnauthorizedMessage(body: Body)
    ensures LoadResult(Response(401, body)).Failure?
    ensures Message(LoadResult(Response(401, body)).error) == "Session expirée."
  {
  }

  /**
   * The state of the list page. `fetchInterventions` is split at its `await`: `StartFetch` runs
   * up to the request, `FinishFetch` from the response on, so that the state while the request
   * is in flight can be stated. The network is not modelled.
   */
  class ListPage {
    /** `localStorage.getItem('access_token')`. */
    const token: Option<string>
    var interventions: seq<Json>
    var loading: bool
    var isRefreshing: bool
    var error: Option<ListError>
    /** How many GET requests the page has issued. */
    var requestsSent: nat
    /** Targets of `history.replace`. */
    var redirects: seq<string>

    constructor (token: Option<string>)
      ensures this.token == token
      ensures interventions == [] && !loading && !isRefreshing && error == None
      ensures requestsSent == 0 && redirects == []
    {
      this.token := token;
      interventions := [];
      loading := false;
      isRefreshing := false;
      error := None;
      requestsSent := 0;
      redirects := [];
    }

    /** `!TOKEN` is false: a token is stored and is not empty. */
    predicate HasToken()
      reads this
      ensures HasToken() ==> token.Some? && |token.value| > 0
      ensures token.Some? && |token.value| > 0 ==> HasToken()
    {
      token.Some? && token.value != ""
    }

    /**
     * `fetchInterventions(refresh)` up to the request. Without a token it sets the error and
     * redirects to the login screen, touching nothing else. Otherwise it raises exactly one busy
     * flag, `loading` or `isRefreshing` as `refresh` says, clears `error`, and sends the request.
     */
    method StartFetch(refresh: bool) returns (sent: bool)
      modifies this
      ensures sent == HasToken()
      ensures interventions == old(interventions)
      ensures !sent ==>
                && error == Some(NoToken)
                && redirects == old(redirects) + ["/login"]
                && loading == old(loading) && isRefreshing == old(isRefreshing)
                && requestsSent == old(requestsSent)
      ensures sent ==>
                && loading == (if refresh then old(loading) else true)
                && isRefreshing == (if refresh then true else old(isRefreshing))
                && error == None
                && requestsSent == old(requestsSent) + 1
                && redirects == old(redirects)
    {
      if !HasToken() {
        error := Some(NoToken);
        redirects := redirects + ["/login"];
        return false;
      }
      if !refresh {
        loading := true;
      } else {
        isRefreshing := true;
      }
      error := None;
      requestsSent := requestsSent + 1;
      return true;
    }

    /**
     * `fetchInterventions(refresh)` from the response on: it stores the list or the error and
     * lowers the busy flag it raised, whatever the outcome.
     */
    method FinishFetch(refresh: bool, outcome: HttpOutcome)
      modifies this
      ensures loading == (if refresh then old(loading) else false)
      ensures isRefreshing == (if refresh then false else old(isRefreshing))
      ensures match LoadResult(outcome)
              case Success(list) => interventions == list && error == old(error)
              case Failure(e) => interventions == old(interventions) && error == Some(e)
      ensures requestsSent == old(requestsSent) && redirects == old(redirects)
    {
      var result := LoadResult(outcome);
      match result {
        case Success(list) =>
          interventions := list;
        case Failure(e) =>
          error := Some(e);
      }
      if !refresh {
        loading := false;
      } else {
        isRefreshing := false;
      }
    }

    /** One whole call of `fetchInterventions(refresh)` whose request completes with `outcome`. */
    method FetchInterventions(refresh: bool, outcome: HttpOutcome)
      modifies this
      ensures !HasToken() ==>
                && error == Some(NoToken)
                && redirects == old(redirects) + ["/login"]
                && loading == old(loading) && isRefreshing == old(isRefreshing)
                && interventions == old(interventions) && requestsSent == old(requestsSent)
      ensures HasToken() ==>
                && loading == (if refresh then old(loading) else false)
                && isRefreshing == (if refresh then false else old(isRefreshing))
                && requestsSent == old(requestsSent) + 1
                && redirects == old(redirects)
                && match LoadResult(outcome)
                   case Success(list) => interventions == list && error == None
                   case Failure(e) => interventions == old(interventions) && error == Some(e)
    {
      var sent := StartFetch(refresh);
      if sent {
        FinishFetch(refresh, outcome);
      }
    }
  }
}
