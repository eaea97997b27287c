/**
 * The emergency report form (src/pages/SignaleUrgence.tsx): the problem category table, the
 * request payload, the check that the server returned an id, and the submission state that
 * `handleSubmit` moves: the `isSubmitting` guard, the stored reporter phone and the
 * navigation to the tracking page.
 */
module EmergencyReport {
  import opened Wrappers
  import opened JsonValues
  import opened Http

  // ---------------------------------------------------------------------------
  // Problem categories
  // ---------------------------------------------------------------------------

  /** The categories with an id of their own, in id order: "BlackOut" is 1, ..., "Solaire" is 7. */
  const PrimaryCategories: seq<string> := ["BlackOut", "Compteur", "Lampe", "Prise", "Ventillo", "Électroménager", "Solaire"]

  /** The categories that share id 8. */
  const SharedCategories: seq<string> := ["Clim", "Brulure", "autre"]

  /** The categories the form's buttons offer, in display order. */
  const OfferedCategories: seq<string> :=
    ["BlackOut", "Compteur", "Lampe", "Prise", "Ventillo", "Clim", "Électroménager", "Brulure", "Solaire", "autre"]

  /** `getProblemTypeId`: the backend id of a category, 0 for an unknown one. */
  function GetProblemTypeId(problemName: string): (id: nat)
    ensures id <= 8
    ensures 1 <= id <= 7 <==> problemName in PrimaryCategories
    ensures 1 <= id <= 7 ==> PrimaryCategories[id - 1] == problemName
    ensures id == 8 <==> problemName in SharedCategories
    ensures id == 0 <==> problemName !in PrimaryCategories && problemName !in SharedCategories
  {
    if problemName == "BlackOut" then 1
    else if problemName == "Compteur" then 2
    else if problemName == "Lampe" then 3
    else if problemName == "Prise" then 4
    else if problemName == "Ventillo" then 5
    else if problemName == "Électroménager" then 6
    else if problemName == "Solaire" then 7
    else if problemName == "Clim" || problemName == "Brulure" || problemName == "autre" then 8
    else 0
  }

  /** Ids 1..7 name one category each (`PrimaryCategories[k]` has id k + 1): the table is one-to-one there and many-to-one only at 8. */
  lemma PrimaryIdsRoundTrip(a: string, b: string)
    ensures forall k | 0 <= k < |PrimaryCategories| :: GetProblemTypeId(PrimaryCategories[k]) == k + 1
    ensures 1 <= GetProblemTypeId(a) <= 7 && GetProblemTypeId(a) == GetProblemTypeId(b) ==> a == b
    ensures GetProblemTypeId("Clim") == GetProblemTypeId("Brulure") == GetProblemTypeId("autre") == 8
  {
    forall k | 0 <= k < |PrimaryCategories|
      ensures GetProblemTypeId(PrimaryCategories[k]) == k + 1
    {
      var id := GetProblemTypeId(PrimaryCategories[k]);
      assert PrimaryCategories[id - 1] == PrimaryCategories[k];
    }
  }

  /** Every category a button offers has a backend id. */
  lemma OfferedCategoriesHaveIds()
    ensures forall name | name in OfferedCategories :: 1 <= GetProblemTypeId(name) <= 8
  {
  }

  // ---------------------------------------------------------------------------
  // Payload
  // ---------------------------------------------------------------------------

  /** A device position; how it is obtained is not modelled. */
  datatype Position = Position(lat: real, lng: real)

  /** The body of `POST /interventions`. */
  datatype Payload = Payload(
    problemTypeId: nat,
    title: string,
    description: string,
    address: string,
    latitude: real,
    longitude: real,
    priorityLevel: string,
    clientPhone: string,
    clientFirstName: string,
    clientLastName: string)

  /** `!problemType || !telephone || !adresse` is false: all three fields are filled in. */
  predicate FormComplete(problemType: Option<string>, telephone: string, adresse: string)
    ensures FormComplete(problemType, telephone, adresse) ==>
              problemType.Some? && |problemType.value| > 0 && |telephone| > 0 && |adresse| > 0
    ensures problemType.Some? && problemType.value in OfferedCategories && telephone != "" && adresse != "" ==>
              FormComplete(problemType, telephone, adresse)
  {
    problemType.Some? && problemType.value != "" && telephone != "" && adresse != ""
  }

  /** `urgenceData`. */
  function BuildPayload(problemType: string, telephone: string, adresse: string, position: Option<Position>): (p: Payload)
    ensures p.problemTypeId == GetProblemTypeId(problemType) && p.title == problemType
    ensures p.address == adresse && p.clientPhone == telephone && p.priorityLevel == "low"
    ensures p.description == "a" && p.clientFirstName == "b" && p.clientLastName == "c"
    ensures p.latitude == (if position.Some? then position.value.lat else 0.0)
    ensures p.longitude == (if position.Some? then position.value.lng else 0.0)
  {
    Payload(
      GetProblemTypeId(problemType),
      problemType,
      "a",
      adresse,
      if position.Some? && position.value.lat != 0.0 then position.value.lat else 0.0,
      if position.Some? && position.value.lng != 0.0 then position.value.lng else 0.0,
      "low",
      telephone,
      "b",
      "c")
  }

  // ---------------------------------------------------------------------------
  // Response
  // ---------------------------------------------------------------------------

  /**
   * `responseData.data?.id` when the request succeeded and that id is truthy; None on every path
   * that ends in the `catch`: a rejected fetch, a status outside 200..299, a body that is not
   * JSON or is `null`, and a missing or falsy id.
   */
  function CreatedId(outcome: HttpOutcome): (id: Option<Json>)
    ensures id.Some? ==> outcome.Response? && IsOk(outcome.status) && outcome.body.Parsed? && Truthy(id.value)
    ensures id.Some? ==> Prop(outcome.body.json, "data").Some? && Prop(Prop(outcome.body.json, "data").value, "id") == id
  {
    match outcome
    case NetworkError(_) => None
    case Response(status, body) =>
      if !IsOk(status) then None
      else
        match body
        case Unparsable(_) => None
        case Parsed(json) =>
          if json == JNull then None
          else
            var data := Prop(json, "data");
            if data.None? || data.value == JNull then None
            else
              var id := Prop(data.value, "id");
              if Present(id) then id else None
  }

  /** A successful response is accepted exactly when its `data` record carries a truthy `id`. */
  lemma CreatedIdRequiresId(status: nat, record: map<string, Json>, rest: map<string, Json>)
    requires IsOk(status)
    ensures var outcome := Response(status, Parsed(JObj(rest["data" := JObj(record)])));
            CreatedId(outcome).Some? <==> "id" in record && Truthy(record["id"])
    ensures var outcome := Response(status, Parsed(JObj(rest["data" := JObj(record)])));
            "id" in record && Truthy(record["id"]) ==> CreatedId(outcome) == Some(record["id"])
  {
  }

  // ---------------------------------------------------------------------------
  // Effects of a submission
  // ---------------------------------------------------------------------------

  const ReporterPhoneKey := "reporter_phone"
  const ReporterNameKey := "reporter_name"

  /** The toasts of the form: the missing-fields warning and the failure toast are "danger", the success toast "success". */
  datatype Notice = MissingFields | Sent | SendFailed

  /** `/suivie-urgence/${id}/${telephone}`. */
  datatype TrackingRoute = TrackingRoute(id: Json, phone: string)

  /** What the form does outside its own state, in order. */
  datatype Effect =
    | Post(payload: Payload)
    | Toast(notice: Notice)
    | Store(key: string, value: string)
    | Navigate(route: TrackingRoute)

  /** The effects of a request that ends with `created` (None when it fails). */
  function Completion(phone: string, created: Option<Json>): (effects: seq<Effect>)
    ensures created.None? ==> effects == [Toast(SendFailed)]
    ensures created.Some? ==> Toast(Sent) in effects && Toast(SendFailed) !in effects
    ensures Store(ReporterPhoneKey, phone) in effects <==> created.Some?
  {
    match created
    case None => [Toast(SendFailed)]
    case Some(id) =>
      [Store(ReporterPhoneKey, phone), Store(ReporterNameKey, ""), Toast(Sent), Navigate(TrackingRoute(id, phone))]
  }

  /**
   * The form navigates only after a success, only to the tracking page of the id the server
   * returned, and only after it has stored the reporter's phone.
   */
  lemma PersistBeforeNavigate(phone: string, created: Option<Json>)
    ensures var effects := Completion(phone, created);
            (exists i :: 0 <= i < |effects| && effects[i].Navigate?) <==> created.Some?
    ensures var effects := Completion(phone, created);
            forall i | 0 <= i < |effects| && effects[i].Navigate? ::
              created == Some(effects[i].route.id) && effects[i].route.phone == phone &&
              exists j :: 0 <= j < i && effects[j] == Store(ReporterPhoneKey, phone)
  {
    var effects := Completion(phone, created);
    if created.Some? {
      assert effects[3].Navigate?;
      assert effects[0] == Store(ReporterPhoneKey, phone);
    }
  }

  /**
   * The state of the report form. `handleSubmit` is split at its `await`: `BeginSubmit` runs up
   * to the request, `CompleteSubmit` from the response on. Device location, the network and
   * the browser's storage and history are not modelled beyond what is recorded here.
   */
  class ReportPage {
    /** `localStorage`. */
    var storage: map<string, string>
    var telephone: string
    var adresse: string
    var problemType: Option<string>
    var position: Option<Position>
    var isSubmitting: bool
    /** Requests, toasts, storage writes and navigations, in the order they happen. */
    var effects: seq<Effect>
    /** The payload whose request has been posted and has not completed, if any. */
    ghost var inFlight: Option<Payload>

    /** A submission is in flight exactly while `isSubmitting` is set, and its request has been posted. */
    ghost predicate Valid()
      reads this
    {
      && (isSubmitting <==> inFlight.Some?)
      && (inFlight.Some? ==> Post(inFlight.value) in effects)
    }

    /** The form starts with the stored reporter phone, or "" when none is stored. */
    constructor (storage: map<string, string>)
      ensures Valid()
      ensures this.storage == storage
      ensures telephone == (if ReporterPhoneKey in storage then storage[ReporterPhoneKey] else "")
      ensures adresse == "" && problemType == None && position == None
      ensures !isSubmitting && effects == []
    {
      this.storage := storage;
      telephone := if ReporterPhoneKey in storage then storage[ReporterPhoneKey] else "";
      adresse := "";
      problemType := None;
      position := None;
      isSubmitting := false;
      effects := [];
      inFlight := None;
    }

    /**
     * `handleSubmit` up to the request. While a submission is in flight it does nothing. With a
     * field missing it shows the warning and sends nothing. Otherwise it sets `isSubmitting`
     * and posts the payload built from the form, which it returns.
     */
    method BeginSubmit() returns (attempt: Option<Payload>)
      requires Valid()
      modifies this
      ensures Valid()
      ensures storage == old(storage) && telephone == old(telephone) && adresse == old(adresse)
      ensures problemType == old(problemType) && position == old(position)
      ensures old(isSubmitting) ==> attempt == None && isSubmitting && effects == old(effects) && inFlight == old(inFlight)
      ensures !old(isSubmitting) && !FormComplete(problemType, telephone, adresse) ==>
                attempt == None && !isSubmitting && effects == old(effects) + [Toast(MissingFields)]
      ensures !old(isSubmitting) && FormComplete(problemType, telephone, adresse) ==>
                && attempt == Some(BuildPayload(problemType.value, telephone, adresse, position))
                && isSubmitting
                && inFlight == attempt
                && effects == old(effects) + [Post(attempt.value)]
    {
      if isSubmitting {
        return None;
      }
      if !FormComplete(problemType, telephone, adresse) {
        effects := effects + [Toast(MissingFields)];
        return None;
      }
      isSubmitting := true;
      var payload := BuildPayload(problemType.value, telephone, adresse, position);
      effects := effects + [Post(payload)];
      inFlight := Some(payload);
      return Some(payload);
    }

    /**
     * `handleSubmit` from the response on, for the request `attempt` posted. On success it stores
     * the phone the request was made with (and an empty name), confirms, and navigates to the
     * tracking page; on failure it only shows the error. `isSubmitting` is cleared either way.
     */
    method CompleteSubmit(attempt: Payload, outcome: HttpOutcome)
      requires Valid() && inFlight == Some(attempt)
      modifies this
      ensures Valid() && !isSubmitting && inFlight == None
      ensures effects == old(effects) + Completion(attempt.clientPhone, CreatedId(outcome))
      ensures storage == if CreatedId(outcome).Some?
                         then old(storage)[ReporterPhoneKey := attempt.clientPhone][ReporterNameKey := ""]
                         else old(storage)
      ensures telephone == old(telephone) && adresse == old(adresse)
      ensures problemType == old(problemType) && position == old(position)
    {
      var created := CreatedId(outcome);
      if created.Some? {
        storage := storage[ReporterPhoneKey := attempt.clientPhone][ReporterNameKey := ""];
      }
      effects := effects + Completion(attempt.clientPhone, created);
      isSubmitting := false;
      inFlight := None;
    }

    /** One whole call of `handleSubmit` whose request, if it sends one, completes with `outcome`. */
    method HandleSubmit(outcome: HttpOutcome)
      requires Valid()
      modifies this
      ensures Valid()
      ensures isSubmitting == old(isSubmitting)
      ensures old(isSubmitting) ==> effects == old(effects) && storage == old(storage)
      ensures !old(isSubmitting) && !FormComplete(problemType, telephone, adresse) ==>
                effects == old(effects) + [Toast(MissingFields)] && storage == old(storage)
      ensures !old(isSubmitting) && FormComplete(problemType, telephone, adresse) ==>
                var payload := BuildPayload(problemType.value, telephone, adresse, position);
                && effects == old(effects) + [Post(payload)] + Completion(telephone, CreatedId(outcome))
                && storage == if CreatedId(outcome).Some?
                              then old(storage)[ReporterPhoneKey := telephone][ReporterNameKey := ""]
                              else old(storage)
      ensures telephone == old(telephone) && adresse == old(adresse)
      ensures problemType == old(problemType) && position == old(position)
    {
      var attempt := BeginSubmit();
      if attempt.Some? {
        CompleteSubmit(attempt.value, outcome);
      }
    }
  }
}
