/** The flight booking form: header fields, the list of journey legs, the
    three-tab wizard with the 'FLT-' ticket ID, and the submitted record
    and request. */
module FlightForm {
  import opened Wrappers
  import opened Text
  import opened Records
  import opened FormKit

  /** The form's initial fields. */
  const BlankData: Fields := map[
    "agentName" := "", "bookingAgent" := "", "bookingEntity" := "", "travelerName" := "",
    "contactNumber" := "", "passportNumber" := "", "invoiceNumber" := "", "creditNoteNumber" := "",
    "amount" := "", "refundAmount" := "", "paymentStatus" := "notReceived"]

  /** A new, empty journey leg. */
  const BlankLeg: Fields := map["from" := "", "to" := "", "date" := ""]

  /** The header fields basic info needs. */
  const BasicKeys := ["agentName", "bookingAgent", "bookingEntity", "travelerName", "contactNumber"]

  /** A leg is filled when `from` and `to` are not blank and `date` is set.
      A leg without `from` or `to` makes `trim` throw; it counts as not filled. */
  predicate LegFilled(leg: Fields) {
    "from" in leg && !IsBlank(leg["from"]) && "to" in leg && !IsBlank(leg["to"]) && Filled(leg, "date")
  }

  /** `isBasicInfoFilled` */
  predicate BasicInfoFilled(form: Fields, legs: seq<Fields>) {
    (forall i :: 0 <= i < |legs| ==> LegFilled(legs[i])) && AllFilled(form, BasicKeys)
  }

  /** A blank leg is never filled, so adding a leg clears basic info until it is filled in. */
  lemma AddedLegUnfilled(form: Fields, legs: seq<Fields>)
    ensures !BasicInfoFilled(form, legs + [BlankLeg])
  {
    assert (legs + [BlankLeg])[|legs|] == BlankLeg;
    assert !LegFilled(BlankLeg) by {
      assert BlankLeg["from"] == "";
      BlankIffAllSpace("");
    }
  }

  /** `finalData`: the fields with the legs, the ticket ID and the 'flight'
      tag; `submittedAt` kept from the initial record when it has one;
      `lastModified` only when editing. */
  function FinalData(form: Fields, legs: seq<Fields>, ticketId: string, initial: Option<Booking>, editing: bool, now: string): (r: Booking)
    ensures Get(r, "bookingType") == Some("flight") && Get(r, "ticketId") == Some(ticketId)
    ensures r.journeyDetails == Some(legs)
    ensures Get(r, "submittedAt") == Some(if initial.Some? then OrElse(Get(initial.value, "submittedAt"), now) else now)
    ensures Get(r, "lastModified") == if editing then Some(now) else None
    ensures forall k :: k !in {"ticketId", "bookingType", "submittedAt", "lastModified"} ==> Get(r, k) == Lookup(form, k)
  {
    var submitted := if initial.Some? then OrElse(Get(initial.value, "submittedAt"), now) else now;
    var base := form["ticketId" := ticketId]["bookingType" := "flight"]["submittedAt" := submitted];
    Booking(if editing then base["lastModified" := now] else base - {"lastModified"}, Some(legs))
  }

  /** The value the source gives `API_BASE_URL`: a single-quoted string, so
      the environment variable is never substituted. */
  const ApiBaseAsWritten := "${import.meta.env.VITE_API_URL}"

  /** The request of `handleSubmit` against a given base URL: PUT to the
      record when editing one with an `_id`, POST to the collection otherwise. */
  function RequestAt(base: string, editing: bool, initial: Option<Booking>, body: Booking): (r: Request<Booking>)
    ensures r.verb == Put <==> editing && initial.Some? && Truthy(Get(initial.value, "_id"))
    ensures r.verb == Put ==> r.url == base + "/flight-bookings/" + Get(initial.value, "_id").value
    ensures r.verb == Post ==> r.url == base + "/flight-bookings"
    ensures r.body == body
  {
    if editing && initial.Some? && Truthy(Get(initial.value, "_id"))
    then Request(Put, base + "/flight-bookings/" + Get(initial.value, "_id").value, body)
    else Request(Post, base + "/flight-bookings", body)
  }

  /** The request as written. */
  function RequestAsWritten(editing: bool, initial: Option<Booking>, body: Booking): Request<Booking> {
    RequestAt(ApiBaseAsWritten, editing, initial, body)
  }

  /** As written, no request goes to the configured API: every URL starts
      with the literal '${', whatever the API URL is. */
  lemma RequestMissesApi(apiUrl: string, editing: bool, initial: Option<Booking>, body: Booking)
    requires apiUrl != "" && apiUrl[0] != '$'
    ensures !StartsWith(RequestAsWritten(editing, initial, body).url, apiUrl)
    ensures StartsWith(RequestAsWritten(editing, initial, body).url, "${")
  {
    var url := RequestAsWritten(editing, initial, body).url;
    assert url[0] == '$' && url[1] == '{';
  }

  /** The intended request, under the configured API URL. */
  function SubmitRequest(apiUrl: string, editing: bool, initial: Option<Booking>, body: Booking): (r: Request<Booking>)
    ensures StartsWith(r.url, apiUrl + "/flight-bookings")
  {
    var r := RequestAt(apiUrl, editing, initial, body);
    assert r.url[..|apiUrl + "/flight-bookings"|] == apiUrl + "/flight-bookings";
    r
  }

  const IdPrefix := "FLT-"

  class Form {
    var formData: Fields
    var journeys: seq<Fields>
    var isLoading: bool
    var error: string
    const wizard: Wizard
    const editing: bool
    const initial: Option<Booking>

    ghost predicate Valid()
      reads this, wizard
    {
      wizard.Valid() && wizard.tabCount == 3 && wizard.rule == FirstThree
      && wizard.prefix == IdPrefix && wizard.extra == 3 && wizard.editing == editing
    }

    /** A new form, or an edit form prefilled from the initial record: each
        header field from the record or its blank value, the legs as stored
        and the record's ticket ID if it has one. */
    constructor (editing: bool, initial: Option<Booking>)
      ensures Valid() && fresh(wizard) && wizard.activeTab == 0
      ensures this.editing == editing && this.initial == initial
      ensures !(editing && initial.Some?) ==> formData == BlankData && journeys == [BlankLeg] && wizard.id == ""
      ensures editing && initial.Some? ==>
        formData == Prefilled(initial.value, BlankData)
        && journeys == initial.value.journeyDetails.GetOr([BlankLeg])
        && wizard.id == OrElse(Get(initial.value, "ticketId"), "")
      ensures !isLoading && error == ""
    {
      this.editing := editing;
      this.initial := initial;
      wizard := new Wizard(3, FirstThree, IdPrefix, 3, editing);
      isLoading := false;
      error := "";
      new;
      formData := BlankData;
      journeys := [BlankLeg];
      if editing && initial.Some? {
        formData := Prefilled(initial.value, BlankData);
        journeys := initial.value.journeyDetails.GetOr([BlankLeg]);
        if Truthy(Get(initial.value, "ticketId")) {
          wizard.SetId(Get(initial.value, "ticketId").value);
        }
      }
    }

    /** `isBasicInfoFilled` on the current state. */
    predicate IsBasicInfoFilled()
      reads this
    {
      BasicInfoFilled(formData, journeys)
    }

    /** `handleChange` */
    method HandleChange(name: string, value: string)
      modifies this`formData
      ensures formData == SetField(old(formData), name, value)
    {
      formData := SetField(formData, name, value);
    }

    /** `addJourneyEntry`: one blank leg more at the end. */
    method AddJourneyEntry()
      modifies this`journeys
      ensures journeys == old(journeys) + [BlankLeg]
    {
      journeys := journeys + [BlankLeg];
    }

    /** `removeJourneyEntry` */
    method RemoveJourneyEntry(index: int)
      modifies this`journeys
      ensures journeys == RemoveEntry(old(journeys), index)
      ensures |old(journeys)| >= 1 ==> |journeys| >= 1
    {
      journeys := RemoveEntry(journeys, index);
    }

    /** `handleJourneyChange` */
    method HandleJourneyChange(index: int, field: string, value: string)
      modifies this`journeys
      ensures journeys == ChangeEntry(old(journeys), index, field, value)
    {
      journeys := ChangeEntry(journeys, index, field, value);
    }

    method HandleNext(picks: IdPicks)
      requires Valid() && PicksFit(picks, 3)
      modifies wizard`activeTab, wizard`id
      ensures Valid()
      ensures wizard.activeTab == NextTab(old(wizard.activeTab), 3, CanProceedToTab(FirstThree, old(wizard.activeTab) + 1, BasicInfoFilled(formData, journeys)))
      ensures wizard.id == IdAfterArrival(old(wizard.activeTab), wizard.activeTab, old(wizard.id), editing, IdPrefix, picks)
    {
      wizard.HandleNext(IsBasicInfoFilled(), picks);
    }

    method HandlePrevious(picks: IdPicks)
      requires Valid() && PicksFit(picks, 3)
      modifies wizard`activeTab, wizard`id
      ensures Valid()
      ensures wizard.activeTab == PrevTab(old(wizard.activeTab))
      ensures wizard.id == IdAfterArrival(old(wizard.activeTab), wizard.activeTab, old(wizard.id), editing, IdPrefix, picks)
    {
      wizard.HandlePrevious(picks);
    }

    method SelectTab(index: int, picks: IdPicks)
      requires Valid() && PicksFit(picks, 3) && 0 <= index < 3
      modifies wizard`activeTab, wizard`id
      ensures Valid()
      ensures wizard.activeTab == if CanProceedToTab(FirstThree, index, BasicInfoFilled(formData, journeys)) then index else old(wizard.activeTab)
      ensures wizard.id == IdAfterArrival(old(wizard.activeTab), wizard.activeTab, old(wizard.id), editing, IdPrefix, picks)
    {
      wizard.SelectTab(index, IsBasicInfoFilled(), picks);
    }

    /** `handleSubmit`: sends `FinalData`; after a successful create (no
        record `_id` to update) the form is reset to a new booking; a
        failure sets the error message. An edit form without an initial
        record throws on reading `initialData._id` before sending, which
        ends like a failure. `submitted` is what `onSubmit` receives: the
        `data` member of the reply, here its record. */
    method HandleSubmit(apiUrl: string, now: string, outcome: Outcome<Booking>) returns (sent: Option<Request<Booking>>, submitted: Option<Booking>)
      requires Valid()
      modifies this`formData, this`journeys, this`isLoading, this`error, wizard`activeTab, wizard`id
      ensures Valid()
      ensures sent.None? <==> editing && initial.None?
      ensures sent.Some? ==> sent.value == SubmitRequest(apiUrl, editing, initial, FinalData(old(formData), old(journeys), old(wizard.id), initial, editing, now))
      ensures sent.None? || outcome.Failed? ==>
        submitted.None? && formData == old(formData) && journeys == old(journeys)
        && wizard.activeTab == old(wizard.activeTab) && wizard.id == old(wizard.id)
        && error == "Failed to " + (if editing then "update" else "submit") + " booking. Please try again."
      ensures sent.Some? && outcome.Succeeded? ==> submitted == Some(outcome.result) && error == ""
      ensures sent.Some? && outcome.Succeeded? && sent.value.verb == Post ==>
        formData == BlankData && journeys == [BlankLeg] && wizard.activeTab == 0 && wizard.id == ""
      ensures sent.Some? && outcome.Succeeded? && sent.value.verb == Put ==>
        formData == old(formData) && journeys == old(journeys)
        && wizard.activeTab == old(wizard.activeTab) && wizard.id == old(wizard.id)
      ensures !isLoading
    {
      isLoading := true;
      error := "";
      submitted := None;
      var failure := "Failed to " + (if editing then "update" else "submit") + " booking. Please try again.";
      if editing && initial.None? {
        sent := None;
        error := failure;
      } else {
        var body := FinalData(formData, journeys, wizard.id, initial, editing, now);
        var request := SubmitRequest(apiUrl, editing, initial, body);
        sent := Some(request);
        if outcome.Failed? {
          error := failure;
        } else {
          if request.verb == Post {
            formData := BlankData;
            journeys := [BlankLeg];
            wizard.Reset();
          }
          submitted := Some(outcome.result);
        }
      }
      isLoading := false;
    }
  }
}
