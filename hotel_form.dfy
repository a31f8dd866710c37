/** The hotel booking form: header fields, the three-tab wizard with the
    'HTL-' booking ID, the submitted payload and request, and the guard
    against a second submission while one is in flight. */
module HotelForm {
  import opened Wrappers
  import opened Text
  import opened Records
  import opened FormKit

  /** The form's initial fields. */
  const BlankData: Fields := map[
    "dateOfBooking" := "", "agentName" := "", "bookingEntity" := "", "bookingAgent" := "",
    "travelerName" := "", "contactNumber" := "", "checkInDate" := "", "checkOutDate" := "",
    "city" := "", "hotelName" := "", "invoiceNumber" := "", "creditNoteNumber" := "",
    "amount" := "", "refundAmount" := "", "paymentStatus" := "notReceived"]

  /** The fields basic info needs. */
  const BasicKeys := [
    "dateOfBooking", "agentName", "bookingEntity", "bookingAgent", "travelerName",
    "contactNumber", "checkInDate", "checkOutDate", "city", "hotelName"]

  /** `isBasicInfoFilled` */
  predicate BasicInfoFilled(form: Fields) {
    AllFilled(form, BasicKeys)
  }

  /** The hotel name is among the fields basic info needs. */
  lemma NoHotelNoBasicInfo(form: Fields)
    requires !Filled(form, "hotelName")
    ensures !BasicInfoFilled(form)
  {
    assert BasicKeys[9] == "hotelName";
  }

  /** The edit-mode booking ID: the record's ticket ID, else its booking ID,
      else none. */
  function InitialId(initial: Booking): (r: string)
    ensures Truthy(Get(initial, "ticketId")) ==> r == Get(initial, "ticketId").value
    ensures !Truthy(Get(initial, "ticketId")) && Truthy(Get(initial, "bookingId")) ==> r == Get(initial, "bookingId").value
    ensures !Truthy(Get(initial, "ticketId")) && !Truthy(Get(initial, "bookingId")) ==> r == ""
  {
    OrElse(Or(Get(initial, "ticketId"), Get(initial, "bookingId")), "")
  }

  /** The fields `submitData` copies as the form holds them. */
  const CopiedKeys: set<string> := {
    "dateOfBooking", "agentName", "bookingEntity", "bookingAgent", "travelerName",
    "contactNumber", "checkInDate", "checkOutDate", "city", "hotelName", "paymentStatus"}

  /** The fields `submitData` sets itself. */
  const SetKeys: set<string> := {
    "ticketId", "bookingId", "invoiceNumber", "creditNoteNumber", "amount", "refundAmount", "submittedAt", "lastModified"}

  lemma KeysApart(k: string)
    requires k in SetKeys
    ensures k !in CopiedKeys
  {
  }

  /** The fields `submitData` sets itself: the booking ID under both
      `ticketId` and `bookingId`, the payment fields defaulting to '',
      `submittedAt` kept from the initial record if it has one, and
      `lastModified` only when editing. */
  function Extras(form: Fields, bookingId: string, editing: bool, initial: Option<Booking>, now: string): (r: Fields)
    ensures r.Keys <= SetKeys
    ensures Lookup(r, "ticketId") == Some(bookingId) && Lookup(r, "bookingId") == Some(bookingId)
    ensures Lookup(r, "invoiceNumber") == Some(OrElse(Lookup(form, "invoiceNumber"), ""))
    ensures Lookup(r, "creditNoteNumber") == Some(OrElse(Lookup(form, "creditNoteNumber"), ""))
    ensures Lookup(r, "amount") == Some(OrElse(Lookup(form, "amount"), ""))
    ensures Lookup(r, "refundAmount") == Some(OrElse(Lookup(form, "refundAmount"), ""))
    ensures Lookup(r, "submittedAt") == Some(if initial.Some? then OrElse(Get(initial.value, "submittedAt"), now) else now)
    ensures Lookup(r, "lastModified") == if editing then Some(now) else None
  {
    var m := map[
      "ticketId" := bookingId, "bookingId" := bookingId,
      "invoiceNumber" := OrElse(Lookup(form, "invoiceNumber"), ""),
      "creditNoteNumber" := OrElse(Lookup(form, "creditNoteNumber"), ""),
      "amount" := OrElse(Lookup(form, "amount"), ""),
      "refundAmount" := OrElse(Lookup(form, "refundAmount"), ""),
      "submittedAt" := if initial.Some? then OrElse(Get(initial.value, "submittedAt"), now) else now];
    if editing then m["lastModified" := now] else m
  }

  /** `submitData`: the copied fields as the form holds them and `Extras`. */
  function SubmitData(form: Fields, bookingId: string, editing: bool, initial: Option<Booking>, now: string): (r: Booking)
    ensures r.journeyDetails.None?
    ensures r.fields.Keys <= CopiedKeys + SetKeys
    ensures forall k :: k in CopiedKeys ==> Get(r, k) == Lookup(form, k)
    ensures forall k :: k in SetKeys ==> Get(r, k) == Lookup(Extras(form, bookingId, editing, initial, now), k)
  {
    var extras := Extras(form, bookingId, editing, initial, now);
    forall k | k in extras ensures k !in CopiedKeys {
      KeysApart(k);
    }
    Booking(Pick(form, CopiedKeys) + extras, None)
  }

  /** The URL of a new booking as written: a single-quoted string, so the
      environment variable is never substituted. */
  const PostUrlAsWritten := "${import.meta.env.VITE_API_URL}" + "/hotel-bookings"

  /** The request with a given URL for new bookings. Editing PUTs to the
      initial record's `_id` under the API URL; editing without an initial
      record throws before anything is sent (`None`). */
  function RequestWith(postUrl: string, apiUrl: string, editing: bool, initial: Option<Booking>, body: Booking): (r: Option<Request<Booking>>)
    ensures r.None? <==> editing && initial.None?
    ensures r.Some? ==> r.value.body == body && (r.value.verb == Put <==> editing)
    ensures r.Some? && editing ==> r.value.url == apiUrl + "/hotel-bookings/" + Interpolate(Get(initial.value, "_id"))
    ensures !editing ==> r == Some(Request(Post, postUrl, body))
  {
    if !editing then Some(Request(Post, postUrl, body))
    else if initial.None? then None
    else Some(Request(Put, apiUrl + "/hotel-bookings/" + Interpolate(Get(initial.value, "_id")), body))
  }

  /** The request as written. */
  function RequestAsWritten(apiUrl: string, editing: bool, initial: Option<Booking>, body: Booking): Option<Request<Booking>> {
    RequestWith(PostUrlAsWritten, apiUrl, editing, initial, body)
  }

  /** As written, a new booking is never posted to the configured API: its
      URL is the literal text, while an update does go to the API. */
  lemma NewBookingMissesApi(apiUrl: string, initial: Option<Booking>, body: Booking)
    requires apiUrl != "" && apiUrl[0] != '$'
    ensures RequestAsWritten(apiUrl, false, initial, body).Some?
    ensures !StartsWith(RequestAsWritten(apiUrl, false, initial, body).value.url, apiUrl)
    ensures initial.Some? ==> StartsWith(RequestAsWritten(apiUrl, true, initial, body).value.url, apiUrl)
  {
    var url := RequestAsWritten(apiUrl, false, initial, body).value.url;
    assert url == PostUrlAsWritten;
    assert url[0] == '$';
    if initial.Some? {
      var put := RequestAsWritten(apiUrl, true, initial, body).value.url;
      assert put[..|apiUrl|] == apiUrl;
    }
  }

  /** The intended request: new bookings are posted to the collection under
      the configured API URL. */
  function SubmitRequest(apiUrl: string, editing: bool, initial: Option<Booking>, body: Booking): (r: Option<Request<Booking>>)
    ensures r.Some? ==> StartsWith(r.value.url, apiUrl + "/hotel-bookings")
  {
    var r := RequestWith(apiUrl + "/hotel-bookings", apiUrl, editing, initial, body);
    assert r.Some? ==> r.value.url[..|apiUrl + "/hotel-bookings"|] == apiUrl + "/hotel-bookings";
    r
  }

  /** Corrected, the update of a record goes to the URL its creation was
      posted to, followed by its `_id`. */
  lemma UpdateUnderCollection(apiUrl: string, b: Booking, body: Booking)
    ensures SubmitRequest(apiUrl, true, Some(b), body).value.url
         == SubmitRequest(apiUrl, false, None, body).value.url + "/" + Interpolate(Get(b, "_id"))
  {
  }

  const IdPrefix := "HTL-"

  class Form {
    var formData: Fields
    var isSubmitting: bool
    const wizard: Wizard
    const editing: bool
    const initial: Option<Booking>

    ghost predicate Valid()
      reads this, wizard
    {
      wizard.Valid() && wizard.tabCount == 3 && wizard.rule == FirstThree
      && wizard.prefix == IdPrefix && wizard.extra == 3 && wizard.editing == editing
    }

    /** A new form, or an edit form prefilled from the initial record with
        the booking ID `InitialId`. */
    constructor (editing: bool, initial: Option<Booking>)
      ensures Valid() && fresh(wizard) && wizard.activeTab == 0
      ensures this.editing == editing && this.initial == initial
      ensures !(editing && initial.Some?) ==> formData == BlankData && wizard.id == ""
      ensures editing && initial.Some? ==>
        formData == Prefilled(initial.value, BlankData) && wizard.id == InitialId(initial.value)
      ensures !isSubmitting
    {
      this.editing := editing;
      this.initial := initial;
      wizard := new Wizard(3, FirstThree, IdPrefix, 3, editing);
      isSubmitting := false;
      new;
      formData := BlankData;
      if editing && initial.Some? {
        formData := Prefilled(initial.value, BlankData);
        wizard.SetId(InitialId(initial.value));
      }
    }

    predicate IsBasicInfoFilled()
      reads this
    {
      BasicInfoFilled(formData)
    }

    /** `handleChange` */
    method HandleChange(name: string, value: string)
      modifies this`formData
      ensures formData == SetField(old(formData), name, value)
    {
      formData := SetField(formData, name, value);
    }

    method HandleNext(picks: IdPicks)
      requires Valid() && PicksFit(picks, 3)
      modifies wizard`activeTab, wizard`id
      ensures Valid()
      ensures wizard.activeTab == NextTab(old(wizard.activeTab), 3, CanProceedToTab(FirstThree, old(wizard.activeTab) + 1, BasicInfoFilled(formData)))
      ensures wizard.id == IdAfterArrival(old(wizard.activeTab), wizard.activeTab, old(wizard.id), editing, IdPrefix, picks)
    {
      wizard.HandleNext(IsBasicInfoFilled(), picks);
    }

    method HandlePrevious(picks: IdPicks)
      requires Valid() && PicksFit(picks, 3)
      modifies wizard`activeTab, wizard`id
      ensures Valid()
      ensures wizard.activeTab == PrevTab(old(wizard.activeTab))
      ensures wizard.id == IdAfterArrival(old(wizard.activeTab), wizard.activeTab, old(wizard.id), editing, IdPrefix, picks)
    {
      wizard.HandlePrevious(picks);
    }

    method SelectTab(index: int, picks: IdPicks)
      requires Valid() && PicksFit(picks, 3) && 0 <= index < 3
      modifies wizard`activeTab, wizard`id
      ensures Valid()
      ensures wizard.activeTab == if CanProceedToTab(FirstThree, index, BasicInfoFilled(formData)) then index else old(wizard.activeTab)
      ensures wizard.id == IdAfterArrival(old(wizard.activeTab), wizard.activeTab, old(wizard.id), editing, IdPrefix, picks)
    {
      wizard.SelectTab(index, IsBasicInfoFilled(), picks);
    }

    /** The synchronous start of `handleSubmit`: while a submission is in
        flight nothing happens; otherwise the request is built and sent and
        the form stays busy until `FinishSubmit`. A request that cannot be
        built (editing without an initial record) is caught at once and
        leaves the form free. */
    method BeginSubmit(apiUrl: string, now: string) returns (sent: Option<Request<Booking>>)
      modifies this`isSubmitting
      ensures old(isSubmitting) ==> sent.None? && isSubmitting
      ensures !old(isSubmitting) ==>
        sent == SubmitRequest(apiUrl, editing, initial, SubmitData(formData, wizard.id, editing, initial, now))
        && (isSubmitting <==> sent.Some?)
    {
      if isSubmitting {
        return None;
      }
      isSubmitting := true;
      var body := SubmitData(formData, wizard.id, editing, initial, now);
      sent := SubmitRequest(apiUrl, editing, initial, body);
      if sent.None? {
        isSubmitting := false;
      }
    }

    /** The end of `handleSubmit` once the reply is in: the `data` of an ok
        reply is passed to `onSubmit` and, for a new booking, the form is
        reset; an error reply or a network failure changes nothing. Either
        way the form is no longer busy. */
    method FinishSubmit(outcome: Outcome<Booking>) returns (submitted: Option<Booking>)
      requires Valid()
      modifies this`formData, this`isSubmitting, wizard`activeTab, wizard`id
      ensures Valid() && !isSubmitting
      ensures submitted == if outcome.Succeeded? then Some(outcome.result) else None
      ensures outcome.Succeeded? && !editing ==> formData == BlankData && wizard.activeTab == 0 && wizard.id == ""
      ensures outcome.Failed? || editing ==>
        formData == old(formData) && wizard.activeTab == old(wizard.activeTab) && wizard.id == old(wizard.id)
    {
      submitted := None;
      if outcome.Succeeded? {
        submitted := Some(outcome.result);
        if !editing {
          formData := BlankData;
          wizard.Reset();
        }
      }
      isSubmitting := false;
    }
  }
}
