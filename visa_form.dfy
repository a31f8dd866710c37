/** The visa booking form: its fields, the three-tab wizard with the
    'VISA-' booking ID, the payload, and the request whose method follows
    the editing mode alone. */
module VisaForm {
  import opened Wrappers
  import opened Text
  import opened Records
  import opened FormKit

  /** The form's initial fields. */
  const BlankData: Fields := map[
    "dateOfBooking" := "", "agentName" := "", "bookingAgent" := "", "bookingEntity" := "",
    "travelerName" := "", "contactNumber" := "", "city" := "", "passport" := "", "airlineTicket" := "",
    "hotelBookingConfirmation" := "", "panCard" := "", "invoiceNumber" := "", "creditNoteNumber" := "",
    "amount" := "", "refundAmount" := "", "paymentStatus" := "notReceived", "remarks" := ""]

  /** The fields basic info needs. */
  const BasicKeys := ["dateOfBooking", "agentName", "bookingAgent", "bookingEntity", "travelerName", "contactNumber", "city"]

  /** `isBasicInfoFilled` */
  predicate BasicInfoFilled(form: Fields) {
    AllFilled(form, BasicKeys)
  }

  /** A new form has no basic info: the wizard stays on its first tab. */
  lemma BlankHasNoBasicInfo()
    ensures !BasicInfoFilled(BlankData)
  {
    assert !Filled(BlankData, BasicKeys[0]);
  }

  /** `dataToSend`: the form with the booking ID as `ticketId` and the
      'visa' tag, both winning over the form's own fields; every other
      field is the form's. */
  function Payload(form: Fields, bookingId: string): (r: Booking)
    ensures r.fields.Keys == form.Keys + {"ticketId", "bookingType"}
    ensures Get(r, "ticketId") == Some(bookingId) && Get(r, "bookingType") == Some("visa")
    ensures forall k :: k != "ticketId" && k != "bookingType" ==> Get(r, k) == Lookup(form, k)
    ensures r.journeyDetails.None?
  {
    Booking(form + map["ticketId" := bookingId, "bookingType" := "visa"], None)
  }

  /** The request, `None` where building it throws: an edit form without an
      initial record has no `initialData._id` to read. The method is PUT
      exactly when editing, whether or not the record has an `_id` (a
      missing one is rendered 'undefined' in the URL); a new booking is a
      POST to the collection. */
  function SubmitRequest(apiUrl: string, editing: bool, initial: Option<Booking>, body: Booking): (r: Option<Request<Booking>>)
    ensures r.None? <==> editing && initial.None?
    ensures r.Some? ==> (r.value.verb == Put <==> editing) && r.value.body == body
    ensures r.Some? && editing ==> r.value.url == apiUrl + "/visa-bookings/" + Interpolate(Get(initial.value, "_id"))
    ensures r.Some? && !editing ==> r.value.url == apiUrl + "/visa-bookings"
  {
    if !editing then Some(Request(Post, apiUrl + "/visa-bookings", body))
    else if initial.None? then None
    else Some(Request(Put, apiUrl + "/visa-bookings/" + Interpolate(Get(initial.value, "_id")), body))
  }

  /** Every request goes under the collection, an update one segment below it. */
  lemma RequestUnderCollection(apiUrl: string, editing: bool, initial: Option<Booking>, body: Booking)
    requires SubmitRequest(apiUrl, editing, initial, body).Some?
    ensures StartsWith(SubmitRequest(apiUrl, editing, initial, body).value.url, apiUrl + "/visa-bookings")
  {
    var url := SubmitRequest(apiUrl, editing, initial, body).value.url;
    assert url[..|apiUrl + "/visa-bookings"|] == apiUrl + "/visa-bookings";
  }

  const IdPrefix := "VISA-"

  class Form {
    var formData: Fields
    const wizard: Wizard
    const editing: bool
    const initial: Option<Booking>

    ghost predicate Valid()
      reads this, wizard
    {
      wizard.Valid() && wizard.tabCount == 3 && wizard.rule == FirstThree
      && wizard.prefix == IdPrefix && wizard.extra == 4 && wizard.editing == editing
    }

    /** The fields come from the initial record whenever there is one; the
        booking ID only in edit mode, from the record's `ticketId`. */
    constructor (editing: bool, initial: Option<Booking>)
      ensures Valid() && fresh(wizard) && wizard.activeTab == 0
      ensures this.editing == editing && this.initial == initial
      ensures formData == if initial.Some? then Prefilled(initial.value, BlankData) else BlankData
      ensures wizard.id == if editing && initial.Some? then OrElse(Get(initial.value, "ticketId"), "") else ""
    {
      this.editing := editing;
      this.initial := initial;
      wizard := new Wizard(3, FirstThree, IdPrefix, 4, editing);
      formData := if initial.Some? then Prefilled(initial.value, BlankData) else BlankData;
      new;
      if editing && initial.Some? && Truthy(Get(initial.value, "ticketId")) {
        wizard.SetId(Get(initial.value, "ticketId").value);
      }
    }

    predicate IsBasicInfoFilled()
      reads this
    {
      BasicInfoFilled(formData)
    }

    /** `handleChange` */
    method HandleChange(name: string, value: string)
      modifies this`formData
      ensures formData == SetField(old(formData), name, value)
    {
      formData := SetField(formData, name, value);
    }

    method HandleNext(picks: IdPicks)
      requires Valid() && PicksFit(picks, 4)
      modifies wizard`activeTab, wizard`id
      ensures Valid()
      ensures wizard.activeTab == NextTab(old(wizard.activeTab), 3, CanProceedToTab(FirstThree, old(wizard.activeTab) + 1, BasicInfoFilled(formData)))
      ensures wizard.id == IdAfterArrival(old(wizard.activeTab), wizard.activeTab, old(wizard.id), editing, IdPrefix, picks)
    {
      wizard.HandleNext(IsBasicInfoFilled(), picks);
    }

    method HandlePrevious(picks: IdPicks)
      requires Valid() && PicksFit(picks, 4)
      modifies wizard`activeTab, wizard`id
      ensures Valid()
      ensures wizard.activeTab == PrevTab(old(wizard.activeTab))
      ensures wizard.id == IdAfterArrival(old(wizard.activeTab), wizard.activeTab, old(wizard.id), editing, IdPrefix, picks)
    {
      wizard.HandlePrevious(picks);
    }

    method SelectTab(index: int, picks: IdPicks)
      requires Valid() && PicksFit(picks, 4) && 0 <= index < 3
      modifies wizard`activeTab, wizard`id
      ensures Valid()
      ensures wizard.activeTab == if CanProceedToTab(FirstThree, index, BasicInfoFilled(formData)) then index else old(wizard.activeTab)
      ensures wizard.id == IdAfterArrival(old(wizard.activeTab), wizard.activeTab, old(wizard.id), editing, IdPrefix, picks)
    {
      wizard.SelectTab(index, IsBasicInfoFilled(), picks);
    }

    /** `handleSubmit`: when the request can be built it is sent; a stored
        reply goes to `onSubmit` as it is, and a new booking's form is
        reset. Nothing changes otherwise. */
    method HandleSubmit(apiUrl: string, outcome: Outcome<Booking>) returns (sent: Option<Request<Booking>>, submitted: Option<Booking>)
      requires Valid()
      modifies this`formData, wizard`activeTab, wizard`id
      ensures Valid()
      ensures sent == SubmitRequest(apiUrl, editing, initial, Payload(old(formData), old(wizard.id)))
      ensures submitted.Some? <==> sent.Some? && outcome.Succeeded?
      ensures submitted.Some? ==> submitted.value == outcome.result
      ensures submitted.Some? && !editing ==> formData == BlankData && wizard.activeTab == 0 && wizard.id == ""
      ensures submitted.None? || editing ==>
        formData == old(formData) && wizard.activeTab == old(wizard.activeTab) && wizard.id == old(wizard.id)
    {
      sent := SubmitRequest(apiUrl, editing, initial, Payload(formData, wizard.id));
      submitted := None;
      if sent.Some? && outcome.Succeeded? {
        submitted := Some(outcome.result);
        if !editing {
          formData := BlankData;
          wizard.Reset();
        }
      }
    }
  }
}
