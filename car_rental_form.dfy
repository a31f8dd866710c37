/** The car rental form: header fields, the three-tab wizard with the
    'CAR-' booking ID, the location prompts, the payload and the request to
    the fixed local server, and the record handed to `onSubmit`. */
module CarRentalForm {
  import opened Wrappers
  import opened Text
  import opened Records
  import opened FormKit

  /** The form's initial fields. */
  const BlankData: Fields := map[
    "dateOfBooking" := "", "agentName" := "", "bookingEntity" := "", "bookingAgent" := "",
    "travelerName" := "", "contactNumber" := "", "city" := "", "pickupLocation" := "",
    "dropoffLocation" := "", "pickupTime" := "", "invoiceNumber" := "", "creditNoteNumber" := "",
    "amount" := "", "refundAmount" := "", "paymentStatus" := "notReceived"]

  /** The fields basic info needs. */
  const BasicKeys := [
    "dateOfBooking", "agentName", "bookingEntity", "bookingAgent", "travelerName",
    "contactNumber", "city", "pickupLocation", "dropoffLocation", "pickupTime"]

  /** `isBasicInfoFilled` */
  predicate BasicInfoFilled(form: Fields) {
    AllFilled(form, BasicKeys)
  }

  /** A new form has no basic info, so the wizard stays on its first tab
      until the rental details are entered. */
  lemma BlankHasNoBasicInfo()
    ensures !BasicInfoFilled(BlankData)
  {
    assert !Filled(BlankData, BasicKeys[0]);
  }

  /** The fields `submitData` copies as the form holds them. */
  const CopiedKeys: set<string> := {
    "dateOfBooking", "agentName", "bookingEntity", "bookingAgent", "travelerName", "contactNumber",
    "city", "pickupLocation", "dropoffLocation", "pickupTime", "paymentStatus"}

  /** The fields `submitData` sets itself. */
  const SetKeys: set<string> := {
    "bookingId", "bookingType", "invoiceNumber", "creditNoteNumber", "amount", "refundAmount", "submittedAt", "lastModified"}

  lemma KeysApart(k: string)
    requires k in SetKeys
    ensures k !in CopiedKeys
  {
  }

  /** The fields `submitData` sets before the timestamps: the booking ID,
      the invoice and credit note defaulting to '', the amount and refund
      defaulting to '0', and the 'car_rental' tag. */
  function Extras(form: Fields, bookingId: string): (r: Fields)
    ensures r.Keys <= SetKeys && "submittedAt" !in r && "lastModified" !in r
    ensures Lookup(r, "bookingId") == Some(bookingId) && Lookup(r, "bookingType") == Some("car_rental")
    ensures Lookup(r, "invoiceNumber") == Some(OrElse(Lookup(form, "invoiceNumber"), ""))
    ensures Lookup(r, "creditNoteNumber") == Some(OrElse(Lookup(form, "creditNoteNumber"), ""))
    ensures Lookup(r, "amount") == Some(OrElse(Lookup(form, "amount"), "0"))
    ensures Lookup(r, "refundAmount") == Some(OrElse(Lookup(form, "refundAmount"), "0"))
  {
    map["bookingId" := bookingId,
      "invoiceNumber" := OrElse(Lookup(form, "invoiceNumber"), ""),
      "creditNoteNumber" := OrElse(Lookup(form, "creditNoteNumber"), ""),
      "amount" := OrElse(Lookup(form, "amount"), "0"),
      "refundAmount" := OrElse(Lookup(form, "refundAmount"), "0"),
      "bookingType" := "car_rental"]
  }

  /** The fields of `submitData` before the timestamps: the copied fields
      and `Extras`. */
  function Header(form: Fields, bookingId: string): (r: Fields)
    ensures "submittedAt" !in r && "lastModified" !in r
    ensures forall k :: k in CopiedKeys ==> Lookup(r, k) == Lookup(form, k)
    ensures forall k :: k in Extras(form, bookingId) ==> Lookup(r, k) == Some(Extras(form, bookingId)[k])
    ensures forall k :: k !in CopiedKeys && k !in SetKeys ==> k !in r
  {
    var extras := Extras(form, bookingId);
    forall k | k in extras ensures k !in CopiedKeys {
      KeysApart(k);
    }
    KeysApart("submittedAt");
    KeysApart("lastModified");
    Pick(form, CopiedKeys) + extras
  }

  /** `submitData` with its timestamps: `Header` and `Stamps`. Keys the
      form gained beyond its own are not sent. */
  function SubmitData(form: Fields, bookingId: string, editing: bool, initial: Option<Booking>, now: string): (r: Booking)
    ensures r.journeyDetails.None?
    ensures forall k :: k != "submittedAt" && k != "lastModified" ==> Get(r, k) == Lookup(Header(form, bookingId), k)
    ensures Get(r, "submittedAt") == Some(if editing && initial.Some? then OrElse(Get(initial.value, "submittedAt"), now) else now)
    ensures Get(r, "lastModified") == if editing then Some(now) else None
  {
    var kept := if initial.Some? then Get(initial.value, "submittedAt") else None;
    StampedLookup(Header(form, bookingId), editing, kept, now);
    Booking(Header(form, bookingId) + Stamps(editing, kept, now), None)
  }

  /** The server the form talks to, fixed in the source whatever the
      configured API URL is. */
  const Server := "http://localhost:3000"

  /** The request: PUT to the record when editing one with an `_id`; POST
      to the collection otherwise. */
  function SubmitRequest(editing: bool, initial: Option<Booking>, body: Booking): (r: Request<Booking>)
    ensures r.verb == Put <==> editing && initial.Some? && Truthy(Get(initial.value, "_id"))
    ensures r.verb == Put ==> r.url == Server + "/api/car-rentals/" + Get(initial.value, "_id").value
    ensures r.verb == Post ==> r.url == Server + "/api/car-rentals"
    ensures r.body == body
  {
    if editing && initial.Some? && Truthy(Get(initial.value, "_id"))
    then Request(Put, Server + "/api/car-rentals/" + Get(initial.value, "_id").value, body)
    else Request(Post, Server + "/api/car-rentals", body)
  }

  /** Every request, create or update, goes under the collection on the
      local server. */
  lemma RequestUnderCollection(editing: bool, initial: Option<Booking>, body: Booking)
    ensures StartsWith(SubmitRequest(editing, initial, body).url, Server + "/api/car-rentals")
  {
    var r := SubmitRequest(editing, initial, body);
    assert r.url[..|Server + "/api/car-rentals"|] == Server + "/api/car-rentals";
  }

  const IdPrefix := "CAR-"

  class Form {
    var formData: Fields
    const wizard: Wizard
    const editing: bool
    const initial: Option<Booking>

    ghost predicate Valid()
      reads this, wizard
    {
      wizard.Valid() && wizard.tabCount == 3 && wizard.rule == FirstThree
      && wizard.prefix == IdPrefix && wizard.extra == 3 && wizard.editing == editing
    }

    /** The fields come from the initial record whenever there is one; the
        booking ID only in edit mode, from the record's `bookingId`. */
    constructor (editing: bool, initial: Option<Booking>)
      ensures Valid() && fresh(wizard) && wizard.activeTab == 0
      ensures this.editing == editing && this.initial == initial
      ensures formData == if initial.Some? then Prefilled(initial.value, BlankData) else BlankData
      ensures wizard.id == if editing && initial.Some? then OrElse(Get(initial.value, "bookingId"), "") else ""
    {
      this.editing := editing;
      this.initial := initial;
      wizard := new Wizard(3, FirstThree, IdPrefix, 3, editing);
      formData := if initial.Some? then Prefilled(initial.value, BlankData) else BlankData;
      new;
      if editing && initial.Some? && Truthy(Get(initial.value, "bookingId")) {
        wizard.SetId(Get(initial.value, "bookingId").value);
      }
    }

    predicate IsBasicInfoFilled()
      reads this
    {
      BasicInfoFilled(formData)
    }

    /** `handleChange` */
    method HandleChange(name: string, value: string)
      modifies this`formData
      ensures formData == SetField(old(formData), name, value)
    {
      formData := SetField(formData, name, value);
    }

    /** `handleLocationEdit`: `entered` is the prompt's answer, `None` when
        it was cancelled. */
    method HandleLocationEdit(field: string, entered: Option<string>)
      modifies this`formData
      ensures formData == LocationEdit(old(formData), field, entered)
    {
      formData := LocationEdit(formData, field, entered);
    }

    method HandleNext(picks: IdPicks)
      requires Valid() && PicksFit(picks, 3)
      modifies wizard`activeTab, wizard`id
      ensures Valid()
      ensures wizard.activeTab == NextTab(old(wizard.activeTab), 3, CanProceedToTab(FirstThree, old(wizard.activeTab) + 1, BasicInfoFilled(formData)))
      ensures wizard.id == IdAfterArrival(old(wizard.activeTab), wizard.activeTab, old(wizard.id), editing, IdPrefix, picks)
    {
      wizard.HandleNext(IsBasicInfoFilled(), picks);
    }

    method HandlePrevious(picks: IdPicks)
      requires Valid() && PicksFit(picks, 3)
      modifies wizard`activeTab, wizard`id
      ensures Valid()
      ensures wizard.activeTab == PrevTab(old(wizard.activeTab))
      ensures wizard.id == IdAfterArrival(old(wizard.activeTab), wizard.activeTab, old(wizard.id), editing, IdPrefix, picks)
    {
      wizard.HandlePrevious(picks);
    }

    method SelectTab(index: int, picks: IdPicks)
      requires Valid() && PicksFit(picks, 3) && 0 <= index < 3
      modifies wizard`activeTab, wizard`id
      ensures Valid()
      ensures wizard.activeTab == if CanProceedToTab(FirstThree, index, BasicInfoFilled(formData)) then index else old(wizard.activeTab)
      ensures wizard.id == IdAfterArrival(old(wizard.activeTab), wizard.activeTab, old(wizard.id), editing, IdPrefix, picks)
    {
      wizard.SelectTab(index, IsBasicInfoFilled(), picks);
    }

    /** `handleSubmit`: the request is always sent; after a stored reply
        `onSubmit` receives `Delivered` and a new booking's form is reset. */
    method HandleSubmit(now: string, outcome: Outcome<Booking>) returns (sent: Request<Booking>, submitted: Option<Booking>)
      requires Valid()
      modifies this`formData, wizard`activeTab, wizard`id
      ensures Valid()
      ensures sent == SubmitRequest(editing, initial, SubmitData(old(formData), old(wizard.id), editing, initial, now))
      ensures submitted.Some? <==> outcome.Succeeded?
      ensures submitted.Some? ==>
        submitted.value == Delivered(outcome.result, if initial.Some? then Get(initial.value, "_id") else None,
          "bookingId", old(wizard.id), old(formData), editing, if initial.Some? then Get(initial.value, "submittedAt") else None, now)
      ensures submitted.Some? && !editing ==> formData == BlankData && wizard.activeTab == 0 && wizard.id == ""
      ensures submitted.None? || editing ==>
        formData == old(formData) && wizard.activeTab == old(wizard.activeTab) && wizard.id == old(wizard.id)
    {
      var form, id := formData, wizard.id;
      sent := SubmitRequest(editing, initial, SubmitData(form, id, editing, initial, now));
      submitted := None;
      if outcome.Succeeded? {
        var initialId := if initial.Some? then Get(initial.value, "_id") else None;
        var kept := if initial.Some? then Get(initial.value, "submittedAt") else None;
        submitted := Some(Delivered(outcome.result, initialId, "bookingId", id, form, editing, kept, now));
        if !editing {
          ResetForm();
        }
      }
    }

    /** The reset after a new booking is stored: blank fields, first tab, no ID. */
    method ResetForm()
      requires Valid()
      modifies this`formData, wizard`activeTab, wizard`id
      ensures Valid() && formData == BlankData && wizard.activeTab == 0 && wizard.id == ""
    {
      formData := BlankData;
      wizard.Reset();
    }
  }
}
