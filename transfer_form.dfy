/** The airport transfer form: header fields, the three-tab wizard with the
    'TRF-' booking ID, the location prompts, the required-field check that
    gates submission, the payload and request, and the record handed to
    `onSubmit`. */
module TransferForm {
  import opened Wrappers
  import opened Text
  import opened Records
  import opened FormKit

  /** The form's initial fields. */
  const BlankData: Fields := map[
    "dateOfBooking" := "", "agentName" := "", "bookingAgent" := "", "bookingEntity" := "",
    "travelerName" := "", "contactNumber" := "", "city" := "", "pickupLocation" := "",
    "dropoffLocation" := "", "pickupTime" := "", "invoiceNumber" := "", "creditNoteNumber" := "",
    "amount" := "", "refundAmount" := "", "paymentStatus" := "notReceived"]

  /** The fields basic info needs. */
  const BasicKeys := [
    "dateOfBooking", "agentName", "bookingAgent", "bookingEntity", "travelerName",
    "contactNumber", "city", "pickupLocation", "dropoffLocation", "pickupTime"]

  /** `isBasicInfoFilled` */
  predicate BasicInfoFilled(form: Fields) {
    AllFilled(form, BasicKeys)
  }

  /** The required fields of `handleSubmit`, with their labels, in order. */
  const RequiredFields := [
    Required("dateOfBooking", "Date of Booking"), Required("agentName", "Agent Name"),
    Required("bookingAgent", "Booking Agent"), Required("bookingEntity", "Booking Entity"),
    Required("travelerName", "Traveler Name"), Required("contactNumber", "Contact Number"),
    Required("city", "City"), Required("pickupLocation", "Pickup Location"),
    Required("dropoffLocation", "Dropoff Location"), Required("pickupTime", "Pickup Time")]

  /** The required fields are the basic-info fields. */
  lemma RequiredAreBasic()
    ensures |RequiredFields| == |BasicKeys|
    ensures forall i :: 0 <= i < |BasicKeys| ==> RequiredFields[i].key == BasicKeys[i]
  {
  }

  /** A form that passes the submit check has basic info filled. */
  lemma PassingCheckMeansBasicInfo(form: Fields)
    requires MissingLabels(form, RequiredFields) == []
    ensures BasicInfoFilled(form)
  {
    NothingMissingMeansFilled(form, RequiredFields);
    RequiredAreBasic();
  }

  /** The check trims, basic info does not: a required field holding only
      spaces is reported, although it counts as filled for basic info. */
  lemma SpacesReported(form: Fields, i: int)
    requires 0 <= i < |RequiredFields| && Filled(form, RequiredFields[i].key) && IsBlank(form[RequiredFields[i].key])
    ensures RequiredFields[i].title in MissingLabels(form, RequiredFields)
  {
    MissingLabelsMembers(form, RequiredFields, RequiredFields[i].title);
  }

  /** The fields `submitData` copies as the form holds them. */
  const CopiedKeys: set<string> := {
    "dateOfBooking", "agentName", "bookingAgent", "bookingEntity", "travelerName", "contactNumber",
    "city", "pickupLocation", "dropoffLocation", "pickupTime", "paymentStatus"}

  /** The fields `submitData` sets itself. */
  const SetKeys: set<string> := {
    "ticketId", "bookingType", "invoiceNumber", "creditNoteNumber", "amount", "refundAmount", "submittedAt", "lastModified"}

  lemma KeysApart(k: string)
    requires k in SetKeys
    ensures k !in CopiedKeys
  {
  }

  /** The fields `submitData` sets before the timestamps: the ticket ID, the
      invoice and credit note defaulting to '', the amount and refund
      defaulting to '0', and the 'airport_transfer' tag. */
  function Extras(form: Fields, bookingId: string): (r: Fields)
    ensures r.Keys <= SetKeys && "submittedAt" !in r && "lastModified" !in r
    ensures Lookup(r, "ticketId") == Some(bookingId) && Lookup(r, "bookingType") == Some("airport_transfer")
    ensures Lookup(r, "invoiceNumber") == Some(OrElse(Lookup(form, "invoiceNumber"), ""))
    ensures Lookup(r, "creditNoteNumber") == Some(OrElse(Lookup(form, "creditNoteNumber"), ""))
    ensures Lookup(r, "amount") == Some(OrElse(Lookup(form, "amount"), "0"))
    ensures Lookup(r, "refundAmount") == Some(OrElse(Lookup(form, "refundAmount"), "0"))
  {
    map["ticketId" := bookingId,
      "invoiceNumber" := OrElse(Lookup(form, "invoiceNumber"), ""),
      "creditNoteNumber" := OrElse(Lookup(form, "creditNoteNumber"), ""),
      "amount" := OrElse(Lookup(form, "amount"), "0"),
      "refundAmount" := OrElse(Lookup(form, "refundAmount"), "0"),
      "bookingType" := "airport_transfer"]
  }

  /** The fields of `submitData` before the timestamps: the copied fields
      and `Extras`. */
  function Header(form: Fields, bookingId: string): (r: Fields)
    ensures "submittedAt" !in r && "lastModified" !in r
    ensures forall k :: k in CopiedKeys ==> Lookup(r, k) == Lookup(form, k)
    ensures forall k :: k in Extras(form, bookingId) ==> Lookup(r, k) == Some(Extras(form, bookingId)[k])
  {
    var extras := Extras(form, bookingId);
    forall k | k in extras ensures k !in CopiedKeys {
      KeysApart(k);
    }
    KeysApart("submittedAt");
    KeysApart("lastModified");
    Pick(form, CopiedKeys) + extras
  }

  /** `submitData` with its timestamps: `Header` and `Stamps`. */
  function SubmitData(form: Fields, bookingId: string, editing: bool, initial: Option<Booking>, now: string): (r: Booking)
    ensures r.journeyDetails.None?
    ensures forall k :: k != "submittedAt" && k != "lastModified" ==> Get(r, k) == Lookup(Header(form, bookingId), k)
    ensures Get(r, "submittedAt") == Some(if editing && initial.Some? then OrElse(Get(initial.value, "submittedAt"), now) else now)
    ensures Get(r, "lastModified") == if editing then Some(now) else None
  {
    var kept := if initial.Some? then Get(initial.value, "submittedAt") else None;
    StampedLookup(Header(form, bookingId), editing, kept, now);
    Booking(Header(form, bookingId) + Stamps(editing, kept, now), None)
  }

  /** The request: PUT to the record when editing one with an `_id`; POST
      to the creation endpoint otherwise. */
  function SubmitRequest(apiUrl: string, editing: bool, initial: Option<Booking>, body: Booking): (r: Request<Booking>)
    ensures r.verb == Put <==> editing && initial.Some? && Truthy(Get(initial.value, "_id"))
    ensures r.verb == Put ==> r.url == apiUrl + "/api/airport-transfer-bookings/" + Get(initial.value, "_id").value
    ensures r.verb == Post ==> r.url == apiUrl + "/api/airport-transfer"
    ensures r.body == body
  {
    if editing && initial.Some? && Truthy(Get(initial.value, "_id"))
    then Request(Put, apiUrl + "/api/airport-transfer-bookings/" + Get(initial.value, "_id").value, body)
    else Request(Post, apiUrl + "/api/airport-transfer", body)
  }

  const IdPrefix := "TRF-"

  class Form {
    var formData: Fields
    const wizard: Wizard
    const editing: bool
    const initial: Option<Booking>

    ghost predicate Valid()
      reads this, wizard
    {
      wizard.Valid() && wizard.tabCount == 3 && wizard.rule == FirstThree
      && wizard.prefix == IdPrefix && wizard.extra == 4 && wizard.editing == editing
    }

    /** The fields come from the initial record whenever there is one, in
        edit mode or not; the booking ID only in edit mode, from its ticket ID. */
    constructor (editing: bool, initial: Option<Booking>)
      ensures Valid() && fresh(wizard) && wizard.activeTab == 0
      ensures this.editing == editing && this.initial == initial
      ensures formData == if initial.Some? then Prefilled(initial.value, BlankData) else BlankData
      ensures wizard.id == if editing && initial.Some? then OrElse(Get(initial.value, "ticketId"), "") else ""
    {
      this.editing := editing;
      this.initial := initial;
      wizard := new Wizard(3, FirstThree, IdPrefix, 4, editing);
      formData := if initial.Some? then Prefilled(initial.value, BlankData) else BlankData;
      new;
      if editing && initial.Some? && Truthy(Get(initial.value, "ticketId")) {
        wizard.SetId(Get(initial.value, "ticketId").value);
      }
    }

    predicate IsBasicInfoFilled()
      reads this
    {
      BasicInfoFilled(formData)
    }

    /** `handleChange` */
    method HandleChange(name: string, value: string)
      modifies this`formData
      ensures formData == SetField(old(formData), name, value)
    {
      formData := SetField(formData, name, value);
    }

    /** `handleLocationEdit`: `entered` is the prompt's answer, `None` when
        it was cancelled. */
    method HandleLocationEdit(field: string, entered: Option<string>)
      modifies this`formData
      ensures formData == LocationEdit(old(formData), field, entered)
    {
      formData := LocationEdit(formData, field, entered);
    }

    method HandleNext(picks: IdPicks)
      requires Valid() && PicksFit(picks, 4)
      modifies wizard`activeTab, wizard`id
      ensures Valid()
      ensures wizard.activeTab == NextTab(old(wizard.activeTab), 3, CanProceedToTab(FirstThree, old(wizard.activeTab) + 1, BasicInfoFilled(formData)))
      ensures wizard.id == IdAfterArrival(old(wizard.activeTab), wizard.activeTab, old(wizard.id), editing, IdPrefix, picks)
    {
      wizard.HandleNext(IsBasicInfoFilled(), picks);
    }

    method HandlePrevious(picks: IdPicks)
      requires Valid() && PicksFit(picks, 4)
      modifies wizard`activeTab, wizard`id
      ensures Valid()
      ensures wizard.activeTab == PrevTab(old(wizard.activeTab))
      ensures wizard.id == IdAfterArrival(old(wizard.activeTab), wizard.activeTab, old(wizard.id), editing, IdPrefix, picks)
    {
      wizard.HandlePrevious(picks);
    }

    method SelectTab(index: int, picks: IdPicks)
      requires Valid() && PicksFit(picks, 4) && 0 <= index < 3
      modifies wizard`activeTab, wizard`id
      ensures Valid()
      ensures wizard.activeTab == if CanProceedToTab(FirstThree, index, BasicInfoFilled(formData)) then index else old(wizard.activeTab)
      ensures wizard.id == IdAfterArrival(old(wizard.activeTab), wizard.activeTab, old(wizard.id), editing, IdPrefix, picks)
    {
      wizard.SelectTab(index, IsBasicInfoFilled(), picks);
    }

    /** `handleSubmit`: `missing` lists the labels of the blank required
        fields; when there are any, nothing is sent and nothing changes.
        Otherwise the request is sent; after a stored reply `onSubmit`
        receives `Delivered` and a new booking's form is reset. */
    method HandleSubmit(apiUrl: string, now: string, outcome: Outcome<Booking>)
      returns (missing: seq<string>, sent: Option<Request<Booking>>, submitted: Option<Booking>)
      requires Valid()
      modifies this`formData, wizard`activeTab, wizard`id
      ensures Valid()
      ensures missing == MissingLabels(old(formData), RequiredFields)
      ensures missing != [] ==> sent.None? && submitted.None?
      ensures missing == [] ==>
        sent == Some(SubmitRequest(apiUrl, editing, initial, SubmitData(old(formData), old(wizard.id), editing, initial, now)))
      ensures submitted.Some? <==> missing == [] && outcome.Succeeded?
      ensures submitted.Some? ==>
        submitted.value == Delivered(outcome.result, if initial.Some? then Get(initial.value, "_id") else None,
          "ticketId", old(wizard.id), old(formData), editing, if initial.Some? then Get(initial.value, "submittedAt") else None, now)
      ensures submitted.Some? && !editing ==> formData == BlankData && wizard.activeTab == 0 && wizard.id == ""
      ensures submitted.None? || editing ==>
        formData == old(formData) && wizard.activeTab == old(wizard.activeTab) && wizard.id == old(wizard.id)
    {
      var form, id := formData, wizard.id;
      missing := MissingLabels(form, RequiredFields);
      if missing != [] {
        return missing, None, None;
      }
      sent := Some(SubmitRequest(apiUrl, editing, initial, SubmitData(form, id, editing, initial, now)));
      submitted := None;
      if outcome.Succeeded? {
        var initialId := if initial.Some? then Get(initial.value, "_id") else None;
        var kept := if initial.Some? then Get(initial.value, "submittedAt") else None;
        submitted := Some(Delivered(outcome.result, initialId, "ticketId", id, form, editing, kept, now));
        if !editing {
          ResetForm();
        }
      }
    }

    /** The reset after a new booking is stored: blank fields, first tab, no ID. */
    method ResetForm()
      requires Valid()
      modifies this`formData, wizard`activeTab, wizard`id
      ensures Valid() && formData == BlankData && wizard.activeTab == 0 && wizard.id == ""
    {
      formData := BlankData;
      wizard.Reset();
    }
  }
}
