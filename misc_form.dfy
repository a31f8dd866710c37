/** The miscellaneous booking form: header fields, the list of service
    details, the three-tab wizard with the 'MISC-' ticket ID, the submitted
    payload and request, and the guard against a second submission while
    one is in flight. */
module MiscForm {
  import opened Wrappers
  import opened Text
  import opened Records
  import opened FormKit

  /** A miscellaneous record: its string fields and, when the record has
      one, its list of service details. */
  datatype MiscRecord = MiscRecord(fields: Fields, serviceDetails: Option<seq<Fields>>)

  /** The form's initial fields. */
  const BlankData: Fields := map[
    "bookingDate" := "", "agentName" := "", "bookingAgent" := "", "bookingEntity" := "",
    "travelerName" := "", "contactNumber" := "", "serviceType" := "", "invoiceNumber" := "",
    "creditNoteNumber" := "", "amount" := "", "refundAmount" := "", "paymentStatus" := "notReceived",
    "remarks" := ""]

  /** A new, empty service detail. */
  const BlankDetail: Fields := map["description" := "", "notes" := ""]

  /** The header fields basic info needs. */
  const BasicKeys := ["bookingDate", "agentName", "bookingAgent", "bookingEntity", "travelerName", "contactNumber", "serviceType"]

  /** A detail counts when its description is not blank; a detail without a
      description makes `trim` throw, and counts as not filled. */
  predicate DetailFilled(detail: Fields) {
    "description" in detail && !IsBlank(detail["description"])
  }

  /** `isBasicInfoFilled` */
  predicate BasicInfoFilled(form: Fields, details: seq<Fields>) {
    (forall i :: 0 <= i < |details| ==> DetailFilled(details[i])) && AllFilled(form, BasicKeys)
  }

  /** A blank detail is never filled, so adding one clears basic info until
      its description is written. */
  lemma AddedDetailUnfilled(form: Fields, details: seq<Fields>)
    ensures !BasicInfoFilled(form, details + [BlankDetail])
  {
    assert (details + [BlankDetail])[|details|] == BlankDetail;
    assert !DetailFilled(BlankDetail) by {
      BlankIffAllSpace("");
    }
  }

  /** A detail as the payload sends it: the description and the notes, each
      defaulting to the empty string. */
  function CleanDetail(detail: Fields): (r: Fields)
    ensures r.Keys == {"description", "notes"}
    ensures r["description"] == OrElse(Lookup(detail, "description"), "")
    ensures r["notes"] == OrElse(Lookup(detail, "notes"), "")
  {
    map["description" := OrElse(Lookup(detail, "description"), ""), "notes" := OrElse(Lookup(detail, "notes"), "")]
  }

  /** `serviceDetails.map(...)`: one clean detail per detail, in order. */
  function CleanDetails(details: seq<Fields>): (r: seq<Fields>)
    ensures |r| == |details|
    ensures forall i :: 0 <= i < |details| ==> r[i] == CleanDetail(details[i])
  {
    seq(|details|, i requires 0 <= i < |details| => CleanDetail(details[i]))
  }

  /** The creation metadata the payload carries: kept from the initial
      record when editing, the placeholder user and role for a new one. */
  function Metadata(editing: bool, initial: Option<MiscRecord>, now: string): (r: Fields)
    ensures r.Keys >= {"submittedAt", "lastModified", "submittedBy", "submittedByRole"}
    ensures r.Keys <= MetadataKeys
    ensures r["lastModified"] == now
    ensures !editing ==> r["submittedAt"] == now && r["submittedBy"] == "Current User" && r["submittedByRole"] == "PARENT" && "_id" !in r
    ensures editing ==>
      var old_ := if initial.Some? then initial.value.fields else map[];
      r["submittedAt"] == OrElse(Lookup(old_, "submittedAt"), now)
      && r["submittedBy"] == OrElse(Lookup(old_, "submittedBy"), "")
      && r["submittedByRole"] == OrElse(Lookup(old_, "submittedByRole"), "")
      && ("_id" in r <==> Truthy(Lookup(old_, "_id")))
      && ("_id" in r ==> r["_id"] == old_["_id"])
  {
    if editing then
      var old_ := if initial.Some? then initial.value.fields else map[];
      var m := map[
        "submittedAt" := OrElse(Lookup(old_, "submittedAt"), now), "lastModified" := now,
        "submittedBy" := OrElse(Lookup(old_, "submittedBy"), ""),
        "submittedByRole" := OrElse(Lookup(old_, "submittedByRole"), "")];
      if Truthy(Lookup(old_, "_id")) then m["_id" := old_["_id"]] else m
    else
      map["submittedAt" := now, "lastModified" := now, "submittedBy" := "Current User", "submittedByRole" := "PARENT"]
  }

  /** The keys of the thirteen header fields. */
  const HeaderKeys: set<string> := {
    "bookingDate", "agentName", "bookingAgent", "bookingEntity", "travelerName", "contactNumber",
    "serviceType", "invoiceNumber", "creditNoteNumber", "amount", "refundAmount", "paymentStatus", "remarks"}

  /** The keys the metadata may set. */
  const MetadataKeys: set<string> := {"submittedAt", "lastModified", "submittedBy", "submittedByRole", "_id"}

  /** No metadata key is a header key, the ticket ID or the tag. */
  lemma KeysApart(k: string)
    requires k in MetadataKeys
    ensures k !in HeaderKeys + {"ticketId", "bookingType"}
  {
    if k == "submittedAt" {
      assert "submittedAt" !in HeaderKeys;
    } else if k == "lastModified" {
      assert "lastModified" !in HeaderKeys;
    } else if k == "submittedBy" {
      assert "submittedBy" !in HeaderKeys;
    } else if k == "submittedByRole" {
      assert "submittedByRole" !in HeaderKeys;
    } else {
      assert "_id" !in HeaderKeys;
    }
  }

  /** The header part of `submitData`: the header fields as the form holds
      them, the ticket ID and the 'miscellaneous' tag. */
  function Header(form: Fields, ticketId: string): (r: Fields)
    ensures r.Keys <= HeaderKeys + {"ticketId", "bookingType"}
    ensures Lookup(r, "ticketId") == Some(ticketId) && Lookup(r, "bookingType") == Some("miscellaneous")
    ensures forall k :: k in HeaderKeys ==> Lookup(r, k) == Lookup(form, k)
  {
    Pick(form, HeaderKeys)["ticketId" := ticketId]["bookingType" := "miscellaneous"]
  }

  /** `submitData`: the header, the cleaned details and the metadata. */
  function SubmitData(form: Fields, details: seq<Fields>, ticketId: string, editing: bool, initial: Option<MiscRecord>, now: string): (r: MiscRecord)
    ensures r.serviceDetails == Some(CleanDetails(details))
    ensures Lookup(r.fields, "ticketId") == Some(ticketId) && Lookup(r.fields, "bookingType") == Some("miscellaneous")
    ensures forall k :: k in HeaderKeys ==> Lookup(r.fields, k) == Lookup(form, k)
    ensures forall k :: k in Metadata(editing, initial, now) ==> Lookup(r.fields, k) == Some(Metadata(editing, initial, now)[k])
    ensures r.fields.Keys <= HeaderKeys + {"ticketId", "bookingType"} + MetadataKeys
  {
    var meta := Metadata(editing, initial, now);
    forall k | k in meta
      ensures k !in HeaderKeys + {"ticketId", "bookingType"}
    {
      KeysApart(k);
    }
    MiscRecord(Header(form, ticketId) + meta, Some(CleanDetails(details)))
  }

  /** The request: the method is PUT exactly when editing; the URL names the
      record only when the initial record has an `_id`, so an edit without
      one is a PUT to the collection. */
  function SubmitRequest(apiUrl: string, editing: bool, initial: Option<MiscRecord>, body: MiscRecord): (r: Request<MiscRecord>)
    ensures r.verb == Put <==> editing
    ensures editing && initial.Some? && Truthy(Lookup(initial.value.fields, "_id")) ==>
      r.url == apiUrl + "/miscellaneous-bookings/" + initial.value.fields["_id"]
    ensures !(editing && initial.Some? && Truthy(Lookup(initial.value.fields, "_id"))) ==>
      r.url == apiUrl + "/miscellaneous-bookings"
    ensures r.body == body
  {
    var url :=
      if editing && initial.Some? && Truthy(Lookup(initial.value.fields, "_id"))
      then apiUrl + "/miscellaneous-bookings/" + initial.value.fields["_id"]
      else apiUrl + "/miscellaneous-bookings";
    Request(if editing then Put else Post, url, body)
  }

  const IdPrefix := "MISC-"

  class Form {
    var formData: Fields
    var details: seq<Fields>
    var isSubmitting: bool
    const wizard: Wizard
    const editing: bool
    const initial: Option<MiscRecord>

    ghost predicate Valid()
      reads this, wizard
    {
      wizard.Valid() && wizard.tabCount == 3 && wizard.rule == FirstThree
      && wizard.prefix == IdPrefix && wizard.extra == 3 && wizard.editing == editing
    }

    /** A new form, or an edit form prefilled from the initial record: each
        header field from the record or its blank value, the record's
        details when it has a list of them, and its ticket ID if it has one. */
    constructor (editing: bool, initial: Option<MiscRecord>)
      ensures Valid() && fresh(wizard) && wizard.activeTab == 0
      ensures this.editing == editing && this.initial == initial
      ensures !(editing && initial.Some?) ==> formData == BlankData && details == [BlankDetail] && wizard.id == ""
      ensures editing && initial.Some? ==>
        formData == Prefilled(Booking(initial.value.fields, None), BlankData)
        && details == initial.value.serviceDetails.GetOr([BlankDetail])
        && wizard.id == OrElse(Lookup(initial.value.fields, "ticketId"), "")
      ensures !isSubmitting
    {
      this.editing := editing;
      this.initial := initial;
      wizard := new Wizard(3, FirstThree, IdPrefix, 3, editing);
      isSubmitting := false;
      new;
      formData := BlankData;
      details := [BlankDetail];
      if editing && initial.Some? {
        formData := Prefilled(Booking(initial.value.fields, None), BlankData);
        details := initial.value.serviceDetails.GetOr([BlankDetail]);
        if Truthy(Lookup(initial.value.fields, "ticketId")) {
          wizard.SetId(initial.value.fields["ticketId"]);
        }
      }
    }

    predicate IsBasicInfoFilled()
      reads this
    {
      BasicInfoFilled(formData, details)
    }

    /** `handleChange` */
    method HandleChange(name: string, value: string)
      modifies this`formData
      ensures formData == SetField(old(formData), name, value)
    {
      formData := SetField(formData, name, value);
    }

    /** `addServiceDetail`: one blank detail more at the end. */
    method AddServiceDetail()
      modifies this`details
      ensures details == old(details) + [BlankDetail]
    {
      details := details + [BlankDetail];
    }

    /** `removeServiceDetail` */
    method RemoveServiceDetail(index: int)
      modifies this`details
      ensures details == RemoveEntry(old(details), index)
      ensures |old(details)| >= 1 ==> |details| >= 1
    {
      details := RemoveEntry(details, index);
    }

    /** `handleServiceDetailChange` */
    method HandleServiceDetailChange(index: int, field: string, value: string)
      modifies this`details
      ensures details == ChangeEntry(old(details), index, field, value)
    {
      details := ChangeEntry(details, index, field, value);
    }

    method HandleNext(picks: IdPicks)
      requires Valid() && PicksFit(picks, 3)
      modifies wizard`activeTab, wizard`id
      ensures Valid()
      ensures wizard.activeTab == NextTab(old(wizard.activeTab), 3, CanProceedToTab(FirstThree, old(wizard.activeTab) + 1, BasicInfoFilled(formData, details)))
      ensures wizard.id == IdAfterArrival(old(wizard.activeTab), wizard.activeTab, old(wizard.id), editing, IdPrefix, picks)
    {
      wizard.HandleNext(IsBasicInfoFilled(), picks);
    }

    method HandlePrevious(picks: IdPicks)
      requires Valid() && PicksFit(picks, 3)
      modifies wizard`activeTab, wizard`id
      ensures Valid()
      ensures wizard.activeTab == PrevTab(old(wizard.activeTab))
      ensures wizard.id == IdAfterArrival(old(wizard.activeTab), wizard.activeTab, old(wizard.id), editing, IdPrefix, picks)
    {
      wizard.HandlePrevious(picks);
    }

    method SelectTab(index: int, picks: IdPicks)
      requires Valid() && PicksFit(picks, 3) && 0 <= index < 3
      modifies wizard`activeTab, wizard`id
      ensures Valid()
      ensures wizard.activeTab == if CanProceedToTab(FirstThree, index, BasicInfoFilled(formData, details)) then index else old(wizard.activeTab)
      ensures wizard.id == IdAfterArrival(old(wizard.activeTab), wizard.activeTab, old(wizard.id), editing, IdPrefix, picks)
    {
      wizard.SelectTab(index, IsBasicInfoFilled(), picks);
    }

    /** The synchronous start of `handleSubmit`: while a submission is in
        flight nothing happens and nothing is sent; otherwise the form
        becomes busy and the request is sent. */
    method BeginSubmit(apiUrl: string, now: string) returns (sent: Option<Request<MiscRecord>>)
      modifies this`isSubmitting
      ensures old(isSubmitting) ==> sent.None? && isSubmitting
      ensures !old(isSubmitting) ==>
        isSubmitting
        && sent == Some(SubmitRequest(apiUrl, editing, initial, SubmitData(formData, details, wizard.id, editing, initial, now)))
    {
      if isSubmitting {
        return None;
      }
      isSubmitting := true;
      var body := SubmitData(formData, details, wizard.id, editing, initial, now);
      sent := Some(SubmitRequest(apiUrl, editing, initial, body));
    }

    /** The end of `handleSubmit` once the reply is in: a stored booking is
        passed to `onSubmit` and, for a new booking, the form is reset; a
        failure changes nothing. Either way the form is no longer busy. */
    method FinishSubmit(outcome: Outcome<Booking>) returns (submitted: Option<Booking>)
      requires Valid()
      modifies this`formData, this`details, this`isSubmitting, wizard`activeTab, wizard`id
      ensures Valid() && !isSubmitting
      ensures submitted == if outcome.Succeeded? then Some(outcome.result) else None
      ensures outcome.Succeeded? && !editing ==>
        formData == BlankData && details == [BlankDetail] && wizard.activeTab == 0 && wizard.id == ""
      ensures outcome.Failed? || editing ==>
        formData == old(formData) && details == old(details)
        && wizard.activeTab == old(wizard.activeTab) && wizard.id == old(wizard.id)
    {
      submitted := None;
      if outcome.Succeeded? {
        submitted := Some(outcome.result);
        if !editing {
          formData := BlankData;
          details := [BlankDetail];
          wizard.Reset();
        }
      }
      isSubmitting := false;
    }
  }

  /** While a submission is in flight a second one sends nothing, and the
      first one's end frees the form for the next. */
  method SubmitTwice(f: Form, apiUrl: string, now: string, outcome: Outcome<Booking>) returns (first: Option<Request<MiscRecord>>, second: Option<Request<MiscRecord>>, third: Option<Request<MiscRecord>>)
    requires f.Valid() && !f.isSubmitting
    modifies f, f.wizard
    ensures first.Some? && second.None? && third.Some?
  {
    first := f.BeginSubmit(apiUrl, now);
    second := f.BeginSubmit(apiUrl, now);
    var _ := f.FinishSubmit(outcome);
    third := f.BeginSubmit(apiUrl, now);
  }
}
