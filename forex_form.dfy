/** The forex booking form: its fields of text, checkboxes and the nested
    `documents` checklist, the five-tab wizard with the 'FX-' ticket ID,
    `handleChange`, the payload and request, and the record handed to
    `onSubmit`. */
module ForexForm {
  import opened Wrappers
  import opened Text
  import opened FormKit

  /** A field of the forex form as JavaScript holds it: a string, a
      checkbox's boolean, or the `documents` object of booleans. */
  datatype Value = Str(s: string) | Check(b: bool) | Docs(m: map<string, bool>)

  /** A forex form or record: field name to value; a key that is missing
      is a field whose value is `undefined`. */
  type Record = map<string, Value>

  /** JavaScript truthiness of a field: a non-empty string, `true`, or any object. */
  predicate IsTruthy(v: Option<Value>) {
    v.Some? && match v.value
      case Str(s) => s != ""
      case Check(b) => b
      case Docs(_) => true
  }

  /** `a || b` */
  function OrValue(a: Option<Value>, b: Value): (r: Value)
    ensures IsTruthy(a) ==> r == a.value
    ensures !IsTruthy(a) ==> r == b
  {
    if IsTruthy(a) then a.value else b
  }

  /** `a || b` where `b` may be undefined too. */
  function OrMaybe(a: Option<Value>, b: Option<Value>): (r: Option<Value>)
    ensures IsTruthy(a) ==> r == a
    ensures !IsTruthy(a) ==> r == b
  {
    if IsTruthy(a) then a else b
  }

  /** `record[key]` */
  function Field(m: Record, key: string): Option<Value> {
    if key in m then Some(m[key]) else None
  }

  /** A value placed in a template literal: a string as it is, a boolean
      as 'true' or 'false', an object as '[object Object]'. */
  function Interpolated(v: Value): string {
    match v
    case Str(s) => s
    case Check(b) => if b then "true" else "false"
    case Docs(_) => "[object Object]"
  }

  /** The documents checklist of a new form: none ticked. */
  const BlankDocuments: map<string, bool> := map["passport" := false, "visa" := false, "airlineTicket" := false, "panCard" := false]

  /** The fields of the form. */
  const FieldNames: set<string> := {
    "dateOfBooking", "agentName", "bookingAgent", "bookingEntity", "travelerName", "contactNumber",
    "city", "documents", "invoiceNumber", "creditNoteNumber", "amount", "refundAmount",
    "paymentStatus", "country", "nosOfDay", "departureDate", "returnDate", "exchangeDate",
    "totalForexPurchased", "ratePerDay", "entertainment", "debitTo", "inrAmount", "billNo",
    "paymentDetails", "company", "inrRefundAmount", "refundChequeNo", "dateOfCheque", "refundBankDate",
    "refundSendToAccount", "chequeNo", "dateOfChequeSecond", "bankReport", "dateReceived", "reportDateSendToAcc",
    "ftmDateSend", "ftmSendTo", "billNoSecond", "billAmount", "reportDue", "ftmDue",
    "recordIncomplete", "designation", "remarks", "denomination", "exchangeDone", "currencyCode",
    "department", "visaCost", "purchasedName", "numberOfDays", "billingEntity", "refundChequeDate",
    "refundBank", "refundSentToAccountDate", "surrenderBillNo"}

  /** The checkbox fields, which start unticked. */
  const CheckKeys: set<string> := {"reportDue", "ftmDue", "recordIncomplete", "exchangeDone"}

  /** A field's value in a new form: the checklist with nothing ticked, an
      unticked checkbox, 'notReceived' for the payment status, '' otherwise. */
  function BlankValue(k: string): Value {
    if k == "documents" then Docs(BlankDocuments)
    else if k in CheckKeys then Check(false)
    else if k == "paymentStatus" then Str("notReceived")
    else Str("")
  }

  /** The form's initial fields. */
  const BlankData: Record := map k | k in FieldNames :: BlankValue(k)

  /** The fields the edit prefill passes through the date normalisation. */
  const DateKeys: set<string> := {
    "dateOfBooking", "departureDate", "returnDate", "exchangeDate", "dateOfCheque", "refundBankDate",
    "dateOfChequeSecond", "dateReceived", "reportDateSendToAcc", "ftmDateSend"}

  /** The edit prefill, `{ key: initialData.key || default, ... }` over
      the fields of the blank form, with the date fields normalised. */
  function PrefillFrom(initial: Record, day: Value -> string): Record {
    map k | k in BlankData ::
      if k in DateKeys then (if IsTruthy(Field(initial, k)) then Str(day(initial[k])) else Str(""))
      else OrValue(Field(initial, k), BlankData[k])
  }

  /** The edit prefill holds every field of the blank form. A date field
      holds `day` of the stored value when that is truthy and '' otherwise;
      every other field is the stored value when truthy and its blank
      value otherwise (the `documents` object included). `day` stands for
      `new Date(v).toISOString().split('T')[0]`. */
  lemma PrefilledFields(initial: Record, day: Value -> string)
    ensures PrefillFrom(initial, day).Keys == BlankData.Keys
    ensures forall k :: k in BlankData && k in DateKeys ==>
      PrefillFrom(initial, day)[k] == if IsTruthy(Field(initial, k)) then Str(day(initial[k])) else Str("")
    ensures forall k :: k in BlankData && k !in DateKeys ==> PrefillFrom(initial, day)[k] == OrValue(Field(initial, k), BlankData[k])
  {
  }

  /** The ID an edit form starts with: the record's `ticketId`, else its
      `bookingId`, else none. */
  function StoredId(initial: Record): (r: string)
    ensures IsTruthy(Field(initial, "ticketId")) ==> r == Interpolated(initial["ticketId"])
    ensures !IsTruthy(Field(initial, "ticketId")) && IsTruthy(Field(initial, "bookingId")) ==> r == Interpolated(initial["bookingId"])
    ensures !IsTruthy(Field(initial, "ticketId")) && !IsTruthy(Field(initial, "bookingId")) ==> r == ""
  {
    if IsTruthy(Field(initial, "ticketId")) then Interpolated(initial["ticketId"])
    else if IsTruthy(Field(initial, "bookingId")) then Interpolated(initial["bookingId"])
    else ""
  }

  /** The fields basic info needs. */
  const BasicKeys := ["dateOfBooking", "agentName", "bookingAgent", "bookingEntity", "travelerName", "contactNumber", "city"]

  /** `isBasicInfoFilled` */
  predicate BasicInfoFilled(form: Record) {
    forall i :: 0 <= i < |BasicKeys| ==> IsTruthy(Field(form, BasicKeys[i]))
  }

  /** A new form has no basic info: no tab past the first can be entered. */
  lemma BlankHasNoBasicInfo()
    ensures !BasicInfoFilled(BlankData)
  {
    assert BlankData[BasicKeys[0]] == Str("");
  }

  /** The input event `handleChange` reads: the input's name, value, type
      (checkbox or not) and checked state. */
  datatype Change = Change(name: string, value: string, checkbox: bool, checked: bool)

  /** The documents object of the form; spreading a missing field or a
      non-object gives no entries. */
  function DocumentsOf(form: Record): map<string, bool> {
    if "documents" in form && form["documents"].Docs? then form["documents"].m else map[]
  }

  /** `handleChange`: an input named `doc_X` ticks or clears document `X`
      only; any other checkbox sets its field to its checked state; any
      other input sets its field to its value. No other field changes. */
  function Changed(form: Record, c: Change): (r: Record)
    ensures StartsWith(c.name, "doc_") ==>
      r.Keys == form.Keys + {"documents"}
      && (forall k :: k in form && k != "documents" ==> r[k] == form[k])
      && r["documents"].Docs?
      && r["documents"].m.Keys == DocumentsOf(form).Keys + {c.name[4..]}
      && r["documents"].m[c.name[4..]] == c.checked
      && forall d :: d in DocumentsOf(form) && d != c.name[4..] ==> r["documents"].m[d] == DocumentsOf(form)[d]
    ensures !StartsWith(c.name, "doc_") ==>
      r.Keys == form.Keys + {c.name}
      && (forall k :: k in form && k != c.name ==> r[k] == form[k])
      && r[c.name] == if c.checkbox then Check(c.checked) else Str(c.value)
  {
    if StartsWith(c.name, "doc_") then form["documents" := Docs(DocumentsOf(form)[c.name[4..] := c.checked])]
    else if c.checkbox then form[c.name := Check(c.checked)]
    else form[c.name := Str(c.value)]
  }

  /** Ticking a document on a blank form changes only the checklist; the
      basic-info fields, and so the reachable tabs, stay as they were. */
  lemma DocumentChangeKeepsBasicInfo(form: Record, c: Change)
    requires StartsWith(c.name, "doc_")
    ensures BasicInfoFilled(Changed(form, c)) == BasicInfoFilled(form)
  {
    var r := Changed(form, c);
    forall i | 0 <= i < |BasicKeys| ensures Field(r, BasicKeys[i]) == Field(form, BasicKeys[i]) {
      assert BasicKeys[i] != "documents";
    }
  }

  /** `submitData` before the timestamps: the ticket ID and 'forex' tag,
      then the form (which wins on a clash), then the amount and refund
      defaulting to '0'. */
  function Payload(form: Record, ticketId: string): (r: Record)
    ensures r.Keys == form.Keys + {"ticketId", "bookingType", "amount", "refundAmount"}
    ensures r["amount"] == OrValue(Field(form, "amount"), Str("0"))
    ensures r["refundAmount"] == OrValue(Field(form, "refundAmount"), Str("0"))
    ensures r["ticketId"] == if "ticketId" in form then form["ticketId"] else Str(ticketId)
    ensures r["bookingType"] == if "bookingType" in form then form["bookingType"] else Str("forex")
    ensures forall k :: k in form && k != "amount" && k != "refundAmount" ==> r[k] == form[k]
  {
    (map["ticketId" := Str(ticketId), "bookingType" := Str("forex")] + form)
      ["amount" := OrValue(Field(form, "amount"), Str("0"))]
      ["refundAmount" := OrValue(Field(form, "refundAmount"), Str("0"))]
  }

  /** `submitData` with its timestamps: when editing, `submittedAt` is kept
      from the initial record (else `now`) and `lastModified` is `now`; a
      new booking gets only a fresh `submittedAt`. */
  function SubmitData(form: Record, ticketId: string, editing: bool, initial: Option<Record>, now: string): (r: Record)
    ensures forall k :: k != "submittedAt" && k != "lastModified" ==> Field(r, k) == Field(Payload(form, ticketId), k)
    ensures Field(r, "submittedAt") == Some(if editing && initial.Some? then OrValue(Field(initial.value, "submittedAt"), Str(now)) else Str(now))
    ensures Field(r, "lastModified") == if editing then Some(Str(now)) else Field(form, "lastModified")
  {
    var payload := Payload(form, ticketId);
    var kept := if initial.Some? then Field(initial.value, "submittedAt") else None;
    if editing then payload["submittedAt" := OrValue(kept, Str(now))]["lastModified" := Str(now)]
    else payload["submittedAt" := Str(now)]
  }

  /** The request: PUT to the record when editing one with an `_id`; POST
      to the collection otherwise. */
  function SubmitRequest(apiUrl: string, editing: bool, initial: Option<Record>, body: Record): (r: Request<Record>)
    ensures r.verb == Put <==> editing && initial.Some? && IsTruthy(Field(initial.value, "_id"))
    ensures r.verb == Put ==> r.url == apiUrl + "/forex-bookings/" + Interpolated(initial.value["_id"])
    ensures r.verb == Post ==> r.url == apiUrl + "/forex-bookings"
    ensures r.body == body
  {
    if editing && initial.Some? && IsTruthy(Field(initial.value, "_id"))
    then Request(Put, apiUrl + "/forex-bookings/" + Interpolated(initial.value["_id"]), body)
    else Request(Post, apiUrl + "/forex-bookings", body)
  }

  /** The record `onSubmit` receives: `{ ...result, _id: result._id ||
      initialData?._id, ticketId, ...formData, submittedAt, lastModified }`,
      where an undefined `_id` or `lastModified` is no field at all. */
  function DeliveredRecord(result: Record, initial: Option<Record>, ticketId: string, form: Record, editing: bool, now: string): (r: Record)
    ensures Field(r, "submittedAt") == Some(if editing && initial.Some? then OrValue(Field(initial.value, "submittedAt"), Str(now)) else Str(now))
    ensures Field(r, "lastModified") == if editing then Some(Str(now)) else None
    ensures forall k :: k in form && k != "submittedAt" && k != "lastModified" ==> Field(r, k) == Some(form[k])
    ensures "ticketId" !in form ==> Field(r, "ticketId") == Some(Str(ticketId))
    ensures "_id" !in form ==> Field(r, "_id") == OrMaybe(Field(result, "_id"), if initial.Some? then Field(initial.value, "_id") else None)
    ensures forall k :: k !in form && k != "ticketId" && k != "_id" && k != "submittedAt" && k != "lastModified" ==> Field(r, k) == Field(result, k)
  {
    var theId := OrMaybe(Field(result, "_id"), if initial.Some? then Field(initial.value, "_id") else None);
    var kept := if initial.Some? then Field(initial.value, "submittedAt") else None;
    Restamped(WithIds(result, theId, ticketId) + form, editing, if editing then OrValue(kept, Str(now)) else Str(now), now)
  }

  /** `{ ...result, _id: theId, ticketId }`, an undefined `_id` being no field. */
  function WithIds(result: Record, theId: Option<Value>, ticketId: string): (r: Record)
    ensures Field(r, "ticketId") == Some(Str(ticketId)) && Field(r, "_id") == theId
    ensures forall k :: k != "ticketId" && k != "_id" ==> Field(r, k) == Field(result, k)
  {
    (if theId.Some? then result["_id" := theId.value] else result - {"_id"})["ticketId" := Str(ticketId)]
  }

  /** `{ ...fields, submittedAt, lastModified }` as `onSubmit` receives it:
      `lastModified` is no field at all outside editing. */
  function Restamped(fields: Record, editing: bool, submitted: Value, now: string): (r: Record)
    ensures Field(r, "submittedAt") == Some(submitted)
    ensures Field(r, "lastModified") == if editing then Some(Str(now)) else None
    ensures forall k :: k != "submittedAt" && k != "lastModified" ==> Field(r, k) == Field(fields, k)
  {
    var m := fields["submittedAt" := submitted];
    if editing then m["lastModified" := Str(now)] else m - {"lastModified"}
  }

  const IdPrefix := "FX-"

  class Form {
    var formData: Record
    const wizard: Wizard
    const editing: bool
    const initial: Option<Record>

    ghost predicate Valid()
      reads this, wizard
    {
      wizard.Valid() && wizard.tabCount == 5 && wizard.rule == AnyAfterFirst
      && wizard.prefix == IdPrefix && wizard.extra == 3 && wizard.editing == editing
    }

    /** A new form starts blank; an edit form with an initial record is
        prefilled from it and takes its `ticketId`, else its `bookingId`. */
    constructor (editing: bool, initial: Option<Record>, day: Value -> string)
      ensures Valid() && fresh(wizard) && wizard.activeTab == 0
      ensures this.editing == editing && this.initial == initial
      ensures formData == if editing && initial.Some? then PrefillFrom(initial.value, day) else BlankData
      ensures wizard.id == if editing && initial.Some? then StoredId(initial.value) else ""
    {
      this.editing := editing;
      this.initial := initial;
      wizard := new Wizard(5, AnyAfterFirst, IdPrefix, 3, editing);
      formData := if editing && initial.Some? then PrefillFrom(initial.value, day) else BlankData;
      new;
      if editing && initial.Some? && StoredId(initial.value) != "" {
        wizard.SetId(StoredId(initial.value));
      }
    }

    predicate IsBasicInfoFilled()
      reads this
    {
      BasicInfoFilled(formData)
    }

    /** `handleChange` */
    method HandleChange(c: Change)
      modifies this`formData
      ensures formData == Changed(old(formData), c)
    {
      formData := Changed(formData, c);
    }

    method HandleNext(picks: IdPicks)
      requires Valid() && PicksFit(picks, 3)
      modifies wizard`activeTab, wizard`id
      ensures Valid()
      ensures wizard.activeTab == NextTab(old(wizard.activeTab), 5, CanProceedToTab(AnyAfterFirst, old(wizard.activeTab) + 1, BasicInfoFilled(formData)))
      ensures wizard.id == IdAfterArrival(old(wizard.activeTab), wizard.activeTab, old(wizard.id), editing, IdPrefix, picks)
    {
      wizard.HandleNext(IsBasicInfoFilled(), picks);
    }

    method HandlePrevious(picks: IdPicks)
      requires Valid() && PicksFit(picks, 3)
      modifies wizard`activeTab, wizard`id
      ensures Valid()
      ensures wizard.activeTab == PrevTab(old(wizard.activeTab))
      ensures wizard.id == IdAfterArrival(old(wizard.activeTab), wizard.activeTab, old(wizard.id), editing, IdPrefix, picks)
    {
      wizard.HandlePrevious(picks);
    }

    method SelectTab(index: int, picks: IdPicks)
      requires Valid() && PicksFit(picks, 3) && 0 <= index < 5
      modifies wizard`activeTab, wizard`id
      ensures Valid()
      ensures wizard.activeTab == if CanProceedToTab(AnyAfterFirst, index, BasicInfoFilled(formData)) then index else old(wizard.activeTab)
      ensures wizard.id == IdAfterArrival(old(wizard.activeTab), wizard.activeTab, old(wizard.id), editing, IdPrefix, picks)
    {
      wizard.SelectTab(index, IsBasicInfoFilled(), picks);
    }

    /** `handleSubmit`: the request is always sent; after a stored reply
        `onSubmit` receives `Delivered` and a new booking's form is reset. */
    method HandleSubmit(apiUrl: string, now: string, outcome: Outcome<Record>) returns (sent: Request<Record>, submitted: Option<Record>)
      requires Valid()
      modifies this`formData, wizard`activeTab, wizard`id
      ensures Valid()
      ensures sent == SubmitRequest(apiUrl, editing, initial, SubmitData(old(formData), old(wizard.id), editing, initial, now))
      ensures submitted.Some? <==> outcome.Succeeded?
      ensures submitted.Some? ==> submitted.value == DeliveredRecord(outcome.result, initial, old(wizard.id), old(formData), editing, now)
      ensures submitted.Some? && !editing ==> formData == BlankData && wizard.activeTab == 0 && wizard.id == ""
      ensures submitted.None? || editing ==>
        formData == old(formData) && wizard.activeTab == old(wizard.activeTab) && wizard.id == old(wizard.id)
    {
      var form, id := formData, wizard.id;
      sent := SubmitRequest(apiUrl, editing, initial, SubmitData(form, id, editing, initial, now));
      submitted := None;
      if outcome.Succeeded? {
        submitted := Some(DeliveredRecord(outcome.result, initial, id, form, editing, now));
        if !editing {
          ResetForm();
        }
      }
    }

    /** The reset after a new booking is stored: blank fields, first tab, no ID. */
    method ResetForm()
      requires Valid()
      modifies this`formData, wizard`activeTab, wizard`id
      ensures Valid() && formData == BlankData && wizard.activeTab == 0 && wizard.id == ""
    {
      formData := BlankData;
      wizard.Reset();
    }
  }
}
