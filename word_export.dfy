/** The Word export of one booking: the value helpers (`safeString`,
    `safeGet`, `formatBookingType`), the rows of the basic-information
    table, the default file name and the classification of a failure.
    The document itself is built and saved by the docx library, which is
    not part of this model; its failure is an input. */
module WordExport {
  import opened Wrappers
  import opened Text

  /** A JavaScript value as the export reads it. `undefined` is the absent
      `Option`. Numbers are integers here. */
  datatype Json =
    | JNull
    | JBool(b: bool)
    | JNumber(n: int)
    | JString(s: string)
    | JArray(items: seq<Json>)
    | JObject(fields: map<string, Json>)

  /** `!v` */
  predicate Falsy(v: Option<Json>) {
    v.None? || v.value == JNull || v.value == JBool(false) || v.value == JNumber(0) || v.value == JString("")
  }

  /** The decimal digits of a natural number. */
  function NatText(n: nat): (r: string)
    ensures r != [] && forall i :: 0 <= i < |r| ==> '0' <= r[i] <= '9'
  {
    if n < 10 then [Digit(n)] else NatText(n / 10) + [Digit(n % 10)]
  }

  function Digit(d: nat): (c: char)
    requires d < 10
    ensures '0' <= c <= '9'
  {
    "0123456789"[d]
  }

  /** The value of a string of decimal digits. */
  function DigitsValue(s: string): nat
    requires forall i :: 0 <= i < |s| ==> '0' <= s[i] <= '9'
    decreases |s|
  {
    if s == [] then 0 else DigitsValue(s[..|s| - 1]) * 10 + (s[|s| - 1] as int - '0' as int)
  }

  /** Reading back the digits of `NatText(n)` gives `n`. */
  lemma {:induction false} NatTextValue(n: nat)
    ensures DigitsValue(NatText(n)) == n
    decreases n
  {
    if n >= 10 {
      NatTextValue(n / 10);
      var t := NatText(n);
      assert t[..|t| - 1] == NatText(n / 10);
    }
  }

  /** `String(v)` for a defined value. An array joins its items with ',',
      writing null items as the empty string. */
  function ToText(j: Json): string {
    match j
    case JNull => "null"
    case JBool(b) => if b then "true" else "false"
    case JNumber(n) => if n < 0 then "-" + NatText(-n) else NatText(n)
    case JString(s) => s
    case JArray(items) =>
      if items == [] then ""
      else Join(seq(|items|, i requires 0 <= i < |items| => if items[i].JNull? then "" else ToText(items[i])), ',')
    case JObject(_) => "[object Object]"
  }

  /** `safeString`: null, undefined and '' are 'N/A'; anything else its text. */
  function SafeString(v: Option<Json>): (r: string)
    ensures v.None? || v.value == JNull || v.value == JString("") ==> r == "N/A"
    ensures v.Some? && v.value != JNull && v.value != JString("") ==> r == ToText(v.value)
  {
    if v.None? || v.value == JNull || v.value == JString("") then "N/A" else ToText(v.value)
  }

  /** Only an array can show as an empty cell: every other value has a
      non-empty text or is 'N/A'. */
  lemma SafeStringEmptyOnlyForArrays(v: Option<Json>)
    ensures SafeString(v) == "" ==> v.Some? && v.value.JArray?
  {
  }

  /** A string names an array index when it is the canonical decimal form of
      a natural number. */
  function ArrayIndex(key: string): (r: Option<nat>)
    ensures r.Some? ==> NatText(r.value) == key
  {
    if key != [] && (forall i :: 0 <= i < |key| ==> '0' <= key[i] <= '9') && (key == "0" || key[0] != '0')
       && NatText(DigitsValue(key)) == key
    then Some(DigitsValue(key))
    else None
  }

  /** Every index is named by its decimal form. */
  lemma ArrayIndexOfNatText(n: nat)
    ensures ArrayIndex(NatText(n)) == Some(n)
  {
    NatTextValue(n);
    NatTextNoLeadingZero(n);
  }

  lemma {:induction false} NatTextNoLeadingZero(n: nat)
    ensures NatText(n) == "0" || NatText(n)[0] != '0'
    decreases n
  {
    if n >= 10 {
      NatTextNoLeadingZero(n / 10);
      NatTextNotZero(n / 10);
    }
  }

  lemma NatTextNotZero(n: nat)
    requires n > 0
    ensures NatText(n) != "0"
  {
  }

  /** `v[key]` for a defined, non-null value: an object's own field, an
      array's or a string's `length` and indexed items, and undefined for
      every other property. */
  function Member(j: Json, key: string): (r: Option<Json>)
    ensures j.JObject? ==> r == if key in j.fields then Some(j.fields[key]) else None
    ensures j.JNull? || j.JBool? || j.JNumber? ==> r.None?
  {
    match j
    case JObject(m) => if key in m then Some(m[key]) else None
    case JArray(items) =>
      if key == "length" then Some(JNumber(|items|))
      else
        var i := ArrayIndex(key);
        if i.Some? && i.value < |items| then Some(items[i.value]) else None
    case JString(s) =>
      if key == "length" then Some(JNumber(|s|))
      else
        var i := ArrayIndex(key);
        if i.Some? && i.value < |s| then Some(JString([s[i.value]])) else None
    case _ => None
  }

  /** What `safeGet` computes for the keys of a path: before each key and at
      the end a null or undefined value gives the default. */
  function Walk(cur: Option<Json>, keys: seq<string>, default: Json): Json
    decreases |keys|
  {
    if cur.None? || cur.value.JNull? then default
    else if keys == [] then cur.value
    else Walk(Member(cur.value, keys[0]), keys[1..], default)
  }

  /** The value a path reaches when no step meets null or undefined. */
  function Reach(cur: Option<Json>, keys: seq<string>): (r: Option<Json>)
    ensures r.Some? ==> !r.value.JNull?
    decreases |keys|
  {
    if cur.None? || cur.value.JNull? then None
    else if keys == [] then cur
    else Reach(Member(cur.value, keys[0]), keys[1..])
  }

  /** `safeGet` returns the reached value, or the default exactly when the
      path meets null or undefined. */
  lemma {:induction false} WalkIsReach(cur: Option<Json>, keys: seq<string>, default: Json)
    ensures Walk(cur, keys, default) == if Reach(cur, keys).Some? then Reach(cur, keys).value else default
    decreases |keys|
  {
    if !(cur.None? || cur.value.JNull?) && keys != [] {
      WalkIsReach(Member(cur.value, keys[0]), keys[1..], default);
    }
  }

  /** Walking `p + q` is walking `q` from where `p` leads. */
  lemma {:induction false} ReachAppend(cur: Option<Json>, p: seq<string>, q: seq<string>)
    ensures Reach(cur, p + q) == if Reach(cur, p).Some? then Reach(Reach(cur, p), q) else None
    decreases |p|
  {
    if cur.None? || cur.value.JNull? {
    } else if p == [] {
      assert p + q == q;
    } else {
      assert (p + q)[0] == p[0] && (p + q)[1..] == p[1..] + q;
      ReachAppend(Member(cur.value, p[0]), p[1..], q);
    }
  }

  /** `safeGet(obj, path, defaultValue)`, walking the dot-separated keys. */
  method SafeGet(obj: Option<Json>, path: string, default: Json) returns (r: Json)
    ensures r == Walk(obj, Split(path, '.'), default)
  {
    var keys := Split(path, '.');
    var result := obj;
    var i := 0;
    while i < |keys|
      invariant 0 <= i <= |keys|
      invariant Walk(result, keys[i..], default) == Walk(obj, keys, default)
    {
      if result.None? || result.value.JNull? {
        return default;
      }
      assert keys[i..][1..] == keys[i + 1..];
      result := Member(result.value, keys[i]);
      i := i + 1;
    }
    r := if result.None? || result.value.JNull? then default else result.value;
  }

  /** `safeGet` for a single key, as the export calls it. */
  function Field(b: Option<Json>, key: string, default: Json): Json {
    Walk(b, [key], default)
  }

  /** For a key without a dot, `safeGet` reads that one field. */
  lemma FieldIsSafeGet(b: Option<Json>, key: string, default: Json)
    requires '.' !in key
    ensures Walk(b, Split(key, '.'), default) == Field(b, key, default)
  {
    SplitWithoutSeparator(key, '.');
  }

  lemma FieldOfObject(m: map<string, Json>, key: string, default: Json)
    ensures Field(Some(JObject(m)), key, default) == if key in m && m[key] != JNull then m[key] else default
  {
    assert [key][1..] == [];
    assert Walk(Some(JObject(m)), [key], default) == Walk(Member(JObject(m), key), [], default);
  }

  /** `formatBookingType`: 'Unknown' for a falsy type; otherwise its text
      with underscores as spaces and every word's first letter upper-cased. */
  function FormatBookingType(t: Option<Json>): (r: string)
    ensures Falsy(t) ==> r == "Unknown"
    ensures !Falsy(t) ==> |r| == |ToText(t.value)| && '_' !in r
    ensures !Falsy(t) ==> forall i :: 0 <= i < |r| ==> (r[i] == ' ' <==> ToText(t.value)[i] in {' ', '_'})
    ensures !Falsy(t) ==> forall i :: 0 <= i < |r| && WordStart(r, i) ==>
      r[i] == UpperChar(ToText(t.value)[i]) && !('a' <= r[i] <= 'z')
    ensures !Falsy(t) ==> forall i :: 0 <= i < |r| && !WordStart(r, i) ==>
      r[i] == if ToText(t.value)[i] == '_' then ' ' else ToText(t.value)[i]
  {
    if Falsy(t) then "Unknown"
    else
      var spaced := ReplaceAll(ToText(t.value), '_', ' ');
      CapitaliseWordsCases(spaced);
      CapitaliseWordsKeepsChar(spaced, ' ');
      assert forall i :: 0 <= i < |spaced| ==> CapitaliseWords(spaced)[i] != '_';
      CapitaliseWords(spaced)
  }

  /** Formatting a formatted type again changes nothing, unless the text was
      empty (an empty array), which formats to 'Unknown'. */
  lemma FormatBookingTypeIdempotent(t: Option<Json>)
    requires FormatBookingType(t) != ""
    ensures FormatBookingType(Some(JString(FormatBookingType(t)))) == FormatBookingType(t)
  {
    var r := FormatBookingType(t);
    if !Falsy(t) {
      var spaced := ReplaceAll(ToText(t.value), '_', ' ');
      assert ReplaceAll(r, '_', ' ') == r;
      CapitaliseWordsIdempotent(spaced);
    } else {
      assert ReplaceAll(r, '_', ' ') == r;
      assert CapitaliseWords(r) == r;
    }
  }

  /** One row of the basic-information table: its heading and its cell text. */
  datatype Row = Row(heading: string, text: string)

  const NA := JString("N/A")

  /** A row shown only when its value is not the string 'N/A'. */
  function Optional(heading: string, v: Json): seq<Row> {
    if v != NA then [Row(heading, SafeString(Some(v)))] else []
  }

  /** The contact value: `contact`, else `contactNumber`, else 'N/A'. */
  function Contact(b: Option<Json>): Json {
    Field(b, "contact", Field(b, "contactNumber", NA))
  }

  /** `basicInfoRows` */
  function BasicInfoRows(b: Option<Json>): (rows: seq<Row>)
    ensures 4 <= |rows| <= 8
  {
    [Row("Booking Type", SafeString(Some(JString(FormatBookingType(Some(Field(b, "bookingType", JString("Unknown"))))))))]
    + Optional("Booking Agent", Field(b, "bookingAgent", NA))
    + Optional("Agent Name", Field(b, "agentName", NA))
    + [Row("Booking Entity", SafeString(Some(Field(b, "bookingEntity", NA)))),
       Row("Traveler Name", SafeString(Some(Field(b, "travelerName", NA)))),
       Row("Contact Number", SafeString(Some(Contact(b))))]
    + Optional("Email", Field(b, "email", NA))
    + Optional("Passport Number", Field(b, "passportNumber", NA))
  }

  /** The labels of a table, in order. */
  function Labels(rows: seq<Row>): (r: seq<string>)
    ensures |r| == |rows| && forall i :: 0 <= i < |rows| ==> r[i] == rows[i].heading
  {
    seq(|rows|, i requires 0 <= i < |rows| => rows[i].heading)
  }

  /** The headings of the table when the optional rows shown are the given ones. */
  function Layout(agent: bool, name: bool, email: bool, passport: bool): seq<string> {
    ["Booking Type"] + (if agent then ["Booking Agent"] else []) + (if name then ["Agent Name"] else [])
    + ["Booking Entity", "Traveler Name", "Contact Number"]
    + (if email then ["Email"] else []) + (if passport then ["Passport Number"] else [])
  }

  /** The table's headings follow the layout: an optional row is shown
      exactly when its value is not 'N/A'. */
  lemma BasicInfoLayout(b: Option<Json>)
    ensures Labels(BasicInfoRows(b)) == Layout(Field(b, "bookingAgent", NA) != NA, Field(b, "agentName", NA) != NA,
                                              Field(b, "email", NA) != NA, Field(b, "passportNumber", NA) != NA)
  {
    var agent := Optional("Booking Agent", Field(b, "bookingAgent", NA));
    var name := Optional("Agent Name", Field(b, "agentName", NA));
    var email := Optional("Email", Field(b, "email", NA));
    var passport := Optional("Passport Number", Field(b, "passportNumber", NA));
    var fixed := [Row("Booking Entity", SafeString(Some(Field(b, "bookingEntity", NA)))),
                  Row("Traveler Name", SafeString(Some(Field(b, "travelerName", NA)))),
                  Row("Contact Number", SafeString(Some(Contact(b))))];
    var first := Row("Booking Type", SafeString(Some(JString(FormatBookingType(Some(Field(b, "bookingType", JString("Unknown"))))))));
    assert BasicInfoRows(b) == [first] + agent + name + fixed + email + passport;
    LabelsConcat([first] + agent + name + fixed + email, passport);
    LabelsConcat([first] + agent + name + fixed, email);
    LabelsConcat([first] + agent + name, fixed);
    LabelsConcat([first] + agent, name);
    LabelsConcat([first], agent);
    OptionalLabels("Booking Agent", Field(b, "bookingAgent", NA));
    OptionalLabels("Agent Name", Field(b, "agentName", NA));
    OptionalLabels("Email", Field(b, "email", NA));
    OptionalLabels("Passport Number", Field(b, "passportNumber", NA));
    assert Labels([first]) == ["Booking Type"];
    assert Labels(fixed) == ["Booking Entity", "Traveler Name", "Contact Number"];
  }

  lemma OptionalLabels(heading: string, v: Json)
    ensures Labels(Optional(heading, v)) == if v != NA then [heading] else []
  {
  }

  lemma LabelsConcat(a: seq<Row>, b: seq<Row>)
    ensures Labels(a + b) == Labels(a) + Labels(b)
  {
  }

  /** In every layout the type row comes first, the three fixed rows are
      present, and each optional row is present exactly when it is shown. */
  lemma LayoutRows(agent: bool, name: bool, email: bool, passport: bool)
    ensures var ls := Layout(agent, name, email, passport);
      ls[0] == "Booking Type"
      && "Booking Entity" in ls && "Traveler Name" in ls && "Contact Number" in ls
      && ("Booking Agent" in ls <==> agent) && ("Agent Name" in ls <==> name)
      && ("Email" in ls <==> email) && ("Passport Number" in ls <==> passport)
  {
    InLayout("Booking Agent", agent, name, email, passport);
    InLayout("Agent Name", agent, name, email, passport);
    InLayout("Email", agent, name, email, passport);
    InLayout("Passport Number", agent, name, email, passport);
    InLayout("Booking Entity", agent, name, email, passport);
    InLayout("Traveler Name", agent, name, email, passport);
    InLayout("Contact Number", agent, name, email, passport);
    assert |"Booking Agent"| == 13 && |"Agent Name"| == 10 && |"Email"| == 5 && |"Passport Number"| == 15;
    assert |"Booking Type"| == 12 && |"Booking Entity"| == 14 && |"Traveler Name"| == 13 && |"Contact Number"| == 14;
    assert "Booking Agent"[0] != "Traveler Name"[0];
  }

  /** The headings of a layout: the fixed ones and the optional ones shown. */
  lemma InLayout(x: string, agent: bool, name: bool, email: bool, passport: bool)
    ensures x in Layout(agent, name, email, passport) <==>
      x == "Booking Type" || (agent && x == "Booking Agent") || (name && x == "Agent Name")
      || x == "Booking Entity" || x == "Traveler Name" || x == "Contact Number"
      || (email && x == "Email") || (passport && x == "Passport Number")
  {
  }

  /** The contact row shows `contact` when that field is set, and
      `contactNumber` otherwise. */
  lemma ContactPrefersContact(m: map<string, Json>)
    ensures "contact" in m && m["contact"] != JNull ==> Contact(Some(JObject(m))) == m["contact"]
    ensures !("contact" in m && m["contact"] != JNull) ==>
      Contact(Some(JObject(m))) == if "contactNumber" in m && m["contactNumber"] != JNull then m["contactNumber"] else NA
  {
    FieldOfObject(m, "contact", Field(Some(JObject(m)), "contactNumber", NA));
    FieldOfObject(m, "contactNumber", NA);
  }

  /** The characters the file name keeps: `[a-zA-Z0-9\-_]`. */
  predicate FileChar(c: char) {
    IsWordChar(c) || c == '-'
  }

  /** `.replace(/[^a-zA-Z0-9\-_]/g, '_')` */
  function Sanitize(s: string): (r: string)
    ensures |r| == |s|
    ensures forall i :: 0 <= i < |s| ==> FileChar(r[i])
    ensures forall i :: 0 <= i < |s| && FileChar(s[i]) ==> r[i] == s[i]
  {
    seq(|s|, i requires 0 <= i < |s| => if FileChar(s[i]) then s[i] else '_')
  }

  lemma SanitizeIdempotent(s: string)
    ensures Sanitize(Sanitize(s)) == Sanitize(s)
  {
  }

  /** The default name `booking_<ticket>[_<agent>]_<date>.docx`, where the
      date is the part of the ISO timestamp before 'T'. */
  function DefaultFileName(ticketId: Json, bookingAgent: Json, isoNow: string): string {
    var agent := if bookingAgent != NA then Sanitize(ToText(bookingAgent)) else "";
    var suffix := if agent != "" then "_" + agent else "";
    "booking_" + Sanitize(ToText(ticketId)) + suffix + "_" + Split(isoNow, 'T')[0] + ".docx"
  }

  /** The agent appears in the default name exactly when it is not 'N/A'
      and its text is not empty; the ticket part keeps only file characters. */
  lemma DefaultFileNameShape(ticketId: Json, bookingAgent: Json, isoNow: string)
    ensures var name := DefaultFileName(ticketId, bookingAgent, isoNow);
      var ticket := Sanitize(ToText(ticketId));
      var date := Split(isoNow, 'T')[0];
      var agentShown := bookingAgent != NA && ToText(bookingAgent) != "";
      name == "booking_" + ticket + (if agentShown then "_" + Sanitize(ToText(bookingAgent)) else "") + "_" + date + ".docx"
      && 'T' !in date
  {
    SplitPiecesAvoidSeparator(isoNow, 'T');
  }

  /** `fileName || defaultFileName` */
  function ChosenFileName(fileName: Option<string>, ticketId: Json, bookingAgent: Json, isoNow: string): (r: string)
    ensures Truthy(fileName) ==> r == fileName.value
    ensures !Truthy(fileName) ==> r == DefaultFileName(ticketId, bookingAgent, isoNow)
  {
    OrElse(fileName, DefaultFileName(ticketId, bookingAgent, isoNow))
  }

  const UndefinedRead := "Cannot read properties of undefined"
  const DataStructureMessage := "Data structure issue detected. Some booking properties are missing or undefined. Please check the booking data and try again."
  const BrowserMessage := "Browser compatibility issue detected. Please ensure you are using the latest version of the docx library and try refreshing the page."
  const PackerMessage := "Document generation failed. Please check your booking data and try again."

  /** The message of the error the export rethrows, by the first matching
      test on the original message. */
  function ClassifyError(message: string): string {
    if Contains(message, UndefinedRead) then DataStructureMessage
    else if Contains(message, "nodebuffer") || Contains(message, "buffer") then BrowserMessage
    else if Contains(message, "Packer") then PackerMessage
    else "Export failed: " + message
  }

  /** The classification in priority order; the 'nodebuffer' test adds
      nothing to the 'buffer' test, and only the last case keeps the
      original message. */
  lemma ClassifyErrorCases(message: string)
    ensures Contains(message, UndefinedRead) ==> ClassifyError(message) == DataStructureMessage
    ensures !Contains(message, UndefinedRead) && Contains(message, "buffer") ==> ClassifyError(message) == BrowserMessage
    ensures !Contains(message, UndefinedRead) && !Contains(message, "buffer") && Contains(message, "Packer")
      ==> ClassifyError(message) == PackerMessage
    ensures !Contains(message, UndefinedRead) && !Contains(message, "buffer") && !Contains(message, "Packer")
      ==> ClassifyError(message) == "Export failed: " + message
  {
    if Contains(message, "nodebuffer") {
      assert "nodebuffer" == "node" + "buffer";
      ContainsTail(message, "node", "buffer");
    }
  }

  /** How `generateWordDocument` ends. */
  datatype WordOutcome = Threw(message: string) | Downloaded(fileName: string, rows: seq<Row>)

  const NoBookingData := "No booking data available to export"

  /** `generateWordDocument(bookingData, fileName)`. `isoNow` is the clock's
      ISO timestamp and `libraryFailure` the message of an error the docx
      library raised, if any. */
  function GenerateWordDocument(bookingData: Option<Json>, fileName: Option<string>, isoNow: string, libraryFailure: Option<string>): (r: WordOutcome)
    ensures Falsy(bookingData) ==> r == Threw(NoBookingData)
    ensures !Falsy(bookingData) && libraryFailure.Some? ==> r == Threw(ClassifyError(libraryFailure.value))
    ensures r.Downloaded? ==> !Falsy(bookingData) && libraryFailure.None? && r.rows == BasicInfoRows(bookingData)
  {
    if Falsy(bookingData) then Threw(NoBookingData)
    else if libraryFailure.Some? then Threw(ClassifyError(libraryFailure.value))
    else
      var ticketId := Field(bookingData, "ticketId", JString("Unknown"));
      var agent := Field(bookingData, "bookingAgent", NA);
      Downloaded(ChosenFileName(fileName, ticketId, agent, isoNow), BasicInfoRows(bookingData))
  }

  /** A successful export of a booking object without an explicit name saves
      it under the default name built from its ticket ID and agent. */
  lemma DownloadedName(m: map<string, Json>, isoNow: string)
    ensures var r := GenerateWordDocument(Some(JObject(m)), None, isoNow, None);
      r.Downloaded?
      && r.fileName == DefaultFileName(if "ticketId" in m && m["ticketId"] != JNull then m["ticketId"] else JString("Unknown"),
                                       if "bookingAgent" in m && m["bookingAgent"] != JNull then m["bookingAgent"] else NA, isoNow)
  {
    FieldOfObject(m, "ticketId", JString("Unknown"));
    FieldOfObject(m, "bookingAgent", NA);
  }
}
