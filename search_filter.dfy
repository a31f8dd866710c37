/** The pure part of the unified search screen: the per-search-type match
    table, the client-side filter built on it, the local (props) search, the
    search-type labels, the booking-type display name and the choice of the
    edit form for a record. */
module SearchFilter {
  import opened Wrappers
  import opened Text
  import opened Records

  /** `a` keeps some of the elements of `b`, in their order in `b`. */
  predicate Subsequence<T(==)>(a: seq<T>, b: seq<T>)
    decreases |a| + |b|
  {
    a == [] || (b != [] && ((a[0] == b[0] && Subsequence(a[1..], b[1..])) || Subsequence(a, b[1..])))
  }

  /** The cases of the `switch (searchType)`. */
  datatype SearchBy = ByTicket | ByName | ByHotel | ByDate | ByJourney | ByContact | ByPassport | ByInvoice | ByAll

  /** The search-type values the screen offers. */
  const SearchTypes: seq<string> :=
    ["ticketId", "name", "hotel", "date", "journey", "contact", "passport", "invoice", "all"]

  /** The case a search-type value selects; anything unlisted falls to the
      `default` case, which is the ticket-ID search. */
  function CaseOf(searchType: string): (r: SearchBy)
    ensures searchType !in SearchTypes ==> r == ByTicket
    ensures r == ByDate <==> searchType == "date"
  {
    if searchType == "name" then ByName
    else if searchType == "hotel" then ByHotel
    else if searchType == "date" then ByDate
    else if searchType == "journey" then ByJourney
    else if searchType == "contact" then ByContact
    else if searchType == "passport" then ByPassport
    else if searchType == "invoice" then ByInvoice
    else if searchType == "all" then ByAll
    else ByTicket
  }

  /** One disjunct of a case of the filter callback. */
  datatype Probe =
    | OnField(key: string, fold: bool)   // booking.key?[.toLowerCase()].includes(needle)
    | OnLegs(key: string, fold: bool)    // booking.journeyDetails.some(j => j.key?[...].includes(needle))
    | OnWhole                            // JSON.stringify(booking).toLowerCase().includes(needle)

  /** The disjuncts of each case, in the source's order. */
  function Probes(c: SearchBy): seq<Probe> {
    match c
    case ByTicket => [OnField("ticketId", true), OnField("bookingId", true)]
    case ByName => [OnField("travelerName", true), OnField("agentName", true), OnField("bookingEntity", true)]
    case ByHotel =>
      [OnField("hotelName", true), OnField("city", true), OnField("checkInLocation", true), OnField("checkOutLocation", true)]
    case ByDate =>
      [OnField("submittedAt", false), OnField("dateOfBooking", false), OnField("checkInDate", false),
       OnField("checkOutDate", false), OnField("departureDate", false), OnField("returnDate", false),
       OnLegs("date", false)]
    case ByJourney =>
      [OnField("from", true), OnField("to", true), OnField("destination", true), OnField("city", true),
       OnField("pickupLocation", true), OnField("dropoffLocation", true), OnLegs("from", true), OnLegs("to", true)]
    case ByContact => [OnField("contactNumber", false), OnField("email", true)]
    case ByPassport => [OnField("passportNumber", true)]
    case ByInvoice => [OnField("invoiceNumber", true), OnField("creditNoteNumber", true)]
    case ByAll => [OnWhole]
  }

  /** What a case searches for: the raw value in the `date` case, the
      lower-cased, trimmed value in every other. */
  function Needle(c: SearchBy, value: string): string {
    if c == ByDate then value else Trim(Lower(value))
  }

  function Fold(fold: bool, s: string): string {
    if fold then Lower(s) else s
  }

  /** One disjunct holds. A missing field or a missing leg list holds for
      no needle; `serialise` stands for `JSON.stringify`. */
  predicate Hits(b: Booking, p: Probe, needle: string, serialise: Booking -> string) {
    match p
    case OnField(key, fold) => key in b.fields && Contains(Fold(fold, b.fields[key]), needle)
    case OnLegs(key, fold) =>
      b.journeyDetails.Some? &&
      exists j :: 0 <= j < |b.journeyDetails.value| && key in b.journeyDetails.value[j] &&
        Contains(Fold(fold, b.journeyDetails.value[j][key]), needle)
    case OnWhole => Contains(Lower(serialise(b)), needle)
  }

  /** The `||` chain over a case's disjuncts. */
  predicate AnyHits(b: Booking, ps: seq<Probe>, needle: string, serialise: Booking -> string)
    decreases |ps|
  {
    ps != [] && (Hits(b, ps[0], needle, serialise) || AnyHits(b, ps[1..], needle, serialise))
  }

  lemma {:induction false} AnyHitsIff(b: Booking, ps: seq<Probe>, needle: string, serialise: Booking -> string)
    ensures AnyHits(b, ps, needle, serialise) <==> exists i :: 0 <= i < |ps| && Hits(b, ps[i], needle, serialise)
    decreases |ps|
  {
    if ps != [] {
      AnyHitsIff(b, ps[1..], needle, serialise);
      if AnyHits(b, ps[1..], needle, serialise) {
        var i :| 0 <= i < |ps[1..]| && Hits(b, ps[1..][i], needle, serialise);
        assert ps[i + 1] == ps[1..][i];
      }
      if exists i :: 0 <= i < |ps| && Hits(b, ps[i], needle, serialise) {
        var i :| 0 <= i < |ps| && Hits(b, ps[i], needle, serialise);
        if i > 0 {
          assert ps[1..][i - 1] == ps[i];
        }
      }
    }
  }

  /** The body of the `bookings.filter(...)` callback: some disjunct of the
      selected case holds for the case's needle. */
  predicate Matches(b: Booking, value: string, searchType: string, serialise: Booking -> string) {
    var c := CaseOf(searchType);
    AnyHits(b, Probes(c), Needle(c, value), serialise)
  }

  /** `bookings.filter(callback)` */
  function Keep(bookings: seq<Booking>, value: string, searchType: string, serialise: Booking -> string): seq<Booking>
    decreases |bookings|
  {
    if bookings == [] then []
    else
      var rest := Keep(bookings[1..], value, searchType, serialise);
      if Matches(bookings[0], value, searchType, serialise) then [bookings[0]] + rest else rest
  }

  /** `filterBookingsBySearchType`: nothing for a blank value, otherwise the
      matching records in their original order. */
  function Filter(bookings: seq<Booking>, value: string, searchType: string, serialise: Booking -> string): (r: seq<Booking>)
    ensures IsBlank(value) ==> r == []
  {
    if IsBlank(value) then [] else Keep(bookings, value, searchType, serialise)
  }

  /** The filter keeps the records in their original order. */
  lemma {:induction false} KeepInOrder(bookings: seq<Booking>, value: string, searchType: string, serialise: Booking -> string)
    ensures Subsequence(Keep(bookings, value, searchType, serialise), bookings)
    decreases |bookings|
  {
    if bookings != [] {
      KeepInOrder(bookings[1..], value, searchType, serialise);
    }
  }

  lemma FilterInOrder(bookings: seq<Booking>, value: string, searchType: string, serialise: Booking -> string)
    ensures Subsequence(Filter(bookings, value, searchType, serialise), bookings)
  {
    if !IsBlank(value) {
      KeepInOrder(bookings, value, searchType, serialise);
    }
  }

  /** The filter keeps exactly the matching records. */
  lemma {:induction false} KeepMembers(bookings: seq<Booking>, value: string, searchType: string, serialise: Booking -> string)
    ensures forall b :: b in Keep(bookings, value, searchType, serialise)
                    <==> b in bookings && Matches(b, value, searchType, serialise)
    decreases |bookings|
  {
    if bookings != [] {
      KeepMembers(bookings[1..], value, searchType, serialise);
      assert bookings == [bookings[0]] + bookings[1..];
    }
  }

  /** A non-blank value keeps exactly the matching records. */
  lemma FilterMembers(bookings: seq<Booking>, value: string, searchType: string, serialise: Booking -> string, b: Booking)
    ensures b in Filter(bookings, value, searchType, serialise)
        <==> !IsBlank(value) && b in bookings && Matches(b, value, searchType, serialise)
  {
    KeepMembers(bookings, value, searchType, serialise);
  }

  /** Filtering a concatenation filters each part. */
  lemma {:induction false} KeepConcat(a: seq<Booking>, b: seq<Booking>, value: string, searchType: string, serialise: Booking -> string)
    ensures Keep(a + b, value, searchType, serialise)
         == Keep(a, value, searchType, serialise) + Keep(b, value, searchType, serialise)
    decreases |a|
  {
    if a != [] {
      assert (a + b)[1..] == a[1..] + b;
      KeepConcat(a[1..], b, value, searchType, serialise);
    } else {
      assert a + b == b;
    }
  }

  lemma FilterConcat(a: seq<Booking>, b: seq<Booking>, value: string, searchType: string, serialise: Booking -> string)
    ensures Filter(a + b, value, searchType, serialise)
         == Filter(a, value, searchType, serialise) + Filter(b, value, searchType, serialise)
  {
    if !IsBlank(value) {
      KeepConcat(a, b, value, searchType, serialise);
    }
  }

  /** Searching by a record's own ticket ID finds it: the lower-cased,
      trimmed ID occurs in the lower-cased ID. */
  lemma TicketSearchFindsOwnRecord(b: Booking, serialise: Booking -> string)
    requires "ticketId" in b.fields && !IsBlank(b.fields["ticketId"])
    ensures Filter([b], b.fields["ticketId"], "ticketId", serialise) == [b]
  {
    var id := b.fields["ticketId"];
    OwnTicketMatches(b, serialise);
    assert [b][1..] == [];
    assert Keep([b], id, "ticketId", serialise) == [b];
  }

  /** Helper: a record matches the ticket-ID search for its own ticket ID. */
  lemma OwnTicketMatches(b: Booking, serialise: Booking -> string)
    requires "ticketId" in b.fields
    ensures Matches(b, b.fields["ticketId"], "ticketId", serialise)
  {
    var id := b.fields["ticketId"];
    assert CaseOf("ticketId") == ByTicket;
    var p := Probes(ByTicket);
    assert p[0] == OnField("ticketId", true);
    TrimContained(Lower(id));
    assert Needle(ByTicket, id) == Trim(Lower(id));
    assert Hits(b, p[0], Trim(Lower(id)), serialise);
  }

  /** Every search but the date search ignores the case of the value. */
  lemma SearchIgnoresCase(b: Booking, value: string, searchType: string, serialise: Booking -> string)
    requires searchType != "date"
    ensures Matches(b, Lower(value), searchType, serialise) == Matches(b, value, searchType, serialise)
  {
    LowerIdempotent(value);
    assert Needle(CaseOf(searchType), Lower(value)) == Needle(CaseOf(searchType), value);
  }

  /** The date search uses the raw, untrimmed value: a value with a space in
      it finds no record whose date fields are free of spaces, even though a
      blank-padded value still finds records by name. */
  lemma DateSearchIsUntrimmed(b: Booking, value: string, serialise: Booking -> string)
    requires ' ' in value
    requires forall k :: k in b.fields ==> ' ' !in b.fields[k]
    requires b.journeyDetails.Some? ==>
      forall j :: 0 <= j < |b.journeyDetails.value| ==>
        forall k :: k in b.journeyDetails.value[j] ==> ' ' !in b.journeyDetails.value[j][k]
    ensures !Matches(b, value, "date", serialise)
  {
    var ps := Probes(ByDate);
    assert forall i :: 0 <= i < |ps| ==> !ps[i].OnWhole? && !ps[i].fold;
    forall i | 0 <= i < |ps| && Hits(b, ps[i], value, serialise) ensures false {
      var p := ps[i];
      if p.OnField? {
        ContainsChars(b.fields[p.key], value, ' ');
      } else {
        var legs := b.journeyDetails.value;
        var j :| 0 <= j < |legs| && p.key in legs[j] && Contains(Fold(p.fold, legs[j][p.key]), value);
        ContainsChars(legs[j][p.key], value, ' ');
      }
    }
    AnyHitsIff(b, ps, value, serialise);
  }

  /** `performPropsSearch`: the filter over the bookings the screen was
      given, or nothing when it was given none. */
  function PropsSearch(bookingData: Option<seq<Booking>>, value: string, searchType: string, serialise: Booking -> string): (r: seq<Booking>)
    ensures IsBlank(value) || bookingData.None? ==> r == []
    ensures bookingData.Some? ==> r == Filter(bookingData.value, value, searchType, serialise)
  {
    if IsBlank(value) || bookingData.None? then [] else Filter(bookingData.value, value, searchType, serialise)
  }

  /** `getSearchTypeLabel` */
  function SearchTypeLabel(searchType: string): (r: string)
    ensures searchType !in SearchTypes[1..] ==> r == "Ticket ID"
  {
    if searchType == "ticketId" then "Ticket ID"
    else if searchType == "name" then "Names"
    else if searchType == "hotel" then "Hotel Details"
    else if searchType == "date" then "Dates"
    else if searchType == "journey" then "Journey Details"
    else if searchType == "contact" then "Contact Info"
    else if searchType == "passport" then "Passport Number"
    else if searchType == "invoice" then "Invoice Number"
    else if searchType == "all" then "All Fields"
    else "Ticket ID"
  }

  /** Each offered search type has a label of its own. */
  lemma LabelsDistinct(i: nat, j: nat)
    requires i < j < |SearchTypes|
    ensures SearchTypeLabel(SearchTypes[i]) != SearchTypeLabel(SearchTypes[j])
  {
    LabelOf(i);
    LabelOf(j);
  }

  /** The position of a label among the offered types' labels. */
  function LabelIndex(heading: string): nat {
    if heading == "Ticket ID" then 0 else if heading == "Names" then 1 else if heading == "Hotel Details" then 2
    else if heading == "Dates" then 3 else if heading == "Journey Details" then 4 else if heading == "Contact Info" then 5
    else if heading == "Passport Number" then 6 else if heading == "Invoice Number" then 7 else if heading == "All Fields" then 8
    else 9
  }

  lemma LabelOf(i: nat)
    requires i < |SearchTypes|
    ensures LabelIndex(SearchTypeLabel(SearchTypes[i])) == i
  {
    if i == 0 {} else if i == 1 {} else if i == 2 {} else if i == 3 {} else if i == 4 {}
    else if i == 5 {} else if i == 6 {} else if i == 7 {} else {}
  }

  /** The screen's `formatBookingType`: 'Unknown' for a missing or empty
      type, otherwise underscores and hyphens become spaces and every word
      starts with a capital. */
  function DisplayType(bookingType: Option<string>): (r: string)
    ensures !Truthy(bookingType) ==> r == "Unknown"
    ensures Truthy(bookingType) ==> |r| == |bookingType.value| && '_' !in r && '-' !in r
    ensures Truthy(bookingType) ==> forall i :: 0 <= i < |r| && WordStart(r, i) ==>
      r[i] == UpperChar(bookingType.value[i]) && !('a' <= r[i] <= 'z')
    ensures Truthy(bookingType) ==> forall i :: 0 <= i < |r| && !WordStart(r, i) ==>
      r[i] == if bookingType.value[i] in {'_', '-'} then ' ' else bookingType.value[i]
  {
    if !Truthy(bookingType) then "Unknown"
    else
      var spaced := ReplaceAll(ReplaceAll(bookingType.value, '_', ' '), '-', ' ');
      CapitaliseWordsCases(spaced);
      CapitaliseWords(spaced)
  }

  /** The underscore and hyphen spellings of a type display the same. */
  lemma DisplaySpellingsAgree(s: string)
    ensures DisplayType(Some(ReplaceAll(s, '_', '-'))) == DisplayType(Some(s))
  {
    var a := ReplaceAll(ReplaceAll(ReplaceAll(s, '_', '-'), '_', ' '), '-', ' ');
    var b := ReplaceAll(ReplaceAll(s, '_', ' '), '-', ' ');
    assert a == b;
  }

  /** Formatting a formatted type changes nothing. */
  lemma {:induction false} DisplayTypeIdempotent(bookingType: Option<string>)
    ensures DisplayType(Some(DisplayType(bookingType))) == DisplayType(bookingType)
  {
    var r := DisplayType(bookingType);
    if Truthy(bookingType) {
      var t := ReplaceAll(ReplaceAll(bookingType.value, '_', ' '), '-', ' ');
      assert r == CapitaliseWords(t);
      if r != "" {
        assert ReplaceAll(ReplaceAll(r, '_', ' '), '-', ' ') == r;
        CapitaliseWordsIdempotent(t);
      }
    } else {
      assert ReplaceAll(ReplaceAll(r, '_', ' '), '-', ' ') == r;
      assert CapitaliseWords(r) == r by {
        assert forall i :: 0 <= i < |r| ==> CapitaliseWords(r)[i] == r[i];
      }
    }
  }

  /** What `getFormComponent` renders for a record being edited. */
  datatype FormChoice = EditForm(kind: Kind) | UnknownType

  /** `getFormComponent`'s switch on `bookingType?.toLowerCase()`: both the
      underscore and the hyphen spellings of the transfer and car kinds are
      accepted, and passport records have no edit form. */
  function FormFor(bookingType: Option<string>): (r: FormChoice)
    ensures r.EditForm? ==> r.kind != Passport
  {
    if bookingType.None? then UnknownType
    else
      var t := Lower(bookingType.value);
      if t == "flight" then EditForm(Flight)
      else if t == "hotel" then EditForm(Hotel)
      else if t == "airport_transfer" || t == "airport-transfer" then EditForm(AirportTransfer)
      else if t == "car_rental" || t == "car-rental" then EditForm(CarRental)
      else if t == "forex" then EditForm(Forex)
      else if t == "visa" then EditForm(Visa)
      else if t == "miscellaneous" then EditForm(Miscellaneous)
      else UnknownType
  }

  /** The choice ignores case. */
  lemma FormForIgnoresCase(s: string)
    ensures FormFor(Some(Lower(s))) == FormFor(Some(s))
  {
    LowerIdempotent(s);
  }

  /** Every kind but passport opens its own form, under its tag and under its
      path spelling. */
  lemma FormForEveryTag(k: Kind)
    ensures k != Passport ==> FormFor(Some(Tag(k))) == EditForm(k) && FormFor(Some(Slug(k))) == EditForm(k)
    ensures FormFor(Some(Tag(Passport))) == UnknownType
  {
    SpellingsLowerCase(k);
    SpellingsLowerCase(Passport);
  }

  /** The tags and path spellings have no capitals. */
  lemma SpellingsLowerCase(k: Kind)
    ensures Lower(Tag(k)) == Tag(k) && Lower(Slug(k)) == Slug(k)
  {
    match k
    case Flight => LowerWithoutCapitals("flight");
    case Hotel => LowerWithoutCapitals("hotel");
    case AirportTransfer => LowerWithoutCapitals("airport_transfer"); LowerWithoutCapitals("airport-transfer");
    case CarRental => LowerWithoutCapitals("car_rental"); LowerWithoutCapitals("car-rental");
    case Forex => LowerWithoutCapitals("forex");
    case Visa => LowerWithoutCapitals("visa");
    case Passport => LowerWithoutCapitals("passport");
    case Miscellaneous => LowerWithoutCapitals("miscellaneous");
  }
}
