/** The application's in-memory booking store: the combined list every
    search runs on and one list per kind, the permission-gated submit and
    update handlers that change them, the Excel export's choice of data,
    and the booking total the search tab displays. */
module BookingStore {
  import opened Wrappers
  import opened Records
  import opened Auth

  /** `booking.ticketId === ticketId`: two undefined IDs are equal. */
  predicate Matching(b: Booking, key: Option<string>) {
    Get(b, "ticketId") == key
  }

  /** `bs.map(b => Matching(b, key) ? { ...b, ...update } : b)` */
  function MergeMatching(bs: seq<Booking>, key: Option<string>, update: Booking): (r: seq<Booking>)
    ensures |r| == |bs|
    ensures forall i :: 0 <= i < |bs| && Matching(bs[i], key) ==> r[i] == Merge(bs[i], update)
    ensures forall i :: 0 <= i < |bs| && !Matching(bs[i], key) ==> r[i] == bs[i]
  {
    seq(|bs|, i requires 0 <= i < |bs| => if Matching(bs[i], key) then Merge(bs[i], update) else bs[i])
  }

  /** An update that keeps the ticket ID can be applied twice to the same
      effect as once. */
  lemma MergeMatchingIdempotent(bs: seq<Booking>, key: Option<string>, update: Booking)
    requires "ticketId" in update.fields ==> Get(update, "ticketId") == key
    ensures MergeMatching(MergeMatching(bs, key, update), key, update) == MergeMatching(bs, key, update)
  {
    var once := MergeMatching(bs, key, update);
    forall i | 0 <= i < |bs|
      ensures MergeMatching(once, key, update)[i] == once[i]
    {
      if Matching(bs[i], key) {
        assert Matching(once[i], key);
        MergeIdempotent(bs[i], update);
      }
    }
  }

  /** `{ ...updatedData, lastModified, lastModifiedBy, lastModifiedByEmail }` */
  function Modification(updated: Booking, user: User, now: string): (r: Booking)
    ensures Get(r, "lastModified") == Some(now)
    ensures Get(r, "lastModifiedBy") == Some(user.name) && Get(r, "lastModifiedByEmail") == Some(user.email)
    ensures forall k :: k !in {"lastModified", "lastModifiedBy", "lastModifiedByEmail"} ==> Get(r, k) == Get(updated, k)
    ensures r.journeyDetails == updated.journeyDetails
  {
    Put(Put(Put(updated, "lastModified", now), "lastModifiedBy", user.name), "lastModifiedByEmail", user.email)
  }

  /** `bs.find(b => Matching(b, key))?.bookingType` */
  function FirstMatchType(bs: seq<Booking>, key: Option<string>): (r: Option<string>)
    ensures (forall i :: 0 <= i < |bs| ==> !Matching(bs[i], key)) ==> r.None?
    ensures r.Some? ==> exists i :: 0 <= i < |bs| && Matching(bs[i], key) && Get(bs[i], "bookingType") == r
    decreases |bs|
  {
    if bs == [] then None
    else if Matching(bs[0], key) then Get(bs[0], "bookingType")
    else
      var r := FirstMatchType(bs[1..], key);
      assert r.Some? ==> exists i :: 1 <= i < |bs| && Matching(bs[i], key) && Get(bs[i], "bookingType") == r by {
        if r.Some? {
          var i :| 0 <= i < |bs[1..]| && Matching(bs[1..][i], key) && Get(bs[1..][i], "bookingType") == r;
          assert bs[i + 1] == bs[1..][i];
        }
      }
      r
  }

  /** The per-kind list `handleUpdateBooking` updates: the update's own
      type, else the type of the first matching stored record; a type that
      names no kind updates no per-kind list. */
  function UpdatedKind(updated: Booking, all: seq<Booking>, key: Option<string>): (r: Option<Kind>)
    ensures Truthy(Get(updated, "bookingType")) ==> r == KindOfTag(Get(updated, "bookingType").value)
    ensures r.Some? ==> Or(Get(updated, "bookingType"), FirstMatchType(all, key)) == Some(Tag(r.value))
  {
    match Or(Get(updated, "bookingType"), FirstMatchType(all, key))
    case None => None
    case Some(t) => KindOfTag(t)
  }

  /** `addBookingData`'s record: the form data with the kind's tag, both
      timestamps and the submitting user. */
  function NewBooking(formData: Booking, bookingType: string, user: User, now: string): (r: Booking)
    ensures Get(r, "bookingType") == Some(bookingType)
    ensures Get(r, "submittedAt") == Some(now) && Get(r, "lastModified") == Some(now)
    ensures Get(r, "submittedBy") == Some(user.name) && Get(r, "submittedByEmail") == Some(user.email)
    ensures Get(r, "submittedByRole") == Some(user.role)
    ensures forall k :: k !in {"bookingType", "submittedAt", "lastModified", "submittedBy", "submittedByEmail", "submittedByRole"}
                ==> Get(r, k) == Get(formData, k)
  {
    var fields := formData.fields["bookingType" := bookingType]["submittedAt" := now]["lastModified" := now]
                  ["submittedBy" := user.name]["submittedByEmail" := user.email]["submittedByRole" := user.role];
    Booking(fields, formData.journeyDetails)
  }

  /** A record the search tab's total counts: one not tagged 'passport'. */
  predicate Counted(b: Booking) {
    Get(b, "bookingType") != Some("passport")
  }

  /** The number of non-passport records, which the search tab displays. */
  function DisplayedTotal(bs: seq<Booking>): (r: nat)
    ensures r <= |bs|
    decreases |bs|
  {
    if bs == [] then 0
    else DisplayedTotal(bs[..|bs| - 1]) + (if Counted(bs[|bs| - 1]) then 1 else 0)
  }

  /** The positions of the records the total counts. */
  ghost function CountedPositions(bs: seq<Booking>): set<int> {
    set i | 0 <= i < |bs| && Counted(bs[i])
  }

  /** Helper: the total's step at an appended record. */
  lemma DisplayedTotalAppend(bs: seq<Booking>, b: Booking)
    ensures DisplayedTotal(bs + [b]) == DisplayedTotal(bs) + (if Counted(b) then 1 else 0)
  {
    assert (bs + [b])[..|bs|] == bs;
  }

  /** The total is exactly the number of positions holding a non-passport
      record: every such record is counted once, and no passport record is. */
  lemma {:induction false} DisplayedTotalCounts(bs: seq<Booking>)
    ensures DisplayedTotal(bs) == |CountedPositions(bs)|
    decreases |bs|
  {
    if bs != [] {
      var n := |bs| - 1;
      var front := bs[..n];
      DisplayedTotalCounts(front);
      assert bs == front + [bs[n]];
      DisplayedTotalAppend(front, bs[n]);
      var before := CountedPositions(front);
      assert n !in before;
      if Counted(bs[n]) {
        assert CountedPositions(bs) == before + {n};
      } else {
        assert CountedPositions(bs) == before;
      }
    }
  }

  /** A list of passport records only totals zero; a list without any
      passport record totals its length. */
  lemma {:induction false} DisplayedTotalExtremes(bs: seq<Booking>)
    ensures (forall i :: 0 <= i < |bs| ==> !Counted(bs[i])) ==> DisplayedTotal(bs) == 0
    ensures (forall i :: 0 <= i < |bs| ==> Counted(bs[i])) ==> DisplayedTotal(bs) == |bs|
    decreases |bs|
  {
    if bs != [] {
      var n := |bs| - 1;
      DisplayedTotalExtremes(bs[..n]);
      assert forall i :: 0 <= i < n ==> bs[..n][i] == bs[i];
    }
  }

  /** The per-kind lists after an update of the given kind's list; all
      other lists are unchanged, and no list changes without a kind. */
  function Relisted(lists: map<Kind, seq<Booking>>, kind: Option<Kind>, key: Option<string>, d: Booking): (r: map<Kind, seq<Booking>>)
    ensures r.Keys == lists.Keys
    ensures forall k :: k in lists && kind != Some(k) ==> r[k] == lists[k]
    ensures kind.Some? && kind.value in lists ==> r[kind.value] == MergeMatching(lists[kind.value], key, d)
  {
    if kind.Some? && kind.value in lists then lists[kind.value := MergeMatching(lists[kind.value], key, d)] else lists
  }

  class Store {
    /** The combined list the search screen searches. */
    var allBookingData: seq<Booking>
    /** The per-kind lists (`flightData`, `hotelData`, ...). */
    var lists: map<Kind, seq<Booking>>

    ghost predicate Valid()
      reads this
    {
      forall k: Kind :: k in lists
    }

    constructor ()
      ensures Valid() && allBookingData == []
      ensures forall k: Kind :: lists[k] == []
    {
      allBookingData := [];
      lists := map[Flight := [], Hotel := [], AirportTransfer := [], CarRental := [],
                   Forex := [], Visa := [], Passport := [], Miscellaneous := []];
      new;
      forall k: Kind ensures k in lists && lists[k] == [] {
        match k
        case Flight => case Hotel => case AirportTransfer => case CarRental =>
        case Forex => case Visa => case Passport => case Miscellaneous =>
      }
    }

    /** `addBookingData`: appends the stamped record to the combined list
        and returns it. */
    method AddBookingData(formData: Booking, bookingType: string, user: User, now: string) returns (r: Booking)
      modifies this`allBookingData
      ensures r == NewBooking(formData, bookingType, user, now)
      ensures allBookingData == old(allBookingData) + [r]
    {
      r := NewBooking(formData, bookingType, user, now);
      allBookingData := allBookingData + [r];
    }

    /** The `handle*Submit` handlers: without `create_bookings` nothing is
        added; otherwise the record tagged with the kind is appended to the
        combined list and to that kind's list. */
    method HandleSubmit(user: User, k: Kind, formData: Booking, now: string) returns (added: Option<Booking>)
      requires Valid()
      modifies this`allBookingData, this`lists
      ensures Valid()
      ensures added.Some? <==> HasPermission(Some(user), CreateBookings)
      ensures added.None? ==> allBookingData == old(allBookingData) && lists == old(lists)
      ensures added.Some? ==>
        added.value == NewBooking(formData, Tag(k), user, now)
        && allBookingData == old(allBookingData) + [added.value]
        && lists == old(lists)[k := old(lists)[k] + [added.value]]
      ensures DisplayedTotal(allBookingData) == DisplayedTotal(old(allBookingData)) + (if added.Some? && k != Passport then 1 else 0)
    {
      if !HasPermission(Some(user), CreateBookings) {
        return None;
      }
      var before := allBookingData;
      var b := AddBookingData(formData, Tag(k), user, now);
      DisplayedTotalAppend(before, b);
      lists := lists[k := lists[k] + [b]];
      added := Some(b);
    }

    /** `handleUpdateBooking`: without `edit_bookings` nothing changes.
        Otherwise every stored record with the key as ticket ID is merged
        with the stamped update, in the combined list and in the per-kind
        list `UpdatedKind` picks from the lists as they were before. */
    method HandleUpdateBooking(user: User, key: Option<string>, updated: Booking, now: string) returns (permitted: bool)
      requires Valid()
      modifies this`allBookingData, this`lists
      ensures Valid()
      ensures permitted <==> HasPermission(Some(user), EditBookings)
      ensures !permitted ==> allBookingData == old(allBookingData) && lists == old(lists)
      ensures permitted ==>
        var d := Modification(updated, user, now);
        allBookingData == MergeMatching(old(allBookingData), key, d)
        && lists == Relisted(old(lists), UpdatedKind(updated, old(allBookingData), key), key, d)
    {
      var all, perKind := allBookingData, lists;
      if !HasPermission(Some(user), EditBookings) {
        return false;
      }
      var d := Modification(updated, user, now);
      var kind := UpdatedKind(updated, all, key);
      allBookingData := MergeMatching(all, key, d);
      lists := Relisted(perKind, kind, key, d);
      permitted := true;
    }
  }

  /** A per-kind list body as the export reads it: a JSON array, or an
      object with optional `data` and `bookings` arrays. */
  datatype ApiBody = ArrayBody(items: seq<Booking>) | ObjectBody(data: Option<seq<Booking>>, bookings: Option<seq<Booking>>)

  /** `Array.isArray(x) ? x : (x.data || x.bookings || [])`. An array is
      truthy even when empty, so an empty `data` hides `bookings`. */
  function Unwrap(body: ApiBody): (r: seq<Booking>)
    ensures body.ArrayBody? ==> r == body.items
    ensures body.ObjectBody? && body.data.Some? ==> r == body.data.value
    ensures body.ObjectBody? && body.data.None? ==> r == body.bookings.GetOr([])
  {
    match body
    case ArrayBody(items) => items
    case ObjectBody(data, bookings) => if data.Some? then data.value else bookings.GetOr([])
  }

  /** `Array.isArray(x) ? x : (x.data || [])`, the unwrapping of the
      all-bookings export. */
  function UnwrapData(body: ApiBody): (r: seq<Booking>)
    ensures body.ArrayBody? ==> r == body.items
    ensures body.ObjectBody? ==> r == body.data.GetOr([])
  {
    match body
    case ArrayBody(items) => items
    case ObjectBody(data, _) => data.GetOr([])
  }

  /** The two unwrappings differ only on an object with `bookings` and no `data`. */
  lemma UnwrapAgree(body: ApiBody)
    ensures Unwrap(body) != UnwrapData(body) ==> body.ObjectBody? && body.data.None? && body.bookings.Some? && body.bookings.value != []
  {
  }

  /** The kinds of the all-bookings export, in the order of its concatenation. */
  const ExportOrder: seq<Kind> := [Flight, Hotel, AirportTransfer, CarRental, Forex, Miscellaneous, Visa]

  /** How an export click ends. */
  datatype ExportOutcome =
    | Refused(message: string)
    | NoData
    | Exported(data: seq<Booking>, fileName: string)
    | FetchFailed(message: string)

  const NoExportPermission := "You do not have permission to export data"

  /** The list a kind's export fetches and the file it writes. */
  function ExportFile(k: Kind): string {
    match k
    case Flight => "Flight_Bookings.xlsx"
    case Hotel => "Hotel_Bookings.xlsx"
    case AirportTransfer => "Airport_Transfers.xlsx"
    case CarRental => "Car_Rentals.xlsx"
    case Forex => "Forex_Transactions.xlsx"
    case Visa => "Visa_Applications.xlsx"
    case Miscellaneous => "Miscellaneous_Services.xlsx"
    case Passport => "Bookings.xlsx"
  }

  /** The `activeForm` values of the single-kind cases of the tab export. */
  function TabKind(activeForm: string): (r: Option<Kind>)
    ensures r.Some? ==> r.value != Passport && activeForm != "search" && activeForm != "passport"
  {
    if activeForm == "flight" then Some(Flight)
    else if activeForm == "hotel" then Some(Hotel)
    else if activeForm == "airportTransfer" then Some(AirportTransfer)
    else if activeForm == "carRental" then Some(CarRental)
    else if activeForm == "forex" then Some(Forex)
    else if activeForm == "visa" then Some(Visa)
    else if activeForm == "miscellaneous" then Some(Miscellaneous)
    else None
  }

  /** The concatenation of the unwrapped bodies of the given kinds, or
      `None` when a fetch failed. */
  function Concatenated(kinds: seq<Kind>, fetched: Kind -> Option<ApiBody>): (r: Option<seq<Booking>>)
    ensures r.None? <==> exists i :: 0 <= i < |kinds| && fetched(kinds[i]).None?
    decreases |kinds|
  {
    if kinds == [] then Some([])
    else
      var rest := Concatenated(kinds[1..], fetched);
      assert rest.None? ==> exists i :: 0 <= i < |kinds| && fetched(kinds[i]).None? by {
        if rest.None? {
          var i :| 0 <= i < |kinds[1..]| && fetched(kinds[1..][i]).None?;
          assert kinds[i + 1] == kinds[1..][i];
        }
      }
      assert rest.Some? ==> forall i :: 1 <= i < |kinds| ==> fetched(kinds[i]).Some? by {
        if rest.Some? {
          forall i | 1 <= i < |kinds| ensures fetched(kinds[i]).Some? {
            assert kinds[i] == kinds[1..][i - 1];
          }
        }
      }
      if fetched(kinds[0]).Some? && rest.Some? then Some(UnwrapData(fetched(kinds[0]).value) + rest.value)
      else None
  }

  /** Every record of every kind appears in the all-bookings data, under its
      kind's slice, in the order of `ExportOrder`. */
  lemma {:induction false} ConcatenatedSlices(kinds: seq<Kind>, fetched: Kind -> Option<ApiBody>)
    requires forall i :: 0 <= i < |kinds| ==> fetched(kinds[i]).Some?
    ensures Concatenated(kinds, fetched).Some?
    ensures kinds != [] ==>
      Concatenated(kinds, fetched).value == UnwrapData(fetched(kinds[0]).value) + Concatenated(kinds[1..], fetched).value
    ensures |Concatenated(kinds, fetched).value| == Lengths(kinds, fetched)
    decreases |kinds|
  {
    if kinds != [] {
      ConcatenatedSlices(kinds[1..], fetched);
    }
  }

  /** The total number of records the given kinds' bodies hold. */
  function Lengths(kinds: seq<Kind>, fetched: Kind -> Option<ApiBody>): nat
    requires forall i :: 0 <= i < |kinds| ==> fetched(kinds[i]).Some?
    decreases |kinds|
  {
    if kinds == [] then 0 else |UnwrapData(fetched(kinds[0]).value)| + Lengths(kinds[1..], fetched)
  }

  /** `handleExportToExcel` for the active tab. `fetched` gives each kind's
      parsed list body, `None` where the fetch or the parse failed. */
  function TabExport(user: User, activeForm: string, fetched: Kind -> Option<ApiBody>): (r: ExportOutcome)
    ensures !HasPermission(Some(user), ExportExcel) ==> r == Refused(NoExportPermission)
    ensures HasPermission(Some(user), ExportExcel) && activeForm == "passport" ==> r == Refused("Export is not available for Passport Details")
    ensures r.Exported? ==> r.data != []
    ensures HasPermission(Some(user), ExportExcel) && TabKind(activeForm).Some? ==>
      var k := TabKind(activeForm).value;
      match fetched(k)
      case None => r.FetchFailed?
      case Some(body) => r == if Unwrap(body) == [] then NoData else Exported(Unwrap(body), ExportFile(k))
    ensures HasPermission(Some(user), ExportExcel) && activeForm != "passport" && activeForm != "search" && TabKind(activeForm).None? ==> r == NoData
  {
    if !HasPermission(Some(user), ExportExcel) then Refused(NoExportPermission)
    else if activeForm == "passport" then Refused("Export is not available for Passport Details")
    else
      var data: Option<(seq<Booking>, string)> :=
        if activeForm == "search" then
          match Concatenated(ExportOrder, fetched)
          case Some(all) => Some((all, "All_Bookings.xlsx"))
          case None => None
        else match TabKind(activeForm)
          case Some(k) => (match fetched(k) case Some(body) => Some((Unwrap(body), ExportFile(k))) case None => None)
          case None => Some(([], "Bookings.xlsx"));
      match data
      case None => FetchFailed("Failed to fetch data for export. Please try again.")
      case Some((d, name)) => if d == [] then NoData else Exported(d, name)
  }

  /** The all-bookings export concatenates the seven kinds in the order
      flight, hotel, transfer, car, forex, miscellaneous, visa. */
  lemma SearchExportOrder(user: User, fetched: Kind -> Option<ApiBody>)
    requires HasPermission(Some(user), ExportExcel)
    requires forall k :: fetched(k).Some?
    ensures var all := Concatenated(ExportOrder, fetched).value;
      TabExport(user, "search", fetched) == if all == [] then NoData else Exported(all, "All_Bookings.xlsx")
    ensures Concatenated(ExportOrder, fetched).Some?
  {
    ConcatenatedSlices(ExportOrder, fetched);
  }

  /** The `formType` values of the form wrapper's export. */
  function FormKind(formType: string): Option<Kind> {
    if formType == "Flight Booking" then Some(Flight)
    else if formType == "Hotel Booking" then Some(Hotel)
    else if formType == "Airport Transfer" then Some(AirportTransfer)
    else if formType == "Car Rental" then Some(CarRental)
    else if formType == "Forex" then Some(Forex)
    else if formType == "VISA" then Some(Visa)
    else if formType == "Miscellaneous" then Some(Miscellaneous)
    else None
  }

  /** `FormWithExport.handleExport`. The passport form is rendered without
      an export, which `None` stands for. */
  function FormExport(user: User, formType: string, fetched: Kind -> Option<ApiBody>): (r: Option<ExportOutcome>)
    ensures r.None? <==> formType == "Passport Details"
    ensures r.Some? && !HasPermission(Some(user), ExportExcel) ==> r.value == Refused(NoExportPermission)
    ensures r.Some? && r.value.Exported? ==> r.value.data != [] && FormKind(formType).Some?
    ensures r.Some? && HasPermission(Some(user), ExportExcel) && FormKind(formType).Some? ==>
      var k := FormKind(formType).value;
      match fetched(k)
      case None => r.value.FetchFailed?
      case Some(body) => r.value == if Unwrap(body) == [] then NoData else Exported(Unwrap(body), ExportFile(k))
  {
    if formType == "Passport Details" then None
    else if !HasPermission(Some(user), ExportExcel) then Some(Refused(NoExportPermission))
    else match FormKind(formType)
      case None => Some(NoData)
      case Some(k) =>
        match fetched(k)
        case None => Some(FetchFailed("Failed to export data. Please try again."))
        case Some(body) => Some(if Unwrap(body) == [] then NoData else Exported(Unwrap(body), ExportFile(k)))
  }
}
