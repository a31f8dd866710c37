/** The backend search of the search screen: one lookup per booking kind
    (`searchBookingsByType`) and their combination in a fixed kind order
    (`performBackendSearch`). The HTTP calls are inputs: for every kind the
    reply of the ticket-ID search endpoint and the reply of the list
    endpoint are given. */
module FederatedSearch {
  import opened Wrappers
  import opened Text
  import opened Records
  import opened SearchFilter

  /** What `apiCall` yields: it throws on a network failure, a non-2xx status
      or an unparsable body, and otherwise returns the parsed body, of which
      the screen reads `success` and `data`. */
  datatype Reply<T> = Threw | Answered(success: bool, data: T)

  /** The replies of one kind's two endpoints: `/<slug>-bookings/search/<value>`
      and `/<slug>-bookings`. A missing `data` is `None`. */
  datatype KindReplies = KindReplies(search: Reply<Option<Booking>>, list: Reply<Option<seq<Booking>>>)

  /** The fetch-all-and-filter step: the filtered list when the list call
      succeeded. A successful reply without `data` makes the filter throw on
      a non-blank value, which the outer `catch` turns into `[]`; a blank
      value returns `[]` before the list is touched. */
  function FilterListed(list: Reply<Option<seq<Booking>>>, value: string, filterType: string, serialise: Booking -> string): (r: seq<Booking>)
    ensures list.Threw? || !list.success || list.data.None? ==> r == []
    ensures list.Answered? && list.success && list.data.Some? ==> r == Filter(list.data.value, value, filterType, serialise)
  {
    if list.Answered? && list.success && list.data.Some? then Filter(list.data.value, value, filterType, serialise)
    else []
  }

  /** `searchBookingsByType` for one kind. For a ticket-ID search the search
      endpoint answers first: `[data]` on success, `[]` otherwise; only when
      it throws does the fetch-all fallback run, filtered by ticket ID. Other
      search types always fetch all and filter. An undefined `data` of the
      search endpoint stays in the list as `None`, for the caller to drop.
      No failure escapes. */
  function SearchKind(searchType: string, value: string, replies: KindReplies, serialise: Booking -> string): (r: seq<Option<Booking>>)
    ensures searchType == "ticketId" && replies.search.Answered? ==>
      r == (if replies.search.success then [replies.search.data] else [])
    ensures searchType == "ticketId" && replies.search.Threw? ==>
      r == Present(FilterListed(replies.list, value, "ticketId", serialise))
    ensures searchType != "ticketId" ==> r == Present(FilterListed(replies.list, value, searchType, serialise))
  {
    if searchType == "ticketId" then
      match replies.search
      case Answered(success, data) => if success then [data] else []
      case Threw => Present(FilterListed(replies.list, value, "ticketId", serialise))
    else Present(FilterListed(replies.list, value, searchType, serialise))
  }

  /** Wraps every record as present. */
  function Present(bs: seq<Booking>): (r: seq<Option<Booking>>)
    ensures |r| == |bs| && forall i :: 0 <= i < |bs| ==> r[i] == Some(bs[i])
  {
    seq(|bs|, i requires 0 <= i < |bs| => Some(bs[i]))
  }

  /** `.filter(Boolean)` on the flattened results: the present records, in order. */
  function Compact(xs: seq<Option<Booking>>): (r: seq<Booking>)
    ensures |r| <= |xs|
    ensures forall b :: b in r <==> Some(b) in xs
    decreases |xs|
  {
    if xs == [] then []
    else (if xs[0].Some? then [xs[0].value] else []) + Compact(xs[1..])
  }

  lemma {:induction false} CompactConcat(a: seq<Option<Booking>>, b: seq<Option<Booking>>)
    ensures Compact(a + b) == Compact(a) + Compact(b)
    decreases |a|
  {
    if a == [] {
      assert a + b == b;
    } else {
      assert (a + b)[1..] == a[1..] + b;
      CompactConcat(a[1..], b);
    }
  }

  lemma {:induction false} CompactPresent(bs: seq<Booking>)
    ensures Compact(Present(bs)) == bs
    decreases |bs|
  {
    if bs != [] {
      assert Present(bs)[1..] == Present(bs[1..]);
      CompactPresent(bs[1..]);
      assert bs == [bs[0]] + bs[1..];
    }
  }

  /** `{ ...booking, bookingType: booking.bookingType || 'flight' }` */
  function WithType(b: Booking): (r: Booking)
    ensures Truthy(Get(r, "bookingType"))
    ensures Truthy(Get(b, "bookingType")) ==> r == b
    ensures !Truthy(Get(b, "bookingType")) ==> Get(r, "bookingType") == Some("flight")
    ensures forall k :: k != "bookingType" ==> Get(r, k) == Get(b, k)
    ensures r.journeyDetails == b.journeyDetails
  {
    var t := OrElse(Get(b, "bookingType"), "flight");
    assert Truthy(Get(b, "bookingType")) ==> b.fields["bookingType" := t] == b.fields;
    Put(b, "bookingType", t)
  }

  /** The final `.map` of `performBackendSearch` over a list of records. */
  function WithTypes(bs: seq<Booking>): (r: seq<Booking>)
    ensures |r| == |bs| && forall i :: 0 <= i < |bs| ==> r[i] == WithType(bs[i])
  {
    seq(|bs|, i requires 0 <= i < |bs| => WithType(bs[i]))
  }

  lemma WithTypesConcat(a: seq<Booking>, b: seq<Booking>)
    ensures WithTypes(a + b) == WithTypes(a) + WithTypes(b)
  {
  }

  /** The kinds `performBackendSearch` asks, in this order. Passport records
      are not searched. */
  const SearchOrder: seq<Kind> := [Flight, Hotel, AirportTransfer, CarRental, Forex, Visa, Miscellaneous]

  /** The flattened per-kind results for the given kinds, in their order;
      `gateway` gives the replies of a kind's endpoints. */
  function Gather(kinds: seq<Kind>, searchType: string, value: string, gateway: Kind -> KindReplies, serialise: Booking -> string): seq<Option<Booking>>
    decreases |kinds|
  {
    if kinds == [] then []
    else SearchKind(searchType, value, gateway(kinds[0]), serialise) + Gather(kinds[1..], searchType, value, gateway, serialise)
  }

  /** `performBackendSearch`: every kind's results in the fixed order, with
      undefined entries dropped and a missing type defaulted to 'flight'. */
  function BackendSearch(searchType: string, value: string, gateway: Kind -> KindReplies, serialise: Booking -> string): (r: seq<Booking>)
    ensures forall i :: 0 <= i < |r| ==> Truthy(Get(r[i], "bookingType"))
  {
    WithTypes(Compact(Gather(SearchOrder, searchType, value, gateway, serialise)))
  }

  /** What one kind adds to the combined result. */
  function Contribution(k: Kind, searchType: string, value: string, gateway: Kind -> KindReplies, serialise: Booking -> string): seq<Booking> {
    WithTypes(Compact(SearchKind(searchType, value, gateway(k), serialise)))
  }

  /** The contributions of the given kinds, concatenated in their order. */
  function Contributions(kinds: seq<Kind>, searchType: string, value: string, gateway: Kind -> KindReplies, serialise: Booking -> string): seq<Booking>
    decreases |kinds|
  {
    if kinds == [] then []
    else Contribution(kinds[0], searchType, value, gateway, serialise) + Contributions(kinds[1..], searchType, value, gateway, serialise)
  }

  lemma {:induction false} GatherIsContributions(kinds: seq<Kind>, searchType: string, value: string, gateway: Kind -> KindReplies, serialise: Booking -> string)
    ensures WithTypes(Compact(Gather(kinds, searchType, value, gateway, serialise)))
         == Contributions(kinds, searchType, value, gateway, serialise)
    decreases |kinds|
  {
    if kinds != [] {
      var head := SearchKind(searchType, value, gateway(kinds[0]), serialise);
      var tail := Gather(kinds[1..], searchType, value, gateway, serialise);
      CompactConcat(head, tail);
      WithTypesConcat(Compact(head), Compact(tail));
      GatherIsContributions(kinds[1..], searchType, value, gateway, serialise);
    }
  }

  /** The combined result is the concatenation of the kinds' contributions in
      the order of `SearchOrder`: flight, hotel, airport transfer, car rental,
      forex, visa, miscellaneous. */
  lemma BackendSearchOrder(searchType: string, value: string, gateway: Kind -> KindReplies, serialise: Booking -> string)
    ensures BackendSearch(searchType, value, gateway, serialise)
         == Contributions(SearchOrder, searchType, value, gateway, serialise)
  {
    GatherIsContributions(SearchOrder, searchType, value, gateway, serialise);
  }

  /** A kind whose endpoints both fail contributes nothing, so it cannot
      disturb the others. */
  lemma FailingKindContributesNothing(k: Kind, searchType: string, value: string, gateway: Kind -> KindReplies, serialise: Booking -> string)
    requires gateway(k) == KindReplies(Threw, Threw)
    ensures Contribution(k, searchType, value, gateway, serialise) == []
  {
  }

  /** A ticket-ID hit on a kind's search endpoint contributes exactly that
      record, typed. */
  lemma TicketHitContributesRecord(k: Kind, value: string, gateway: Kind -> KindReplies, serialise: Booking -> string, b: Booking)
    requires gateway(k).search == Answered(true, Some(b))
    ensures Contribution(k, "ticketId", value, gateway, serialise) == [WithType(b)]
  {
    assert Compact([Some(b)]) == [b] by {
      assert [Some(b)][1..] == [];
    }
  }

  /** When a kind's search endpoint throws, its contribution is the
      ticket-ID filter over its full list. */
  lemma TicketFallbackFilters(k: Kind, value: string, gateway: Kind -> KindReplies, serialise: Booking -> string, all: seq<Booking>)
    requires gateway(k) == KindReplies(Threw, Answered(true, Some(all)))
    ensures Contribution(k, "ticketId", value, gateway, serialise) == WithTypes(Filter(all, value, "ticketId", serialise))
  {
    var filtered := Filter(all, value, "ticketId", serialise);
    assert FilterListed(gateway(k).list, value, "ticketId", serialise) == filtered;
    assert SearchKind("ticketId", value, gateway(k), serialise) == Present(filtered);
    CompactPresent(filtered);
  }
}
