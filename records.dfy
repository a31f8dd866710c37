/** The booking record shared by the search screen, the in-memory store and
    the forms: a flat map of string fields plus the optional list of legs
    (`journeyDetails`) that flight bookings carry. A key missing from the map
    is a field whose value is `undefined`. */
module Records {
  import opened Wrappers

  type Fields = map<string, string>

  datatype Booking = Booking(fields: Fields, journeyDetails: Option<seq<Fields>>)

  /** `fields[key]`, with `undefined` as `None`. */
  function Lookup(m: Fields, key: string): Option<string> {
    if key in m then Some(m[key]) else None
  }

  /** `booking[key]` */
  function Get(b: Booking, key: string): Option<string> {
    Lookup(b.fields, key)
  }

  /** `{ ...b, [key]: v }` */
  function Put(b: Booking, key: string, v: string): Booking {
    Booking(b.fields[key := v], b.journeyDetails)
  }

  /** The object spread `{ ...base, ...update }`: every field of `update`
      wins, every other field of `base` is kept. */
  function Merge(base: Booking, update: Booking): (r: Booking)
    ensures r.fields.Keys == base.fields.Keys + update.fields.Keys
    ensures forall k :: k in update.fields ==> Get(r, k) == Get(update, k)
    ensures forall k :: k !in update.fields ==> Get(r, k) == Get(base, k)
    ensures update.journeyDetails.Some? ==> r.journeyDetails == update.journeyDetails
    ensures update.journeyDetails.None? ==> r.journeyDetails == base.journeyDetails
  {
    Booking(base.fields + update.fields,
            if update.journeyDetails.Some? then update.journeyDetails else base.journeyDetails)
  }

  /** Spreading the same update twice is the same as spreading it once. */
  lemma MergeIdempotent(base: Booking, update: Booking)
    ensures Merge(Merge(base, update), update) == Merge(base, update)
  {
    var once := Merge(base, update);
    var twice := Merge(once, update);
    assert twice.fields == once.fields by {
      forall k | k in twice.fields ensures k in once.fields && twice.fields[k] == once.fields[k] {
        assert Get(twice, k) == Get(once, k);
      }
    }
  }

  /** The booking kinds of the application. */
  datatype Kind = Flight | Hotel | AirportTransfer | CarRental | Forex | Visa | Passport | Miscellaneous

  /** The `bookingType` tag each kind's records carry. */
  function Tag(k: Kind): string {
    match k
    case Flight => "flight"
    case Hotel => "hotel"
    case AirportTransfer => "airport_transfer"
    case CarRental => "car_rental"
    case Forex => "forex"
    case Visa => "visa"
    case Passport => "passport"
    case Miscellaneous => "miscellaneous"
  }

  /** The `switch (bookingType)` over the tags: the kind carrying tag `s`,
      if any. */
  function KindOfTag(s: string): (r: Option<Kind>)
    ensures r.Some? ==> Tag(r.value) == s
    ensures r.None? ==> forall k: Kind :: Tag(k) != s
  {
    if s == "flight" then Some(Flight)
    else if s == "hotel" then Some(Hotel)
    else if s == "airport_transfer" then Some(AirportTransfer)
    else if s == "car_rental" then Some(CarRental)
    else if s == "forex" then Some(Forex)
    else if s == "visa" then Some(Visa)
    else if s == "passport" then Some(Passport)
    else if s == "miscellaneous" then Some(Miscellaneous)
    else None
  }

  lemma TagRoundTrip(k: Kind)
    ensures KindOfTag(Tag(k)) == Some(k)
  {
  }

  /** The path segment of each kind's REST collection, `/<slug>-bookings`. */
  function Slug(k: Kind): string {
    match k
    case Flight => "flight"
    case Hotel => "hotel"
    case AirportTransfer => "airport-transfer"
    case CarRental => "car-rental"
    case Forex => "forex"
    case Visa => "visa"
    case Passport => "passport"
    case Miscellaneous => "miscellaneous"
  }

  /** `/${type}-bookings` */
  function Collection(slug: string): string {
    "/" + slug + "-bookings"
  }
}
