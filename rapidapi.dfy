/** The destination rental client (src/lib/api/rapidapi.js): resolve the
    destination to a provider destination id, search properties there,
    normalise them with defaults and drop those over budget. */
module RapidApi {
  import opened Js
  import opened Seqs
  import opened Listings

  /** The fields `searchRentals` destructures from its argument. */
  datatype RentalSearch = RentalSearch(
    destination: Option<string>, checkIn: Option<string>, checkOut: Option<string>,
    adults: int, kids: int, budget: real)

  /** The two GET requests: the destination lookup, then the property search
      with its query parameters. */
  datatype RentalRequest =
    | SearchDestination(query: string)
    | SearchProperties(destId: Option<string>, searchType: Option<string>,
                       arrivalDate: Option<string>, departureDate: Option<string>,
                       adultsNumber: int, roomQty: int, sortBy: string, categoriesFilterIds: string)

  /** An entry of the destination lookup: `dest_id` and `search_type`. */
  datatype Destination = Destination(destId: Option<string>, searchType: Option<string>)

  /** The destination lookup response: `data`, if present. */
  datatype DestinationBody = DestinationBody(data: Option<seq<Destination>>)

  /** `prop.property`: its id, name, `priceBreakdown.grossPrice` value and
      currency, `reviewScore` and `photoUrls` (absent: empty). */
  datatype Property = Property(
    id: Option<string>, name: Option<string>,
    grossPrice: Option<real>, grossCurrency: Option<string>,
    reviewScore: Option<real>, photoUrls: seq<string>)

  /** The property search response: `data.hotels`, each level optional. */
  datatype PropertiesData = PropertiesData(hotels: Option<seq<Property>>)
  datatype PropertiesBody = PropertiesBody(data: Option<PropertiesData>)

  const RoomQuantity := 1
  const SortBy := "price"
  const CategoriesFilter := "class::2,class::4,free_cancellation::1"

  /** The place name looked up for a destination (rapidapi.js:21). It has
      the shape of `Amadeus.LocationCode`, with this API's place names in
      place of airport codes. */
  function QueryFor(destination: Option<string>): (query: string)
    ensures destination == Some("NC") ==> query == "Wilmington"
    ensures destination != Some("NC") ==> query == "Myrtle Beach"
  {
    if destination == Some("NC") then "Wilmington" else "Myrtle Beach"
  }

  /** The destination matches of a reply (none when it failed or has no `data`). */
  function Matches(reply: Reply<DestinationBody>): seq<Destination> {
    var b := Body(reply);
    if b.Some? && b.value.data.Some? then b.value.data.value else []
  }

  /** The properties of a reply, if it has `data.hotels`. */
  function PropertyList(reply: Reply<PropertiesBody>): Option<seq<Property>> {
    var b := Body(reply);
    if b.Some? && b.value.data.Some? then b.value.data.value.hotels else None
  }

  /** The listing built from one property; `fallbackId` stands for the
      random `booking-...` id used when the property has none. */
  function NormalizeProperty(p: Property, q: RentalSearch, fallbackId: string): (l: Listing)
    ensures l.kind == VacationRental && l.location == q.destination
    ensures l.beds == Varies && l.guests == q.adults + q.kids
    ensures l.source == Some(Booking) && l.link == Some("#")
    ensures l.title == p.name
    ensures Truthy(p.id) ==> l.id == p.id
    ensures !Truthy(p.id) ==> l.id == Some(fallbackId)
    // `grossPrice?.value || 0`, `currency || 'USD'`, `photoUrls?.[0] || ''`
    ensures l.price == OrReal(p.grossPrice, 0.0)
    ensures l.currency == Some(OrString(p.grossCurrency, "USD"))
    ensures l.image == Some(OrString(Head(p.photoUrls), ""))
    ensures p.grossPrice.None? ==> l.price == 0.0
    ensures p.grossCurrency.None? ==> l.currency == Some("USD")
    ensures p.photoUrls == [] ==> l.image == Some("")
    // `reviewScore || 'N/A'`
    ensures p.reviewScore.Some? && p.reviewScore.value != 0.0 ==> l.rating == Score(p.reviewScore.value)
    ensures p.reviewScore.None? || p.reviewScore == Some(0.0) ==> l.rating == NotAvailable
    ensures Truthy(l.currency) && l.image.Some?
  {
    Listing(
      id := Some(OrString(p.id, fallbackId)),
      title := p.name,
      kind := VacationRental,
      price := OrReal(p.grossPrice, 0.0),
      currency := Some(OrString(p.grossCurrency, "USD")),
      rating := if p.reviewScore.Some? && p.reviewScore.value != 0.0 then Score(p.reviewScore.value) else NotAvailable,
      image := Some(OrString(Head(p.photoUrls), "")),
      location := q.destination,
      beds := Varies,
      guests := q.adults + q.kids,
      source := Some(Booking),
      link := Some("#"))
  }

  /** `searchData.data.hotels.map(...)`, one listing per property in order. */
  function NormalizeProperties(props: seq<Property>, q: RentalSearch, freshId: nat -> string): (ls: seq<Listing>)
    ensures |ls| == |props|
    ensures forall i :: 0 <= i < |props| ==> ls[i] == NormalizeProperty(props[i], q, freshId(i))
  {
    seq(|props|, i requires 0 <= i < |props| => NormalizeProperty(props[i], q, freshId(i)))
  }

  /** `searchRentals`: `apiKey` is `RAPIDAPI_KEY`; the two replies stand for
      what the endpoints would answer; `freshId(i)` is the fallback id of the
      i-th property. */
  function SearchRentals(apiKey: Option<string>, q: RentalSearch,
                         destReply: Reply<DestinationBody>, searchReply: Reply<PropertiesBody>,
                         freshId: nat -> string): (r: Run<RentalRequest>)
    // no key: no request at all
    ensures !Truthy(apiKey) ==> r == Empty([])
    // with a key, the destination is looked up first
    ensures Truthy(apiKey) ==> 1 <= |r.requests| <= 2 && r.requests[0] == SearchDestination(QueryFor(q.destination))
    // properties are searched exactly when the lookup found a match, using only the first match, one room
    ensures |r.requests| == 2 <==> Truthy(apiKey) && Matches(destReply) != []
    ensures |r.requests| == 2 ==> r.requests[1].SearchProperties?
    ensures |r.requests| == 2 ==>
      var search := r.requests[1];
      search.destId == Matches(destReply)[0].destId && search.searchType == Matches(destReply)[0].searchType &&
      search.roomQty == 1 && search.adultsNumber == q.adults &&
      search.arrivalDate == q.checkIn && search.departureDate == q.checkOut
    // only affordable listings come back, each a rental for the whole party
    ensures WithinBudget(r.listings, q.budget)
    ensures forall l :: l in r.listings ==>
      l.kind == VacationRental && l.guests == q.adults + q.kids && l.source == Some(Booking) && l.beds == Varies
    // listings come only from the property reply, in its order, and none within budget is dropped
    ensures r.listings != [] ==> |r.requests| == 2 && PropertyList(searchReply).Some?
    ensures |r.requests| == 2 && PropertyList(searchReply).Some? ==>
      var all := NormalizeProperties(PropertyList(searchReply).value, q, freshId);
      IsSubsequence(r.listings, all) && (forall l :: l in all && l.price <= q.budget ==> l in r.listings) &&
      forall l :: multiset(r.listings)[l] == if l.price <= q.budget then multiset(all)[l] else 0
  {
    if !Truthy(apiKey) then Empty([])
    else
      var lookup := SearchDestination(QueryFor(q.destination));
      var matches := Matches(destReply);
      if matches == [] then Empty([lookup])
      else
        var search := SearchProperties(matches[0].destId, matches[0].searchType, q.checkIn, q.checkOut,
                                       q.adults, RoomQuantity, SortBy, CategoriesFilter);
        match PropertyList(searchReply)
        case None => Empty([lookup, search])
        case Some(props) =>
          Run(FilterByBudget(NormalizeProperties(props, q, freshId), q.budget), [lookup, search])
  }

  /** A property without a price is listed at 0 and so passes any
      non-negative budget. */
  lemma MissingPricePasses(apiKey: Option<string>, q: RentalSearch,
                           destReply: Reply<DestinationBody>, searchReply: Reply<PropertiesBody>,
                           freshId: nat -> string, i: nat)
    requires Truthy(apiKey) && Matches(destReply) != [] && PropertyList(searchReply).Some?
    requires i < |PropertyList(searchReply).value| && PropertyList(searchReply).value[i].grossPrice.None?
    requires q.budget >= 0.0
    ensures NormalizeProperty(PropertyList(searchReply).value[i], q, freshId(i))
              in SearchRentals(apiKey, q, destReply, searchReply, freshId).listings
  {
    var all := NormalizeProperties(PropertyList(searchReply).value, q, freshId);
    assert all[i] in all;
  }
}
