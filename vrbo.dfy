/** The coordinate-based rental client (src/lib/api/vrbo.js): geocode the
    location, search rentals within one mile of the first match, and
    normalise every listing with defaults. There is no budget filter. */
module Vrbo {
  import opened Js
  import opened Listings

  /** The fields `searchVrbo` destructures from its argument. */
  datatype VrboSearch = VrboSearch(
    location: Option<string>, checkIn: Option<string>, checkOut: Option<string>, guests: Option<int>)

  /** The two GET requests: the geocoder lookup (with its identifying
      `User-Agent`), then the rental search with its query parameters. */
  datatype VrboRequest =
    | Geocode(query: Option<string>, userAgent: string)
    | SearchRentals(latitude: string, longitude: string, radiusMiles: string,
                    checkIn: string, checkOut: string, adultsCount: int)

  /** A geocoder result: coordinates as the geocoder's strings. */
  datatype Place = Place(lat: string, lon: string)

  /** A rental: `listingId`, `propertyMetadata.headline`,
      `prices.perNight.amount`, the `uri` of each image, `averageRating`,
      `bedrooms`, `sleeps`, `detailPageUrl`. */
  datatype RentalListing = RentalListing(
    listingId: Option<string>, headline: Option<string>, perNight: Option<real>,
    images: seq<Option<string>>, averageRating: Option<real>,
    bedrooms: Option<int>, sleeps: Option<int>, detailPageUrl: Option<string>)

  /** The rental search response: `listings`, if present. */
  datatype RentalsBody = RentalsBody(listings: Option<seq<RentalListing>>)

  const UserAgent := "BeachTripPlanner/1.0"
  const RadiusMiles := "1"

  /** The geocoder matches of a reply (none when it failed). */
  function Places(reply: Reply<seq<Place>>): seq<Place> {
    Body(reply).GetOr([])
  }

  /** The rentals of a reply, if it was `ok` and has `listings`. */
  function RentalList(reply: Reply<RentalsBody>): Option<seq<RentalListing>> {
    if reply.Response? && reply.ok && reply.json.Some? then reply.json.value.listings else None
  }

  /** The listing built from one rental; `fallbackId` stands for the random
      `vrbo-...` id used when the rental has none. */
  function NormalizeRental(l: RentalListing, fallbackId: string): (r: Listing)
    ensures r.kind == VacationRental && r.source == Some(Vrbo)
    ensures Truthy(l.listingId) ==> r.id == l.listingId
    ensures !Truthy(l.listingId) ==> r.id == Some(fallbackId)
    // each field is the rental's value when truthy, else its default
    ensures r.title == Some(OrString(l.headline, "VRBO Stay"))
    ensures r.price == OrReal(l.perNight, 0.0)
    ensures l.images != [] ==> r.image == Some(OrString(l.images[0], ""))
    ensures r.rating == Score(OrReal(l.averageRating, 0.0))
    ensures r.beds == BedCount(OrInt(l.bedrooms, 0))
    ensures r.guests == OrInt(l.sleeps, 0)
    ensures r.link == Some(OrString(l.detailPageUrl, "#"))
    ensures !Truthy(l.headline) ==> r.title == Some("VRBO Stay")
    ensures l.perNight.None? ==> r.price == 0.0
    ensures l.images == [] ==> r.image == Some("")
    ensures l.averageRating.None? ==> r.rating == Score(0.0)
    ensures l.bedrooms.None? ==> r.beds == BedCount(0)
    ensures l.sleeps.None? ==> r.guests == 0
    ensures !Truthy(l.detailPageUrl) ==> r.link == Some("#")
    // every text field is filled in, and nothing says where or in what currency
    ensures Truthy(r.title) && Truthy(r.link) && r.image.Some?
    ensures r.currency.None? && r.location.None?
  {
    Listing(
      id := Some(OrString(l.listingId, fallbackId)),
      title := Some(OrString(l.headline, "VRBO Stay")),
      kind := VacationRental,
      price := OrReal(l.perNight, 0.0),
      currency := None,
      rating := Score(OrReal(l.averageRating, 0.0)),
      image := Some(if l.images != [] then OrString(l.images[0], "") else ""),
      location := None,
      beds := BedCount(OrInt(l.bedrooms, 0)),
      guests := OrInt(l.sleeps, 0),
      source := Some(Vrbo),
      link := Some(OrString(l.detailPageUrl, "#")))
  }

  /** `data.listings.map(...)`: exactly one listing per rental, in order. */
  function NormalizeRentals(ls: seq<RentalListing>, freshId: nat -> string): (r: seq<Listing>)
    ensures |r| == |ls|
    ensures forall i :: 0 <= i < |ls| ==> r[i] == NormalizeRental(ls[i], freshId(i))
  {
    seq(|ls|, i requires 0 <= i < |ls| => NormalizeRental(ls[i], freshId(i)))
  }

  /** `searchVrbo`: the two replies stand for what the geocoder and the
      rental search would answer; `freshId(i)` is the fallback id of the
      i-th rental. */
  function SearchVrbo(q: VrboSearch, geoReply: Reply<seq<Place>>, searchReply: Reply<RentalsBody>,
                      freshId: nat -> string): (r: Run<VrboRequest>)
    // the location is always geocoded first, with the identifying header
    ensures 1 <= |r.requests| <= 2 && r.requests[0] == Geocode(q.location, UserAgent)
    // the rental search runs exactly when the geocoder found a place
    ensures |r.requests| == 2 <==> Places(geoReply) != []
    ensures |r.requests| == 2 ==> r.requests[1].SearchRentals?
    ensures |r.requests| == 2 ==>
      var search := r.requests[1];
      search.latitude == Places(geoReply)[0].lat && search.longitude == Places(geoReply)[0].lon &&
      search.radiusMiles == "1" && search.adultsCount != 0 &&
      // `checkIn || ''`, `checkOut || ''`, `guests || 1`
      search.checkIn == OrString(q.checkIn, "") && search.checkOut == OrString(q.checkOut, "") &&
      search.adultsCount == OrInt(q.guests, 1) &&
      (!Truthy(q.checkIn) ==> search.checkIn == "") && (!Truthy(q.checkOut) ==> search.checkOut == "") &&
      (q.guests.None? ==> search.adultsCount == 1)
    // a failed, non-ok or listing-less reply gives nothing; otherwise one listing per rental, in order
    ensures RentalList(searchReply).None? ==> r.listings == []
    ensures |r.requests| == 2 && RentalList(searchReply).Some? ==>
      r.listings == NormalizeRentals(RentalList(searchReply).value, freshId)
    ensures r.listings != [] ==> |r.requests| == 2
    ensures forall l :: l in r.listings ==> l.source == Some(Vrbo) && l.kind == VacationRental
  {
    var geocode := Geocode(q.location, UserAgent);
    var places := Places(geoReply);
    if places == [] then Empty([geocode])
    else
      var search := SearchRentals(places[0].lat, places[0].lon, RadiusMiles,
                                  OrString(q.checkIn, ""), OrString(q.checkOut, ""), OrInt(q.guests, 1));
      match RentalList(searchReply)
      case None => Empty([geocode, search])
      case Some(rentals) => Run(NormalizeRentals(rentals, freshId), [geocode, search])
  }
}
