/** The hotel client (src/lib/api/amadeus.js): a process-wide OAuth2
    client-credentials token cache (section 4.4 of RFC 6749) with a
    time-based expiry, and the two-step hotel search that normalises priced
    offers and drops those over budget. */
module Amadeus {
  import opened Js
  import opened Seqs
  import opened Listings

  // ---------------------------------------------------------------------
  // Token cache
  // ---------------------------------------------------------------------

  /** The module-level pair `accessToken` / `tokenExpiry` (epoch ms). */
  datatype Credential = Credential(token: Option<string>, expiresAt: int)

  /** Its value when the module is loaded: `null` and 0. */
  const Unset := Credential(None, 0)

  /** `AMADEUS_CLIENT_ID` and `AMADEUS_CLIENT_SECRET` from the environment. */
  datatype ClientConfig = ClientConfig(clientId: Option<string>, clientSecret: Option<string>)

  /** The form body of the POST to the token endpoint. */
  datatype TokenRequest = TokenRequest(grantType: string, clientId: string, clientSecret: string)

  /** The decoded token response: `access_token` and `expires_in` (seconds). */
  datatype TokenBody = TokenBody(accessToken: Option<string>, expiresIn: int)

  /** The outcome of one `getAccessToken` call: the cache afterwards, the
      token returned (`None` for `null`), and the exchange request sent, if any. */
  datatype Refresh = Refresh(cache: Credential, token: Option<string>, request: Option<TokenRequest>)

  /** A token is held and the clock has not reached its expiry. */
  predicate HasValidToken(c: Credential, now: int) {
    Truthy(c.token) && now < c.expiresAt
  }

  /** Both client id and client secret are set. */
  predicate Configured(cfg: ClientConfig) {
    Truthy(cfg.clientId) && Truthy(cfg.clientSecret)
  }

  /** The token response, when it was received and carries an `access_token`. */
  function Grant(reply: Reply<TokenBody>): (g: Option<TokenBody>)
    ensures g.Some? ==> Truthy(g.value.accessToken)
  {
    var b := Body(reply);
    if b.Some? && Truthy(b.value.accessToken) then b else None
  }

  /** `getAccessToken` as a transition of the cache, at clock reading `now`,
      with `reply` standing for what the token endpoint would answer. */
  function NextToken(c: Credential, now: int, cfg: ClientConfig, reply: Reply<TokenBody>): (r: Refresh)
    // a token comes back without an exchange exactly when a valid one is cached
    ensures HasValidToken(c, now) ==> r == Refresh(c, c.token, None)
    ensures (r.token.Some? && r.request.None?) <==> HasValidToken(c, now)
    // an exchange is attempted exactly when no valid token is cached and both keys are set
    ensures r.request.Some? <==> !HasValidToken(c, now) && Configured(cfg)
    ensures r.request.Some? ==>
      r.request.value == TokenRequest("client_credentials", cfg.clientId.value, cfg.clientSecret.value)
    // a successful exchange stores the token with its expiry and returns it
    ensures r.request.Some? && Grant(reply).Some? ==>
      r.token == Grant(reply).value.accessToken &&
      r.cache == Credential(r.token, now + Grant(reply).value.expiresIn * 1000)
    // no token returned: the cache is left as it was
    ensures r.token.None? ==> r.cache == c
    ensures r.token.None? <==> !HasValidToken(c, now) && (!Configured(cfg) || Grant(reply).None?)
    // whatever is returned is the cached token; a cached token is never served stale
    ensures r.token.Some? ==> Truthy(r.token) && r.token == r.cache.token
    ensures r.token.Some? && r.request.None? ==> now < r.cache.expiresAt
  {
    if HasValidToken(c, now) then
      Refresh(c, c.token, None)
    else if !Configured(cfg) then
      Refresh(c, None, None)
    else
      var request := TokenRequest("client_credentials", cfg.clientId.value, cfg.clientSecret.value);
      match Grant(reply)
      case Some(body) =>
        Refresh(Credential(body.accessToken, now + body.expiresIn * 1000), body.accessToken, Some(request))
      case None =>
        Refresh(c, None, Some(request))
  }

  /** The token cache as the module holds it. */
  class TokenCache {
    var accessToken: Option<string>
    var tokenExpiry: int

    /** The cached pair as a value. */
    function Held(): Credential
      reads this
    {
      Credential(accessToken, tokenExpiry)
    }

    /** Only a non-empty token is ever stored. */
    ghost predicate Valid()
      reads this
    {
      accessToken.Some? ==> accessToken.value != ""
    }

    constructor ()
      ensures Valid() && Held() == Unset
    {
      accessToken := None;
      tokenExpiry := 0;
    }

    /** `getAccessToken()`: returns the cached token while it is valid,
        otherwise performs the client-credentials exchange and caches its
        result; `None` stands for `null`. */
    method GetAccessToken(now: int, cfg: ClientConfig, reply: Reply<TokenBody>)
      returns (token: Option<string>, request: Option<TokenRequest>)
      requires Valid()
      modifies this
      ensures Valid()
      ensures Refresh(Held(), token, request) == NextToken(old(Held()), now, cfg, reply)
    {
      if accessToken.Some? && accessToken.value != "" && now < tokenExpiry {
        return accessToken, None;
      }
      if !Truthy(cfg.clientId) || !Truthy(cfg.clientSecret) {
        return None, None;
      }
      request := Some(TokenRequest("client_credentials", cfg.clientId.value, cfg.clientSecret.value));
      var body := Body(reply);
      if body.Some? && Truthy(body.value.accessToken) {
        accessToken := body.value.accessToken;
        tokenExpiry := now + body.value.expiresIn * 1000;
        token := accessToken;
        return;
      }
      token := None;
    }
  }

  /** A token obtained by an exchange is reused, with no further exchange,
      by every later call made before its expiry. It follows from the
      contract of `NextToken` alone. */
  lemma ExchangedTokenIsReused(c: Credential, now: int, later: int, cfg: ClientConfig,
                               reply: Reply<TokenBody>, laterReply: Reply<TokenBody>)
    requires !HasValidToken(c, now) && Configured(cfg) && Grant(reply).Some?
    requires later < now + Grant(reply).value.expiresIn * 1000
    ensures var first := NextToken(c, now, cfg, reply);
            var second := NextToken(first.cache, later, cfg, laterReply);
            second == Refresh(first.cache, first.token, None)
  {
  }

  /** A token expiring at `t + 1000` is served from the cache at `t + 500`
      and triggers exactly one exchange at `t + 1500`. It follows from the
      contract of `NextToken` alone. */
  lemma ExpiryScenario(token: string, t: int, cfg: ClientConfig, reply: Reply<TokenBody>)
    requires token != "" && Configured(cfg)
    ensures var c := Credential(Some(token), t + 1000);
            NextToken(c, t + 500, cfg, reply) == Refresh(c, Some(token), None) &&
            NextToken(c, t + 1500, cfg, reply).request.Some?
  {
  }

  // ---------------------------------------------------------------------
  // Hotel search
  // ---------------------------------------------------------------------

  /** The fields `searchHotels` destructures from its argument. */
  datatype HotelSearch = HotelSearch(
    destination: Option<string>, checkIn: Option<string>, checkOut: Option<string>,
    adults: int, budget: real)

  /** The two GET requests of a search: hotels near a location code, then
      priced offers for a list of hotel ids (sent comma-joined). */
  datatype HotelRequest =
    | HotelsByCity(cityCode: string, radius: int, radiusUnit: string)
    | HotelOffers(hotelIds: seq<string>, adults: int, checkInDate: Option<string>, checkOutDate: Option<string>)

  /** An entry of the hotels-by-city response. */
  datatype HotelRef = HotelRef(hotelId: Option<string>)

  /** The hotels-by-city response: `data`, if present. */
  datatype HotelsBody = HotelsBody(data: Option<seq<HotelRef>>)

  /** A media entry of a hotel. */
  datatype Media = Media(uri: Option<string>)

  /** `offer.hotel` (`rating` decoded as a number). */
  datatype HotelInfo = HotelInfo(hotelId: Option<string>, name: Option<string>, rating: Option<real>, media: seq<Media>)

  /** An entry of `offer.offers`: `price.total` (decoded), `price.currency`
      and `room.typeEstimated.beds`. */
  datatype RoomOffer = RoomOffer(total: real, currency: Option<string>, estimatedBeds: Option<int>)

  /** An entry of the hotel-offers response. */
  datatype HotelOffer = HotelOffer(hotel: HotelInfo, offers: seq<RoomOffer>)

  /** The hotel-offers response: `data`, if present. */
  datatype OffersBody = OffersBody(data: Option<seq<HotelOffer>>)

  /** How many hotels of the first response are asked for offers. */
  const MaxHotels := 10

  /** The location code searched for a destination (amadeus.js:48). The
      rental client's `RapidApi.QueryFor` has the same shape, with place
      names. */
  function LocationCode(destination: Option<string>): (code: string)
    ensures destination == Some("NC") ==> code == "ILM"
    ensures destination != Some("NC") ==> code == "MYR"
  {
    if destination == Some("NC") then "ILM" else "MYR"
  }

  /** `hotelsData.data.slice(0, 10).map(h => h.hotelId)`; a missing id joins
      as the empty string. */
  function CandidateIds(hotels: seq<HotelRef>): (ids: seq<string>)
    ensures |ids| <= MaxHotels
    ensures |ids| == if |hotels| < MaxHotels then |hotels| else MaxHotels
    ensures forall i :: 0 <= i < |ids| ==> ids[i] == hotels[i].hotelId.GetOr("")
  {
    var first := Take(hotels, MaxHotels);
    seq(|first|, i requires 0 <= i < |first| => first[i].hotelId.GetOr(""))
  }

  /** The listing built from one offer whose `offers` list is non-empty. */
  function NormalizeOffer(offer: HotelOffer, q: HotelSearch): (l: Listing)
    requires offer.offers != []
    ensures l.kind == Hotel && l.location == q.destination && l.guests == q.adults
    ensures l.id == offer.hotel.hotelId && l.title == offer.hotel.name
    ensures l.price == offer.offers[0].total && l.currency == offer.offers[0].currency
    // `rating || 'N/A'`: a non-zero rating is kept, a missing or zero one becomes 'N/A'
    ensures offer.hotel.rating.Some? && offer.hotel.rating.value != 0.0 ==> l.rating == Score(offer.hotel.rating.value)
    ensures offer.hotel.rating.None? || offer.hotel.rating == Some(0.0) ==> l.rating == NotAvailable
    // `beds || 1`
    ensures l.beds == BedCount(OrInt(offer.offers[0].estimatedBeds, 1))
    ensures offer.offers[0].estimatedBeds.None? ==> l.beds == BedCount(1)
    // `media?.[0]?.uri || null`
    ensures l.image.Some? <==> offer.hotel.media != [] && Truthy(offer.hotel.media[0].uri)
    ensures l.image.Some? ==> l.image == offer.hotel.media[0].uri
    ensures l.source.None? && l.link.None?
  {
    var room := offer.offers[0];
    var media := offer.hotel.media;
    Listing(
      id := offer.hotel.hotelId,
      title := offer.hotel.name,
      kind := Hotel,
      price := room.total,
      currency := room.currency,
      rating := if offer.hotel.rating.Some? && offer.hotel.rating.value != 0.0
                then Score(offer.hotel.rating.value) else NotAvailable,
      image := if media != [] && Truthy(media[0].uri) then media[0].uri else None,
      location := q.destination,
      beds := BedCount(OrInt(room.estimatedBeds, 1)),
      guests := q.adults,
      source := None,
      link := None)
  }

  /** `offersData.data.map(...)`: `None` when some offer has no room offer,
      where reading `offer.offers[0].price` throws. */
  function NormalizeOffers(offers: seq<HotelOffer>, q: HotelSearch): (r: Option<seq<Listing>>)
    ensures r.Some? <==> forall i :: 0 <= i < |offers| ==> offers[i].offers != []
    ensures r.Some? ==> |r.value| == |offers|
    ensures r.Some? ==> forall i :: 0 <= i < |offers| ==> r.value[i] == NormalizeOffer(offers[i], q)
  {
    if exists i :: 0 <= i < |offers| && offers[i].offers == [] then None
    else Some(seq(|offers|, i requires 0 <= i < |offers| => NormalizeOffer(offers[i], q)))
  }

  /** The hotels listed by a reply, if it has `data`. */
  function HotelList(reply: Reply<HotelsBody>): Option<seq<HotelRef>> {
    var b := Body(reply);
    if b.Some? then b.value.data else None
  }

  /** The offers listed by a reply, if it has `data`. */
  function OfferList(reply: Reply<OffersBody>): Option<seq<HotelOffer>> {
    var b := Body(reply);
    if b.Some? then b.value.data else None
  }

  /** `searchHotels` once the token is known: `hotelsReply` and
      `offersReply` stand for what the two endpoints would answer. */
  function SearchWithToken(token: Option<string>, q: HotelSearch,
                           hotelsReply: Reply<HotelsBody>, offersReply: Reply<OffersBody>): (r: Run<HotelRequest>)
    // no token: nothing is searched
    ensures !Truthy(token) ==> r == Empty([])
    // with a token, the first request asks for hotels within 20 km of the location code
    ensures Truthy(token) ==> 1 <= |r.requests| <= 2 && r.requests[0] == HotelsByCity(LocationCode(q.destination), 20, "KM")
    // offers are asked for exactly when the first reply lists hotels, and for at most the first 10 of them
    ensures |r.requests| == 2 <==> Truthy(token) && HotelList(hotelsReply).Some?
    ensures |r.requests| == 2 ==> r.requests[1].HotelOffers?
    ensures |r.requests| == 2 ==>
      var ids := r.requests[1].hotelIds;
      |ids| <= MaxHotels && ids == CandidateIds(HotelList(hotelsReply).value) &&
      r.requests[1].adults == q.adults && r.requests[1].checkInDate == q.checkIn && r.requests[1].checkOutDate == q.checkOut
    // every listing returned is affordable and is a hotel for this destination and party
    ensures WithinBudget(r.listings, q.budget)
    ensures forall l :: l in r.listings ==> l.kind == Hotel && l.location == q.destination && l.guests == q.adults
    // listings come only from a fully readable offers reply, in offer order, none over budget dropped
    ensures r.listings != [] ==> |r.requests| == 2 && OfferList(offersReply).Some? && NormalizeOffers(OfferList(offersReply).value, q).Some?
    ensures |r.requests| == 2 && OfferList(offersReply).Some? && NormalizeOffers(OfferList(offersReply).value, q).Some? ==>
      var all := NormalizeOffers(OfferList(offersReply).value, q).value;
      IsSubsequence(r.listings, all) && (forall l :: l in all && l.price <= q.budget ==> l in r.listings) &&
      forall l :: multiset(r.listings)[l] == if l.price <= q.budget then multiset(all)[l] else 0
  {
    if !Truthy(token) then Empty([])
    else
      var byCity := HotelsByCity(LocationCode(q.destination), 20, "KM");
      match HotelList(hotelsReply)
      case None => Empty([byCity])
      case Some(hotels) =>
        var offersRequest := HotelOffers(CandidateIds(hotels), q.adults, q.checkIn, q.checkOut);
        match OfferList(offersReply)
        case None => Empty([byCity, offersRequest])
        case Some(offers) =>
          match NormalizeOffers(offers, q)
          case None => Empty([byCity, offersRequest])
          case Some(all) => Run(FilterByBudget(all, q.budget), [byCity, offersRequest])
  }

  /** `searchHotels`: obtain a token from the cache, then search with it. */
  method SearchHotels(cache: TokenCache, now: int, cfg: ClientConfig, tokenReply: Reply<TokenBody>,
                      q: HotelSearch, hotelsReply: Reply<HotelsBody>, offersReply: Reply<OffersBody>)
    returns (run: Run<HotelRequest>, tokenRequest: Option<TokenRequest>)
    requires cache.Valid()
    modifies cache
    ensures cache.Valid()
    ensures var f := NextToken(old(cache.Held()), now, cfg, tokenReply);
            cache.Held() == f.cache && tokenRequest == f.request &&
            run == SearchWithToken(f.token, q, hotelsReply, offersReply)
  {
    var token;
    token, tokenRequest := cache.GetAccessToken(now, cfg, tokenReply);
    run := SearchWithToken(token, q, hotelsReply, offersReply);
  }
}
