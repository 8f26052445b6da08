/** The search results page (src/app/search/page.js): default the query
    parameters, run the hotel and the rental search, and show the hotels
    followed by the rentals. */
module SearchPage {
  import opened Js
  import opened Listings
  import Seqs
  import Amadeus
  import RapidApi

  /** The URL parameters the page reads, already decoded by `parseInt`;
      `None` stands for absent or empty. `babies` is read and never used. */
  datatype SearchParams = SearchParams(
    destination: Option<string>, checkIn: Option<string>, checkOut: Option<string>,
    adults: Option<int>, kids: Option<int>, babies: Option<int>, budget: Option<int>)

  /** The props handed to the results view. */
  datatype ResultsProps = ResultsProps(
    listings: seq<Listing>, destination: Option<string>, numGuests: int, budget: int)

  /** `parseInt(adults || '2')`, `parseInt(kids || '0')`, `parseInt(budget || '10000')`. */
  function NumAdults(p: SearchParams): int { p.adults.GetOr(2) }
  function NumKids(p: SearchParams): int { p.kids.GetOr(0) }
  function NumBudget(p: SearchParams): int { p.budget.GetOr(10000) }

  /** The arguments of the two searches. */
  function Queries(p: SearchParams): (qs: (Amadeus.HotelSearch, RapidApi.RentalSearch))
    // both searches get the same destination, dates, adults and budget
    ensures qs.0.destination == qs.1.destination == p.destination
    ensures qs.0.checkIn == qs.1.checkIn == p.checkIn && qs.0.checkOut == qs.1.checkOut == p.checkOut
    ensures qs.0.adults == qs.1.adults == NumAdults(p)
    ensures qs.0.budget == qs.1.budget == NumBudget(p) as real
    // only the rental search gets the kids
    ensures qs.1.kids == NumKids(p)
    // defaults for absent parameters
    ensures p.adults.None? ==> qs.0.adults == 2
    ensures p.kids.None? ==> qs.1.kids == 0
    ensures p.budget.None? ==> qs.0.budget == 10000.0
  {
    (Amadeus.HotelSearch(p.destination, p.checkIn, p.checkOut, NumAdults(p), NumBudget(p) as real),
     RapidApi.RentalSearch(p.destination, p.checkIn, p.checkOut, NumAdults(p), NumKids(p), NumBudget(p) as real))
  }

  /** The page once the hotel token is known; the replies stand for what
      the providers would answer. */
  function Results(p: SearchParams, token: Option<string>,
                   hotelsReply: Reply<Amadeus.HotelsBody>, offersReply: Reply<Amadeus.OffersBody>,
                   apiKey: Option<string>, destReply: Reply<RapidApi.DestinationBody>,
                   searchReply: Reply<RapidApi.PropertiesBody>, freshId: nat -> string): (v: ResultsProps)
    // the hotels followed by the rentals: nothing dropped, added or reordered
    ensures var hotels := Amadeus.SearchWithToken(token, Queries(p).0, hotelsReply, offersReply).listings;
            var rentals := RapidApi.SearchRentals(apiKey, Queries(p).1, destReply, searchReply, freshId).listings;
            v.listings == hotels + rentals &&
            (!Truthy(apiKey) ==> v.listings == hotels) &&
            (!Truthy(token) ==> v.listings == rentals)
    // every listing on the page is within the budget shown
    ensures WithinBudget(v.listings, v.budget as real)
    ensures v.budget == NumBudget(p) && v.destination == p.destination
    // the guest count shown ignores babies
    ensures v.numGuests == NumAdults(p) + NumKids(p)
  {
    var (hq, rq) := Queries(p);
    var hotels := Amadeus.SearchWithToken(token, hq, hotelsReply, offersReply).listings;
    var rentals := RapidApi.SearchRentals(apiKey, rq, destReply, searchReply, freshId).listings;
    ConcatWithinBudget(hotels, rentals, NumBudget(p) as real);
    assert hotels + [] == hotels && [] + rentals == rentals;
    ResultsProps(hotels + rentals, p.destination, NumAdults(p) + NumKids(p), NumBudget(p))
  }

  /** `SearchPage`: the hotel search takes its token from the process-wide
      cache, then both searches run and their results are concatenated. */
  method RenderSearchPage(cache: Amadeus.TokenCache, now: int, cfg: Amadeus.ClientConfig,
                          tokenReply: Reply<Amadeus.TokenBody>,
                          hotelsReply: Reply<Amadeus.HotelsBody>, offersReply: Reply<Amadeus.OffersBody>,
                          apiKey: Option<string>, destReply: Reply<RapidApi.DestinationBody>,
                          searchReply: Reply<RapidApi.PropertiesBody>, freshId: nat -> string,
                          p: SearchParams)
    returns (v: ResultsProps)
    requires cache.Valid()
    modifies cache
    ensures cache.Valid()
    ensures var f := Amadeus.NextToken(old(cache.Held()), now, cfg, tokenReply);
            cache.Held() == f.cache &&
            v == Results(p, f.token, hotelsReply, offersReply, apiKey, destReply, searchReply, freshId)
  {
    var (hq, rq) := Queries(p);
    var hotels, _ := Amadeus.SearchHotels(cache, now, cfg, tokenReply, hq, hotelsReply, offersReply);
    var rentals := RapidApi.SearchRentals(apiKey, rq, destReply, searchReply, freshId);
    v := ResultsProps(hotels.listings + rentals.listings, p.destination, NumAdults(p) + NumKids(p), NumBudget(p));
  }

  /** With no provider configured the page lists nothing, and fails in no
      way. It follows from the contracts of the two searches alone. */
  lemma NothingConfigured(p: SearchParams, hotelsReply: Reply<Amadeus.HotelsBody>, offersReply: Reply<Amadeus.OffersBody>,
                          destReply: Reply<RapidApi.DestinationBody>, searchReply: Reply<RapidApi.PropertiesBody>,
                          freshId: nat -> string)
    ensures Results(p, None, hotelsReply, offersReply, None, destReply, searchReply, freshId).listings == []
  {
  }

  /** No hotel credentials, and a rental search answering one property at
      250 and one at 450 under a budget of 300: the page lists exactly the
      250 property, from the rental provider. */
  lemma BudgetScenario(destId: string, freshId: nat -> string)
    ensures var p := SearchParams(Some("Wilmington"), Some("2026-01-04"), Some("2026-01-09"), Some(2), Some(0), None, Some(300));
            var cheap := RapidApi.Property(Some("p1"), Some("Cheap"), Some(250.0), None, None, []);
            var dear := RapidApi.Property(Some("p2"), Some("Dear"), Some(450.0), None, None, []);
            var destReply := Response(true, Some(RapidApi.DestinationBody(Some([RapidApi.Destination(Some(destId), Some("city"))]))));
            var searchReply := Response(true, Some(RapidApi.PropertiesBody(Some(RapidApi.PropertiesData(Some([cheap, dear]))))));
            var v := Results(p, None, NetworkError, NetworkError, Some("key"), destReply, searchReply, freshId);
            |v.listings| == 1 && v.listings[0].price == 250.0 && v.listings[0].source == Some(Booking)
  {
    var p := SearchParams(Some("Wilmington"), Some("2026-01-04"), Some("2026-01-09"), Some(2), Some(0), None, Some(300));
    var cheap := RapidApi.Property(Some("p1"), Some("Cheap"), Some(250.0), None, None, []);
    var dear := RapidApi.Property(Some("p2"), Some("Dear"), Some(450.0), None, None, []);
    var destReply := Response(true, Some(RapidApi.DestinationBody(Some([RapidApi.Destination(Some(destId), Some("city"))]))));
    var searchReply := Response(true, Some(RapidApi.PropertiesBody(Some(RapidApi.PropertiesData(Some([cheap, dear]))))));
    var all := RapidApi.NormalizeProperties([cheap, dear], Queries(p).1, freshId);
    var affordable := Affordable(300.0);
    assert !affordable(all[1]) && all[1..][1..] == [];
    assert Seqs.Filter(all[1..], affordable) == [];
    assert affordable(all[0]);
    assert Seqs.Filter(all, affordable) == [all[0]];
    assert RapidApi.SearchRentals(Some("key"), Queries(p).1, destReply, searchReply, freshId).listings == [all[0]];
  }
}
