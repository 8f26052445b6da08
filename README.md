# Beach Trip Planner — a verified model of its core

Beach Trip Planner is a Next.js application for planning a group beach trip.
It searches lodging from two providers and saves pasted listings with a link
preview. Group members mark favourites and vote on them. This project models
the parts of the application that make decisions, in Dafny, and proves what
they promise:

- **Hotel client** (`amadeus.dfy`, module `Amadeus`):
  - the process-wide OAuth2 client-credentials token cache with its expiry;
  - the two-step hotel search (hotels near a location code, then priced
    offers for at most ten of them);
  - normalisation of offers and the budget filter.
- **Rental clients**:
  - `rapidapi.dfy` (module `RapidApi`): destination lookup, then a property
    search with one room, defaults for missing fields, and the budget filter;
  - `vrbo.dfy` (module `Vrbo`): geocoding, then a search within one mile,
    and normalisation with defaults.
- **Search page** (`search_page.dfy`, module `SearchPage`): parameter
  defaults, the two searches, and the concatenated results.
- **Favourites store** (`store.dfy`, module `Store`):
  - the shared favourites list and the current user;
  - optimistic toggling of a favourite and of a vote;
  - the requests those send.
- **Search form** (`search_form.dfy`, module `SearchForm`): the guest
  counters with their floors, budget, location and submission.
- **Home page** (`home_page.dfy`, module `HomePage`): saved listings,
  prepended on add, filtered by id on delete, and mirrored to local storage.
- **Favourites page** (`favorites_page.dfy`, module `FavoritesPage`):
  grouping favourites into one column per user.
- **Link-preview route** (`metadata_route.dfy`, `metadata_text.dfy`,
  `metadata_price.dfy`): the `POST` handler that fetches a pasted URL and
  extracts its title, image, price, room counts, amenities and description.

Shared pieces:

- `js.dfy` (module `Js`): `Option`, a network reply (`NetworkError`, or a
  response with its `ok` flag and decoded body), and JavaScript truthiness
  and `||` fallbacks.
- `seqs.dfy` (module `Seqs`): filtering, subsequences, de-duplication and
  prefixes.
- `listings.dfy` (module `Listings`): the normalised listing record and the
  budget filter.

Everything outside the program is an input to the model:

- Network replies are parameters. A provider call returns the listings it
  produced together with the requests it sent, so "no request is made" and
  "only the first ten ids are asked for" can be stated.
- The clock (`Date.now()`) is a parameter.
- Random ids (`Math.random()`, `crypto.randomUUID()`) are parameters.
- The stored values of local storage are parameters.
- The DOM, the regular expressions and URL parsing of the link-preview route
  are parameters. The price pattern is the exception: its matching is
  modelled for the pattern as written and for a corrected pattern whose
  leading digit run is unbounded, and the route uses the pattern as written.

## Model

| member | source | states |
|---|---|---|
| Amadeus.NextToken | src/lib/api/amadeus.js:6-38 | A cached token comes back without an exchange exactly when one is held and unexpired; the cached token is then returned and the cache is left as it was. An exchange is attempted exactly when no valid token is held and both keys are set, with the client-credentials body. A successful exchange caches the token with expiry `now + expires_in*1000` and returns it. A failure returns null and leaves the cache unchanged. A stale token is never returned. |
| Amadeus.Grant | src/lib/api/amadeus.js:28-29 | Only a reply whose body carries a truthy `access_token` counts as a grant. |
| Amadeus.TokenCache.constructor | src/lib/api/amadeus.js:3-4 | The cache starts as `null` / 0. |
| Amadeus.TokenCache.GetAccessToken | src/lib/api/amadeus.js:6-38 | The new cache, the returned token and the request sent are exactly the `NextToken` transition of the old cache. Only non-empty tokens are ever stored. |
| Amadeus.ExchangedTokenIsReused | src/lib/api/amadeus.js:7-9 | After a successful exchange, any call before the expiry returns the same token and sends no request. |
| Amadeus.ExpiryScenario | src/lib/api/amadeus.js:7 | A token expiring at t+1000 is served from the cache at t+500, and at t+1500 an exchange is attempted. |
| Amadeus.LocationCode | src/lib/api/amadeus.js:48 | NC is searched as ILM; everything else, including an absent destination, as MYR. |
| Amadeus.CandidateIds | src/lib/api/amadeus.js:61 | At most ten ids, namely the first min(n, 10) hotels' ids in order; a missing id joins as ''. |
| Amadeus.NormalizeOffer | src/lib/api/amadeus.js:73-85 | The listing takes its id and title from the hotel, and price and currency from the first offer. A truthy rating is kept as the score and a missing or zero one becomes 'N/A'. Beds are the first offer's `estimatedBeds`, or 1 when that is falsy. The image, when there is one, is the first media entry's uri, and there is one exactly when that uri is truthy. It is a Hotel for the searched destination and adults, with no source or link. |
| Amadeus.NormalizeOffers | src/lib/api/amadeus.js:73-85 | The map succeeds exactly when every offer has a room offer; reading `offers[0]` of an empty list throws. It gives one listing per offer, in order. |
| Amadeus.SearchWithToken | src/lib/api/amadeus.js:41-91 | With no token nothing is requested and [] comes back. The first request asks for hotels within 20 KM of the location code. Offers are requested exactly when that reply has `data`, for the first ten ids, with the searched adults and dates. The results are a subsequence of the normalised offers that holds each listing within budget as often as the offers do and none over budget. Anything unreadable gives []. |
| Amadeus.SearchHotels | src/lib/api/amadeus.js:40-92 | It takes its token through the cache transition and then behaves as `SearchWithToken` with that token. |
| RapidApi.QueryFor | src/lib/api/rapidapi.js:21 | NC is looked up as Wilmington, everything else as Myrtle Beach. |
| RapidApi.NormalizeProperty | src/lib/api/rapidapi.js:62-76 | Each field carries the property's value when it is truthy, else the default: the random id, price 0, currency USD, the first photo or ''. A truthy review score is kept and a missing or zero one becomes 'N/A'. Beds are 'Varies', guests are adults + kids, the source is 'booking' and the link is '#'. |
| RapidApi.NormalizeProperties | src/lib/api/rapidapi.js:62-76 | One listing per property, in order. |
| RapidApi.SearchRentals | src/lib/api/rapidapi.js:8-83 | Without a key nothing is requested. With one, the destination is looked up first. Properties are searched exactly when the lookup returns a match: with the first match's id and type, one room, and the searched adults and dates. The results are the budget-filtered normalised properties: each within budget as often as in the reply, none over budget, order kept. |
| RapidApi.MissingPricePasses | src/lib/api/rapidapi.js:66 | A property without a price is listed at 0 and so is kept under any non-negative budget. |
| Vrbo.NormalizeRental | src/lib/api/vrbo.js:46-59 | Each field carries the rental's value when it is truthy, else its default: random id, headline or 'VRBO Stay', nightly price or 0, first image or '', average rating or 0, bedrooms or 0, sleeps or 0, detail page or '#'. The source is 'vrbo'. There is no currency or location. |
| Vrbo.NormalizeRentals | src/lib/api/vrbo.js:46-59 | One listing per rental, in order. |
| Vrbo.SearchVrbo | src/lib/api/vrbo.js:5-65 | The location is always geocoded first, with the identifying User-Agent. The rental search runs exactly when the geocoder returns a place: at its coordinates, within a radius of 1, with the searched dates and guests, falling back to '' and 1 when they are missing. A failed, non-ok or listing-less reply gives []; otherwise every rental is listed, in order, with no budget filter. |
| SearchPage.Queries | src/app/search/page.js:16-40 | Both searches get the same destination, dates, adults and budget, and only the rental search gets the kids. Absent parameters default to 2 adults, 0 kids and a budget of 10000. |
| SearchPage.Results | src/app/search/page.js:42-51 | The page lists the hotels followed by the rentals, with nothing dropped or reordered; every listing is within the budget shown. The guest count shown is adults + kids. |
| SearchPage.RenderSearchPage | src/app/search/page.js:15-52 | The page takes its hotel token through the cache transition and shows `Results` for it. |
| SearchPage.NothingConfigured | src/app/search/page.js:24-42 | With neither provider configured, the page lists nothing. |
| SearchPage.BudgetScenario | src/app/search/page.js:24-42 | With rentals at 250 and 450 under a budget of 300, exactly the 250 rental is shown. |
| Listings.FilterByBudget | src/lib/api/amadeus.js:86 | It keeps exactly the listings priced within budget, each as often as it occurs, in their order, and is the identity when all are within budget. |
| Listings.ConcatWithinBudget | src/app/search/page.js:42 | Concatenating two within-budget lists gives a within-budget list. |
| Store.RemovalKeepsOthers | src/lib/store.js:59 | The removal filter keeps every entry of another listing, as often as it occurs and in order, and leaves no entry of the removed listing. |
| Store.ToggledFavorites | src/lib/store.js:52-71 | Without a user nothing changes. With a user, the listing's favourite status flips and no other listing's does. A removal drops every entry of the listing and keeps every other entry, as often as it occurs and in order; an add appends one entry by this user. |
| Store.ToggleTwiceRestores | src/lib/store.js:52-71 | Adding a favourite and toggling it again restores the list. |
| Store.ConfirmedFavorites | src/lib/store.js:81 | The server's copy replaces exactly the entries of that listing. |
| Store.ToggledVotes | src/lib/store.js:99-103 | The user's has-voted status flips and a new vote is appended at the end. A removal keeps every other user's vote as often as it occurs. |
| Store.VoteTwiceRestores | src/lib/store.js:99-103 | Voting twice from no vote restores the votes. |
| Store.VoteTwiceRestoresFavorites | src/lib/store.js:97-106 | Voting twice on a favourite whose votes hold none by this user restores the favourites. |
| Store.VotedFavorites | src/lib/store.js:97-106 | Only favourites with that id change, and only in their votes, which become the toggled votes of that favourite. |
| Store.FavoritesStore.constructor | src/lib/store.js:20-21 | The store starts with no favourites and no user. |
| Store.FavoritesStore.Mount | src/lib/store.js:24-43 | The favourites are loaded only from an ok reply with a body, and a truthy saved user name is restored. |
| Store.FavoritesStore.SetCurrentUser | src/lib/store.js:46-50 | A non-empty name is saved to storage; the favourites are untouched. |
| Store.FavoritesStore.ToggleFavorite | src/lib/store.js:52-87 | The favourites become `ToggledFavorites`. With a user, `IsFavorite` flips. The request is DELETE when the listing was a favourite and POST with the user when it was not; no user means no request and no change. |
| Store.FavoritesStore.ConfirmFavorite | src/lib/store.js:78-82 | The POST reply's favourite replaces the optimistic entry. |
| Store.FavoritesStore.ToggleVote | src/lib/store.js:93-118 | Without a user nothing changes and nothing is sent; otherwise the favourites become `VotedFavorites` and the vote is POSTed. |
| SearchForm.WithCount | src/components/SearchForm.jsx:22-25 | Only the chosen counter is set. |
| SearchForm.TotalGuests | src/components/SearchForm.jsx:15 | The total is the sum of the three counters. |
| SearchForm.GuestChange | src/components/SearchForm.jsx:17-27 | A decrement at 0, or of the last adult, changes nothing; otherwise exactly the chosen counter moves by one. At least one adult and no negative counts are kept. |
| SearchForm.DisabledIffNoOp | src/components/SearchForm.jsx:78 | On reachable counts, a "-" button is disabled exactly when pressing it would change nothing. |
| SearchForm.IncrementThenDecrement | src/components/SearchForm.jsx:17-27 | "+" then "-" on a counter restores the counts. |
| SearchForm.SearchFormState.constructor | src/components/SearchForm.jsx:6-13 | The form starts at NC, 2000, and 2 adults with no children or babies. |
| SearchForm.SearchFormState.HandleGuestChange | src/components/SearchForm.jsx:17-27 | The guests become `GuestChange` of the old guests and the floors are kept. |
| SearchForm.SearchFormState.SetBudget | src/components/SearchForm.jsx:117 | Only the budget changes. |
| SearchForm.SearchFormState.SetLocation | src/components/SearchForm.jsx:44 | Only the location changes. |
| SearchForm.SearchFormState.Submit | src/components/SearchForm.jsx:29-34 | It passes on the location, budget and guests with their total, which is at least 1. |
| HomePage.WithId | src/app/page.js:19 | The saved listing is the draft with the new id. |
| HomePage.WithoutId | src/app/page.js:29 | No item with the id remains, and every other item stays as often as it occurred, in order. |
| HomePage.Added | src/app/page.js:20 | The new listing comes first, followed by the old list. |
| HomePage.DeleteAbsent | src/app/page.js:25-33 | Deleting an id nobody has changes nothing. |
| HomePage.DeleteIdempotent | src/app/page.js:25-33 | Deleting twice is deleting once. |
| HomePage.AddThenDeleteRestores | src/app/page.js:18-33 | Adding under an unused id and then deleting that id restores the list. |
| HomePage.SavedListings.constructor | src/app/page.js:8 | The list starts empty. |
| HomePage.SavedListings.Mount | src/app/page.js:11-16 | The stored list is loaded if there is one. |
| HomePage.SavedListings.AddListing | src/app/page.js:18-23 | The list becomes `Added`, and storage holds the new list. |
| HomePage.SavedListings.DeleteListing | src/app/page.js:25-33 | The list becomes `WithoutId`, and storage holds the new list. |
| FavoritesPage.UserOf | src/app/favorites/page.js:29 | A missing `addedBy` reads as 'Anonymous'; a user is never ''. |
| FavoritesPage.PicksOf | src/app/favorites/page.js:28-33 | A user's column holds exactly their favourites, in input order. |
| FavoritesPage.PicksMultiset | src/app/favorites/page.js:28-33 | A user's column holds each of their favourites as often as it occurs, and nothing else. |
| FavoritesPage.Users | src/app/favorites/page.js:28-33 | The column users are distinct, and are exactly the users with a favourite. |
| FavoritesPage.PicksAppend | src/app/favorites/page.js:31 | An appended favourite joins the end of its user's column and no other. |
| FavoritesPage.NoPicksForOthers | src/app/favorites/page.js:28-33 | A user without a favourite has an empty column. |
| FavoritesPage.ColumnsCoverFavorites | src/app/favorites/page.js:28-33 | Every favourite is in its user's column, and no column is empty. |
| FavoritesPage.UsersSnoc | src/app/favorites/page.js:30 | A new user's column is added after the existing ones. |
| FavoritesPage.GroupStep | src/app/favorites/page.js:29-31 | One reduce step keeps the grouping invariant. |
| FavoritesPage.GroupByUser | src/app/favorites/page.js:28-33 | The loop builds one column per user, in order of their first favourite. Each column holds exactly that user's favourites in order, and every favourite is in exactly its user's column. |
| FavoritesPage.GroupSizesSum | src/app/favorites/page.js:28-33 | The columns together hold exactly as many favourites as there are. |
| FavoritesPage.Render | src/app/favorites/page.js:50-60 | With no favourites the page shows the empty state; otherwise, over the corrected grouping, it shows one column per user, each non-empty and holding that user's picks. |
| FavoritesPage.ReduceAsWritten | src/app/favorites/page.js:28-33 | The reduce on `{}` throws exactly when some user is a name inherited from `Object.prototype`; otherwise its keys are the users. |
| FavoritesPage.ConstructorCrashes | src/app/favorites/page.js:30-31 | A favourite added by 'constructor' makes the reduce throw. |
| FavoritesPage.AsWrittenAgrees | src/app/favorites/page.js:28-33 | Without such names, the reduce builds exactly the `GroupByUser` columns. |
| MetadataText.WithProtocol | src/app/api/metadata/route.js:13-16 | `https://` is added only when the URL lacks a case-insensitive `http://` or `https://` prefix, and the result always has one. |
| MetadataText.FirstTruthy | src/app/api/metadata/route.js:33-39 | A fallback chain gives its first truthy option, or its last value when no option is truthy. |
| MetadataText.IndexOf | src/app/api/metadata/route.js:38 | It finds the first occurrence, and none exactly when the pattern does not occur. |
| MetadataText.ReplaceFirst | src/app/api/metadata/route.js:38 | A string `replace` changes only the first occurrence, and nothing when there is none. |
| MetadataText.Lower | src/app/api/metadata/route.js:115 | Lower-casing is character-wise and keeps the length. |
| MetadataText.TrimStart | src/app/api/metadata/route.js:147 | It drops exactly the leading white space. |
| MetadataText.TrimEnd | src/app/api/metadata/route.js:147 | It drops exactly the trailing white space. |
| MetadataText.Trim | src/app/api/metadata/route.js:147 | The trimmed title neither starts nor ends with white space. |
| MetadataText.TrimIsSlice | src/app/api/metadata/route.js:147 | Trimming keeps one contiguous stretch of the title. |
| MetadataText.TrimDropsOnlySpace | src/app/api/metadata/route.js:147 | Only white space is dropped. |
| MetadataText.TrimIdempotent | src/app/api/metadata/route.js:147 | Trimming twice is trimming once. |
| MetadataText.Truncate | src/app/api/metadata/route.js:154 | The description is kept as is up to 150 characters. Beyond that come its first 150 characters and '...', exactly when something was cut. |
| MetadataPrice.DigitRun | src/app/api/metadata/route.js:68 | A greedy `\d{1,max}`: digits only, and it stops only at a non-digit, at `max` or at the end. |
| MetadataPrice.CentsLength | src/app/api/metadata/route.js:68 | The optional `(\.\d{2})` matches exactly a point followed by two digits. |
| MetadataPrice.GroupsLength | src/app/api/metadata/route.js:68 | `(,\d{3})*` taken greedily: whole `,ddd` groups back to back from the start, and no further group where they stop. |
| MetadataPrice.Amount | src/app/api/metadata/route.js:68 | The captured amount is a prefix of the text after the `$` that starts with a digit: the leading digits, up to `leadMax` of them, then every `,ddd` group that follows, then `.dd` when it follows. |
| MetadataPrice.MatchStart | src/app/api/metadata/route.js:69 | It finds the leftmost `$` followed by a digit. |
| MetadataPrice.PriceMatchAsWritten | src/app/api/metadata/route.js:68-69 | As written, there is a match exactly when some `$` is followed by a digit; the capture is taken at the leftmost such `$`, with at most three leading digits. |
| MetadataPrice.PriceMatch | src/app/api/metadata/route.js:68-69 | Corrected: no match exactly when no `$` is followed by a digit; otherwise the capture at the leftmost such `$`, with the leading digit run unbounded, then the `,ddd` groups and the `.dd` cents. |
| MetadataPrice.PriceMatchKeepsDigitRun | src/app/api/metadata/route.js:68-69 | Corrected, the capture is a prefix of the text after the `$` that holds its whole leading digit run. |
| MetadataPrice.RemoveCommas | src/app/api/metadata/route.js:71 | Every comma is removed; every other character stays as often as it occurred, in order. |
| MetadataPrice.PriceText | src/app/api/metadata/route.js:69-71 | As written: the capture of the pattern with its commas removed, or '' exactly when nothing matched. |
| MetadataPrice.CorrectedPriceText | src/app/api/metadata/route.js:69-71 | Corrected: the corrected capture with its commas removed, or '' exactly when nothing matched. |
| MetadataPrice.FractionValue | src/app/api/metadata/route.js:72 | The value of the digits after the point lies in [0, 1). |
| MetadataPrice.RoundedPrice | src/app/api/metadata/route.js:72 | The result is within half a dollar of the parsed value. |
| MetadataPrice.PriceOf | src/app/api/metadata/route.js:67-72 | As written: there is no price exactly when nothing matched; otherwise the result is within half a dollar of the parsed `PriceText`. |
| MetadataPrice.CorrectedPriceOf | src/app/api/metadata/route.js:67-72 | Corrected: there is no price exactly when nothing matched; otherwise the result is within half a dollar of the parsed `CorrectedPriceText`. |
| MetadataPrice.DigitRunOfDigits | src/app/api/metadata/route.js:68 | A run of `max` digits is taken whole by `\d{1,max}`. |
| MetadataPrice.UnseparatedThousandsTruncated | src/app/api/metadata/route.js:68 | As written, a first price of four or more digits without a separator is cut to three digits; the corrected pattern keeps all of them. |
| MetadataPrice.GroupsAndCentsCaptured | src/app/api/metadata/route.js:68-69 | As written, "$1,234.56" is captured whole, as "1,234.56". |
| MetadataPrice.FifteenHundredReadAsOneFifty | src/app/api/metadata/route.js:68 | As written, "$1500" is captured as "150". |
| MetadataPrice.FifteenHundredReadInFull | src/app/api/metadata/route.js:68 | Corrected, "$1500" is captured as "1500". |
| MetadataPrice.FifteenHundredPriceAsWritten | src/app/api/metadata/route.js:67-72 | As written, "$1500" gives the text "150" and a price of 150 dollars. |
| MetadataPrice.FifteenHundredPrice | src/app/api/metadata/route.js:67-72 | Corrected, "$1500" gives a price of 1500 dollars. |
| MetadataRoute.Get | src/app/api/metadata/route.js:82-83 | A property read on an object finds exactly its own fields; on a boolean or a number it is undefined. |
| MetadataRoute.Candidate | src/app/api/metadata/route.js:49-53 | An image offers a URL exactly when one of `src`, `data-src` or `data-original` is truthy. |
| MetadataRoute.ImageScan | src/app/api/metadata/route.js:47-59 | The scan gives '' exactly when no image is acceptable; otherwise it gives the candidate of the first acceptable image. |
| MetadataRoute.ScanImages | src/app/api/metadata/route.js:48-58 | The loop, which stops at the first accepted image, computes `ImageScan`. |
| MetadataRoute.ImageOf | src/app/api/metadata/route.js:41-59 | The meta tags and the link win in order; the scan runs only when none of them is truthy. |
| MetadataRoute.TestType | src/app/api/metadata/route.js:82-86 | A schema is relevant exactly when it is an object whose `@type` is a string containing one of the five type names or an array holding one of them. The test throws exactly on null, or on a truthy `@type` that is neither a string nor an array. |
| MetadataRoute.Schemas | src/app/api/metadata/route.js:81 | An array is taken as is; anything else is wrapped in a one-element list. |
| MetadataRoute.FindRelevant | src/app/api/metadata/route.js:82-86 | A schema is found exactly when some schema is relevant and every earlier one was tested without a throw; the fields are those of the first such schema. |
| MetadataRoute.Merged | src/app/api/metadata/route.js:75-95 | A key is present exactly when some script's schema set it, and it holds the value from the last script that did. |
| MetadataRoute.MergeJsonLd | src/app/api/metadata/route.js:76-95 | The loop computes `Merged`. |
| MetadataRoute.Features | src/app/api/metadata/route.js:100-101 | A falsy or absent `amenityFeature` gives no features; an array gives its elements; any other truthy value is the one feature. |
| MetadataRoute.FeatureName | src/app/api/metadata/route.js:102 | A string feature is its own name. An object's name is its truthy `name`, else its `value`. Anything other than a string or an object has none. |
| MetadataRoute.NamesOf | src/app/api/metadata/route.js:102 | Exactly the non-empty names of the features, in the features' order. |
| MetadataRoute.StructuredAmenities | src/app/api/metadata/route.js:99-103 | It fails exactly when a feature is null. Otherwise the amenities are exactly the non-empty feature names, in order; every non-empty string feature is among them. |
| MetadataRoute.KeywordStep | src/app/api/metadata/route.js:138-144 | A key is pushed exactly when no amenity so far matches the pattern and the text does. |
| MetadataRoute.WithKeywords | src/app/api/metadata/route.js:138-144 | The keyword loop only appends, at most one key per target. |
| MetadataRoute.KeywordsOnlyWhenUnmatched | src/app/api/metadata/route.js:138-144 | Every added key belongs to a target whose pattern the text matches and no JSON-LD amenity matches. |
| MetadataRoute.KeywordsCoverMatches | src/app/api/metadata/route.js:138-144 | Every target the text matches is represented, by a matching amenity or by its key. |
| MetadataRoute.AddKeywordAmenities | src/app/api/metadata/route.js:138-144 | The loop computes `WithKeywords`. |
| Seqs.DedupeSnoc | src/app/api/metadata/route.js:153 | Appending an element to a list appends it to the de-duplicated list exactly when it is new, so the de-duplicated list keeps first occurrences in order. |
| MetadataRoute.TopAmenities | src/app/api/metadata/route.js:153 | At most 8 distinct amenities: the first of the de-duplicated list, which keeps first occurrences in order (Seqs.DedupeSnoc). |
| MetadataRoute.RoomsFromJsonLd | src/app/api/metadata/route.js:107 | A truthy `numberOfRooms` wins. Otherwise a truthy `bedroom` gives its `length`: the item count of an array, the length of a string, undefined for anything else. Otherwise null. |
| MetadataRoute.BedroomsOf | src/app/api/metadata/route.js:118-121 | The JSON-LD count is used when truthy, else a non-zero count from the text, else null. The result is never falsy except null. |
| MetadataRoute.BathroomsOf | src/app/api/metadata/route.js:124-125 | The count from the text if it is non-zero, else null. |
| MetadataRoute.TitleOf | src/app/api/metadata/route.js:33-39 | The title meta tags, `<title>` and `<h1>` win in order; the host name without its first 'www.' comes last. |
| MetadataRoute.DescriptionOf | src/app/api/metadata/route.js:62-65 | `og:description`, then the description meta tag, then ''. |
| MetadataRoute.Extract | src/app/api/metadata/route.js:31-156 | It fails exactly when a merged amenity feature is null. Otherwise: the trimmed title, the image, the as-written price from the untrimmed title and the description, the truncated description, the room counts from the merged JSON-LD and the searched text, and the top amenities of the structured names plus keyword matches, at most 8 and distinct. |
| MetadataRoute.Respond | src/app/api/metadata/route.js:4-165 | An unreadable body gives a 500 with its message, and a missing URL gives a 400 with no fetch. A page is fetched exactly when a URL is given, with the scheme added and the browser headers. A rejected or non-ok fetch gives a 500 with the reason. The metadata is returned exactly when the fetch is ok and the extraction succeeds; an ok fetch whose extraction fails (a null amenity feature) gives a 500 with the error's message. Every 500 reports 'Failed to fetch metadata', and the only 400 is the missing URL. |
| MetadataRoute.Post | src/app/api/metadata/route.js:4-165 | The handler, with its loops, computes `Respond`. |

## Left out

- Network, clocks, randomness, local storage, the DOM (cheerio) and `console` logging are inputs or are omitted, as described above.
- `Promise.all` concurrency, and the order in which `fetch` calls complete, are not modelled. The search page is one function of the replies.
- `parseFloat` of a provider's price string is taken as already decoded. A `NaN` price, which the budget filter would drop, is not modelled.
- Amadeus.NextToken: `expires_in` is an integer number of seconds. A missing or non-numeric `expires_in`, which gives a `NaN` expiry that never validates, is not modelled.
- Amadeus.SearchWithToken: every offer is modelled with a `hotel`, a `price` and a `room`. In the source a missing one throws inside the `try` (amadeus.js:74-83), and the whole search returns [].
- RapidApi.SearchRentals: every hotel entry is modelled with a `property`. In the source an entry without one throws inside the `try` (rapidapi.js:63-69), and the whole search returns [].
- RapidApi.SearchRentals: the first destination is modelled as an object. In the source a null `destData.data[0]` throws inside the `try` (rapidapi.js:37), and the search returns [].
- Vrbo.SearchVrbo: the geocoder's reply is modelled as a list of places. In the source a reply whose `[0]` is missing or null (a non-array object, say) throws inside the `try` (vrbo.js:19), and the search returns [].
- MetadataRoute.ScanImages: URL resolution (`resolveUrl`) is total. In the source `new URL(src, targetUrl)` can throw on a malformed root-relative `src` (route.js:52), and the route then answers 500.
- FavoritesPage.Render: the page is rendered from the corrected grouping. As written, a favourite added by an inherited name such as "constructor" makes the reduce throw (favorites/page.js:31) before anything is rendered; see the Findings row for favorites/page.js:28-33.
- Amadeus.NextToken: the model reads the clock once, as `now`. The source calls `Date.now()` at amadeus.js:7 for the validity test and again at amadeus.js:31 for the new expiry.
- The Bearer token sent with the Amadeus hotel-list and offer requests is not recorded in `HotelRequest`.
- The search page runs no VRBO search; `vrbo.js` is modelled on its own.
- `parseInt` of the URL parameters is taken as done: a parameter is an integer or absent.
- The user interfaces (JSX rendering, the guest menu's visibility, the cards) are left out, except for the columns of the favourites page and the form's "-" button test.
- Store: the request bodies carry only the fields the model has. The other listing fields copied into a favourite are not modelled.
- Store: the failure paths of the favourite and vote requests only log, so they are left out.
- Store: `localStorage` JSON encoding is not modelled.
- Store.ConfirmedFavorites: the replaced entries are matched on `listingId`, as in the source. What the favourites page does with the server's ids (cards toggled by record id) is not modelled.
- FavoritesPage.GroupByUser: `Object.entries` lists integer-like keys first, in numeric order. The model keeps insertion order for every user name.
- MetadataText.Lower: `toLowerCase` is modelled on ASCII letters only; other characters are unchanged.
- Strings are sequences of characters. UTF-16 code units, which `length` and `substring` count, are not modelled.
- MetadataRoute.FeatureName: a truthy `name` or `value` that is not a string (a number, say) is treated as no name. The source would put it in the amenity list.
- MetadataRoute.Respond: the `url` field of the request body is a string or absent. A non-string `url` is not modelled.
- MetadataRoute.Respond: a failing `response.text()` is not modelled.
- The bedroom and bathroom patterns, the amenity patterns' `test`, and URL resolution and `hostname` are parameters (`Builtins`). Their regular-expression semantics are not modelled.
- The JSON-LD `try`/`catch` is modelled for `JSON.parse` failures and for a throwing `@type` test. Other throws inside a script are not modelled.
- Where the repository's documentation describes other behaviour, the model follows the code:
  - the rental client's listings carry the source 'booking';
  - the search page combines only hotels and rentals;
  - the VRBO client always geocodes;
  - dropped rentals are not logged;
  - a hotel without an image has `image` null;
  - a hotel's currency has no default.

## Findings

| source | as written | input that shows it | evidently intended | confidence | as-written member | corrected member |
|---|---|---|---|---|---|---|
| src/app/favorites/page.js:28-33 | The reduce starts from `{}`, and `if (!acc[user])` reads inherited `Object.prototype` members, so `acc[user].push` throws for such names. | A favourite whose `addedBy` is "constructor" | One column per user, whatever the name | not executed | FavoritesPage.ConstructorCrashes | FavoritesPage.GroupByUser |
| src/app/api/metadata/route.js:68 | `\d{1,3}` allows at most three digits before the first comma group, so an amount written without a thousands separator is cut. | The title "$1500" gives a price of 150 | The whole amount, 1500 | not executed | MetadataPrice.FifteenHundredPriceAsWritten | MetadataPrice.FifteenHundredPrice |
