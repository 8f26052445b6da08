/** The listing record every provider client produces, and the budget rule
    two of them apply to it. */
module Listings {
  import opened Js
  import opened Seqs

  /** `type`: 'Hotel' or 'Vacation Rental'. */
  datatype Kind = Hotel | VacationRental

  /** `rating`: a provider score, or the sentinel 'N/A'. */
  datatype Rating = Score(value: real) | NotAvailable

  /** `specs.beds`: a count, or the sentinel 'Varies'. */
  datatype Beds = BedCount(count: int) | Varies

  /** `source`: which provider produced the record. */
  datatype Source = Booking | Vrbo

  /** One normalised listing. Fields a provider leaves out of its record
      (the hotel client sets no `source` or `link`, the VRBO client no
      `currency` or `location`) are `None`, as are values that come through
      as `undefined`/`null`. */
  datatype Listing = Listing(
    id: Option<string>,
    title: Option<string>,
    kind: Kind,
    price: real,
    currency: Option<string>,
    rating: Rating,
    image: Option<string>,
    location: Option<string>,
    beds: Beds,
    guests: int,
    source: Option<Source>,
    link: Option<string>)

  /** What one call of a provider client produced: the listings it returned
      and, in order, the requests it sent to the provider. */
  datatype Run<Req> = Run(listings: seq<Listing>, requests: seq<Req>)

  /** The result of a call that gave up: `return []` (from an early return
      or from the `catch`). */
  function Empty<Req>(requests: seq<Req>): (r: Run<Req>)
    ensures r.listings == [] && r.requests == requests
  {
    Run([], requests)
  }

  /** Every listing costs at most `budget`. */
  predicate WithinBudget(ls: seq<Listing>, budget: real) {
    forall i :: 0 <= i < |ls| ==> ls[i].price <= budget
  }

  /** The test of `.filter(h => h.price <= budget)`. */
  function Affordable(budget: real): Listing -> bool {
    (l: Listing) => l.price <= budget
  }

  /** `.filter(h => h.price <= budget)`: drops, never clamps, every listing
      over budget and keeps the others in their order. */
  function FilterByBudget(ls: seq<Listing>, budget: real): (r: seq<Listing>)
    ensures WithinBudget(r, budget)
    ensures forall l :: l in r <==> l in ls && l.price <= budget
    ensures IsSubsequence(r, ls)
    // every listing within budget keeps all of its occurrences
    ensures forall l :: multiset(r)[l] == if l.price <= budget then multiset(ls)[l] else 0
    ensures WithinBudget(ls, budget) ==> r == ls
  {
    var r := Filter(ls, Affordable(budget));
    FilterIsSubsequence(ls, Affordable(budget));
    FilterMultiset(ls, Affordable(budget));
    assert forall i :: 0 <= i < |r| ==> r[i] in r;
    if WithinBudget(ls, budget) then
      FilterAllKept(ls, Affordable(budget));
      r
    else r
  }

  /** Two budget-respecting lists concatenate to a budget-respecting list. */
  lemma ConcatWithinBudget(a: seq<Listing>, b: seq<Listing>, budget: real)
    requires WithinBudget(a, budget) && WithinBudget(b, budget)
    ensures WithinBudget(a + b, budget)
  {
    forall i | 0 <= i < |a + b| ensures (a + b)[i].price <= budget {
      if i >= |a| {
        assert (a + b)[i] == b[i - |a|];
      }
    }
  }
}
