/** The search form (src/components/SearchForm.jsx): the guest counters with
    their floors (at least one adult, no negative count), the budget and the
    location, and what a submission passes on. */
module SearchForm {

  /** The three guest counters. */
  datatype Guests = Guests(adults: int, children: int, babies: int)

  /** The counter a button acts on. */
  datatype GuestKind = Adults | Children | Babies

  /** What a button does to its counter. */
  datatype Operation = Increment | Decrement

  /** What a submission hands to `onSearch`. */
  datatype Submission = Submission(location: string, budget: real, guests: Guests, totalGuests: int)

  const InitialGuests := Guests(2, 0, 0)
  const InitialBudget := 2000.0
  const InitialLocation := "NC"

  /** `prev[type]`. */
  function Count(g: Guests, kind: GuestKind): int {
    match kind
    case Adults => g.adults
    case Children => g.children
    case Babies => g.babies
  }

  /** `{ ...prev, [type]: n }`. */
  function WithCount(g: Guests, kind: GuestKind, n: int): (r: Guests)
    ensures Count(r, kind) == n
    ensures forall k :: k != kind ==> Count(r, k) == Count(g, k)
  {
    match kind
    case Adults => g.(adults := n)
    case Children => g.(children := n)
    case Babies => g.(babies := n)
  }

  /** `totalGuests`. */
  function TotalGuests(g: Guests): (n: int)
    ensures n == Count(g, Adults) + Count(g, Children) + Count(g, Babies)
  {
    g.adults + g.children + g.babies
  }

  /** The counts the form can reach: at least one adult, nothing negative. */
  predicate ValidGuests(g: Guests) {
    g.adults >= 1 && g.children >= 0 && g.babies >= 0
  }

  /** The updater `handleGuestChange(type, operation)` passes to `setGuests`. */
  function GuestChange(prev: Guests, kind: GuestKind, op: Operation): (r: Guests)
    // a decrement at 0, or of the last adult, changes nothing
    ensures op == Decrement && Count(prev, kind) == 0 ==> r == prev
    ensures op == Decrement && kind == Adults && Count(prev, kind) == 1 ==> r == prev
    // otherwise exactly the chosen counter moves by one
    ensures !(op == Decrement && (Count(prev, kind) == 0 || (kind == Adults && Count(prev, kind) == 1))) ==>
      Count(r, kind) == Count(prev, kind) + (if op == Increment then 1 else -1)
    ensures forall k :: k != kind ==> Count(r, k) == Count(prev, k)
    // the floors are kept
    ensures ValidGuests(prev) ==> ValidGuests(r)
  {
    var current := Count(prev, kind);
    if op == Decrement && current == 0 then prev
    else if op == Decrement && kind == Adults && current == 1 then prev
    else WithCount(prev, kind, if op == Increment then current + 1 else current - 1)
  }

  /** The `disabled` test of a counter's "-" button. */
  predicate DecrementDisabled(g: Guests, kind: GuestKind) {
    if kind == Adults then g.adults <= 1 else Count(g, kind) <= 0
  }

  /** On reachable counts, "-" is disabled exactly when it would do nothing. */
  lemma DisabledIffNoOp(g: Guests, kind: GuestKind)
    requires ValidGuests(g)
    ensures DecrementDisabled(g, kind) <==> GuestChange(g, kind, Decrement) == g
  {
    if !DecrementDisabled(g, kind) {
      assert Count(GuestChange(g, kind, Decrement), kind) == Count(g, kind) - 1;
    }
  }

  /** "+" then "-" on the same counter restores the counts. */
  lemma IncrementThenDecrement(g: Guests, kind: GuestKind)
    requires ValidGuests(g)
    ensures GuestChange(GuestChange(g, kind, Increment), kind, Decrement) == g
  {
    var up := GuestChange(g, kind, Increment);
    var down := GuestChange(up, kind, Decrement);
    assert Count(down, kind) == Count(g, kind);
    assert forall k :: Count(down, k) == Count(g, k);
    assert down.adults == g.adults && down.children == g.children && down.babies == g.babies by {
      assert Count(down, Adults) == Count(g, Adults);
      assert Count(down, Children) == Count(g, Children);
      assert Count(down, Babies) == Count(g, Babies);
    }
  }

  /** The form's state. */
  class SearchFormState {
    var location: string
    var budget: real
    var guests: Guests

    ghost predicate Valid()
      reads this
    {
      ValidGuests(guests)
    }

    constructor ()
      ensures Valid()
      ensures location == "NC" && budget == 2000.0 && guests == Guests(2, 0, 0)
    {
      location := InitialLocation;
      budget := InitialBudget;
      guests := InitialGuests;
    }

    /** A click on a counter's "+" or "-". */
    method HandleGuestChange(kind: GuestKind, op: Operation)
      requires Valid()
      modifies this
      ensures Valid()
      ensures guests == GuestChange(old(guests), kind, op)
      ensures location == old(location) && budget == old(budget)
    {
      guests := GuestChange(guests, kind, op);
    }

    /** The budget input's `onChange`: `Number(e.target.value)`. */
    method SetBudget(value: real)
      modifies this
      ensures budget == value && location == old(location) && guests == old(guests)
    {
      budget := value;
    }

    /** The location select's `onChange`. */
    method SetLocation(value: string)
      modifies this
      ensures location == value && budget == old(budget) && guests == old(guests)
    {
      location := value;
    }

    /** `handleSubmit`: what is passed to `onSearch`. */
    method Submit() returns (s: Submission)
      requires Valid()
      ensures s.location == location && s.budget == budget && s.guests == guests
      ensures s.totalGuests == guests.adults + guests.children + guests.babies
      ensures s.totalGuests >= 1
    {
      s := Submission(location, budget, guests, TotalGuests(guests));
    }
  }
}
