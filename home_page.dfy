/** The saved-stays list of the home page (src/app/page.js): listings the
    user pastes are prepended with a fresh id, deleted by id, and the whole
    list is written to local storage after every change. */
module HomePage {
  import opened Js
  import opened Seqs

  /** What the add-listing form passes on: the link, the title and price the
      user typed, and the image found for the link ('' when none). */
  datatype Draft = Draft(url: string, title: string, price: string, image: string)

  /** A saved listing: the draft plus its id. */
  datatype SavedListing = SavedListing(id: string, url: string, title: string, price: string, image: string)

  /** `{ ...newListing, id }`. */
  function WithId(d: Draft, id: string): (s: SavedListing)
    ensures s.id == id && s.url == d.url && s.title == d.title && s.price == d.price && s.image == d.image
  {
    SavedListing(id, d.url, d.title, d.price, d.image)
  }

  /** No saved listing has id `id`. */
  predicate Unused(ls: seq<SavedListing>, id: string) {
    forall i :: 0 <= i < |ls| ==> ls[i].id != id
  }

  /** The test of `currentList.filter(item => item.id !== id)`. */
  function OtherId(id: string): SavedListing -> bool {
    (s: SavedListing) => s.id != id
  }

  /** The list after a delete of `id`: every item with that id goes, the
      rest stay in their order. */
  function WithoutId(ls: seq<SavedListing>, id: string): (r: seq<SavedListing>)
    ensures Unused(r, id)
    ensures forall s :: s in r <==> s in ls && s.id != id
    ensures IsSubsequence(r, ls)
    ensures forall s :: multiset(r)[s] == if s.id != id then multiset(ls)[s] else 0
  {
    var r := Filter(ls, OtherId(id));
    FilterIsSubsequence(ls, OtherId(id));
    FilterMultiset(ls, OtherId(id));
    assert forall i :: 0 <= i < |r| ==> r[i] in r;
    r
  }

  /** The list after an add: `[listingWithId, ...savedListings]`. */
  function Added(ls: seq<SavedListing>, d: Draft, id: string): (r: seq<SavedListing>)
    ensures |r| == |ls| + 1 && r[0] == WithId(d, id) && r[1..] == ls
  {
    [WithId(d, id)] + ls
  }

  /** Deleting an id nobody has changes nothing. */
  lemma {:induction false} DeleteAbsent(ls: seq<SavedListing>, id: string)
    requires Unused(ls, id)
    ensures WithoutId(ls, id) == ls
  {
    FilterAllKept(ls, OtherId(id));
  }

  /** Deleting twice is deleting once. */
  lemma {:induction false} DeleteIdempotent(ls: seq<SavedListing>, id: string)
    ensures WithoutId(WithoutId(ls, id), id) == WithoutId(ls, id)
  {
    FilterIdempotent(ls, OtherId(id));
  }

  /** Adding a listing under an unused id and deleting that id restores the list. */
  lemma {:induction false} AddThenDeleteRestores(ls: seq<SavedListing>, d: Draft, id: string)
    requires Unused(ls, id)
    ensures WithoutId(Added(ls, d, id), id) == ls
  {
    FilterConcat([WithId(d, id)], ls, OtherId(id));
    assert Filter([WithId(d, id)], OtherId(id)) == [];
    FilterAllKept(ls, OtherId(id));
  }

  /** The `Home` component's state and the `tripPlannerListings` entry of
      local storage (`None` when absent). */
  class SavedListings {
    var savedListings: seq<SavedListing>
    var stored: Option<seq<SavedListing>>

    constructor (stored: Option<seq<SavedListing>>)
      ensures savedListings == [] && this.stored == stored
    {
      savedListings := [];
      this.stored := stored;
    }

    /** The mount effect: load the stored list, if there is one. */
    method Mount()
      modifies this
      ensures stored == old(stored)
      ensures savedListings == if stored.Some? then stored.value else old(savedListings)
    {
      if stored.Some? {
        savedListings := stored.value;
      }
    }

    /** `handleAddListing(draft)`; `freshId` stands for the generated id. */
    method AddListing(d: Draft, freshId: string)
      modifies this
      ensures savedListings == Added(old(savedListings), d, freshId)
      ensures stored == Some(savedListings)
    {
      savedListings := Added(savedListings, d, freshId);
      stored := Some(savedListings);
    }

    /** `handleDeleteListing(id)`. */
    method DeleteListing(id: string)
      modifies this
      ensures savedListings == WithoutId(old(savedListings), id)
      ensures stored == Some(savedListings)
    {
      savedListings := WithoutId(savedListings, id);
      stored := Some(savedListings);
    }
  }
}
