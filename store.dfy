/** The favourites store (src/lib/store.js): the shared list of favourites,
    the current user's name, and the optimistic updates that toggle a
    favourite and a user's vote on one. */
module Store {
  import opened Js
  import opened Seqs

  /** A vote: the name of the user who cast it. */
  datatype Vote = Vote(user: string)

  /** A favourite: its record id (the listing's id until the server's copy
      replaces it), the listing it refers to, who added it ("" when nobody is
      recorded) and its votes (absent on an optimistic entry). The other
      listing fields a favourite carries are not modelled. */
  datatype Favorite = Favorite(id: string, listingId: string, addedBy: string, votes: Option<seq<Vote>>)

  /** The requests the store sends to the favourites API. */
  datatype FavoriteRequest =
    | DeleteFavorite(listingId: string)
    | PostFavorite(listingId: string, addedBy: string)
    | PostVote(favoriteId: string, user: string)

  /** `favorites.some(f => f.listingId === id)`. */
  predicate IsFavoriteIn(favs: seq<Favorite>, id: string) {
    exists i :: 0 <= i < |favs| && favs[i].listingId == id
  }

  /** The test of `prev.filter(f => f.listingId !== id)`. */
  function OtherListing(id: string): Favorite -> bool {
    (f: Favorite) => f.listingId != id
  }

  /** The optimistic entry `{ ...listing, listingId: listing.id, addedBy }`. */
  function NewFavorite(listingId: string, user: string): Favorite {
    Favorite(listingId, listingId, user, None)
  }

  /** What the removal filter keeps: every entry of another listing, as
      often as it occurs and in order, and none of `listingId`. */
  lemma RemovalKeepsOthers(favs: seq<Favorite>, listingId: string)
    ensures var r := Filter(favs, OtherListing(listingId));
      && IsSubsequence(r, favs)
      && (forall f :: f in r <==> f in favs && f.listingId != listingId)
      && (forall f :: multiset(r)[f] == if f.listingId != listingId then multiset(favs)[f] else 0)
      && (forall other :: other != listingId ==> (IsFavoriteIn(r, other) <==> IsFavoriteIn(favs, other)))
      && !IsFavoriteIn(r, listingId)
  {
    var r := Filter(favs, OtherListing(listingId));
    FilterIsSubsequence(favs, OtherListing(listingId));
    FilterMultiset(favs, OtherListing(listingId));
    assert forall i :: 0 <= i < |favs| && favs[i].listingId != listingId ==> favs[i] in r;
    assert forall i :: 0 <= i < |r| ==> r[i] in favs;
  }

  /** The favourites after `toggleFavorite` of the listing `listingId` by `user`. */
  function ToggledFavorites(favs: seq<Favorite>, listingId: string, user: string): (r: seq<Favorite>)
    // without a user nothing changes
    ensures user == "" ==> r == favs
    // with a user the listing's favourite status flips, and no other listing's does
    ensures user != "" ==> (IsFavoriteIn(r, listingId) <==> !IsFavoriteIn(favs, listingId))
    ensures forall other :: other != listingId ==> (IsFavoriteIn(r, other) <==> IsFavoriteIn(favs, other))
    // removing drops every entry of the listing and keeps the rest in order
    ensures user != "" && IsFavoriteIn(favs, listingId) ==>
      IsSubsequence(r, favs) && (forall f :: f in r <==> f in favs && f.listingId != listingId) &&
      forall f :: multiset(r)[f] == if f.listingId != listingId then multiset(favs)[f] else 0
    // adding appends exactly one entry, by this user, at the end
    ensures user != "" && !IsFavoriteIn(favs, listingId) ==>
      r == favs + [NewFavorite(listingId, user)] && r[|favs|].addedBy == user
  {
    if user == "" then favs
    else if IsFavoriteIn(favs, listingId) then
      var r := Filter(favs, OtherListing(listingId));
      RemovalKeepsOthers(favs, listingId);
      r
    else
      var r := favs + [NewFavorite(listingId, user)];
      assert r[|favs|].listingId == listingId;
      assert forall i :: 0 <= i < |favs| ==> r[i] == favs[i];
      r
  }

  /** Adding a favourite and toggling it again restores the list. */
  lemma {:induction false} ToggleTwiceRestores(favs: seq<Favorite>, listingId: string, user: string)
    requires user != "" && !IsFavoriteIn(favs, listingId)
    ensures ToggledFavorites(ToggledFavorites(favs, listingId, user), listingId, user) == favs
  {
    var added := favs + [NewFavorite(listingId, user)];
    var keep := OtherListing(listingId);
    assert IsFavoriteIn(added, listingId) by {
      assert added[|favs|].listingId == listingId;
    }
    FilterConcat(favs, [NewFavorite(listingId, user)], keep);
    FilterAllKept(favs, keep);
    assert Filter([NewFavorite(listingId, user)], keep) == [];
  }

  /** The favourites after the server's copy `saved` of a new favourite
      comes back: it replaces the entries of the listing, and only those. */
  function ConfirmedFavorites(favs: seq<Favorite>, listingId: string, saved: Favorite): (r: seq<Favorite>)
    ensures |r| == |favs|
    ensures forall i :: 0 <= i < |favs| && favs[i].listingId != listingId ==> r[i] == favs[i]
    ensures forall i :: 0 <= i < |favs| && favs[i].listingId == listingId ==> r[i] == saved
  {
    seq(|favs|, i requires 0 <= i < |favs| => if favs[i].listingId == listingId then saved else favs[i])
  }

  /** `f.votes?.some(v => v.user === user)`. */
  predicate HasVoted(votes: Option<seq<Vote>>, user: string) {
    votes.Some? && exists i :: 0 <= i < |votes.value| && votes.value[i].user == user
  }

  /** The test of `f.votes.filter(v => v.user !== user)`. */
  function OtherVoter(user: string): Vote -> bool {
    (v: Vote) => v.user != user
  }

  /** A favourite's votes after `user` toggles their vote: all of the user's
      votes are removed if there is one, otherwise one is appended (missing
      votes count as none). */
  function ToggledVotes(votes: Option<seq<Vote>>, user: string): (r: seq<Vote>)
    ensures HasVoted(Some(r), user) <==> !HasVoted(votes, user)
    ensures forall v: Vote :: v.user != user ==> (v in r <==> v in votes.GetOr([]))
    ensures HasVoted(votes, user) ==> IsSubsequence(r, votes.value)
    ensures HasVoted(votes, user) ==>
      forall v :: multiset(r)[v] == if v.user != user then multiset(votes.value)[v] else 0
    ensures !HasVoted(votes, user) ==> r == votes.GetOr([]) + [Vote(user)]
  {
    if HasVoted(votes, user) then
      var r := Filter(votes.value, OtherVoter(user));
      FilterIsSubsequence(votes.value, OtherVoter(user));
      FilterMultiset(votes.value, OtherVoter(user));
      assert forall i :: 0 <= i < |r| ==> r[i] in r;
      r
    else
      var r := votes.GetOr([]) + [Vote(user)];
      assert r[|r| - 1].user == user;
      assert forall v: Vote :: v in r <==> v in votes.GetOr([]) || v == Vote(user);
      r
  }

  /** Voting and voting again, starting from no vote, restores the votes. */
  lemma {:induction false} VoteTwiceRestores(votes: seq<Vote>, user: string)
    requires !HasVoted(Some(votes), user)
    ensures ToggledVotes(Some(ToggledVotes(Some(votes), user)), user) == votes
  {
    var keep := OtherVoter(user);
    var added := votes + [Vote(user)];
    assert HasVoted(Some(added), user) by {
      assert added[|votes|].user == user;
    }
    FilterConcat(votes, [Vote(user)], keep);
    FilterAllKept(votes, keep);
    assert Filter([Vote(user)], keep) == [];
  }

  /** The favourites after `toggleVote(favoriteId)` by `user`: only the
      favourite with that id changes, and only in its votes. */
  function VotedFavorites(favs: seq<Favorite>, favoriteId: string, user: string): (r: seq<Favorite>)
    ensures |r| == |favs|
    ensures forall i :: 0 <= i < |favs| && favs[i].id != favoriteId ==> r[i] == favs[i]
    ensures forall i :: 0 <= i < |favs| && favs[i].id == favoriteId ==>
      r[i].id == favs[i].id && r[i].listingId == favs[i].listingId && r[i].addedBy == favs[i].addedBy &&
      r[i].votes == Some(ToggledVotes(favs[i].votes, user)) &&
      (HasVoted(r[i].votes, user) <==> !HasVoted(favs[i].votes, user))
  {
    seq(|favs|, i requires 0 <= i < |favs| =>
      if favs[i].id == favoriteId then favs[i].(votes := Some(ToggledVotes(favs[i].votes, user))) else favs[i])
  }

  /** Voting and voting again on favourites that have votes and none by
      `user` restores the favourites. */
  lemma {:induction false} VoteTwiceRestoresFavorites(favs: seq<Favorite>, favoriteId: string, user: string)
    requires forall i :: 0 <= i < |favs| && favs[i].id == favoriteId ==>
      favs[i].votes.Some? && !HasVoted(favs[i].votes, user)
    ensures VotedFavorites(VotedFavorites(favs, favoriteId, user), favoriteId, user) == favs
  {
    var once := VotedFavorites(favs, favoriteId, user);
    var twice := VotedFavorites(once, favoriteId, user);
    forall i | 0 <= i < |favs| ensures twice[i] == favs[i] {
      if favs[i].id == favoriteId {
        VoteTwiceRestores(favs[i].votes.value, user);
      }
    }
  }

  /** The `FavoritesProvider` state. */
  class FavoritesStore {
    var favorites: seq<Favorite>
    var currentUser: string
    /** The `beach_trip_user` entry of local storage. */
    var storedUser: Option<string>

    constructor (stored: Option<string>)
      ensures favorites == [] && currentUser == "" && storedUser == stored
    {
      favorites := [];
      currentUser := "";
      storedUser := stored;
    }

    /** The mount effect: load the favourites if the fetch succeeded, and
        restore a saved user name. */
    method Mount(fetched: Reply<seq<Favorite>>)
      modifies this
      ensures fetched.Response? && fetched.ok && fetched.json.Some? ==> favorites == fetched.json.value
      ensures !(fetched.Response? && fetched.ok && fetched.json.Some?) ==> favorites == old(favorites)
      ensures currentUser == if Truthy(storedUser) then storedUser.value else old(currentUser)
      ensures storedUser == old(storedUser)
    {
      if fetched.Response? && fetched.ok && fetched.json.Some? {
        favorites := fetched.json.value;
      }
      if Truthy(storedUser) {
        currentUser := storedUser.value;
      }
    }

    /** `setCurrentUser`, with the effect that saves a non-empty name. */
    method SetCurrentUser(user: string)
      modifies this
      ensures currentUser == user && favorites == old(favorites)
      ensures storedUser == if user != "" then Some(user) else old(storedUser)
    {
      currentUser := user;
      if user != "" {
        storedUser := Some(user);
      }
    }

    /** `isFavorite(id)`. */
    predicate IsFavorite(id: string)
      reads this
    {
      IsFavoriteIn(favorites, id)
    }

    /** `toggleFavorite(listing)`, up to the request it sends. */
    method ToggleFavorite(listingId: string) returns (request: Option<FavoriteRequest>)
      modifies this
      ensures currentUser == old(currentUser) && storedUser == old(storedUser)
      ensures favorites == ToggledFavorites(old(favorites), listingId, currentUser)
      ensures currentUser != "" ==> (IsFavorite(listingId) <==> !old(IsFavorite(listingId)))
      ensures request == if currentUser == "" then None
                         else if old(IsFavorite(listingId)) then Some(DeleteFavorite(listingId))
                         else Some(PostFavorite(listingId, currentUser))
    {
      if currentUser == "" {
        return None;
      }
      var wasFavorite := IsFavoriteIn(favorites, listingId);
      favorites := ToggledFavorites(favorites, listingId, currentUser);
      if wasFavorite {
        request := Some(DeleteFavorite(listingId));
      } else {
        request := Some(PostFavorite(listingId, currentUser));
      }
    }

    /** The successful reply to the POST of a new favourite. */
    method ConfirmFavorite(listingId: string, saved: Favorite)
      modifies this
      ensures currentUser == old(currentUser) && storedUser == old(storedUser)
      ensures favorites == ConfirmedFavorites(old(favorites), listingId, saved)
    {
      favorites := ConfirmedFavorites(favorites, listingId, saved);
    }

    /** `toggleVote(favoriteId)`, up to the request it sends. */
    method ToggleVote(favoriteId: string) returns (request: Option<FavoriteRequest>)
      modifies this
      ensures currentUser == old(currentUser) && storedUser == old(storedUser)
      ensures currentUser == "" ==> favorites == old(favorites) && request.None?
      ensures currentUser != "" ==>
        favorites == VotedFavorites(old(favorites), favoriteId, currentUser) &&
        request == Some(PostVote(favoriteId, currentUser))
    {
      if currentUser == "" {
        return None;
      }
      favorites := VotedFavorites(favorites, favoriteId, currentUser);
      request := Some(PostVote(favoriteId, currentUser));
    }
  }
}
