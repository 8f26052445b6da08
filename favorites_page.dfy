/** The favourites page (src/app/favorites/page.js): favourites grouped into
    one column per user who added them, in order of each user's first
    favourite, or an empty state when there are none. */
module FavoritesPage {
  import opened Js
  import opened Seqs
  import opened Store

  const Anonymous := "Anonymous"

  /** `listing.addedBy || 'Anonymous'`. */
  function UserOf(f: Favorite): (u: string)
    ensures u != ""
    ensures f.addedBy != "" ==> u == f.addedBy
    ensures f.addedBy == "" ==> u == Anonymous
  {
    if f.addedBy != "" then f.addedBy else Anonymous
  }

  /** The test "added by `user`". */
  function AddedBy(user: string): Favorite -> bool {
    (f: Favorite) => UserOf(f) == user
  }

  /** The favourites of `user`'s column: theirs, in input order. */
  function PicksOf(favs: seq<Favorite>, user: string): (r: seq<Favorite>)
    ensures forall f :: f in r <==> f in favs && UserOf(f) == user
    ensures IsSubsequence(r, favs)
  {
    FilterIsSubsequence(favs, AddedBy(user));
    Filter(favs, AddedBy(user))
  }

  /** A column holds each of its user's favourites as often as it occurs. */
  lemma PicksMultiset(favs: seq<Favorite>, user: string)
    ensures forall f :: multiset(PicksOf(favs, user))[f] == if UserOf(f) == user then multiset(favs)[f] else 0
  {
    FilterMultiset(favs, AddedBy(user));
  }

  /** The columns' users: each user once, in order of their first favourite. */
  function Users(favs: seq<Favorite>): (r: seq<string>)
    ensures Distinct(r)
    ensures forall u :: u in r <==> exists i :: 0 <= i < |favs| && UserOf(favs[i]) == u
    decreases |favs|
  {
    if favs == [] then []
    else
      var init := favs[..|favs| - 1];
      var user := UserOf(favs[|favs| - 1]);
      var us := Users(init);
      assert forall i :: 0 <= i < |init| ==> init[i] == favs[i];
      if user in us then us else us + [user]
  }

  /** A favourite appended to the input joins its user's column at the end. */
  lemma {:induction false} PicksAppend(favs: seq<Favorite>, f: Favorite, user: string)
    ensures PicksOf(favs + [f], user) == PicksOf(favs, user) + (if UserOf(f) == user then [f] else [])
  {
    FilterConcat(favs, [f], AddedBy(user));
    assert Filter([f], AddedBy(user)) == if UserOf(f) == user then [f] else [];
  }

  /** A user with no favourite has an empty column. */
  lemma NoPicksForOthers(favs: seq<Favorite>, user: string)
    requires user !in Users(favs)
    ensures PicksOf(favs, user) == []
  {
    forall i | 0 <= i < |favs| ensures !AddedBy(user)(favs[i]) {
      assert UserOf(favs[i]) in Users(favs);
    }
    FilterNoneKept(favs, AddedBy(user));
  }

  /** Every favourite is in its user's column, and every user's column
      has a favourite. */
  lemma ColumnsCoverFavorites(favs: seq<Favorite>)
    ensures forall f :: f in favs ==> UserOf(f) in Users(favs) && f in PicksOf(favs, UserOf(f))
    ensures forall u :: u in Users(favs) ==> PicksOf(favs, u) != []
  {
    forall f | f in favs ensures UserOf(f) in Users(favs) {
      var k :| 0 <= k < |favs| && favs[k] == f;
    }
    forall u | u in Users(favs) ensures PicksOf(favs, u) != [] {
      var k :| 0 <= k < |favs| && UserOf(favs[k]) == u;
      assert favs[k] in PicksOf(favs, u);
    }
  }

  /** A favourite appended to the input adds its user at the end, unless
      the user already has a column. */
  lemma UsersSnoc(favs: seq<Favorite>, f: Favorite)
    ensures Users(favs + [f]) == if UserOf(f) in Users(favs) then Users(favs) else Users(favs) + [UserOf(f)]
  {
    assert (favs + [f])[..|favs|] == favs;
  }

  /** The grouping of `prefix`: the users in order of their first
      favourite, each user's favourites under their name. */
  ghost predicate GroupsOf(prefix: seq<Favorite>, groups: map<string, seq<Favorite>>, users: seq<string>) {
    users == Users(prefix) &&
    (forall u :: u in groups <==> u in users) &&
    (forall u :: u in groups ==> groups[u] == PicksOf(prefix, u))
  }

  /** One step of the reduce: the favourite's user gets a group if they had
      none, and the favourite joins the end of that group. */
  lemma GroupStep(prefix: seq<Favorite>, f: Favorite, groups: map<string, seq<Favorite>>, users: seq<string>)
    requires GroupsOf(prefix, groups, users)
    ensures var user := UserOf(f);
      var group := if user in groups then groups[user] else [];
      GroupsOf(prefix + [f], groups[user := group + [f]], if user in groups then users else users + [user])
  {
    var user := UserOf(f);
    var group := if user in groups then groups[user] else [];
    var next := groups[user := group + [f]];
    var nextUsers := if user in groups then users else users + [user];
    UsersSnoc(prefix, f);
    assert nextUsers == Users(prefix + [f]);
    assert forall u :: u in next <==> u in nextUsers;
    forall u | u in next ensures next[u] == PicksOf(prefix + [f], u) {
      PicksAppend(prefix, f, u);
      if u == user && user !in groups {
        NoPicksForOthers(prefix, user);
      }
    }
    assert GroupsOf(prefix + [f], next, nextUsers);
  }

  /** The grouping the reduce is meant to build, with a map standing for the
      accumulator object: `users` lists the keys in insertion order. */
  method GroupByUser(favs: seq<Favorite>) returns (groups: map<string, seq<Favorite>>, users: seq<string>)
    ensures users == Users(favs)
    ensures forall u :: u in groups <==> u in users
    ensures forall u :: u in groups ==> groups[u] == PicksOf(favs, u)
    // every favourite is in exactly one column, its user's, and no column is empty
    ensures forall f :: f in favs ==> UserOf(f) in groups && f in groups[UserOf(f)]
    ensures forall u, f :: u in groups && f in groups[u] ==> u == UserOf(f)
    ensures forall u :: u in groups ==> groups[u] != []
  {
    groups := map[];
    users := [];
    var i := 0;
    while i < |favs|
      invariant 0 <= i <= |favs|
      invariant GroupsOf(favs[..i], groups, users)
    {
      var f := favs[i];
      var user := UserOf(f);
      assert favs[..i + 1] == favs[..i] + [f];
      GroupStep(favs[..i], f, groups, users);
      var group := if user in groups then groups[user] else [];
      users := if user in groups then users else users + [user];
      groups := groups[user := group + [f]];
      i := i + 1;
    }
    assert favs[..i] == favs;
    ColumnsCoverFavorites(favs);
    forall u, f | u in groups && f in groups[u] ensures u == UserOf(f) {
      assert f in PicksOf(favs, u);
    }
  }

  /** The sum of the column sizes of `users`. */
  function SizeSum(favs: seq<Favorite>, users: seq<string>): nat
    decreases |users|
  {
    if users == [] then 0 else |PicksOf(favs, users[0])| + SizeSum(favs, users[1..])
  }

  lemma {:induction false} SizeSumAppendUser(favs: seq<Favorite>, users: seq<string>, u: string)
    ensures SizeSum(favs, users + [u]) == SizeSum(favs, users) + |PicksOf(favs, u)|
    decreases |users|
  {
    if users != [] {
      assert (users + [u])[1..] == users[1..] + [u];
      SizeSumAppendUser(favs, users[1..], u);
    }
  }

  lemma {:induction false} SizeSumAppendFavorite(favs: seq<Favorite>, f: Favorite, users: seq<string>)
    requires Distinct(users)
    ensures SizeSum(favs + [f], users) == SizeSum(favs, users) + (if UserOf(f) in users then 1 else 0)
    decreases |users|
  {
    if users != [] {
      PicksAppend(favs, f, users[0]);
      assert Distinct(users[1..]);
      SizeSumAppendFavorite(favs, f, users[1..]);
      if UserOf(f) == users[0] {
        assert UserOf(f) !in users[1..] by {
          forall k | 0 <= k < |users[1..]| ensures users[1..][k] != users[0] {
            assert users[1..][k] == users[k + 1];
          }
        }
      } else {
        assert (UserOf(f) in users) == (UserOf(f) in users[1..]) by {
          assert users == [users[0]] + users[1..];
        }
      }
    }
  }

  /** The columns together hold exactly as many favourites as there are. */
  lemma {:induction false} GroupSizesSum(favs: seq<Favorite>)
    ensures SizeSum(favs, Users(favs)) == |favs|
    decreases |favs|
  {
    if favs != [] {
      var init := favs[..|favs| - 1];
      var f := favs[|favs| - 1];
      assert favs == init + [f];
      GroupSizesSum(init);
      var user := UserOf(f);
      SizeSumAppendFavorite(init, f, Users(init));
      if user !in Users(init) {
        SizeSumAppendUser(favs, Users(init), user);
        NoPicksForOthers(init, user);
        PicksAppend(init, f, user);
      }
    }
  }

  /** What the page shows. */
  datatype View =
    | EmptyState
    | Columns(columns: seq<Column>)

  /** One user's column: the heading's name and the cards, in order. */
  datatype Column = Column(user: string, picks: seq<Favorite>)

  /** The page body for the store's favourites. */
  method Render(favs: seq<Favorite>) returns (v: View)
    ensures v.EmptyState? <==> |favs| == 0
    ensures v.Columns? ==> |v.columns| == |Users(favs)|
    ensures v.Columns? ==> forall k :: 0 <= k < |v.columns| ==>
      v.columns[k] == Column(Users(favs)[k], PicksOf(favs, Users(favs)[k])) && v.columns[k].picks != []
  {
    var groups, users := GroupByUser(favs);
    if |favs| == 0 {
      return EmptyState;
    }
    assert forall k :: 0 <= k < |users| ==> users[k] in groups;
    v := Columns(seq(|users|, k requires 0 <= k < |users| => Column(users[k], groups[users[k]])));
  }

  /** The names a plain object literal inherits from `Object.prototype`:
      each reads as a truthy value that is not an array. */
  const InheritedNames: set<string> := {
    "constructor", "__proto__", "toString", "toLocaleString", "valueOf",
    "hasOwnProperty", "isPrototypeOf", "propertyIsEnumerable",
    "__defineGetter__", "__defineSetter__", "__lookupGetter__", "__lookupSetter__" }

  /** Some favourite's user is an inherited name. */
  predicate HasInheritedUser(favs: seq<Favorite>) {
    exists i :: 0 <= i < |favs| && UserOf(favs[i]) in InheritedNames
  }

  /** Some favourite's user is an inherited name exactly when one before
      the last is, or the last one's is. */
  lemma InheritedUserSnoc(favs: seq<Favorite>)
    requires favs != []
    ensures HasInheritedUser(favs) <==>
      HasInheritedUser(favs[..|favs| - 1]) || UserOf(favs[|favs| - 1]) in InheritedNames
  {
    var init := favs[..|favs| - 1];
    assert forall i :: 0 <= i < |init| ==> init[i] == favs[i];
  }

  /** The reduce as written, on an accumulator that starts as `{}`: `None`
      when `acc[user].push` throws because `acc[user]` read an inherited
      member instead of a missing key. */
  function ReduceAsWritten(favs: seq<Favorite>): (r: Option<map<string, seq<Favorite>>>)
    ensures r.None? <==> HasInheritedUser(favs)
    ensures r.Some? ==> forall u :: u in r.value <==> u in Users(favs)
    decreases |favs|
  {
    if favs == [] then Some(map[])
    else
      var init := favs[..|favs| - 1];
      var user := UserOf(favs[|favs| - 1]);
      InheritedUserSnoc(favs);
      match ReduceAsWritten(init)
      case None => None
      case Some(acc) =>
        if user in acc then Some(acc[user := acc[user] + [favs[|favs| - 1]]])
        else if user in InheritedNames then None
        else Some(acc[user := [favs[|favs| - 1]]])
  }

  /** A single favourite added by someone called "constructor" makes the
      reduce throw. */
  lemma ConstructorCrashes(f: Favorite)
    requires f.addedBy == "constructor"
    ensures ReduceAsWritten([f]).None?
  {
    assert UserOf([f][0]) in InheritedNames;
  }

  /** Apart from such names, the reduce as written builds the same columns
      as `GroupByUser`. */
  lemma {:induction false} AsWrittenAgrees(favs: seq<Favorite>)
    requires !HasInheritedUser(favs)
    ensures ReduceAsWritten(favs).Some?
    ensures forall u :: u in ReduceAsWritten(favs).value <==> u in Users(favs)
    ensures forall u :: u in ReduceAsWritten(favs).value ==> ReduceAsWritten(favs).value[u] == PicksOf(favs, u)
    decreases |favs|
  {
    if favs != [] {
      var init := favs[..|favs| - 1];
      var f := favs[|favs| - 1];
      var user := UserOf(f);
      assert favs == init + [f];
      assert !HasInheritedUser(init) by {
        assert forall i :: 0 <= i < |init| ==> init[i] == favs[i];
      }
      AsWrittenAgrees(init);
      var acc := ReduceAsWritten(init).value;
      forall u | u in ReduceAsWritten(favs).value
        ensures ReduceAsWritten(favs).value[u] == PicksOf(favs, u)
      {
        PicksAppend(init, f, u);
        if u == user && user !in acc {
          NoPicksForOthers(init, user);
        }
      }
    }
  }
}
