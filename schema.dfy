/**
 * The database the controllers work on: the users, movie_lists and movie_list_items
 * tables with their auto-increment counters, and the constraints the migration of
 * movie_list_items declares (foreign key with ON DELETE CASCADE, column widths,
 * unique (movie_list_id, tmdb_movie_id)) stated as an object invariant.
 */
module Schema {
  import opened Wrappers
  import opened Models
  import opened Tables

  const INT32_MIN: int := -0x8000_0000
  const INT32_MAX: int := 0x7FFF_FFFF

  /** `decimal(3,1)`: at most two integral digits and one fractional digit, in tenths. */
  predicate FitsDecimal31(tenths: int) { -999 <= tenths <= 999 }

  /** What the column types of one item row admit (string = VARCHAR(255), integer = INT). */
  predicate ItemFits(it: MovieListItem) {
    && INT32_MIN <= it.tmdbMovieId <= INT32_MAX
    && |it.title| <= 255
    && (it.posterPath.Some? ==> |it.posterPath.value| <= 255)
    && (it.voteAverage.Some? ==> FitsDecimal31(it.voteAverage.value))
  }

  /** unique(['movie_list_id', 'tmdb_movie_id']): a movie appears at most once per list. */
  predicate UniqueMoviePerList(items: map<Id, MovieListItem>) {
    forall i, j :: i in items && j in items && i != j ==>
      items[i].listId != items[j].listId || items[i].tmdbMovieId != items[j].tmdbMovieId
  }

  /** The foreign key movie_list_id: every item belongs to an existing list. */
  predicate NoOrphans(lists: map<Id, MovieList>, items: map<Id, MovieListItem>) {
    forall i :: i in items ==> items[i].listId in lists
  }

  /** Every list belongs to an existing user. */
  predicate OwnersExist(users: map<Id, User>, lists: map<Id, MovieList>) {
    forall l :: l in lists ==> lists[l].userId in users
  }

  /** users.email is unique. */
  predicate UniqueEmails(users: map<Id, User>) {
    forall a, b :: a in users && b in users && a != b ==> users[a].email != users[b].email
  }

  /** A later id was created at a later tick. */
  predicate CreatedInIdOrder(lists: map<Id, MovieList>) {
    forall a, b :: a in lists && b in lists && a < b ==> lists[a].createdAt < lists[b].createdAt
  }

  predicate Below<V>(m: map<Id, V>, next: nat) {
    forall k :: k in m ==> k < next
  }

  /** Every constraint of the three tables at once. */
  predicate Consistent(
    users: map<Id, User>, lists: map<Id, MovieList>, items: map<Id, MovieListItem>,
    nextUserId: nat, nextListId: nat, nextItemId: nat, clock: nat)
  {
    && Below(users, nextUserId) && Below(lists, nextListId) && Below(items, nextItemId)
    && OwnersExist(users, lists) && UniqueEmails(users)
    && NoOrphans(lists, items) && UniqueMoviePerList(items)
    && (forall i :: i in items ==> ItemFits(items[i]))
    && CreatedInIdOrder(lists)
    && (forall l :: l in lists ==> lists[l].createdAt <= lists[l].updatedAt < clock)
    && (forall i :: i in items ==> items[i].createdAt <= items[i].updatedAt < clock)
  }

  /**
   * Rewriting one item in place, keeping its list and its movie, with a fitting row
   * stamped at the current tick, keeps every constraint (the clock then moves on).
   */
  lemma RewriteKeepsConsistent(
    users: map<Id, User>, lists: map<Id, MovieList>, items: map<Id, MovieListItem>,
    nextUserId: nat, nextListId: nat, nextItemId: nat, clock: nat, k: Id, it: MovieListItem)
    requires Consistent(users, lists, items, nextUserId, nextListId, nextItemId, clock)
    requires k in items && it.listId == items[k].listId && it.tmdbMovieId == items[k].tmdbMovieId
    requires ItemFits(it) && it.createdAt <= it.updatedAt <= clock
    ensures Consistent(users, lists, items[k := it], nextUserId, nextListId, nextItemId, clock + 1)
  {
    var items' := items[k := it];
    forall i, j | i in items' && j in items' && i != j
      ensures items'[i].listId != items'[j].listId || items'[i].tmdbMovieId != items'[j].tmdbMovieId
    {
      assert items'[i].listId == items[i].listId && items'[i].tmdbMovieId == items[i].tmdbMovieId;
      assert items'[j].listId == items[j].listId && items'[j].tmdbMovieId == items[j].tmdbMovieId;
    }
  }

  /** Inserting a fitting row, for a movie its existing list lacks, at the next id keeps every constraint. */
  lemma InsertKeepsConsistent(
    users: map<Id, User>, lists: map<Id, MovieList>, items: map<Id, MovieListItem>,
    nextUserId: nat, nextListId: nat, nextItemId: nat, clock: nat, it: MovieListItem)
    requires Consistent(users, lists, items, nextUserId, nextListId, nextItemId, clock)
    requires it.listId in lists && !HasMovie(items, it.listId, it.tmdbMovieId)
    requires ItemFits(it) && it.createdAt <= it.updatedAt <= clock
    ensures nextItemId !in items
    ensures Consistent(users, lists, items[nextItemId := it], nextUserId, nextListId, nextItemId + 1, clock + 1)
  {
    var items' := items[nextItemId := it];
    forall i, j | i in items' && j in items' && i != j
      ensures items'[i].listId != items'[j].listId || items'[i].tmdbMovieId != items'[j].tmdbMovieId
    {
      if i != nextItemId && j != nextItemId {
        assert items'[i] == items[i] && items'[j] == items[j];
      } else if i == nextItemId {
        assert items'[j] == items[j];
      } else {
        assert items'[i] == items[i];
      }
    }
  }

  /** Rewriting one user's record, with the same email, keeps every constraint. */
  lemma UserRewriteKeepsConsistent(
    users: map<Id, User>, lists: map<Id, MovieList>, items: map<Id, MovieListItem>,
    nextUserId: nat, nextListId: nat, nextItemId: nat, clock: nat, u: Id, rec: User)
    requires Consistent(users, lists, items, nextUserId, nextListId, nextItemId, clock)
    requires u in users && rec.email == users[u].email
    ensures Consistent(users[u := rec], lists, items, nextUserId, nextListId, nextItemId, clock)
  {
    var users' := users[u := rec];
    forall a, b | a in users' && b in users' && a != b ensures users'[a].email != users'[b].email {
      assert users'[a].email == users[a].email && users'[b].email == users[b].email;
    }
  }

  /** True when list `id` exists and belongs to `u`: the `where('user_id', u)->findOrFail(id)` test. */
  predicate Owned(lists: map<Id, MovieList>, u: Id, id: Id) {
    id in lists && lists[id].userId == u
  }

  /** True when list l already holds movie t. */
  predicate HasMovie(items: map<Id, MovieListItem>, l: Id, t: int) {
    exists i :: i in items && items[i].listId == l && items[i].tmdbMovieId == t
  }

  /** The `items` relation of a list as a query returns it: its item ids in ascending order. */
  function ItemIds(items: map<Id, MovieListItem>, listId: Id, bound: nat): (ids: seq<Id>)
    requires Below(items, bound)
    ensures |ids| == ItemsCount(items, listId)
    ensures forall k :: 0 <= k < |ids| ==> ids[k] in items && items[ids[k]].listId == listId
    ensures forall id :: id in items && items[id].listId == listId ==> id in ids
    ensures forall j, k :: 0 <= j < k < |ids| ==> ids[j] < ids[k]
  {
    AscendingCard(ItemsOf(items, listId), bound);
    assert KeysBelow(ItemsOf(items, listId), bound) == ItemsOf(items, listId).Keys;
    Ascending(ItemsOf(items, listId), bound)
  }

  /** The tables, their counters and the clock that stamps created_at/updated_at. */
  class Database {
    var users: map<Id, User>
    var lists: map<Id, MovieList>
    var items: map<Id, MovieListItem>
    var nextUserId: nat
    var nextListId: nat
    var nextItemId: nat
    var clock: nat

    predicate Valid()
      reads this
    {
      Consistent(users, lists, items, nextUserId, nextListId, nextItemId, clock)
    }

    /** A freshly migrated, empty database. */
    constructor ()
      ensures Valid()
      ensures users == map[] && lists == map[] && items == map[]
      ensures nextUserId == 0 && nextListId == 0 && nextItemId == 0 && clock == 0
    {
      users, lists, items := map[], map[], map[];
      nextUserId, nextListId, nextItemId, clock := 0, 0, 0, 0;
    }
  }
}
