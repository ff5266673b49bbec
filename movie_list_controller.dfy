/**
 * MovieListController: the owner-scoped and public reads of movie lists, and the
 * writes (create, update, delete, add a movie, remove a movie, edit its notes).
 * The authenticated user is the explicit `requester`; the TMDB lookup of addMovie
 * is the oracle `details`, which either yields the movie's record or fails.
 */
module MovieListController {
  import opened Wrappers
  import opened Http
  import opened Text
  import opened Tables
  import opened Models
  import opened Schema

  // ================================================================ reads

  /** One entry of `index`. */
  datatype ListSummary = ListSummary(
    id: Id, name: string, description: Option<string>, isPublic: bool,
    itemsCount: nat, createdAt: nat, updatedAt: nat)

  /** One entry of `publicLists`; `user` is the owner's name. */
  datatype PublicListEntry = PublicListEntry(
    id: Id, name: string, description: Option<string>, user: string,
    itemsCount: nat, createdAt: nat)

  /** One item as `show` renders it, with the derived poster_url and release_year. */
  datatype ItemView = ItemView(
    id: Id, tmdbMovieId: int, movieTitle: string, moviePosterPath: Option<string>,
    posterUrl: Option<string>, movieOverview: Option<string>, movieReleaseDate: Option<Date>,
    releaseYear: Option<string>, movieVoteAverage: Option<string>, userNotes: Option<string>,
    addedAt: nat)

  /** The body of a successful `show`. */
  datatype ListDetail = ListDetail(
    id: Id, name: string, description: Option<string>, isPublic: bool, user: string,
    isOwner: bool, items: seq<ItemView>, createdAt: nat, updatedAt: nat)

  /** An owned list as `index` shows it: its columns and its item count. */
  function Summary(lists: map<Id, MovieList>, items: map<Id, MovieListItem>, id: Id): (e: ListSummary)
    requires id in lists
    ensures e.id == id && e.name == lists[id].name && e.description == lists[id].description
    ensures e.isPublic == lists[id].isPublic && e.itemsCount == ItemsCount(items, id)
    ensures e.createdAt == lists[id].createdAt && e.updatedAt == lists[id].updatedAt
  {
    var l := lists[id];
    ListSummary(id, l.name, l.description, l.isPublic, ItemsCount(items, id), l.createdAt, l.updatedAt)
  }

  /** The rows `where('user_id', requester)->get()` selects: exactly the requester's lists, in id order. */
  function OwnedIds(lists: map<Id, MovieList>, requester: Id, bound: nat): (ids: seq<Id>)
    requires Below(lists, bound)
    ensures forall id :: id in ids <==> Owned(lists, requester, id)
    ensures forall j, k :: 0 <= j < k < |ids| ==> ids[j] < ids[k]
  {
    Ascending(ScopeOwnedBy(lists, requester), bound)
  }

  /** `index`: one summary per list of the requester. */
  function Index(lists: map<Id, MovieList>, items: map<Id, MovieListItem>, requester: Id, bound: nat)
    : (r: seq<ListSummary>)
    requires Below(lists, bound)
    ensures |r| == |OwnedIds(lists, requester, bound)|
    ensures forall k :: 0 <= k < |r| ==>
      var id := OwnedIds(lists, requester, bound)[k];
      id in lists && r[k] == Summary(lists, items, id)
  {
    var ids := OwnedIds(lists, requester, bound);
    seq(|ids|, k requires 0 <= k < |ids| => Summary(lists, items, ids[k]))
  }

  /** A public list as `publicLists` shows it: its columns, its owner's name and its item count. */
  function PublicEntry(users: map<Id, User>, lists: map<Id, MovieList>, items: map<Id, MovieListItem>, id: Id)
    : (e: PublicListEntry)
    requires id in lists && lists[id].userId in users
    ensures e.id == id && e.name == lists[id].name && e.description == lists[id].description
    ensures e.user == users[lists[id].userId].name
    ensures e.itemsCount == ItemsCount(items, id) && e.createdAt == lists[id].createdAt
  {
    var l := lists[id];
    PublicListEntry(id, l.name, l.description, users[l.userId].name, ItemsCount(items, id), l.createdAt)
  }

  /**
   * The rows `where('is_public', true)->orderBy('created_at', 'desc')` selects: exactly the
   * public lists, latest id first (ids and creation ticks grow together, see PublicListsNewestFirst).
   */
  function PublicIds(lists: map<Id, MovieList>, bound: nat): (ids: seq<Id>)
    requires Below(lists, bound)
    ensures forall id :: id in ids <==> id in lists && lists[id].isPublic
    ensures forall j, k :: 0 <= j < k < |ids| ==> ids[j] > ids[k]
  {
    Descending(ScopePublic(lists), bound)
  }

  /** `publicLists`: one entry per public list. */
  function PublicLists(users: map<Id, User>, lists: map<Id, MovieList>, items: map<Id, MovieListItem>, bound: nat)
    : (r: seq<PublicListEntry>)
    requires Below(lists, bound) && OwnersExist(users, lists)
    ensures |r| == |PublicIds(lists, bound)|
    ensures forall k :: 0 <= k < |r| ==>
      var id := PublicIds(lists, bound)[k];
      id in lists && lists[id].userId in users && r[k] == PublicEntry(users, lists, items, id)
  {
    var ids := PublicIds(lists, bound);
    seq(|ids|, k requires 0 <= k < |ids| => PublicEntry(users, lists, items, ids[k]))
  }

  /** With creation ticks increasing in id order, `publicLists` is newest first. */
  lemma PublicListsNewestFirst(users: map<Id, User>, lists: map<Id, MovieList>, items: map<Id, MovieListItem>, bound: nat)
    requires Below(lists, bound) && OwnersExist(users, lists) && CreatedInIdOrder(lists)
    ensures var r := PublicLists(users, lists, items, bound);
      forall j, k :: 0 <= j < k < |r| ==> r[j].createdAt > r[k].createdAt
  {
  }

  function ViewItem(id: Id, it: MovieListItem): ItemView {
    ItemView(
      id, it.tmdbMovieId, it.title, it.posterPath, PosterUrl(it.posterPath), it.overview,
      it.releaseDate, ReleaseYear(it.releaseDate),
      match it.voteAverage case Some(v) => Some(VoteText(v)) case None => None,
      it.userNotes, it.createdAt)
  }

  /** The views of the given items, in the given order. */
  function ViewItems(items: map<Id, MovieListItem>, ids: seq<Id>): (r: seq<ItemView>)
    requires forall k :: 0 <= k < |ids| ==> ids[k] in items
    ensures |r| == |ids|
    ensures forall k :: 0 <= k < |ids| ==> r[k] == ViewItem(ids[k], items[ids[k]])
  {
    if ids == [] then [] else [ViewItem(ids[0], items[ids[0]])] + ViewItems(items, ids[1..])
  }

  /** The list is readable by the requester: owned by them, or public. */
  predicate Visible(lists: map<Id, MovieList>, requester: Id, id: Id) {
    id in lists && (lists[id].userId == requester || lists[id].isPublic)
  }

  /** `show`: a visible list with all its items in id order; anything else is 404. */
  function Show(
    users: map<Id, User>, lists: map<Id, MovieList>, items: map<Id, MovieListItem>,
    itemBound: nat, requester: Id, id: Id): (r: Reply<ListDetail>)
    requires Below(items, itemBound) && OwnersExist(users, lists)
    ensures r.status == OK <==> Visible(lists, requester, id)
    ensures r.status != OK ==> r.status == NOT_FOUND && r.data == None
    ensures r.status == OK ==>
      && r.data.Some?
      && r.data.value.id == id
      && r.data.value.isOwner == (lists[id].userId == requester)
      && r.data.value.name == lists[id].name
      && r.data.value.description == lists[id].description
      && r.data.value.createdAt == lists[id].createdAt
      && r.data.value.updatedAt == lists[id].updatedAt
      && r.data.value.isPublic == lists[id].isPublic
      && r.data.value.user == users[lists[id].userId].name
      && |r.data.value.items| == ItemsCount(items, id)
    ensures r.status == OK ==> forall k :: 0 <= k < |r.data.value.items| ==>
      var v := r.data.value.items[k];
      v.id in items && items[v.id].listId == id && v == ViewItem(v.id, items[v.id])
    ensures r.status == OK ==> forall j, k :: 0 <= j < k < |r.data.value.items| ==>
      r.data.value.items[j].id < r.data.value.items[k].id
    ensures r.status == OK ==> forall i :: i in items && items[i].listId == id ==>
      ViewItem(i, items[i]) in r.data.value.items
  {
    if !Visible(lists, requester, id) then Reply(NOT_FOUND, None)
    else
      var l := lists[id];
      var ids := ItemIds(items, id, itemBound);
      var views := ViewItems(items, ids);
      Reply(OK, Some(ListDetail(
        id, l.name, l.description, l.isPublic, users[l.userId].name, l.userId == requester,
        views, l.createdAt, l.updatedAt)))
  }

  // ================================================================ request validation

  /** The body of `store` and `update`. */
  datatype ListRequest = ListRequest(name: Option<string>, description: Option<string>, isPublic: Flag)

  /** name: required|string|max:255, description: nullable|string|max:1000, is_public: boolean. */
  predicate ValidListRequest(req: ListRequest) {
    Required(req.name) && |req.name.value| <= 255 && AtMost(req.description, 1000) && !req.isPublic.NotBoolean?
  }

  /** The body of `addMovie`; a tmdb_movie_id that is missing or not an integer is None. */
  datatype AddRequest = AddRequest(tmdbMovieId: Option<int>, userNotes: Option<string>)

  /** tmdb_movie_id: required|integer, user_notes: nullable|string|max:1000. */
  predicate ValidAddRequest(req: AddRequest) {
    req.tmdbMovieId.Some? && AtMost(req.userNotes, 1000)
  }

  /** The TMDB record addMovie copies from (title, poster path, overview, date, vote in tenths). */
  datatype MovieDetails = MovieDetails(
    title: string, posterPath: Option<string>, overview: Option<string>,
    releaseDate: Option<Date>, voteAverage: Option<int>)

  // ================================================================ writes

  /** The list after `update`: name, description and flag from the request; updated_at moves only if something changed. */
  function Revise(l: MovieList, req: ListRequest, now: nat): (r: MovieList)
    requires Required(req.name)
    ensures r.userId == l.userId && r.createdAt == l.createdAt
    ensures r.name == req.name.value && r.description == req.description
    ensures r.isPublic == FlagOr(req.isPublic, false)
    ensures r.updatedAt == if (r.name, r.description, r.isPublic) == (l.name, l.description, l.isPublic)
                           then l.updatedAt else now
  {
    var r := l.(name := req.name.value, description := req.description, isPublic := FlagOr(req.isPublic, false));
    if r == l then l else r.(updatedAt := now)
  }

  /** The item row addMovie inserts: a snapshot of the TMDB record with the request's notes. */
  function Snapshot(listId: Id, tmdbMovieId: int, d: MovieDetails, notes: Option<string>, now: nat): (it: MovieListItem)
    ensures it.listId == listId && it.tmdbMovieId == tmdbMovieId && it.userNotes == notes
    ensures it.title == d.title && it.posterPath == d.posterPath && it.overview == d.overview
    ensures it.releaseDate == d.releaseDate && it.voteAverage == d.voteAverage
    ensures it.createdAt == now && it.updatedAt == now
  {
    MovieListItem(listId, tmdbMovieId, d.title, d.posterPath, d.overview, d.releaseDate, d.voteAverage, notes, now, now)
  }

  /** `store`: 422 on invalid input, otherwise a new list owned by the requester (private unless asked). */
  method Store(db: Database, requester: Id, req: ListRequest) returns (status: int, id: Option<Id>)
    requires db.Valid() && requester in db.users
    modifies db
    ensures db.Valid()
    ensures status == (if ValidListRequest(req) then CREATED else UNPROCESSABLE)
    ensures status == UNPROCESSABLE ==> id == None && unchanged(db)
    ensures status == CREATED ==>
      && id == Some(old(db.nextListId)) && id.value !in old(db.lists)
      && db.lists == old(db.lists)[id.value := MovieList(
           requester, req.name.value, req.description, FlagOr(req.isPublic, false), old(db.clock), old(db.clock))]
      && db.items == old(db.items) && db.users == old(db.users)
  {
    if !ValidListRequest(req) {
      status, id := UNPROCESSABLE, None;
      return;
    }
    var newId := db.nextListId;
    var now := db.clock;
    db.lists := db.lists[newId := MovieList(requester, req.name.value, req.description, FlagOr(req.isPublic, false), now, now)];
    db.nextListId := newId + 1;
    db.clock := now + 1;
    status, id := CREATED, Some(newId);
  }

  /**
   * `update`: 422 on invalid input; a list that is missing or not the requester's makes
   * findOrFail throw inside the generic handler, so the answer is 500, not 404.
   */
  method Update(db: Database, requester: Id, id: Id, req: ListRequest) returns (status: int)
    requires db.Valid()
    modifies db
    ensures db.Valid()
    ensures status == (if !ValidListRequest(req) then UNPROCESSABLE
                       else if Owned(old(db.lists), requester, id) then OK
                       else SERVER_ERROR)
    ensures status != OK ==> unchanged(db)
    ensures status == OK ==>
      && db.lists == old(db.lists)[id := Revise(old(db.lists)[id], req, old(db.clock))]
      && db.items == old(db.items) && db.users == old(db.users)
  {
    if !ValidListRequest(req) {
      return UNPROCESSABLE;
    }
    if !Owned(db.lists, requester, id) {
      return SERVER_ERROR;
    }
    var now := db.clock;
    db.lists := db.lists[id := Revise(db.lists[id], req, now)];
    db.clock := now + 1;
    status := OK;
  }

  /** `destroy`: the owner deletes the list and, by the cascade, all of its items; otherwise 500. */
  method Destroy(db: Database, requester: Id, id: Id) returns (status: int)
    requires db.Valid()
    modifies db
    ensures db.Valid()
    ensures status == (if Owned(old(db.lists), requester, id) then OK else SERVER_ERROR)
    ensures status != OK ==> unchanged(db)
    ensures status == OK ==>
      && db.lists == old(db.lists) - {id}
      && db.items == Cascade(old(db.items), id)
      && db.users == old(db.users)
  {
    if !Owned(db.lists, requester, id) {
      return SERVER_ERROR;
    }
    db.lists := db.lists - {id};
    db.items := Cascade(db.items, id);
    db.clock := db.clock + 1;
    status := OK;
  }

  /**
   * `addMovie`. The order of the checks is the source's: validation (422), ownership (500),
   * the TMDB fetch (500 on failure, even for a movie the list already holds), the duplicate
   * check (409), then the insert, which the column types can still refuse (500).
   */
  method AddMovie(db: Database, requester: Id, listId: Id, req: AddRequest, details: int -> Option<MovieDetails>)
    returns (status: int, itemId: Option<Id>)
    requires db.Valid()
    modifies db
    ensures db.Valid()
    ensures !ValidAddRequest(req) ==> status == UNPROCESSABLE
    ensures ValidAddRequest(req) && !Owned(old(db.lists), requester, listId) ==> status == SERVER_ERROR
    ensures ValidAddRequest(req) && Owned(old(db.lists), requester, listId) ==>
      var t := req.tmdbMovieId.value;
      && (details(t).None? ==> status == SERVER_ERROR)
      && (details(t).Some? && HasMovie(old(db.items), listId, t) ==> status == CONFLICT)
      && (details(t).Some? && !HasMovie(old(db.items), listId, t) ==>
            status == if ItemFits(Snapshot(listId, t, details(t).value, req.userNotes, old(db.clock)))
                      then CREATED else SERVER_ERROR)
    ensures status != CREATED ==> itemId == None && unchanged(db)
    ensures status == CREATED ==>
      && itemId == Some(old(db.nextItemId)) && itemId.value !in old(db.items)
      && db.items == old(db.items)[itemId.value :=
           Snapshot(listId, req.tmdbMovieId.value, details(req.tmdbMovieId.value).value, req.userNotes, old(db.clock))]
      && db.lists == old(db.lists) && db.users == old(db.users)
  {
    itemId := None;
    if !ValidAddRequest(req) {
      status := UNPROCESSABLE;
      return;
    }
    if !Owned(db.lists, requester, listId) {
      status := SERVER_ERROR;
      return;
    }
    var t := req.tmdbMovieId.value;
    var fetched := details(t);
    if fetched.None? {
      status := SERVER_ERROR;
      return;
    }
    if HasMovie(db.items, listId, t) {
      status := CONFLICT;
      return;
    }
    var it := Snapshot(listId, t, fetched.value, req.userNotes, db.clock);
    if !ItemFits(it) {
      status := SERVER_ERROR;
      return;
    }
    var newId := db.nextItemId;
    InsertKeepsConsistent(db.users, db.lists, db.items, db.nextUserId, db.nextListId, newId, db.clock, it);
    db.items := db.items[newId := it];
    db.nextItemId := newId + 1;
    db.clock := db.clock + 1;
    status, itemId := CREATED, Some(newId);
  }

  /** The item belongs to the given list: the `where('movie_list_id', ...)->findOrFail` test. */
  predicate InList(items: map<Id, MovieListItem>, listId: Id, itemId: Id) {
    itemId in items && items[itemId].listId == listId
  }

  /** `removeMovie`: only an item of the requester's own list, addressed through that list; otherwise 500. */
  method RemoveMovie(db: Database, requester: Id, listId: Id, itemId: Id) returns (status: int)
    requires db.Valid()
    modifies db
    ensures db.Valid()
    ensures status == (if Owned(old(db.lists), requester, listId) && InList(old(db.items), listId, itemId)
                       then OK else SERVER_ERROR)
    ensures status != OK ==> unchanged(db)
    ensures status == OK ==>
      db.items == old(db.items) - {itemId} && db.lists == old(db.lists) && db.users == old(db.users)
  {
    if !Owned(db.lists, requester, listId) || !InList(db.items, listId, itemId) {
      return SERVER_ERROR;
    }
    db.items := db.items - {itemId};
    db.clock := db.clock + 1;
    status := OK;
  }

  /** The item after `updateMovieNotes`: only user_notes (and, if it changed, updated_at) move. */
  function WithNotes(it: MovieListItem, notes: Option<string>, now: nat): (r: MovieListItem)
    ensures r.userNotes == notes
    ensures r.(userNotes := it.userNotes, updatedAt := it.updatedAt) == it
    ensures r.updatedAt == (if notes == it.userNotes then it.updatedAt else now)
  {
    if notes == it.userNotes then it else it.(userNotes := notes, updatedAt := now)
  }

  /** `updateMovieNotes`: 422 for notes over 1000 characters; item outside the requester's list gives 500. */
  method UpdateMovieNotes(db: Database, requester: Id, listId: Id, itemId: Id, notes: Option<string>)
    returns (status: int)
    requires db.Valid()
    modifies db
    ensures db.Valid()
    ensures status == (if !AtMost(notes, 1000) then UNPROCESSABLE
                       else if Owned(old(db.lists), requester, listId) && InList(old(db.items), listId, itemId) then OK
                       else SERVER_ERROR)
    ensures status != OK ==> unchanged(db)
    ensures status == OK ==>
      && db.items == old(db.items)[itemId := WithNotes(old(db.items)[itemId], notes, old(db.clock))]
      && db.lists == old(db.lists) && db.users == old(db.users)
  {
    if !AtMost(notes, 1000) {
      return UNPROCESSABLE;
    }
    if !Owned(db.lists, requester, listId) || !InList(db.items, listId, itemId) {
      return SERVER_ERROR;
    }
    var now := db.clock;
    RewriteKeepsConsistent(db.users, db.lists, db.items, db.nextUserId, db.nextListId, db.nextItemId, now,
      itemId, WithNotes(db.items[itemId], notes, now));
    db.items := db.items[itemId := WithNotes(db.items[itemId], notes, now)];
    db.clock := now + 1;
    status := OK;
  }
}
