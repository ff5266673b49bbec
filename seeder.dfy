/**
 * MovieListSeeder: the demo data. One user, three lists of that user and the sample
 * movies spread over them, each row written with firstOrCreate, so that a second run
 * finds everything and creates nothing.
 */
module MovieListSeeder {
  import opened Wrappers
  import opened Models
  import opened Schema

  /** One entry of `$sampleMovies`; the vote is in tenths (8.4 is 84). */
  datatype Sample = Sample(
    tmdbMovieId: int, title: string, posterPath: string, overview: string,
    releaseDate: Date, voteTenths: int)

  const Email: string := "teste@exemplo.com"
  const UserName: string := "Usuário Teste"

  const FavouritesName: string := "Filmes Favoritos"
  const FavouritesDescription: string := "Minha lista pessoal de filmes favoritos de todos os tempos"
  const WatchLaterName: string := "Assistir Depois"
  const WatchLaterDescription: string := "Filmes que quero assistir quando tiver tempo"
  const ActionName: string := "Melhores Filmes de Ação"
  const ActionDescription: string := "Os melhores filmes de ação que já assisti"

  const FavouritesNotes: string := "Um dos meus filmes favoritos de todos os tempos!"
  const ActionNotes: string := "Ação incrível e efeitos especiais fantásticos!"
  const WatchLaterNotes: string := "Preciso reassistir este filme!"

  /** The TMDB ids that also go to the action list. */
  const ActionIds: set<int> := {155, 27205}

  const Samples: seq<Sample> := [
    Sample(550, "Clube da Luta", "/pB8BM7pdSp6B6Ih7QZ4DrQ3PmJK.jpg",
      "Um funcionário de escritório insone e um fabricante de sabão formam um clube de luta clandestino.",
      Date(1999, 10, 15), 84),
    Sample(155, "Batman Begins", "/8RW2runSEc34BwKTN7H5pCl0yOD.jpg",
      "Após treinar com seu mentor, Batman inicia sua luta para libertar Gotham City da corrupção.",
      Date(2005, 6, 10), 77),
    Sample(13, "Forrest Gump", "/arw2vcBveWOVZr6pxd9XTd1TdQa.jpg",
      "Forrest Gump narra várias décadas de sua vida que coincidiram com importantes eventos históricos.",
      Date(1994, 6, 23), 85),
    Sample(680, "Pulp Fiction", "/dM2w364MScsjFf8pfMbaWUcWrR.jpg",
      "As vidas de dois assassinos da máfia, um boxeador e um casal de bandidos se entrelaçam.",
      Date(1994, 9, 10), 85),
    Sample(27205, "A Origem", "/9gk7adHYeDvHkCSEqAvQNLV5Uge.jpg",
      "Dom Cobb é um ladrão especializado em extrair segredos do subconsciente durante o sono.",
      Date(2010, 7, 15), 84)
  ]

  /** The columns of a sample fit the movie_list_items column types. */
  predicate SampleFits(s: Sample) {
    && INT32_MIN <= s.tmdbMovieId <= INT32_MAX
    && |s.title| <= 255 && |s.posterPath| <= 255 && FitsDecimal31(s.voteTenths)
  }

  /** The row firstOrCreate inserts for a sample: the sample's columns merged with the notes. */
  function SampleItem(listId: Id, s: Sample, notes: string, now: nat): MovieListItem {
    MovieListItem(
      listId, s.tmdbMovieId, s.title, Some(s.posterPath), Some(s.overview),
      Some(s.releaseDate), Some(s.voteTenths), Some(notes), now, now)
  }

  /** The TMDB ids of the first n samples. */
  function FirstIds(n: nat): set<int>
    requires n <= |Samples|
  {
    if n == 0 then {} else FirstIds(n - 1) + {Samples[n - 1].tmdbMovieId}
  }

  /** The movies each list must hold once the loop has seen the first n samples. */
  function FavouriteIds(n: nat): set<int> requires n <= |Samples| { FirstIds(n) }
  function ActionListIds(n: nat): set<int> requires n <= |Samples| { FirstIds(n) * ActionIds }
  function WatchLaterIds(n: nat): set<int> requires n <= |Samples| { FirstIds(if n < 2 then n else 2) }

  /** The TMDB ids list `l` holds. */
  function TmdbIds(items: map<Id, MovieListItem>, l: Id): set<int> {
    set k | k in items && items[k].listId == l :: items[k].tmdbMovieId
  }

  /** Every row of `a` is still in `b`, unchanged. */
  predicate Grows<V(==)>(a: map<Id, V>, b: map<Id, V>) {
    forall k :: k in a ==> k in b && b[k] == a[k]
  }

  // ================================================================ firstOrCreate lookups

  /** `User::where('email', email)->first()` among the ids below n. */
  function FirstUser(users: map<Id, User>, n: nat, email: string): (r: Option<Id>)
    ensures r.Some? ==> r.value < n && r.value in users && users[r.value].email == email
    ensures r.None? ==> forall k :: k in users && k < n ==> users[k].email != email
  {
    if n == 0 then None
    else
      var r := FirstUser(users, n - 1, email);
      if r.Some? then r
      else if n - 1 in users && users[n - 1].email == email then Some(n - 1)
      else None
  }

  /** `MovieList::where('user_id', u)->where('name', name)->first()` among the ids below n. */
  function FirstList(lists: map<Id, MovieList>, n: nat, u: Id, name: string): (r: Option<Id>)
    ensures r.Some? ==> r.value < n && r.value in lists && lists[r.value].userId == u && lists[r.value].name == name
    ensures r.None? ==> forall k :: k in lists && k < n ==> lists[k].userId != u || lists[k].name != name
  {
    if n == 0 then None
    else
      var r := FirstList(lists, n - 1, u, name);
      if r.Some? then r
      else if n - 1 in lists && lists[n - 1].userId == u && lists[n - 1].name == name then Some(n - 1)
      else None
  }

  lemma {:induction false} FirstUserSame(a: map<Id, User>, b: map<Id, User>, n: nat, email: string)
    requires forall k :: k < n ==> (k in a <==> k in b) && (k in a ==> a[k] == b[k])
    ensures FirstUser(a, n, email) == FirstUser(b, n, email)
  {
    if n > 0 {
      FirstUserSame(a, b, n - 1, email);
    }
  }

  /** A user inserted above every id is found only when no earlier one matches. */
  lemma FirstUserInsert(users: map<Id, User>, n: nat, v: User, email: string)
    requires Below(users, n)
    ensures FirstUser(users[n := v], n + 1, email) ==
      if FirstUser(users, n, email).Some? then FirstUser(users, n, email)
      else if v.email == email then Some(n) else None
  {
    FirstUserSame(users[n := v], users, n, email);
  }

  lemma {:induction false} FirstListSame(a: map<Id, MovieList>, b: map<Id, MovieList>, n: nat, u: Id, name: string)
    requires forall k :: k < n ==> (k in a <==> k in b) && (k in a ==> a[k] == b[k])
    ensures FirstList(a, n, u, name) == FirstList(b, n, u, name)
  {
    if n > 0 {
      FirstListSame(a, b, n - 1, u, name);
    }
  }

  /** A list inserted above every id is found only when no earlier one matches. */
  lemma FirstListInsert(lists: map<Id, MovieList>, n: nat, v: MovieList, u: Id, name: string)
    requires Below(lists, n)
    ensures FirstList(lists[n := v], n + 1, u, name) ==
      if FirstList(lists, n, u, name).Some? then FirstList(lists, n, u, name)
      else if v.userId == u && v.name == name then Some(n) else None
  {
    FirstListSame(lists[n := v], lists, n, u, name);
  }

  // ================================================================ the three firstOrCreate calls

  /** `User::firstOrCreate(['email' => Email], [name, password])`; the other columns take their defaults. */
  method FirstOrCreateUser(db: Database, passwordHash: string, profileDefault: bool) returns (u: Id)
    requires db.Valid()
    modifies db
    ensures db.Valid()
    ensures FirstUser(db.users, db.nextUserId, Email) == Some(u)
    ensures old(FirstUser(db.users, db.nextUserId, Email)).Some? ==> unchanged(db)
    ensures old(FirstUser(db.users, db.nextUserId, Email)).None? ==>
      && u == old(db.nextUserId)
      && db.users == old(db.users)[u := User(UserName, Email, passwordHash, None, None, None, None, profileDefault)]
      && db.nextUserId == u + 1
      && db.lists == old(db.lists) && db.items == old(db.items)
      && db.nextListId == old(db.nextListId) && db.nextItemId == old(db.nextItemId) && db.clock == old(db.clock)
  {
    var found := FirstUser(db.users, db.nextUserId, Email);
    if found.Some? {
      return found.value;
    }
    u := db.nextUserId;
    var v := User(UserName, Email, passwordHash, None, None, None, None, profileDefault);
    FirstUserInsert(db.users, u, v, Email);
    db.users := db.users[u := v];
    db.nextUserId := u + 1;
  }

  /** `MovieList::firstOrCreate(['user_id' => u, 'name' => name], [description, is_public])`. */
  method FirstOrCreateList(db: Database, u: Id, name: string, description: string, isPublic: bool) returns (l: Id)
    requires db.Valid() && u in db.users
    modifies db
    ensures db.Valid()
    ensures FirstList(db.lists, db.nextListId, u, name) == Some(l)
    ensures db.users == old(db.users) && db.nextUserId == old(db.nextUserId)
    ensures db.items == old(db.items) && db.nextItemId == old(db.nextItemId)
    ensures Grows(old(db.lists), db.lists)
    ensures old(FirstList(db.lists, db.nextListId, u, name)).Some? ==> unchanged(db)
    ensures old(FirstList(db.lists, db.nextListId, u, name)).None? ==>
      && l == old(db.nextListId)
      && db.lists == old(db.lists)[l := MovieList(u, name, Some(description), isPublic, old(db.clock), old(db.clock))]
      && db.nextListId == l + 1 && db.clock == old(db.clock) + 1
    ensures forall u': Id, name': string :: (u', name') != (u, name) ==>
      FirstList(db.lists, db.nextListId, u', name') == old(FirstList(db.lists, db.nextListId, u', name'))
  {
    var found := FirstList(db.lists, db.nextListId, u, name);
    if found.Some? {
      return found.value;
    }
    l := db.nextListId;
    var v := MovieList(u, name, Some(description), isPublic, db.clock, db.clock);
    FirstListInsert(db.lists, l, v, u, name);
    forall u': Id, name': string | (u', name') != (u, name)
      ensures FirstList(db.lists[l := v], l + 1, u', name') == FirstList(db.lists, l, u', name')
    {
      FirstListInsert(db.lists, l, v, u', name');
    }
    db.lists := db.lists[l := v];
    db.nextListId := l + 1;
    db.clock := db.clock + 1;
  }

  /** `MovieListItem::firstOrCreate(['movie_list_id' => l, 'tmdb_movie_id' => id], sample + notes)`. */
  method FirstOrCreateItem(db: Database, l: Id, s: Sample, notes: string)
    requires db.Valid() && l in db.lists && SampleFits(s)
    modifies db
    ensures db.Valid()
    ensures db.users == old(db.users) && db.lists == old(db.lists)
    ensures db.nextUserId == old(db.nextUserId) && db.nextListId == old(db.nextListId)
    ensures old(HasMovie(db.items, l, s.tmdbMovieId)) ==> unchanged(db)
    ensures !old(HasMovie(db.items, l, s.tmdbMovieId)) ==>
      && old(db.nextItemId) !in old(db.items)
      && db.items == old(db.items)[old(db.nextItemId) := SampleItem(l, s, notes, old(db.clock))]
      && db.nextItemId == old(db.nextItemId) + 1 && db.clock == old(db.clock) + 1
  {
    if HasMovie(db.items, l, s.tmdbMovieId) {
      return;
    }
    var it := SampleItem(l, s, notes, db.clock);
    InsertKeepsConsistent(db.users, db.lists, db.items, db.nextUserId, db.nextListId, db.nextItemId, db.clock, it);
    db.items := db.items[db.nextItemId := it];
    db.nextItemId := db.nextItemId + 1;
    db.clock := db.clock + 1;
  }

  /**
   * Either outcome of firstOrCreate on an item leaves list l holding movie t, adds no
   * movie to any other list, keeps every earlier row, and adds a row exactly when it
   * adds a movie to l.
   */
  lemma FirstOrCreateIds(before: map<Id, MovieListItem>, after: map<Id, MovieListItem>, k: Id, it: MovieListItem)
    requires HasMovie(before, it.listId, it.tmdbMovieId) ==> after == before
    requires !HasMovie(before, it.listId, it.tmdbMovieId) ==> k !in before && after == before[k := it]
    ensures Step(before, after, it.listId, it.tmdbMovieId)
    ensures StepCount(before, after, it.listId, it.tmdbMovieId)
  {
    HasMovieIds(before, it.listId, it.tmdbMovieId);
    if HasMovie(before, it.listId, it.tmdbMovieId) {
      assert TmdbIds(before, it.listId) + {it.tmdbMovieId} == TmdbIds(before, it.listId);
    } else {
      FreshRow(before, k, it);
    }
  }

  /** What adding a row under a fresh key, for a movie its list lacks, does to the per-list ids. */
  lemma FreshRow(items: map<Id, MovieListItem>, k: Id, it: MovieListItem)
    requires k !in items && it.tmdbMovieId !in TmdbIds(items, it.listId)
    ensures Grows(items, items[k := it])
    ensures TmdbIds(items[k := it], it.listId) == TmdbIds(items, it.listId) + {it.tmdbMovieId}
    ensures forall l' :: l' != it.listId ==> TmdbIds(items[k := it], l') == TmdbIds(items, l')
    ensures |items[k := it]| == |items| + 1
  {
    forall l' ensures TmdbIds(items[k := it], l') ==
      TmdbIds(items, l') + (if l' == it.listId then {it.tmdbMovieId} else {})
    {
      TmdbIdsInsert(items, k, it, l');
    }
  }

  lemma HasMovieIds(items: map<Id, MovieListItem>, l: Id, t: int)
    ensures HasMovie(items, l, t) <==> t in TmdbIds(items, l)
  {
    if t in TmdbIds(items, l) {
      var k :| k in items && items[k].listId == l && items[k].tmdbMovieId == t;
    }
  }

  /** Inserting a row under a fresh key adds its movie to its own list's ids only. */
  lemma TmdbIdsInsert(items: map<Id, MovieListItem>, k: Id, it: MovieListItem, l: Id)
    requires k !in items
    ensures TmdbIds(items[k := it], l) == TmdbIds(items, l) + (if it.listId == l then {it.tmdbMovieId} else {})
  {
    var a, b := TmdbIds(items[k := it], l), TmdbIds(items, l) + (if it.listId == l then {it.tmdbMovieId} else {});
    forall t | t in a ensures t in b {
      var j :| j in items[k := it] && items[k := it][j].listId == l && items[k := it][j].tmdbMovieId == t;
      if j != k { assert items[j].listId == l && items[j].tmdbMovieId == t; }
    }
    forall t | t in b ensures t in a {
      if t in TmdbIds(items, l) {
        var j :| j in items && items[j].listId == l && items[j].tmdbMovieId == t;
        assert items[k := it][j] == items[j];
      } else {
        assert items[k := it][k] == it;
      }
    }
  }

  lemma {:induction false} InFirstIds(i: nat, n: nat)
    requires i < n <= |Samples|
    ensures Samples[i].tmdbMovieId in FirstIds(n)
  {
    if i < n - 1 {
      InFirstIds(i, n - 1);
    }
  }

  lemma TmdbIdsEmpty(l: Id)
    ensures TmdbIds(map[], l) == {}
  {
  }

  // ================================================================ run

  /** User u has the three seeded lists. */
  predicate HasLists(lists: map<Id, MovieList>, nextListId: nat, u: Id) {
    && FirstList(lists, nextListId, u, FavouritesName).Some?
    && FirstList(lists, nextListId, u, WatchLaterName).Some?
    && FirstList(lists, nextListId, u, ActionName).Some?
  }

  /** The seeded user and its three lists exist. */
  predicate Prepared(users: map<Id, User>, lists: map<Id, MovieList>, nextUserId: nat, nextListId: nat) {
    var u := FirstUser(users, nextUserId, Email);
    u.Some? && HasLists(lists, nextListId, u.value)
  }

  /** The seeded user, its three lists, and every sample in the lists it belongs to. */
  predicate Complete(users: map<Id, User>, lists: map<Id, MovieList>, items: map<Id, MovieListItem>,
    nextUserId: nat, nextListId: nat)
  {
    && Prepared(users, lists, nextUserId, nextListId)
    && var u := FirstUser(users, nextUserId, Email).value;
    Holds(items,
      FirstList(lists, nextListId, u, FavouritesName).value,
      FirstList(lists, nextListId, u, WatchLaterName).value,
      FirstList(lists, nextListId, u, ActionName).value)
  }

  /** Each of the three lists holds every sample that belongs in it. */
  predicate Holds(items: map<Id, MovieListItem>, fav: Id, later: Id, action: Id) {
    && FavouriteIds(|Samples|) <= TmdbIds(items, fav)
    && WatchLaterIds(|Samples|) <= TmdbIds(items, later)
    && ActionListIds(|Samples|) <= TmdbIds(items, action)
  }

  /**
   * One firstOrCreate of movie t into list l, as the per-list movie sets see it: every
   * earlier row is kept, l gains t, no other list changes, and a row is added exactly
   * when l gains a movie.
   */
  ghost predicate Step(before: map<Id, MovieListItem>, after: map<Id, MovieListItem>, l: Id, t: int) {
    && Grows(before, after)
    && TmdbIds(after, l) == TmdbIds(before, l) + {t}
    && (forall l' :: l' != l ==> TmdbIds(after, l') == TmdbIds(before, l'))
  }

  /** A row is added exactly when l gains a movie. */
  ghost predicate StepCount(before: map<Id, MovieListItem>, after: map<Id, MovieListItem>, l: Id, t: int) {
    |after| == |before| + Added(t, TmdbIds(before, l))
  }

  /** One row is added when the list lacked the movie, none otherwise. */
  function Added(t: int, held: set<int>): nat {
    if t in held then 0 else 1
  }

  /** One pass of the foreach, for sample i, as the per-list movie sets see it. */
  ghost predicate SampleStep(before: map<Id, MovieListItem>, after: map<Id, MovieListItem>,
    fav: Id, later: Id, action: Id, i: nat)
    requires i < |Samples|
  {
    var t := Samples[i].tmdbMovieId;
    && Grows(before, after)
    && TmdbIds(after, fav) == TmdbIds(before, fav) + {t}
    && TmdbIds(after, action) == TmdbIds(before, action) + (if t in ActionIds then {t} else {})
    && TmdbIds(after, later) == TmdbIds(before, later) + (if i < 2 then {t} else {})
  }

  /** The rows one pass adds: one for each of its lists that lacked the sample. */
  ghost predicate SampleCount(before: map<Id, MovieListItem>, after: map<Id, MovieListItem>,
    fav: Id, later: Id, action: Id, i: nat)
    requires i < |Samples|
  {
    var t := Samples[i].tmdbMovieId;
    |after| == |before| + Added(t, TmdbIds(before, fav))
      + (if t in ActionIds then Added(t, TmdbIds(before, action)) else 0)
      + (if i < 2 then Added(t, TmdbIds(before, later)) else 0)
  }

  /** The three conditional firstOrCreate calls of one pass compose into SampleStep. */
  lemma ComposeSample(items0: map<Id, MovieListItem>, items1: map<Id, MovieListItem>,
    items2: map<Id, MovieListItem>, items3: map<Id, MovieListItem>, fav: Id, later: Id, action: Id, i: nat)
    requires i < |Samples| && fav != later && fav != action && later != action
    requires Step(items0, items1, fav, Samples[i].tmdbMovieId)
    requires if Samples[i].tmdbMovieId in ActionIds then Step(items1, items2, action, Samples[i].tmdbMovieId) else items2 == items1
    requires if i < 2 then Step(items2, items3, later, Samples[i].tmdbMovieId) else items3 == items2
    ensures SampleStep(items0, items3, fav, later, action, i)
  {
    GrowsTrans(items0, items1, items2);
    GrowsTrans(items0, items2, items3);
  }

  /** The rows of the three conditional firstOrCreate calls add up to SampleCount. */
  lemma ComposeCount(items0: map<Id, MovieListItem>, items1: map<Id, MovieListItem>,
    items2: map<Id, MovieListItem>, items3: map<Id, MovieListItem>, fav: Id, later: Id, action: Id, i: nat)
    requires i < |Samples|
    requires StepCount(items0, items1, fav, Samples[i].tmdbMovieId)
    requires if Samples[i].tmdbMovieId in ActionIds
      then StepCount(items1, items2, action, Samples[i].tmdbMovieId) && TmdbIds(items1, action) == TmdbIds(items0, action)
      else items2 == items1
    requires if i < 2
      then StepCount(items2, items3, later, Samples[i].tmdbMovieId) && TmdbIds(items2, later) == TmdbIds(items0, later)
      else items3 == items2
    ensures SampleCount(items0, items3, fav, later, action, i)
  {
  }

  lemma GrowsTrans<V>(a: map<Id, V>, b: map<Id, V>, c: map<Id, V>)
    requires Grows(a, b) && Grows(b, c)
    ensures Grows(a, c)
  {
  }

  /** The body of the foreach for sample i: favourites, then action, then watch-later. */
  method AddSample(db: Database, fav: Id, later: Id, action: Id, i: nat)
    requires db.Valid() && i < |Samples|
    requires fav in db.lists && later in db.lists && action in db.lists
    requires fav != later && fav != action && later != action
    modifies db
    ensures db.Valid()
    ensures db.users == old(db.users) && db.lists == old(db.lists)
    ensures db.nextUserId == old(db.nextUserId) && db.nextListId == old(db.nextListId)
    ensures SampleStep(old(db.items), db.items, fav, later, action, i)
    ensures SampleCount(old(db.items), db.items, fav, later, action, i)
    ensures var t := Samples[i].tmdbMovieId;
      && t in TmdbIds(old(db.items), fav)
      && (t in ActionIds ==> t in TmdbIds(old(db.items), action))
      && (i < 2 ==> t in TmdbIds(old(db.items), later))
      ==> unchanged(db)
  {
    var s := Samples[i];
    SamplesFit(i);
    ghost var items0 := db.items;
    Put(db, fav, s, FavouritesNotes);
    ghost var items1 := db.items;
    if s.tmdbMovieId in ActionIds {
      Put(db, action, s, ActionNotes);
    }
    ghost var items2 := db.items;
    if i < 2 {
      Put(db, later, s, WatchLaterNotes);
    }
    ComposeSample(items0, items1, items2, db.items, fav, later, action, i);
    ComposeCount(items0, items1, items2, db.items, fav, later, action, i);
  }

  /** FirstOrCreateItem seen through the movies each list holds. */
  method Put(db: Database, l: Id, s: Sample, notes: string)
    requires db.Valid() && l in db.lists && SampleFits(s)
    modifies db
    ensures db.Valid()
    ensures db.users == old(db.users) && db.lists == old(db.lists)
    ensures db.nextUserId == old(db.nextUserId) && db.nextListId == old(db.nextListId)
    ensures Step(old(db.items), db.items, l, s.tmdbMovieId)
    ensures StepCount(old(db.items), db.items, l, s.tmdbMovieId)
    ensures s.tmdbMovieId in TmdbIds(old(db.items), l) ==> unchanged(db)
  {
    var items0, k0, c0 := db.items, db.nextItemId, db.clock;
    HasMovieIds(items0, l, s.tmdbMovieId);
    FirstOrCreateItem(db, l, s, notes);
    FirstOrCreateIds(items0, db.items, k0, SampleItem(l, s, notes, c0));
  }

  lemma SamplesFit(i: nat)
    requires i < |Samples|
    ensures SampleFits(Samples[i])
  {
  }

  /** The sample ids are pairwise distinct: sample i is not among the ones before it. */
  lemma SampleIdsDistinct(i: nat)
    requires i < |Samples|
    ensures Samples[i].tmdbMovieId !in FirstIds(i)
  {
  }

  /** Rows a run creates on an empty store by the time it has seen the first n samples. */
  function Created(n: nat): nat
    requires n <= |Samples|
  {
    if n == 0 then 0
    else Created(n - 1) + 1 + (if Samples[n - 1].tmdbMovieId in ActionIds then 1 else 0) + (if n - 1 < 2 then 1 else 0)
  }

  /** A freshly migrated store. */
  predicate Empty(users: map<Id, User>, lists: map<Id, MovieList>, items: map<Id, MovieListItem>,
    nextUserId: nat, nextListId: nat, nextItemId: nat, clock: nat)
  {
    users == map[] && lists == map[] && items == map[]
    && nextUserId == 0 && nextListId == 0 && nextItemId == 0 && clock == 0
  }

  /** The user and the three lists: the firstOrCreate calls before the foreach. */
  method CreateUserAndLists(db: Database, passwordHash: string, profileDefault: bool)
    returns (u: Id, fav: Id, later: Id, action: Id)
    requires db.Valid()
    modifies db
    ensures db.Valid()
    ensures FirstUser(db.users, db.nextUserId, Email) == Some(u)
    ensures FirstList(db.lists, db.nextListId, u, FavouritesName) == Some(fav)
    ensures FirstList(db.lists, db.nextListId, u, WatchLaterName) == Some(later)
    ensures FirstList(db.lists, db.nextListId, u, ActionName) == Some(action)
    ensures fav != later && fav != action && later != action
    ensures Grows(old(db.users), db.users) && Grows(old(db.lists), db.lists)
    ensures db.items == old(db.items) && db.nextItemId == old(db.nextItemId)
    ensures old(Prepared(db.users, db.lists, db.nextUserId, db.nextListId)) ==> unchanged(db)
    ensures old(Empty(db.users, db.lists, db.items, db.nextUserId, db.nextListId, db.nextItemId, db.clock)) ==>
      && u == 0 && fav == 0 && later == 1 && action == 2
      && db.users == map[0 := User(UserName, Email, passwordHash, None, None, None, None, profileDefault)]
      && db.lists == map[
           0 := MovieList(0, FavouritesName, Some(FavouritesDescription), true, 0, 0),
           1 := MovieList(0, WatchLaterName, Some(WatchLaterDescription), false, 1, 1),
           2 := MovieList(0, ActionName, Some(ActionDescription), true, 2, 2)]
      && |db.users| == 1 && |db.lists| == 3
  {
    u := FirstOrCreateUser(db, passwordHash, profileDefault);
    fav, later, action := CreateLists(db, u);
  }

  /** The three MovieList::firstOrCreate calls for user u. */
  method CreateLists(db: Database, u: Id) returns (fav: Id, later: Id, action: Id)
    requires db.Valid() && u in db.users
    modifies db
    ensures db.Valid()
    ensures FirstList(db.lists, db.nextListId, u, FavouritesName) == Some(fav)
    ensures FirstList(db.lists, db.nextListId, u, WatchLaterName) == Some(later)
    ensures FirstList(db.lists, db.nextListId, u, ActionName) == Some(action)
    ensures fav != later && fav != action && later != action
    ensures Grows(old(db.lists), db.lists)
    ensures db.users == old(db.users) && db.nextUserId == old(db.nextUserId)
    ensures db.items == old(db.items) && db.nextItemId == old(db.nextItemId)
    ensures old(HasLists(db.lists, db.nextListId, u)) ==> unchanged(db)
    ensures old(db.lists == map[] && db.nextListId == 0 && db.clock == 0) ==>
      && fav == 0 && later == 1 && action == 2
      && db.lists == map[
           0 := MovieList(u, FavouritesName, Some(FavouritesDescription), true, 0, 0),
           1 := MovieList(u, WatchLaterName, Some(WatchLaterDescription), false, 1, 1),
           2 := MovieList(u, ActionName, Some(ActionDescription), true, 2, 2)]
      && |db.lists| == 3
  {
    fav := FirstOrCreateList(db, u, FavouritesName, FavouritesDescription, true);
    later := FirstOrCreateList(db, u, WatchLaterName, WatchLaterDescription, false);
    action := FirstOrCreateList(db, u, ActionName, ActionDescription, true);
    ThreeRows(
      MovieList(u, FavouritesName, Some(FavouritesDescription), true, 0, 0),
      MovieList(u, WatchLaterName, Some(WatchLaterDescription), false, 1, 1),
      MovieList(u, ActionName, Some(ActionDescription), true, 2, 2));
  }

  /** What the foreach has done to the three lists once it has seen the first i samples. */
  ghost predicate Prefix(items0: map<Id, MovieListItem>, items: map<Id, MovieListItem>,
    fav: Id, later: Id, action: Id, i: nat)
    requires i <= |Samples|
  {
    && Grows(items0, items)
    && TmdbIds(items, fav) == TmdbIds(items0, fav) + FavouriteIds(i)
    && TmdbIds(items, action) == TmdbIds(items0, action) + ActionListIds(i)
    && TmdbIds(items, later) == TmdbIds(items0, later) + WatchLaterIds(i)
  }

  lemma ProgressStart(items0: map<Id, MovieListItem>, fav: Id, later: Id, action: Id)
    ensures Progress(items0, items0, fav, later, action, 0)
  {
  }

  /** One more pass of the foreach extends the prefix by one sample. */
  lemma PrefixStep(items0: map<Id, MovieListItem>, before: map<Id, MovieListItem>, after: map<Id, MovieListItem>,
    fav: Id, later: Id, action: Id, i: nat)
    requires i < |Samples|
    requires Prefix(items0, before, fav, later, action, i)
    requires SampleStep(before, after, fav, later, action, i)
    ensures Prefix(items0, after, fav, later, action, i + 1)
  {
    var t := Samples[i].tmdbMovieId;
    GrowsTrans(items0, before, after);
    var d := if t in ActionIds then {t} else {};
    var e := if i < 2 then {t} else {};
    IdsStep(i);
    Extend(TmdbIds(items0, fav), FavouriteIds(i), FavouriteIds(i + 1), TmdbIds(before, fav), TmdbIds(after, fav), {t});
    Extend(TmdbIds(items0, action), ActionListIds(i), ActionListIds(i + 1), TmdbIds(before, action), TmdbIds(after, action), d);
    Extend(TmdbIds(items0, later), WatchLaterIds(i), WatchLaterIds(i + 1), TmdbIds(before, later), TmdbIds(after, later), e);
  }

  /** The sets each list must hold grow by the sample, where it belongs. */
  lemma IdsStep(i: nat)
    requires i < |Samples|
    ensures var t := Samples[i].tmdbMovieId;
      && FavouriteIds(i + 1) == FavouriteIds(i) + {t}
      && ActionListIds(i + 1) == ActionListIds(i) + (if t in ActionIds then {t} else {})
      && WatchLaterIds(i + 1) == WatchLaterIds(i) + (if i < 2 then {t} else {})
  {
  }

  lemma Extend(x: set<int>, p: set<int>, p': set<int>, b: set<int>, a: set<int>, d: set<int>)
    requires b == x + p && a == b + d && p' == p + d
    ensures a == x + p'
  {
  }

  /** On an empty store every pass adds each of its rows, since the sample ids are distinct. */
  lemma PrefixCount(items0: map<Id, MovieListItem>, before: map<Id, MovieListItem>, after: map<Id, MovieListItem>,
    fav: Id, later: Id, action: Id, i: nat)
    requires i < |Samples| && items0 == map[]
    requires Prefix(items0, before, fav, later, action, i)
    requires SampleCount(before, after, fav, later, action, i)
    requires |before| == Created(i)
    ensures |after| == Created(i + 1)
  {
    var t := Samples[i].tmdbMovieId;
    PrefixFromNothing(before, fav, later, action, i);
    SampleFresh(i);
    AllAdded(|before|, |after|, t, TmdbIds(before, fav), TmdbIds(before, action), TmdbIds(before, later),
      t in ActionIds, i < 2);
  }

  /** Started from no items, the prefix is exactly the samples seen so far. */
  lemma PrefixFromNothing(before: map<Id, MovieListItem>, fav: Id, later: Id, action: Id, i: nat)
    requires i <= |Samples|
    requires Prefix(map[], before, fav, later, action, i)
    ensures TmdbIds(before, fav) == FavouriteIds(i)
    ensures TmdbIds(before, action) == ActionListIds(i)
    ensures TmdbIds(before, later) == WatchLaterIds(i)
  {
    TmdbIdsEmpty(fav);
    TmdbIdsEmpty(action);
    TmdbIdsEmpty(later);
  }

  /** Sample i is in none of the sets the samples before it fill. */
  lemma SampleFresh(i: nat)
    requires i < |Samples|
    ensures var t := Samples[i].tmdbMovieId;
      && t !in FavouriteIds(i)
      && t !in ActionListIds(i)
      && t !in WatchLaterIds(i)
  {
    SampleIdsDistinct(i);
    if 2 <= i {
      FirstIdsMono(2, i);
    }
  }

  /** FirstIds grows with n. */
  lemma {:induction false} FirstIdsMono(m: nat, n: nat)
    requires m <= n <= |Samples|
    ensures FirstIds(m) <= FirstIds(n)
  {
    if m < n {
      FirstIdsMono(m, n - 1);
    }
  }

  /** The row count of a pass in which every list lacked the sample. */
  lemma AllAdded(before: nat, after: nat, t: int, a: set<int>, b: set<int>, c: set<int>, inB: bool, inC: bool)
    requires after == before + Added(t, a) + (if inB then Added(t, b) else 0) + (if inC then Added(t, c) else 0)
    requires t !in a && t !in b && t !in c
    ensures after == before + 1 + (if inB then 1 else 0) + (if inC then 1 else 0)
  {
  }

  /** On a store that already holds every sample in its lists, each pass finds its rows. */
  lemma AlreadyThere(items: map<Id, MovieListItem>, fav: Id, later: Id, action: Id, i: nat)
    requires i < |Samples|
    requires Holds(items, fav, later, action)
    ensures var t := Samples[i].tmdbMovieId;
      && t in TmdbIds(items, fav)
      && (t in ActionIds ==> t in TmdbIds(items, action))
      && (i < 2 ==> t in TmdbIds(items, later))
  {
    InFirstIds(i, |Samples|);
    if i < 2 {
      InFirstIds(i, 2);
    }
  }

  /** The foreach over the samples. */
  method AddSamples(db: Database, fav: Id, later: Id, action: Id)
    requires db.Valid()
    requires fav in db.lists && later in db.lists && action in db.lists
    requires fav != later && fav != action && later != action
    modifies db
    ensures db.Valid()
    ensures db.users == old(db.users) && db.lists == old(db.lists)
    ensures db.nextUserId == old(db.nextUserId) && db.nextListId == old(db.nextListId)
    ensures Progress(old(db.items), db.items, fav, later, action, |Samples|)
    ensures old(Holds(db.items, fav, later, action)) ==> unchanged(db)
  {
    ghost var items0 := db.items;
    ghost var complete := Holds(items0, fav, later, action);
    ProgressStart(items0, fav, later, action);
    for i := 0 to |Samples|
      invariant db.Valid()
      invariant db.users == old(db.users) && db.lists == old(db.lists)
      invariant db.nextUserId == old(db.nextUserId) && db.nextListId == old(db.nextListId)
      invariant Progress(items0, db.items, fav, later, action, i)
      invariant complete ==> unchanged(db)
    {
      Pass(db, items0, fav, later, action, i);
    }
  }

  /** One pass of the foreach, as the loop invariant sees it. */
  method Pass(db: Database, ghost items0: map<Id, MovieListItem>, fav: Id, later: Id, action: Id, i: nat)
    requires db.Valid() && i < |Samples|
    requires fav in db.lists && later in db.lists && action in db.lists
    requires fav != later && fav != action && later != action
    requires Progress(items0, db.items, fav, later, action, i)
    modifies db
    ensures db.Valid()
    ensures db.users == old(db.users) && db.lists == old(db.lists)
    ensures db.nextUserId == old(db.nextUserId) && db.nextListId == old(db.nextListId)
    ensures Progress(items0, db.items, fav, later, action, i + 1)
    ensures Holds(items0, fav, later, action) && old(db.items) == items0 ==> unchanged(db)
  {
    ghost var before := db.items;
    if Holds(items0, fav, later, action) && before == items0 {
      AlreadyThere(items0, fav, later, action, i);
    }
    AddSample(db, fav, later, action, i);
    Advance(items0, before, db.items, fav, later, action, i);
  }

  /** The loop invariant of the foreach: Prefix, and on an empty store the row count. */
  ghost predicate Progress(items0: map<Id, MovieListItem>, items: map<Id, MovieListItem>,
    fav: Id, later: Id, action: Id, i: nat)
    requires i <= |Samples|
  {
    Prefix(items0, items, fav, later, action, i) && (items0 == map[] ==> |items| == Created(i))
  }

  lemma Advance(items0: map<Id, MovieListItem>, before: map<Id, MovieListItem>, after: map<Id, MovieListItem>,
    fav: Id, later: Id, action: Id, i: nat)
    requires i < |Samples|
    requires Progress(items0, before, fav, later, action, i)
    requires SampleStep(before, after, fav, later, action, i)
    requires SampleCount(before, after, fav, later, action, i)
    ensures Progress(items0, after, fav, later, action, i + 1)
  {
    PrefixStep(items0, before, after, fav, later, action, i);
    if items0 == map[] {
      PrefixCount(items0, before, after, fav, later, action, i);
    }
  }

  /**
   * `run`: the user, the three lists, then the foreach over the samples. It leaves the
   * store complete, never rewrites or removes a row, changes nothing on a store that is
   * already complete, and on an empty store creates one user, three lists and nine items.
   */
  method Run(db: Database, passwordHash: string, profileDefault: bool)
    requires db.Valid()
    modifies db
    ensures db.Valid()
    ensures Complete(db.users, db.lists, db.items, db.nextUserId, db.nextListId)
    ensures Grows(old(db.users), db.users) && Grows(old(db.lists), db.lists) && Grows(old(db.items), db.items)
    ensures old(Complete(db.users, db.lists, db.items, db.nextUserId, db.nextListId)) ==> unchanged(db)
    ensures old(Empty(db.users, db.lists, db.items, db.nextUserId, db.nextListId, db.nextItemId, db.clock)) ==>
      && db.users == map[0 := User(UserName, Email, passwordHash, None, None, None, None, profileDefault)]
      && db.lists == map[
           0 := MovieList(0, FavouritesName, Some(FavouritesDescription), true, 0, 0),
           1 := MovieList(0, WatchLaterName, Some(WatchLaterDescription), false, 1, 1),
           2 := MovieList(0, ActionName, Some(ActionDescription), true, 2, 2)]
      && |db.users| == 1 && |db.lists| == 3 && |db.items| == 9
      && TmdbIds(db.items, 0) == {550, 155, 13, 680, 27205}
      && TmdbIds(db.items, 1) == {550, 155}
      && TmdbIds(db.items, 2) == {155, 27205}
  {
    ghost var complete := Complete(db.users, db.lists, db.items, db.nextUserId, db.nextListId);
    ghost var empty := Empty(db.users, db.lists, db.items, db.nextUserId, db.nextListId, db.nextItemId, db.clock);
    var u, fav, later, action := CreateUserAndLists(db, passwordHash, profileDefault);
    assert complete ==> Holds(db.items, fav, later, action);
    ghost var items0 := db.items;
    AddSamples(db, fav, later, action);
    PrefixHolds(items0, db.items, fav, later, action);
    if empty {
      PrefixFromEmpty(db.items, fav, later, action);
    }
  }

  /** After the whole foreach the three lists hold every sample that belongs in them. */
  lemma PrefixHolds(items0: map<Id, MovieListItem>, items: map<Id, MovieListItem>, fav: Id, later: Id, action: Id)
    requires Progress(items0, items, fav, later, action, |Samples|)
    ensures Holds(items, fav, later, action)
  {
  }

  /** The foreach run on no items fills each list with exactly its samples. */
  lemma PrefixFromEmpty(items: map<Id, MovieListItem>, fav: Id, later: Id, action: Id)
    requires Progress(map[], items, fav, later, action, |Samples|)
    ensures |items| == 9
    ensures TmdbIds(items, fav) == {550, 155, 13, 680, 27205}
    ensures TmdbIds(items, later) == {550, 155}
    ensures TmdbIds(items, action) == {155, 27205}
    ensures Created(|Samples|) == 9
  {
    SeededSets();
    TmdbIdsEmpty(fav);
    TmdbIdsEmpty(later);
    TmdbIdsEmpty(action);
  }

  /** What the samples put in each list, and how many rows that is. */
  lemma SeededSets()
    ensures FavouriteIds(|Samples|) == {550, 155, 13, 680, 27205}
    ensures WatchLaterIds(|Samples|) == {550, 155}
    ensures ActionListIds(|Samples|) == {155, 27205}
    ensures Created(|Samples|) == 9
  {
    assert |Samples| == 5;
    assert FirstIds(1) == {550};
    assert FirstIds(2) == {550, 155};
    assert FirstIds(3) == {550, 155, 13};
    assert FirstIds(4) == {550, 155, 13, 680};
    assert FirstIds(5) == {550, 155, 13, 680, 27205};
    assert Created(1) == 2;
    assert Created(2) == 5;
    assert Created(3) == 6;
    assert Created(4) == 7;
  }

  lemma ThreeRows(a: MovieList, b: MovieList, c: MovieList)
    ensures |map[0 := a, 1 := b, 2 := c]| == 3
  {
    assert map[0 := a, 1 := b, 2 := c].Keys == {0, 1, 2};
  }

  /**
   * `php artisan db:seed` twice on a fresh database: the first run creates one user,
   * three lists and nine items; the second finds every row and leaves all three tables
   * exactly as they were.
   */
  method SeedTwice(passwordHash: string, profileDefault: bool)
    returns (users: nat, lists: nat, items: nat, secondRunChanged: bool)
    ensures users == 1 && lists == 3 && items == 9
    ensures !secondRunChanged
  {
    var db := new Database();
    Run(db, passwordHash, profileDefault);
    var users1, lists1, items1 := db.users, db.lists, db.items;
    Run(db, passwordHash, profileDefault);
    users, lists, items := |db.users|, |db.lists|, |db.items|;
    secondRunChanged := db.users != users1 || db.lists != lists1 || db.items != items1;
  }
}
