/**
 * The Eloquent models MovieList and MovieListItem (and the User record they point
 * to): their columns, mass-assignment lists, query scopes and derived attributes.
 */
module Models {
  import opened Wrappers
  import opened Text

  /** Primary keys are auto-increment naturals. */
  type Id = nat

  /** A calendar date as a `date` column holds it; parsing text into a date is not modelled. */
  datatype Date = Date(year: nat, month: nat, day: nat)

  datatype User = User(
    name: string,
    email: string,
    passwordHash: string,
    bio: Option<string>,
    avatar: Option<string>,
    birthDate: Option<Date>,
    favoriteGenre: Option<string>,
    isPublicProfile: bool)

  /** A row of `movie_lists`; `createdAt`/`updatedAt` are ticks of the store clock. */
  datatype MovieList = MovieList(
    userId: Id,
    name: string,
    description: Option<string>,
    isPublic: bool,
    createdAt: nat,
    updatedAt: nat)

  /**
   * A row of `movie_list_items`: a snapshot of the movie taken when it was added.
   * `voteAverage` is held in tenths, the one decimal place of its column.
   */
  datatype MovieListItem = MovieListItem(
    listId: Id,
    tmdbMovieId: int,
    title: string,
    posterPath: Option<string>,
    overview: Option<string>,
    releaseDate: Option<Date>,
    voteAverage: Option<int>,
    userNotes: Option<string>,
    createdAt: nat,
    updatedAt: nat)

  // ---------------------------------------------------------------- mass assignment

  const ListFillable: set<string> := {"user_id", "name", "description", "is_public"}

  const ItemFillable: set<string> := {
    "movie_list_id", "tmdb_movie_id", "movie_title", "movie_poster_path",
    "movie_overview", "movie_release_date", "movie_vote_average", "user_notes"}

  /** Mass assignment keeps only the fillable attributes and drops the rest silently. */
  function Fill<V>(attrs: map<string, V>, fillable: set<string>): (r: map<string, V>)
    ensures r.Keys == attrs.Keys * fillable
    ensures forall k :: k in r ==> r[k] == attrs[k]
  {
    map k | k in attrs && k in fillable :: attrs[k]
  }

  /** `MovieList::create($attrs)`: the key and the timestamps never come from input. */
  function FillList<V>(attrs: map<string, V>): (r: map<string, V>)
    ensures r.Keys <= ListFillable
    ensures "id" !in r && "created_at" !in r && "updated_at" !in r
    ensures forall k :: k in attrs && k in ListFillable ==> k in r && r[k] == attrs[k]
  {
    Fill(attrs, ListFillable)
  }

  /** `MovieListItem::create($attrs)`: only the eight item columns are assignable. */
  function FillItem<V>(attrs: map<string, V>): (r: map<string, V>)
    ensures r.Keys <= ItemFillable && |r.Keys| <= 8
    ensures "id" !in r && "created_at" !in r && "updated_at" !in r
    ensures forall k :: k in attrs && k in ItemFillable ==> k in r && r[k] == attrs[k]
  {
    assert |ItemFillable| == 8;
    SubsetCard(attrs.Keys * ItemFillable, ItemFillable);
    Fill(attrs, ItemFillable)
  }

  lemma SubsetCard<T>(a: set<T>, b: set<T>)
    requires a <= b
    ensures |a| <= |b|
  {
    assert b == a + (b - a);
  }

  // ---------------------------------------------------------------- scopes

  /** `scopePublic`: the lists whose is_public flag is set. */
  function ScopePublic(lists: map<Id, MovieList>): (r: map<Id, MovieList>)
    ensures forall id :: id in r <==> id in lists && lists[id].isPublic
    ensures forall id :: id in r ==> r[id] == lists[id]
  {
    map id | id in lists && lists[id].isPublic :: lists[id]
  }

  /** `scopeOwnedBy($u)`: the lists whose user_id is u. */
  function ScopeOwnedBy(lists: map<Id, MovieList>, u: Id): (r: map<Id, MovieList>)
    ensures forall id :: id in r <==> id in lists && lists[id].userId == u
    ensures forall id :: id in r ==> r[id] == lists[id]
  {
    map id | id in lists && lists[id].userId == u :: lists[id]
  }

  // ---------------------------------------------------------------- items of a list

  /** The `items` relation of list l: the item rows whose movie_list_id is l. */
  function ItemsOf(items: map<Id, MovieListItem>, l: Id): (r: map<Id, MovieListItem>)
    ensures forall i :: i in r <==> i in items && items[i].listId == l
    ensures forall i :: i in r ==> r[i] == items[i]
  {
    map i | i in items && items[i].listId == l :: items[i]
  }

  /** `getItemsCountAttribute`: how many items list l has. */
  function ItemsCount(items: map<Id, MovieListItem>, l: Id): (n: nat)
    ensures n <= |items|
    ensures n == 0 <==> forall i :: i in items ==> items[i].listId != l
  {
    var r := ItemsOf(items, l);
    SubsetCard(r.Keys, items.Keys);
    assert r == map[] <==> r.Keys == {};
    |r|
  }

  /** Inserting a row adds one to the count of its own list and to no other. */
  lemma ItemsCountInsert(items: map<Id, MovieListItem>, k: Id, it: MovieListItem, l: Id)
    requires k !in items
    ensures ItemsCount(items[k := it], l) == ItemsCount(items, l) + (if it.listId == l then 1 else 0)
  {
    if it.listId == l {
      assert ItemsOf(items[k := it], l) == ItemsOf(items, l)[k := it];
    } else {
      assert ItemsOf(items[k := it], l) == ItemsOf(items, l);
    }
  }

  /** Deleting a row takes one from the count of its own list and from no other. */
  lemma ItemsCountRemove(items: map<Id, MovieListItem>, k: Id, l: Id)
    requires k in items
    ensures ItemsCount(items - {k}, l) == ItemsCount(items, l) - (if items[k].listId == l then 1 else 0)
  {
    if items[k].listId == l {
      assert ItemsOf(items - {k}, l) == ItemsOf(items, l) - {k};
    } else {
      assert ItemsOf(items - {k}, l) == ItemsOf(items, l);
    }
  }

  /** Rewriting a row in place, keeping its list, changes no count. */
  lemma ItemsCountRewrite(items: map<Id, MovieListItem>, k: Id, it: MovieListItem, l: Id)
    requires k in items && it.listId == items[k].listId
    ensures ItemsCount(items[k := it], l) == ItemsCount(items, l)
  {
    if it.listId == l {
      assert ItemsOf(items[k := it], l).Keys == ItemsOf(items, l).Keys;
    } else {
      assert ItemsOf(items[k := it], l) == ItemsOf(items, l);
    }
  }

  /** The ON DELETE CASCADE of `movie_list_items.movie_list_id`: list l's rows go with it. */
  function Cascade(items: map<Id, MovieListItem>, l: Id): (r: map<Id, MovieListItem>)
    ensures forall i :: i in r <==> i in items && items[i].listId != l
    ensures forall i :: i in r ==> r[i] == items[i]
  {
    map i | i in items && items[i].listId != l :: items[i]
  }

  /** After the cascade list l has no items and every other list keeps all of its own. */
  lemma CascadeCounts(items: map<Id, MovieListItem>, l: Id, other: Id)
    ensures ItemsCount(Cascade(items, l), l) == 0
    ensures other != l ==> ItemsCount(Cascade(items, l), other) == ItemsCount(items, other)
  {
    assert ItemsOf(Cascade(items, l), l) == map[];
    if other != l {
      assert ItemsOf(Cascade(items, l), other) == ItemsOf(items, other);
    }
  }

  // ---------------------------------------------------------------- derived attributes

  const PosterBase: string := "https://image.tmdb.org/t/p/w500"

  /** `getPosterUrlAttribute`: the w500 image URL when the path is PHP-truthy, otherwise null. */
  function PosterUrl(posterPath: Option<string>): (r: Option<string>)
    ensures r.Some? <==> Truthy(posterPath)
    ensures r.Some? ==>
      && |r.value| == |PosterBase| + |posterPath.value|
      && r.value[..|PosterBase|] == PosterBase
      && r.value[|PosterBase|..] == posterPath.value
  {
    if Truthy(posterPath) then Some(PosterBase + posterPath.value) else None
  }

  function Pow10(k: nat): nat {
    if k == 0 then 1 else 10 * Pow10(k - 1)
  }

  lemma {:induction false} ShortNumber(n: nat, k: nat)
    requires 1 <= k && n < Pow10(k)
    ensures |NatToString(n)| <= k
  {
    if n >= 10 {
      assert Pow10(1) == 10;
      assert k != 1;
      ShortNumber(n / 10, k - 1);
    }
  }

  lemma ShortYear(y: nat)
    ensures y <= 9999 ==> |NatToString(y)| <= 4
  {
    if y <= 9999 {
      assert Pow10(4) == 10000;
      ShortNumber(y, 4);
    }
  }

  /** PHP's date format 'Y': the year in decimal, zero-padded to at least four digits. */
  function YearText(y: nat): (r: string)
    ensures AllDigits(r) && 4 <= |r|
    ensures ParseDigits(r) == y
    ensures y <= 9999 ==> |r| == 4
  {
    var s := NatToString(y);
    ParseNatToString(y);
    ShortYear(y);
    if |s| < 4 then
      ParseLeadingZeros(4 - |s|, s);
      Zeros(4 - |s|) + s
    else s
  }

  /** `getReleaseYearAttribute`: the year of the release date, or null without a date. */
  function ReleaseYear(releaseDate: Option<Date>): (r: Option<string>)
    ensures r.Some? <==> releaseDate.Some?
    ensures r.Some? ==> AllDigits(r.value) && ParseDigits(r.value) == releaseDate.value.year
    ensures r.Some? && releaseDate.value.year <= 9999 ==> |r.value| == 4
  {
    match releaseDate
    case None => None
    case Some(d) => Some(YearText(d.year))
  }

  // ---------------------------------------------------------------- the decimal:1 cast

  /** The `decimal:1` cast renders a vote held in tenths with exactly one fractional digit. */
  function VoteText(tenths: int): (r: string)
    ensures 3 <= |r| && r[|r| - 2] == '.' && IsDigit(r[|r| - 1])
    ensures r[0] == '-' <==> tenths < 0
    ensures DigitValue(r[|r| - 1]) == (if tenths < 0 then -tenths else tenths) % 10
  {
    var a: nat := if tenths < 0 then -tenths else tenths;
    (if tenths < 0 then "-" else "") + NatToString(a / 10) + "." + [Digit(a % 10)]
  }

  /** Reads a decimal with one fractional digit back into tenths. */
  function ParseTenths(s: string): Option<nat> {
    if 3 <= |s| && s[|s| - 2] == '.' && AllDigits(s[..|s| - 2]) && IsDigit(s[|s| - 1]) then
      Some(ParseDigits(s[..|s| - 2]) * 10 + DigitValue(s[|s| - 1]))
    else None
  }

  function ParseVote(s: string): Option<int> {
    var negative := 0 < |s| && s[0] == '-';
    match ParseTenths(if negative then s[1..] else s)
    case Some(t) => var v: int := t; Some(if negative then -v else v)
    case None => None
  }

  /** The cast loses nothing: the rendered vote reads back as the stored tenths. */
  lemma VoteTextRoundTrip(tenths: int)
    ensures ParseVote(VoteText(tenths)) == Some(tenths)
  {
    var a: nat := if tenths < 0 then -tenths else tenths;
    var u := NatToString(a / 10) + "." + [Digit(a % 10)];
    assert u[..|u| - 2] == NatToString(a / 10);
    ParseNatToString(a / 10);
    assert ParseTenths(u) == Some(a);
    if tenths < 0 {
      assert VoteText(tenths) == "-" + u;
      assert VoteText(tenths)[1..] == u;
    } else {
      assert VoteText(tenths) == u;
      assert u[0] != '-';
    }
  }
}
