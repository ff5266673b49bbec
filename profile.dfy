/**
 * UserProfileController: the authenticated user's own profile (read, edit, change
 * password, drop avatar) and the public profile pages of other users. The public
 * disk holding avatars is the set of stored paths; the clock (`time()`), the
 * password hashing and today's date are parameters.
 */
module UserProfileController {
  import opened Wrappers
  import opened Http
  import opened Text
  import opened Tables
  import opened Models
  import opened Schema

  // ================================================================ the avatar disk

  /** The `public` storage disk: the paths of the files it holds. */
  class PublicDisk {
    var files: set<string>

    constructor (files: set<string>)
      ensures this.files == files
    {
      this.files := files;
    }
  }

  const AvatarDir: string := "avatars/"

  function AvatarPath(name: string): string {
    AvatarDir + name
  }

  /** The stored name of a new avatar: `time()`, underscore, user id, dot, the client's extension. */
  function AvatarName(now: nat, userId: Id, clientExtension: string): (name: string)
    ensures |name| == |NatToString(now)| + 1 + |NatToString(userId)| + 1 + |clientExtension|
    ensures name[..|NatToString(now)| + 1] == NatToString(now) + "_"
    ensures name[|name| - |clientExtension| - 1..] == "." + clientExtension
    ensures name[|NatToString(now)| + 1..|name| - |clientExtension| - 1] == NatToString(userId)
  {
    NatToString(now) + "_" + NatToString(userId) + "." + clientExtension
  }

  /** Digits never contain the separator `c`, so the first `c` in digits + [c] + rest ends the digits. */
  lemma {:induction false} SplitAtSeparator(d1: string, r1: string, d2: string, r2: string, c: char)
    requires AllDigits(d1) && AllDigits(d2) && !IsDigit(c)
    requires d1 + [c] + r1 == d2 + [c] + r2
    ensures d1 == d2 && r1 == r2
  {
    var s1, s2 := d1 + [c] + r1, d2 + [c] + r2;
    SeparatorFirst(d1, r1, c);
    SeparatorFirst(d2, r2, c);
    assert |d1| == |d2|;
    assert d1 == s1[..|d1|] == s2[..|d2|] == d2;
    assert r1 == s1[|d1| + 1..] == s2[|d2| + 1..] == r2;
  }

  lemma SeparatorFirst(d: string, r: string, c: char)
    requires AllDigits(d) && !IsDigit(c)
    ensures (d + [c] + r)[|d|] == c
    ensures forall i :: 0 <= i < |d| ==> (d + [c] + r)[i] != c
  {
  }

  /** Avatar names from different seconds, users or extensions never collide. */
  lemma AvatarNameInjective(t1: nat, u1: Id, e1: string, t2: nat, u2: Id, e2: string)
    requires AvatarName(t1, u1, e1) == AvatarName(t2, u2, e2)
    ensures t1 == t2 && u1 == u2 && e1 == e2
  {
    var rest1, rest2 := NatToString(u1) + "." + e1, NatToString(u2) + "." + e2;
    AvatarNameSplit(t1, u1, e1);
    AvatarNameSplit(t2, u2, e2);
    SplitAtSeparator(NatToString(t1), rest1, NatToString(t2), rest2, '_');
    SplitAtSeparator(NatToString(u1), e1, NatToString(u2), e2, '.');
    NatToStringInjective(t1, t2);
    NatToStringInjective(u1, u2);
  }

  lemma AvatarNameSplit(t: nat, u: Id, e: string)
    ensures AvatarName(t, u, e) == NatToString(t) + ['_'] + (NatToString(u) + ['.'] + e)
  {
  }

  lemma NatToStringInjective(a: nat, b: nat)
    requires NatToString(a) == NatToString(b)
    ensures a == b
  {
    ParseNatToString(a);
    ParseNatToString(b);
  }

  // ================================================================ requests

  /** An uploaded file: the extension guessed from its content, the client's own extension, its size. */
  datatype Upload = Upload(guessedExtension: string, clientExtension: string, bytes: nat)

  /** The avatar field: no file (absent or null), an uploaded file, or some other value. */
  datatype AvatarInput = NoFile | File(upload: Upload) | NotAFile

  /** The birth_date field: absent or null, a parsable date, or text that is not a date. */
  datatype DateInput = NoDate | OnDate(date: Date) | NotADate

  datatype ProfileRequest = ProfileRequest(
    name: Option<string>, bio: Option<string>, birthDate: DateInput,
    favoriteGenre: Option<string>, isPublicProfile: Flag, avatar: AvatarInput)

  /** Calendar order of dates. */
  predicate Before(a: Date, b: Date) {
    a.year < b.year
    || (a.year == b.year && a.month < b.month)
    || (a.year == b.year && a.month == b.month && a.day < b.day)
  }

  /** image|mimes:jpeg,png,jpg,gif|max:2048: one of four image types, at most 2048 KiB. */
  predicate ValidUpload(u: Upload) {
    u.guessedExtension in {"jpeg", "png", "jpg", "gif"} && u.bytes <= 2048 * 1024
  }

  /** The validation rules of updateProfile. */
  predicate ValidProfileRequest(req: ProfileRequest, today: Date) {
    && Required(req.name) && |req.name.value| <= 255
    && AtMost(req.bio, 1000)
    && !req.birthDate.NotADate?
    && (req.birthDate.OnDate? ==> Before(req.birthDate.date, today))
    && AtMost(req.favoriteGenre, 100)
    && !req.isPublicProfile.NotBoolean?
    && !req.avatar.NotAFile?
    && (req.avatar.File? ==> ValidUpload(req.avatar.upload))
  }

  /** The birth date the update writes: the request's, or null. */
  function BirthDateOf(d: DateInput): Option<Date> {
    if d.OnDate? then Some(d.date) else None
  }

  /**
   * The user after updateProfile: every editable column from the request (an absent field
   * clears its column), is_public_profile defaulting to true; email and password kept.
   */
  function Edited(u: User, req: ProfileRequest, avatar: Option<string>): (r: User)
    requires Required(req.name)
    ensures r.email == u.email && r.passwordHash == u.passwordHash
    ensures r.name == req.name.value && r.bio == req.bio && r.favoriteGenre == req.favoriteGenre
    ensures r.birthDate == BirthDateOf(req.birthDate)
    ensures r.isPublicProfile == FlagOr(req.isPublicProfile, true)
    ensures r.avatar == avatar
  {
    u.(name := req.name.value, bio := req.bio, birthDate := BirthDateOf(req.birthDate),
       favoriteGenre := req.favoriteGenre, isPublicProfile := FlagOr(req.isPublicProfile, true),
       avatar := avatar)
  }

  /** The disk after dropping an avatar: its file goes when the name is truthy. */
  function WithoutAvatar(files: set<string>, avatar: Option<string>): (r: set<string>)
    ensures r <= files
    ensures Truthy(avatar) ==> AvatarPath(avatar.value) !in r
    ensures files - r <= (if Truthy(avatar) then {AvatarPath(avatar.value)} else {})
  {
    if Truthy(avatar) then files - {AvatarPath(avatar.value)} else files
  }

  // ================================================================ own profile

  /** What `profile` shows: the user's columns, never the password hash. */
  datatype ProfileView = ProfileView(
    id: Id, name: string, email: string, avatar: Option<string>, bio: Option<string>,
    birthDate: Option<Date>, favoriteGenre: Option<string>, isPublicProfile: bool)

  /** `profile`: the requester's own record. */
  function Profile(users: map<Id, User>, requester: Id): (v: ProfileView)
    requires requester in users
    ensures v.id == requester
    ensures var u := users[requester];
      && v.name == u.name && v.email == u.email && v.avatar == u.avatar && v.bio == u.bio
      && v.birthDate == u.birthDate && v.favoriteGenre == u.favoriteGenre
      && v.isPublicProfile == u.isPublicProfile
  {
    var u := users[requester];
    ProfileView(requester, u.name, u.email, u.avatar, u.bio, u.birthDate, u.favoriteGenre, u.isPublicProfile)
  }

  /**
   * `updateProfile`: 422 and nothing touched when a rule fails; otherwise the record is
   * rewritten and, with an upload, the old avatar file is replaced by the new one.
   */
  method UpdateProfile(db: Database, disk: PublicDisk, requester: Id, req: ProfileRequest, today: Date, now: nat)
    returns (status: int)
    requires db.Valid() && requester in db.users
    modifies db, disk
    ensures db.Valid()
    ensures status == if ValidProfileRequest(req, today) then OK else UNPROCESSABLE
    ensures status != OK ==> unchanged(db) && unchanged(disk)
    ensures status == OK ==>
      var u := old(db.users[requester]);
      var avatar := if req.avatar.File? then Some(AvatarName(now, requester, req.avatar.upload.clientExtension)) else u.avatar;
      && db.users == old(db.users)[requester := Edited(u, req, avatar)]
      && db.lists == old(db.lists) && db.items == old(db.items)
      && db.nextUserId == old(db.nextUserId) && db.nextListId == old(db.nextListId)
      && db.nextItemId == old(db.nextItemId) && db.clock == old(db.clock)
    ensures status == OK && req.avatar.File? ==>
      disk.files == WithoutAvatar(old(disk.files), old(db.users[requester].avatar)) + {AvatarPath(db.users[requester].avatar.value)}
    ensures status == OK && !req.avatar.File? ==> disk.files == old(disk.files)
  {
    if !ValidProfileRequest(req, today) {
      return UNPROCESSABLE;
    }
    var u := db.users[requester];
    var avatarPath := u.avatar;
    if req.avatar.File? {
      if Truthy(u.avatar) && AvatarPath(u.avatar.value) in disk.files {
        disk.files := disk.files - {AvatarPath(u.avatar.value)};
      }
      var avatarName := AvatarName(now, requester, req.avatar.upload.clientExtension);
      disk.files := disk.files + {AvatarPath(avatarName)};
      avatarPath := Some(avatarName);
    }
    var edited := Edited(u, req, avatarPath);
    UserRewriteKeepsConsistent(db.users, db.lists, db.items, db.nextUserId, db.nextListId, db.nextItemId, db.clock, requester, edited);
    db.users := db.users[requester := edited];
    status := OK;
  }

  /** The body of changePassword. */
  datatype PasswordRequest = PasswordRequest(
    currentPassword: Option<string>, newPassword: Option<string>, confirmation: Option<string>)

  /** current_password: required|string; new_password: required|string|min:8|confirmed. */
  predicate ValidPasswordRequest(req: PasswordRequest) {
    && Required(req.currentPassword)
    && Required(req.newPassword) && |req.newPassword.value| >= 8
    && req.confirmation == req.newPassword
  }

  /**
   * `changePassword`: the new hash is stored only when the request is well formed and the
   * current password matches the stored hash (`matches` is Hash::check, `newHash` the
   * output of Hash::make on the new password).
   */
  method ChangePassword(
    db: Database, requester: Id, req: PasswordRequest,
    matches: (string, string) -> bool, newHash: string) returns (status: int)
    requires db.Valid() && requester in db.users
    modifies db
    ensures db.Valid()
    ensures status == OK <==>
      ValidPasswordRequest(req) && matches(req.currentPassword.value, old(db.users[requester].passwordHash))
    ensures status != OK ==> status == UNPROCESSABLE && unchanged(db)
    ensures status == OK ==>
      && db.users == old(db.users)[requester := old(db.users[requester]).(passwordHash := newHash)]
      && db.lists == old(db.lists) && db.items == old(db.items)
      && db.nextUserId == old(db.nextUserId) && db.nextListId == old(db.nextListId)
      && db.nextItemId == old(db.nextItemId) && db.clock == old(db.clock)
  {
    if !ValidPasswordRequest(req) {
      return UNPROCESSABLE;
    }
    var u := db.users[requester];
    if !matches(req.currentPassword.value, u.passwordHash) {
      return UNPROCESSABLE;
    }
    UserRewriteKeepsConsistent(db.users, db.lists, db.items, db.nextUserId, db.nextListId, db.nextItemId, db.clock, requester, u.(passwordHash := newHash));
    db.users := db.users[requester := u.(passwordHash := newHash)];
    status := OK;
  }

  /** `deleteAvatar`: the file goes (when the name is truthy) and the column is cleared; always 200. */
  method DeleteAvatar(db: Database, disk: PublicDisk, requester: Id) returns (status: int)
    requires db.Valid() && requester in db.users
    modifies db, disk
    ensures db.Valid()
    ensures status == OK
    ensures db.users == old(db.users)[requester := old(db.users[requester]).(avatar := None)]
    ensures db.lists == old(db.lists) && db.items == old(db.items)
    ensures db.nextUserId == old(db.nextUserId) && db.nextListId == old(db.nextListId)
    ensures db.nextItemId == old(db.nextItemId) && db.clock == old(db.clock)
    ensures disk.files == WithoutAvatar(old(disk.files), old(db.users[requester].avatar))
  {
    var u := db.users[requester];
    if Truthy(u.avatar) && AvatarPath(u.avatar.value) in disk.files {
      disk.files := disk.files - {AvatarPath(u.avatar.value)};
    }
    UserRewriteKeepsConsistent(db.users, db.lists, db.items, db.nextUserId, db.nextListId, db.nextItemId, db.clock, requester, u.(avatar := None));
    db.users := db.users[requester := u.(avatar := None)];
    status := OK;
  }

  // ================================================================ public pages

  /** A list as the public pages show it. */
  datatype ListCard = ListCard(id: Id, name: string, description: Option<string>, itemsCount: nat, createdAt: nat)

  /** One of a public list's first five movies. */
  datatype RecentMovie = RecentMovie(title: string, posterPath: Option<string>, voteAverage: Option<string>)

  datatype PublicListCard = PublicListCard(card: ListCard, recentMovies: seq<RecentMovie>)

  /** The body of publicProfile. */
  datatype PublicProfileView = PublicProfileView(
    id: Id, name: string, avatar: Option<string>, bio: Option<string>,
    favoriteGenre: Option<string>, publicLists: seq<PublicListCard>)

  /** The body of userPublicLists: the cards and who they belong to. */
  datatype UserListsView = UserListsView(lists: seq<ListCard>, userId: Id, userName: string)

  /** A profile that `where('is_public_profile', true)->first()` finds. */
  predicate PublicUser(users: map<Id, User>, userId: Id) {
    userId in users && users[userId].isPublicProfile
  }

  /** The user's public lists, in id order. */
  function UserPublicIds(lists: map<Id, MovieList>, userId: Id, bound: nat): (ids: seq<Id>)
    requires Below(lists, bound)
    ensures forall id :: id in ids <==> Owned(lists, userId, id) && lists[id].isPublic
    ensures forall j, k :: 0 <= j < k < |ids| ==> ids[j] < ids[k]
  {
    Ascending(ScopePublic(ScopeOwnedBy(lists, userId)), bound)
  }

  function Card(lists: map<Id, MovieList>, items: map<Id, MovieListItem>, id: Id): (c: ListCard)
    requires id in lists
    ensures c.id == id && c.name == lists[id].name && c.description == lists[id].description
    ensures c.itemsCount == ItemsCount(items, id) && c.createdAt == lists[id].createdAt
  {
    ListCard(id, lists[id].name, lists[id].description, ItemsCount(items, id), lists[id].createdAt)
  }

  function Recent(it: MovieListItem): RecentMovie {
    RecentMovie(it.title, it.posterPath, match it.voteAverage case Some(v) => Some(VoteText(v)) case None => None)
  }

  /** The cards of the given items, in the given order. */
  function Recents(items: map<Id, MovieListItem>, ids: seq<Id>): (r: seq<RecentMovie>)
    requires forall k :: 0 <= k < |ids| ==> ids[k] in items
    ensures |r| == |ids|
    ensures forall k :: 0 <= k < |ids| ==> r[k] == Recent(items[ids[k]])
  {
    if ids == [] then [] else [Recent(items[ids[0]])] + Recents(items, ids[1..])
  }

  /** A public list with `items->take(5)`: its first five items in id order, or all if fewer. */
  function PublicCard(lists: map<Id, MovieList>, items: map<Id, MovieListItem>, itemBound: nat, id: Id)
    : (c: PublicListCard)
    requires id in lists && Below(items, itemBound)
    ensures c.card == Card(lists, items, id)
    ensures |c.recentMovies| == if ItemsCount(items, id) < 5 then ItemsCount(items, id) else 5
    ensures var ids := ItemIds(items, id, itemBound);
      forall k :: 0 <= k < |c.recentMovies| ==>
        k < |ids| && ids[k] in items && items[ids[k]].listId == id && c.recentMovies[k] == Recent(items[ids[k]])
  {
    var ids := ItemIds(items, id, itemBound);
    PublicListCard(Card(lists, items, id), Recents(items, if |ids| < 5 then ids else ids[..5]))
  }

  /** `publicProfile`: 404 unless the user exists and is public; otherwise the public lists. */
  function PublicProfile(
    users: map<Id, User>, lists: map<Id, MovieList>, items: map<Id, MovieListItem>,
    listBound: nat, itemBound: nat, userId: Id): (r: Reply<PublicProfileView>)
    requires Below(lists, listBound) && Below(items, itemBound)
    ensures r.status == OK <==> PublicUser(users, userId)
    ensures r.status != OK ==> r.status == NOT_FOUND && r.data.None?
    ensures r.status == OK ==>
      && r.data.Some?
      && var v := r.data.value;
      && var u := users[userId];
      && v.id == userId && v.name == u.name && v.avatar == u.avatar && v.bio == u.bio
      && v.favoriteGenre == u.favoriteGenre
      && |v.publicLists| == |UserPublicIds(lists, userId, listBound)|
      && forall k :: 0 <= k < |v.publicLists| ==>
        var id := UserPublicIds(lists, userId, listBound)[k];
        id in lists && v.publicLists[k] == PublicCard(lists, items, itemBound, id)
  {
    if !PublicUser(users, userId) then Reply(NOT_FOUND, None)
    else
      var u := users[userId];
      var ids := UserPublicIds(lists, userId, listBound);
      var cards := seq(|ids|, k requires 0 <= k < |ids| => PublicCard(lists, items, itemBound, ids[k]));
      Reply(OK, Some(PublicProfileView(userId, u.name, u.avatar, u.bio, u.favoriteGenre, cards)))
  }

  /** `userPublicLists`: 404 unless the user exists and is public; otherwise their public lists. */
  function UserPublicLists(
    users: map<Id, User>, lists: map<Id, MovieList>, items: map<Id, MovieListItem>,
    listBound: nat, userId: Id): (r: Reply<UserListsView>)
    requires Below(lists, listBound)
    ensures r.status == OK <==> PublicUser(users, userId)
    ensures r.status != OK ==> r.status == NOT_FOUND && r.data.None?
    ensures r.status == OK ==>
      && r.data.Some?
      && r.data.value.userId == userId && r.data.value.userName == users[userId].name
      && |r.data.value.lists| == |UserPublicIds(lists, userId, listBound)|
      && forall k :: 0 <= k < |r.data.value.lists| ==>
        var id := UserPublicIds(lists, userId, listBound)[k];
        id in lists && r.data.value.lists[k] == Card(lists, items, id)
  {
    if !PublicUser(users, userId) then Reply(NOT_FOUND, None)
    else
      var ids := UserPublicIds(lists, userId, listBound);
      var cards := seq(|ids|, k requires 0 <= k < |ids| => Card(lists, items, ids[k]));
      Reply(OK, Some(UserListsView(cards, userId, users[userId].name)))
  }

  /** The two public pages agree: the profile's lists are the cards userPublicLists returns. */
  lemma PublicPagesAgree(
    users: map<Id, User>, lists: map<Id, MovieList>, items: map<Id, MovieListItem>,
    listBound: nat, itemBound: nat, userId: Id)
    requires Below(lists, listBound) && Below(items, itemBound)
    ensures var p := PublicProfile(users, lists, items, listBound, itemBound, userId);
      var l := UserPublicLists(users, lists, items, listBound, userId);
      && p.status == l.status
      && (p.status == OK ==>
          && |p.data.value.publicLists| == |l.data.value.lists|
          && forall k :: 0 <= k < |l.data.value.lists| ==> p.data.value.publicLists[k].card == l.data.value.lists[k])
  {
  }
}
