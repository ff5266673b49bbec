# Movie lists backend — a Dafny model

This project models the core of a Laravel backend for movie lists. It covers:

- **The list and item store.** The `movie_lists` and `movie_list_items` tables and their
  users live in the class `Schema.Database`: maps from auto-increment ids to rows, the id
  counters, and a clock that stamps `created_at`/`updated_at`. The constraints of the
  `movie_list_items` migration are the object invariant `Valid()`:
  - the foreign key, with its `ON DELETE CASCADE`;
  - the unique `(movie_list_id, tmdb_movie_id)` pair;
  - `INT` and `VARCHAR(255)` widths, and `decimal(3,1)` for the vote, taken as limits the
    store enforces (see "## Left out").

  `Valid()` also requires that every list has an owner, that user emails are unique, and
  that creation ticks grow with the id. `movie_title` and `tmdb_movie_id` are plain
  fields, while the nullable columns are `Option`s. `is_public` is a `bool`, and every
  row names exactly one parent.
- **MovieListController.** The reads `index`, `publicLists` and `show` are functions over
  the tables. The writes `store`, `update`, `destroy`, `addMovie`, `removeMovie` and
  `updateMovieNotes` are methods that change the database. Each write states its status
  code, its new tables, and that nothing changes on any failure. The controller's two
  quirks are kept:
  - `findOrFail` inside the generic `catch` turns a missing or foreign list into 500,
    except in `show`, which answers 404;
  - `addMovie` asks TMDB for the movie before it checks for a duplicate.
- **The models.** This covers the fillable lists, the `public`/`ownedBy` scopes and
  `items_count`. It also covers `poster_url`, `release_year` and the `decimal:1` cast
  (votes are held in tenths).
  The controllers' writes build their rows directly. `store` sets only the four columns
  `FillList` admits, and `addMovie` sets only the eight `FillItem` admits. The fillable
  lists therefore state which columns those writes may set; they are not a separate step
  of the writes.
- **TmdbService and MovieController.** The query parameters each TMDB request carries are
  built step by step, as the source builds them. Filters are copied only when present. A
  reply counts only on status 200. The controller defaults `page` to 1 and
  `time_window` to `week`, and refuses a falsy `q` with 400.
- **UserProfileController.** The own profile, its update (validation, avatar replacement on
  a set of stored paths, `is_public_profile` defaulting to true), the password change
  against an abstract `Hash::check`, avatar removal, and the two public pages.
- **Validacao.** The cached authenticated user, and the `success`/`message`/`data`/`errors`
  envelopes.
- **MovieListSeeder.** The user, the three lists and the `foreach` over five sample
  movies, all through `firstOrCreate`. It is proved that a run on an empty database
  yields one user, three lists and nine items with exactly the intended movies per list.
  It is also proved that a run on a database that already holds them changes nothing, so
  seeding twice is the same as seeding once.

The authenticated user, TMDB, the password hasher, `time()` and today's date are all
parameters of the operations that use them.

## Model

| member | source | states |
|---|---|---|
| Models.Fill | backend/app/Models/MovieList.php:14-19 | mass assignment keeps exactly the given attributes that are fillable, with their values |
| Models.FillList | backend/app/Models/MovieList.php:14-19 | only user_id, name, description and is_public are assignable; id and the timestamps never come from input |
| Models.FillItem | backend/app/Models/MovieListItem.php:13-22 | at most the eight item columns are assignable, each kept as given; id and the timestamps never are |
| Models.ScopePublic | backend/app/Models/MovieList.php:55-58 | keeps exactly the lists whose is_public is true, unchanged |
| Models.ScopeOwnedBy | backend/app/Models/MovieList.php:63-66 | keeps exactly the lists whose user_id is the given user, unchanged |
| Models.ItemsOf | backend/app/Models/MovieList.php:39-42 | the items relation is exactly the rows whose movie_list_id is the list |
| Models.ItemsCount | backend/app/Models/MovieList.php:47-50 | items_count is at most the number of rows, and zero exactly when no row belongs to the list |
| Models.ItemsCountInsert | backend/app/Models/MovieList.php:47-50 | inserting a row raises items_count of its own list by one and of no other list |
| Models.ItemsCountRemove | backend/app/Models/MovieList.php:47-50 | deleting a row lowers items_count of its own list by one and of no other list |
| Models.ItemsCountRewrite | backend/app/Models/MovieList.php:47-50 | rewriting a row within its list changes no items_count |
| Models.Cascade | backend/database/migrations/2025_07_17_014004_create_movie_list_items_table.php:16 | the cascade removes exactly the rows of the deleted list and keeps every other row unchanged |
| Models.CascadeCounts | backend/database/migrations/2025_07_17_014004_create_movie_list_items_table.php:16 | after the cascade the deleted list counts no items and every other list keeps its count |
| Models.PosterUrl | backend/app/Models/MovieListItem.php:43-48 | a URL exactly when the path is PHP-truthy, and then it is the w500 base followed by the path |
| Models.YearText | backend/app/Models/MovieListItem.php:53-58 | format 'Y' gives at least four digits that read back as the year, exactly four for years up to 9999 |
| Models.ReleaseYear | backend/app/Models/MovieListItem.php:53-58 | a year exactly when a date is set; its digits read back as the date's year, four of them for years up to 9999 |
| Models.VoteText | backend/app/Models/MovieListItem.php:24-30 | the decimal:1 rendering has exactly one digit after the point, that digit is the tenths digit, and a minus sign exactly for negative votes |
| Models.VoteTextRoundTrip | backend/app/Models/MovieListItem.php:24-30 | the one-decimal rendering of a vote reads back as the stored tenths, negative votes included |
| Schema.Database.constructor | backend/database/migrations/2025_07_17_014004_create_movie_list_items_table.php:12-27 | a freshly migrated database is empty and meets every constraint |
| Schema.InsertKeepsConsistent | backend/database/migrations/2025_07_17_014004_create_movie_list_items_table.php:14-27 | inserting a fitting row for a movie its existing list lacks, at the next id, keeps the foreign key, uniqueness and widths |
| Schema.RewriteKeepsConsistent | backend/database/migrations/2025_07_17_014004_create_movie_list_items_table.php:14-27 | rewriting a row within its list and movie keeps every constraint |
| Schema.UserRewriteKeepsConsistent | backend/app/Http/Controllers/UserProfileController.php:88-95 | rewriting a user's record with the same email keeps every constraint |
| Schema.ItemIds | backend/app/Models/MovieList.php:39-42 | the ids of a list's items, each exactly once, ascending, as many as items_count |
| Text.ParseInt | backend/app/Services/TmdbService.php:25 | only a plain decimal integer is accepted, and a digit string is read as its value |
| Text.ParseIntToString | backend/app/Services/TmdbService.php:25 | every integer's decimal rendering is read back as that integer |
| TmdbService.Decode | backend/app/Services/TmdbService.php:42-46 | a fetch yields the body exactly when the reply has status 200, and fails otherwise |
| TmdbService.PopularMovies | backend/app/Services/TmdbService.php:25-47 | GET /movie/popular with exactly page and language=pt-BR |
| TmdbService.MovieDetails | backend/app/Services/TmdbService.php:52-71 | GET /movie/{id} with only language=pt-BR |
| TmdbService.Genres | backend/app/Services/TmdbService.php:180-200 | GET /genre/movie/list with only language=pt-BR |
| TmdbService.TrendingMovies | backend/app/Services/TmdbService.php:205-223 | the time window is a path segment; exactly language and page are sent |
| TmdbService.TopRatedMovies | backend/app/Services/TmdbService.php:228-247 | GET /movie/top_rated with exactly language and page |
| TmdbService.SearchMovies | backend/app/Services/TmdbService.php:76-121 | api_key, language, query, page and include_adult=false always; each of the five filters renamed and sent exactly when set; nothing else |
| TmdbService.DiscoverMovies | backend/app/Services/TmdbService.php:126-175 | the fixed parameters, sort_by defaulting to popularity.desc, each of six filters renamed and sent exactly when set; nothing else |
| TmdbService.SearchQueryUnique | backend/app/Services/TmdbService.php:78-105 | the search parameters are determined by the inputs: two queries meeting the rules are equal |
| TmdbService.DiscoverQueryUnique | backend/app/Services/TmdbService.php:128-159 | the discover parameters are determined by the inputs |
| TmdbService.ImageUrl | backend/app/Services/TmdbService.php:252-255 | the URL is the image base, a slash, the size, then the path, in that order and nothing else |
| TmdbService.ImageUrlInjective | backend/app/Services/TmdbService.php:252-255 | different paths of one size give different URLs |
| TmdbService.PosterUrlIsImageUrl | backend/app/Models/MovieListItem.php:43-48 | an item's poster_url is the gateway's default-size image URL of its path |
| MovieController.QueryOr | backend/app/Http/Controllers/MovieController.php:24 | the default applies only when the key is absent; a present null stays null |
| MovieController.PageOf | backend/app/Http/Controllers/MovieController.php:24 | page is 1 when absent, the integer it spells when it spells one within PHP's integer range, and otherwise no page (the call fails) |
| MovieController.PageRoundTrip | backend/app/Http/Controllers/MovieController.php:24-25 | a page written as an integer within PHP's integer range reaches the gateway unchanged |
| MovieController.Relay | backend/app/Http/Controllers/MovieController.php:21-34 | the reply is 200 with TMDB's body exactly when the fetch succeeds, otherwise 500 with no body |
| MovieController.ForwardsIsForwarded | backend/app/Http/Controllers/MovieController.php:69-84 | a filter map that copies exactly the present keys is the unique such map |
| MovieController.Popular | backend/app/Http/Controllers/MovieController.php:21-34 | a bad page is 500 with nothing sent; otherwise the popular request for that page, relayed |
| MovieController.Show | backend/app/Http/Controllers/MovieController.php:39-51 | asks TMDB for /movie/{id} with only language=pt-BR and relays it: 200 with TMDB's body exactly when the fetch succeeds, otherwise 500 with no body |
| MovieController.SearchFilters | backend/app/Http/Controllers/MovieController.php:69-84 | the filters hold exactly those of the five names present in the query, with the query's values |
| MovieController.Search | backend/app/Http/Controllers/MovieController.php:56-95 | a falsy q is 400 and nothing is sent; a bad page is 500; otherwise the search request built from q, page and the present filters, relayed |
| MovieController.DiscoverFilters | backend/app/Http/Controllers/MovieController.php:106-127 | the filters hold exactly those of the seven names present in the query, with the query's values |
| MovieController.Discover | backend/app/Http/Controllers/MovieController.php:100-138 | a bad page is 500; otherwise the discover request built from page and the present filters, relayed |
| MovieController.Trending | backend/app/Http/Controllers/MovieController.php:143-158 | window defaults to week and page to 1; a null window or bad page is 500; otherwise that trending request, relayed |
| MovieController.TopRated | backend/app/Http/Controllers/MovieController.php:163-176 | a bad page is 500; otherwise the top-rated request for that page, relayed |
| MovieController.ListGenres | backend/app/Http/Controllers/MovieController.php:181-193 | the genre list request, relayed |
| MovieListController.Summary | backend/app/Http/Controllers/MovieListController.php:33-42 | an index entry carries the list's columns and its items_count |
| MovieListController.OwnedIds | backend/app/Http/Controllers/MovieListController.php:30-32 | exactly the requester's lists, in id order |
| MovieListController.Index | backend/app/Http/Controllers/MovieListController.php:26-54 | one summary per list of the requester and no other |
| MovieListController.PublicEntry | backend/app/Http/Controllers/MovieListController.php:66-74 | a public entry carries the list's columns, its owner's name and its items_count |
| MovieListController.PublicIds | backend/app/Http/Controllers/MovieListController.php:62-65 | exactly the public lists, latest id first |
| MovieListController.PublicLists | backend/app/Http/Controllers/MovieListController.php:59-86 | one entry per public list and no other |
| MovieListController.PublicListsNewestFirst | backend/app/Http/Controllers/MovieListController.php:62-65 | on a valid store publicLists is in strictly descending created_at order |
| MovieListController.ViewItems | backend/app/Http/Controllers/MovieListController.php:149-163 | one rendered item per id, in the given order |
| MovieListController.Show | backend/app/Http/Controllers/MovieListController.php:130-174 | 200 exactly when the list exists and is the requester's or public, otherwise 404 with no data; the list's id, name, description, is_public, owner name and timestamps; is_owner holds exactly for the owner; all of the list's items and only those, each once, in ascending id order |
| MovieListController.Revise | backend/app/Http/Controllers/MovieListController.php:198-202 | update writes name, description and is_public (absent means false); owner and created_at stay; updated_at moves only on a real change |
| MovieListController.Snapshot | backend/app/Http/Controllers/MovieListController.php:273-282 | the new item copies TMDB's title, poster, overview, date and vote, and the request's notes |
| MovieListController.Store | backend/app/Http/Controllers/MovieListController.php:91-125 | 422 and no change on invalid input; otherwise 201 and one new list at the next id, owned by the requester, private unless asked |
| MovieListController.Update | backend/app/Http/Controllers/MovieListController.php:179-214 | 422 on invalid input, 500 for a missing or foreign list, both with no change; otherwise only that list is revised |
| MovieListController.Destroy | backend/app/Http/Controllers/MovieListController.php:219-236 | the owner's list goes with all its items and nothing else; otherwise 500 and no change |
| MovieListController.AddMovie | backend/app/Http/Controllers/MovieListController.php:241-294 | 422, 500 (not owned), 500 (TMDB failed, even for a duplicate), 409 (duplicate), 500 (row does not fit), else 201 and exactly one new snapshot row; no change on any failure |
| MovieListController.RemoveMovie | backend/app/Http/Controllers/MovieListController.php:299-319 | only an item of the requester's list, addressed through that list, is deleted; otherwise 500 and no change |
| MovieListController.WithNotes | backend/app/Http/Controllers/MovieListController.php:344-346 | only user_notes changes, and updated_at when the notes differ |
| MovieListController.UpdateMovieNotes | backend/app/Http/Controllers/MovieListController.php:324-358 | 422 for notes over 1000 characters, 500 for an item outside the requester's list, no change either way; otherwise only that item's notes |
| UserProfileController.AvatarName | backend/app/Http/Controllers/UserProfileController.php:83 | the name is the time, an underscore, the user id, a dot and the client extension |
| UserProfileController.AvatarNameInjective | backend/app/Http/Controllers/UserProfileController.php:83 | two avatar names are equal only for the same second, user and extension |
| UserProfileController.Edited | backend/app/Http/Controllers/UserProfileController.php:88-95 | every editable column from the request, is_public_profile defaulting to true; email and password kept |
| UserProfileController.WithoutAvatar | backend/app/Http/Controllers/UserProfileController.php:78-80 | removes the avatar's file when the name is truthy, and nothing else |
| UserProfileController.Profile | backend/app/Http/Controllers/UserProfileController.php:23-48 | the requester's own columns, and never the password hash |
| UserProfileController.UpdateProfile | backend/app/Http/Controllers/UserProfileController.php:53-117 | 422 and nothing touched when a rule fails; otherwise only the requester's record changes; the avatar is kept without an upload, and with one the old file is replaced by the new |
| UserProfileController.ChangePassword | backend/app/Http/Controllers/UserProfileController.php:122-159 | 200 exactly when the request is valid and the current password matches; then only the hash changes; otherwise 422 and no change |
| UserProfileController.DeleteAvatar | backend/app/Http/Controllers/UserProfileController.php:265-285 | always 200; the avatar column becomes null and its file goes when the name was truthy |
| UserProfileController.UserPublicIds | backend/app/Http/Controllers/UserProfileController.php:233-235 | exactly the user's public lists, in id order |
| UserProfileController.Card | backend/app/Http/Controllers/UserProfileController.php:192-197 | a card carries the list's id, name, description, items_count and created_at |
| UserProfileController.Recents | backend/app/Http/Controllers/UserProfileController.php:198-204 | one recent-movie entry per given item, in order |
| UserProfileController.PublicCard | backend/app/Http/Controllers/UserProfileController.php:191-205 | at most five recent movies, fewer only when the list has fewer; they are the list's first items in id order |
| UserProfileController.PublicProfile | backend/app/Http/Controllers/UserProfileController.php:164-215 | 404 unless the user exists with a public profile; otherwise their public columns and one card per public list |
| UserProfileController.UserPublicLists | backend/app/Http/Controllers/UserProfileController.php:220-260 | 404 unless the user exists with a public profile; otherwise one card per public list and the user's name |
| UserProfileController.PublicPagesAgree | backend/app/Http/Controllers/UserProfileController.php:236-243 | both public pages agree on visibility and show the same lists with the same cards |
| ApiRest.Validacao.constructor | backend/app/Http/ApiRest/Validacao.php:11 | no user is cached at first |
| ApiRest.Validacao.GetUser | backend/app/Http/ApiRest/Validacao.php:16-23 | a cached user is kept; otherwise the request's answer is taken, and a null answer leaves nothing cached |
| ApiRest.Validacao.IsAuthenticated | backend/app/Http/ApiRest/Validacao.php:28-31 | true exactly when getUser finds a user |
| ApiRest.Validacao.RequireAuth | backend/app/Http/ApiRest/Validacao.php:36-46 | null exactly when authenticated, otherwise the 401 envelope with success false |
| ApiRest.Validacao.GetUserId | backend/app/Http/ApiRest/Validacao.php:51-55 | the resolved user's id, or null |
| ApiRest.ResolveTwice | backend/app/Http/ApiRest/Validacao.php:16-23 | once a user is resolved, later request answers do not change the id; before that each call asks again |
| ApiRest.SuccessResponse | backend/app/Http/ApiRest/Validacao.php:60-72 | success true, the message, a data key exactly when data is not null (data defaults to null), and the given status |
| ApiRest.DefaultSuccess | backend/app/Http/ApiRest/Validacao.php:60-72 | with every argument defaulted the envelope is status 200 with success true, the default message and no data key |
| ApiRest.ErrorResponse | backend/app/Http/ApiRest/Validacao.php:77-89 | success false, the message, an errors key exactly when errors is not null, and the given status |
| ApiRest.UnauthorizedResponse | backend/app/Http/ApiRest/Validacao.php:94-100 | always 401 with success false and the message, nothing else |
| ApiRest.NotFoundResponse | backend/app/Http/ApiRest/Validacao.php:105-111 | always 404 with success false and the message, nothing else |
| MovieListSeeder.FirstUser | backend/database/seeders/MovieListSeeder.php:20-26 | the lookup finds a user with the email, or proves there is none |
| MovieListSeeder.FirstList | backend/database/seeders/MovieListSeeder.php:29-38 | the lookup finds a list of the user with the name, or proves there is none |
| MovieListSeeder.FirstOrCreateUser | backend/database/seeders/MovieListSeeder.php:20-26 | an existing user is returned and nothing changes; otherwise exactly one user is inserted at the next id |
| MovieListSeeder.FirstOrCreateList | backend/database/seeders/MovieListSeeder.php:29-38 | an existing list is returned and nothing changes; otherwise exactly one list is inserted at the next id; no other lookup changes |
| MovieListSeeder.FirstOrCreateItem | backend/database/seeders/MovieListSeeder.php:109-117 | a movie already in the list changes nothing; otherwise exactly one row, the sample with the notes, is inserted at the next id |
| MovieListSeeder.FirstOrCreateIds | backend/database/seeders/MovieListSeeder.php:109-117 | either outcome keeps every row, adds the movie to that list only, and adds a row exactly when the list lacked the movie |
| MovieListSeeder.Put | backend/database/seeders/MovieListSeeder.php:109-117 | firstOrCreate of one item, stated as the movies each list holds and the rows it adds |
| MovieListSeeder.ComposeSample | backend/database/seeders/MovieListSeeder.php:108-143 | the three conditional calls add the sample to favourites, to action when it is an action id, and to watch-later for the first two |
| MovieListSeeder.ComposeCount | backend/database/seeders/MovieListSeeder.php:108-143 | the rows the three calls add sum to one per list that lacked the sample |
| MovieListSeeder.AddSample | backend/database/seeders/MovieListSeeder.php:108-143 | one pass of the foreach, by its effect on the three lists and the row count; nothing changes when the lists already hold the sample |
| MovieListSeeder.Pass | backend/database/seeders/MovieListSeeder.php:108-143 | one pass extends the loop invariant by one sample |
| MovieListSeeder.Advance | backend/database/seeders/MovieListSeeder.php:107-144 | the loop invariant holds for i + 1 after the pass for sample i |
| MovieListSeeder.PrefixStep | backend/database/seeders/MovieListSeeder.php:107-144 | after i samples each list holds what it held plus exactly its share of the first i samples |
| MovieListSeeder.PrefixCount | backend/database/seeders/MovieListSeeder.php:107-144 | from an empty table every pass adds one row per list the sample goes to |
| MovieListSeeder.SampleIdsDistinct | backend/database/seeders/MovieListSeeder.php:63-104 | the five sample ids are pairwise distinct |
| MovieListSeeder.SampleFresh | backend/database/seeders/MovieListSeeder.php:63-104 | a sample is in none of the sets its predecessors fill |
| MovieListSeeder.AlreadyThere | backend/database/seeders/MovieListSeeder.php:109-143 | on a complete store every pass finds its rows |
| MovieListSeeder.AddSamples | backend/database/seeders/MovieListSeeder.php:107-144 | the foreach leaves each list holding its samples, never rewrites a row, and changes nothing on a store that already holds them |
| MovieListSeeder.CreateUserAndLists | backend/database/seeders/MovieListSeeder.php:20-60 | the user and the three distinct lists exist afterwards; nothing changes if they did; from empty they are ids 0, 0, 1, 2 with the seeded columns |
| MovieListSeeder.CreateLists | backend/database/seeders/MovieListSeeder.php:29-60 | the three lists, favourites and action public and watch-later private, found or created in that order |
| MovieListSeeder.PrefixFromEmpty | backend/database/seeders/MovieListSeeder.php:107-144 | from no items the foreach yields nine rows: favourites holds all five movies, watch-later 550 and 155, action 155 and 27205 |
| MovieListSeeder.SeededSets | backend/database/seeders/MovieListSeeder.php:63-144 | which movies each list receives, and that this is nine rows |
| MovieListSeeder.Run | backend/database/seeders/MovieListSeeder.php:17-150 | the run leaves the store complete, never removes or rewrites a row, changes nothing on a complete store, and from empty yields 1 user, 3 lists and 9 items with the intended movies |
| MovieListSeeder.SeedTwice | backend/database/seeders/MovieListSeeder.php:17-150 | seeding a fresh database twice gives 1 user, 3 lists and 9 items, and the second run changes no table |

## Left out

- The frontend, the route table and DatabaseSeeder are not part of this model.
- The TMDB transport is an oracle: Guzzle, its headers, `json_decode`, and the unused
  cache key of getPopularMovies are not modelled.
- Guzzle's own throw on error statuses is not modelled separately: it fails the same way
  a non-200 reply does.
- `Hash::make` and `Hash::check` are parameters.
- `time()` and today's date are parameters.
- The public disk is a set of paths. File contents and a failing `storeAs` are left out.
- Date and number parsing is left out. The gateway hands `addMovie` a release date as
  (year, month, day) and a vote in tenths, so `strtotime`/`date('Y-m-d')` and the rounding
  of TMDB's float vote are not modelled. The `date` rule of updateProfile is an input
  that is a date, no date, or not a date.
- JSON rendering and error message texts are left out. MovieController replies carry a
  body only on success.
- User.php is not part of this model. The user columns used here are those the controllers
  read and write. `publicMovieLists` is taken as the user's lists with is_public set.
  `avatar_url` and the user's `created_at` are not modelled.
- The users table's migration is not part of this model. The unique email is an assumed
  constraint. The default of `is_public_profile` on creation is unknown, so the seeder
  takes it as a parameter.
- A query with no ORDER BY is taken to return rows in ascending id order.
- ApiRest.SuccessResponse: a status outside 100-599 is not modelled. The framework rejects
  it with an exception and builds no reply; the model returns a reply with that status.
- ApiRest.ErrorResponse: a status outside 100-599 is not modelled. The framework rejects
  it with an exception and builds no reply; the model returns a reply with that status.
- The store is assumed to reject a value that does not fit its column, as MySQL in strict
  mode does. On an engine that stores oversized values, such as SQLite, addMovie would
  answer 201 where the model answers 500 for a TMDB record that does not fit.
- Collation is not modelled: the firstOrCreate lookups of the seeder compare names and
  emails exactly, not case-insensitively.
- Auto-increment ids are numbered from 0 here, not from 1: a seed from an empty database
  gives the user id 0 and the lists ids 0, 1 and 2, where the database gives 1, 1, 2 and 3.
- Timestamps are ticks of a monotone counter, not wall-clock times.
- Concurrency and transactions are not modelled.
- The seeder's console output is not modelled.
- Auth middleware and `Auth::user()` are not modelled. The requester id is a parameter,
  and for Validacao the answer of `request()->user()` is a parameter.
- MovieController.PageOf: only a plain decimal integer (optional minus sign, then digits)
  within PHP's integer range is accepted as a page. PHP's coercive typing also accepts forms
  such as `+3`, `" 2"`, `"2 "` or `"2.0"`; those are treated here as failures (500).
- Request values are taken as they reach the controllers, after Laravel's TrimStrings and
  ConvertEmptyStringsToNull middleware. An untrimmed value, or an empty one other than
  null, cannot reach a controller. So `q="   "`, which becomes null and is refused with
  400, is not a separate case here, and list names and notes are stored as given.
