# DJConnect, modelled in Dafny

DJConnect lets guests at a party send song requests to the DJ in real time.

- The **Node/Express + Socket.IO server** (`server.js`) keeps the data in MongoDB:
  - parties, each owned by one DJ and holding an ordered list of song requests;
  - DJ accounts, with credentials, a reset token, a lifetime party counter, the guests' ratings and the active party.
  - Its handlers:
    - join a DJ to a party room;
    - store and broadcast new requests;
    - mark requests as played;
    - record ratings;
    - manage accounts and password resets;
    - compute the public ranking.
- The **browser scripts** cover:
  - the DJ dashboard (building a party id, keeping the live request list);
  - the guests' and the DJ's wishlist pages;
  - the registration page's password-strength bar;
  - the admin pages (DJ accounts, parties, wishlists, logo upload);
  - the install-prompt logic;
  - the choice of server URL.
- A **build script** (`add-pwa-tags.js`) inserts the installable-app tags into every HTML page.

This project models that logic and proves what each part promises. One Dafny module stands for each source file:

| module | models |
|---|---|
| `PartyModel`, `DjModel`, `WishlistModel` | the three Mongoose schemas, with their defaults, required fields and unique keys |
| `Server` | the shared state of `server.js` as a `class` |
| `Ranking` | the `/ranking` aggregation and sort |
| `DjDashboard` | `public/js/dj.js` |
| `GuestWishlist` | `public/js/wishlist.js` |
| `WishlistManager` | `public/js/wishlist-manager.js` |
| `PasswordStrength` | `public/js/register.js` |
| `AdminDjs`, `AdminParties`, `AdminWishlists`, `AdminSettings` | the four admin scripts |
| `PwaTags` | `add-pwa-tags.js` |
| `PwaInstall` | `public/js/pwa-install.js` |
| `ServerConfig` | `public/js/config.js` |

`Common` holds `Option`/`Result` and the JavaScript string operations the scripts use: `trim`, `\s`, `includes`, `indexOf`, `startsWith`, and `replace` of the first match.

The shared state of `server.js` works like this:
- parties keyed by `partyId`;
- accounts keyed by username;
- socket rooms mapping a party id to the connections that joined it;
- an outbox to which every `emit` is appended;
- a counter that hands out fresh ObjectIds.

Each handler is one atomic method. Each method's contract states the whole new state. The class invariant keeps these three things true:
- party keys and usernames are unique;
- emails and reset tokens are unique;
- every request id is unique and below the counter.

Some code changes module-level variables or the DOM step by step. Where it does, the model is a class whose methods do the same:
- the dashboard list;
- the loaded wishlists;
- the admin modal's `currentDJId`;
- the install-prompt state;
- the files the tag script rewrites.

The loops are `while` loops proved against a specification function:
- the dashboard's initial load;
- the tag script's run over the pages.

## Model

| member | source | states |
|---|---|---|
| PartyModel.NewSongRequest | partyModel.js:4-9 | a new request record is unplayed and carries the given id, title, artist and time |
| PartyModel.NewParty | partyModel.js:11-15 | a party created by the upsert has the requested key, its one owner and an empty request list |
| PartyModel.AtMostOnePartyPerId | partyModel.js:12 | the unique index on `partyId`, restated for the keyed store: two entries with the same `partyId` are the same entry (immediate from `KeyedById`) |
| DjModel.ParseRole | djModel.js:10 | a stored role is accepted exactly when it is `'dj'` or `'admin'`, and the parsed role names the same string |
| DjModel.RoleRoundTrip | djModel.js:10 | parsing the stored name of a role gives the role back |
| DjModel.NewRating | djModel.js:16-19 | a rating keeps its value and is dated at creation time |
| DjModel.NewDj | djModel.js:5-25 | a new account has role `'dj'`, `partyCount` 0, no ratings, no reset token, empty `activePartyIds`, `maxSimultaneousParties` 3 and no active party |
| WishlistModel.NewWishlistSong | wishlistModel.js:4-10 | a missing genre becomes `'Desconocido'`, a missing submitter `'Invitado'`; the other fields are kept |
| WishlistModel.NewWishlist | wishlistModel.js:12-21 | a new wishlist is active, has no songs, has an empty description unless one is given, and allows 3 songs per guest |
| WishlistModel.DefaultsFillSong | wishlistModel.js:5-8 | a song built with defaults has a non-empty genre and submitter, and validates exactly when title and artist are present |
| WishlistModel.RemoveSong | public/js/wishlist.js:45 | the result holds exactly the songs whose `_id` differs from the id, and is no longer than the input |
| WishlistModel.RemoveSongAppend | public/js/wishlist.js:45 | removal distributes over concatenation, so the kept songs stay in their order |
| WishlistModel.RemoveAbsentSong | public/js/wishlist-manager.js:45 | removing an id no song has changes nothing |
| Server.MarkPlayed | server.js:309-312 | the positional update marks the first request with the id as played and keeps every other request and the length |
| Server.MarkPlayedOnlyThatRequest | server.js:309-312 | with distinct ids, exactly the request with that id ends up played |
| Server.MarkPlayedUnknownId | server.js:309-312 | an id no request carries leaves the list unchanged |
| Server.MarkPlayedIdempotent | server.js:309-312 | marking the same id twice is the same as marking it once |
| Server.JoinKeepsOwner | server.js:254-258 | a join leaves an existing party exactly as it was, and otherwise creates one under the requested id, owned by the joining DJ, with no requests |
| Server.JoinKeepsPartyStoreValid | server.js:254-258 | the upsert keeps the store keyed by `partyId` and keeps request ids unique and below the id counter |
| Server.SameKeysKeepDjStoreValid | djModel.js:5-6 | updating an account without touching username, email or reset token keeps usernames, emails and tokens unique |
| Server.Server.Register | server.js:67-82 | refused exactly when an account already has the username or the email; on success the new account with schema defaults is stored, so both become taken; nothing else changes |
| Server.Server.ForgotPassword | server.js:102-124 | always replies success; an account with that email gets the fresh token and an expiry one hour from now; otherwise no account changes |
| Server.Server.ResetPassword | server.js:126-144 | succeeds exactly when an account holds the token with an expiry after now; then its password is replaced, token and expiry are cleared, and no account holds the token afterwards; otherwise nothing changes |
| Server.Server.ActiveParty | server.js:216-226 | 401 without a token, 403 for a token that does not verify, 404 for an unknown DJ, otherwise the DJ's `activePartyId` |
| Server.Server.EndParty | server.js:228-235 | the same 401/403 gate; for a verified DJ only that account's `activePartyId` is cleared, and parties, rooms and the outbox are untouched |
| Server.Server.JoinDjRoom | server.js:241-269 | no token: nothing changes; a token that fails: only `auth_error` to that socket; otherwise the socket joins the room, the party is upserted, the DJ's active party is set, `partyCount` rises by one exactly when the party has no requests, and the socket receives the party's requests |
| Server.Server.NuevaCancion | server.js:271-287 | one unplayed record with a fresh id, not held by any stored request, is appended at the end of that party's list and broadcast to the room; an unknown party stores nothing but still gets the broadcast |
| Server.Server.SubmitRating | server.js:289-304 | the rating, dated now, is appended to the ratings of the party's owner; an unknown party or owner changes nothing |
| Server.Server.MarkSongAsPlayed | server.js:306-318 | the party's list becomes `MarkPlayed` of it, and `song-was-played` is broadcast on every call |
| Server.ResetTokenIsSingleUse | server.js:129-139 | after a successful reset, a second reset with the same token fails at any later time |
| Server.JoinTwiceBeforeAnyRequest | server.js:254-262 | two joins to a party that has no requests raise the DJ's `partyCount` by two |
| Ranking.EntryOf | server.js:194-204 | a DJ's row has `totalRatings` equal to the number of ratings, and an average whose product with the count is the sum of the values, or the sentinel exactly when there are no ratings |
| Ranking.Insert | server.js:205-209 | inserting into a sorted ranking keeps it sorted and adds exactly that row |
| Ranking.Sort | server.js:205-209 | the result is sorted and is a permutation of the input |
| Ranking.Entries | server.js:194-204 | one row per DJ document, in order |
| Ranking.RankingOf | server.js:194-209 | a permutation of the DJs' rows in which every rated DJ precedes every unrated one and rated DJs are in descending order of average |
| Ranking.RankingRowsAreEntries | server.js:194-209 | every DJ has its row in the ranking and every row is some DJ's |
| Ranking.RankingAgreesWithComparator | server.js:205-209 | a rated row never stands before a row the route's comparator would place ahead of it |
| Ranking.RankingRoute | server.js:180-214 | 401 without a token, 403 for a token that does not verify, otherwise exactly the sorted ranking `RankingOf` of the DJ documents, one row per DJ |
| DjDashboard.ToLower | public/js/dj.js:58 | lower-cases each character in place and keeps the length |
| DjDashboard.DashSpaces | public/js/dj.js:58 | the result has no white space and is no longer than the input; a name without white space is returned unchanged |
| DjDashboard.KeepSlugChars | public/js/dj.js:58 | the result holds only a-z, 0-9 and '-', and every such character of the input occurs in it as often as in the input |
| DjDashboard.ToLowerOfSlug | public/js/dj.js:58 | lower-casing a slug changes nothing |
| DjDashboard.DashSpacesKeepsOthers | public/js/dj.js:58 | replacing white space keeps every character that is neither white space nor '-' as often as it occurs |
| DjDashboard.KeepSlugCharsAppend | public/js/dj.js:58 | the filter distributes over concatenation, so the kept characters stay in order |
| DjDashboard.KeepSlugCharsOfSlug | public/js/dj.js:58 | filtering a slug changes nothing |
| DjDashboard.CleanNameIsSlug | public/js/dj.js:58 | a cleaned name holds only a-z, 0-9 and '-', with no white space; an already-clean name is returned unchanged; cleaning twice is cleaning once |
| DjDashboard.Substring | public/js/dj.js:59 | the clamped slice: `s[start..end]` when `end` is within the string, the rest from `start` when only `start` is, empty when `start` is past the end; so `substring(2, 8)` yields at most six characters |
| DjDashboard.CreatePartyId | public/js/dj.js:52-62 | refused exactly when the trimmed name is empty; otherwise the id is the cleaned name, '-', then at most six characters of the random string |
| DjDashboard.CreatedPartyIdIsSlug | public/js/dj.js:58-60 | with base-36 random digits the whole party id holds only a-z, 0-9 and '-' |
| DjDashboard.CreatePartyUrl | public/js/dj.js:52-62 | the click navigates nowhere exactly when the trimmed name is empty; otherwise to exactly `/html/dj.html?dj=` followed by the party id `CreatePartyId` creates |
| DjDashboard.UpTo | public/js/dj.js:17-18 | the cut-off `URLSearchParams.get` applies to a value: the longest prefix without '&', ending at a '&' or at the end of the text |
| DjDashboard.DjParam | public/js/dj.js:17-18 | the `dj` parameter is read exactly from a URL on the dashboard path; its value is the text after `dj=` up to the first '&' or the end of the URL (via `UpTo`), and holds no '&' |
| DjDashboard.CreatedUrlCarriesPartyId | public/js/dj.js:59-61 | when the random part is base-36, the dashboard the handler navigates to reads back exactly the party id the handler created |
| DjDashboard.ItemFor | public/js/dj.js:85-99 | an item shows the request's fields; it shows as played with its button disabled exactly when the request is played |
| DjDashboard.Items | public/js/dj.js:101-104 | one item per request, in the given order |
| DjDashboard.MarkItemPlayed | public/js/dj.js:110-118 | only the first item with the id becomes played with a disabled button; every other item and the length are kept |
| DjDashboard.MarkItemPlayedUnknown | public/js/dj.js:110-118 | an unknown id changes nothing |
| DjDashboard.Dashboard.LoadInitialSongs | public/js/dj.js:101-104 | after the loop the list is exactly the items of the given songs, in order |
| DjDashboard.Dashboard.RecibirCancion | public/js/dj.js:106-108 | the new item comes first and the others keep their order |
| DjDashboard.Dashboard.SongWasPlayed | public/js/dj.js:110-118 | the list becomes `MarkItemPlayed` of it; buttons stay disabled exactly for played items |
| DjDashboard.Dashboard.ClearView | public/js/dj.js:128-139 | a confirmed clear empties the view; an unconfirmed one leaves it |
| DjDashboard.Dashboard.Click | public/js/dj.js:120-126 | `mark-song-as-played` is emitted exactly for a click on an existing, not yet played item, with this party's id and that item's id |
| GuestWishlist.ManualSong | public/js/wishlist.js:113-130 | refused exactly when the trimmed title or artist is empty; otherwise trimmed title and artist, genre `'Desconocido'`, submitter the trimmed name or `'Invitado'` when blank |
| GuestWishlist.SuggestionSong | public/js/wishlist.js:100-110 | a clicked suggestion keeps title and artist and sets no submitter; its genre is the result's genre when non-empty and `'Desconocido'` otherwise |
| GuestWishlist.OrDefault | public/js/wishlist.js:239-240 | an absent or empty value takes the fallback; any other value is kept |
| GuestWishlist.AddSongBody | public/js/wishlist.js:231-242 | the posted body keeps title, artist and any non-empty genre and submitter; an absent or empty genre becomes `'Desconocido'` and an absent or empty submitter `'Invitado'` |
| GuestWishlist.ManualSongBody | public/js/wishlist.js:116-121 | a manual submission posts the trimmed title and artist, `'Desconocido'`, and the trimmed name or `'Invitado'` |
| GuestWishlist.OnSearchKeyup | public/js/wishlist.js:86-97 | the suggestions are cleared, with no search, exactly when the query is shorter than 3 characters |
| GuestWishlist.GuestPage.LoadWishlist | public/js/wishlist.js:133-153 | a fetched wishlist is loaded and the counter shows its song count; a failed fetch changes nothing |
| GuestWishlist.GuestPage.SongAdded | public/js/wishlist.js:32-39 | the song is appended at the end of the loaded wishlist and the counter follows; ignored when none is loaded |
| GuestWishlist.GuestPage.SongDeleted | public/js/wishlist.js:42-49 | every song with that id is removed, the rest keep their order and the counter follows; ignored when none is loaded |
| WishlistManager.CreateWishlistRequest | public/js/wishlist-manager.js:207-239 | refused exactly when the trimmed name is empty; otherwise the trimmed name and description and the date as entered |
| WishlistManager.ManagerPage.ViewWishlist | public/js/wishlist-manager.js:241-317 | a fetched wishlist becomes the open one and the count shows its songs; its room is joined when the socket is connected and no room is left; a failed fetch changes nothing |
| WishlistManager.ManagerPage.CloseModal | public/js/wishlist-manager.js:319-323 | nothing is open afterwards, and joined rooms stay joined |
| WishlistManager.ManagerPage.SongAdded | public/js/wishlist-manager.js:33-39 | appended to the end of whichever wishlist is open, whatever room the event came from; ignored when none is open |
| WishlistManager.ManagerPage.SongDeleted | public/js/wishlist-manager.js:42-48 | every song with that id leaves the open wishlist, the rest keep their order; ignored when none is open |
| WishlistManager.CloseThenEvents | public/js/wishlist-manager.js:319-323 | after closing, song events leave nothing open and no room is left |
| PasswordStrength.CountMet | public/js/register.js:22-27 | at most one point per criterion, and zero exactly when no criterion is met |
| PasswordStrength.Score | public/js/register.js:22-27 | the score is between 0 and 5 |
| PasswordStrength.ScoreIsSumOfPoints | public/js/register.js:23-27 | each of the five criteria adds exactly one point |
| PasswordStrength.EmptyScoresZero | public/js/register.js:22-27 | the empty password scores 0 |
| PasswordStrength.MeetsAfterAppend | public/js/register.js:23-27 | a criterion met stays met when a character is typed |
| PasswordStrength.CountMetAfterAppend | public/js/register.js:23-27 | typing a character never lowers the count of met criteria |
| PasswordStrength.ScoreNeverDrops | public/js/register.js:23-27 | typing a character never lowers the score |
| PasswordStrength.OnPasswordInput | public/js/register.js:20-39 | the counted score is the specified score; 0 gives the bare class and no hint, 1-2 weak/'Débil', 3 medium/'Aceptable', 4 strong/'Fuerte', 5 very-strong/'Muy Fuerte' |
| AdminDjs.ActivePartyCount | public/js/admin-djs.js:73 | the length of `activePartyIds`, or 0 when absent |
| AdminDjs.DjAccounts | public/js/admin-parties.js:44 | exactly the accounts with role `'dj'` |
| AdminDjs.DjAccountsAppend | public/js/admin-parties.js:44 | the filter distributes over concatenation, so listing order is kept |
| AdminDjs.CardActions | public/js/admin-djs.js:94-99 | every card offers a password change; delete is offered exactly for non-admin accounts |
| AdminDjs.CreateDjRequest | public/js/admin-djs.js:110-117 | refused exactly when the trimmed username, the trimmed email or the password is empty; username and email are sent trimmed, the password as typed |
| AdminDjs.CheckNewPassword | public/js/admin-djs.js:164-172 | a mismatch is reported first; then fewer than 6 characters is refused; exactly 6 passes |
| AdminDjs.AdminDjsPage.OpenPasswordModal | public/js/admin-djs.js:146-150 | `currentDJId` becomes the account's id |
| AdminDjs.AdminDjsPage.ClosePasswordModal | public/js/admin-djs.js:152-156 | `currentDJId` is reset |
| AdminDjs.AdminDjsPage.SubmitPasswordChange | public/js/admin-djs.js:158-193 | refused exactly on a mismatch or a password under 6 characters; a mismatch is reported as such, an equal but short password as too short; otherwise a request for the account the modal was opened for |
| AdminParties.OptionFor | public/js/admin-parties.js:47-49 | the option shows the active-party count and is disabled exactly when it is 3 or more |
| AdminParties.DjOptions | public/js/admin-parties.js:33-56 | one option per role-`'dj'` account, in listing order |
| AdminParties.OffersExactlyTheDjs | public/js/admin-parties.js:44-49 | only DJ accounts are offered, each of them is, and an option is disabled exactly at 3 or more active parties |
| AdminParties.CreatePartyRequest | public/js/admin-parties.js:125-134 | refused exactly when the trimmed name is empty or no DJ is selected |
| AdminWishlists.ChoiceFor | public/js/admin-wishlists.js:49 | the party count shown is `partyCount`, or 0 when absent |
| AdminWishlists.DjChoices | public/js/admin-wishlists.js:33-60 | one choice per role-`'dj'` account, in listing order |
| AdminWishlists.ListsExactlyTheDjs | public/js/admin-wishlists.js:44-49 | only DJ accounts are listed, and each of them is |
| AdminWishlists.CreateWishlistRequest | public/js/admin-wishlists.js:143-154 | refused exactly when the trimmed name is empty or no DJ is selected |
| AdminWishlists.Sanitize | public/js/admin-wishlists.js:552 | same length; ASCII letters and digits stay in place, every other character becomes '_' |
| AdminWishlists.SanitizeIsClean | public/js/admin-wishlists.js:552 | the sanitised name holds only A-Z, a-z, 0-9 and '_', and sanitising is idempotent |
| AdminWishlists.BeforeT | public/js/admin-wishlists.js:552 | `split('T')[0]` is the longest prefix without 'T' |
| AdminWishlists.BeforeTOfIso | public/js/admin-wishlists.js:552 | for an ISO timestamp it is the `YYYY-MM-DD` date |
| AdminWishlists.PdfFileName | public/js/admin-wishlists.js:552 | `wishlist_`, the sanitised name, `_`, the text before the first 'T' of the timestamp, and `.pdf`, each part at its stated position |
| AdminWishlists.PdfFileNameOfIso | public/js/admin-wishlists.js:552 | with an ISO timestamp the name is `wishlist_<sanitised>_YYYY-MM-DD.pdf` |
| AdminSettings.UploadCheck | public/js/admin-settings.js:70-91 | no file, a type not starting with `image/`, a size above 2,097,152 bytes: each is refused exactly under its condition, checked in that order, the first failure winning |
| AdminSettings.SizeLimitIsInclusive | public/js/admin-settings.js:88-91 | exactly 2,097,152 bytes passes and one byte more is refused |
| PwaTags.InsertionHasMarker | add-pwa-tags.js:4-15 | the inserted block contains the skip marker |
| PwaTags.Transform | add-pwa-tags.js:52-63 | skipped exactly when either marker is present; otherwise, when `</head>` is present, the block and a newline go before its first occurrence with all other text kept; otherwise nothing is done |
| PwaTags.ResultIsSettled | add-pwa-tags.js:52-61 | what the transform leaves is not rewritten again, so applying it twice equals applying it once |
| PwaTags.Step | add-pwa-tags.js:44-66 | a missing file or one without `</head>` changes nothing and is counted nowhere; a skipped file only counts as skipped; an updated file is written with the tagged content and counts as updated; the visited file always becomes `Result` of its content and no other file changes |
| PwaTags.Run | add-pwa-tags.js:35-72 | the same files exist afterwards; every listed existing file becomes `Result` of its original content, even when listed twice; unlisted files are untouched; updated plus skipped is at most the number of listed paths |
| PwaTags.RunSettles | add-pwa-tags.js:35-72 | after a run every listed existing file is settled |
| PwaTags.RunOnSettled | add-pwa-tags.js:35-72 | a run over settled files changes none and updates none |
| PwaTags.SecondRunChangesNothing | add-pwa-tags.js:35-72 | running the script a second time changes no file and updates none |
| PwaTags.AddPwaTags | add-pwa-tags.js:35-72 | the loop leaves the files and counters exactly as `Run` specifies, with at most one count per path |
| PwaTags.RunScript | add-pwa-tags.js:17-33 | over the fifteen listed pages, updated plus skipped is at most 15 |
| PwaInstall.Installer.DomContentLoaded | public/js/pwa-install.js:20-26 | standalone mode marks the app installed; nothing else changes |
| PwaInstall.Installer.BeforeInstallPrompt | public/js/pwa-install.js:29-41 | the prompt is saved; the button is shown only when it exists and the app is not installed |
| PwaInstall.Installer.ShowInstallPrompt | public/js/pwa-install.js:44-70 | without a saved prompt only an alert and no state change; otherwise the prompt is used up whatever the answer, and an accepted one marks the app installed and hides the button |
| PwaInstall.Installer.AppInstalled | public/js/pwa-install.js:73-83 | installed, the saved prompt cleared, the button hidden |
| PwaInstall.Installer.IsInstalled | public/js/pwa-install.js:97-101 | reports the installed flag |
| PwaInstall.Installer.HasPrompt | public/js/pwa-install.js:97-101 | true exactly while a prompt is saved |
| PwaInstall.InstalledStaysInstalled | public/js/pwa-install.js:20-83 | after any sequence of events once installed, the app is still installed and a button not shown before is not shown again (a later prompt is still saved) |
| ServerConfig.ServerUrl | public/js/config.js:3-15 | on `localhost` or `127.0.0.1`, `http://localhost:` followed by the page's port or 8001 when it has none; elsewhere the page's origin unchanged |
| ServerConfig.LoopbackIsLocalhost | public/js/config.js:6-10 | `127.0.0.1` gives the same URL as `localhost`, with host `localhost` |

## Left out

- Foreign calls become inputs:
  - Password hashing (bcrypt): `Register` and `ResetPassword` take the hashed password.
  - JWT signing and verification: the handlers take an `Auth` value (no token, a token that does not verify, or a verified username).
  - `crypto.randomBytes`: `ForgotPassword` takes the token, with the precondition that no account holds it yet, which stands for its freshness.
  - Mail: sending the reset link is not modelled.
  - Spotify: the token and search calls are not modelled.
- Clocks and randomness are inputs:
  - `Date.now` becomes `now`.
  - The request's `toLocaleTimeString` becomes `hora`.
  - `Math.random().toString(36)` becomes `randomBase36`.
  - `toISOString` becomes `isoNow`.
- Server.Server: accounts are looked up by username. The routes look the DJ up by the `_id` inside the token, which the model identifies with the username the token names.
- Server.Server: `activePartyId` is stored as the handlers write it. The schema does not declare this field, and Mongoose's default strict mode could drop it on update. The model does not capture that, and so does not capture `/api/active-party` always answering no party.
- Server.Server.Register, Server.Server.ForgotPassword: database and network failures are not modelled. `ValidationFailed` stands for the schema refusing the new account, for example an empty required field. The other `catch` branches (500 replies, and `auth_error` after a database error in `join-dj-room`) are left out. In particular, when `transporter.sendMail` throws in `/forgot-password` (server.js:114-122), the token and expiry are already saved and the reply is 500; the model's `ForgotPassword` always replies success.
- Async interleaving between handlers is not modelled. Each handler is one atomic step. For example, the upsert and the `partyCount` increment of `join-dj-room` run with no other handler in between.
- Express routing, HTTP status codes and the Socket.IO transport are not modelled. Emissions are appended to `outbox`. The route replies are `Result` values.
- `/login`, `/search` and socket disconnects are not modelled. They are authentication and network plumbing with no stored state to change.
- Ranking.EntryOf: averages are exact rationals. `toFixed(2)` and the string-to-number coercion in the comparator are not modelled. So two rated DJs whose averages differ only after the second decimal tie in the source but are ordered in the model.
- Ranking.Sort: the source comparator returns 1 for two unrated DJs, which is not a consistent comparator. ECMAScript then leaves the order of the whole sorted array implementation-defined, not only the order among unrated DJs. The model fixes the intended order instead: rated DJs first, in descending order of average, then the unrated DJs. The model's own order among unrated DJs, and among rated DJs with equal averages, is not stated by any contract.
- Server.Server.SubmitRating: the rating value is not range-checked, because the source does not check it either. Values are reals, as the schema's `Number` allows; a non-numeric value, which Mongoose would refuse or coerce, is not modelled.
- Server.Server.NuevaCancion: the schema's required validators (a request needs title, artist and time) are stated as `ValidSongRequest` but not enforced. The source's `$push` runs without validators, so empty strings could be stored.
- The schema's unique keys are kept as class or store invariants:
  - for accounts, `KeyedByUsername`, `EmailsUnique` and `ResetTokensUnique`;
  - for parties, `PartyModel.KeyedById`.
  - `WishlistModel.KeyedById` is stated but not maintained, because no wishlist endpoint is defined in `server.js`.
- Endpoints the clients call but `server.js` does not define: `/api/wishlists*`, `/api/admin/*`, `/api/party-history` and `/api/verify-admin`. Their behaviour is not invented. The client scripts' requests to them are modelled only up to the request body or, for fetched data, as an `Option` response.
- DjDashboard: `initialize`, the active-party fetch and the `resume` listener are navigation and I/O wiring, so they are not modelled. The model starts from a dashboard bound to a party id. Sharing, QR codes and the removal animation (its timers) are left out too; `ClearView` empties the list at once.
- DjDashboard.DjParam: the `dj` parameter is read only from URLs of the form `/html/dj.html?dj=…`, the form the create-party handler builds. Other parameter orders and percent- or '+'-decoding are not modelled.
- DjDashboard.ToLower: only ASCII letters are lower-cased. Non-ASCII letters are later removed by the slug filter anyway, except where `toLowerCase` would map one to an ASCII letter (for example 'İ'). The model does not capture that case.
- Characters are Dafny `char` values, that is Unicode scalar values rather than UTF-16 code units. Lengths and `substring` of text outside the Basic Multilingual Plane differ from JavaScript's.
- GuestWishlist.OnSearchKeyup: only the length guard is modelled. The `clearTimeout` and 300 ms `setTimeout` debounce are left out, so the model does not say which keystroke's search is finally run.
- GuestWishlist and WishlistManager: rendering (`displaySongs`, `updateModalSongsList`) and the success modal are left out. The displayed counter is kept as a field tied to the song count by the class invariant.
- PasswordStrength: the registration submit handler posts whatever the score is. This is not modelled: the handler is a network request, and nothing in it consults the score.
- AdminDjs: the listing fetch, deleting a DJ and the HTTP results of creating one or changing its password are network requests and are not modelled. The `role` is kept as the string the listing returns.
- AdminWishlists: the PDF layout (fonts, positions, page breaks), QR codes and printing are left out. Only the exported file's name is modelled.
- AdminSettings: the upload request and the logo preview are left out. Only the guards before the upload are modelled.
- PwaTags: file reads and writes become updates to a map of paths to contents. Console output is left out. The tag block contains no `$` patterns, so JavaScript's `replace` inserts it literally, as modelled.
- PwaInstall: the service-worker registration and the online/offline listeners are browser I/O and are not modelled. The gap while the browser's install dialog is open is not modelled: the user's answer is an input to `ShowInstallPrompt`.
