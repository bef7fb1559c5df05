# Cadence reading app — verified model of its core

Cadence is a reading tracker. A signed-in reader keeps a library of books on four
shelves: currently reading, completed, did-not-finish and to-be-read. The reader also
keeps a drag-and-drop "Top Five" list and records page progress. For a book they can
get its details from the OpenLibrary catalogue, and they can have a language model
suggest songs, which are then turned into a Spotify playlist.

This project models the logic behind those features in Dafny and proves what that
logic promises. There is one module per core file:

| module | file | what is modelled |
|---|---|---|
| `Suggestions` | application/suggestions.py | The Spotify token kept in the web session, with refresh 60 s before expiry. The OAuth callback and sign-out that reset the session. The profile lookup. The per-song track search. The calls `create_playlist` makes. |
| `Genny` | application/genny.py | How the language model's reply is cut down to its JSON fragment. An array is tried first (from the first `[` to the last `]`), then an object. |
| `Logic` | application/logic.py | The book-detail lookup. The page count of an edition comes from `number_of_pages`, or else from the largest number in its pagination text. The page count of a book is the most common edition count, ties going to the count seen first. Also the sorted samples and `process_data`. |
| `TopFive` | static/js/topfive.js | The insertion point chosen from item midpoints. The drop that inserts a book, refuses a duplicate and keeps the list at five. The numbered labels of the rendered list. |
| `Routes` | services/flask/routes.py | How the profile pages sort library rows onto the four shelves and skip malformed rows. The default display name and picture. The owner-only TBR endpoint. |
| `Database` | application/database.py | The `library` and `topfive` tables with their AUTOINCREMENT ids, and the insert, delete, update and select statements on them. |
| `HtmxRoutes` | services/flask/htmxroutes.py | The page-progress handler `update_page`, with its checks and database effects in source order. The ten-result cap of the book search fragment. |

Some building blocks are shared:
- `Wrappers` holds `Option`.
- `Seqs` holds the order-keeping filter/map that every loop in the core instantiates, with its concatenation and membership lemmas.
- `Text` holds ASCII digits, decimal rendering, Python's `int()` on strings, and Python and JavaScript `strip`/`trim`.

State that the source updates in place is a class with `modifies` clauses:
- the web session (`Suggestions.Session`);
- the page's Top Five list and the drag in progress (`TopFive.TopFiveList`);
- the two tables (`Database.LibraryTable`, `Database.TopFiveTable`).

Each method that changes state is proved against a specification function of the old state. The lemmas beside it prove what that function promises. Loops in the source stay `for`/`while` loops with invariants, proved equal to the function they compute.

Effects that leave the program appear in the model as follows:
- The HTTP APIs (OpenLibrary, Gemini, Spotify), the OAuth exchanges and the clock are parameters of the members that use them.
- Database calls made by a route are parameters or recorded effects.

## Model

| member | source | states |
|---|---|---|
| Suggestions.FreshTokenUntouched | application/suggestions.py:24-40 | A stored token with at least 60 seconds left is returned as is, flagged valid, and the session is not changed. |
| Suggestions.ExpiredTokenReplaced | application/suggestions.py:26-37 | A token within 60 seconds of expiry is refreshed with its refresh token. The new token is returned and stored under `token_info`, and every other session key keeps its value. |
| Suggestions.TokenAlwaysValid | application/suggestions.py:18-40 | When get_token returns, `token_valid` is true. It fails (AttributeError) exactly when the session holds no token. |
| Suggestions.GetTokenSettles | application/suggestions.py:24-37 | Once refreshed to a token that is fresh, a second get_token at the same time returns the same token and leaves the session alone. |
| Suggestions.Session.GetToken | application/suggestions.py:18-40 | The returned token and the new session are exactly those the token rules above describe for the old session. |
| Suggestions.Session.AppCallback | application/suggestions.py:51-60 | The session is cleared before the code is exchanged. A successful exchange leaves only the token in it, and a failed one leaves it empty. |
| Suggestions.Session.ClearSession | application/suggestions.py:76-78 | The session is empty afterwards. |
| Suggestions.GetProfileData | application/suggestions.py:70-73 | None (the AttributeError) iff the session holds no token. Otherwise the profile the endpoint returns for the stored access token. |
| Suggestions.Session.GetProfile | application/suggestions.py:63-67 | Without a token, it fails and changes nothing. Otherwise it stores the current user's id under `user`. It returns the second image's URL, or fails with an IndexError when there are fewer than two images. |
| Suggestions.SearchFor | application/suggestions.py:128-129 | The query is `track:<title> artist:<artist>`, type track, limit 1. The ensures spell out the query's length, prefix and both embedded fields. |
| Suggestions.SpotifySearch | application/suggestions.py:124-142 | One search per song, in song order. The result is the order-keeping selection of the songs whose search found items. |
| Suggestions.ResolvedIsBestEffort | application/suggestions.py:127-139 | The search result distributes over concatenation, so song order is kept. A track is in it iff some song's search produced it. Its length is the number of songs with a hit. |
| Suggestions.LookupCopiesSong | application/suggestions.py:130-139 | A song contributes an entry iff its search has items. The entry copies the song's title and artist and takes the first item's id. |
| Suggestions.PlaylistName | application/suggestions.py:88 | The name is `cadence - ` followed by the book title. |
| Suggestions.PlaylistDescription | application/suggestions.py:90 | The description is the fixed lead-in, the title, ` by `, then the author. |
| Suggestions.TrackUris | application/suggestions.py:98-102 | One URI per found track, in order: the i-th is exactly `spotify:track:` followed by the i-th track's id. |
| Suggestions.Searches | application/suggestions.py:127-129 | One search call per request, in order. |
| Suggestions.Session.CreatePlaylist | application/suggestions.py:81-110 | Without a token, it makes no call and fails. Otherwise the calls are, in order: current user, playlist creation under the id the current-user call returns, with the formatted name and description, one search per song, then one batch add of the found URIs only when there are any. It returns the created playlist id. |
| Genny.GenerateWithGemini | application/genny.py:13-41 | A non-200 reply yields None. A 200 reply yields the extracted JSON fragment. |
| Genny.GreedySpanIsLeftmostLongest | application/genny.py:26 | The greedy DOTALL match is the leftmost-longest span from an opening to a closing delimiter. It exists iff such a span exists, and it runs from the first opener to the last closer. |
| Genny.MatchWithinFirstAndLast | application/genny.py:26 | Every delimited span lies within the first opener and the last closer. |
| Genny.ArrayMatchIff | application/genny.py:26-28 | An array match exists iff a `]` occurs after the first `[`. |
| Genny.ExtractArray | application/genny.py:26-29 | With an array match, the fragment is exactly the text from the first `[` to the last `]`, and the strip removes nothing. |
| Genny.ExtractObject | application/genny.py:31-33 | Without an array match, the fragment is the text from the first `{` to the last `}`. |
| Genny.ExtractNone | application/genny.py:34-36 | None is returned iff neither an array nor an object match exists. |
| Genny.ExtractJsonIsDelimitedInfix | application/genny.py:25-38 | Any fragment returned is the slice of the reply at the chosen span, opening and closing with a matching pair. |
| Genny.ArrayInsideObjectWins | application/genny.py:26-33 | An object holding one array, with no other brackets, yields the inner array: the array pass wins and the object fallback is never consulted. |
| Logic.DirectPageCount | application/logic.py:82-84 | A count is taken iff `number_of_pages` is a positive integer or a JSON `true`: a positive integer counts as itself and `true` as 1. Strings, floats, null, `false`, zero and negatives give none. |
| Logic.DigitRuns | application/logic.py:94 | The list of numbers found is empty iff the text has no digit. |
| Logic.MaxOf | application/logic.py:98 | The result is an element, and no element exceeds it. |
| Logic.EditionPageCount | application/logic.py:80-102 | What one edition contributes is always positive. |
| Logic.CollectPageCounts | application/logic.py:78-102 | The edition loop collects the page counts of the editions in order, and every one is positive. |
| Logic.DirectCountWins | application/logic.py:82-85 | A positive `number_of_pages` is taken as it is, and a JSON `true` as 1, whatever the pagination text says. |
| Logic.PaginationCount | application/logic.py:87-100 | Otherwise the first truthy text field among pagination, physical dimensions and notes is read. The edition counts iff that text has a digit and its largest number is positive, and then the count is that number. |
| Logic.NoDigitsNoCount | application/logic.py:88-95 | An edition whose chosen text has no digit, or is not a string, contributes nothing. |
| Logic.DigitRunsConcat | application/logic.py:94 | Numbers found in text split by a non-digit are the numbers of each part, in order. |
| Logic.DigitRunsOfRun | application/logic.py:94 | A maximal digit run is read as one number, its decimal value. |
| Logic.DigitRunsAroundNumber | application/logic.py:94 | A decimal number written between two non-digits is found as exactly that number. |
| Logic.DigitRunsAroundRun | application/logic.py:94 | A digit run between digit-free texts is the only number found. |
| Logic.PaginationExample | application/logic.py:87 | The pagination `xviii, 312 p.` gives 312 pages, since the roman numerals carry no digit. |
| Logic.MostCommonIndex | application/logic.py:104-108 | The chosen position holds a value of the highest count, and every earlier position holds a strictly less frequent value. So ties go to the value seen first. |
| Logic.MostCommonIsFirstMaximum | application/logic.py:108 | Those two properties pin the most common value down uniquely. |
| Logic.MostCommonFirstOccurrence | application/logic.py:108 | The chosen value does not occur before the chosen position. |
| Logic.InsertSorted | application/logic.py:116 | Adding a value to an ascending list of distinct values keeps it so. The elements afterwards are the old ones plus the value. |
| Logic.SortedSet | application/logic.py:116 | `sorted(set(xs))` is strictly increasing and holds exactly the values of xs. |
| Logic.Samples | application/logic.py:116 | The samples are at most ten, strictly increasing, and taken from the counts. A count left out is larger than all ten samples, so the samples are the ten smallest distinct counts. |
| Logic.CollectAuthorNames | application/logic.py:63-73 | The author loop yields exactly the names the order-keeping author selection defines. |
| Logic.AuthorNamesFollowAuthors | application/logic.py:66-73 | Author names follow the author order. A name is present iff some author with a non-empty key fetched a record with that name, or "Unknown Author" for a record without a name. |
| Logic.GetBookDetails | application/logic.py:54-118 | None iff the work fetch fails. The title defaults to "Unknown Title". The page count is None iff no edition gave a count, and otherwise it is the positive most common count. The samples are sorted(set(counts))[:10]. |
| Logic.ProcessData | application/logic.py:19-25 | The "No data to process" message is returned iff the data is falsy. |
| Logic.ProcessDataReportsLength | application/logic.py:23-24 | For a non-empty list, the message carries its length in decimal, and `int()` reads that length back. |
| TopFive.InsertPosition | static/js/topfive.js:34-49 | The index is at most the item count. Every item before it has its midpoint at or above the pointer, and the item at the index has its midpoint below it. |
| TopFive.GetInsertPosition | static/js/topfive.js:34-49 | The scan returns that first index. |
| TopFive.InsertPositionIsFirst | static/js/topfive.js:40-48 | The first-index property determines the insertion index uniquely. |
| TopFive.InsertPositionMonotone | static/js/topfive.js:40-48 | Moving the pointer down never moves the insertion point up. |
| TopFive.DroppedShape | static/js/topfive.js:157-166 | The book lands at the clamped position, entries before it stay, and later entries shift down by one. A list with five or more entries loses exactly its last entry, so a drop past the end of a full list changes nothing. |
| TopFive.DroppedWithinCapacity | static/js/topfive.js:160-166 | A list of at most five stays at most five. A shorter list gains the dropped book. |
| TopFive.Label | static/js/topfive.js:21-28 | The label starts with the decimal 1-based rank, then `. `, then the title. |
| TopFive.LabelsDistinct | static/js/topfive.js:21-28 | Different ranks give different labels. |
| TopFive.RenderBookList | static/js/topfive.js:7-29 | An empty list renders only the empty state. Otherwise one ranked item per entry, in order, with its label, id and position. |
| TopFive.TopFiveList.DragStart | static/js/topfive.js:76-86 | Only a drag item starts a drag, recording its data. The list is unchanged. |
| TopFive.TopFiveList.DragEnd | static/js/topfive.js:89-98 | The drag is cleared and the list is unchanged. |
| TopFive.TopFiveList.Drop | static/js/topfive.js:132-173 | The alert is raised iff a drag is in progress and its id is already listed. Without a drag, or on the alert, the list is unchanged. Otherwise the list becomes the drop of the trimmed book at the pointer's insertion index. |
| Routes.ShelfOf | services/flask/routes.py:114-123 | Reading, completed and did-not-finish are selected iff the status is exactly that string. Any other status, a missing one included, is TBR. |
| Routes.View | services/flask/routes.py:88-111 | A row is skipped iff its book is not a list or has fewer than three elements. A kept row's view copies every column and the first three book elements. |
| Routes.PartitionLibrary | services/flask/routes.py:76-123 | The loop's four lists are the four shelves of the rows, each in row order. |
| Routes.RowOnOneShelf | services/flask/routes.py:114-123 | A kept row lands on exactly one shelf, and a skipped row lands on none. |
| Routes.ShelvesPartitionKept | services/flask/routes.py:76-123 | As multisets, the four shelves together are exactly the kept rows: nothing is lost or duplicated. |
| Routes.ShelfSizesSum | services/flask/routes.py:76-123 | The shelf sizes add up to the number of kept rows. |
| Routes.ShelfMembership | services/flask/routes.py:89-123 | A view is on a shelf iff some row produces it and that row's status selects the shelf. |
| Routes.ShelvedKeepsOrder | services/flask/routes.py:76-123 | The shelves of concatenated row lists are the concatenated shelves. |
| Routes.DisplayName | services/flask/routes.py:134-136 | Anything but "Book Lover" is the profile's display name. A non-empty display name is always shown. |
| Routes.ProfileImage | services/flask/routes.py:138-141 | The URL `get_profile` returns is shown unless it is empty, and then the default picture is. |
| Routes.Identity | services/flask/routes.py:130-141 | An empty session shows "Book Lover" and the default picture. A non-empty session raises (a 500) iff it holds no token or the profile has fewer than two images. Otherwise it shows the profile's display name and second image. |
| Routes.NoPictureIsServerError | services/flask/routes.py:133-141 | A signed-in reader whose Spotify profile has no images gets a server error, not the default picture. |
| Routes.IdentityCheckedIsTotal | services/flask/routes.py:128-141 | The corrected lookup never fails. It agrees with the as-written one wherever that succeeds. Without a token it shows both defaults, and with fewer than two images the default picture. |
| Routes.ProfileFor | services/flask/routes.py:64-161 | The reply is a server error iff Identity raises. The session afterwards holds the user id exactly when `get_profile` ran. A rendered page has the owner's four shelves and top-five list, and Identity's name and picture. |
| Routes.Profile | services/flask/routes.py:64-161 | As ProfileFor, for the user named in the session before the profile calls. |
| Routes.UserProfile | services/flask/routes.py:169-266 | As ProfileFor, for the user in the path. Name, picture and the server error still come from the signed-in session. |
| Routes.UserTbr | services/flask/routes.py:314-320 | The library is returned iff the session user is the path user, and otherwise the reply is a redirect. |
| Database.LibraryIds | application/database.py:29 | One id per row, in row order. |
| Database.LibraryOfMembership | application/database.py:49-55 | The select returns exactly the user's rows, in table order. |
| Database.RemovedMembership | application/database.py:85-95 | The delete removes exactly the rows matching both the user and the id. |
| Database.RemovedAtMostOne | application/database.py:85-95 | With distinct ids, at most one row goes. When nothing matches, the table is unchanged. |
| Database.RemovedKeepsOthers | application/database.py:91-93 | Another user's library is untouched by the delete. |
| Database.WithPagesReadChangesOnlyPages | application/database.py:97-108 | The progress update sets pages_read on the matching rows only, and every other column and row is unchanged. |
| Database.WithReadingChangesOnlyStatus | application/database.py:110-120 | The update sets status to reading on the matching rows only, and everything else is unchanged. |
| Database.UpdatesKeepOthers | application/database.py:97-120 | Another user's library is untouched by either update. |
| Database.RemovedKeepsIds | application/database.py:85-95 | The delete keeps the ids positive, increasing and below the next id. |
| Database.LibraryTable.AddBook | application/database.py:72-83 | One new row at the end, with the next id, the user, the book and total_pages as given (null when the caller has no page count), and every other column null. The ids stay increasing. |
| Database.LibraryTable.RemoveFromLibrary | application/database.py:85-95 | The rows become the delete of the old rows. |
| Database.LibraryTable.UpdateBookProgress | application/database.py:97-108 | The rows become the progress update of the old rows. |
| Database.LibraryTable.UpdateCurrentBook | application/database.py:110-120 | The rows become the reading update of the old rows. |
| Database.LibraryTable.GetLibrary | application/database.py:49-55 | Returns exactly the user's rows. |
| Database.FirstTopFive | application/database.py:41-47 | None iff the user has no row. Otherwise a row of that user with no row of that user before it. |
| Database.TopFiveTable.AmendTopFive | application/database.py:57-66 | Always appends a new row with the next id. No row is ever replaced. |
| Database.TopFiveTable.GetTopFiveByUsername | application/database.py:41-47 | Returns the user's first row in id order, or None. |
| Database.AmendIsNotReadBack | application/database.py:41-66 | Once a user has a row, storing another list for them does not change what the lookup returns. |
| Database.SecondAmendLost | application/database.py:41-66 | After two different lists are stored for a new user, the lookup returns the first one. |
| Database.FirstAfterNone | application/database.py:41-66 | A user's first list is read back. |
| Database.LatestTopFive | application/database.py:41-47 | None iff the user has no row. Otherwise a row of that user with no row of that user after it. |
| Database.LatestReadsBackAmend | application/database.py:57-66 | With the latest-row lookup, the list just stored is always the one read back. |
| Database.LatestIgnoresOthers | application/database.py:57-66 | Storing another user's list does not change what the latest-row lookup returns for a user. |
| Database.TopFiveTable.GetLatestTopFive | application/database.py:41-47 | Returns the user's last row, or None. |
| HtmxRoutes.UpdatePage | services/flask/htmxroutes.py:58-107 | The handler's reply and its database calls are, in order, those of the as-written decision. |
| HtmxRoutes.CompletionBeforeValidation | services/flask/htmxroutes.py:66-68 | The completion call happens iff both page numbers parse to the same value, whatever the book id. It comes first and carries the raw book id string. |
| HtmxRoutes.ProgressOnlyOnSuccess | services/flask/htmxroutes.py:71-93 | The reply is 200 iff both strings are non-empty and all three values parse. The progress update is made only on a 200, once and last, with the parsed id and page. Every other reply leaves at most the completion call behind. |
| HtmxRoutes.UpdatePageSucceedsIff | services/flask/htmxroutes.py:58-107 | A form gets a 200 iff it has all three keys and all three values parse as Python integers. |
| HtmxRoutes.BadBookIdRejected | services/flask/htmxroutes.py:77-89 | A non-empty, non-integer book id with valid page numbers gets the type-error reply, and no progress is written. |
| HtmxRoutes.EmptyCurrentPageRaises | services/flask/htmxroutes.py:63-74 | An empty current page raises a ValueError (a 500) and writes nothing. It never reaches "Error: Missing Data". |
| HtmxRoutes.CompletionWithoutBookId | services/flask/htmxroutes.py:63-74 | A finished book posted with an empty book id is completed under the empty id, and then "Error: Missing Data" is answered. |
| HtmxRoutes.DecideCheckedIsSafe | services/flask/htmxroutes.py:70-93 | The corrected order never raises and writes nothing on a 400. An empty page is reported as missing data, and every write concerns a parsed book id. It agrees with the as-written handler on every valid form. |
| HtmxRoutes.UpdatePageCheckedIsSafe | services/flask/htmxroutes.py:58-107 | On forms, the corrected handler never raises and reports an empty current page as missing data. Its writes only happen for a book id that `int()` accepts. |
| HtmxRoutes.SearchUrl | services/flask/htmxroutes.py:45-47 | The URL is the search endpoint followed by the query, or `None` when there is none. |
| HtmxRoutes.FirstResults | services/flask/htmxroutes.py:50 | The first ten docs, or all when fewer, as a prefix of the docs. |
| HtmxRoutes.HtmxSearch | services/flask/htmxroutes.py:43-52 | The books handed to the template are the first ten of the reply's docs, or none without a docs key. |
| Text.NatToStringRoundTrip | application/logic.py:24 | A number's decimal rendering consists of digits and reads back as the number. |
| Text.PyIntOfDigits | services/flask/htmxroutes.py:81-82 | `int()` reads a plain run of digits as its decimal value. |
| Text.PyIntOfNatToString | application/logic.py:24 | Python's `int()` reads a decimal rendering back as the number. |
| Text.PyIntSigned | services/flask/htmxroutes.py:81-82 | `int()` reads a leading `-` as a negative value and a leading `+` as a positive one. |
| Text.PyIntIgnoresSurroundingSpace | services/flask/htmxroutes.py:81-82 | `int()` gives the same result with or without whitespace around the text. |
| Text.PyIntNeedsADigit | services/flask/htmxroutes.py:66 | `int()` rejects a string with no digit, the empty string included. |
| Text.Strip | static/js/topfive.js:157 | The stripped text is a contiguous piece of the original that neither starts nor ends with whitespace. |

These specification functions model the cited lines but carry no contract of their own. The rows named after them state what they mean:
- `Suggestions.GetTokenOn` (application/suggestions.py:18-40): FreshTokenUntouched, ExpiredTokenReplaced, TokenAlwaysValid, GetTokenSettles.
- `Suggestions.Lookup` and `Suggestions.Resolved` (application/suggestions.py:124-142): LookupCopiesSong, ResolvedIsBestEffort, SpotifySearch.
- `Genny.GreedySpan`, `Genny.GreedySearch` and `Genny.ExtractJson` (application/genny.py:25-38): GreedySpanIsLeftmostLongest, MatchWithinFirstAndLast, ArrayMatchIff, ExtractArray, ExtractObject, ExtractNone, ExtractJsonIsDelimitedInfix, ArrayInsideObjectWins.
- `Logic.PageCounts` (application/logic.py:78-102): CollectPageCounts, DirectCountWins, PaginationCount, NoDigitsNoCount.
- `Logic.MostCommon` (application/logic.py:104-108): MostCommonIndex, MostCommonIsFirstMaximum, MostCommonFirstOccurrence.
- `Logic.AuthorName` and `Logic.AuthorNames` (application/logic.py:63-73): CollectAuthorNames, AuthorNamesFollowAuthors.
- `TopFive.Dropped` (static/js/topfive.js:157-166): DroppedShape, DroppedWithinCapacity, TopFiveList.Drop.
- `Routes.Kept` and `Routes.Shelved` (services/flask/routes.py:76-123): PartitionLibrary, RowOnOneShelf, ShelvesPartitionKept, ShelfSizesSum, ShelfMembership, ShelvedKeepsOrder.
- `Routes.IdentityChecked` (services/flask/routes.py:128-141): IdentityCheckedIsTotal.
- `Database.LibraryOf`, `Database.Removed`, `Database.WithPagesRead` and `Database.WithReading` (application/database.py:49-120): LibraryOfMembership, RemovedMembership, RemovedAtMostOne, RemovedKeepsOthers, RemovedKeepsIds, WithPagesReadChangesOnlyPages, WithReadingChangesOnlyStatus, UpdatesKeepOthers, and the LibraryTable methods.
- `HtmxRoutes.Decide` and `HtmxRoutes.UpdatePageOutcome` (services/flask/htmxroutes.py:58-107): UpdatePage, CompletionBeforeValidation, ProgressOnlyOnSuccess, UpdatePageSucceedsIff, BadBookIdRejected, EmptyCurrentPageRaises, CompletionWithoutBookId.
- `HtmxRoutes.DecideChecked` and `HtmxRoutes.UpdatePageChecked` (the corrected handler): DecideCheckedIsSafe, UpdatePageCheckedIsSafe.
- `Text.PyInt` (Python's `int()` on a string, used at services/flask/htmxroutes.py:66 and 81-82): PyIntOfDigits, PyIntOfNatToString, PyIntSigned, PyIntIgnoresSurroundingSpace, PyIntNeedsADigit.

## Left out

- Network, HTTP and SDKs. OpenLibrary, Gemini and Spotify requests, the OAuth client, and `requests` status handling are parameters that stand for their decoded replies. `verify_token` only wraps an SDK call and is not modelled.
- The Gemini request body and the prompt texts of `get_book_recommendations` and `get_playlist_recommendations` are not modelled. Neither is the `json.loads` of the reply, since JSON decoding is not modelled anywhere.
- The playlist cover image (application/suggestions.py:111-120) and application/overlay.py are not modelled. They are image processing and an upload.
- Suggestions.Session.CreatePlaylist: a failing batch add is caught and only printed, so the model records the call and ignores its outcome.
- Missing-key crashes are not modelled: a song without `song_title` or `artist`, a book without `title` or `author`, a token without `expires_at` or `refresh_token`. Songs, books and tokens always carry those fields in the model.
- Logic.DigitRuns reads ASCII digits only. Python's `\d` also matches other Unicode decimal digits.
- Logic.GetBookDetails: the median fallback at application/logic.py:109-110 is not modelled, because `most_common(1)` cannot fail on a non-empty list. A `title` key present with a null value is treated like a missing key.
- Logic.AuthorName: an author record whose `name` is null is treated like one without a name and gives "Unknown Author". Python's `.get("name", "Unknown Author")` returns None there, and None is appended to the author names.
- Text.PyInt accepts ASCII digits only. Python's `int()` also accepts other Unicode decimal digits.
- Text.PyInt: the 4300-digit limit of `int()` (`sys.int_max_str_digits`, Python 3.11 and the matching security releases) is not modelled. The model reads a digit run of any length, so Text.PyIntOfDigits and HtmxRoutes.UpdatePageSucceedsIff also accept a `book_id` or page of more than 4300 digits, which Python rejects with a ValueError.
- TopFive coordinates are reals. JavaScript's floating-point rounding of midpoints is not modelled.
- TopFive.TopFiveList.Drop: book ids are integers. JavaScript's loose `==` against `parseInt` of a non-canonical id string (such as `"07"`) is not modelled.
- The DOM is not modelled: the drop indicator, the list's HTML, `console` output, and the `alert` dialog itself, which appears only as the `alerted` result.
- Routes reads library rows as decoded dicts with a list-valued `book`. application/database.py's `get_library` returns sqlite tuples with JSON text, which the route cannot read as written. The row shape the route expects is modelled, not that mismatch.
- Routes: elements of a `book` list are taken to be strings, display names to be strings or null, and image URLs to be strings.
- Routes: `profile_data` is taken to be truthy. A reply from the Spotify profile endpoint is a non-empty object.
- Routes: the placeholder `books` list, `/clear`, `/callback`, the recommendation pages and the other template routes are not modelled. They only render templates or forward to the modelled functions.
- HtmxRoutes: `complete_currentbook` is imported from application/database.py, which does not define it, so as written the module fails to import. It is modelled as a recorded effect, `CompleteCurrentBook`, of the call the handler makes.
- HtmxRoutes.HtmxSearch: a `docs` value that is null or not a list, and a reply that is not JSON, are not modelled.
- The `hellothere` and `posttest` HTMX routes, services/flask/apiroutes.py, main.py, configfile.py and the other scripts under static/js are not modelled. They only render fixed text, serve files or hold configuration.
- Database: connections, commits, `CREATE TABLE` and the JSON encoding of the `book` and `items` columns are not modelled. The statements are modelled on decoded rows.
- Database: `fetchone` and `fetchall` are taken to return rows in id order, which sqlite does for a scan of a rowid table but does not promise.
- Database: a `None` username is not modelled. It would violate `NOT NULL` on insert and match nothing on select.
- Database.LibraryTable.AddBook returns the new row's id so that callers can name it. `add_book_to_library` itself returns nothing.

## Findings

| source | as written | input that shows it | evidently intended | confidence | as-written member | corrected member |
|---|---|---|---|---|---|---|
| application/database.py:41-66 | `amend_top_five` always inserts a new row, and `get_top_five_by_username` returns the first matching row (`fetchone`). | Store `["A"]` for "ann", then store `["B"]` for "ann". The lookup still returns `["A"]`. | Saving a Top Five list replaces the reader's list, so the lookup returns the list saved last. | high; not executed | Database.SecondAmendLost | Database.LatestReadsBackAmend |
| services/flask/htmxroutes.py:66-74 | Both page numbers go through `int()`, and the book is completed, before the missing-data check runs. | `current_page=""` raises an uncaught ValueError (a 500), not "Error: Missing Data". `book_id=""` with `current_page=total_pages="300"` completes book `""`, then answers "Error: Missing Data". | Validate every value first, answering 400, and complete or update only a book whose id parsed. | high; not executed | HtmxRoutes.CompletionWithoutBookId | HtmxRoutes.UpdatePageCheckedIsSafe |
| services/flask/routes.py:133-141 | With a non-empty session, the profile pages call `get_profile_data()` and `get_profile()` unguarded. `get_profile` indexes `images[1]`. | A signed-in reader whose Spotify account has no picture (`images == []`) gets an IndexError, a 500. A non-empty session without a token gets an AttributeError. | Fall back to "Book Lover" and the default picture whenever the profile or its picture is unavailable, as the surrounding defaults and comment intend. | medium; not executed | Routes.NoPictureIsServerError | Routes.IdentityCheckedIsTotal |
