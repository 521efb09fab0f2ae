# Feed pagination and feed requests of the ListenBrainz iOS client

This project models, in Dafny, the two parts of the ListenBrainz iOS client's
feed that carry behaviour beyond layout:

- **The feed view model** (`FeedViewModel`): a controller that pages through
  one of three feeds (the user's own events, listens of followed users,
  listens of similar users), merges each delivered page into a running list
  while skipping events whose id was loaded on an earlier page, stops when a
  page comes back empty, and can be reset, switched to another feed, or told
  that an event was deleted. `feed_view_model.dfy` specifies every step as a
  pure function over a `FeedState` value and implements it in the class
  `ViewModel.FeedViewModel`, whose fields are those of the Swift class and
  whose methods are proved to agree with the functions. One fetch is the
  sequence `BeginFetch` (guard, `isLoading := true`, cursor, request), then
  `ReceivePage(page)` if the network delivered a page (nothing if it failed),
  then `CompleteFetch` (the deferred `isLoading := false; isInitialLoad :=
  false`). The network's answer is an input.
- **The feed repository's request building** (`FeedRepositoryImpl`):
  `feed_repository.dfy` returns, for each call, the request the HTTP library
  would be handed (verb, URL, parameter map, encoding, headers), and `None`
  for a review refused locally. The API base URL and the clock are
  parameters.

The invariant proved for the view model is that the set of seen ids equals
the set of non-null ids in the list, in every reachable state
(`RunKeepsIdsTracked`). The list may hold two events with the same id: the
filter compares each event only with the ids of earlier pages, so two events
of one page that share a new id are both kept (`SamePageDuplicatesAreKept`).
Ids stay distinct in every reachable state when every delivered page's ids
are distinct (`RunKeepsDistinctIds`).

Behaviour worth knowing:
- A response that arrives after a reset or a feed switch is still merged. No generation tag marks in-flight fetches.
- The review guard also refuses an item without a recording MSID.
- A successful delete removes every event that carries the id, not just one.

## Model

| member | source | states |
|---|---|---|
| FeedRepository.AuthorizationHeader | Listenbrainz/Repository/Feed/FeedRepositoryImpl.swift:34 | the header value is the "Token " scheme followed by the user token, and the token can be read back from it exactly |
| FeedRepository.FeedHeaders | Listenbrainz/Repository/Feed/FeedRepositoryImpl.swift:34 | a feed GET carries the Authorization header and no other header |
| FeedRepository.JsonHeaders | Listenbrainz/Repository/Feed/FeedRepositoryImpl.swift:55 | every POST carries exactly Authorization (with the user token) and Content-Type application/json |
| FeedRepository.FeedUrlsDistinct | Listenbrainz/Repository/Feed/FeedRepositoryImpl.swift:14-27 | the own-feed, following and similar fetches target three pairwise different URLs, all under `/user/<name>/feed/events` |
| FeedRepository.FeedQueryParameters | Listenbrainz/Repository/Feed/FeedRepositoryImpl.swift:30-32 | the keys are `count` always, `max_ts` exactly when maxTs is given, `min_ts` exactly when minTs is given, nothing else; each reads back as the value passed |
| FeedRepository.MakeFeedRequest | Listenbrainz/Repository/Feed/FeedRepositoryImpl.swift:29-41 | a feed fetch is a GET with the parameters in the query string and the token in the Authorization header |
| FeedRepository.PinnedUntilIsOneWeekLater | Listenbrainz/Repository/Feed/FeedRepositoryImpl.swift:53 | truncating now + 7 days to an integer gives the whole seconds of now plus 604800 |
| FeedRepository.PinBodyShape | Listenbrainz/Repository/Feed/FeedRepositoryImpl.swift:47-57 | the pin body has exactly its four keys; the MBID is null when absent and reads back as given; a missing blurb is sent as ""; the pin expires one week after now; the headers are the JSON headers |
| FeedRepository.DeleteEvent | Listenbrainz/Repository/Feed/FeedRepositoryImpl.swift:60-66 | the delete body is exactly `{event_type, id}` with the values passed, POSTed as JSON with the JSON headers to the feed's `/delete` endpoint |
| FeedRepository.RecommendationBodies | Listenbrainz/Repository/Feed/FeedRepositoryImpl.swift:68-90 | both recommendations are JSON POSTs with the JSON headers to `/user/<name>/timeline-event/create/recording`; the followers' metadata has only the two recording ids, each null when absent and read back as given; the personal metadata has the same two entries plus `users` and `blurb_content` |
| FeedRepository.WriteAReview | Listenbrainz/Repository/Feed/FeedRepositoryImpl.swift:92-114 | no request exactly when the track name or the recording MSID is absent, the text is shorter than 25 characters or the rating is outside 1..5; otherwise a JSON POST with the JSON headers whose payload holds the six review fields with `language` "en" |
| FeedRepository.ReviewIgnoresLanguage | Listenbrainz/Repository/Feed/FeedRepositoryImpl.swift:101-109 | the caller's language argument never changes the outcome |
| FeedTypes.StringOrNull | Listenbrainz/Repository/Feed/FeedRepositoryImpl.swift:70-71 | an optional string is sent as null exactly when absent and reads back unchanged |
| ViewModel.IdsOfMembers | Listenbrainz/ViewModel/FeedViewModel.swift:91-95 | the ids recorded for a list are exactly the non-null ids its events carry |
| ViewModel.IdsOfAppend | Listenbrainz/ViewModel/FeedViewModel.swift:91-96 | appending events adds exactly their ids |
| ViewModel.Unseen | Listenbrainz/ViewModel/FeedViewModel.swift:84-89 | an event of the page is kept exactly when it has no id or its id is not among the already-loaded ids |
| ViewModel.UnseenAppend | Listenbrainz/ViewModel/FeedViewModel.swift:84-89 | the filter keeps the received order |
| ViewModel.UnseenKeepsFreshPage | Listenbrainz/ViewModel/FeedViewModel.swift:84-89 | a page with no already-loaded id is kept whole |
| ViewModel.WithoutId | Listenbrainz/ViewModel/FeedViewModel.swift:139 | removal keeps exactly the events that do not carry the id |
| ViewModel.WithoutIdAppend | Listenbrainz/ViewModel/FeedViewModel.swift:139 | removal keeps the relative order of the other events |
| ViewModel.BeginGuard | Listenbrainz/ViewModel/FeedViewModel.swift:38-40 | a fetch while one is in flight or after exhaustion changes nothing; otherwise only `isLoading` is raised |
| ViewModel.PageRequestRules | Listenbrainz/ViewModel/FeedViewModel.swift:48-67 | the request goes to the active feed's URL with count 25, no `min_ts`, and `max_ts` exactly when not in the initial load and the list is non-empty, equal to the last event's `created` |
| ViewModel.SecondPageCursor | Listenbrainz/ViewModel/FeedViewModel.swift:48-57 | after a first page created at 1000 down to 976, the next request carries `max_ts` 976 |
| ViewModel.ReceiveShape | Listenbrainz/ViewModel/FeedViewModel.swift:79-97 | an empty page sets `canLoadMorePages` false and changes nothing else; a non-empty page keeps the old list as a prefix and appends exactly the unseen events of the page |
| ViewModel.ReceiveKeepsIdsTracked | Listenbrainz/ViewModel/FeedViewModel.swift:84-96 | merging a page keeps the seen-id set equal to the list's ids |
| ViewModel.SeenIdsNotReadmitted | Listenbrainz/ViewModel/FeedViewModel.swift:84-89 | no appended event carries an id loaded on an earlier page |
| ViewModel.ReceiveKeepsDistinctIds | Listenbrainz/ViewModel/FeedViewModel.swift:84-96 | if the list and the page each have distinct ids, so does the merged list |
| ViewModel.SamePageDuplicatesAreKept | Listenbrainz/ViewModel/FeedViewModel.swift:84-89 | a page holding one new id twice puts both events in the list |
| ViewModel.FetchFreshPage | Listenbrainz/ViewModel/FeedViewModel.swift:37-101 | one uninterrupted fetch delivering a non-empty page of new ids appends the page whole, records its ids, ends the initial load and leaves everything else as it was |
| ViewModel.FetchAllAppendsFreshPages | Listenbrainz/ViewModel/FeedViewModel.swift:37-101 | over any number of fetches delivering non-empty pages of new ids, the guard admits every fetch and the list becomes the old list followed by the pages in arrival order |
| ViewModel.WithoutIdKeepsDistinct | Listenbrainz/ViewModel/FeedViewModel.swift:139 | removing the events with an id keeps a list with distinct ids distinct |
| ViewModel.RunKeepsDistinctIds | Listenbrainz/ViewModel/FeedViewModel.swift:37-141 | in any sequence of steps, the list keeps distinct ids as long as every delivered page has distinct ids |
| ViewModel.RemoveAbsentIdIsNoop | Listenbrainz/ViewModel/FeedViewModel.swift:139-140 | a successful delete of an id the list does not hold changes nothing |
| ViewModel.RemoveKeepsIdsTracked | Listenbrainz/ViewModel/FeedViewModel.swift:139-140 | removing an event keeps the seen-id set equal to the list's ids |
| ViewModel.RemoveShape | Listenbrainz/ViewModel/FeedViewModel.swift:137-141 | a successful delete removes every event with the id and only those, in order, and forgets the id |
| ViewModel.DeletedIdIsReadmitted | Listenbrainz/ViewModel/FeedViewModel.swift:139-140 | after a delete, a page carrying the same id again is admitted |
| ViewModel.RunKeepsIdsTracked | Listenbrainz/ViewModel/FeedViewModel.swift:37-141 | every sequence of fetch steps, resets, feed switches and deletes keeps the seen-id set equal to the list's ids |
| ViewModel.FetchEnds | Listenbrainz/ViewModel/FeedViewModel.swift:37-101 | a started fetch ends with `isLoading` and `isInitialLoad` false on success and failure alike; a failure leaves the list, the seen set and `canLoadMorePages` unchanged; a refused fetch changes nothing |
| ViewModel.ExhaustionSticks | Listenbrainz/ViewModel/FeedViewModel.swift:38-82 | once `canLoadMorePages` is false it stays false and no fetch starts until a reset or a feed switch |
| ViewModel.ResetShape | Listenbrainz/ViewModel/FeedViewModel.swift:102-112 | a reset empties the list and the seen set and raises `canLoadMorePages` and `isInitialLoad`; a feed switch does the same and sets the feed type |
| ViewModel.FeedViewModel.constructor | Listenbrainz/ViewModel/FeedViewModel.swift:18-35 | a new view model has no events, no seen ids, no fetch in flight, the initial-load and more-pages flags raised, and the own-events feed |
| ViewModel.FeedViewModel.BeginFetch | Listenbrainz/ViewModel/FeedViewModel.swift:37-67 | returns no request exactly when the guard refuses; otherwise raises `isLoading` and returns the next page's request |
| ViewModel.FeedViewModel.ReceivePage | Listenbrainz/ViewModel/FeedViewModel.swift:77-98 | the new state is the merge of the page into the old one, and the seen-id invariant still holds |
| ViewModel.FeedViewModel.CompleteFetch | Listenbrainz/ViewModel/FeedViewModel.swift:42-47 | lowers `isLoading` and `isInitialLoad` and changes nothing else |
| ViewModel.FeedViewModel.ResetPagination | Listenbrainz/ViewModel/FeedViewModel.swift:107-112 | the new state is the reset of the old one |
| ViewModel.FeedViewModel.ChangeFeedType | Listenbrainz/ViewModel/FeedViewModel.swift:102-105 | the new state is the reset of the old one with the new feed type |
| ViewModel.FeedViewModel.DeleteSucceeded | Listenbrainz/ViewModel/FeedViewModel.swift:134-141 | the new state is the old one without the deleted id's events and without the id in the seen set |

## Left out

- The HTTP transport is not modelled: sending, `.validate()` and decoding the response into `FeedAlbum`. Each request function returns the request, and the outcome of a fetch is an input to the view model.
- The Combine publishers and the checked continuation are not modelled. They are foreign library plumbing.
- The `MainActor` hops and the deferred `Task` that lowers the flags are concurrency. They are modelled as the explicit sequential step `CompleteFetch`, taken after `ReceivePage` or after a failure.
- Any interleaving of steps is allowed through `Run`, but with no timing. Between `BeginFetch` and `CompleteFetch` a reset or a switch may occur, and a late page is then merged, as in the code.
- `fetchCoverArt` in both files is not modelled. It is an unparameterised GET of a URL whose result is ignored.
- The view model's `pinTrack`, `recommendToFollowers`, `recommendToUsersPersonally` and `writeAReview` are not modelled as separate members. They only forward to the repository functions modelled here and ignore the result.
- The failure branch of the view model's `deleteEvent` is not modelled. It changes nothing.
- The unused `feedData` and `currentPage` fields are not modelled.
- FeedRepository.WriteAReview: `text.count` counts Swift grapheme clusters. The model counts characters of `seq<char>`, which approximates it for text made of single-scalar characters.
- The base URL is a parameter. `URL(string:)!` is modelled as if it always succeeded, so the crash on a malformed URL string (for example a user name with spaces) is not modelled.
- Timestamps and counts are unbounded integers. `Int64(lastCreated)` cannot trap for a 64-bit `Int`, so nothing is lost there.
- FeedRepository.PinBodyShape: the clock is a real parameter `now`, read in seconds since 1970. Floating-point rounding of `now + 604800` is not modelled, and the one-week lemma assumes `now >= 0`.
- Event metadata (track, review and recommendation payloads) is not modelled, because the paginator never reads it.
- The SwiftUI screens (feed, track info, playlist detail) and `asyncToStream` are not part of this model.
