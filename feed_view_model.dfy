/** The feed view model: a paginating controller over the events of one feed.

    A fetch is split into the steps the controller takes one after another:
    `BeginFetch` (the guard, `isLoading := true`, the cursor and the request
    for the active feed), then `ReceivePage` when the network delivers a page
    (nothing when it fails), then `CompleteFetch` (the deferred
    `isLoading := false; isInitialLoad := false`). The network's answer is an
    input. The pure functions over `FeedState` specify each step; the class
    `FeedViewModel` performs them on its fields and is proved to agree. */
module ViewModel {
  import opened FeedTypes
  import Repo = FeedRepository

  /** Page size of every feed request. */
  const ItemsPerPage: int := 25

  // ---------------------------------------------------------------------
  // Ids of a list of events
  // ---------------------------------------------------------------------

  /** The non-null ids carried by `events`. */
  function IdsOf(events: seq<Event>): set<int> {
    if events == [] then {}
    else if events[0].id.Some? then {events[0].id.value} + IdsOf(events[1..])
    else IdsOf(events[1..])
  }

  /** `IdsOf` holds exactly the ids that some event of the list carries. */
  lemma {:induction false} IdsOfMembers(events: seq<Event>)
    ensures forall x :: x in IdsOf(events) <==> exists e :: e in events && e.id == Some(x)
  {
    if events != [] {
      IdsOfMembers(events[1..]);
      assert forall e :: e in events <==> e == events[0] || e in events[1..];
    }
  }

  lemma {:induction false} IdsOfAppend(a: seq<Event>, b: seq<Event>)
    ensures IdsOf(a + b) == IdsOf(a) + IdsOf(b)
  {
    if a == [] {
      assert a + b == b;
    } else {
      assert (a + b)[1..] == a[1..] + b;
      IdsOfAppend(a[1..], b);
    }
  }

  /** A list whose events all occur in another carries no other ids. */
  lemma IdsOfSubset(a: seq<Event>, b: seq<Event>)
    requires forall e :: e in a ==> e in b
    ensures IdsOf(a) <= IdsOf(b)
  {
    IdsOfMembers(a);
    IdsOfMembers(b);
    forall x | x in IdsOf(a) ensures x in IdsOf(b) {
      var e :| e in a && e.id == Some(x);
      assert e in b;
    }
  }

  /** No two events of `events` carry the same non-null id. */
  predicate DistinctIds(events: seq<Event>) {
    events == [] ||
    ((events[0].id.None? || events[0].id.value !in IdsOf(events[1..])) && DistinctIds(events[1..]))
  }

  lemma {:induction false} DistinctIdsAppend(a: seq<Event>, b: seq<Event>)
    ensures DistinctIds(a + b) <==> DistinctIds(a) && DistinctIds(b) && IdsOf(a) !! IdsOf(b)
  {
    if a == [] {
      assert a + b == b;
    } else {
      assert (a + b)[1..] == a[1..] + b;
      DistinctIdsAppend(a[1..], b);
      IdsOfAppend(a[1..], b);
    }
  }

  // ---------------------------------------------------------------------
  // The two filters: new events of a page, and removal after a delete
  // ---------------------------------------------------------------------

  /** An event is admitted when it has no id or its id was not seen. */
  predicate IsUnseen(e: Event, seen: set<int>) {
    e.id.None? || e.id.value !in seen
  }

  /** The events of `page`, in received order, that are unseen with respect
      to `seen`. `seen` is fixed for the whole page, so two events of one
      page with the same new id are both admitted. */
  function Unseen(page: seq<Event>, seen: set<int>): (r: seq<Event>)
    ensures |r| <= |page|
    ensures forall e :: e in r <==> e in page && IsUnseen(e, seen)
  {
    if page == [] then []
    else
      assert forall e :: e in page <==> e == page[0] || e in page[1..];
      (if IsUnseen(page[0], seen) then [page[0]] else []) + Unseen(page[1..], seen)
  }

  /** Filtering a page in two pieces is filtering it whole: the order of the
      admitted events is the order of the page. */
  lemma {:induction false} UnseenAppend(a: seq<Event>, b: seq<Event>, seen: set<int>)
    ensures Unseen(a + b, seen) == Unseen(a, seen) + Unseen(b, seen)
  {
    if a == [] {
      assert a + b == b;
    } else {
      assert (a + b)[1..] == a[1..] + b;
      UnseenAppend(a[1..], b, seen);
    }
  }

  /** A page none of whose ids has been seen is admitted whole. */
  lemma {:induction false} UnseenKeepsFreshPage(page: seq<Event>, seen: set<int>)
    requires IdsOf(page) !! seen
    ensures Unseen(page, seen) == page
  {
    if page != [] {
      assert page[0] in page;
      assert IdsOf(page[1..]) <= IdsOf(page);
      UnseenKeepsFreshPage(page[1..], seen);
      assert [page[0]] + page[1..] == page;
    }
  }

  lemma {:induction false} UnseenKeepsDistinct(page: seq<Event>, seen: set<int>)
    requires DistinctIds(page)
    ensures DistinctIds(Unseen(page, seen))
  {
    if page != [] {
      UnseenKeepsDistinct(page[1..], seen);
      var rest := Unseen(page[1..], seen);
      if IsUnseen(page[0], seen) {
        DistinctIdsAppend([page[0]], rest);
        IdsOfSubset(rest, page[1..]);
      } else {
        assert [] + rest == rest;
      }
    }
  }

  /** What `removeAll { $0.id == eventID }` leaves: the events that do not
      carry `id`, in their original order. */
  function WithoutId(events: seq<Event>, id: int): (r: seq<Event>)
    ensures |r| <= |events|
    ensures forall e :: e in r <==> e in events && e.id != Some(id)
  {
    if events == [] then []
    else
      assert forall e :: e in events <==> e == events[0] || e in events[1..];
      (if events[0].id == Some(id) then [] else [events[0]]) + WithoutId(events[1..], id)
  }

  lemma {:induction false} WithoutIdAppend(a: seq<Event>, b: seq<Event>, id: int)
    ensures WithoutId(a + b, id) == WithoutId(a, id) + WithoutId(b, id)
  {
    if a == [] {
      assert a + b == b;
    } else {
      assert (a + b)[1..] == a[1..] + b;
      WithoutIdAppend(a[1..], b, id);
    }
  }

  /** A list without `id` is left as it is. */
  lemma {:induction false} WithoutAbsentId(events: seq<Event>, id: int)
    requires id !in IdsOf(events)
    ensures WithoutId(events, id) == events
  {
    if events != [] {
      assert events[0] in events;
      assert IdsOf(events[1..]) <= IdsOf(events);
      WithoutAbsentId(events[1..], id);
      assert [events[0]] + events[1..] == events;
    }
  }

  // ---------------------------------------------------------------------
  // The state and its transitions
  // ---------------------------------------------------------------------

  datatype FeedState = FeedState(
    events: seq<Event>,
    loadedEventIDs: set<int>,
    isLoading: bool,
    isInitialLoad: bool,
    canLoadMorePages: bool,
    feedType: FeedType)

  /** The state of a freshly created view model. */
  const Initial: FeedState := FeedState([], {}, false, true, true, Events)

  /** The invariant every step keeps: the seen-id set is exactly the set of
      ids in the list. (Not "the ids in the list are distinct": see
      `SamePageDuplicatesAreKept`.) */
  predicate IdsTracked(s: FeedState) {
    IdsOf(s.events) == s.loadedEventIDs
  }

  /** A fetch starts only when none is in flight and the feed is not exhausted. */
  predicate MayFetch(s: FeedState) {
    !s.isLoading && s.canLoadMorePages
  }

  /** The `maxTs` cursor of the next page. */
  function Cursor(s: FeedState): Option<int> {
    if s.isInitialLoad then None
    else if s.events == [] then None
    else Some(s.events[|s.events| - 1].created)
  }

  /** The request of the next page: the repository call of the active feed,
      25 events, the cursor as `maxTs`, no `minTs`. */
  function PageRequest(s: FeedState, base: string, userName: string, userToken: string): Request {
    match s.feedType
    case Events => Repo.FetchFeedData(base, userName, userToken, ItemsPerPage, Cursor(s), None)
    case Following => Repo.FetchFollowListens(base, userName, userToken, ItemsPerPage, Cursor(s), None)
    case Similar => Repo.FetchSimilarListens(base, userName, userToken, ItemsPerPage, Cursor(s), None)
  }

  function Begin(s: FeedState): FeedState {
    if MayFetch(s) then s.(isLoading := true) else s
  }

  /** A delivered page: an empty one exhausts the feed; otherwise its unseen
      events are appended and their ids recorded. */
  function Receive(s: FeedState, page: seq<Event>): FeedState {
    if page == [] then s.(canLoadMorePages := false)
    else
      var admitted := Unseen(page, s.loadedEventIDs);
      s.(events := s.events + admitted, loadedEventIDs := s.loadedEventIDs + IdsOf(admitted))
  }

  /** The deferred flag reset that ends every started fetch. */
  function Complete(s: FeedState): FeedState {
    s.(isLoading := false, isInitialLoad := false)
  }

  function Reset(s: FeedState): FeedState {
    s.(isInitialLoad := true, canLoadMorePages := true, events := [], loadedEventIDs := {})
  }

  function SwitchFeed(s: FeedState, t: FeedType): FeedState {
    Reset(s.(feedType := t))
  }

  /** The success branch of a delete: the event leaves the list and its id
      leaves the seen set. */
  function RemoveEvent(s: FeedState, id: int): FeedState {
    s.(events := WithoutId(s.events, id), loadedEventIDs := s.loadedEventIDs - {id})
  }

  /** What the network answered to one fetch. */
  datatype FetchOutcome = Delivered(page: seq<Event>) | Failed

  /** One uninterrupted call of the fetch: the guard, then (when it passes)
      the merge of a delivered page, then the deferred flag reset. */
  function Fetch(s: FeedState, outcome: FetchOutcome): FeedState {
    if !MayFetch(s) then s
    else
      var begun := Begin(s);
      var received := match outcome
        case Delivered(page) => Receive(begun, page)
        case Failed => begun;
      Complete(received)
  }

  /** The steps the view model can take, in any interleaving. */
  datatype Action =
    | BeginFetch
    | ReceivePage(page: seq<Event>)
    | CompleteFetch
    | ResetPagination
    | ChangeFeed(feedType: FeedType)
    | DeleteSucceeded(id: int)

  function Apply(s: FeedState, a: Action): FeedState {
    match a
    case BeginFetch => Begin(s)
    case ReceivePage(page) => Receive(s, page)
    case CompleteFetch => Complete(s)
    case ResetPagination => Reset(s)
    case ChangeFeed(t) => SwitchFeed(s, t)
    case DeleteSucceeded(id) => RemoveEvent(s, id)
  }

  function Run(s: FeedState, actions: seq<Action>): FeedState
    decreases |actions|
  {
    if actions == [] then s else Run(Apply(s, actions[0]), actions[1..])
  }

  predicate Restarts(a: Action) {
    a.ResetPagination? || a.ChangeFeed?
  }

  // ---------------------------------------------------------------------
  // Properties of the transitions
  // ---------------------------------------------------------------------

  /** A fetch called while one is in flight, or after the feed is exhausted,
      changes nothing; otherwise it starts and changes only `isLoading`. */
  lemma BeginGuard(s: FeedState)
    ensures !MayFetch(s) ==> Begin(s) == s
    ensures MayFetch(s) ==> Begin(s).isLoading && !MayFetch(Begin(s)) && Begin(s).(isLoading := false) == s
  {
  }

  /** The request follows fixed rules: the active feed's URL, 25 events, no
      `min_ts`, and `max_ts` only after the initial load, taken from the
      last loaded event. */
  lemma PageRequestRules(s: FeedState, base: string, userName: string, userToken: string)
    ensures var r := PageRequest(s, base, userName, userToken);
      && r.verb == Get
      && r.url == (match s.feedType
                   case Events => Repo.FeedEventsUrl(base, userName)
                   case Following => Repo.FollowListensUrl(base, userName)
                   case Similar => Repo.SimilarListensUrl(base, userName))
      && Repo.IntParameter(r.parameters, "count") == Some(25)
      && "min_ts" !in r.parameters
      && ("max_ts" in r.parameters <==> !s.isInitialLoad && s.events != [])
      && (!s.isInitialLoad && s.events != [] ==>
            Repo.IntParameter(r.parameters, "max_ts") == Some(s.events[|s.events| - 1].created))
      && Repo.TokenOf(r.headers["Authorization"]) == Some(userToken)
  {
  }

  /** The merge of a page keeps the seen-id set equal to the list's ids. */
  lemma ReceiveKeepsIdsTracked(s: FeedState, page: seq<Event>)
    requires IdsTracked(s)
    ensures IdsTracked(Receive(s, page))
  {
    if page != [] {
      IdsOfAppend(s.events, Unseen(page, s.loadedEventIDs));
    }
  }

  /** Removing an event keeps the seen-id set equal to the list's ids. */
  lemma RemoveKeepsIdsTracked(s: FeedState, id: int)
    requires IdsTracked(s)
    ensures IdsTracked(RemoveEvent(s, id))
  {
    var r := WithoutId(s.events, id);
    IdsOfMembers(r);
    IdsOfMembers(s.events);
    forall x ensures x in IdsOf(r) <==> x in s.loadedEventIDs - {id} {
      if x in IdsOf(r) {
        var e :| e in r && e.id == Some(x);
        assert e in s.events;
      }
    }
  }

  /** Every step, in any order, keeps the seen-id set equal to the list's ids. */
  lemma {:induction false} RunKeepsIdsTracked(s: FeedState, actions: seq<Action>)
    requires IdsTracked(s)
    ensures IdsTracked(Run(s, actions))
    decreases |actions|
  {
    if actions != [] {
      if actions[0].ReceivePage? {
        ReceiveKeepsIdsTracked(s, actions[0].page);
      } else if actions[0].DeleteSucceeded? {
        RemoveKeepsIdsTracked(s, actions[0].id);
      }
      RunKeepsIdsTracked(Apply(s, actions[0]), actions[1..]);
    }
  }

  /** An empty page exhausts the feed and leaves the list and the seen set
      alone; a non-empty page keeps the old list as a prefix and appends
      exactly the page's events that have no id or an id not seen before. */
  lemma ReceiveShape(s: FeedState, page: seq<Event>)
    ensures var r := Receive(s, page);
      && r.isLoading == s.isLoading && r.isInitialLoad == s.isInitialLoad && r.feedType == s.feedType
      && (page == [] ==> !r.canLoadMorePages && r.events == s.events && r.loadedEventIDs == s.loadedEventIDs)
      && (page != [] ==>
            && r.canLoadMorePages == s.canLoadMorePages
            && |s.events| <= |r.events|
            && r.events[..|s.events|] == s.events
            && (forall e :: e in r.events[|s.events|..] <==> e in page && (e.id.None? || e.id.value !in s.loadedEventIDs)))
  {
  }

  /** An id already loaded is never admitted again: no event appended by
      the merge carries it, so the events carrying it after the merge are
      those that carried it before. */
  lemma SeenIdsNotReadmitted(s: FeedState, page: seq<Event>, x: int)
    requires x in s.loadedEventIDs
    ensures forall i :: |s.events| <= i < |Receive(s, page).events| ==> Receive(s, page).events[i].id != Some(x)
    ensures forall e :: e in Receive(s, page).events && e.id == Some(x) ==> e in s.events
  {
    if page != [] {
      var admitted := Unseen(page, s.loadedEventIDs);
      forall i | |s.events| <= i < |Receive(s, page).events|
        ensures Receive(s, page).events[i].id != Some(x)
      {
        assert Receive(s, page).events[i] == admitted[i - |s.events|];
        assert admitted[i - |s.events|] in admitted;
      }
    }
  }

  /** When the list and every page have distinct ids, so does the merged list. */
  lemma ReceiveKeepsDistinctIds(s: FeedState, page: seq<Event>)
    requires IdsTracked(s) && DistinctIds(s.events) && DistinctIds(page)
    ensures DistinctIds(Receive(s, page).events)
  {
    if page != [] {
      var admitted := Unseen(page, s.loadedEventIDs);
      UnseenKeepsDistinct(page, s.loadedEventIDs);
      IdsOfMembers(admitted);
      forall x | x in IdsOf(admitted) ensures x !in IdsOf(s.events) {
        var e :| e in admitted && e.id == Some(x);
      }
      DistinctIdsAppend(s.events, admitted);
    }
  }

  /** The filter only looks at ids of earlier pages: a page holding the same
      id twice puts both events into the list. */
  lemma SamePageDuplicatesAreKept()
    ensures var page := [Event(Some(7), "pin", 20), Event(Some(7), "pin", 10)];
      && IdsTracked(Initial) && DistinctIds(Initial.events)
      && Receive(Initial, page).events == page
      && !DistinctIds(Receive(Initial, page).events)
  {
  }

  /** A failed or a successful fetch alike ends with both flags down; a
      failure leaves the list, the seen set and the exhaustion flag as they
      were; a fetch refused by the guard changes nothing at all. */
  lemma FetchEnds(s: FeedState, outcome: FetchOutcome)
    ensures !MayFetch(s) ==> Fetch(s, outcome) == s
    ensures MayFetch(s) ==> !Fetch(s, outcome).isLoading && !Fetch(s, outcome).isInitialLoad
    ensures MayFetch(s) && outcome.Failed? ==>
      && Fetch(s, outcome).events == s.events
      && Fetch(s, outcome).loadedEventIDs == s.loadedEventIDs
      && Fetch(s, outcome).canLoadMorePages == s.canLoadMorePages
      && Fetch(s, outcome).feedType == s.feedType
  {
  }

  /** Once exhausted, the feed stays exhausted until it is reset or switched,
      and no further fetch starts. */
  lemma {:induction false} ExhaustionSticks(s: FeedState, actions: seq<Action>)
    requires !s.canLoadMorePages
    requires forall i :: 0 <= i < |actions| ==> !Restarts(actions[i])
    ensures !Run(s, actions).canLoadMorePages && !MayFetch(Run(s, actions))
    decreases |actions|
  {
    if actions != [] {
      assert !Restarts(actions[0]);
      ExhaustionSticks(Apply(s, actions[0]), actions[1..]);
    }
  }

  /** After a reset, or after switching feeds, the list and the seen set are
      empty and both the exhaustion and the initial-load flags are raised. */
  lemma ResetShape(s: FeedState, t: FeedType)
    ensures var r := Reset(s);
      r.events == [] && r.loadedEventIDs == {} && r.canLoadMorePages && r.isInitialLoad
      && r.feedType == s.feedType && r.isLoading == s.isLoading && IdsTracked(r)
    ensures var c := SwitchFeed(s, t);
      c == Reset(s).(feedType := t) && c.feedType == t && IdsTracked(c)
  {
  }

  /** A successful delete removes every event with that id and only those,
      in order, and forgets the id; ids of other events stay. */
  lemma RemoveShape(s: FeedState, id: int)
    requires IdsTracked(s)
    ensures var r := RemoveEvent(s, id);
      && id !in r.loadedEventIDs && id !in IdsOf(r.events)
      && (forall e :: e in r.events <==> e in s.events && e.id != Some(id))
      && r.loadedEventIDs == s.loadedEventIDs - {id}
      && (forall k :: 0 <= k <= |s.events| ==>
            r.events == WithoutId(s.events[..k], id) + WithoutId(s.events[k..], id))
  {
    RemoveKeepsIdsTracked(s, id);
    forall k | 0 <= k <= |s.events|
      ensures WithoutId(s.events, id) == WithoutId(s.events[..k], id) + WithoutId(s.events[k..], id)
    {
      assert s.events[..k] + s.events[k..] == s.events;
      WithoutIdAppend(s.events[..k], s.events[k..], id);
    }
  }

  /** Deleting an event forgets its id, so a later page that carries the
      same id again is admitted. */
  lemma DeletedIdIsReadmitted(s: FeedState, id: int, e: Event, page: seq<Event>)
    requires e.id == Some(id) && e in page
    ensures e in Receive(RemoveEvent(s, id), page).events
    ensures id in Receive(RemoveEvent(s, id), page).loadedEventIDs
  {
    var d := RemoveEvent(s, id);
    var admitted := Unseen(page, d.loadedEventIDs);
    assert e in admitted;
    assert e in d.events + admitted;
    IdsOfMembers(admitted);
  }

  /** The pages laid end to end, in arrival order. */
  function Concat(pages: seq<seq<Event>>): seq<Event> {
    if pages == [] then [] else pages[0] + Concat(pages[1..])
  }

  /** Every page is non-empty and carries no id loaded before it arrives,
      whether on an earlier page or before the first. */
  predicate FreshPages(seen: set<int>, pages: seq<seq<Event>>)
    decreases |pages|
  {
    pages == [] ||
    (pages[0] != [] && IdsOf(pages[0]) !! seen && FreshPages(seen + IdsOf(pages[0]), pages[1..]))
  }

  /** One fetch delivering a non-empty page of new ids appends it whole and
      leaves the feed ready for the next fetch. */
  lemma FetchFreshPage(s: FeedState, page: seq<Event>)
    requires MayFetch(s)
    requires page != [] && IdsOf(page) !! s.loadedEventIDs
    ensures Fetch(s, Delivered(page))
         == s.(events := s.events + page, loadedEventIDs := s.loadedEventIDs + IdsOf(page), isInitialLoad := false)
  {
    UnseenKeepsFreshPage(page, s.loadedEventIDs);
  }

  /** Uninterrupted fetches, one per page, each delivering its page. */
  function FetchAll(s: FeedState, pages: seq<seq<Event>>): FeedState
    decreases |pages|
  {
    if pages == [] then s else FetchAll(Fetch(s, Delivered(pages[0])), pages[1..])
  }

  /** Fetches that deliver non-empty pages of new ids are each admitted by
      the guard and append their pages whole, in arrival order; the feed
      then still accepts the next fetch. */
  lemma {:induction false} FetchAllAppendsFreshPages(s: FeedState, pages: seq<seq<Event>>)
    requires MayFetch(s)
    requires FreshPages(s.loadedEventIDs, pages)
    ensures FetchAll(s, pages).events == s.events + Concat(pages)
    ensures MayFetch(FetchAll(s, pages))
    ensures pages != [] ==> !FetchAll(s, pages).isInitialLoad
    ensures FetchAll(s, pages).feedType == s.feedType
    decreases |pages|
  {
    if pages != [] {
      var s1 := Fetch(s, Delivered(pages[0]));
      FetchFreshPage(s, pages[0]);
      assert FreshPages(s1.loadedEventIDs, pages[1..]);
      FetchAllAppendsFreshPages(s1, pages[1..]);
      assert FetchAll(s, pages) == FetchAll(s1, pages[1..]);
      assert Concat(pages) == pages[0] + Concat(pages[1..]);
      assert s.events + Concat(pages) == s1.events + Concat(pages[1..]);
    }
  }

  /** A delete keeps a list with distinct ids distinct. */
  lemma {:induction false} WithoutIdKeepsDistinct(events: seq<Event>, id: int)
    requires DistinctIds(events)
    ensures DistinctIds(WithoutId(events, id))
  {
    if events != [] {
      WithoutIdKeepsDistinct(events[1..], id);
      var rest := WithoutId(events[1..], id);
      if events[0].id == Some(id) {
        assert [] + rest == rest;
      } else {
        DistinctIdsAppend([events[0]], rest);
        IdsOfSubset(rest, events[1..]);
      }
    }
  }

  /** In any interleaving of steps, the list keeps distinct ids as long as
      every delivered page has distinct ids. */
  lemma {:induction false} RunKeepsDistinctIds(s: FeedState, actions: seq<Action>)
    requires IdsTracked(s) && DistinctIds(s.events)
    requires forall i :: 0 <= i < |actions| && actions[i].ReceivePage? ==> DistinctIds(actions[i].page)
    ensures DistinctIds(Run(s, actions).events)
    decreases |actions|
  {
    if actions != [] {
      var a := actions[0];
      if a.ReceivePage? {
        ReceiveKeepsDistinctIds(s, a.page);
        ReceiveKeepsIdsTracked(s, a.page);
      } else if a.DeleteSucceeded? {
        WithoutIdKeepsDistinct(s.events, a.id);
        RemoveKeepsIdsTracked(s, a.id);
      }
      assert forall i :: 0 <= i < |actions| - 1 ==> actions[1..][i] == actions[i + 1];
      RunKeepsDistinctIds(Apply(s, a), actions[1..]);
    }
  }

  /** A delete of an id the list does not hold changes nothing. */
  lemma RemoveAbsentIdIsNoop(s: FeedState, id: int)
    requires IdsTracked(s) && id !in s.loadedEventIDs
    ensures RemoveEvent(s, id) == s
  {
    WithoutAbsentId(s.events, id);
  }

  /** A first page of 25 events created at 1000 down to 976: the next
      request asks for events before 976. */
  lemma SecondPageCursor(base: string, userName: string, userToken: string)
    ensures var page := seq(25, i requires 0 <= i < 25 => Event(Some(i), "listen", 1000 - i));
      var s := Fetch(Initial, Delivered(page));
      && s.events == page
      && Cursor(s) == Some(976)
      && Repo.IntParameter(PageRequest(s, base, userName, userToken).parameters, "max_ts") == Some(976)
  {
    var page := seq(25, i requires 0 <= i < 25 => Event(Some(i), "listen", 1000 - i));
    assert IdsOf(page) !! {};
    UnseenKeepsFreshPage(page, {});
    PageRequestRules(Fetch(Initial, Delivered(page)), base, userName, userToken);
  }

  // ---------------------------------------------------------------------
  // The view model
  // ---------------------------------------------------------------------

  class FeedViewModel {
    var events: seq<Event>
    var isLoading: bool
    var isInitialLoad: bool
    var canLoadMorePages: bool
    var feedType: FeedType
    var loadedEventIDs: set<int>

    function State(): FeedState
      reads this
    {
      FeedState(events, loadedEventIDs, isLoading, isInitialLoad, canLoadMorePages, feedType)
    }

    ghost predicate Valid()
      reads this
    {
      IdsTracked(State())
    }

    constructor ()
      ensures State() == Initial && Valid()
    {
      events := [];
      isLoading := false;
      isInitialLoad := true;
      canLoadMorePages := true;
      feedType := Events;
      loadedEventIDs := {};
    }

    /** The first half of `fetchFeedEvents`: the guard, then `isLoading`
        and the request for the next page. `None` when the guard refuses. */
    method BeginFetch(base: string, userName: string, userToken: string) returns (request: Option<Request>)
      requires Valid()
      modifies this
      ensures Valid() && State() == Begin(old(State()))
      ensures request.None? <==> !MayFetch(old(State()))
      ensures request.Some? ==> request.value == PageRequest(old(State()), base, userName, userToken)
    {
      if isLoading || !canLoadMorePages {
        return None;
      }
      isLoading := true;
      var maxTs: Option<int>;
      if isInitialLoad {
        maxTs := None;
      } else if |events| > 0 {
        maxTs := Some(events[|events| - 1].created);
      } else {
        maxTs := None;
      }
      match feedType
      case Events =>
        request := Some(Repo.FetchFeedData(base, userName, userToken, ItemsPerPage, maxTs, None));
      case Following =>
        request := Some(Repo.FetchFollowListens(base, userName, userToken, ItemsPerPage, maxTs, None));
      case Similar =>
        request := Some(Repo.FetchSimilarListens(base, userName, userToken, ItemsPerPage, maxTs, None));
    }

    /** The value handler of the feed publisher: merge one delivered page. */
    method ReceivePage(page: seq<Event>)
      requires Valid()
      modifies this
      ensures Valid() && State() == Receive(old(State()), page)
    {
      ghost var before := State();
      if |page| == 0 {
        canLoadMorePages := false;
      } else {
        var uniqueEvents := Unseen(page, loadedEventIDs);
        ghost var seen := loadedEventIDs;
        var i := 0;
        while i < |uniqueEvents|
          invariant 0 <= i <= |uniqueEvents|
          invariant loadedEventIDs == seen + IdsOf(uniqueEvents[..i])
          invariant State() == before.(loadedEventIDs := loadedEventIDs)
        {
          assert uniqueEvents[..i + 1] == uniqueEvents[..i] + [uniqueEvents[i]];
          IdsOfAppend(uniqueEvents[..i], [uniqueEvents[i]]);
          if uniqueEvents[i].id.Some? {
            loadedEventIDs := loadedEventIDs + {uniqueEvents[i].id.value};
          }
          i := i + 1;
        }
        assert uniqueEvents[..i] == uniqueEvents;
        events := events + uniqueEvents;
      }
      ReceiveKeepsIdsTracked(before, page);
    }

    /** The deferred reset of the flags, after success or failure alike. */
    method CompleteFetch()
      requires Valid()
      modifies this
      ensures Valid() && State() == Complete(old(State()))
    {
      isLoading := false;
      isInitialLoad := false;
    }

    method ResetPagination()
      modifies this
      ensures Valid() && State() == Reset(old(State()))
    {
      isInitialLoad := true;
      canLoadMorePages := true;
      events := [];
      loadedEventIDs := {};
    }

    method ChangeFeedType(t: FeedType)
      modifies this
      ensures Valid() && State() == SwitchFeed(old(State()), t)
    {
      feedType := t;
      ResetPagination();
    }

    /** The completion handler of `deleteEvent` when the server accepted it.
        (The feed screen passes `event.id ?? 1` as the id, so deleting an
        event without an id removes the events whose id is 1; the screen also
        keys its rows by `created`, not by id. Both are outside this model.) */
    method DeleteSucceeded(eventID: int)
      requires Valid()
      modifies this
      ensures Valid() && State() == RemoveEvent(old(State()), eventID)
    {
      events := WithoutId(events, eventID);
      loadedEventIDs := loadedEventIDs - {eventID};
      RemoveKeepsIdsTracked(old(State()), eventID);
    }
  }
}
