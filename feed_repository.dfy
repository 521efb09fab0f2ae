/** The request-building half of the feed repository: which URL, which
    parameters, which headers and which JSON body each call hands to the HTTP
    library, and the local guard that refuses a review before any request is
    made. The transport itself (sending, status validation, decoding the
    response) is outside this module; every function here returns the request
    that would be sent. `base` stands for the configured API base URL. */
module FeedRepository {
  import opened FeedTypes

  // ---------------------------------------------------------------------
  // Headers
  // ---------------------------------------------------------------------

  const AuthorizationScheme: string := "Token "

  /** Reads the user token back out of an Authorization header value. */
  function TokenOf(header: string): Option<string> {
    if |header| >= |AuthorizationScheme| && header[..|AuthorizationScheme|] == AuthorizationScheme
    then Some(header[|AuthorizationScheme|..])
    else None
  }

  /** The Authorization header value: the token under the "Token" scheme. */
  function AuthorizationHeader(userToken: string): (h: string)
    ensures TokenOf(h) == Some(userToken)
  {
    var h := AuthorizationScheme + userToken;
    assert h[..|AuthorizationScheme|] == AuthorizationScheme;
    assert h[|AuthorizationScheme|..] == userToken;
    h
  }

  /** Headers of a feed GET: the Authorization header alone. */
  function FeedHeaders(userToken: string): (hs: map<string, string>)
    ensures hs.Keys == {"Authorization"}
    ensures TokenOf(hs["Authorization"]) == Some(userToken)
  {
    map["Authorization" := AuthorizationHeader(userToken)]
  }

  /** Headers of every JSON POST: Authorization plus the JSON content type. */
  function JsonHeaders(userToken: string): (hs: map<string, string>)
    ensures hs.Keys == {"Authorization", "Content-Type"}
    ensures TokenOf(hs["Authorization"]) == Some(userToken)
    ensures hs["Content-Type"] == "application/json"
  {
    map["Authorization" := AuthorizationHeader(userToken), "Content-Type" := "application/json"]
  }

  // ---------------------------------------------------------------------
  // Feed pages
  // ---------------------------------------------------------------------

  /** The user's own feed; the other feed endpoints live under it. */
  function FeedEventsUrl(base: string, userName: string): string {
    base + "/user/" + userName + "/feed/events"
  }

  function FollowListensUrl(base: string, userName: string): string {
    FeedEventsUrl(base, userName) + "/listens/following"
  }

  function SimilarListensUrl(base: string, userName: string): string {
    FeedEventsUrl(base, userName) + "/listens/similar"
  }

  /** The three feed fetches of one user target three different URLs, all
      under the user's own feed URL. */
  lemma FeedUrlsDistinct(base: string, userName: string)
    ensures FeedEventsUrl(base, userName) != FollowListensUrl(base, userName)
    ensures FeedEventsUrl(base, userName) != SimilarListensUrl(base, userName)
    ensures FollowListensUrl(base, userName) != SimilarListensUrl(base, userName)
    ensures forall u :: u in {FeedEventsUrl(base, userName), FollowListensUrl(base, userName), SimilarListensUrl(base, userName)}
              ==> |u| >= |FeedEventsUrl(base, userName)| && u[..|FeedEventsUrl(base, userName)|] == FeedEventsUrl(base, userName)
  {
  }

  /** Reads an integer parameter back, if it is present and an integer. */
  function IntParameter(parameters: map<string, Value>, key: string): Option<int> {
    if key in parameters && parameters[key].Int? then Some(parameters[key].i) else None
  }

  /** The query parameters of a feed page: `count` always, `max_ts` and
      `min_ts` only when given. */
  function FeedQueryParameters(count: int, maxTs: Option<int>, minTs: Option<int>): (p: map<string, Value>)
    ensures p.Keys == {"count"} + (if maxTs.Some? then {"max_ts"} else {}) + (if minTs.Some? then {"min_ts"} else {})
    ensures IntParameter(p, "count") == Some(count)
    ensures IntParameter(p, "max_ts") == maxTs
    ensures IntParameter(p, "min_ts") == minTs
  {
    var withCount := map["count" := Int(count)];
    var withMax := if maxTs.Some? then withCount["max_ts" := Int(maxTs.value)] else withCount;
    if minTs.Some? then withMax["min_ts" := Int(minTs.value)] else withMax
  }

  /** A feed page GET against `url`, parameters in the query string. */
  function MakeFeedRequest(url: string, userToken: string, count: int, maxTs: Option<int>, minTs: Option<int>): (r: Request)
    ensures r.verb == Get && r.encoding == UrlQuery && r.url == url
    ensures IntParameter(r.parameters, "count") == Some(count)
    ensures IntParameter(r.parameters, "max_ts") == maxTs
    ensures IntParameter(r.parameters, "min_ts") == minTs
    ensures r.headers.Keys == {"Authorization"} && TokenOf(r.headers["Authorization"]) == Some(userToken)
  {
    Request(Get, url, FeedQueryParameters(count, maxTs, minTs), UrlQuery, FeedHeaders(userToken))
  }

  function FetchFeedData(base: string, userName: string, userToken: string, count: int, maxTs: Option<int>, minTs: Option<int>): Request {
    MakeFeedRequest(FeedEventsUrl(base, userName), userToken, count, maxTs, minTs)
  }

  function FetchFollowListens(base: string, userName: string, userToken: string, count: int, maxTs: Option<int>, minTs: Option<int>): Request {
    MakeFeedRequest(FollowListensUrl(base, userName), userToken, count, maxTs, minTs)
  }

  function FetchSimilarListens(base: string, userName: string, userToken: string, count: int, maxTs: Option<int>, minTs: Option<int>): Request {
    MakeFeedRequest(SimilarListensUrl(base, userName), userToken, count, maxTs, minTs)
  }

  // ---------------------------------------------------------------------
  // Pinning
  // ---------------------------------------------------------------------

  /** A pin lasts one week. */
  const PinDuration: int := 7 * 24 * 60 * 60

  /** Swift's `Int(x)` for a floating-point `x`: truncation toward zero. */
  function TruncateToInt(x: real): int {
    if x >= 0.0 then x.Floor else -((-x).Floor)
  }

  /** The JSON body of a pin, `now` being the clock in seconds since 1970. */
  function PinBody(recordingMsid: string, recordingMbid: Option<string>, blurbContent: Option<string>, now: real): map<string, Value> {
    map[
      "recording_msid" := Str(recordingMsid),
      "recording_mbid" := StringOrNull(recordingMbid),
      "blurb_content" := Str(blurbContent.GetOr("")),
      "pinned_until" := Int(TruncateToInt(now + PinDuration as real))
    ]
  }

  function PinTrack(base: string, recordingMsid: string, recordingMbid: Option<string>, blurbContent: Option<string>, userToken: string, now: real): Request {
    Request(Post, base + "/pin", PinBody(recordingMsid, recordingMbid, blurbContent, now), JsonBody, JsonHeaders(userToken))
  }

  /** `Int(now + 604800)` is the whole part of `now` plus one week, for any
      clock reading since 1970. */
  lemma PinnedUntilIsOneWeekLater(now: real)
    requires now >= 0.0
    ensures TruncateToInt(now + PinDuration as real) == now.Floor + 604800
  {
  }

  /** The pin body has exactly its four keys; the MBID reads back as given
      (null when absent), a missing blurb is sent as the empty string, and
      the pin expires one week after `now`. */
  lemma PinBodyShape(base: string, recordingMsid: string, recordingMbid: Option<string>, blurbContent: Option<string>, userToken: string, now: real)
    requires now >= 0.0
    ensures var r := PinTrack(base, recordingMsid, recordingMbid, blurbContent, userToken, now);
      && r.verb == Post && r.encoding == JsonBody && r.url == base + "/pin"
      && r.parameters.Keys == {"recording_msid", "recording_mbid", "blurb_content", "pinned_until"}
      && r.parameters["recording_msid"] == Str(recordingMsid)
      && OptionalString(r.parameters["recording_mbid"]) == recordingMbid
      && (recordingMbid.None? ==> r.parameters["recording_mbid"] == Null)
      && (blurbContent.None? ==> r.parameters["blurb_content"] == Str(""))
      && (blurbContent.Some? ==> r.parameters["blurb_content"] == Str(blurbContent.value))
      && IntParameter(r.parameters, "pinned_until") == Some(now.Floor + PinDuration)
      && r.headers == JsonHeaders(userToken)
  {
  }

  // ---------------------------------------------------------------------
  // Deleting an event
  // ---------------------------------------------------------------------

  function DeleteEvent(base: string, userName: string, eventID: int, eventType: string, userToken: string): (r: Request)
    ensures r.verb == Post && r.encoding == JsonBody
    ensures r.url == FeedEventsUrl(base, userName) + "/delete"
    ensures r.headers == JsonHeaders(userToken)
    ensures r.parameters.Keys == {"event_type", "id"}
    ensures OptionalString(r.parameters["event_type"]) == Some(eventType)
    ensures IntParameter(r.parameters, "id") == Some(eventID)
  {
    Request(Post, base + "/user/" + userName + "/feed/events/delete",
            map["event_type" := Str(eventType), "id" := Int(eventID)], JsonBody, JsonHeaders(userToken))
  }

  // ---------------------------------------------------------------------
  // Recommendations
  // ---------------------------------------------------------------------

  /** The track fields the create-event calls read from the selected item. */
  datatype TrackItem = TrackItem(trackName: Option<string>, recordingMsid: Option<string>, recordingMbid: Option<string>)

  function RecordingEventUrl(base: string, userName: string): string {
    base + "/user/" + userName + "/timeline-event/create/recording"
  }

  /** Adds the two recording ids of `item` to `metadata`, null when absent. */
  function WithRecordingIds(metadata: map<string, Value>, item: TrackItem): map<string, Value> {
    var withMsid := metadata["recording_msid" := StringOrNull(item.recordingMsid)];
    withMsid["recording_mbid" := StringOrNull(item.recordingMbid)]
  }

  function StringArray(ss: seq<string>): (v: Value)
    ensures v.Array? && |v.items| == |ss|
    ensures forall i :: 0 <= i < |ss| ==> v.items[i] == Str(ss[i])
  {
    Array(seq(|ss|, i requires 0 <= i < |ss| => Str(ss[i])))
  }

  function FollowersMetadata(item: TrackItem): map<string, Value> {
    WithRecordingIds(map[], item)
  }

  function PersonalMetadata(item: TrackItem, users: seq<string>, blurbContent: string): map<string, Value> {
    WithRecordingIds(map["users" := StringArray(users), "blurb_content" := Str(blurbContent)], item)
  }

  function RecommendToFollowers(base: string, userName: string, item: TrackItem, userToken: string): Request {
    Request(Post, RecordingEventUrl(base, userName), map["metadata" := Object(FollowersMetadata(item))],
            JsonBody, JsonHeaders(userToken))
  }

  function RecommendToUsersPersonally(base: string, userName: string, item: TrackItem, users: seq<string>,
                                      blurbContent: string, userToken: string): Request {
    Request(Post, RecordingEventUrl(base, userName), map["metadata" := Object(PersonalMetadata(item, users, blurbContent))],
            JsonBody, JsonHeaders(userToken))
  }

  /** Both recommendations are JSON POSTs to the recording-event endpoint
      with a lone `metadata` key. The followers' metadata holds just the two
      recording ids, each reading back as given and null when absent; the
      personal metadata holds the same two entries plus the recipients and
      the blurb. */
  lemma RecommendationBodies(base: string, userName: string, item: TrackItem, users: seq<string>,
                             blurbContent: string, userToken: string)
    ensures var f := RecommendToFollowers(base, userName, item, userToken);
            var p := RecommendToUsersPersonally(base, userName, item, users, blurbContent, userToken);
      && f.verb == Post && p.verb == Post && f.encoding == JsonBody && p.encoding == JsonBody
      && f.url == RecordingEventUrl(base, userName) && p.url == RecordingEventUrl(base, userName)
      && f.headers == JsonHeaders(userToken) && p.headers == JsonHeaders(userToken)
      && f.parameters.Keys == {"metadata"} && p.parameters.Keys == {"metadata"}
      && f.parameters["metadata"].Object? && p.parameters["metadata"].Object?
      && var fm := f.parameters["metadata"].fields;
         var pm := p.parameters["metadata"].fields;
         && fm.Keys == {"recording_msid", "recording_mbid"}
         && OptionalString(fm["recording_msid"]) == item.recordingMsid
         && OptionalString(fm["recording_mbid"]) == item.recordingMbid
         && (item.recordingMsid.None? ==> fm["recording_msid"] == Null)
         && (item.recordingMbid.None? ==> fm["recording_mbid"] == Null)
         && pm.Keys == fm.Keys + {"users", "blurb_content"}
         && (forall k :: k in fm ==> pm[k] == fm[k])
         && pm["users"] == StringArray(users)
         && pm["blurb_content"] == Str(blurbContent)
  {
  }

  // ---------------------------------------------------------------------
  // Reviews
  // ---------------------------------------------------------------------

  /** Shortest review text accepted locally (in characters). */
  const MinReviewLength: nat := 25

  function ReviewUrl(base: string, userName: string): string {
    base + "/user/" + userName + "/timeline-event/create/review"
  }

  /** The review call: `None` is the local rejection (the failed publisher
      returned without any request), `Some` the POST that would be sent.
      `language` is accepted but the payload always says "en". */
  function WriteAReview(base: string, userName: string, item: TrackItem, userToken: string,
                        entityName: string, entityId: string, entityType: string,
                        text: string, language: string, rating: int): (r: Option<Request>)
    ensures r.None? <==> item.trackName.None? || item.recordingMsid.None? || |text| < MinReviewLength || rating < 1 || 5 < rating
    ensures r.Some? ==>
      && r.value.verb == Post && r.value.encoding == JsonBody
      && r.value.url == ReviewUrl(base, userName)
      && r.value.headers == JsonHeaders(userToken)
      && r.value.parameters.Keys == {"metadata"} && r.value.parameters["metadata"].Object?
      && var m := r.value.parameters["metadata"].fields;
         && m.Keys == {"entity_name", "entity_id", "entity_type", "text", "language", "rating"}
         && m["language"] == Str("en")
         && m["text"] == Str(text) && m["rating"] == Int(rating)
         && m["entity_name"] == Str(entityName) && m["entity_id"] == Str(entityId) && m["entity_type"] == Str(entityType)
  {
    if item.trackName == None || item.recordingMsid == None || !(|text| >= MinReviewLength) || !(1 <= rating <= 5) then
      None
    else
      var metadata := map[
        "entity_name" := Str(entityName),
        "entity_id" := Str(entityId),
        "entity_type" := Str(entityType),
        "text" := Str(text),
        "language" := Str("en"),
        "rating" := Int(rating)
      ];
      Some(Request(Post, ReviewUrl(base, userName), map["metadata" := Object(metadata)], JsonBody, JsonHeaders(userToken)))
  }

  /** The caller's `language` never reaches the request. */
  lemma ReviewIgnoresLanguage(base: string, userName: string, item: TrackItem, userToken: string,
                              entityName: string, entityId: string, entityType: string,
                              text: string, language1: string, language2: string, rating: int)
    ensures WriteAReview(base, userName, item, userToken, entityName, entityId, entityType, text, language1, rating)
         == WriteAReview(base, userName, item, userToken, entityName, entityId, entityType, text, language2, rating)
  {
  }
}
