/** The playback routes of the local server: list playlists, read the queue, queue a random track
    of a playlist, skip, pause. Each route first obtains a token from the token store, then talks
    to the music service; the service's answers are inputs and the requests sent are outputs. */
module PlaybackGateway {
  import opened PyBuiltins
  import opened PyDict
  import opened Http
  import opened TokenStore

  /** The `limit` of every playlist-tracks request, and the step of its `offset`. */
  const PAGE_SIZE := 100

  /** The requests sent to the music service, each with its `Authorization` header. */
  datatype ApiRequest =
    | GetPlaylists(auth: string)
    | GetQueue(auth: string)
    | GetTracks(playlistId: string, limit: int, offset: int, auth: string)
    | PostToQueue(uri: string, auth: string)
    | PostNext(auth: string)
    | PutPause(auth: string)

  /** `f"Bearer {access_token}"`. */
  function Bearer(token: Option<string>): string
  {
    "Bearer " + Show(token)
  }

  // ---------------------------------------------------------------------------------------------
  // Projections: /playlists and /get_queue

  /** An element the projection can read: an object holding every kept field. */
  predicate HasFields(item: Json, keep: set<string>)
  {
    item.JObj? && keep <= item.fields.Keys
  }

  /** The object literal a route builds from one element: the kept fields and nothing else. */
  function Restrict(item: Json, keep: set<string>): (r: Json)
    requires HasFields(item, keep)
    ensures r.JObj? && r.fields.Keys == keep
    ensures forall f :: f in keep ==> r.fields[f] == item.fields[f]
  {
    JObj(map f | f in keep :: item.fields[f])
  }

  /** The list a projection loop appends, or `None` for the `KeyError`/`TypeError` raised at the
      first element it cannot read. */
  function Project(items: seq<Json>, keep: set<string>): (r: Option<seq<Json>>)
    ensures r.Some? <==> forall i :: 0 <= i < |items| ==> HasFields(items[i], keep)
    ensures r.Some? ==> |r.value| == |items|
                        && forall i :: 0 <= i < |items| ==> r.value[i] == Restrict(items[i], keep)
  {
    if items == [] then Some([])
    else
      var last := items[|items| - 1];
      match Project(items[..|items| - 1], keep)
      case None => None
      case Some(done) =>
        if HasFields(last, keep) then Some(done + [Restrict(last, keep)]) else None
  }

  /** The reply of a list route: on status 200, the projected elements of `body[key]` (an empty
      list when the key is missing); on any other status, the failure text with that status. */
  function ListReply(status: int, body: Json, key: string, keep: set<string>, failure: string): Reply
  {
    if status != 200 then WithStatus(failure, status)
    else
      match GetOrEmptyList(body, key)
      case None => InternalError
      case Some(v) =>
        match Elements(v)
        case None => InternalError
        case Some(items) =>
          match Project(items, keep)
          case None => InternalError
          case Some(out) => JsonBody(JArr(out))
  }

  const PLAYLIST_FIELDS: set<string> := {"id", "name", "images"}
  const QUEUE_FIELDS: set<string> := {"id"}

  /** The append loop of `playlists` and `get_queue`. */
  method ProjectItems(items: seq<Json>, keep: set<string>) returns (r: Option<seq<Json>>)
    ensures r == Project(items, keep)
  {
    var out := [];
    var i := 0;
    while i < |items|
      invariant 0 <= i <= |items|
      invariant Project(items[..i], keep) == Some(out)
    {
      assert items[..i + 1][..i] == items[..i];
      if !HasFields(items[i], keep) {
        assert items[..i + 1][i] == items[i];
        PrefixFailure(items, keep, i + 1);
        return None;
      }
      out := out + [Restrict(items[i], keep)];
      i := i + 1;
    }
    assert items[..i] == items;
    r := Some(out);
  }

  /** Once a prefix cannot be projected, neither can the whole list. */
  lemma PrefixFailure(items: seq<Json>, keep: set<string>, n: nat)
    requires n <= |items| && Project(items[..n], keep) == None
    ensures Project(items, keep) == None
  {
    var i :| 0 <= i < n && !HasFields(items[..n][i], keep);
    assert items[i] == items[..n][i];
  }

  /** The reply of a list route, computed with the loop. */
  method FormatList(status: int, body: Json, key: string, keep: set<string>, failure: string) returns (reply: Reply)
    ensures reply == ListReply(status, body, key, keep, failure)
  {
    if status != 200 {
      return WithStatus(failure, status);
    }
    var v := GetOrEmptyList(body, key);
    if v.None? {
      return InternalError;
    }
    var elements := Elements(v.value);
    if elements.None? {
      return InternalError;
    }
    var projected := ProjectItems(elements.value, keep);
    reply := if projected.None? then InternalError else JsonBody(JArr(projected.value));
  }

  /** On status 200 a list route answers one object per element, in order, holding exactly the
      kept fields; a body without the key gives an empty list; any other status is passed on. */
  lemma ListReplyShape(status: int, body: Json, key: string, keep: set<string>, failure: string)
    ensures status != 200 ==> ListReply(status, body, key, keep, failure) == WithStatus(failure, status)
    ensures status == 200 && body.JObj? && key !in body.fields ==>
              ListReply(status, body, key, keep, failure) == JsonBody(JArr([]))
    ensures status == 200 && body.JObj? && key in body.fields && body.fields[key].JArr? ==>
              var items := body.fields[key].elems;
              var reply := ListReply(status, body, key, keep, failure);
              (reply == InternalError <==> exists i :: 0 <= i < |items| && !HasFields(items[i], keep))
              && (reply != InternalError ==>
                    reply.JsonBody? && reply.value.JArr? && |reply.value.elems| == |items|
                    && forall i :: 0 <= i < |items| ==>
                         reply.value.elems[i].JObj? && reply.value.elems[i].fields.Keys == keep
                         && forall f :: f in keep ==> reply.value.elems[i].fields[f] == items[i].fields[f])
  {
    if status == 200 && body.JObj? && key in body.fields && body.fields[key].JArr? {
      var items := body.fields[key].elems;
      var p := Project(items, keep);
      if p.Some? {
        forall i | 0 <= i < |items|
          ensures p.value[i].JObj? && p.value[i].fields.Keys == keep
        {
          assert p.value[i] == Restrict(items[i], keep);
        }
      }
    }
  }

  // ---------------------------------------------------------------------------------------------
  // Pagination: /add_random_song_to_queue/<playlist_id>

  /** One element of a playlist-tracks page; the route only reads `item["track"]["uri"]`. */
  datatype Track = Track(uri: string)

  /** The service's answer to one page request: its status and its `items`. */
  datatype Page = Page(status: int, items: seq<Track>)

  /** What the paging loop ends with: every track collected, or the status that aborted it. */
  datatype Fetched = Tracks(tracks: seq<Track>) | FetchFailed(status: int)

  /** The answer to the k-th page request; past the pages supplied, the playlist has ended and
      the service answers an empty page. */
  function PageAt(pages: seq<Page>, k: nat): Page
  {
    if k < |pages| then pages[k] else Page(200, [])
  }

  /** A page after which the loop asks for the next one: status 200 and not shorter than the limit. */
  predicate Continues(p: Page)
  {
    p.status == 200 && |p.items| >= PAGE_SIZE
  }

  /** The tracks of a run of pages, in order. */
  function Concat(pages: seq<Page>): seq<Track>
  {
    if pages == [] then [] else Concat(pages[..|pages| - 1]) + pages[|pages| - 1].items
  }

  /** The loop's result, page by page: a failed page aborts, an empty or short page ends the
      playlist, a full page is followed by the rest. */
  function Accumulate(pages: seq<Page>): Fetched
  {
    if pages == [] then Tracks([])
    else
      var p := pages[0];
      if p.status != 200 then FetchFailed(p.status)
      else if p.items == [] then Tracks([])
      else if |p.items| < PAGE_SIZE then Tracks(p.items)
      else
        match Accumulate(pages[1..])
        case FetchFailed(s) => FetchFailed(s)
        case Tracks(rest) => Tracks(p.items + rest)
  }

  /** How many page requests the loop makes. */
  function FetchCount(pages: seq<Page>): nat
  {
    if pages == [] || !Continues(pages[0]) then 1 else 1 + FetchCount(pages[1..])
  }

  /** Where the loop stops: when pages 0..k-1 all continue and page k does not, the loop makes
      exactly k+1 requests and returns either page k's failing status or the tracks of pages
      0..k concatenated in order. */
  lemma {:induction false} StopsAtFirstShortPage(pages: seq<Page>, k: nat)
    requires k <= |pages| && forall i :: 0 <= i < k ==> Continues(pages[i])
    requires !Continues(PageAt(pages, k))
    ensures FetchCount(pages) == k + 1
    ensures Accumulate(pages) == if PageAt(pages, k).status != 200 then FetchFailed(PageAt(pages, k).status)
                                 else Tracks(Concat(pages[..k]) + PageAt(pages, k).items)
  {
    if k == 0 {
      assert pages[..0] == [];
    } else {
      var rest := pages[1..];
      forall i | 0 <= i < k - 1 ensures Continues(rest[i]) {
        assert rest[i] == pages[i + 1];
      }
      assert PageAt(rest, k - 1) == PageAt(pages, k);
      StopsAtFirstShortPage(rest, k - 1);
      ConcatCons(pages[..k]);
      assert pages[..k][1..] == rest[..k - 1];
    }
  }

  /** `Concat` also peels off the first page. */
  lemma {:induction false} ConcatCons(pages: seq<Page>)
    requires pages != []
    ensures Concat(pages) == pages[0].items + Concat(pages[1..])
    decreases |pages|
  {
    if |pages| > 1 {
      var init := pages[..|pages| - 1];
      ConcatCons(init);
      assert init[1..] == pages[1..][..|pages[1..]| - 1];
    } else {
      assert pages[1..] == [];
      assert pages[..0] == [];
    }
  }

  /** A playlist of 250 tracks served as pages of 100, 100 and 50 takes exactly three requests
      and yields all 250 tracks in order, whatever the service would have answered afterwards. */
  lemma ThreePages(a: seq<Track>, b: seq<Track>, c: seq<Track>, later: seq<Page>)
    requires |a| == 100 && |b| == 100 && |c| == 50
    ensures var pages := [Page(200, a), Page(200, b), Page(200, c)] + later;
            FetchCount(pages) == 3 && Accumulate(pages) == Tracks(a + b + c)
  {
    var pages := [Page(200, a), Page(200, b), Page(200, c)] + later;
    StopsAtFirstShortPage(pages, 2);
    assert pages[..2] == [Page(200, a), Page(200, b)];
    assert pages[..2][..1] == [Page(200, a)];
    assert Concat(pages[..2][..1]) == Concat([]) + a;
  }

  /** An empty playlist takes one request and yields no tracks. */
  lemma EmptyPlaylist(later: seq<Page>)
    ensures FetchCount([Page(200, [])] + later) == 1 && Accumulate([Page(200, [])] + later) == Tracks([])
  {
  }

  /** The paging loop of `add_random_song_to_queue`: request pages at offsets 0, 100, 200, ...
      until a page fails, comes back empty or comes back short. */
  method FetchAllTracks(playlistId: string, auth: string, pages: seq<Page>)
    returns (fetched: Fetched, requests: seq<ApiRequest>)
    ensures fetched == Accumulate(pages)
    ensures |requests| == FetchCount(pages)
    ensures forall k :: 0 <= k < |requests| ==> requests[k] == GetTracks(playlistId, PAGE_SIZE, PAGE_SIZE * k, auth)
  {
    var limit := PAGE_SIZE;
    var offset := 0;
    var allTracks: seq<Track> := [];
    var k := 0;
    requests := [];
    while true
      invariant 0 <= k <= |pages|
      invariant offset == PAGE_SIZE * k && |requests| == k
      invariant forall i :: 0 <= i < k ==> requests[i] == GetTracks(playlistId, PAGE_SIZE, PAGE_SIZE * i, auth)
      invariant forall i :: 0 <= i < k ==> Continues(pages[i])
      invariant allTracks == Concat(pages[..k])
      decreases |pages| - k
    {
      var response := PageAt(pages, k);
      requests := requests + [GetTracks(playlistId, limit, offset, auth)];
      if response.status == 200 {
        var tracks := response.items;
        if tracks == [] {
          StopsAtFirstShortPage(pages, k);
          return Tracks(allTracks), requests;
        }
        allTracks := allTracks + tracks;
        if |tracks| < limit {
          StopsAtFirstShortPage(pages, k);
          return Tracks(allTracks), requests;
        }
        assert pages[..k + 1][..k] == pages[..k];
        offset := offset + limit;
        k := k + 1;
      } else {
        StopsAtFirstShortPage(pages, k);
        return FetchFailed(response.status), requests;
      }
    }
  }

  /** The body of `add_random_song_to_queue` after the token: page through the playlist, refuse
      an empty one, otherwise shuffle, pick a track and post its URI to the queue. Which track is
      picked is left open; it is always one of the tracks collected. */
  method QueueRandomTrack(playlistId: string, auth: string, pages: seq<Page>, enqueueStatus: int)
    returns (reply: Reply, requests: seq<ApiRequest>)
    ensures |requests| >= FetchCount(pages)
    ensures forall k :: 0 <= k < FetchCount(pages) ==> requests[k] == GetTracks(playlistId, PAGE_SIZE, PAGE_SIZE * k, auth)
    ensures Accumulate(pages).FetchFailed? ==>
              reply == WithStatus("Failed to fetch playlist tracks.", Accumulate(pages).status)
              && |requests| == FetchCount(pages)
    ensures Accumulate(pages) == Tracks([]) ==>
              reply == JsonBody(JObj(map["error" := JStr("No tracks found in the playlist.")]))
              && |requests| == FetchCount(pages)
    ensures Accumulate(pages).Tracks? && Accumulate(pages).tracks != [] ==>
              && |requests| == FetchCount(pages) + 1
              && (exists t :: t in Accumulate(pages).tracks && requests[FetchCount(pages)] == PostToQueue(t.uri, auth))
              && reply == NoContentReply(enqueueStatus, "Random song added to queue successfully!",
                                         "Failed to add song to queue.")
  {
    var fetched;
    fetched, requests := FetchAllTracks(playlistId, auth, pages);
    match fetched
    case FetchFailed(status) =>
      reply := WithStatus("Failed to fetch playlist tracks.", status);
    case Tracks(allTracks) =>
      if allTracks == [] {
        reply := JsonBody(JObj(map["error" := JStr("No tracks found in the playlist.")]));
      } else {
        assert allTracks[0] in allTracks;
        var pick :| pick in allTracks;
        requests := requests + [PostToQueue(pick.uri, auth)];
        reply := NoContentReply(enqueueStatus, "Random song added to queue successfully!",
                                "Failed to add song to queue.");
      }
  }

  // ---------------------------------------------------------------------------------------------
  // The routes, token first

  /** What every playback route shares: the store is left as `get_valid_token` leaves it, and
      when that raises the route answers 500 without contacting the service. */
  ghost predicate TokenFirst(server: TokenServer, oldTokens: Dict<Key, TokenRecord>,
                             oldId: Option<string>, oldSecret: Option<string>, now: int,
                             refresh: TokenResponse, reply: Reply,
                             tokenRequests: seq<TokenRequest>, apiRequests: seq<ApiRequest>)
    requires oldTokens.Valid()
    reads server
  {
    var s := ValidToken(oldTokens, now, refresh, oldId, oldSecret);
    && server.Valid()
    && server.clientId == oldId && server.clientSecret == oldSecret
    && server.userTokens == s.tokens && tokenRequests == s.requests
    && (!s.outcome.Issued? ==> reply == InternalError && apiRequests == [])
  }

  /** The token a route sends, when `get_valid_token` hands one out. */
  ghost function TokenSent(oldTokens: Dict<Key, TokenRecord>, oldId: Option<string>, oldSecret: Option<string>,
                           now: int, refresh: TokenResponse): Option<string>
    requires oldTokens.Valid()
  {
    var s := ValidToken(oldTokens, now, refresh, oldId, oldSecret);
    if s.outcome.Issued? then s.outcome.token else None
  }

  ghost predicate Issues(oldTokens: Dict<Key, TokenRecord>, oldId: Option<string>, oldSecret: Option<string>,
                         now: int, refresh: TokenResponse)
    requires oldTokens.Valid()
  {
    ValidToken(oldTokens, now, refresh, oldId, oldSecret).outcome.Issued?
  }

  /** `/playlists`. */
  method Playlists(server: TokenServer, now: int, refresh: TokenResponse, status: int, body: Json)
    returns (reply: Reply, tokenRequests: seq<TokenRequest>, apiRequests: seq<ApiRequest>)
    requires server.Valid()
    modifies server
    ensures TokenFirst(server, old(server.userTokens), old(server.clientId), old(server.clientSecret), now, refresh,
                       reply, tokenRequests, apiRequests)
    ensures Issues(old(server.userTokens), old(server.clientId), old(server.clientSecret), now, refresh) ==>
              var token := TokenSent(old(server.userTokens), old(server.clientId), old(server.clientSecret), now, refresh);
              apiRequests == [GetPlaylists(Bearer(token))]
              && reply == ListReply(status, body, "items", PLAYLIST_FIELDS, "Failed to fetch playlists.")
  {
    var outcome;
    outcome, tokenRequests := server.GetValidToken(now, refresh);
    if !outcome.Issued? {
      return InternalError, tokenRequests, [];
    }
    apiRequests := [GetPlaylists(Bearer(outcome.token))];
    reply := FormatList(status, body, "items", PLAYLIST_FIELDS, "Failed to fetch playlists.");
  }

  /** `/get_queue`. */
  method GetQueueRoute(server: TokenServer, now: int, refresh: TokenResponse, status: int, body: Json)
    returns (reply: Reply, tokenRequests: seq<TokenRequest>, apiRequests: seq<ApiRequest>)
    requires server.Valid()
    modifies server
    ensures TokenFirst(server, old(server.userTokens), old(server.clientId), old(server.clientSecret), now, refresh,
                       reply, tokenRequests, apiRequests)
    ensures Issues(old(server.userTokens), old(server.clientId), old(server.clientSecret), now, refresh) ==>
              var token := TokenSent(old(server.userTokens), old(server.clientId), old(server.clientSecret), now, refresh);
              apiRequests == [GetQueue(Bearer(token))]
              && reply == ListReply(status, body, "queue", QUEUE_FIELDS, "Failed to fetch queue.")
  {
    var outcome;
    outcome, tokenRequests := server.GetValidToken(now, refresh);
    if !outcome.Issued? {
      return InternalError, tokenRequests, [];
    }
    apiRequests := [GetQueue(Bearer(outcome.token))];
    reply := FormatList(status, body, "queue", QUEUE_FIELDS, "Failed to fetch queue.");
  }

  /** `/add_random_song_to_queue/<playlist_id>`. */
  method AddRandomSongToQueue(server: TokenServer, playlistId: string, now: int, refresh: TokenResponse,
                              pages: seq<Page>, enqueueStatus: int)
    returns (reply: Reply, tokenRequests: seq<TokenRequest>, apiRequests: seq<ApiRequest>)
    requires server.Valid()
    modifies server
    ensures TokenFirst(server, old(server.userTokens), old(server.clientId), old(server.clientSecret), now, refresh,
                       reply, tokenRequests, apiRequests)
    ensures Issues(old(server.userTokens), old(server.clientId), old(server.clientSecret), now, refresh) ==>
              var auth := Bearer(TokenSent(old(server.userTokens), old(server.clientId), old(server.clientSecret), now, refresh));
              var n := FetchCount(pages);
              && |apiRequests| >= n
              && (forall k :: 0 <= k < n ==> apiRequests[k] == GetTracks(playlistId, PAGE_SIZE, PAGE_SIZE * k, auth))
              && (Accumulate(pages).FetchFailed? ==>
                    reply == WithStatus("Failed to fetch playlist tracks.", Accumulate(pages).status) && |apiRequests| == n)
              && (Accumulate(pages) == Tracks([]) ==>
                    reply == JsonBody(JObj(map["error" := JStr("No tracks found in the playlist.")])) && |apiRequests| == n)
              && (Accumulate(pages).Tracks? && Accumulate(pages).tracks != [] ==>
                    && |apiRequests| == n + 1
                    && (exists t :: t in Accumulate(pages).tracks && apiRequests[n] == PostToQueue(t.uri, auth))
                    && reply == NoContentReply(enqueueStatus, "Random song added to queue successfully!",
                                               "Failed to add song to queue."))
  {
    var outcome;
    outcome, tokenRequests := server.GetValidToken(now, refresh);
    if !outcome.Issued? {
      return InternalError, tokenRequests, [];
    }
    reply, apiRequests := QueueRandomTrack(playlistId, Bearer(outcome.token), pages, enqueueStatus);
  }

  /** `/skip_to_next_song`. */
  method SkipToNextSong(server: TokenServer, now: int, refresh: TokenResponse, status: int)
    returns (reply: Reply, tokenRequests: seq<TokenRequest>, apiRequests: seq<ApiRequest>)
    requires server.Valid()
    modifies server
    ensures TokenFirst(server, old(server.userTokens), old(server.clientId), old(server.clientSecret), now, refresh,
                       reply, tokenRequests, apiRequests)
    ensures Issues(old(server.userTokens), old(server.clientId), old(server.clientSecret), now, refresh) ==>
              var token := TokenSent(old(server.userTokens), old(server.clientId), old(server.clientSecret), now, refresh);
              apiRequests == [PostNext(Bearer(token))]
              && reply == NoContentReply(status, "Skipped to next song successfully!", "Failed to skip to next song")
  {
    var outcome;
    outcome, tokenRequests := server.GetValidToken(now, refresh);
    if !outcome.Issued? {
      return InternalError, tokenRequests, [];
    }
    apiRequests := [PostNext(Bearer(outcome.token))];
    reply := NoContentReply(status, "Skipped to next song successfully!", "Failed to skip to next song");
  }

  /** `/pause_playback`. */
  method PausePlayback(server: TokenServer, now: int, refresh: TokenResponse, status: int)
    returns (reply: Reply, tokenRequests: seq<TokenRequest>, apiRequests: seq<ApiRequest>)
    requires server.Valid()
    modifies server
    ensures TokenFirst(server, old(server.userTokens), old(server.clientId), old(server.clientSecret), now, refresh,
                       reply, tokenRequests, apiRequests)
    ensures Issues(old(server.userTokens), old(server.clientId), old(server.clientSecret), now, refresh) ==>
              var token := TokenSent(old(server.userTokens), old(server.clientId), old(server.clientSecret), now, refresh);
              apiRequests == [PutPause(Bearer(token))]
              && reply == NoContentReply(status, "Paused song successfully!", "Failed to pause song")
  {
    var outcome;
    outcome, tokenRequests := server.GetValidToken(now, refresh);
    if !outcome.Issued? {
      return InternalError, tokenRequests, [];
    }
    apiRequests := [PutPause(Bearer(outcome.token))];
    reply := NoContentReply(status, "Paused song successfully!", "Failed to pause song");
  }
}
