/** The app object (app.js class App): the session, the playlist owner map,
    the playlist-listing backoff, the device-list cache and the media
    handlers' decisions. Calls to the streaming service are appended to a
    log and answered by parameters; timers are fields plus Fire* methods. */
module SpotifyApp {
  import opened Values
  import opened Tracks
  import opened Paging
  import opened Backoff
  import opened Playlists
  import opened Devices
  import opened Session

  /** The calls the app makes to the streaming service; `Wait` is the
      throttle a page answer is held back for before it is handed on. The log
      of concurrent fetches is composed in sequence, each playlist's requests
      together and the playlists in listing order, which keeps every chain's
      own order but not the interleaving in which the request queue starts
      the chains. */
  datatype Call =
    | Token(call: TokenCall)
    | GetUserPlaylists(offset: nat, limit: nat)
    | GetPlaylist(owner: Option<string>, id: string)
    | GetPlaylistTracks(owner: Option<string>, id: string, offset: nat, limit: nat)
    | Wait(ms: nat)
    | SearchTracks(query: string, limit: nat)
    | ListDevices

  /** What the app tells the hub and its devices. */
  datatype HubEvent = Notified(notice: Notice) | UpdateStateEmitted

  /** The number of search results asked for. */
  const SEARCH_LIMIT: nat := 5

  /** Which collection a page request reads. */
  datatype Paged = Listing | TracksOf(owner: Option<string>, id: string)

  /** The request for the page of `limit` items at `offset`. */
  function PageRequest(what: Paged, offset: nat, limit: nat): Call {
    match what
    case Listing => GetUserPlaylists(offset, limit)
    case TracksOf(owner, id) => GetPlaylistTracks(owner, id, offset, limit)
  }

  /** One request per page, each followed by the throttle. */
  function PagedCalls<T>(pages: seq<Page<T>>, what: Paged, ms: nat): seq<Call> {
    if pages == [] then [] else [PageRequest(what, pages[0].offset, pages[0].limit), Wait(ms)] + PagedCalls(pages[1..], what, ms)
  }

  /** Request k is the k-th page's, and a throttle follows each. */
  lemma {:induction false} PagedCallsShape<T>(pages: seq<Page<T>>, what: Paged, ms: nat)
    ensures var cs := PagedCalls(pages, what, ms);
      && |cs| == 2 * |pages|
      && (forall k :: 0 <= k < |pages| ==> cs[2 * k] == PageRequest(what, pages[k].offset, pages[k].limit))
      && (forall k :: 0 <= k < |pages| ==> cs[2 * k + 1] == Wait(ms))
  {
    if pages != [] {
      PagedCallsShape(pages[1..], what, ms);
      var rest := PagedCalls(pages[1..], what, ms);
      var cs := PagedCalls(pages, what, ms);
      forall k | 1 <= k < |pages|
        ensures cs[2 * k] == PageRequest(what, pages[k].offset, pages[k].limit) && cs[2 * k + 1] == Wait(ms)
      {
        assert pages[k] == pages[1..][k - 1];
        assert cs[2 * k] == rest[2 * (k - 1)];
        assert cs[2 * k + 1] == rest[2 * (k - 1) + 1];
      }
    }
  }

  /** A chain of page requests that stops at page `k`: the pages before it
      answered, each followed by the throttle, and page `k`, when there is
      one, refused, so that nothing follows it. */
  function ChainCalls<T>(pages: seq<Page<T>>, k: nat, what: Paged, ms: nat): seq<Call>
    requires k <= |pages|
  {
    PagedCalls(pages[..k], what, ms) + if k < |pages| then [PageRequest(what, pages[k].offset, pages[k].limit)] else []
  }

  /** A chain stopped at page `k` requests pages 0 to `k` in order, with the
      throttle after each page before `k` and nothing after page `k`. */
  lemma ChainCallsShape<T>(pages: seq<Page<T>>, k: nat, what: Paged, ms: nat)
    requires k <= |pages|
    ensures var cs := ChainCalls(pages, k, what, ms);
      && |cs| == 2 * k + (if k < |pages| then 1 else 0)
      && (forall j :: 0 <= j < k ==> cs[2 * j] == PageRequest(what, pages[j].offset, pages[j].limit))
      && (forall j :: 0 <= j < k ==> cs[2 * j + 1] == Wait(ms))
      && (k < |pages| ==> cs[2 * k] == PageRequest(what, pages[k].offset, pages[k].limit))
  {
    var cs, front := ChainCalls(pages, k, what, ms), PagedCalls(pages[..k], what, ms);
    PagedCallsShape(pages[..k], what, ms);
    forall j | 0 <= j < k
      ensures cs[2 * j] == PageRequest(what, pages[j].offset, pages[j].limit) && cs[2 * j + 1] == Wait(ms)
    {
      assert pages[..k][j] == pages[j];
      assert cs[2 * j] == front[2 * j] && cs[2 * j + 1] == front[2 * j + 1];
    }
  }

  /** The pages of a collection are requested `limit` at a time from offset
      0, each answered one followed by the throttle, up to the first page the
      service refuses (nothing follows it) or, when it refuses none, up to the
      last item. */
  lemma PageRequests<T, C>(all: seq<T>, limit: nat, what: Paged, request: nat -> C, refused: map<C, Error>, ms: nat)
    requires limit > 0
    ensures var ps := Pages(all, 0, limit);
      var k := FirstRefused(ps, request, refused);
      var cs := ChainCalls(ps, k, what, ms);
      && |ps| >= 1 && (|ps| - 1) * limit + limit >= |all|
      && |cs| == 2 * k + (if k < |ps| then 1 else 0)
      && (forall j :: 0 <= j < k ==> cs[2 * j] == PageRequest(what, j * limit, limit) && request(j * limit) !in refused)
      && (forall j :: 0 <= j < k ==> cs[2 * j + 1] == Wait(ms))
      && (k < |ps| ==> cs[2 * k] == PageRequest(what, k * limit, limit) && request(k * limit) in refused)
  {
    var ps := Pages(all, 0, limit);
    var k := FirstRefused(ps, request, refused);
    PagesOffsets(all, 0, limit);
    FirstRefusedOffsets(all, limit, request, refused);
    ChainCallsShape(ps, k, what, ms);
    forall j | 0 <= j <= k && j < |ps| ensures ps[j].offset == j * limit && ps[j].limit == limit {
      assert ps[j].offset == 0 + j * limit;
    }
  }

  /** getPlayListsRecursive's requests: the listing pages 50 at a time, up
      to the first page the service refuses. */
  function ListingCalls(account: Account, ms: nat): seq<Call> {
    var pages := Pages(account.listing, 0, PLAYLIST_PAGE_LIMIT);
    ChainCalls(pages, FirstRefused(pages, ListingRequest(), account.refused), Listing, ms)
  }

  /** getPlayList's requests, both chains queued together: the metadata, then
      the track pages up to the first one refused, or the first track request
      alone when the service does not hold the playlist. */
  function PlaylistCalls(account: Account, owner: Option<string>, id: string, ms: nat): seq<Call> {
    [GetPlaylist(owner, id)] +
      if Held(account, owner, id) then
        var pages := Pages(account.details[(owner.value, id)].items, 0, TRACK_PAGE_LIMIT);
        ChainCalls(pages, FirstRefused(pages, TrackRequest(owner, id), account.refused), TracksOf(owner, id), ms)
      else
        [GetPlaylistTracks(owner, id, 0, TRACK_PAGE_LIMIT)]
  }

  /** The requests of getPlayList for each listed entry, in listing order. */
  function EntryCalls(account: Account, entries: seq<PlaylistSummary>, ms: nat): seq<Call>
    decreases |entries|
  {
    if entries == [] then []
    else
      var last := entries[|entries| - 1];
      EntryCalls(account, entries[..|entries| - 1], ms) + PlaylistCalls(account, Some(last.ownerId), last.id, ms)
  }

  /** One more entry: its owner recorded, its requests appended. */
  lemma EntryStep(account: Account, owners: map<string, string>, entries: seq<PlaylistSummary>, i: nat, ms: nat, reorder: seq<RawTrack> -> seq<RawTrack>)
    requires i < |entries| && IsReordering(reorder)
    ensures EntryCalls(account, entries[..i + 1], ms)
      == EntryCalls(account, entries[..i], ms) + PlaylistCalls(account, Some(entries[i].ownerId), entries[i].id, ms)
    ensures RecordOwners(owners, entries[..i + 1]) == RecordOwners(owners, entries[..i])[entries[i].id := entries[i].ownerId]
    ensures FetchAll(account, entries[..i + 1], reorder) == FetchAll(account, entries[..i], reorder) + [FetchEntry(account, entries[i], reorder)]
  {
    assert entries[..i + 1][..i] == entries[..i];
  }

  /** getPlayLists' requests: the listing's, then each listed playlist's. */
  function PlaylistsCalls(account: Account, ms: nat): seq<Call> {
    ListingCalls(account, ms) + if FetchListing(account).Ok? then EntryCalls(account, account.listing, ms) else []
  }

  lemma AppendAssoc<T>(a: seq<T>, b: seq<T>, c: seq<T>)
    ensures a + b + c == a + (b + c)
  {
  }

  /** getPlaylistOwner */
  function Owner(owners: map<string, string>, id: string): (o: Option<string>)
    ensures o.Some? <==> id in owners
    ensures o.Some? ==> o.value == owners[id]
  {
    if id in owners then Some(owners[id]) else None
  }

  /** The device list of an answer, or none when the body holds no list. */
  function DevicesOrEmpty(answer: Result<Option<seq<DeviceInfo>>, Error>): (r: Result<seq<DeviceInfo>, Error>)
    ensures answer.Err? ==> r == Err(answer.error)
    ensures answer.Ok? && answer.value.Some? ==> r == Ok(answer.value.value)
    ensures answer.Ok? && answer.value.None? ==> r == Ok([])
  {
    match answer
    case Err(e) => Err(e)
    case Ok(devices) => Ok(if devices.Some? then devices.value else [])
  }

  /** getMyDevices(force): rejected without a session (the cache untouched);
      otherwise the cache lookup, a fetch answering the listed devices (none when the list is missing). */
  function LookupDevices(authenticated: bool, force: bool, cache: Option<Result<seq<DeviceInfo>, Error>>,
                         answer: Result<Option<seq<DeviceInfo>>, Error>): (l: Cached<Result<seq<DeviceInfo>, Error>>)
    ensures !authenticated ==> l == Cached(Err(NotAuthenticated), cache, false)
    ensures authenticated ==> l == CacheLookup(force, cache, DevicesOrEmpty(answer))
  {
    if !authenticated then Cached(Err(NotAuthenticated), cache, false)
    else CacheLookup(force, cache, DevicesOrEmpty(answer))
  }

  class App {
    /** The engine's sort of parseTracks. */
    const reorder: seq<RawTrack> -> seq<RawTrack>
    /** Tokens, settings, counter and timers of the OAuth session. */
    var session: State
    /** playListOwnerMap */
    var ownerMap: map<string, string>
    /** The module-level retryCount and RETRY_TIMEOUT. */
    var retryCount: nat
    var retryTimeout: int
    /** How many playlist listings have failed since the app started. */
    ghost var listingFailures: nat
    /** The armed retryTimeout, with its delay. */
    var playlistRetry: Option<int>
    /** Whether playlistRefreshTimeout is armed. */
    var playlistRefreshArmed: bool
    /** getMyDevicesCache, and whether myDevicesCacheTimeout is armed. */
    var devicesCache: Option<Result<seq<DeviceInfo>, Error>>
    var devicesCacheTimer: bool
    var calls: seq<Call>
    var events: seq<HubEvent>

    ghost predicate Valid()
      reads this`session, this`retryTimeout, this`listingFailures, this`devicesCache, this`devicesCacheTimer
    {
      && IsReordering(reorder)
      && Session.Valid(session)
      && retryTimeout == RetryTimeoutAfter(listingFailures)
      && (devicesCache.Some? <==> devicesCacheTimer)
    }

    /** onInit, up to the authorizeSpotify() it ends with (the host's first
        call of AuthorizeSpotify(None, ...)): 'authorized' is switched off and
        the hub told so; the counters and the caches start empty. */
    constructor (storedAccess: Option<string>, storedRefresh: Option<string>, reorder: seq<RawTrack> -> seq<RawTrack>)
      requires IsReordering(reorder)
      ensures Valid()
      ensures this.reorder == reorder && session == Initial(storedAccess, storedRefresh)
      ensures ownerMap == map[] && retryCount == 0 && retryTimeout == INITIAL_RETRY_TIMEOUT
      ensures playlistRetry.None? && !playlistRefreshArmed && devicesCache.None?
      ensures calls == [] && events == [Notified(Authenticated(false))]
    {
      this.reorder := reorder;
      session := Initial(storedAccess, storedRefresh);
      ownerMap := map[];
      retryCount, retryTimeout := 0, INITIAL_RETRY_TIMEOUT;
      listingFailures := 0;
      playlistRetry, playlistRefreshArmed := None, false;
      devicesCache, devicesCacheTimer := None, false;
      calls, events := [], [Notified(Authenticated(false))];
    }

    /** authorizeSpotify(given), the service answering `answer`. */
    method AuthorizeSpotify(given: Option<Credentials>, answer: Result<Grant, Error>) returns (outcome: Outcome)
      requires Valid()
      modifies this`session, this`calls, this`events
      ensures Valid()
      ensures var st := Authorize(old(session), given, answer);
        && session == st.state && outcome == st.outcome
        && calls == old(calls) + Map(c => Token(c), st.calls)
        && events == old(events) + Map(n => Notified(n), st.notices)
      ensures ownerMap == old(ownerMap) && retryCount == old(retryCount) && retryTimeout == old(retryTimeout)
      ensures listingFailures == old(listingFailures) && playlistRetry == old(playlistRetry)
      ensures playlistRefreshArmed == old(playlistRefreshArmed)
      ensures devicesCache == old(devicesCache) && devicesCacheTimer == old(devicesCacheTimer)
    {
      var st := Authorize(session, given, answer);
      session := st.state;
      outcome := st.outcome;
      calls := calls + Map(c => Token(c), st.calls);
      events := events + Map(n => Notified(n), st.notices);
    }

    /** The proactive refresh fires: `authorizeSpotify()` with the stored tokens. */
    method FireRefreshTimer(answer: Result<Grant, Error>) returns (outcome: Outcome)
      requires Valid() && session.refreshTimer.Some?
      modifies this`session, this`calls, this`events
      ensures Valid()
      ensures var st := Authorize(old(session), None, answer);
        && session == st.state && outcome == st.outcome
        && calls == old(calls) + Map(c => Token(c), st.calls)
        && events == old(events) + Map(n => Notified(n), st.notices)
    {
      outcome := AuthorizeSpotify(None, answer);
    }

    /** The refresh retry fires: authorizeSpotify with the credentials it was
        scheduled with. */
    method FireAuthRetry(answer: Result<Grant, Error>) returns (outcome: Outcome)
      requires Valid() && session.authRetry.Some?
      modifies this`session, this`calls, this`events
      ensures Valid()
      ensures var st := Authorize(old(session), Some(old(session).authRetry.value.credentials), answer);
        && session == st.state && outcome == st.outcome
        && calls == old(calls) + Map(c => Token(c), st.calls)
        && events == old(events) + Map(n => Notified(n), st.notices)
    {
      outcome := AuthorizeSpotify(Some(session.authRetry.value.credentials), answer);
    }

    /** deauthorize, with the pending refresh retry cancelled as well. */
    method Deauthorize()
      requires Valid()
      modifies this`session, this`events
      ensures Valid()
      ensures session == Deauthorized(old(session))
      ensures events == old(events) + Map(n => Notified(n), DEAUTHORIZE_NOTICES)
      ensures calls == old(calls) && ownerMap == old(ownerMap) && retryCount == old(retryCount)
      ensures retryTimeout == old(retryTimeout) && playlistRetry == old(playlistRetry)
      ensures playlistRefreshArmed == old(playlistRefreshArmed)
      ensures devicesCache == old(devicesCache) && devicesCacheTimer == old(devicesCacheTimer)
    {
      session := Deauthorized(session);
      events := events + Map(n => Notified(n), DEAUTHORIZE_NOTICES);
    }

    /** getMyDevices(force), the service answering `answer` if asked. */
    method GetMyDevices(force: bool, answer: Result<Option<seq<DeviceInfo>>, Error>) returns (r: Result<seq<DeviceInfo>, Error>)
      requires Valid()
      modifies this`calls, this`devicesCache, this`devicesCacheTimer
      ensures Valid()
      ensures var l := LookupDevices(IsAuthenticated(old(session)), force, old(devicesCache), answer);
        && r == l.result && devicesCache == l.cache
        && calls == old(calls) + if l.fetched then [ListDevices] else []
      ensures session == old(session) && ownerMap == old(ownerMap) && retryCount == old(retryCount)
      ensures retryTimeout == old(retryTimeout) && playlistRetry == old(playlistRetry)
      ensures playlistRefreshArmed == old(playlistRefreshArmed) && events == old(events)
    {
      if !IsAuthenticated(session) {
        return Err(NotAuthenticated);
      }
      if force || devicesCache.None? {
        calls := calls + [ListDevices];
        devicesCache := Some(DevicesOrEmpty(answer));
        devicesCacheTimer := true;
      }
      r := devicesCache.value;
    }

    /** myDevicesCacheTimeout fires: the cache is emptied. */
    method FireDevicesCacheExpiry()
      requires Valid() && devicesCacheTimer
      modifies this`devicesCache, this`devicesCacheTimer
      ensures Valid()
      ensures devicesCache.None? && !devicesCacheTimer
      ensures session == old(session) && calls == old(calls) && events == old(events)
      ensures ownerMap == old(ownerMap) && retryCount == old(retryCount) && retryTimeout == old(retryTimeout)
      ensures playlistRetry == old(playlistRetry) && playlistRefreshArmed == old(playlistRefreshArmed)
    {
      devicesCache, devicesCacheTimer := None, false;
    }

    /** forceStateUpdate: the cache is emptied and its timer cancelled, and the
        devices are told to update their state. */
    method ForceStateUpdate()
      requires Valid()
      modifies this`devicesCache, this`devicesCacheTimer, this`events
      ensures Valid()
      ensures devicesCache.None? && !devicesCacheTimer
      ensures events == old(events) + [UpdateStateEmitted]
      ensures session == old(session) && calls == old(calls)
      ensures ownerMap == old(ownerMap) && retryCount == old(retryCount) && retryTimeout == old(retryTimeout)
      ensures playlistRetry == old(playlistRetry) && playlistRefreshArmed == old(playlistRefreshArmed)
    {
      devicesCache, devicesCacheTimer := None, false;
      events := events + [UpdateStateEmitted];
    }

    /** getPlayList(id): the owner comes from the owner map. */
    method GetPlayList(id: string, account: Account) returns (r: Result<Playlist, Error>)
      requires Valid()
      modifies this`calls
      ensures r == FetchPlaylist(account, Owner(ownerMap, id), id, reorder)
      ensures calls == old(calls) + PlaylistCalls(account, Owner(ownerMap, id), id, ThrottleDelay(retryCount))
    {
      var owner := Owner(ownerMap, id);
      calls := calls + PlaylistCalls(account, owner, id, ThrottleDelay(retryCount));
      r := FetchPlaylist(account, owner, id, reorder);
    }

    /** getPlayLists: the listing; then, entry by entry in listing order, the
        entry's owner recorded and the playlist fetched. */
    method GetPlayLists(account: Account) returns (r: Result<seq<Playlist>, Error>)
      requires Valid()
      modifies this`calls, this`ownerMap
      ensures r == ListPlaylists(account, reorder)
      ensures FetchListing(account).Err? ==> ownerMap == old(ownerMap)
      ensures FetchListing(account).Ok? ==> ownerMap == RecordOwners(old(ownerMap), account.listing)
      ensures calls == old(calls) + PlaylistsCalls(account, ThrottleDelay(retryCount))
    {
      var ms := ThrottleDelay(retryCount);
      calls := calls + ListingCalls(account, ms);
      var listing := FetchListing(account);
      if listing.Err? {
        return Err(listing.error);
      }
      var results := FetchListed(account, account.listing);
      AppendAssoc(old(calls), ListingCalls(account, ms), EntryCalls(account, account.listing, ms));
      r := Collect(results);
    }

    /** getPlayLists' map over the listed entries. */
    method FetchListed(account: Account, entries: seq<PlaylistSummary>) returns (results: seq<Result<Playlist, Error>>)
      requires Valid()
      modifies this`calls, this`ownerMap
      ensures results == FetchAll(account, entries, reorder)
      ensures ownerMap == RecordOwners(old(ownerMap), entries)
      ensures calls == old(calls) + EntryCalls(account, entries, ThrottleDelay(retryCount))
    {
      var ms := ThrottleDelay(retryCount);
      results := [];
      var i := 0;
      while i < |entries|
        invariant 0 <= i <= |entries|
        invariant ownerMap == RecordOwners(old(ownerMap), entries[..i])
        invariant results == FetchAll(account, entries[..i], reorder)
        invariant calls == old(calls) + EntryCalls(account, entries[..i], ms)
      {
        EntryStep(account, old(ownerMap), entries, i, ms, reorder);
        AppendAssoc(old(calls), EntryCalls(account, entries[..i], ms), PlaylistCalls(account, Some(entries[i].ownerId), entries[i].id, ms));
        var p := FetchOne(account, entries[i]);
        results := results + [p];
        i := i + 1;
      }
      assert entries[..i] == entries;
    }

    /** The callback getPlayLists maps over one listed entry: its owner
        recorded, then the playlist fetched. */
    method FetchOne(account: Account, entry: PlaylistSummary) returns (p: Result<Playlist, Error>)
      requires Valid()
      modifies this`calls, this`ownerMap
      ensures p == FetchEntry(account, entry, reorder)
      ensures ownerMap == old(ownerMap)[entry.id := entry.ownerId]
      ensures calls == old(calls) + PlaylistCalls(account, Some(entry.ownerId), entry.id, ThrottleDelay(retryCount))
    {
      ownerMap := ownerMap[entry.id := entry.ownerId];
      assert Owner(ownerMap, entry.id) == Some(entry.ownerId);
      p := GetPlayList(entry.id, account);
    }

    /** The hub's 'getPlaylists' request: the pending retry is cancelled and the
        daily refresh re-armed; without authorization the answer is an empty
        list; otherwise the playlists, after which a success clears the retry
        count and a failure counts, schedules a retry after the current
        timeout and doubles the timeout up to its cap. */
    method OnGetPlaylists(account: Account) returns (r: Result<seq<Playlist>, Error>)
      requires Valid()
      modifies this`playlistRetry, this`playlistRefreshArmed, this`calls, this`ownerMap
      modifies this`retryCount, this`retryTimeout, this`listingFailures
      ensures Valid()
      ensures playlistRefreshArmed
      ensures !old(session).authorized ==>
        && r == Ok([]) && playlistRetry.None? && calls == old(calls) && ownerMap == old(ownerMap)
        && retryCount == old(retryCount) && retryTimeout == old(retryTimeout)
        && listingFailures == old(listingFailures)
      ensures old(session).authorized ==> r == ListPlaylists(account, reorder)
      ensures old(session).authorized ==> calls == old(calls) + PlaylistsCalls(account, ThrottleDelay(old(retryCount)))
      ensures old(session).authorized && FetchListing(account).Err? ==> ownerMap == old(ownerMap)
      ensures old(session).authorized && FetchListing(account).Ok? ==> ownerMap == RecordOwners(old(ownerMap), account.listing)
      ensures old(session).authorized && r.Ok? ==>
        && retryCount == 0 && playlistRetry.None?
        && retryTimeout == old(retryTimeout) && listingFailures == old(listingFailures)
      ensures old(session).authorized && r.Err? ==>
        && retryCount == old(retryCount) + 1
        && playlistRetry == Some(old(retryTimeout))
        && retryTimeout == NextRetryTimeout(old(retryTimeout))
        && listingFailures == old(listingFailures) + 1
    {
      playlistRetry := None;
      playlistRefreshArmed := true;
      if !session.authorized {
        return Ok([]);
      }
      r := ListAndCount(account);
    }

    /** The authorized part of 'getPlaylists': getPlayLists, then the retry
        bookkeeping of its outcome. */
    method ListAndCount(account: Account) returns (r: Result<seq<Playlist>, Error>)
      requires Valid() && playlistRetry.None?
      modifies this`calls, this`ownerMap, this`retryCount, this`playlistRetry, this`retryTimeout, this`listingFailures
      ensures Valid()
      ensures r == ListPlaylists(account, reorder)
      ensures calls == old(calls) + PlaylistsCalls(account, ThrottleDelay(old(retryCount)))
      ensures FetchListing(account).Err? ==> ownerMap == old(ownerMap)
      ensures FetchListing(account).Ok? ==> ownerMap == RecordOwners(old(ownerMap), account.listing)
      ensures r.Ok? ==>
        && retryCount == 0 && playlistRetry.None?
        && retryTimeout == old(retryTimeout) && listingFailures == old(listingFailures)
      ensures r.Err? ==>
        && retryCount == old(retryCount) + 1
        && playlistRetry == Some(old(retryTimeout))
        && retryTimeout == NextRetryTimeout(old(retryTimeout))
        && listingFailures == old(listingFailures) + 1
    {
      r := GetPlayLists(account);
      CountListing(r.Ok?);
    }

    /** After a listing: a success clears the retry count; a failure counts,
        schedules a retry after the current timeout and doubles the timeout
        up to its cap. */
    method CountListing(succeeded: bool)
      requires Valid() && playlistRetry.None?
      modifies this`retryCount, this`playlistRetry, this`retryTimeout, this`listingFailures
      ensures Valid()
      ensures succeeded ==>
        && retryCount == 0 && playlistRetry.None?
        && retryTimeout == old(retryTimeout) && listingFailures == old(listingFailures)
      ensures !succeeded ==>
        && retryCount == old(retryCount) + 1
        && playlistRetry == Some(old(retryTimeout))
        && retryTimeout == NextRetryTimeout(old(retryTimeout))
        && listingFailures == old(listingFailures) + 1
    {
      if succeeded {
        retryCount := 0;
      } else {
        retryCount := retryCount + 1;
        playlistRetry := Some(retryTimeout);
        retryTimeout := NextRetryTimeout(retryTimeout);
        listingFailures := listingFailures + 1;
      }
    }

    /** retryTimeout fires: the hub is asked to request the playlists again. */
    method FirePlaylistRetry()
      requires Valid() && playlistRetry.Some?
      modifies this`playlistRetry, this`events
      ensures Valid()
      ensures playlistRetry.None? && events == old(events) + [Notified(PlaylistsUpdateRequested)]
      ensures session == old(session) && calls == old(calls) && ownerMap == old(ownerMap)
      ensures retryCount == old(retryCount) && retryTimeout == old(retryTimeout)
      ensures playlistRefreshArmed == old(playlistRefreshArmed)
      ensures devicesCache == old(devicesCache) && devicesCacheTimer == old(devicesCacheTimer)
    {
      playlistRetry := None;
      events := events + [Notified(PlaylistsUpdateRequested)];
    }

    /** playlistRefreshTimeout, the daily refresh, fires: the hub is asked to
        request the playlists again. */
    method FirePlaylistRefresh()
      requires Valid() && playlistRefreshArmed
      modifies this`playlistRefreshArmed, this`events
      ensures Valid()
      ensures !playlistRefreshArmed && events == old(events) + [Notified(PlaylistsUpdateRequested)]
    {
      playlistRefreshArmed := false;
      events := events + [Notified(PlaylistsUpdateRequested)];
    }

    /** The hub's 'search' request: refused without authorization; otherwise
        the tracks of the answer parsed (none when it has no track list). */
    method OnSearch(query: string, answer: Result<Option<seq<Option<RawTrack>>>, Error>) returns (r: Result<seq<Track>, Error>)
      requires Valid()
      modifies this`calls
      ensures Valid()
      ensures !session.authorized ==> r == Err(NotAuthorized) && calls == old(calls)
      ensures session.authorized ==> calls == old(calls) + [SearchTracks(query, SEARCH_LIMIT)]
      ensures session.authorized && answer.Err? ==> r == Err(answer.error)
      ensures session.authorized && answer.Ok? ==> r == Ok(ParseTracks(answer.value, reorder))
      ensures session == old(session) && events == old(events) && ownerMap == old(ownerMap)
      ensures retryCount == old(retryCount) && retryTimeout == old(retryTimeout)
      ensures playlistRetry == old(playlistRetry) && playlistRefreshArmed == old(playlistRefreshArmed)
      ensures devicesCache == old(devicesCache) && devicesCacheTimer == old(devicesCacheTimer)
    {
      if !session.authorized {
        return Err(NotAuthorized);
      }
      calls := calls + [SearchTracks(query, SEARCH_LIMIT)];
      match answer
      case Err(e) => r := Err(e);
      case Ok(tracks) => r := Ok(ParseTracks(tracks, reorder));
    }

    /** The hub's 'play' request: refused without authorization; otherwise the
        stream url is the track id itself. Nothing changes. */
    method OnPlay(trackId: string) returns (r: Result<string, Error>)
      requires Valid()
      ensures r.Ok? <==> session.authorized
      ensures r.Ok? ==> r.value == trackId
      ensures r.Err? ==> r.error == NotAuthorized
    {
      if !session.authorized {
        return Err(NotAuthorized);
      }
      r := Ok(trackId);
    }

    /** The hub's 'getPlaylist' request: refused without authorization;
        otherwise getPlayList. */
    method OnGetPlaylist(id: string, account: Account) returns (r: Result<Playlist, Error>)
      requires Valid()
      modifies this`calls
      ensures Valid()
      ensures !session.authorized ==> r == Err(NotAuthorized) && calls == old(calls)
      ensures session.authorized ==> r == FetchPlaylist(account, Owner(ownerMap, id), id, reorder)
      ensures session.authorized ==> calls == old(calls) + PlaylistCalls(account, Owner(ownerMap, id), id, ThrottleDelay(retryCount))
      ensures session == old(session) && ownerMap == old(ownerMap) && events == old(events)
      ensures retryCount == old(retryCount) && retryTimeout == old(retryTimeout)
      ensures playlistRetry == old(playlistRetry) && playlistRefreshArmed == old(playlistRefreshArmed)
      ensures devicesCache == old(devicesCache) && devicesCacheTimer == old(devicesCacheTimer)
    {
      if !session.authorized {
        return Err(NotAuthorized);
      }
      r := GetPlayList(id, account);
    }
  }
}
