# Spotify for Homey: a Dafny model of the app and the Connect speaker driver

This project models the core of a Homey app that connects a Spotify account to
the Homey hub. It covers two parts.

- **The app object** (`app.js`):
  - the OAuth session: code grant, refresh, a proactive refresh before the
    token expires, retries with exponential backoff, and deauthorize;
  - the request queue, which every call to the service goes through except
    the search and the token grant and refresh;
  - paginated listing of the account's playlists and of each playlist's
    tracks, with a throttle that grows with failed listings;
  - the playlist owner map;
  - the listing retry timeout, which doubles up to a cap;
  - parsing of raw tracks into the hub's track records;
  - the three-second device-list cache;
  - the hub's `search`, `play`, `getPlaylists` and `getPlaylist` requests.
- **The Connect speaker device** (`drivers/connect_speaker/device.js`): one
  Homey speaker kept in step with one Spotify Connect device:
  - `updateState` and the three-second playback-state cache;
  - starting playback (transfer first when the device is not active, then
    play, then pause when asked);
  - `setTrack` with its debounced delay slot;
  - `setActive` and its polling chain;
  - volume, soft mute, seek, skip, play and pause.

Nothing in the model performs I/O. Calls to the streaming service are appended
to a log (`App.calls`, `ConnectSpeaker.log`). What the service answers is a
parameter:
- an `Account` value holds the playlist listing and the playlists;
- a `Result` holds a token grant or a device list;
- a `World` holds the device list, the playback state and the requests the
  service refuses.

Each timer is a field saying whether it is armed, plus a `Fire*` method that
may only be called while it is armed. The app (`SpotifyApp.App`) and the
speaker (`Speaker.ConnectSpeaker`) are classes whose methods update their
fields in place. Parsing, paging, backoff and the session transitions are
pure functions.

Modules, one per file:

| file | module | what it holds |
|---|---|---|
| values.dfy | Values | Option, Result, the errors reported, JavaScript truthiness, `Math.round`, map, `Promise.all`, a single-slot cache |
| tracks.dfy | Tracks | raw and parsed tracks, `parseTrack`, `parseTracks` |
| paging.dfy | Paging | the service's offset/limit pages and the recursion over them |
| backoff.dfy | Backoff | the throttle, the listing retry timeout, the refresh retry delays |
| queue.dfy | RequestQueue | the single-concurrency FIFO request queue |
| playlists.dfy | Playlists | `getPlayList` and `getPlayLists` as functions of the account |
| devices.dfy | Devices | Connect devices, the playback state, the device lookup |
| session.dfy | Session | `authorizeSpotify` and `deauthorize` as state transitions |
| app.dfy | SpotifyApp | the request log and the `App` class |
| speaker.dfy | Speaker | the `ConnectSpeaker` class and its pure helpers |

## Model

| member | source | states |
|---|---|---|
| Values.Round | drivers/connect_speaker/device.js:162 | `Math.round`: the result is the integer r with r <= x + 0.5 < r + 1 (halves round up) |
| Values.RoundInt | drivers/connect_speaker/device.js:215 | rounding leaves an integer unchanged |
| Values.Map | app.js:427 | mapping keeps the length and applies the function at every position |
| Values.Collect | app.js:198-209 | `Promise.all` over settled results: on success, one value per result |
| Values.CollectSpec | app.js:198-209 | `Promise.all` succeeds iff every result does, and then holds each value at its position; otherwise it fails with the first failure in order |
| Values.CacheLookup | app.js:432-438 | a cache lookup fetches iff forced or empty; a fetch answers the new value and caches it; otherwise it answers the cached value and the cache is unchanged |
| Values.CacheLookupRepeats | drivers/connect_speaker/device.js:203-209 | while the cache lives, an unforced lookup asks nothing and answers what the previous lookup answered, whatever the service now says |
| Tracks.ParseTrack | app.js:400-416 | id, title, artists, duration and confidence are copied; the codec list is fixed; the album name is kept; artwork slot k (k < 3) holds the album's k-th image url exactly when that image exists with a url |
| Tracks.Present | app.js:425 | the null filter never lengthens the list |
| Tracks.PresentCounts | app.js:425 | the null filter keeps each non-null entry exactly as often as it occurs, and nothing else |
| Tracks.PresentConcat | app.js:425 | filtering distributes over concatenation |
| Tracks.ParseTracks | app.js:419-428 | a missing list gives no tracks; otherwise the result holds exactly the parsed non-null entries, each as often as it occurs (a permutation), and every non-null entry's parse is in it |
| Tracks.ParsedEntries | app.js:424-427 | filter, sort and map give a permutation of the parsed non-null entries, and every non-null entry is represented |
| Tracks.ParseTracksInOrder | app.js:424-427 | a list without nulls that the sort leaves in place parses entry by entry, in order |
| Paging.ServePage | app.js:226-230 | the service's page: item i is the collection's item at offset + i, `limit` of them when more follow and the rest otherwise (none past the end); a `next` link iff items remain after them; offset and limit echoed |
| Paging.Pages | app.js:225-237 | the pagination recursion makes at least one request, the first at the start offset; PagesCover and PagesOffsets state what it returns and asks for |
| Paging.PagesCover | app.js:225-237 | the pagination recursion returns the whole collection from the start offset, in order, each item once |
| Paging.PagesCoverAll | app.js:225-237 | from offset 0 the recursion returns the whole collection |
| Paging.PagesOffsets | app.js:229-230 | the k-th request asks for `limit` items at `offset + k * limit`; every page but the last has `next`; the last reaches the end |
| Paging.SixtyPlaylists | app.js:226 | with pages of 50, a listing of 60 playlists takes two requests (50 + 10) and returns all 60 in order |
| Paging.FirstRefused | app.js:225-250 | a chain of page requests stops at the first page whose request the service refuses: every page before it is answered, and that page is refused |
| Paging.FirstRefusedOffsets | app.js:229-230 | from offset 0 the chain stops at the first refused request among offsets 0, limit, 2 * limit, ...; it runs to the end iff none of them is refused |
| Backoff.ThrottleDelay | app.js:227 | the throttle is at least 500 ms and is exactly (retryCount + 1) times 500 ms, a whole multiple of 500 ms |
| Backoff.ThrottleUncapped | app.js:227 | the throttle grows with every failed listing and exceeds any bound |
| Backoff.NextRetryTimeout | app.js:161 | after a failed listing the timeout doubles while the double is within 300 s, and never goes above 300 s |
| Backoff.RetryTimeoutAfter | app.js:14 | after any number of failed listings the timeout is between 5 s and 300 s |
| Backoff.RetryTimeoutClosedForm | app.js:159-161 | after n failed listings the timeout is min(5 s * 2^n, 300 s) |
| Backoff.RetryTimeoutMonotone | app.js:161 | the listing retry timeout never decreases |
| Backoff.AuthRetryDelay | app.js:327 | the delay before a refresh retry is at least 10 s |
| Backoff.FailureScheduleShape | app.js:322-329 | with the retry counter at r, 5 - r retries are scheduled and the i-th waits 10 s * 2^(r + i) |
| Backoff.FailureScheduleFromZero | app.js:322-329 | from a counter of 0 the retries wait 10, 20, 40, 80 and 160 s |
| RequestQueue.Queue.constructor | app.js:52 | a new queue has no task running and none submitted |
| RequestQueue.Queue.Add | app.js:52 | a task added while nothing runs starts at once; otherwise it waits at the back; tasks start in submission order |
| RequestQueue.Queue.Settle | app.js:52 | when the running task settles, successfully or not, the oldest waiting task starts; with none waiting, nothing runs |
| Playlists.ParsePagesMultiset | app.js:243-246 | parsing page by page keeps exactly the non-null tracks of all pages, each once |
| Playlists.PlayListEntries | app.js:239-250 | getPlayListEntriesRecursive gives one parsed track per item that is not null; PlayListEntriesSpec states that they are exactly those items, each once |
| Playlists.FetchListing | app.js:225-237 | a listing that arrives is exactly the account's listing |
| Playlists.FetchListingSpec | app.js:225-237 | the listing arrives iff none of the requests at offsets 0, 50, 100, ... is refused; otherwise the error is that of the first refused one |
| Playlists.PlaylistTracks | app.js:239-250 | a playlist the service does not hold gives not found |
| Playlists.FetchPlaylistSpec | app.js:213-250 | getPlayList succeeds iff the service serves the playlist whole (holds it, refuses neither its metadata nor any track page at offsets 0, 100, ...); with the metadata given, a failure is the first refused track page's error |
| Playlists.PlayListEntriesSpec | app.js:239-250 | the paginated track fetch returns every non-null track of the playlist, parsed, exactly once |
| Playlists.FetchPlaylist | app.js:213-223 | getPlayList fails with the metadata request's refusal when it is refused; otherwise with not found when the service does not hold the playlist under that owner; a success means the playlist is held and its metadata not refused, and the record's id and title come from that metadata |
| Playlists.FetchPlaylistTracks | app.js:213-223 | a fetched playlist's tracks are every non-null track of the service's playlist, parsed, exactly once |
| Playlists.FetchAll | app.js:198-209 | one fetch per listed entry |
| Playlists.FetchAllSpec | app.js:198-201 | fetch i is getPlayList of the i-th listed playlist, under the owner the listing gives it |
| Playlists.ListPlaylists | app.js:195-211 | a failed listing (any of its pages) fails getPlayLists with its error; on success there is one playlist per listed entry |
| Playlists.ListPlaylistsSpec | app.js:195-211 | given a listing, getPlayLists succeeds iff every listed playlist is served whole under its listed owner; then entry i is the i-th playlist with its metadata and all its non-null tracks, parsed, exactly once |
| Playlists.ListPlaylistsFailure | app.js:198-209 | given a listing, a failure is the error getPlayList gives for the first listed playlist not served whole; every playlist listed before it is served |
| Playlists.RecordOwners | app.js:191-193 | recording owners only adds keys |
| Playlists.RecordOwnersSpec | app.js:200 | every listed id is in the owner map; an id listed once (or last) maps to that entry's owner; ids not listed keep their owner |
| Devices.FindDevice | drivers/connect_speaker/device.js:197-200 | the first device with this id in list order; not found exactly when no device has the id |
| Session.Initial | app.js:64-69 | at start-up 'authorized' is off, the retry counter is 0 and no timer is armed |
| Session.IsAuthenticated | app.js:377-379 | authenticated iff the 'authorized' setting is on and the client holds a non-empty refresh token; never while 'authorized' is off |
| Session.Resolve | app.js:274-279 | without credentials, authorizeSpotify uses the stored token pair and no code |
| Session.SetAuthorized | app.js:284-303 | the new access token is set and stored; the refresh token is set and stored only when one came back, otherwise the old one is kept; the app is authorized and authenticated with the retry counter reset; the refresh is scheduled at (expiresIn - 600) s; the app is authenticated afterwards iff a refresh token came back or the client already held one |
| Session.Authorize | app.js:272-337 | the refresh timer is armed iff the call succeeds, and the retry timer iff it is retrying; the code branch makes one code grant and the refresh branch one refresh; with neither, it fails with InvalidCredentials and changes only the cleared timers; success sets and stores the tokens (the refresh token only when one came back), authorizes, resets the counter, tells the hub and schedules a refresh at (expiresIn - 600) s; a failed refresh is retried iff fewer than 5 retries were made, with the next backoff delay; a failed code grant is not retried; the session invariant is kept |
| Session.RefreshSuccessAuthenticates | app.js:312-320 | a successful refresh leaves the app authenticated (authorized with a refresh token in the client) |
| Session.CodeGrantWithoutRefreshToken | app.js:284-296 | a code grant answered without a refresh token, when the client had none, leaves the app authorized but not authenticated |
| Session.DeauthorizedAsWritten | app.js:345-360 | deauthorize as written: both token pairs are dropped, 'authorized' is off and the refresh timer cancelled, but a pending refresh retry, the counter and `authenticated` are untouched |
| Session.RetryUndoesDeauthorize | app.js:321-330 | as written, a refresh retry still pending after deauthorize re-authorizes the app when it fires and the service accepts the token |
| Session.Deauthorized | app.js:345-360 | deauthorize as intended: as written, and the pending refresh retry is cancelled too |
| Session.DeauthorizedStaysOff | app.js:345-360 | after the intended deauthorize no timer can authorize again, and an authorizeSpotify without credentials fails with InvalidCredentials without calling the service |
| Session.FailingRefreshesFollowSchedule | app.js:321-332 | refreshes that keep failing, from counter k, are retried 5 - k times after the backoff delays, and then the failure is reported |
| Session.FiveRetriesAfterSuccess | app.js:70-74 | after any successful authorization, by code or by refresh, five failing refreshes are retried after 10, 20, 40, 80 and 160 s, and the sixth failure is reported |
| SpotifyApp.PagedCallsShape | app.js:240-241 | paginated requests alternate: the k-th page's request, then the throttle |
| SpotifyApp.ChainCallsShape | app.js:225-250 | a chain stopped at page k requests pages 0 to k in order, a throttle after each page before k and nothing after page k |
| SpotifyApp.PageRequests | app.js:225-250 | a collection is requested `limit` at a time from offset 0, each answered request followed by the throttle, up to and including the first request the service refuses (nothing after it), or to its last item when none is refused |
| SpotifyApp.Owner | app.js:187-189 | getPlaylistOwner answers the recorded owner iff the id was recorded |
| SpotifyApp.DevicesOrEmpty | app.js:434 | a device answer's list, an empty list when the body has none, or the error |
| SpotifyApp.LookupDevices | app.js:430-439 | getMyDevices rejects without a session and leaves the cache alone; otherwise it is a cache lookup whose fetch answers the device list |
| SpotifyApp.App.constructor | app.js:51-69 | onInit: 'authorized' is off and the hub is told; owner map, counters, caches and timers start empty; the retry timeout starts at 5 s |
| SpotifyApp.App.AuthorizeSpotify | app.js:272-337 | the session becomes the one Authorize computes; its calls and notices are appended; playlist and device state are unchanged |
| SpotifyApp.App.FireRefreshTimer | app.js:300 | the proactive refresh is authorizeSpotify with the stored tokens: the session becomes Authorize's, its calls and notices are appended, and playlist and device state are unchanged |
| SpotifyApp.App.FireAuthRetry | app.js:324-328 | the retry is authorizeSpotify with the credentials it was scheduled with: the session becomes Authorize's, its calls and notices are appended, and playlist and device state are unchanged |
| SpotifyApp.App.Deauthorize | app.js:345-360 | the session becomes the intended Deauthorized one and the hub gets the two notices; no call is made |
| SpotifyApp.App.GetMyDevices | app.js:430-439 | the answer and the new cache are LookupDevices'; a device-list call is logged iff it fetched; the cache lives exactly while its timer is armed |
| SpotifyApp.App.FireDevicesCacheExpiry | app.js:436 | the expiry empties the device cache |
| SpotifyApp.App.ForceStateUpdate | app.js:441-445 | the device cache is emptied and its timer cancelled, and the devices are told to update |
| SpotifyApp.App.GetPlayList | app.js:213-223 | the playlist FetchPlaylist gives for the recorded owner; the metadata request and the throttled track pages are logged |
| SpotifyApp.App.GetPlayLists | app.js:195-211 | the result is ListPlaylists'; every listed owner is recorded; the listing's pages, then each entry's requests, are logged |
| SpotifyApp.App.FetchListed | app.js:198-209 | entry by entry: the owner recorded, the playlist fetched and its requests logged; the results are FetchAll's |
| SpotifyApp.App.FetchOne | app.js:199-201 | one entry: its owner recorded, then getPlayList with that owner |
| SpotifyApp.App.OnGetPlaylists | app.js:142-164 | the pending retry is cancelled and the daily refresh armed; without authorization the answer is an empty list and nothing else changes; otherwise the answer is ListPlaylists', the listing's and each entry's requests are logged with the throttle of the current retry count, the listed owners are recorded when the listing arrives, a success clears the retry count, and a failure increments it, schedules a retry after the current timeout and doubles the timeout up to 300 s |
| SpotifyApp.App.ListAndCount | app.js:150-162 | getPlayLists followed by the retry bookkeeping: the answer, the requests and the owner map are GetPlayLists', and the count is cleared on success or incremented with a retry armed and the timeout moved on on failure |
| SpotifyApp.App.CountListing | app.js:153-162 | a success clears the retry count; a failure increments it, arms the retry with the current timeout and moves to the next timeout |
| SpotifyApp.App.FirePlaylistRetry | app.js:160 | the retry asks the hub to request the playlists again |
| SpotifyApp.App.FirePlaylistRefresh | app.js:145-148 | the daily refresh disarms and asks the hub to request the playlists again |
| SpotifyApp.App.OnSearch | app.js:113-124 | refused with NotAuthorized without authorization (no call); otherwise one search for 5 tracks, answering its error or the parsed tracks |
| SpotifyApp.App.OnPlay | app.js:131-136 | succeeds iff authorized, with the track id as the stream url; otherwise NotAuthorized |
| SpotifyApp.App.OnGetPlaylist | app.js:169-178 | refused with NotAuthorized without authorization (no call); otherwise getPlayList with the recorded owner |
| Speaker.VolumePercent | drivers/connect_speaker/device.js:212-217 | a value below 1 is sent as round(v * 100), any other value as round(v) |
| Speaker.VolumeRoundTrip | drivers/connect_speaker/device.js:215 | a whole percentage from 1 to 100 is sent unchanged, and so is its fraction when below 1 |
| Speaker.VolumeExamples | drivers/connect_speaker/device.js:215 | 0.35 is sent as 35, 0 as 0, and exactly 1 as 1 (not 100) |
| Speaker.UnmuteTarget | drivers/connect_speaker/device.js:190 | unmuting restores the stored volume, or 50 when none is stored or it is 0 |
| Speaker.Run | drivers/connect_speaker/device.js:250-268 | a chain of requests runs in order up to and including the first one refused; it succeeds iff none is refused, and otherwise fails with the refused request's status |
| Speaker.PlaybackPlan | drivers/connect_speaker/device.js:250-268 | startPlayback's steps: a transfer without playing iff the device was not active, then the play request, a pause iff asked, and the app's state update last iff the device was not active |
| Speaker.GetState | drivers/connect_speaker/device.js:197-200 | getState fails with the device list's error, or else is this device's lookup in the list |
| Speaker.Start | drivers/connect_speaker/device.js:250-268 | startPlayback makes no request when getState fails; otherwise it runs the plan for the device's activity |
| Speaker.StartOnInactiveDevice | drivers/connect_speaker/device.js:251-266 | on an inactive device accepting the requests: transfer, play, the pause if asked, then the app's state update, and success |
| Speaker.RefusedPlayStops | drivers/connect_speaker/device.js:255-268 | a refused play request is the last request made, fails startPlayback with its status, and is followed by neither pause nor state update |
| Speaker.Refresh | drivers/connect_speaker/device.js:150-181 | a failed device read only marks the device unavailable; an inactive device clears the playback fields and shows not playing; an active one copies the playback state (progress rounded, repeat on iff "on"), or is marked unavailable when that read fails; the volume capability becomes round(percent) / 100 unless soft-muted at 0 % |
| Speaker.RefreshIdempotent | drivers/connect_speaker/device.js:150-181 | updating twice from the same answers changes nothing the second time |
| Speaker.RefreshVolumeInRange | drivers/connect_speaker/device.js:171-174 | a device volume between 0 and 100 keeps the volume capability between 0 and 1 |
| Speaker.Arm | drivers/connect_speaker/device.js:96-105 | arming a poll makes it the one referred to, and one more poll is armed |
| Speaker.StateUpdate | drivers/connect_speaker/device.js:150-181 | updateState's effect: the playback state is read, through the cache, only for a device listed active, and requested anew only when forced or nothing is cached; what the speaker shows is Refresh of the answer the cache gives |
| Speaker.SpeakerReport | drivers/connect_speaker/device.js:123-131 | Homey is told the position iff the device is active and is the one playing; otherwise that it is inactive |
| Speaker.PlayTrackSucceeds | drivers/connect_speaker/device.js:61-65 | on a device that accepts its requests a setTrack request starts: play the track at its position, paused iff it is not to start playing; once shown, an active device's playback state has been read anew and the speaker shows its refresh |
| Speaker.TrackUri | drivers/connect_speaker/device.js:37 | the uri is `spotify:track:` followed by the track's stream url, character by character |
| Speaker.TrackUriInjective | drivers/connect_speaker/device.js:37 | two tracks with the same uri have the same stream url |
| Speaker.ConnectSpeaker.constructor | drivers/connect_speaker/device.js:7-22 | a new speaker has no callback issued, no request made, no playback cache, is inactive and has no poll armed |
| Speaker.ConnectSpeaker.GetPlaybackState | drivers/connect_speaker/device.js:202-210 | the answer and the new cache are CacheLookup's; a playback request is logged iff it fetched |
| Speaker.ConnectSpeaker.FirePlaybackCacheExpiry | drivers/connect_speaker/device.js:207 | the expiry empties the playback cache |
| Speaker.ConnectSpeaker.UpdateState | drivers/connect_speaker/device.js:150-181 | what the speaker shows becomes Refresh's, from this device's entry and, only for an active device, the playback state read through the cache; the cache and the playback request logged are CacheLookup's (StateUpdate) |
| Speaker.ConnectSpeaker.UpdateSpeakerState | drivers/connect_speaker/device.js:123-131 | after updateState, Homey's speaker is told the progress iff this device is active and is the one playing, and is told it is inactive otherwise |
| Speaker.ConnectSpeaker.StartPlayback | drivers/connect_speaker/device.js:250-269 | the requests and the result are Start's |
| Speaker.ConnectSpeaker.PlayTrack | drivers/connect_speaker/device.js:61-65 | startPlayback with the track's uri and position and a pause iff not to start playing; on failure the callback gets the error and nothing else changes; on success Homey's speaker is told the track, the state is updated with force and reported, and the callback gets the track; each callback is answered once |
| Speaker.ConnectSpeaker.ShowTrack | drivers/connect_speaker/device.js:62-64 | a started track: Homey is told the track and position, the state is updated with force and reported, and the callback gets the track |
| Speaker.ConnectSpeaker.Answer | drivers/connect_speaker/device.js:64-65 | a callback not yet answered is answered once |
| Speaker.ConnectSpeaker.SetTrack | drivers/connect_speaker/device.js:36-76 | a request waiting in the slot is answered 'setTrack debounced' first; a request with a delay takes the slot with no request to the service and nothing else changed; one without is played at once as PlayTrack states, with its reply, requests, shown state and cache |
| Speaker.ConnectSpeaker.FireQueuedTimeout | drivers/connect_speaker/device.js:57-67 | the slot is cleared and its request played as PlayTrack states; its callback, and only it, is answered, with its own track on success |
| Speaker.ConnectSpeaker.Activate | drivers/connect_speaker/device.js:84-108 | setActive(true) marks the speaker active and transfers playback without playing; a refused transfer fails with its status and starts no poll; otherwise it answers true and arms one more poll |
| Speaker.ConnectSpeaker.Deactivate | drivers/connect_speaker/device.js:109-115 | setActive(false) marks the speaker inactive, cancels the poll it refers to and answers false |
| Speaker.ConnectSpeaker.FirePoll | drivers/connect_speaker/device.js:96-103 | a poll runs updateSpeakerState without force (shown state, cache, requests and report as StateUpdate and SpeakerReport give) and re-arms only while the speaker is active; otherwise one fewer poll is armed |
| Speaker.ConnectSpeaker.SetPlaybackVolume | drivers/connect_speaker/device.js:212-217 | one volume request with VolumePercent; it succeeds iff the service accepts it |
| Speaker.ConnectSpeaker.SetVolumeMute | drivers/connect_speaker/device.js:187-195 | unmuting clears soft mute and sets UnmuteTarget's volume; muting sets soft mute, stores the device's current volume and sets 0, or fails with getState's error without a request |
| Speaker.ConnectSpeaker.SetPosition | drivers/connect_speaker/device.js:78-82 | one seek to the rounded position; Homey gets the position back iff the seek is accepted |
| Speaker.ConnectSpeaker.Skip | drivers/connect_speaker/device.js:226-244 | one skip request; the app's state update follows iff the skip succeeded on a device that is not active |
| Speaker.ConnectSpeaker.PausePlayback | drivers/connect_speaker/device.js:246-248 | one pause request, succeeding iff the service accepts it |
| Speaker.ConnectSpeaker.SetPlayback | drivers/connect_speaker/device.js:183-185 | true starts playback with no track, offset or pause; false pauses |

## Left out

- Host plumbing is not modelled. This covers the Homey settings and realtime
  API, logging, the flow cards (app.js:79-108), `startOAuth2` and the
  authorization URL, `getProfile`, `getApi`, capability-listener registration
  and `wrapCapabilityListener`. These forward to the service or the host
  without logic of their own.
- SpotifyApp.App.constructor stops before onInit's closing
  `authorizeSpotify()` (app.js:76). The host's first call of
  `AuthorizeSpotify(None, ...)` stands for it, because the service's answer
  is a parameter that the constructor does not take. The daily playlist
  refresh that `OnGetPlaylists` arms (app.js:145-148) fires through
  `FirePlaylistRefresh`.
- The random variance of the daily playlist refresh (app.js:147) is left out:
  it comes from `Math.random`, so only "armed" is modelled. The market chosen
  from the hub's language (app.js:28-39) is a constant passed upstream and is
  left out.
- The 30-second `update_state` interval (app.js:184) is left out. So are the
  speaker's initialisation, with its 30-second retry and its registration
  with Homey (device.js:7-34, 118-120), and `onDeleted`. They are host
  scheduling; `UpdateState` and `FirePoll` model what each tick does.
- Concurrency is not modelled. Each operation runs to completion with one
  snapshot of the service's answers (`Account`, `World`, a `Result`).
  Interleavings of concurrent promises are left out, and so are answers that
  change mid-operation.
- `Promise.all` is modelled only by its result. The request log
  (`SpotifyApp.EntryCalls`) puts each playlist's requests after the previous
  playlist's. Each chain's own order is kept: the metadata, then the track
  pages in order. The queue's interleaving of the chains is left out. The
  queue starts the later chains' first requests before the earlier chains'
  next pages.
- Playlists.ListPlaylists: the error reported is that of the first failing
  playlist in listing order. `Promise.all` rejects with the first failure in
  time, which can belong to a later playlist. Within one playlist the
  metadata request is queued first, so its failure is the one reported.
- SpotifyApp.App.Deauthorize: it uses `Session.Deauthorized`, the intended
  deauthorize, which also cancels a pending refresh retry (see Findings).
  The code as written is `Session.DeauthorizedAsWritten`, and
  `Session.RetryUndoesDeauthorize` shows what that leaves possible.
- The throttle is computed from the retry count when a chain starts. The code
  reads the module-level count when each page answers, so a count that
  changes while a chain runs is left out, like the other interleavings.
- RequestQueue.Queue is modelled as a class on its own. The app's methods do
  not drive a Queue object. Their log keeps each chain's own order, not the
  order in which the queue starts requests. It also holds the search and the
  token calls, which never enter the queue.
- `Tracks.ParseTracks` and `Tracks.ParsedEntries` do not state the order of the
  parsed tracks, because the sort's comparator returns a boolean and the
  engine chooses the order. They state only that the result is a permutation,
  through the `reorder` oracle.
- `Playlists.FetchAll` states only the length in its own contract; the
  pointwise contents are in `Playlists.FetchAllSpec`.
- A failing call to the service is an `Upstream(status)` error. Its message
  and transport details are left out, and so is the thrown exception when an
  answer body is null: such an answer is an `Err` value.
- The speaker's `getState` ignores the force flag and reads the app's cached
  device list (device.js:151, 197-199). The model gives that list as the
  `World.devices` parameter instead of reading the app's cache, so the two
  classes are not linked.
- A negative timer delay (an `expiresIn` under 600 s, app.js:300) fires at
  once in JavaScript. The model records the delay as computed.
- The auth retry counter stops retrying after five retries. The sixth failure
  in a row is reported, as the code at app.js:322-331 does.
- `Speaker.VolumePercent` takes exactly 1.0 as 1 %, as the code at
  device.js:215 does. So full volume on the capability (1.0) is sent as 1 %.
  This is documented by `Speaker.VolumeExamples` and not corrected, because
  which reading was meant is not evident.
- The fields updateState writes are grouped into one record
  (`ConnectSpeaker.shown`). Capability writes are not separate host calls.

## Findings

| source | as written | input that shows it | evidently intended | confidence | as-written member | corrected member |
|---|---|---|---|---|---|---|
| app.js:345-360 | deauthorize cancels the proactive refresh timer but not `authRetryTimeout`, the pending retry of a failed refresh (app.js:325) | a refresh fails, a retry is armed, the user deauthorizes, the retry fires and the service accepts the remembered refresh token: the app is authorized again and the tokens are stored again | deauthorizing cancels every timer that can call authorizeSpotify, so the app stays deauthorized until the user authorizes again | not executed | Session.RetryUndoesDeauthorize | Session.DeauthorizedStaysOff |
