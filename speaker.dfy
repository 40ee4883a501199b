/** The Connect speaker device (drivers/connect_speaker/device.js): a Homey
    speaker kept in step with one of the streaming service's Connect devices.
    Its requests to the service are appended to a log, whether each succeeds
    is given by the caller, and its timers are fields plus Fire* methods. */
module Speaker {
  import opened Values
  import opened Devices

  /** The requests the device makes for itself (each names this device). */
  datatype Request =
    | Transfer(play: bool)                            // transferMyPlayback
    | Play(uri: Option<string>, offset: Option<real>) // startMyPlayback
    | Pause                                           // pauseMyPlayback
    | SetVolume(percent: int)                         // setMyPlaybackVolume
    | Seek(positionMs: int)                           // seekMyPlayback
    | SkipNext                                        // skipMyPlaybackNext
    | SkipPrevious                                    // skipMyPlaybackPrevious
    | FetchPlayback                                   // getMyCurrentPlaybackState

  /** A track Homey asks the speaker to play. */
  datatype TrackData = TrackData(streamUrl: string)

  /** What the device does, in order: requests to the service, the app's
      forceStateUpdate, and what it tells Homey's speaker. */
  datatype Effect =
    | Api(request: Request)
    | AppStateUpdate
    | SpeakerTrack(position: real, track: TrackData)
    | SpeakerPosition(progress: Option<int>)
    | SpeakerInactive

  /** What the service does with this device's requests: the requests it
      refuses, with their status; the device list the app's getMyDevices
      answers; and the playback state it reports. */
  datatype World = World(
    devices: Result<seq<DeviceInfo>, Error>,
    playback: Result<PlaybackState, Error>,
    failing: map<Request, int>)

  /** The volume sent to the service for a capability value `v`: a value
      below 1 read as a share of 100, anything else as a percentage, then
      rounded. */
  function VolumePercent(v: real): (p: int)
    ensures v < 1.0 ==> p == Round(v * 100.0)
    ensures v >= 1.0 ==> p == Round(v)
  {
    Round(if v < 1.0 then v * 100.0 else v)
  }

  /** A whole percentage from 1 to 100 is sent unchanged, and so is its
      fraction when it is below 1. */
  lemma VolumeRoundTrip(p: int)
    requires 1 <= p <= 100
    ensures VolumePercent(p as real) == p
    ensures p < 100 ==> VolumePercent(p as real / 100.0) == p
  {
    RoundInt(p);
    assert p as real / 100.0 * 100.0 == p as real;
  }

  /** 0.35 becomes 35; exactly 1 (the capability's full volume) becomes 1,
      not 100. */
  lemma VolumeExamples()
    ensures VolumePercent(0.35) == 35
    ensures VolumePercent(1.0) == 1
    ensures VolumePercent(0.0) == 0
  {
    RoundInt(35);
    RoundInt(1);
    RoundInt(0);
  }

  /** What unmuting restores: the stored volume, or 50 when it is falsy. */
  function UnmuteTarget(stored: Option<real>): (v: real)
    ensures stored.Some? && stored.value != 0.0 ==> v == stored.value
    ensures stored.None? || stored.value == 0.0 ==> v == 50.0
  {
    if stored.Some? && stored.value != 0.0 then stored.value else 50.0
  }

  /** The requests are carried out in order up to and including the first one
      the service refuses, whose status is the error; the rest are not made. */
  function Run(plan: seq<Effect>, failing: map<Request, int>): (out: (seq<Effect>, Result<(), Error>))
    ensures out.0 <= plan
    ensures out.1.Ok? <==> forall k :: 0 <= k < |plan| && plan[k].Api? ==> plan[k].request !in failing
    ensures out.1.Ok? ==> out.0 == plan
    ensures out.1.Err? ==>
      && |out.0| >= 1
      && out.0[|out.0| - 1].Api? && out.0[|out.0| - 1].request in failing
      && out.1.error == Upstream(failing[out.0[|out.0| - 1].request])
      && forall k :: 0 <= k < |out.0| - 1 && out.0[k].Api? ==> out.0[k].request !in failing
  {
    if plan == [] then ([], Ok(()))
    else if plan[0].Api? && plan[0].request in failing then
      ([plan[0]], Err(Upstream(failing[plan[0].request])))
    else
      var rest := Run(plan[1..], failing);
      assert forall k :: 1 <= k < |plan| ==> plan[k] == plan[1..][k - 1];
      ([plan[0]] + rest.0, rest.1)
  }

  /** startPlayback's effects once getState says whether the device was
      active: a transfer without playing when it was not, the play request,
      a pause when asked, and the app's state update when it was not. */
  function PlaybackPlan(wasActive: bool, uri: Option<string>, offset: Option<real>, pauseAfterLoad: bool): (plan: seq<Effect>)
    ensures !wasActive <==> |plan| > 0 && plan[0] == Api(Transfer(false))
    ensures var k := if wasActive then 0 else 1; k < |plan| && plan[k] == Api(Play(uri, offset))
    ensures pauseAfterLoad <==> Api(Pause) in plan
    ensures pauseAfterLoad ==> plan[if wasActive then 1 else 2] == Api(Pause)
    ensures !wasActive <==> plan[|plan| - 1] == AppStateUpdate
    ensures |plan| == 1 + (if wasActive then 0 else 2) + (if pauseAfterLoad then 1 else 0)
  {
    (if wasActive then [] else [Api(Transfer(false))])
      + [Api(Play(uri, offset))]
      + (if pauseAfterLoad then [Api(Pause)] else [])
      + (if wasActive then [] else [AppStateUpdate])
  }

  /** getState: this device in the app's device list. */
  function GetState(devices: Result<seq<DeviceInfo>, Error>, id: string): (r: Result<DeviceInfo, Error>)
    ensures devices.Err? ==> r == Err(devices.error)
    ensures devices.Ok? ==> r == FindDevice(devices.value, id)
  {
    match devices
    case Err(e) => Err(e)
    case Ok(list) => FindDevice(list, id)
  }

  /** startPlayback(uri, offset, pauseAfterLoad): nothing happens when getState
      fails; otherwise the plan runs until a request is refused. */
  function Start(w: World, id: string, uri: Option<string>, offset: Option<real>, pauseAfterLoad: bool): (out: (seq<Effect>, Result<(), Error>))
    ensures GetState(w.devices, id).Err? ==> out == ([], Err(GetState(w.devices, id).error))
    ensures GetState(w.devices, id).Ok? ==> out == Run(PlaybackPlan(GetState(w.devices, id).value.isActive, uri, offset, pauseAfterLoad), w.failing)
  {
    match GetState(w.devices, id)
    case Err(e) => ([], Err(e))
    case Ok(device) => Run(PlaybackPlan(device.isActive, uri, offset, pauseAfterLoad), w.failing)
  }

  /** On an inactive device that accepts every request, playback transfers
      without playing, plays, pauses if asked, and then has the app refresh
      every device's state, in that order. */
  lemma StartOnInactiveDevice(w: World, id: string, uri: Option<string>, offset: Option<real>, pauseAfterLoad: bool)
    requires GetState(w.devices, id).Ok? && !GetState(w.devices, id).value.isActive
    requires Transfer(false) !in w.failing && Play(uri, offset) !in w.failing && Pause !in w.failing
    ensures var out := Start(w, id, uri, offset, pauseAfterLoad);
      && out.0 == [Api(Transfer(false)), Api(Play(uri, offset))] + (if pauseAfterLoad then [Api(Pause)] else []) + [AppStateUpdate]
      && out.1.Ok?
  {
    var plan := PlaybackPlan(false, uri, offset, pauseAfterLoad);
    assert plan == [Api(Transfer(false)), Api(Play(uri, offset))] + (if pauseAfterLoad then [Api(Pause)] else []) + [AppStateUpdate];
    assert forall k :: 0 <= k < |plan| && plan[k].Api? ==> plan[k].request in {Transfer(false), Play(uri, offset), Pause};
  }

  /** A refused play request stops the sequence: no pause and no state update
      follow it. */
  lemma RefusedPlayStops(w: World, id: string, uri: Option<string>, offset: Option<real>, pauseAfterLoad: bool)
    requires GetState(w.devices, id).Ok? && Transfer(false) !in w.failing && Play(uri, offset) in w.failing
    ensures var out := Start(w, id, uri, offset, pauseAfterLoad);
      && out.1 == Err(Upstream(w.failing[Play(uri, offset)]))
      && out.0[|out.0| - 1] == Api(Play(uri, offset))
      && Api(Pause) !in out.0 && AppStateUpdate !in out.0
  {
    var active := GetState(w.devices, id).value.isActive;
    var plan := PlaybackPlan(active, uri, offset, pauseAfterLoad);
    var out := Run(plan, w.failing);
    var k := if active then 0 else 1;
    assert plan[k] == Api(Play(uri, offset));
    assert forall j :: 0 <= j < k ==> plan[j] == Api(Transfer(false));
    assert forall j :: 0 <= j < |out.0| ==> out.0[j] == plan[j];
    assert |out.0| == k + 1;
    assert out.0 == plan[..k + 1];
  }

  /** The fields updateState sets, and the two capabilities it writes. */
  datatype Observed = Observed(
    available: bool,
    isActive: bool,
    isRestricted: bool,
    playbackState: Option<PlaybackState>,
    playbackItem: Option<Item>,
    isPlaying: bool,
    progressMs: Option<int>,
    repeatState: bool,
    shuffleState: bool,
    volumeSet: Option<real>,
    speakerPlaying: bool)

  /** updateState, given what getState and getPlaybackState answer (the
      latter read only for an active device). A failure anywhere only marks
      the device unavailable, after what was already set. */
  function Refresh(o: Observed, softMuted: bool, device: Result<DeviceInfo, Error>, playback: Result<PlaybackState, Error>): (n: Observed)
    ensures device.Err? ==> n == o.(available := false)
    ensures device.Ok? ==> n.isActive == device.value.isActive && n.isRestricted == device.value.isRestricted
    ensures device.Ok? && device.value.isActive && playback.Err? ==>
      n == o.(available := false, isActive := true, isRestricted := device.value.isRestricted)
    ensures device.Ok? && !device.value.isActive ==>
      && n.available && n.playbackState.None? && n.playbackItem.None? && n.progressMs.None?
      && !n.isPlaying && !n.speakerPlaying
      && n.repeatState == o.repeatState && n.shuffleState == o.shuffleState
    ensures device.Ok? && device.value.isActive && playback.Ok? ==>
      && n.available && n.playbackState == Some(playback.value) && n.playbackItem == playback.value.item
      && n.isPlaying == playback.value.isPlaying && n.speakerPlaying == playback.value.isPlaying
      && n.progressMs == Some(Round(playback.value.progressMs))
      && (n.repeatState <==> playback.value.repeatState == "on")
      && n.shuffleState == playback.value.shuffleState
    ensures n.available && softMuted && device.value.volumePercent == 0.0 ==> n.volumeSet == o.volumeSet
    ensures n.available && !(softMuted && device.value.volumePercent == 0.0) ==>
      n.volumeSet == Some(Round(device.value.volumePercent) as real / 100.0)
  {
    match device
    case Err(_) => o.(available := false)
    case Ok(d) =>
      var base := o.(available := true, isActive := d.isActive, isRestricted := d.isRestricted);
      var played :=
        if !d.isActive then
          Ok(base.(playbackState := None, playbackItem := None, progressMs := None, isPlaying := false))
        else match playback
          case Err(_) => Err(())
          case Ok(p) =>
            Ok(base.(playbackState := Some(p), playbackItem := p.item, isPlaying := p.isPlaying,
                     progressMs := Some(Round(p.progressMs)), repeatState := p.repeatState == "on",
                     shuffleState := p.shuffleState));
      match played
      case Err(_) => base.(available := false)
      case Ok(s) =>
        var volume := if softMuted && d.volumePercent == 0.0 then s.volumeSet else Some(Round(d.volumePercent) as real / 100.0);
        s.(volumeSet := volume, speakerPlaying := s.isPlaying)
  }

  /** Refreshing twice from the same answers changes nothing the second time. */
  lemma RefreshIdempotent(o: Observed, softMuted: bool, device: Result<DeviceInfo, Error>, playback: Result<PlaybackState, Error>)
    ensures Refresh(Refresh(o, softMuted, device, playback), softMuted, device, playback) == Refresh(o, softMuted, device, playback)
  {
  }

  /** A device volume from 0 to 100 puts the capability between 0 and 1. */
  lemma RefreshVolumeInRange(o: Observed, softMuted: bool, d: DeviceInfo, playback: Result<PlaybackState, Error>)
    requires 0.0 <= d.volumePercent <= 100.0
    requires o.volumeSet.Some? ==> 0.0 <= o.volumeSet.value <= 1.0
    ensures var n := Refresh(o, softMuted, Ok(d), playback);
      n.volumeSet.Some? ==> 0.0 <= n.volumeSet.value <= 1.0
  {
    var r := Round(d.volumePercent);
    assert 0 <= r <= 100;
  }

  /** What updateState leaves behind: what the speaker shows, the playback
      cache, and the requests it made. */
  datatype Update = Update(shown: Observed, cache: Option<Result<PlaybackState, Error>>, effects: seq<Effect>)

  /** updateState(force) from what the speaker shows `o` and the playback
      cache `cache`: the playback state is read, through the cache, only for
      a device that the device list shows active, and asked for anew only
      when forced or when nothing is cached; what the speaker then shows
      reflects the answer the cache gives. */
  function StateUpdate(o: Observed, softMuted: bool, cache: Option<Result<PlaybackState, Error>>, force: bool, w: World, id: string): (u: Update)
    ensures var d := GetState(w.devices, id);
      var read := d.Ok? && d.value.isActive;
      && u.effects == (if read && (force || cache.None?) then [Api(FetchPlayback)] else [])
      && (read ==> u.cache.Some? && u.shown == Refresh(o, softMuted, d, u.cache.value))
      && (read && (force || cache.None?) ==> u.cache == Some(w.playback))
      && (read && !force && cache.Some? ==> u.cache == cache)
      && (!read ==> u.cache == cache && u.shown == Refresh(o, softMuted, d, w.playback))
  {
    var d := GetState(w.devices, id);
    if d.Ok? && d.value.isActive then
      var c := CacheLookup(force, cache, w.playback);
      Update(Refresh(o, softMuted, d, c.result), c.cache, if c.fetched then [Api(FetchPlayback)] else [])
    else
      Update(Refresh(o, softMuted, d, w.playback), cache, [])
  }

  /** What updateSpeakerState tells Homey's speaker after updateState: where
      playback stands when this device is active and is the one playing,
      and that it is inactive otherwise. */
  function SpeakerReport(o: Observed, id: string): (e: Effect)
    ensures e.SpeakerPosition? <==> o.isActive && o.playbackState.Some? && o.playbackState.value.deviceId == id
    ensures e.SpeakerPosition? ==> e.progress == o.progressMs
    ensures !e.SpeakerPosition? ==> e == SpeakerInactive
  {
    if o.isActive && o.playbackState.Some? && o.playbackState.value.deviceId == id then SpeakerPosition(o.progressMs)
    else SpeakerInactive
  }

  const TRACK_URI_PREFIX: string := "spotify:track:"

  /** The track's uri on the service: the prefix, then the track's stream
      url. */
  function TrackUri(track: TrackData): (uri: string)
    ensures |uri| == |TRACK_URI_PREFIX| + |track.streamUrl|
    ensures forall i :: 0 <= i < |TRACK_URI_PREFIX| ==> uri[i] == TRACK_URI_PREFIX[i]
    ensures forall i :: 0 <= i < |track.streamUrl| ==> uri[|TRACK_URI_PREFIX| + i] == track.streamUrl[i]
  {
    TRACK_URI_PREFIX + track.streamUrl
  }

  /** The stream url can be read back from the uri, so two tracks with
      different stream urls are never played under the same uri. */
  lemma TrackUriInjective(a: TrackData, b: TrackData)
    requires TrackUri(a) == TrackUri(b)
    ensures a.streamUrl == b.streamUrl
  {
    forall i | 0 <= i < |a.streamUrl|
      ensures a.streamUrl[i] == b.streamUrl[i]
    {
      assert TrackUri(a)[|TRACK_URI_PREFIX| + i] == TrackUri(b)[|TRACK_URI_PREFIX| + i];
    }
  }

  /** startPlayback for a setTrack request: the track's uri, its position as
      offset, and a pause after loading exactly when it is not to start
      playing. */
  function StartTrack(w: World, id: string, request: TrackRequest): (seq<Effect>, Result<(), Error>) {
    Start(w, id, Some(TrackUri(request.track)), Some(request.position), !request.startPlaying)
  }

  /** A track that started playing, from what the speaker shows `o` and the
      playback cache `cache`: Homey's speaker is told the track and its
      position, then the state is updated with force and reported. */
  function TrackShown(w: World, id: string, request: TrackRequest, o: Observed, softMuted: bool, cache: Option<Result<PlaybackState, Error>>): Update {
    var u := StateUpdate(o, softMuted, cache, true, w, id);
    Update(u.shown, u.cache, [SpeakerTrack(request.position, request.track)] + u.effects + [SpeakerReport(u.shown, id)])
  }

  /** On a listed device that accepts the transfer, the play and the pause,
      a setTrack request starts: the track at its position, paused exactly
      when it is not to start playing; and once it is shown, an active
      device's playback state has been read anew and the speaker shows its
      refresh. */
  lemma PlayTrackSucceeds(w: World, id: string, request: TrackRequest, o: Observed, softMuted: bool, cache: Option<Result<PlaybackState, Error>>)
    requires GetState(w.devices, id).Ok?
    requires Transfer(false) !in w.failing && Pause !in w.failing
    requires Play(Some(TrackUri(request.track)), Some(request.position)) !in w.failing
    ensures var out, d := StartTrack(w, id, request), GetState(w.devices, id).value;
      && out.1.Ok?
      && out.0 == PlaybackPlan(d.isActive, Some(TrackUri(request.track)), Some(request.position), !request.startPlaying)
      && (Api(Pause) in out.0 <==> !request.startPlaying)
    ensures var s, d := TrackShown(w, id, request, o, softMuted, cache), GetState(w.devices, id).value;
      d.isActive ==> s.cache == Some(w.playback) && s.shown == Refresh(o, softMuted, Ok(d), w.playback)
  {
    var d := GetState(w.devices, id).value;
    var uri, offset := Some(TrackUri(request.track)), Some(request.position);
    var plan := PlaybackPlan(d.isActive, uri, offset, !request.startPlaying);
    assert forall k :: 0 <= k < |plan| && plan[k].Api? ==> plan[k].request in {Transfer(false), Play(uri, offset), Pause};
  }

  /** The polling timers: the one `updateSpeakerStateTimeout` refers to, and
      older chains still armed that it no longer refers to. */
  datatype Polls = Polls(stored: bool, stray: nat)

  function ArmedPolls(p: Polls): nat {
    (if p.stored then 1 else 0) + p.stray
  }

  /** A new poll timer is stored in updateSpeakerStateTimeout: it becomes the
      one referred to, and the one it replaces stays armed. */
  function Arm(p: Polls): (q: Polls)
    ensures q.stored && ArmedPolls(q) == ArmedPolls(p) + 1
  {
    Polls(true, if p.stored then p.stray + 1 else p.stray)
  }

  /** The callbacks the replies answer. */
  ghost function Callbacks(replies: seq<Reply>): set<nat>
    decreases |replies|
  {
    if replies == [] then {} else Callbacks(replies[..|replies| - 1]) + {replies[|replies| - 1].callback}
  }

  /** No callback is answered twice. */
  ghost predicate Distinct(replies: seq<Reply>)
    decreases |replies|
  {
    replies == [] || (Distinct(replies[..|replies| - 1]) && replies[|replies| - 1].callback !in Callbacks(replies[..|replies| - 1]))
  }

  /** A pending setTrack: the callback Homey is waiting on and its request. */
  datatype Pending = Pending(callback: nat, request: TrackRequest)

  /** setTrack's data: the track, the delay before it should start (0 for
      none), the position to start from, and whether to start playing. */
  datatype TrackRequest = TrackRequest(track: TrackData, delay: nat, position: real, startPlaying: bool)

  /** An answer to a setTrack callback. */
  datatype Reply = Reply(callback: nat, result: Result<TrackData, Error>)

  /** What a new setTrack answers first: the request still waiting in the
      slot, if any, is told it was debounced. */
  function Debounce(slot: Option<Pending>): seq<Reply> {
    if slot.Some? then [Reply(slot.value.callback, Err(Debounced))] else []
  }

  class ConnectSpeaker {
    /** `getData().id`: the Connect device this speaker stands for. */
    const id: string
    /** The fields updateState writes (available, isActive, isRestricted,
        playbackState, playbackItem, isPlaying, progressMs, repeatState,
        shuffleState) with the capabilities volume_set and speaker_playing. */
    var shown: Observed
    /** The stored values soft_muted and unmute_volume. */
    var softMuted: bool
    var unmuteVolume: Option<real>
    /** currentPlaybackStateCache, and whether its expiry timer is armed. */
    var playbackCache: Option<Result<PlaybackState, Error>>
    var playbackCacheTimer: bool
    var isSpeakerActive: bool
    var polls: Polls
    /** queuedCallback with its queuedTimeout: they are set and cleared together. */
    var queued: Option<Pending>
    var log: seq<Effect>
    var replies: seq<Reply>

    /** Every setTrack callback handed to the device so far: the answered ones
        and the one waiting in the slot. */
    ghost function Issued(): set<nat>
      reads this
    {
      Callbacks(replies) + if queued.Some? then {queued.value.callback} else {}
    }

    /** The playback cache lives exactly while its timer is armed, no setTrack
        callback is answered twice, and the one waiting is not yet answered. */
    ghost predicate Valid()
      reads this
    {
      && (playbackCache.Some? <==> playbackCacheTimer)
      && Distinct(replies)
      && (queued.Some? ==> queued.value.callback !in Callbacks(replies))
    }

    constructor (id: string)
      ensures Valid() && this.id == id
      ensures queued.None? && log == [] && replies == [] && Issued() == {}
      ensures playbackCache.None? && !isSpeakerActive && polls == Polls(false, 0)
    {
      this.id := id;
      shown := Observed(false, false, false, None, None, false, None, false, false, None, false);
      softMuted, unmuteVolume := false, None;
      playbackCache, playbackCacheTimer := None, false;
      isSpeakerActive, polls := false, Polls(false, 0);
      queued, log, replies := None, [], [];
    }

    /** getPlaybackState(force): the cached answer, asked for anew when forced
        or when nothing is cached (and then kept for three seconds). */
    method GetPlaybackState(force: bool, w: World) returns (r: Result<PlaybackState, Error>)
      requires Valid()
      modifies this`log, this`playbackCache, this`playbackCacheTimer
      ensures Valid()
      ensures var c := CacheLookup(force, old(playbackCache), w.playback);
        r == c.result && playbackCache == c.cache && log == old(log) + if c.fetched then [Api(FetchPlayback)] else []
      ensures shown == old(shown) && softMuted == old(softMuted) && unmuteVolume == old(unmuteVolume)
      ensures queued == old(queued) && replies == old(replies)
      ensures isSpeakerActive == old(isSpeakerActive) && polls == old(polls)
    {
      if force || playbackCache.None? {
        log := log + [Api(FetchPlayback)];
        playbackCache := Some(w.playback);
        playbackCacheTimer := true;
      }
      r := playbackCache.value;
    }

    /** currentPlaybackStateCacheTimeout fires. */
    method FirePlaybackCacheExpiry()
      requires Valid() && playbackCacheTimer
      modifies this`playbackCache, this`playbackCacheTimer
      ensures Valid()
      ensures playbackCache.None? && !playbackCacheTimer
      ensures shown == old(shown) && log == old(log) && replies == old(replies) && queued == old(queued)
      ensures softMuted == old(softMuted) && unmuteVolume == old(unmuteVolume)
      ensures isSpeakerActive == old(isSpeakerActive) && polls == old(polls)
    {
      playbackCache, playbackCacheTimer := None, false;
    }

    /** updateState(force): the device's entry in the app's device list and,
        for an active device only, the playback state decide what the speaker
        shows. */
    method UpdateState(force: bool, w: World)
      requires Valid()
      modifies this`shown, this`log, this`playbackCache, this`playbackCacheTimer
      ensures Valid()
      ensures var u := StateUpdate(old(shown), softMuted, old(playbackCache), force, w, id);
        shown == u.shown && playbackCache == u.cache && log == old(log) + u.effects
      ensures softMuted == old(softMuted) && unmuteVolume == old(unmuteVolume)
      ensures queued == old(queued) && replies == old(replies)
      ensures isSpeakerActive == old(isSpeakerActive) && polls == old(polls)
    {
      var d := GetState(w.devices, id);
      var p := w.playback;
      if d.Ok? && d.value.isActive {
        p := GetPlaybackState(force, w);
      }
      shown := Refresh(shown, softMuted, d, p);
    }

    /** updateSpeakerState(force): after updateState, Homey's speaker is told
        it is inactive unless this device is active and is the one playing,
        and otherwise where playback stands. */
    method UpdateSpeakerState(force: bool, w: World)
      requires Valid()
      modifies this`shown, this`log, this`playbackCache, this`playbackCacheTimer
      ensures Valid()
      ensures var u := StateUpdate(old(shown), softMuted, old(playbackCache), force, w, id);
        shown == u.shown && playbackCache == u.cache && log == old(log) + u.effects + [SpeakerReport(u.shown, id)]
      ensures softMuted == old(softMuted) && unmuteVolume == old(unmuteVolume)
      ensures queued == old(queued) && replies == old(replies)
      ensures isSpeakerActive == old(isSpeakerActive) && polls == old(polls)
    {
      UpdateState(force, w);
      if !(shown.isActive && shown.playbackState.Some? && shown.playbackState.value.deviceId == id) {
        log := log + [SpeakerInactive];
      } else {
        log := log + [SpeakerPosition(shown.progressMs)];
      }
    }

    /** startPlayback(uri, offset, pauseAfterLoad). */
    method StartPlayback(uri: Option<string>, offset: Option<real>, pauseAfterLoad: bool, w: World) returns (r: Result<(), Error>)
      requires Valid()
      modifies this`log
      ensures Valid()
      ensures var out := Start(w, id, uri, offset, pauseAfterLoad);
        log == old(log) + out.0 && r == out.1
      ensures shown == old(shown) && playbackCache == old(playbackCache)
      ensures softMuted == old(softMuted) && unmuteVolume == old(unmuteVolume)
      ensures queued == old(queued) && replies == old(replies)
      ensures isSpeakerActive == old(isSpeakerActive) && polls == old(polls)
    {
      var out := Start(w, id, uri, offset, pauseAfterLoad);
      log := log + out.0;
      r := out.1;
    }

    /** The track's playback, started now or when its delay ran out: on
        success Homey's speaker is told the track and position, the speaker
        state is brought up to date, and the callback gets the track;
        otherwise the callback gets the error. */
    method PlayTrack(callback: nat, request: TrackRequest, w: World)
      requires Valid() && callback !in Callbacks(replies) && queued.None?
      modifies this`shown, this`log, this`playbackCache, this`playbackCacheTimer, this`replies
      ensures Valid()
      ensures var out := StartTrack(w, id, request);
        out.1.Err? ==>
          && replies == old(replies) + [Reply(callback, Err(out.1.error))]
          && log == old(log) + out.0 && shown == old(shown) && playbackCache == old(playbackCache)
      ensures var out, s := StartTrack(w, id, request), TrackShown(w, id, request, old(shown), softMuted, old(playbackCache));
        out.1.Ok? ==>
          && replies == old(replies) + [Reply(callback, Ok(request.track))]
          && log == old(log) + out.0 + s.effects && shown == s.shown && playbackCache == s.cache
      ensures queued.None? && Callbacks(replies) == old(Callbacks(replies)) + {callback}
      ensures softMuted == old(softMuted) && unmuteVolume == old(unmuteVolume)
      ensures isSpeakerActive == old(isSpeakerActive) && polls == old(polls)
    {
      var r := StartPlayback(Some(TrackUri(request.track)), Some(request.position), !request.startPlaying, w);
      if r.Err? {
        Answer(callback, Err(r.error));
        return;
      }
      ShowTrack(callback, request, w);
    }

    /** A track that started playing: Homey's speaker is told the track and
        its position, the speaker state is brought up to date with force, and
        the callback gets the track. */
    method ShowTrack(callback: nat, request: TrackRequest, w: World)
      requires Valid() && callback !in Callbacks(replies) && queued.None?
      modifies this`shown, this`log, this`playbackCache, this`playbackCacheTimer, this`replies
      ensures Valid()
      ensures var s := TrackShown(w, id, request, old(shown), softMuted, old(playbackCache));
        && shown == s.shown && playbackCache == s.cache && log == old(log) + s.effects
        && replies == old(replies) + [Reply(callback, Ok(request.track))]
      ensures Callbacks(replies) == old(Callbacks(replies)) + {callback}
    {
      log := log + [SpeakerTrack(request.position, request.track)];
      UpdateSpeakerState(true, w);
      Answer(callback, Ok(request.track));
    }

    /** A setTrack callback not answered before is called. */
    method Answer(callback: nat, result: Result<TrackData, Error>)
      requires Valid() && callback !in Callbacks(replies)
      requires queued.Some? ==> queued.value.callback != callback
      modifies this`replies
      ensures Valid()
      ensures replies == old(replies) + [Reply(callback, result)]
      ensures Callbacks(replies) == old(Callbacks(replies)) + {callback}
      ensures shown == old(shown) && log == old(log) && queued == old(queued)
      ensures playbackCache == old(playbackCache) && softMuted == old(softMuted) && unmuteVolume == old(unmuteVolume)
      ensures isSpeakerActive == old(isSpeakerActive) && polls == old(polls)
    {
      ghost var front := replies;
      replies := replies + [Reply(callback, result)];
      assert replies[..|replies| - 1] == front;
    }

    /** Homey's setTrack, with a callback not seen before: a request still
        waiting in the slot is answered 'setTrack debounced' and its timer
        cancelled; a request with a delay then takes the slot, one without
        starts at once. */
    method SetTrack(callback: nat, request: TrackRequest, w: World)
      requires Valid() && callback !in Issued()
      modifies this`queued, this`shown, this`log, this`playbackCache, this`playbackCacheTimer, this`replies
      ensures Valid()
      ensures Issued() == old(Issued()) + {callback}
      ensures request.delay != 0 ==>
        && replies == old(replies) + Debounce(old(queued)) && log == old(log)
        && shown == old(shown) && playbackCache == old(playbackCache)
      ensures var out := StartTrack(w, id, request);
        request.delay == 0 && out.1.Err? ==>
          && replies == old(replies) + Debounce(old(queued)) + [Reply(callback, Err(out.1.error))]
          && log == old(log) + out.0 && shown == old(shown) && playbackCache == old(playbackCache)
      ensures var out, s := StartTrack(w, id, request), TrackShown(w, id, request, old(shown), softMuted, old(playbackCache));
        request.delay == 0 && out.1.Ok? ==>
          && replies == old(replies) + Debounce(old(queued)) + [Reply(callback, Ok(request.track))]
          && log == old(log) + out.0 + s.effects && shown == s.shown && playbackCache == s.cache
      ensures request.delay != 0 ==> queued == Some(Pending(callback, request))
      ensures request.delay == 0 ==> queued.None?
      ensures softMuted == old(softMuted) && unmuteVolume == old(unmuteVolume)
      ensures isSpeakerActive == old(isSpeakerActive) && polls == old(polls)
    {
      if queued.Some? {
        var pending := queued.value;
        queued := None;
        Answer(pending.callback, Err(Debounced));
      }
      assert replies == old(replies) + Debounce(old(queued)) && log == old(log);
      if request.delay != 0 {
        queued := Some(Pending(callback, request));
      } else {
        PlayTrack(callback, request, w);
      }
    }

    /** The queued request's timer fires: the slot is cleared and the track
        played; the waiting callback is the one answered. */
    method FireQueuedTimeout(w: World)
      requires Valid() && queued.Some?
      modifies this`queued, this`shown, this`log, this`playbackCache, this`playbackCacheTimer, this`replies
      ensures Valid()
      ensures queued.None? && Issued() == old(Issued())
      ensures var q, out := old(queued).value, StartTrack(w, id, old(queued).value.request);
        out.1.Err? ==>
          && replies == old(replies) + [Reply(q.callback, Err(out.1.error))]
          && log == old(log) + out.0 && shown == old(shown) && playbackCache == old(playbackCache)
      ensures var q := old(queued).value;
        var out, s := StartTrack(w, id, q.request), TrackShown(w, id, q.request, old(shown), softMuted, old(playbackCache));
        out.1.Ok? ==>
          && replies == old(replies) + [Reply(q.callback, Ok(q.request.track))]
          && log == old(log) + out.0 + s.effects && shown == s.shown && playbackCache == s.cache
      ensures softMuted == old(softMuted) && unmuteVolume == old(unmuteVolume)
      ensures isSpeakerActive == old(isSpeakerActive) && polls == old(polls)
    {
      var pending := queued.value;
      queued := None;
      PlayTrack(pending.callback, pending.request, w);
    }

    /** Homey's setActive(true): the speaker is marked active and playback
        transferred here without playing; once that succeeds, polling starts. */
    method Activate(w: World) returns (r: Result<bool, Error>)
      requires Valid()
      modifies this`isSpeakerActive, this`log, this`polls
      ensures Valid()
      ensures isSpeakerActive
      ensures Transfer(false) in w.failing ==>
        r == Err(Upstream(w.failing[Transfer(false)])) && polls == old(polls)
      ensures Transfer(false) !in w.failing ==> r == Ok(true) && polls == Arm(old(polls))
      ensures log == old(log) + [Api(Transfer(false))]
      ensures shown == old(shown) && queued == old(queued) && replies == old(replies)
      ensures softMuted == old(softMuted) && unmuteVolume == old(unmuteVolume)
    {
      isSpeakerActive := true;
      var out := Run([Api(Transfer(false))], w.failing);
      log := log + out.0;
      if out.1.Err? {
        return Err(out.1.error);
      }
      polls := Arm(polls);
      r := Ok(true);
    }

    /** Homey's setActive(false): the speaker is marked inactive and the poll
        the device refers to is cancelled. */
    method Deactivate() returns (r: Result<bool, Error>)
      requires Valid()
      modifies this`isSpeakerActive, this`polls
      ensures Valid()
      ensures !isSpeakerActive && r == Ok(false)
      ensures polls == old(polls).(stored := false)
      ensures log == old(log) && shown == old(shown) && queued == old(queued) && replies == old(replies)
      ensures softMuted == old(softMuted) && unmuteVolume == old(unmuteVolume)
    {
      isSpeakerActive := false;
      polls := polls.(stored := false);
      r := Ok(false);
    }

    /** A poll fires (the referred one or an older chain): the speaker state is
        updated, and the poll re-arms only while the speaker is active. */
    method FirePoll(referred: bool, w: World)
      requires Valid()
      requires referred ==> polls.stored
      requires !referred ==> polls.stray > 0
      modifies this`polls, this`shown, this`log, this`playbackCache, this`playbackCacheTimer
      ensures Valid()
      ensures isSpeakerActive == old(isSpeakerActive)
      ensures isSpeakerActive ==> ArmedPolls(polls) == ArmedPolls(old(polls)) && polls.stored
      ensures !isSpeakerActive ==> ArmedPolls(polls) == ArmedPolls(old(polls)) - 1
      ensures var u := StateUpdate(old(shown), softMuted, old(playbackCache), false, w, id);
        shown == u.shown && playbackCache == u.cache && log == old(log) + u.effects + [SpeakerReport(u.shown, id)]
      ensures queued == old(queued) && replies == old(replies)
    {
      polls := if referred then polls.(stored := false) else polls.(stray := polls.stray - 1);
      UpdateSpeakerState(false, w);
      if isSpeakerActive {
        polls := Arm(polls);
      }
    }

    /** setPlaybackVolume(v): the volume as a percentage. */
    method SetPlaybackVolume(v: real, w: World) returns (r: Result<(), Error>)
      requires Valid()
      modifies this`log
      ensures Valid()
      ensures log == old(log) + [Api(SetVolume(VolumePercent(v)))]
      ensures r.Ok? <==> SetVolume(VolumePercent(v)) !in w.failing
      ensures r.Err? ==> r.error == Upstream(w.failing[SetVolume(VolumePercent(v))])
      ensures shown == old(shown) && queued == old(queued) && replies == old(replies)
      ensures softMuted == old(softMuted) && unmuteVolume == old(unmuteVolume)
      ensures isSpeakerActive == old(isSpeakerActive) && polls == old(polls) && playbackCache == old(playbackCache)
    {
      var out := Run([Api(SetVolume(VolumePercent(v)))], w.failing);
      log := log + out.0;
      r := out.1;
    }

    /** setVolumeMute(state). Muting stores the device's current volume and
        sets 0; unmuting restores the stored volume, or 50 if it is falsy. */
    method SetVolumeMute(state: bool, w: World) returns (r: Result<(), Error>)
      requires Valid()
      modifies this`softMuted, this`unmuteVolume, this`log
      ensures Valid()
      ensures softMuted == state
      ensures !state ==> unmuteVolume == old(unmuteVolume) && log == old(log) + [Api(SetVolume(VolumePercent(UnmuteTarget(old(unmuteVolume)))))]
      ensures state && GetState(w.devices, id).Err? ==>
        r == Err(GetState(w.devices, id).error) && unmuteVolume == old(unmuteVolume) && log == old(log)
      ensures !state ==> (r.Ok? <==> SetVolume(VolumePercent(UnmuteTarget(old(unmuteVolume)))) !in w.failing)
      ensures state && GetState(w.devices, id).Ok? ==>
        && unmuteVolume == Some(GetState(w.devices, id).value.volumePercent) && log == old(log) + [Api(SetVolume(0))]
        && (r.Ok? <==> SetVolume(0) !in w.failing)
      ensures shown == old(shown) && queued == old(queued) && replies == old(replies)
      ensures isSpeakerActive == old(isSpeakerActive) && polls == old(polls)
    {
      if !state {
        softMuted := false;
        r := SetPlaybackVolume(UnmuteTarget(unmuteVolume), w);
        return;
      }
      softMuted := true;
      var d := GetState(w.devices, id);
      if d.Err? {
        return Err(d.error);
      }
      unmuteVolume := Some(d.value.volumePercent);
      RoundInt(0);
      r := SetPlaybackVolume(0.0, w);
    }

    /** seekPlayback(position), answering Homey's setPosition with the position. */
    method SetPosition(position: real, w: World) returns (r: Result<real, Error>)
      requires Valid()
      modifies this`log
      ensures Valid()
      ensures log == old(log) + [Api(Seek(Round(position)))]
      ensures r.Ok? <==> Seek(Round(position)) !in w.failing
      ensures r.Ok? ==> r.value == position
      ensures shown == old(shown) && queued == old(queued) && replies == old(replies)
      ensures softMuted == old(softMuted) && unmuteVolume == old(unmuteVolume)
      ensures isSpeakerActive == old(isSpeakerActive) && polls == old(polls)
    {
      var out := Run([Api(Seek(Round(position)))], w.failing);
      log := log + out.0;
      if out.1.Err? {
        return Err(out.1.error);
      }
      r := Ok(position);
    }

    /** skipPlaybackNext / skipPlaybackPrevious: after a successful skip on a
        device that is not active, the app refreshes every device's state. */
    method Skip(next: bool, w: World) returns (r: Result<(), Error>)
      requires Valid()
      modifies this`log
      ensures Valid()
      ensures var req := if next then SkipNext else SkipPrevious;
        && (r.Ok? <==> req !in w.failing)
        && log == old(log) + [Api(req)] + (if r.Ok? && !shown.isActive then [AppStateUpdate] else [])
      ensures shown == old(shown) && queued == old(queued) && replies == old(replies)
      ensures softMuted == old(softMuted) && unmuteVolume == old(unmuteVolume)
      ensures isSpeakerActive == old(isSpeakerActive) && polls == old(polls)
    {
      var req := if next then SkipNext else SkipPrevious;
      var out := Run([Api(req)], w.failing);
      log := log + out.0;
      r := out.1;
      if r.Ok? && !shown.isActive {
        log := log + [AppStateUpdate];
      }
    }

    /** pausePlayback. */
    method PausePlayback(w: World) returns (r: Result<(), Error>)
      requires Valid()
      modifies this`log
      ensures Valid()
      ensures log == old(log) + [Api(Pause)]
      ensures r.Ok? <==> Pause !in w.failing
      ensures shown == old(shown) && queued == old(queued) && replies == old(replies)
      ensures softMuted == old(softMuted) && unmuteVolume == old(unmuteVolume)
      ensures isSpeakerActive == old(isSpeakerActive) && polls == old(polls)
    {
      var out := Run([Api(Pause)], w.failing);
      log := log + out.0;
      r := out.1;
    }

    /** setPlayback(state): play (startPlayback without a track, offset or
        pause) or pause. */
    method SetPlayback(state: bool, w: World) returns (r: Result<(), Error>)
      requires Valid()
      modifies this`log
      ensures Valid()
      ensures state ==> var out := Start(w, id, None, None, false); log == old(log) + out.0 && r == out.1
      ensures !state ==> log == old(log) + [Api(Pause)] && (r.Ok? <==> Pause !in w.failing)
      ensures shown == old(shown) && queued == old(queued) && replies == old(replies)
      ensures softMuted == old(softMuted) && unmuteVolume == old(unmuteVolume)
      ensures isSpeakerActive == old(isSpeakerActive) && polls == old(polls)
    {
      if state {
        r := StartPlayback(None, None, false, w);
      } else {
        r := PausePlayback(w);
      }
    }
  }
}
