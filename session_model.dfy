/**
 * The per-session state machine of VideoPlayerPlugin.VideoPlayer as a pure transition
 * function: a state and one input (a listener attach or detach, an engine callback, a
 * transport call, disposal) give the next state, the events sent to the listener, the
 * calls made on the engine, and whether the step dereferenced null.
 */
module SessionModel {
  import opened Wrappers
  import opened MediaSources
  import opened PlayerErrors
  import opened Transport
  import opened Events

  /** The playback states the engine reports (Player.STATE_IDLE, _BUFFERING, _READY, _ENDED). */
  datatype PlaybackState = StateIdle | StateBuffering | StateReady | StateEnded

  /** What the track selector's current mapped track info says about the video and audio renderers. */
  datatype TrackSupport = TrackSupport(videoUnsupported: bool, audioUnsupported: bool)

  /** The engine callbacks the session handles; the no-op callbacks are not listed. */
  datatype EngineCallback =
    | PlayerStateChanged(playWhenReady: bool, playbackState: PlaybackState)
    | LoadingChanged(isLoading: bool)
    | VideoSizeChanged(width: int, height: int)
    | TracksChanged(trackGroups: int, mappedTrackInfo: Option<TrackSupport>)  // trackGroups: the array's identity
    | PlayerError(error: PlaybackFailure)

  /** The transport calls that reach the engine. */
  datatype TransportOp = Play | Pause | SetLooping(looping: bool) | SetVolume(volume: real) | SeekTo(location: int)

  /** Everything that drives a session. `sink` identifies the listener attached by onListen. */
  datatype Input =
    | Listen(sink: int)
    | Cancel
    | Callback(callback: EngineCallback)
    | Control(op: TransportOp)
    | Dispose

  /** What the engine reports when asked during a step: getDuration() and getBufferedPosition(). */
  datatype Probe = Probe(duration: int, bufferedPosition: int)

  /** The calls the session makes on the engine. */
  datatype EngineCall =
    | NewInstance                    // ExoPlayerFactory.newSimpleInstance and the listener registrations
    | SetRepeatMode(mode: RepeatMode)
    | Prepare(source: MediaSource)   // prepare(source, false, false)
    | SetVideoSurface
    | SetPlayWhenReady(playWhenReady: bool)
    | SetEngineVolume(volume: real)
    | EngineSeekTo(position: int)
    | Release

  /** A step ends normally or with a NullPointerException. */
  datatype Outcome = Normal | NullDereference

  /**
   * The session's fields. `hasPlayer` is `player != null`; `source` is the media source
   * built from the session's URI, which every (re-)preparation uses.
   */
  datatype SessionState = SessionState(
    isInitialized: bool,
    eventSink: Option<int>,
    width: int,
    height: int,
    lastSeenTrackGroupArray: Option<int>,
    hasPlayer: bool,
    source: MediaSource)

  datatype StepResult = StepResult(next: SessionState, events: seq<Event>, calls: seq<EngineCall>, outcome: Outcome)

  /** The fields of a session just built, before initializePlayer runs. */
  function Unprepared(source: MediaSource): SessionState
  {
    SessionState(false, None, 0, 0, None, false, source)
  }

  function Quiet(s: SessionState): StepResult
  {
    StepResult(s, [], [], Normal)
  }

  /** sendInitialized: an initialized event, sent only when initialized and a listener is attached. */
  function SendInitialized(s: SessionState, p: Probe): seq<Event>
  {
    if s.isInitialized && s.eventSink.Some? then [Initialized(p.duration, s.width, s.height)] else []
  }

  /** bufferingUpdate: the single-range event, sent only when a listener is attached. */
  function SendBufferingUpdate(s: SessionState, p: Probe): seq<Event>
  {
    if s.eventSink.Some? then [BufferingEvent(p.bufferedPosition)] else []
  }

  function SendError(s: SessionState, message: Option<ErrorMessage>): seq<Event>
  {
    if s.eventSink.Some? then [VideoError(message)] else []
  }

  /**
   * initializePlayer: builds an engine only when there is none (forgetting the last seen
   * track groups), then prepares the source and attaches the surface.
   */
  function InitializePlayer(s: SessionState): (SessionState, seq<EngineCall>)
  {
    var (s', built) :=
      if s.hasPlayer then (s, [])
      else (s.(hasPlayer := true, lastSeenTrackGroupArray := None), [NewInstance, SetRepeatMode(RepeatAll)]);
    (s', built + [Prepare(s.source), SetVideoSurface])
  }

  /** The errors onTracksChanged reports for a new track-group array. */
  function TrackErrors(s: SessionState, info: Option<TrackSupport>): seq<Event>
  {
    match info
    case None => []
    case Some(t) =>
      (if t.videoUnsupported then SendError(s, Some(UnsupportedVideoTrack)) else [])
      + (if t.audioUnsupported then SendError(s, Some(UnsupportedAudioTrack)) else [])
  }

  /** The engine callbacks of a live session. */
  function OnCallback(s: SessionState, cb: EngineCallback, p: Probe): StepResult
  {
    match cb
    case PlayerStateChanged(_, StateReady) =>
      if !s.isInitialized then
        var s' := s.(isInitialized := true);
        StepResult(s', SendInitialized(s', p), [], Normal)
      else
        StepResult(s, SendBufferingUpdate(s, p), [], Normal)
    case PlayerStateChanged(_, StateEnded) =>
      if s.eventSink.Some? then StepResult(s, [Completed], [], Normal)
      else StepResult(s, [], [], NullDereference)
    case PlayerStateChanged(_, StateBuffering) =>
      StepResult(s, SendBufferingUpdate(s, p), [], Normal)
    case PlayerStateChanged(_, StateIdle) =>
      Quiet(s)
    case LoadingChanged(_) =>
      StepResult(s, SendBufferingUpdate(s, p), [], Normal)
    case VideoSizeChanged(w, h) =>
      var s' := s.(width := w, height := h);
      StepResult(s', SendInitialized(s', p), [], Normal)
    case TracksChanged(groups, info) =>
      if s.lastSeenTrackGroupArray == Some(groups) then Quiet(s)
      else StepResult(s.(lastSeenTrackGroupArray := Some(groups)), TrackErrors(s, info), [], Normal)
    case PlayerError(e) =>
      var (s', calls) := if BehindLiveWindow(e) then InitializePlayer(s) else (s, []);
      StepResult(s', SendError(s', ErrorMessageFor(e)), calls, Normal)
  }

  /** The engine call a transport operation makes. */
  function EngineCallFor(op: TransportOp): EngineCall
  {
    match op
    case Play => SetPlayWhenReady(true)
    case Pause => SetPlayWhenReady(false)
    case SetLooping(b) => SetRepeatMode(RepeatModeFor(b))
    case SetVolume(v) => SetEngineVolume(ClampVolume(v))
    case SeekTo(l) => EngineSeekTo(l)
  }

  /**
   * One step of a session. Once disposed, the engine no longer calls back (release() drops
   * its listeners) and the event channel no longer has a stream handler, so those inputs
   * are dropped; a transport call then dereferences the null player.
   */
  function Step(s: SessionState, input: Input, p: Probe): (r: StepResult)
    ensures r.next.source == s.source
    ensures !s.hasPlayer ==> r.next == s && r.events == [] && r.calls == []
    ensures !s.hasPlayer ==> (r.outcome == NullDereference <==> input.Control?)
    ensures r.outcome == NullDereference ==> r.next == s && r.events == [] && r.calls == []
  {
    match input
    case Listen(sink) =>
      if !s.hasPlayer then Quiet(s)
      else
        var s' := s.(eventSink := Some(sink));
        StepResult(s', SendInitialized(s', p), [], Normal)
    case Cancel =>
      if !s.hasPlayer then Quiet(s) else Quiet(s.(eventSink := None))
    case Callback(cb) =>
      if !s.hasPlayer then Quiet(s) else OnCallback(s, cb, p)
    case Control(op) =>
      if !s.hasPlayer then StepResult(s, [], [], NullDereference)
      else StepResult(s, [], [EngineCallFor(op)], Normal)
    case Dispose =>
      if s.hasPlayer then StepResult(s.(hasPlayer := false), [], [Release], Normal) else Quiet(s)
  }

  /** An input together with what the engine reports while it is handled. */
  datatype Tick = Tick(input: Input, probe: Probe)

  /** The state a run ends in, what it sent and called, and whether it ended in an uncaught NullPointerException. */
  datatype RunResult = RunResult(final: SessionState, events: seq<Event>, calls: seq<EngineCall>, crashed: bool)

  /** A sequence of steps, serialised in delivery order; a null dereference is uncaught and ends the run. */
  function Run(s: SessionState, ticks: seq<Tick>): RunResult
    decreases |ticks|
  {
    if ticks == [] then RunResult(s, [], [], false)
    else
      var r := Step(s, ticks[0].input, ticks[0].probe);
      if r.outcome == NullDereference then RunResult(r.next, r.events, r.calls, true)
      else
        var rest := Run(r.next, ticks[1..]);
        RunResult(rest.final, r.events + rest.events, r.calls + rest.calls, rest.crashed)
  }

  // ---------------------------------------------------------------------------------------
  // Creation

  /** The constructor's initializePlayer builds the engine, loops by default, and prepares the source once. */
  lemma CreationPrepares(source: MediaSource)
    ensures var (s, calls) := InitializePlayer(Unprepared(source));
            && s == Unprepared(source).(hasPlayer := true)
            && calls == [NewInstance, SetRepeatMode(RepeatAll), Prepare(source), SetVideoSurface]
            && Loops(calls[1].mode)
  {
  }

  // ---------------------------------------------------------------------------------------
  // Initialisation

  /** The first READY of a live session sets isInitialized and sends one initialized event, if a listener is attached. */
  lemma FirstReadyInitializes(s: SessionState, playWhenReady: bool, p: Probe)
    requires s.hasPlayer && !s.isInitialized
    ensures var r := Step(s, Callback(PlayerStateChanged(playWhenReady, StateReady)), p);
            && r.next == s.(isInitialized := true)
            && r.events == (if s.eventSink.Some? then [Initialized(p.duration, s.width, s.height)] else [])
            && r.calls == [] && r.outcome == Normal
  {
  }

  /** Only a READY delivered to a live session turns isInitialized on, and no step turns it off. */
  lemma InitializedOnlyByReady(s: SessionState, input: Input, p: Probe)
    ensures s.isInitialized ==> Step(s, input, p).next.isInitialized
    ensures !s.isInitialized && Step(s, input, p).next.isInitialized ==>
              s.hasPlayer && input.Callback? && input.callback.PlayerStateChanged? &&
              input.callback.playbackState == StateReady
  {
  }

  /**
   * Every initialized event a step sends is sent in an initialized state with a listener
   * attached, and carries the duration then reported and the latest width and height.
   */
  lemma InitializedEventsAreCurrent(s: SessionState, input: Input, p: Probe)
    ensures var r := Step(s, input, p);
            forall k :: 0 <= k < |r.events| && r.events[k].Initialized? ==>
              && r.next.isInitialized && r.next.eventSink.Some?
              && r.events[k] == Initialized(p.duration, r.next.width, r.next.height)
  {
  }

  /** Over any run, an initialized session stays initialized. */
  lemma {:induction false} RunKeepsInitialized(s: SessionState, ticks: seq<Tick>)
    requires s.isInitialized
    ensures Run(s, ticks).final.isInitialized
    decreases |ticks|
  {
    if ticks != [] {
      InitializedOnlyByReady(s, ticks[0].input, ticks[0].probe);
      RunKeepsInitialized(Step(s, ticks[0].input, ticks[0].probe).next, ticks[1..]);
    }
  }

  /** A video-size change always records the new size; once initialized it re-sends initialized with it. */
  lemma VideoSizeRecorded(s: SessionState, w: int, h: int, p: Probe)
    requires s.hasPlayer
    ensures var r := Step(s, Callback(VideoSizeChanged(w, h)), p);
            && r.next == s.(width := w, height := h)
            && r.events == (if s.isInitialized && s.eventSink.Some? then [Initialized(p.duration, w, h)] else [])
  {
  }

  // ---------------------------------------------------------------------------------------
  // Buffering updates

  /**
   * Loading changed, BUFFERING, and READY once initialized each send exactly one
   * bufferingUpdate when a listener is attached and nothing otherwise, and change no field.
   */
  lemma BufferingUpdateOnce(s: SessionState, cb: EngineCallback, p: Probe)
    requires s.hasPlayer
    requires || cb.LoadingChanged?
             || (cb.PlayerStateChanged? && cb.playbackState == StateBuffering)
             || (cb.PlayerStateChanged? && cb.playbackState == StateReady && s.isInitialized)
    ensures var r := Step(s, Callback(cb), p);
            && r.next == s && r.calls == [] && r.outcome == Normal
            && r.events == (if s.eventSink.Some? then [BufferingEvent(p.bufferedPosition)] else [])
  {
  }

  lemma StepAnchored(s: SessionState, input: Input, p: Probe)
    ensures var r := Step(s, input, p);
            forall k :: 0 <= k < |r.events| ==> AnchoredAtZero(r.events[k])
  {
    var r := Step(s, input, p);
    if input.Callback? && s.hasPlayer && input.callback.TracksChanged? {
      assert forall k :: 0 <= k < |r.events| ==> r.events[k].VideoError?;
    }
  }

  /** In any run, every bufferingUpdate event holds a single range whose first element is 0. */
  lemma {:induction false} RunAnchored(s: SessionState, ticks: seq<Tick>)
    ensures forall k :: 0 <= k < |Run(s, ticks).events| ==> AnchoredAtZero(Run(s, ticks).events[k])
    decreases |ticks|
  {
    if ticks != [] {
      var r := Step(s, ticks[0].input, ticks[0].probe);
      StepAnchored(s, ticks[0].input, ticks[0].probe);
      RunAnchored(r.next, ticks[1..]);
      var rest := if r.outcome == NullDereference then RunResult(r.next, [], [], true) else Run(r.next, ticks[1..]);
      var events := r.events + rest.events;
      assert Run(s, ticks).events == events;
      forall k | 0 <= k < |events|
        ensures AnchoredAtZero(events[k])
      {
        if k < |r.events| {
          assert events[k] == r.events[k];
          assert AnchoredAtZero(r.events[k]);
        } else {
          assert events[k] == rest.events[k - |r.events|];
          assert AnchoredAtZero(rest.events[k - |r.events|]);
        }
      }
    }
  }

  // ---------------------------------------------------------------------------------------
  // Listener attach and detach

  /** onListen stores the sink and re-sends initialized at once if the session is already initialized. */
  lemma ListenResends(s: SessionState, sink: int, p: Probe)
    requires s.hasPlayer
    ensures var r := Step(s, Listen(sink), p);
            && r.next == s.(eventSink := Some(sink))
            && r.events == (if s.isInitialized then [Initialized(p.duration, s.width, s.height)] else [])
  {
  }

  /** Without a listener, no step other than a listen sends anything. */
  lemma NoListenerNoEvents(s: SessionState, input: Input, p: Probe)
    requires s.eventSink.None? && !input.Listen?
    ensures Step(s, input, p).events == [] && Step(s, input, p).next.eventSink.None?
  {
  }

  /** A run without a listen, started without a listener, sends nothing and ends without a listener. */
  lemma {:induction false} SilentWithoutListener(s: SessionState, ticks: seq<Tick>)
    requires s.eventSink.None?
    requires forall k :: 0 <= k < |ticks| ==> !ticks[k].input.Listen?
    ensures Run(s, ticks).events == [] && Run(s, ticks).final.eventSink.None?
    decreases |ticks|
  {
    if ticks != [] {
      NoListenerNoEvents(s, ticks[0].input, ticks[0].probe);
      SilentWithoutListener(Step(s, ticks[0].input, ticks[0].probe).next, ticks[1..]);
    }
  }

  /** After onCancel no event at all is sent until the next listen. */
  lemma CancelSilences(s: SessionState, p: Probe, ticks: seq<Tick>)
    requires s.hasPlayer
    requires forall k :: 0 <= k < |ticks| ==> !ticks[k].input.Listen?
    ensures Step(s, Cancel, p).next == s.(eventSink := None)
    ensures Run(Step(s, Cancel, p).next, ticks).events == []
  {
    SilentWithoutListener(Step(s, Cancel, p).next, ticks);
  }

  // ---------------------------------------------------------------------------------------
  // End of stream, tracks and errors

  /** STATE_ENDED sends completed to an attached listener, and dereferences null without one. */
  lemma EndedNeedsListener(s: SessionState, playWhenReady: bool, p: Probe)
    requires s.hasPlayer
    ensures var r := Step(s, Callback(PlayerStateChanged(playWhenReady, StateEnded)), p);
            && r.next == s && r.calls == []
            && (s.eventSink.Some? ==> r.events == [Completed] && r.outcome == Normal)
            && (s.eventSink.None? ==> r.events == [] && r.outcome == NullDereference)
  {
  }

  /** A step dereferences null exactly when ENDED arrives with no listener, or a transport call reaches a disposed session. */
  lemma NullDereferenceCases(s: SessionState, input: Input, p: Probe)
    ensures Step(s, input, p).outcome == NullDereference <==>
              || (s.hasPlayer && s.eventSink.None? && input.Callback? &&
                  input.callback.PlayerStateChanged? && input.callback.playbackState == StateEnded)
              || (!s.hasPlayer && input.Control?)
  {
  }

  /** The same track-group array reported twice in a row is examined once: the second report changes and sends nothing. */
  lemma TracksExaminedOnce(s: SessionState, groups: int, info: Option<TrackSupport>, p: Probe, q: Probe)
    requires s.hasPlayer
    ensures var r1 := Step(s, Callback(TracksChanged(groups, info)), p);
            && r1.next == s.(lastSeenTrackGroupArray := Some(groups))
            && Step(r1.next, Callback(TracksChanged(groups, info)), q) == Quiet(r1.next)
  {
  }

  /**
   * The first report of a new track-group array records it and calls nothing. To an
   * attached listener it sends "unsupported video" when the video renderer cannot play
   * the tracks, then "unsupported audio" when the audio renderer cannot, and nothing
   * when there is no mapped track information.
   */
  lemma NewTracksReported(s: SessionState, groups: int, info: Option<TrackSupport>, p: Probe)
    requires s.hasPlayer && s.lastSeenTrackGroupArray != Some(groups)
    ensures var r := Step(s, Callback(TracksChanged(groups, info)), p);
            && r.next == s.(lastSeenTrackGroupArray := Some(groups)) && r.calls == [] && r.outcome == Normal
            && (VideoError(Some(UnsupportedVideoTrack)) in r.events <==>
                  s.eventSink.Some? && info.Some? && info.value.videoUnsupported)
            && (VideoError(Some(UnsupportedAudioTrack)) in r.events <==>
                  s.eventSink.Some? && info.Some? && info.value.audioUnsupported)
            && |r.events| <= 2
            && (|r.events| == 2 ==> r.events == [VideoError(Some(UnsupportedVideoTrack)), VideoError(Some(UnsupportedAudioTrack))])
            && (forall k :: 0 <= k < |r.events| ==> r.events[k].VideoError?)
            && (info.None? ==> r.events == [])
  {
  }

  /** No input but dispose takes a session's engine away, and none gives a disposed session one back. */
  lemma OnlyDisposeReleases(s: SessionState, input: Input, p: Probe)
    ensures Step(s, input, p).next.hasPlayer <==> s.hasPlayer && !input.Dispose?
  {
  }

  /**
   * A behind-live-window failure re-prepares the existing engine (no new instance, the
   * fields unchanged) and still sends the error event, without a message, to a listener.
   */
  lemma BehindLiveWindowRecovers(s: SessionState, e: PlaybackFailure, p: Probe)
    requires s.hasPlayer && BehindLiveWindow(e)
    ensures var r := Step(s, Callback(PlayerError(e)), p);
            && r.next == s
            && r.calls == [Prepare(s.source), SetVideoSurface]
            && r.events == (if s.eventSink.Some? then [VideoError(None)] else [])
  {
    RecoverableHasNoMessage(e);
  }

  /** Any other failure touches neither the fields nor the engine, and reports its classified message. */
  lemma OtherFailuresReported(s: SessionState, e: PlaybackFailure, p: Probe)
    requires s.hasPlayer && !BehindLiveWindow(e)
    ensures var r := Step(s, Callback(PlayerError(e)), p);
            && r.next == s && r.calls == []
            && r.events == (if s.eventSink.Some? then [VideoError(ErrorMessageFor(e))] else [])
  {
  }

  // ---------------------------------------------------------------------------------------
  // Transport and disposal

  /** A transport call on a live session sends no event, changes no field, and makes one engine call. */
  lemma TransportOnlyCallsEngine(s: SessionState, op: TransportOp, p: Probe)
    requires s.hasPlayer
    ensures var r := Step(s, Control(op), p);
            && r.next == s && r.events == [] && |r.calls| == 1
            && (op.SetVolume? ==> r.calls[0].SetEngineVolume? && 0.0 <= r.calls[0].volume <= 1.0)
            && (op.SetLooping? ==> r.calls[0].SetRepeatMode? && Loops(r.calls[0].mode) == op.looping)
  {
  }

  /**
   * Disposal releases a live engine once. A disposed session is left as it is by every later
   * input, sends and calls nothing, and the run ends in a NullPointerException exactly when
   * a transport call reaches it.
   */
  lemma {:induction false} DisposedIsInert(s: SessionState, p: Probe, ticks: seq<Tick>)
    requires s.hasPlayer
    ensures Step(s, Dispose, p) == StepResult(s.(hasPlayer := false), [], [Release], Normal)
    ensures && Run(s.(hasPlayer := false), ticks).final == s.(hasPlayer := false)
            && Run(s.(hasPlayer := false), ticks).events == []
            && Run(s.(hasPlayer := false), ticks).calls == []
    ensures Run(s.(hasPlayer := false), ticks).crashed <==> exists k :: 0 <= k < |ticks| && ticks[k].input.Control?
    decreases |ticks|
  {
    if ticks != [] && !ticks[0].input.Control? {
      DisposedIsInert(s, p, ticks[1..]);
      if exists k :: 0 <= k < |ticks[1..]| && ticks[1..][k].input.Control? {
        var k :| 0 <= k < |ticks[1..]| && ticks[1..][k].input.Control?;
        assert ticks[k + 1].input.Control?;
      }
      if exists k :: 0 <= k < |ticks| && ticks[k].input.Control? {
        var k :| 0 <= k < |ticks| && ticks[k].input.Control?;
        assert ticks[1..][k - 1].input.Control?;
      }
    }
  }
}
