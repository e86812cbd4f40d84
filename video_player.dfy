/**
 * VideoPlayerPlugin.VideoPlayer: one playback session. Its fields are updated in place by
 * the listener callbacks, the engine callbacks and the transport calls; the events sent to
 * the listener and the calls made on the engine are kept as logs. Every callback is proved
 * to do exactly what SessionModel.Step says of it.
 */
module Sessions {
  import opened Wrappers
  import opened MediaSources
  import opened PlayerErrors
  import opened Transport
  import opened Events
  import opened SessionModel

  class VideoPlayer {
    var isInitialized: bool
    var eventSink: Option<int>
    var width: int
    var height: int
    var lastSeenTrackGroupArray: Option<int>
    var hasPlayer: bool                    // player != null
    const dataSource: string
    const source: MediaSource              // buildMediaSource(dataSource, null)

    var events: seq<Event>                 // everything sent to the event sink, in order
    var engineCalls: seq<EngineCall>       // everything asked of the engine, in order

    /** The session's fields as a SessionModel state. */
    function State(): SessionState
      reads this
    {
      SessionState(isInitialized, eventSink, width, height, lastSeenTrackGroupArray, hasPlayer, source)
    }

    /** The session is now in `r.next`, and has sent `r.events` and made `r.calls` since the given logs. */
    ghost predicate Reflects(eventsBefore: seq<Event>, callsBefore: seq<EngineCall>, r: StepResult)
      reads this
    {
      State() == r.next && events == eventsBefore + r.events && engineCalls == callsBefore + r.calls
    }

    /** The constructor with setupVideoPlayer: installs the stream handler and runs initializePlayer. */
    constructor (dataSource: string, source: MediaSource)
      ensures this.dataSource == dataSource && this.source == source
      ensures State() == Unprepared(source).(hasPlayer := true)
      ensures events == []
      ensures engineCalls == [NewInstance, SetRepeatMode(RepeatAll), Prepare(source), SetVideoSurface]
    {
      this.dataSource := dataSource;
      this.source := source;
      isInitialized := false;
      eventSink := None;
      width, height := 0, 0;
      lastSeenTrackGroupArray := None;
      hasPlayer := false;
      events, engineCalls := [], [];
      new;
      InitializePlayer();
    }

    /** initializePlayer: a new engine only when there is none; then prepare and attach the surface. */
    method InitializePlayer()
      modifies this
      ensures var (s, calls) := SessionModel.InitializePlayer(old(State()));
              Reflects(old(events), old(engineCalls), StepResult(s, [], calls, Normal))
    {
      if !hasPlayer {
        lastSeenTrackGroupArray := None;
        hasPlayer := true;
        engineCalls := engineCalls + [NewInstance, SetRepeatMode(RepeatAll)];
      }
      engineCalls := engineCalls + [Prepare(source), SetVideoSurface];
    }

    /** sendInitialized. */
    method SendInitialized(p: Probe)
      modifies this`events
      ensures events == old(events) + SessionModel.SendInitialized(State(), p)
    {
      if isInitialized && eventSink.Some? {
        events := events + [Initialized(p.duration, width, height)];
      }
    }

    /** bufferingUpdate. */
    method BufferingUpdate(p: Probe)
      modifies this`events
      ensures events == old(events) + SendBufferingUpdate(State(), p)
    {
      if eventSink.Some? {
        events := events + [BufferingEvent(p.bufferedPosition)];
      }
    }

    /** onListen of the stream handler. */
    method OnListen(sink: int, p: Probe)
      requires hasPlayer
      modifies this
      ensures Reflects(old(events), old(engineCalls), Step(old(State()), Listen(sink), p))
    {
      eventSink := Some(sink);
      SendInitialized(p);
    }

    /** onCancel of the stream handler. */
    method OnCancel()
      requires hasPlayer
      modifies this
      ensures eventSink == None && hasPlayer
      ensures Reflects(old(events), old(engineCalls), Step(old(State()), Cancel, Probe(0, 0)))
      ensures forall p: Probe :: Reflects(old(events), old(engineCalls), Step(old(State()), Cancel, p))
    {
      eventSink := None;
    }

    /** onPlayerStateChanged; STATE_ENDED without a sink is the NullPointerException of the source. */
    method OnPlayerStateChanged(playWhenReady: bool, playbackState: PlaybackState, p: Probe) returns (outcome: Outcome)
      requires hasPlayer
      modifies this
      ensures var r := Step(old(State()), Callback(PlayerStateChanged(playWhenReady, playbackState)), p);
              Reflects(old(events), old(engineCalls), r) && outcome == r.outcome
    {
      outcome := Normal;
      if playbackState == StateReady {
        if !isInitialized {
          isInitialized := true;
          SendInitialized(p);
        } else {
          BufferingUpdate(p);
        }
      } else if playbackState == StateEnded {
        if eventSink == None {
          return NullDereference;
        }
        events := events + [Completed];
      } else if playbackState == StateBuffering {
        BufferingUpdate(p);
      }
    }

    /** onLoadingChanged. */
    method OnLoadingChanged(isLoading: bool, p: Probe)
      requires hasPlayer
      modifies this
      ensures Reflects(old(events), old(engineCalls), Step(old(State()), Callback(LoadingChanged(isLoading)), p))
    {
      BufferingUpdate(p);
    }

    /** onVideoSizeChanged (the rotation and pixel ratio it also receives are not read). */
    method OnVideoSizeChanged(w: int, h: int, p: Probe)
      requires hasPlayer
      modifies this
      ensures width == w && height == h
      ensures Reflects(old(events), old(engineCalls), Step(old(State()), Callback(VideoSizeChanged(w, h)), p))
    {
      width := w;
      height := h;
      SendInitialized(p);
    }

    /** onTracksChanged; `trackGroups` is the identity of the reported array. */
    method OnTracksChanged(trackGroups: int, mappedTrackInfo: Option<TrackSupport>)
      requires hasPlayer
      modifies this
      ensures lastSeenTrackGroupArray == Some(trackGroups) && hasPlayer
      ensures Reflects(old(events), old(engineCalls),
                Step(old(State()), Callback(TracksChanged(trackGroups, mappedTrackInfo)), Probe(0, 0)))
      ensures forall p: Probe :: Reflects(old(events), old(engineCalls),
                Step(old(State()), Callback(TracksChanged(trackGroups, mappedTrackInfo)), p))
    {
      if lastSeenTrackGroupArray != Some(trackGroups) {
        if mappedTrackInfo.Some? {
          if mappedTrackInfo.value.videoUnsupported && eventSink.Some? {
            events := events + [VideoError(Some(UnsupportedVideoTrack))];
          }
          if mappedTrackInfo.value.audioUnsupported && eventSink.Some? {
            events := events + [VideoError(Some(UnsupportedAudioTrack))];
          }
        }
        lastSeenTrackGroupArray := Some(trackGroups);
      }
    }

    /** onPlayerError: classify, re-prepare when behind the live window, then report. */
    method OnPlayerError(error: PlaybackFailure)
      requires hasPlayer
      modifies this
      ensures hasPlayer
      ensures Reflects(old(events), old(engineCalls), Step(old(State()), Callback(PlayerError(error)), Probe(0, 0)))
      ensures forall p: Probe :: Reflects(old(events), old(engineCalls), Step(old(State()), Callback(PlayerError(error)), p))
    {
      var message := ErrorMessageFor(error);
      var behind := IsBehindLiveWindow(error);
      if behind {
        InitializePlayer();
      }
      if eventSink.Some? {
        events := events + [VideoError(message)];
      }
    }

    /** play. */
    method Play()
      requires hasPlayer
      modifies this
      ensures State() == old(State()) && events == old(events)
      ensures engineCalls == old(engineCalls) + [SetPlayWhenReady(true)]
      ensures forall p: Probe :: Reflects(old(events), old(engineCalls), Step(old(State()), Control(TransportOp.Play), p))
    {
      engineCalls := engineCalls + [SetPlayWhenReady(true)];
    }

    /** pause. */
    method Pause()
      requires hasPlayer
      modifies this
      ensures State() == old(State()) && events == old(events)
      ensures engineCalls == old(engineCalls) + [SetPlayWhenReady(false)]
      ensures forall p: Probe :: Reflects(old(events), old(engineCalls), Step(old(State()), Control(TransportOp.Pause), p))
    {
      engineCalls := engineCalls + [SetPlayWhenReady(false)];
    }

    /** setLooping. */
    method SetLooping(looping: bool)
      requires hasPlayer
      modifies this
      ensures State() == old(State()) && events == old(events)
      ensures engineCalls == old(engineCalls) + [SetRepeatMode(RepeatModeFor(looping))]
      ensures forall p: Probe :: Reflects(old(events), old(engineCalls), Step(old(State()), Control(TransportOp.SetLooping(looping)), p))
    {
      engineCalls := engineCalls + [SetRepeatMode(RepeatModeFor(looping))];
    }

    /** setVolume: the engine receives the clamped value. */
    method SetVolume(volume: real)
      requires hasPlayer
      modifies this
      ensures State() == old(State()) && events == old(events)
      ensures engineCalls == old(engineCalls) + [SetEngineVolume(ClampVolume(volume))]
      ensures forall p: Probe :: Reflects(old(events), old(engineCalls), Step(old(State()), Control(TransportOp.SetVolume(volume)), p))
    {
      engineCalls := engineCalls + [SetEngineVolume(ClampVolume(volume))];
    }

    /** seekTo. */
    method SeekTo(location: int)
      requires hasPlayer
      modifies this
      ensures State() == old(State()) && events == old(events)
      ensures engineCalls == old(engineCalls) + [EngineSeekTo(location)]
      ensures forall p: Probe :: Reflects(old(events), old(engineCalls), Step(old(State()), Control(TransportOp.SeekTo(location)), p))
    {
      engineCalls := engineCalls + [EngineSeekTo(location)];
    }

    /** getPosition: the engine's current position, as the engine reports it. */
    method GetPosition(currentPosition: int) returns (position: int)
      requires hasPlayer
      ensures position == currentPosition
    {
      position := currentPosition;
    }

    /** dispose: releases a live engine and forgets it; the listener field is left as it is. */
    method Dispose()
      modifies this
      ensures State() == old(State()).(hasPlayer := false) && events == old(events)
      ensures engineCalls == old(engineCalls) + (if old(hasPlayer) then [Release] else [])
      ensures forall p: Probe :: Reflects(old(events), old(engineCalls), Step(old(State()), SessionModel.Dispose, p))
    {
      if hasPlayer {
        engineCalls := engineCalls + [Release];
        hasPlayer := false;
      }
    }
  }
}
