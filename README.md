# Video player plugin: a Dafny model of its Android playback session

This project models the Android side of a Flutter video player plugin,
`VideoPlayerPlugin.java`, and proves properties of the model. The plugin keeps a
registry of playback sessions keyed by texture id. Each session (`VideoPlayer`)
owns an ExoPlayer engine. It turns the engine's callbacks into events for a
Flutter event-channel listener:

- `initialized`: duration, width and height;
- `bufferingUpdate`: a single buffered range;
- `completed`;
- `VideoError`: an optional message.

It also passes transport calls (play, pause, seek, volume, looping) on to the
engine.

The engine, the texture registry and the Flutter channels are opaque:

- The engine is seen through the calls the session makes on it, kept as an
  `EngineCall` log; through the values it reports during a step (a `Probe`:
  duration and buffered position); and through its callbacks, a closed
  `EngineCallback` datatype.
- The event sink is an optional listener id. The events sent to it are kept
  as an `Event` log.

Files and modules:

- `wrappers.dfy` (`Wrappers`): `Option` for Java null and `Result` for an
  operation that may throw.
- `media_source.dfy` (`MediaSources`): `buildMediaSource`. It picks the string
  the content type is inferred from, then maps HLS to an HLS source, OTHER to
  an extractor source, and any other type to the "Unsupported type" error. The
  engine's type inference is a function parameter.
- `player_errors.dfy` (`PlayerErrors`): the failure datatypes, the message
  `onPlayerError` attaches, and `isBehindLiveWindow` as a loop over the cause
  chain.
- `transport.dfy` (`Transport`): the `setVolume` clamp and the `setLooping`
  repeat mode.
- `events.dfy` (`Events`): the events, and the Java `(int)` narrowing applied to
  the buffered position.
- `session_model.dfy` (`SessionModel`): the session as a pure transition
  function.
  - `Step` takes a state and one input: listen, cancel, an engine callback, a
    transport call or dispose. It gives the next state, the events sent, the
    engine calls made, and whether the step dereferenced null.
  - `Run` chains steps in delivery order. A null dereference is an uncaught
    `NullPointerException` in the source, so it ends the run, and the result
    records that it did.
  - Three helper functions mirror Java methods: `SendInitialized` is
    `sendInitialized`, `SendBufferingUpdate` is `bufferingUpdate`, and
    `InitializePlayer` is `initializePlayer`.
  - The other helpers stand for parts of method bodies. `TrackErrors` is the
    body of `onTracksChanged`. `OnCallback` dispatches an engine callback to
    its listener method. `EngineCallFor` is the one engine call each
    transport method makes.
  - The lemmas in this module state what these functions do.
- `video_player.dfy` (`Sessions`): the class `VideoPlayer`. Its fields are
  updated in place, as in the source. Each callback method is proved to do
  exactly what `Step` says for that input (predicate `Reflects`).
- `sparse_keys.dfy` (`SparseKeys`): the sorted key array of the registry's
  `LongSparseArray`, kept by `put` and `remove`.
- `plugin.dfy` (`Plugin`, `PluginClients`): the class `VideoPlayerPlugin`.
  - It holds the registry: a map from texture id to session, plus the sparse
    array's key order.
  - It models both `onMethodCall` overloads.
  - `PluginClients` holds two client methods that draw consequences from the
    registry's contracts.

In five places the code does something other than what one might expect of a video player plugin. The model follows the code:

- A behind-live-window failure re-prepares the engine and still sends the
  error event to an attached listener. One might expect a recovered failure
  to stay silent.
- `initialized` is not sent only once. It is re-sent on every video-size change
  after initialization, and on every listen. The first READY sends it with
  whatever width and height are known at that moment (0 before any size
  callback). One might expect it to wait for the dimensions.
- STATE_ENDED with no listener attached dereferences the null sink. It is
  modelled as the `NullDereference` outcome, with the state unchanged. One
  might expect the event to be dropped.
- `dispose` does not clear the event sink. It removes the stream handler, so
  later listen and cancel calls no longer arrive.
- `init` sends no reply at all.

## Model

| member | source | states |
|---|---|---|
| `MediaSources.InferenceInput` | android/src/main/java/io/flutter/plugins/videoplayer/VideoPlayerPlugin.java:157-158 | a null or empty override infers from the URI itself; otherwise from "." followed by the extension |
| `MediaSources.BuildMediaSource` | android/src/main/java/io/flutter/plugins/videoplayer/VideoPlayerPlugin.java:156-165 | inferred HLS gives an HLS source for the URI, OTHER an extractor source, and any other type the unsupported-type error naming it (each an if-and-only-if) |
| `MediaSources.BuildKeepsUri` | android/src/main/java/io/flutter/plugins/videoplayer/VideoPlayerPlugin.java:159-163 | a built source always plays the URI it was built for |
| `MediaSources.NoOverrideInfersFromUri` | android/src/main/java/io/flutter/plugins/videoplayer/VideoPlayerPlugin.java:150-158 | an absent and an empty override decide alike; a URI inferred as DASH is refused |
| `PlayerErrors.ErrorMessageFor` | android/src/main/java/io/flutter/plugins/videoplayer/VideoPlayerPlugin.java:286-305 | a message exists iff the failure is a renderer failure caused by decoder initialisation; "cannot play" iff no decoder name and the cause is a decoder query; no name otherwise gives the MIME type; a name gives that name |
| `PlayerErrors.SecureFlagIrrelevant` | android/src/main/java/io/flutter/plugins/videoplayer/VideoPlayerPlugin.java:296-300 | the secure-decoder flag never changes the message |
| `PlayerErrors.IsBehindLiveWindow` | android/src/main/java/io/flutter/plugins/videoplayer/VideoPlayerPlugin.java:331-343 | true iff the failure is a source failure and some element of its cause chain is a behind-live-window exception |
| `PlayerErrors.RecoverableHasNoMessage` | android/src/main/java/io/flutter/plugins/videoplayer/VideoPlayerPlugin.java:286-309 | a failure that triggers re-preparation never carries a message, and a failure with a message never triggers it |
| `Transport.RepeatModeFor` | android/src/main/java/io/flutter/plugins/videoplayer/VideoPlayerPlugin.java:175-177 | the chosen repeat mode loops iff looping was asked for, and is never single-item repeat |
| `Transport.ClampVolume` | android/src/main/java/io/flutter/plugins/videoplayer/VideoPlayerPlugin.java:179-182 | the applied volume lies in [0, 1], equals the request inside that range, and is 0 below it and 1 above it |
| `Transport.ClampIdempotentMonotone` | android/src/main/java/io/flutter/plugins/videoplayer/VideoPlayerPlugin.java:180 | clamping twice equals clamping once, and clamping keeps the order of two volumes |
| `Events.JavaIntCast` | android/src/main/java/io/flutter/plugins/videoplayer/VideoPlayerPlugin.java:217 | the `(int)` cast of a long lies in the 32-bit range, agrees with the long modulo 2^32, and is the identity on values already in range |
| `Events.BufferingEvent` | android/src/main/java/io/flutter/plugins/videoplayer/VideoPlayerPlugin.java:213-222 | a bufferingUpdate holds exactly one range; it starts at 0 and ends at the narrowed buffered position, which is the position itself below 2^31 ms |
| `SessionModel.Step` | android/src/main/java/io/flutter/plugins/videoplayer/VideoPlayerPlugin.java:192-350 | no step changes the session's source; a disposed session changes, sends and calls nothing, and a step on it dereferences null exactly for a transport call; a step that dereferences null changes and sends nothing |
| `SessionModel.CreationPrepares` | android/src/main/java/io/flutter/plugins/videoplayer/VideoPlayerPlugin.java:129-154 | creation builds one engine, sets it to repeat everything, prepares the source once and attaches the surface |
| `SessionModel.FirstReadyInitializes` | android/src/main/java/io/flutter/plugins/videoplayer/VideoPlayerPlugin.java:258-262 | the first READY sets isInitialized and sends exactly one initialized event with the current duration and size, if a listener is attached |
| `SessionModel.InitializedOnlyByReady` | android/src/main/java/io/flutter/plugins/videoplayer/VideoPlayerPlugin.java:258-262 | no step resets isInitialized, and only a READY on a live session sets it |
| `SessionModel.InitializedEventsAreCurrent` | android/src/main/java/io/flutter/plugins/videoplayer/VideoPlayerPlugin.java:192-201 | an initialized event is only sent in an initialized state with a listener attached, and carries the reported duration and the latest width and height |
| `SessionModel.RunKeepsInitialized` | android/src/main/java/io/flutter/plugins/videoplayer/VideoPlayerPlugin.java:258-262 | over any sequence of inputs an initialized session stays initialized |
| `SessionModel.VideoSizeRecorded` | android/src/main/java/io/flutter/plugins/videoplayer/VideoPlayerPlugin.java:346-350 | a size change always records width and height, and once initialized re-sends initialized with them to an attached listener |
| `SessionModel.BufferingUpdateOnce` | android/src/main/java/io/flutter/plugins/videoplayer/VideoPlayerPlugin.java:252-271 | loading changed, BUFFERING, and READY after initialization each send exactly one bufferingUpdate with a listener and nothing without, and change no field (so never a second initialized) |
| `SessionModel.StepAnchored` | android/src/main/java/io/flutter/plugins/videoplayer/VideoPlayerPlugin.java:213-222 | every bufferingUpdate a step sends holds one range starting at 0 |
| `SessionModel.RunAnchored` | android/src/main/java/io/flutter/plugins/videoplayer/VideoPlayerPlugin.java:213-222 | every bufferingUpdate of any run holds one range starting at 0 |
| `SessionModel.ListenResends` | android/src/main/java/io/flutter/plugins/videoplayer/VideoPlayerPlugin.java:111-114 | listen stores the sink and at once re-sends initialized exactly when already initialized |
| `SessionModel.NoListenerNoEvents` | android/src/main/java/io/flutter/plugins/videoplayer/VideoPlayerPlugin.java:192-249 | without a listener no input other than listen sends anything or attaches one |
| `SessionModel.SilentWithoutListener` | android/src/main/java/io/flutter/plugins/videoplayer/VideoPlayerPlugin.java:116-119 | a run without listen that starts without a listener sends nothing and ends without one |
| `SessionModel.CancelSilences` | android/src/main/java/io/flutter/plugins/videoplayer/VideoPlayerPlugin.java:116-119 | cancel clears the sink, and nothing is sent afterwards until the next listen |
| `SessionModel.EndedNeedsListener` | android/src/main/java/io/flutter/plugins/videoplayer/VideoPlayerPlugin.java:265-268 | STATE_ENDED sends completed to an attached listener and dereferences null without one; it changes no field |
| `SessionModel.NullDereferenceCases` | android/src/main/java/io/flutter/plugins/videoplayer/VideoPlayerPlugin.java:265-268 | a step dereferences null iff ENDED arrives without a listener or a transport call reaches a disposed session |
| `SessionModel.TracksExaminedOnce` | android/src/main/java/io/flutter/plugins/videoplayer/VideoPlayerPlugin.java:230-249 | a tracks change records the array; the same array reported again changes and sends nothing |
| `SessionModel.NewTracksReported` | android/src/main/java/io/flutter/plugins/videoplayer/VideoPlayerPlugin.java:230-249 | a new track-group array is recorded with no engine call; to an attached listener "unsupported video" is sent exactly when the video renderer cannot play the tracks and "unsupported audio" exactly when the audio renderer cannot, video first, at most these two, and nothing without mapped track information |
| `SessionModel.BehindLiveWindowRecovers` | android/src/main/java/io/flutter/plugins/videoplayer/VideoPlayerPlugin.java:307-313 | a behind-live-window failure prepares the existing engine again (no new instance, fields unchanged) and still sends VideoError without a message to an attached listener |
| `SessionModel.OtherFailuresReported` | android/src/main/java/io/flutter/plugins/videoplayer/VideoPlayerPlugin.java:286-313 | any other failure leaves fields and engine alone and sends VideoError with its classified message to an attached listener |
| `SessionModel.TransportOnlyCallsEngine` | android/src/main/java/io/flutter/plugins/videoplayer/VideoPlayerPlugin.java:167-186 | a transport call sends no event, changes no field and makes one engine call; the volume passed lies in [0, 1]; the repeat mode loops iff looping was asked for |
| `SessionModel.DisposedIsInert` | android/src/main/java/io/flutter/plugins/videoplayer/VideoPlayerPlugin.java:203-211 | dispose releases a live engine once; afterwards no input changes the session, sends an event or calls the engine, and the run ends in a NullPointerException exactly when a transport call arrives |
| `SessionModel.OnlyDisposeReleases` | android/src/main/java/io/flutter/plugins/videoplayer/VideoPlayerPlugin.java:203-211 | after any step the session has an engine exactly when it had one before and the input was not dispose: only dispose sets the engine to null, and nothing creates one again |
| `Sessions.VideoPlayer.constructor` | android/src/main/java/io/flutter/plugins/videoplayer/VideoPlayerPlugin.java:93-154 | a new session is uninitialized, has no listener, is 0 by 0, has a live engine, and has asked it for: new instance, repeat all, prepare, surface |
| `Sessions.VideoPlayer.InitializePlayer` | android/src/main/java/io/flutter/plugins/videoplayer/VideoPlayerPlugin.java:129-154 | builds an engine only when there is none, then prepares and attaches the surface |
| `Sessions.VideoPlayer.SendInitialized` | android/src/main/java/io/flutter/plugins/videoplayer/VideoPlayerPlugin.java:192-201 | appends an initialized event exactly when initialized with a listener |
| `Sessions.VideoPlayer.BufferingUpdate` | android/src/main/java/io/flutter/plugins/videoplayer/VideoPlayerPlugin.java:213-222 | appends the single-range event exactly when a listener is attached |
| `Sessions.VideoPlayer.OnListen` | android/src/main/java/io/flutter/plugins/videoplayer/VideoPlayerPlugin.java:111-114 | performs exactly the listen step |
| `Sessions.VideoPlayer.OnCancel` | android/src/main/java/io/flutter/plugins/videoplayer/VideoPlayerPlugin.java:117-119 | clears the sink, keeps the engine, and performs exactly the cancel step |
| `Sessions.VideoPlayer.OnPlayerStateChanged` | android/src/main/java/io/flutter/plugins/videoplayer/VideoPlayerPlugin.java:257-272 | performs exactly the state-change step and returns its outcome |
| `Sessions.VideoPlayer.OnLoadingChanged` | android/src/main/java/io/flutter/plugins/videoplayer/VideoPlayerPlugin.java:252-254 | performs exactly the loading-changed step |
| `Sessions.VideoPlayer.OnVideoSizeChanged` | android/src/main/java/io/flutter/plugins/videoplayer/VideoPlayerPlugin.java:346-350 | records width and height and performs exactly the size step |
| `Sessions.VideoPlayer.OnTracksChanged` | android/src/main/java/io/flutter/plugins/videoplayer/VideoPlayerPlugin.java:230-249 | records the array, keeps the engine, and performs exactly the tracks step |
| `Sessions.VideoPlayer.OnPlayerError` | android/src/main/java/io/flutter/plugins/videoplayer/VideoPlayerPlugin.java:285-314 | keeps the engine and performs exactly the error step |
| `Sessions.VideoPlayer.Play` | android/src/main/java/io/flutter/plugins/videoplayer/VideoPlayerPlugin.java:167-169 | asks the engine to play when ready; nothing else changes |
| `Sessions.VideoPlayer.Pause` | android/src/main/java/io/flutter/plugins/videoplayer/VideoPlayerPlugin.java:171-173 | asks the engine not to play; nothing else changes |
| `Sessions.VideoPlayer.SetLooping` | android/src/main/java/io/flutter/plugins/videoplayer/VideoPlayerPlugin.java:175-177 | sets the repeat mode chosen by RepeatModeFor; nothing else changes |
| `Sessions.VideoPlayer.SetVolume` | android/src/main/java/io/flutter/plugins/videoplayer/VideoPlayerPlugin.java:179-182 | hands the engine the clamped volume; nothing else changes |
| `Sessions.VideoPlayer.SeekTo` | android/src/main/java/io/flutter/plugins/videoplayer/VideoPlayerPlugin.java:184-186 | asks the engine to seek to the location; nothing else changes |
| `Sessions.VideoPlayer.GetPosition` | android/src/main/java/io/flutter/plugins/videoplayer/VideoPlayerPlugin.java:188-190 | returns the position the engine reports, changing nothing |
| `Sessions.VideoPlayer.Dispose` | android/src/main/java/io/flutter/plugins/videoplayer/VideoPlayerPlugin.java:203-211 | releases a live engine once and leaves none; every other field and the events are untouched |
| `SparseKeys.Insert` | android/src/main/java/io/flutter/plugins/videoplayer/VideoPlayerPlugin.java:405 | the key order stays strictly increasing and holds the old keys plus the new one |
| `SparseKeys.Remove` | android/src/main/java/io/flutter/plugins/videoplayer/VideoPlayerPlugin.java:454 | the key order stays strictly increasing and holds the old keys minus the removed one |
| `Plugin.TransportOf` | android/src/main/java/io/flutter/plugins/videoplayer/VideoPlayerPlugin.java:428-448 | every call but position, dispose and an unknown method is a transport operation |
| `Plugin.VideoPlayerPlugin.constructor` | android/src/main/java/io/flutter/plugins/videoplayer/VideoPlayerPlugin.java:364-367 | the registry starts empty |
| `Plugin.VideoPlayerPlugin.OnMethodCall` | android/src/main/java/io/flutter/plugins/videoplayer/VideoPlayerPlugin.java:373-424 | init disposes every session and empties the registry; an asset create registers nothing; a refused create registers nothing; disposed sessions keep every field but the engine; a create registers a fresh session for the URI that has sent nothing and made exactly the four creation calls (new instance, repeat all, prepare, surface); an unregistered id gives "Unknown textureId" and changes nothing; other sessions are untouched |
| `Plugin.VideoPlayerPlugin.Init` | android/src/main/java/io/flutter/plugins/videoplayer/VideoPlayerPlugin.java:380-387 | every session registered before is disposed (released once, every other field and the events untouched), the registry is empty, and no reply is sent |
| `Plugin.VideoPlayerPlugin.Create` | android/src/main/java/io/flutter/plugins/videoplayer/VideoPlayerPlugin.java:388-408 | asset: IOError and nothing registered; unsupported type: the exception and nothing registered; otherwise a fresh session for the URI under the new texture id, with no event sent and exactly the four creation calls made (new instance, repeat all, prepare, surface) |
| `Plugin.VideoPlayerPlugin.HandlePlayerCall` | android/src/main/java/io/flutter/plugins/videoplayer/VideoPlayerPlugin.java:426-461 | dispose releases the session's engine once, keeps its other fields and events, and removes its id; position returns the engine's position; transport calls make their one engine call; an unknown method is not implemented |
| `PluginClients.DisposedHandleIsUnknown` | android/src/main/java/io/flutter/plugins/videoplayer/VideoPlayerPlugin.java:409-456 | after dispose(h) any call on h, a second dispose included, fails with the error code "Unknown textureId" |
| `PluginClients.RefusedCreateRegistersNothing` | android/src/main/java/io/flutter/plugins/videoplayer/VideoPlayerPlugin.java:388-419 | a create refused for an unsupported type leaves its id unknown, so position on it fails |

## Left out

- ExoPlayer itself is left out: its construction, data-source factories, track
  selector, preparation and rendering. The session's calls on it are recorded
  as abstract `EngineCall`s. Its callbacks arrive as `EngineCallback` values,
  delivered one at a time.
- The values the engine reports are plain inputs: duration, buffered position
  and current position.
- The track-support lookup (`getTypeSupport`) is reduced to two booleans, and
  the track-group array to an integer identity.
- `Util.inferContentType` is a foreign call. It is a function parameter
  returning one of the four content types.
- The static bandwidth meter and cookie manager are process-wide library state
  and are not modelled.
- Surfaces and textures are not modelled, apart from attaching the surface:
  creating and releasing them, and the texture registry's id allocation (the
  new id is an input).
- The Flutter channels are not modelled: the event and method channels, the
  `no_activity` check, and argument casting (including `intValue()` on the
  seek location).
- Method names are modelled as a datatype of calls, not as strings.
- Threading: callbacks and calls are serialised steps.
- Engine callbacks after `release()` are dropped (the engine has removed its
  listeners). So are listen and cancel after `dispose` (the stream handler is
  removed). This is the engine's and the channel's behaviour, assumed rather
  than modelled.
- A cause chain is a finite sequence, so a cyclic Java cause chain is not
  modelled.
- Volume is a real number: no `(float)` rounding and no NaN.
- Error messages are a tag plus its parameter (MIME type or decoder name), not
  the localized message text.
- The commented-out asset constructor is not modelled, nor are the callbacks
  whose bodies are empty.
- `Plugin.VideoPlayerPlugin.Create`: when building the media source throws,
  the Java constructor has already created an engine and an event channel,
  which leak. The model resolves the source first and creates nothing.
- `SessionModel.Step`: re-preparation after a behind-live-window failure
  reuses the source built at creation. The Java code rebuilds it from the same
  URI, which gives the same source because type inference is assumed to be
  deterministic.
- `Sessions.VideoPlayer.OnListen` and the other callback methods require a live
  engine (`hasPlayer`). In the source their callers never deliver to a
  disposed session.
- `Plugin.VideoPlayerPlugin.Create`: when the texture id is already
  registered, the old session is replaced without being disposed, as
  `LongSparseArray.put` does. The texture registry never hands out an id twice.
