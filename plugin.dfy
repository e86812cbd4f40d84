/**
 * VideoPlayerPlugin: the method-call handler that keeps the registry of sessions by texture
 * id. "init" disposes every session and clears the registry, "create" registers a new
 * session unless an asset is asked for, and every other call is routed to the session
 * registered under its texture id, or fails with "Unknown textureId".
 */
module Plugin {
  import opened Wrappers
  import opened MediaSources
  import opened SessionModel
  import opened Sessions
  import opened SparseKeys
  import opened Transport

  /** The calls the second onMethodCall overload handles for a registered session. */
  datatype PlayerOp =
    | SetLoopingCall(looping: bool)
    | SetVolumeCall(volume: real)
    | PlayCall
    | PauseCall
    | SeekToCall(location: int)
    | PositionCall
    | DisposeCall
    | OtherMethod(name: string)

  /** A method call on the plugin's channel with the arguments it reads. */
  datatype MethodCall =
    | InitCall
    | CreateCall(asset: Option<string>, uri: string)
    | PlayerCall(textureId: int, op: PlayerOp)

  /** The error replies: the "IOError" for an asset and the "Unknown textureId" for an unregistered handle. */
  datatype PluginError = IOError(asset: string) | UnknownTextureId(textureId: int)
  {
    function Code(): string
    {
      match this
      case IOError(_) => "IOError"
      case UnknownTextureId(_) => "Unknown textureId"
    }
  }

  datatype ReplyValue = NoValue | TextureIdValue(textureId: int) | PositionValue(position: int)

  /**
   * What the caller gets back: nothing at all, a success value, an error reply, "not
   * implemented", or the exception thrown while building the media source.
   */
  datatype Reply =
    | NoReply
    | Success(value: ReplyValue)
    | Error(error: PluginError)
    | NotImplemented
    | Thrown(sourceError: SourceError)

  /** The transport operation a player call performs, if it is one. */
  function TransportOf(op: PlayerOp): (t: Option<TransportOp>)
    ensures t.None? <==> op.PositionCall? || op.DisposeCall? || op.OtherMethod?
  {
    match op
    case SetLoopingCall(b) => Some(TransportOp.SetLooping(b))
    case SetVolumeCall(v) => Some(TransportOp.SetVolume(v))
    case PlayCall => Some(TransportOp.Play)
    case PauseCall => Some(TransportOp.Pause)
    case SeekToCall(l) => Some(TransportOp.SeekTo(l))
    case _ => None
  }

  class VideoPlayerPlugin {
    var videoPlayers: map<int, VideoPlayer>
    var keys: seq<int>                   // the sparse array's keys, in index order

    /** The key order lists exactly the registered texture ids, and no session is registered twice. */
    ghost predicate Indexed()
      reads this
    {
      && Sorted(keys)
      && (forall h :: h in videoPlayers <==> h in keys)
      && (forall i | 0 <= i < |keys| :: keys[i] in videoPlayers)
      && (forall h1, h2 | h1 in videoPlayers && h2 in videoPlayers && h1 != h2 :: videoPlayers[h1] != videoPlayers[h2])
    }

    /** Indexed, and every registered session is live. */
    ghost predicate Valid()
      reads this, videoPlayers.Values
    {
      Indexed() && forall h | h in videoPlayers :: videoPlayers[h].hasPlayer
    }

    constructor ()
      ensures Valid() && videoPlayers == map[]
    {
      videoPlayers := map[];
      keys := [];
    }

    /**
     * The first onMethodCall overload. `newTextureId` is the id of the surface texture the
     * texture registry hands out for "create"; `inferContentType` is the engine's content-type
     * inference; `currentPosition` is what the engine reports as the current position.
     */
    method OnMethodCall(call: MethodCall, newTextureId: int, inferContentType: string -> ContentType,
                        currentPosition: int) returns (reply: Reply)
      requires Valid()
      modifies this, videoPlayers.Values
      ensures Valid()
      // init: every session disposed, the registry empty, no reply sent
      ensures call.InitCall? ==>
                && reply == NoReply && videoPlayers == map[]
                && forall h | h in old(videoPlayers) ::
                     var p := old(videoPlayers)[h];
                     && p.State() == old(p.State()).(hasPlayer := false)
                     && p.engineCalls == old(p.engineCalls) + [Release] && p.events == old(p.events)
      // create with an asset: nothing registered
      ensures call.CreateCall? && call.asset.Some? ==>
                reply == Error(IOError(call.asset.value)) && videoPlayers == old(videoPlayers)
      // create with an unsupported URI: the exception, nothing registered
      ensures call.CreateCall? && call.asset.None? && BuildMediaSource(call.uri, None, inferContentType).Err? ==>
                && reply == Thrown(BuildMediaSource(call.uri, None, inferContentType).error)
                && videoPlayers == old(videoPlayers)
      // create with a supported URI: a fresh, prepared session under the new texture id
      ensures call.CreateCall? && call.asset.None? && BuildMediaSource(call.uri, None, inferContentType).Ok? ==>
                && reply == Success(TextureIdValue(newTextureId))
                && newTextureId in videoPlayers
                && videoPlayers == old(videoPlayers)[newTextureId := videoPlayers[newTextureId]]
                && fresh(videoPlayers[newTextureId])
                && videoPlayers[newTextureId].dataSource == call.uri
                && videoPlayers[newTextureId].source == BuildMediaSource(call.uri, None, inferContentType).value
                && videoPlayers[newTextureId].State() == Unprepared(videoPlayers[newTextureId].source).(hasPlayer := true)
                && videoPlayers[newTextureId].events == []
                && videoPlayers[newTextureId].engineCalls ==
                     [NewInstance, SetRepeatMode(RepeatAll), Prepare(videoPlayers[newTextureId].source), SetVideoSurface]
      // any other call on an unregistered texture id: the error, nothing changed
      ensures call.PlayerCall? && call.textureId !in old(videoPlayers) ==>
                && reply == Error(UnknownTextureId(call.textureId))
                && videoPlayers == old(videoPlayers)
      // any other call on a registered texture id: handled by that session alone
      ensures call.PlayerCall? && call.textureId in old(videoPlayers) ==>
                PlayerCallDone(call.textureId, old(videoPlayers)[call.textureId], call.op, currentPosition, reply)
      ensures !call.InitCall? ==> forall h | h in old(videoPlayers) && !(call.PlayerCall? && call.textureId == h) ::
                                    unchanged(old(videoPlayers)[h])
    {
      match call
      case InitCall =>
        reply := Init();
      case CreateCall(asset, uri) =>
        reply := Create(asset, uri, newTextureId, inferContentType);
      case PlayerCall(textureId, op) =>
        if textureId !in videoPlayers {
          reply := Error(UnknownTextureId(textureId));
          return;
        }
        reply := HandlePlayerCall(textureId, videoPlayers[textureId], op, currentPosition);
    }

    /** "init": disposes every registered session in index order, then clears the registry; no reply is sent. */
    method Init() returns (reply: Reply)
      requires Valid()
      modifies this, videoPlayers.Values
      ensures Valid()
      ensures reply == NoReply && videoPlayers == map[]
      ensures forall h | h in old(videoPlayers) ::
                var p := old(videoPlayers)[h];
                && p.State() == old(p.State()).(hasPlayer := false)
                && p.engineCalls == old(p.engineCalls) + [Release] && p.events == old(p.events)
    {
      var size := |keys|;
      var i := 0;
      while i < size
        invariant 0 <= i <= size
        invariant videoPlayers == old(videoPlayers) && keys == old(keys) && Indexed()
        invariant forall j | 0 <= j < i ::
                    var p := videoPlayers[keys[j]];
                    && p.State() == old(p.State()).(hasPlayer := false)
                    && p.events == old(p.events) && p.engineCalls == old(p.engineCalls) + [Release]
        invariant forall j | i <= j < size :: unchanged(videoPlayers[keys[j]])
      {
        videoPlayers[keys[i]].Dispose();
        i := i + 1;
      }
      videoPlayers := map[];
      keys := [];
      reply := NoReply;
    }

    /**
     * "create": an asset is refused with "IOError"; otherwise the session is built for the
     * URI and registered under the new texture id, unless building its media source throws.
     */
    method Create(asset: Option<string>, uri: string, newTextureId: int,
                  inferContentType: string -> ContentType) returns (reply: Reply)
      requires Valid()
      modifies this
      ensures Valid()
      ensures asset.Some? ==> reply == Error(IOError(asset.value)) && videoPlayers == old(videoPlayers)
      ensures asset.None? && BuildMediaSource(uri, None, inferContentType).Err? ==>
                && reply == Thrown(BuildMediaSource(uri, None, inferContentType).error)
                && videoPlayers == old(videoPlayers)
      ensures asset.None? && BuildMediaSource(uri, None, inferContentType).Ok? ==>
                && reply == Success(TextureIdValue(newTextureId))
                && newTextureId in videoPlayers
                && videoPlayers == old(videoPlayers)[newTextureId := videoPlayers[newTextureId]]
                && fresh(videoPlayers[newTextureId])
                && videoPlayers[newTextureId].dataSource == uri
                && videoPlayers[newTextureId].source == BuildMediaSource(uri, None, inferContentType).value
                && videoPlayers[newTextureId].State() == Unprepared(videoPlayers[newTextureId].source).(hasPlayer := true)
                && videoPlayers[newTextureId].events == []
                && videoPlayers[newTextureId].engineCalls ==
                     [NewInstance, SetRepeatMode(RepeatAll), Prepare(videoPlayers[newTextureId].source), SetVideoSurface]
    {
      if asset.Some? {
        reply := Error(IOError(asset.value));
      } else {
        var built := BuildMediaSource(uri, None, inferContentType);
        if built.Err? {
          reply := Thrown(built.error);
        } else {
          var player := new VideoPlayer(uri, built.value);
          videoPlayers := videoPlayers[newTextureId := player];
          keys := Insert(keys, newTextureId);
          reply := Success(TextureIdValue(newTextureId));
        }
      }
    }

    /** What a call on a registered session does: see HandlePlayerCall. */
    twostate predicate PlayerCallDone(textureId: int, player: VideoPlayer, op: PlayerOp, currentPosition: int, reply: Reply)
      reads this, player
    {
      && (op.DisposeCall? ==>
            && reply == Success(NoValue) && videoPlayers == old(videoPlayers) - {textureId}
            && player.engineCalls == old(player.engineCalls) + [Release] && player.events == old(player.events)
            && player.State() == old(player.State()).(hasPlayer := false))
      && (!op.DisposeCall? ==> videoPlayers == old(videoPlayers))
      && (op.PositionCall? ==> reply == Success(PositionValue(currentPosition)) && unchanged(player))
      && (op.OtherMethod? ==> reply == NotImplemented && unchanged(player))
      && (TransportOf(op).Some? ==>
            && reply == Success(NoValue)
            && player.State() == old(player.State()) && player.events == old(player.events)
            && player.engineCalls == old(player.engineCalls) + [EngineCallFor(TransportOf(op).value)])
    }

    /** The second onMethodCall overload: `player` is the session registered under `textureId`. */
    method HandlePlayerCall(textureId: int, player: VideoPlayer, op: PlayerOp, currentPosition: int)
      returns (reply: Reply)
      requires Valid() && textureId in videoPlayers && videoPlayers[textureId] == player
      modifies this, player
      ensures Valid()
      ensures PlayerCallDone(textureId, player, op, currentPosition, reply)
    {
      match op
      case SetLoopingCall(looping) =>
        player.SetLooping(looping);
        reply := Success(NoValue);
      case SetVolumeCall(volume) =>
        player.SetVolume(volume);
        reply := Success(NoValue);
      case PlayCall =>
        player.Play();
        reply := Success(NoValue);
      case PauseCall =>
        player.Pause();
        reply := Success(NoValue);
      case SeekToCall(location) =>
        player.SeekTo(location);
        reply := Success(NoValue);
      case PositionCall =>
        var position := player.GetPosition(currentPosition);
        reply := Success(PositionValue(position));
      case DisposeCall =>
        player.Dispose();
        videoPlayers := videoPlayers - {textureId};
        keys := Remove(keys, textureId);
        reply := Success(NoValue);
      case OtherMethod(_) =>
        reply := NotImplemented;
    }
  }
}

/**
 * Client-side consequences of the registry's contracts: a disposed handle, and the handle of
 * a refused create, are unknown to every later call, a second dispose included.
 */
module PluginClients {
  import opened Wrappers
  import opened MediaSources
  import opened Plugin

  /** dispose(h) succeeds once; after it, any call on h fails with "Unknown textureId". */
  method DisposedHandleIsUnknown(plugin: VideoPlayerPlugin, h: int, later: PlayerOp, currentPosition: int,
                                 inferContentType: string -> ContentType) returns (first: Reply, second: Reply)
    requires plugin.Valid() && h in plugin.videoPlayers
    modifies plugin, plugin.videoPlayers.Values
    ensures first == Success(NoValue)
    ensures second == Error(UnknownTextureId(h)) && second.error.Code() == "Unknown textureId"
    ensures h !in plugin.videoPlayers
  {
    first := plugin.OnMethodCall(PlayerCall(h, DisposeCall), 0, inferContentType, currentPosition);
    second := plugin.OnMethodCall(PlayerCall(h, later), 0, inferContentType, currentPosition);
  }

  /** A create refused for an unsupported type leaves its texture id unknown, so position on it fails too. */
  method RefusedCreateRegistersNothing(plugin: VideoPlayerPlugin, uri: string, textureId: int, currentPosition: int,
                                       inferContentType: string -> ContentType) returns (created: Reply, position: Reply)
    requires plugin.Valid() && textureId !in plugin.videoPlayers
    requires BuildMediaSource(uri, None, inferContentType).Err?
    modifies plugin, plugin.videoPlayers.Values
    ensures created.Thrown?
    ensures position == Error(UnknownTextureId(textureId))
  {
    created := plugin.OnMethodCall(CreateCall(None, uri), textureId, inferContentType, currentPosition);
    position := plugin.OnMethodCall(PlayerCall(textureId, PositionCall), textureId, inferContentType, currentPosition);
  }
}
