/**
 * Playback failures as the engine reports them, the message the error event carries
 * (onPlayerError) and the behind-live-window test that triggers re-preparation
 * (isBehindLiveWindow).
 */
module PlayerErrors {
  import opened Wrappers

  /** The kind of a Throwable met while walking a source failure's cause chain. */
  datatype ExceptionKind = BehindLiveWindowException | OtherException

  /** A MediaCodecRenderer.DecoderInitializationException, reduced to the fields the classifier reads. */
  datatype DecoderInitFailure = DecoderInitFailure(
    decoderName: Option<string>,     // null when no decoder could be named
    causeIsDecoderQuery: bool,       // getCause() is a MediaCodecUtil.DecoderQueryException
    secureDecoderRequired: bool,
    mimeType: string)

  /** What getRendererException() returns: a decoder-initialisation failure or anything else. */
  datatype RendererCause = DecoderInitialization(failure: DecoderInitFailure) | OtherRendererException

  /**
   * An ExoPlaybackException by its type. A source failure carries its cause chain, starting
   * with getSourceException() and following getCause() until null; a renderer failure carries
   * getRendererException().
   */
  datatype PlaybackFailure =
    | SourceFailure(causeChain: seq<ExceptionKind>)
    | RendererFailure(rendererCause: RendererCause)
    | UnexpectedFailure

  /**
   * The message of the "VideoError" event, as a tag and its parameter: "cannot play", an
   * unsupported format named by MIME type or decoder name, and the unsupported video or
   * audio track messages sent when the tracks change.
   */
  datatype ErrorMessage =
    | CannotPlay
    | UnsupportedFormat(detail: string)
    | UnsupportedVideoTrack
    | UnsupportedAudioTrack

  /** The message onPlayerError attaches to the error event (null becomes None). */
  function ErrorMessageFor(error: PlaybackFailure): (m: Option<ErrorMessage>)
    ensures m.Some? <==> error.RendererFailure? && error.rendererCause.DecoderInitialization?
    ensures m.Some? ==>
              var d := error.rendererCause.failure;
              && (m.value == CannotPlay <==> d.decoderName == None && d.causeIsDecoderQuery)
              && (d.decoderName == None && !d.causeIsDecoderQuery ==> m.value == UnsupportedFormat(d.mimeType))
              && (d.decoderName.Some? ==> m.value == UnsupportedFormat(d.decoderName.value))
  {
    match error
    case RendererFailure(DecoderInitialization(d)) =>
      if d.decoderName == None then
        if d.causeIsDecoderQuery then Some(CannotPlay)
        else if d.secureDecoderRequired then Some(UnsupportedFormat(d.mimeType))
        else Some(UnsupportedFormat(d.mimeType))
      else Some(UnsupportedFormat(d.decoderName.value))
    case _ => None
  }

  /** Whether a secure decoder was required never changes the message. */
  lemma SecureFlagIrrelevant(d: DecoderInitFailure, secure: bool)
    ensures ErrorMessageFor(RendererFailure(DecoderInitialization(d)))
         == ErrorMessageFor(RendererFailure(DecoderInitialization(d.(secureDecoderRequired := secure))))
  {
  }

  /** The failures the session recovers from: a source failure with a behind-live-window exception among its causes. */
  predicate BehindLiveWindow(error: PlaybackFailure)
  {
    error.SourceFailure? && BehindLiveWindowException in error.causeChain
  }

  /** isBehindLiveWindow: walks the cause chain one Throwable at a time. */
  method IsBehindLiveWindow(error: PlaybackFailure) returns (behind: bool)
    ensures behind <==> error.SourceFailure? &&
                        exists i :: 0 <= i < |error.causeChain| && error.causeChain[i] == BehindLiveWindowException
    ensures behind == BehindLiveWindow(error)
  {
    if !error.SourceFailure? {
      return false;
    }
    var chain := error.causeChain;
    var i := 0;
    while i < |chain|
      invariant 0 <= i <= |chain|
      invariant forall j :: 0 <= j < i ==> chain[j] != BehindLiveWindowException
    {
      if chain[i] == BehindLiveWindowException {
        return true;
      }
      i := i + 1;
    }
    return false;
  }

  /** A failure the session recovers from never carries a message: the two classifications are disjoint. */
  lemma RecoverableHasNoMessage(error: PlaybackFailure)
    ensures BehindLiveWindow(error) ==> ErrorMessageFor(error) == None
    ensures ErrorMessageFor(error).Some? ==> !BehindLiveWindow(error)
  {
  }
}
