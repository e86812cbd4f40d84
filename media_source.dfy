/**
 * Media-source resolution: which string the content type is inferred from, and which
 * kind of source the inferred type selects (VideoPlayerPlugin.buildMediaSource).
 */
module MediaSources {
  import opened Wrappers

  /** The content types the engine's type inference can report (its DASH, SS, HLS and OTHER). */
  datatype ContentType = Dash | SmoothStreaming | Hls | Other

  /** The source built for a URI: an HLS playlist source or a demuxing extractor source. */
  datatype MediaSource = HlsSource(uri: string) | ExtractorSource(uri: string)

  /** The IllegalStateException "Unsupported type" thrown for any other inferred type. */
  datatype SourceError = UnsupportedType(contentType: ContentType)

  /**
   * The string the content type is inferred from: the URI itself when the override
   * extension is null or empty, otherwise "." followed by the extension.
   */
  function InferenceInput(uri: string, overrideExtension: Option<string>): (s: string)
    ensures overrideExtension == None || overrideExtension == Some("") ==> s == uri
    ensures overrideExtension.Some? && overrideExtension.value != "" ==>
              |s| == |overrideExtension.value| + 1 && s[0] == '.' && s[1..] == overrideExtension.value
  {
    match overrideExtension
    case None => uri
    case Some(ext) => if ext == "" then uri else "." + ext
  }

  /**
   * buildMediaSource. The engine's content-type inference is a foreign call and is
   * passed in as the total function `inferContentType`.
   */
  function BuildMediaSource(uri: string, overrideExtension: Option<string>,
                            inferContentType: string -> ContentType): (r: Result<MediaSource, SourceError>)
    ensures var t := inferContentType(InferenceInput(uri, overrideExtension));
            && (t == Hls <==> r == Ok(HlsSource(uri)))
            && (t == Other <==> r == Ok(ExtractorSource(uri)))
            && (t != Hls && t != Other <==> r == Err(UnsupportedType(t)))
  {
    var contentType := inferContentType(InferenceInput(uri, overrideExtension));
    if contentType == Hls then Ok(HlsSource(uri))
    else if contentType == Other then Ok(ExtractorSource(uri))
    else Err(UnsupportedType(contentType))
  }

  /** The URI a media source plays. */
  function SourceUri(m: MediaSource): string
  {
    match m
    case HlsSource(u) => u
    case ExtractorSource(u) => u
  }

  /** A successful resolution never changes the URI that is played, whatever the override. */
  lemma BuildKeepsUri(uri: string, overrideExtension: Option<string>, inferContentType: string -> ContentType)
    ensures BuildMediaSource(uri, overrideExtension, inferContentType).Ok? ==>
              SourceUri(BuildMediaSource(uri, overrideExtension, inferContentType).value) == uri
  {
  }

  /** With no override, the decision depends on nothing but the content type inferred from the URI. */
  lemma NoOverrideInfersFromUri(uri: string, inferContentType: string -> ContentType)
    ensures BuildMediaSource(uri, None, inferContentType) == BuildMediaSource(uri, Some(""), inferContentType)
    ensures inferContentType(uri) == Dash ==> BuildMediaSource(uri, None, inferContentType).Err?
  {
  }
}
