/** Values of the playback controller: what can be mounted in the player
    container, which source a channel starts with, and how a stream
    error is answered. */
module Playback {
  import opened Wrappers
  import opened Channels

  /** How a mounted video element gets its stream. */
  datatype VideoMode =
    | ViaEngine    // an adaptive-streaming engine is attached to it
    | Native       // the URL is assigned to the element directly
    | Unsupported  // neither works; an error message is shown instead

  /** `currentPlayer`: nothing, a video element, or an embed frame. */
  datatype Player = NoPlayer | Video(url: string, mode: VideoMode) | Iframe(url: string)

  datatype Backend = IptvBackend | YouTubeBackend

  datatype Source = Source(backend: Backend, url: string)

  /** The video mode chosen from the browser's capabilities: the engine
      when it is supported, else native playback, else none. */
  function ModeFor(engineSupported: bool, nativeSupported: bool): VideoMode {
    if engineSupported then ViaEngine
    else if nativeSupported then Native
    else Unsupported
  }

  /** The source `playChannel` starts with: the first IPTV URL when there
      is one, otherwise the first YouTube URL, otherwise none. */
  function DefaultSource(ch: Channel): (r: Option<Source>)
    ensures r.None? <==> ch.iptvUrls == [] && ch.youtubeUrls == []
    ensures r.Some? && r.value.backend == IptvBackend ==> ch.iptvUrls != [] && r.value.url == ch.iptvUrls[0]
    ensures r.Some? && r.value.backend == YouTubeBackend ==>
              ch.iptvUrls == [] && ch.youtubeUrls != [] && r.value.url == ch.youtubeUrls[0]
  {
    if |ch.iptvUrls| > 0 then Some(Source(IptvBackend, ch.iptvUrls[0]))
    else if |ch.youtubeUrls| > 0 then Some(Source(YouTubeBackend, ch.youtubeUrls[0]))
    else None
  }

  /** The error types the engine reports. */
  datatype ErrorKind = NetworkError | MediaError | OtherError

  /** What the error handler asks of the engine. */
  datatype Recovery = NoRecovery | RestartLoad | RecoverMedia | Release

  /** The dispatch of the engine's error handler: non-fatal errors are
      ignored, fatal network and media errors are retried, any other fatal
      error releases the engine. */
  function RecoveryFor(fatal: bool, kind: ErrorKind): (r: Recovery)
    ensures r == NoRecovery <==> !fatal
    ensures r == RestartLoad <==> fatal && kind == NetworkError
    ensures r == RecoverMedia <==> fatal && kind == MediaError
    ensures r == Release <==> fatal && kind == OtherError
  {
    if !fatal then NoRecovery
    else match kind
      case NetworkError => RestartLoad
      case MediaError => RecoverMedia
      case OtherError => Release
  }

  const NetworkRecoveringMessage := "Network error, trying to recover..."
  const MediaRecoveringMessage := "Media error, trying to recover..."
  const StreamFailedMessage := "An error occurred while playing the stream. Please try again."
  const UnsupportedMessage := "Your browser does not support HLS playback."

  /** The message shown for a recovery action; none for ignored errors. */
  function RecoveryMessage(r: Recovery): (m: Option<string>)
    ensures m.None? <==> r == NoRecovery
  {
    match r
    case NoRecovery => None
    case RestartLoad => Some(NetworkRecoveringMessage)
    case RecoverMedia => Some(MediaRecoveringMessage)
    case Release => Some(StreamFailedMessage)
  }

  /** Every live engine is the one `currentHls` refers to: no engine is
      alive without a handle through which it can be destroyed. */
  predicate EnginesOwned(live: set<nat>, handle: Option<nat>) {
    forall id :: id in live ==> handle == Some(id)
  }

  /** Ownership through one handle leaves at most one live engine. */
  lemma AtMostOneLiveEngine(live: set<nat>, handle: Option<nat>)
    requires EnginesOwned(live, handle)
    ensures |live| <= 1
    ensures handle.None? ==> live == {}
  {
    if handle.Some? {
      assert live <= {handle.value};
      if handle.value in live {
        assert live == {handle.value};
      } else {
        assert live == {};
      }
    } else {
      assert live == {};
    }
  }
}
