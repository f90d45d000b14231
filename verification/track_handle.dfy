/** The JavaScript view of a playing track: the event kinds a listener can
    subscribe to, the play mode and ready state as JavaScript enums, and the
    millisecond conversions of positions and seeks. The track itself lives in
    the voice library; only these translations belong to the binding. */
module TrackHandle {
  import opened Wrappers
  import opened Numeric
  import opened Errors
  import opened Time

  /** `JsTrackHandleEvent`: what `add_event` accepts. */
  datatype JsTrackHandleEvent = Play | Pause | End | Loop | Preparing | Playable | Error

  /** The voice library's `TrackEvent`. */
  datatype TrackEvent = TrackPlay | TrackPause | TrackEnd | TrackLoop | TrackPreparing | TrackPlayable | TrackError

  /** The voice library's `Event`, restricted to the variant the binding builds. */
  datatype Event = Track(kind: TrackEvent)

  /** The variant names, as written in the source, of both enums. */
  function JsEventName(e: JsTrackHandleEvent): string {
    match e
    case Play => "Play"
    case Pause => "Pause"
    case End => "End"
    case Loop => "Loop"
    case Preparing => "Preparing"
    case Playable => "Playable"
    case Error => "Error"
  }

  function TrackEventName(e: TrackEvent): string {
    match e
    case TrackPlay => "Play"
    case TrackPause => "Pause"
    case TrackEnd => "End"
    case TrackLoop => "Loop"
    case TrackPreparing => "Preparing"
    case TrackPlayable => "Playable"
    case TrackError => "Error"
  }

  /** `Into<Event> for JsTrackHandleEvent`: the track event of the same name. */
  function ToEvent(e: JsTrackHandleEvent): (r: Event)
    ensures TrackEventName(r.kind) == JsEventName(e)
  {
    var kind := match e
      case Play => TrackPlay
      case Pause => TrackPause
      case End => TrackEnd
      case Loop => TrackLoop
      case Preparing => TrackPreparing
      case Playable => TrackPlayable
      case Error => TrackError;
    Track(kind)
  }

  /** Different JavaScript events subscribe to different track events, and
      every track event can be subscribed to. */
  lemma ToEventBijective(a: JsTrackHandleEvent, b: JsTrackHandleEvent, k: TrackEvent)
    ensures ToEvent(a) == ToEvent(b) ==> a == b
    ensures exists e :: ToEvent(e) == Track(k)
  {
    var e := match k
      case TrackPlay => Play
      case TrackPause => Pause
      case TrackEnd => End
      case TrackLoop => Loop
      case TrackPreparing => Preparing
      case TrackPlayable => Playable
      case TrackError => Error;
    assert ToEvent(e) == Track(k);
  }

  /** The library's error value behind an `Errored` play mode; only its
      `Display` text is visible. */
  datatype PlayError = PlayError(display: string)

  /** The voice library's `PlayMode`. It is non-exhaustive: `Unlisted`
      stands for any variant added after the ones the binding names. */
  datatype PlayMode = ModePlay | ModePause | ModeStop | ModeEnd | ModeErrored(error: PlayError) | ModeUnlisted(tag: nat)

  /** `JsPlayMode`, the JavaScript `PlayModeValue` enum. */
  datatype JsPlayMode = JsPlay | JsPause | JsStop | JsEnd | JsErrored | JsUnknown

  /** `JsTrackStatePlayingObject`: the value, plus an error text. */
  datatype PlayingObject = PlayingObject(value: JsPlayMode, error: Option<string>)

  const ERROR_PREFIX: string := "[Songbird Error] "

  /** The shape the TypeScript declaration promises for `playing`: an error
      text exactly for `Errored`, and no other field otherwise. */
  predicate WellShaped(p: PlayingObject) {
    p.error.Some? <==> p.value == JsErrored
  }

  /** `From<PlayMode> for JsTrackStatePlayingObject`. */
  function FromPlayMode(mode: PlayMode): (r: PlayingObject)
    ensures WellShaped(r)
    ensures mode.ModeErrored? <==> r.value == JsErrored
    ensures mode.ModeErrored? ==> r.error == Some(ERROR_PREFIX + mode.error.display)
    ensures mode.ModeUnlisted? <==> r.value == JsUnknown
    ensures mode == ModePlay <==> r.value == JsPlay
    ensures mode == ModePause <==> r.value == JsPause
    ensures mode == ModeStop <==> r.value == JsStop
    ensures mode == ModeEnd <==> r.value == JsEnd
  {
    match mode
    case ModePlay => PlayingObject(JsPlay, None)
    case ModePause => PlayingObject(JsPause, None)
    case ModeStop => PlayingObject(JsStop, None)
    case ModeEnd => PlayingObject(JsEnd, None)
    case ModeErrored(e) => PlayingObject(JsErrored, Some(ERROR_PREFIX + e.display))
    case ModeUnlisted(_) => PlayingObject(JsUnknown, None)
  }

  /** The library's error text can be read back from the JavaScript one by
      dropping the fixed prefix, so distinct errors stay distinct. */
  lemma ErrorTextRecoverable(e: PlayError)
    ensures
      var text := FromPlayMode(ModeErrored(e)).error.value;
      |text| >= |ERROR_PREFIX| && text[..|ERROR_PREFIX|] == ERROR_PREFIX
      && text[|ERROR_PREFIX|..] == e.display
  {
  }

  /** The voice library's `ReadyState` and its JavaScript twin. */
  datatype ReadyState = Uninitialised | ReadyPreparing | ReadyPlayable
  datatype JsReadyState = JsUninitialised | JsPreparing | JsPlayable

  /** The `ready` mapping of `get_info`: each state to its same-named twin. */
  function FromReadyState(s: ReadyState): (r: JsReadyState)
    ensures s == Uninitialised <==> r == JsUninitialised
    ensures s == ReadyPreparing <==> r == JsPreparing
    ensures s == ReadyPlayable <==> r == JsPlayable
  {
    match s
    case Uninitialised => JsUninitialised
    case ReadyPreparing => JsPreparing
    case ReadyPlayable => JsPlayable
  }

  function ToReadyState(s: JsReadyState): ReadyState {
    match s
    case JsUninitialised => Uninitialised
    case JsPreparing => ReadyPreparing
    case JsPlayable => ReadyPlayable
  }

  /** The ready-state mapping of `get_info` is a bijection: it has an
      inverse on both sides. */
  lemma ReadyStateBijection(s: ReadyState, j: JsReadyState)
    ensures ToReadyState(FromReadyState(s)) == s
    ensures FromReadyState(ToReadyState(j)) == j
  {
  }

  /** The voice library's `TrackState`, without its volume and loop count. */
  datatype TrackState = TrackState(playing: PlayMode, position: Duration, playTime: Duration, ready: ReadyState)

  /** `JsTrackState`, without its volume. */
  datatype JsTrackState = JsTrackState(position: U32, playing: PlayingObject, playTime: U32, ready: JsReadyState)

  /** `JsTrackHandle::get_info` once the library has answered: a library
      error is passed on through `to_napi_error`; a state has its
      durations turned into u32 milliseconds (modulo 2^32) and its enums
      translated. */
  function GetInfo(reply: Result<TrackState, LibraryError>): (r: Result<JsTrackState, NapiError>)
    ensures reply.Failure? <==> r.Failure?
    ensures reply.Failure? ==> r.error == FromLibrary(reply.error)
    ensures r.Success? ==>
      && (AsMillis(reply.value.position) - r.value.position) % U32_LIMIT == 0
      && (AsMillis(reply.value.playTime) - r.value.playTime) % U32_LIMIT == 0
      && (AsMillis(reply.value.position) < U32_LIMIT ==> r.value.position == AsMillis(reply.value.position))
      && (AsMillis(reply.value.playTime) < U32_LIMIT ==> r.value.playTime == AsMillis(reply.value.playTime))
      && r.value.ready == FromReadyState(reply.value.ready)
      && r.value.playing == FromPlayMode(reply.value.playing)
  {
    match reply
    case Failure(e) => Failure(FromLibrary(e))
    case Success(state) =>
      Success(JsTrackState(
        AsMillisU32(state.position),
        FromPlayMode(state.playing),
        AsMillisU32(state.playTime),
        FromReadyState(state.ready)))
  }

  /** The opaque handle on a track owned by the voice library. */
  datatype JsTrackHandle = JsTrackHandle(inner: nat)

  /** `JsTrackHandle::create`: the JavaScript-side constructor is refused,
      always with status `Unknown`; handles only come from `Call::play`. */
  function Create(): (r: Result<JsTrackHandle, NapiError>)
    ensures r.Failure? && r.error.FromStatus? && r.error.status == Unknown
  {
    Failure(FromStatus(Unknown))
  }

  /** `JsTrackHandle::seek` (and the value mapping of `seek_async`): the
      u32 timecode is sent to the library as a duration, and the position
      the library reports comes back as u32 milliseconds. `library` is the
      voice library's seek, which the binding does not control. */
  function Seek(timecode: U32, library: Duration -> Result<Duration, LibraryError>)
    : (r: Result<U32, NapiError>)
    ensures library(FromMillis(timecode)) == Success(FromMillis(timecode)) ==> r == Success(timecode)
    ensures library(FromMillis(timecode)).Failure? <==> r.Failure?
    ensures r.Failure? ==> r.error == FromLibrary(library(FromMillis(timecode)).error)
    ensures r.Success? ==> (AsMillis(library(FromMillis(timecode)).value) - r.value) % U32_LIMIT == 0
  {
    TimecodeRoundTrip(timecode);
    match library(FromMillis(timecode))
    case Failure(e) => Failure(FromLibrary(e))
    case Success(position) => Success(AsMillisU32(position))
  }

  /** A seek that lands exactly where it was asked to reports back the
      timecode it was given. */
  lemma SeekRoundTrip(timecode: U32, library: Duration -> Result<Duration, LibraryError>)
    requires library(FromMillis(timecode)) == Success(FromMillis(timecode))
    ensures Seek(timecode, library) == Success(timecode)
  {
    TimecodeRoundTrip(timecode);
  }
}
