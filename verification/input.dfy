/** Input descriptors: what to play (a YouTube URL, an HTTP URL or a file
    path) and the HTTP client needed to fetch it, turned into a voice
    library input on demand; and the JavaScript view of an input's
    metadata. */
module Input {
  import opened Wrappers
  import opened Numeric
  import opened Errors
  import opened Time

  datatype InputType = YouTube | Http | File

  /** A reqwest `Client`; only its identity matters here. */
  datatype HttpClient = HttpClient(id: nat)

  /** `ReqwestClient`, the JavaScript wrapper around a client. */
  datatype ReqwestClient = ReqwestClient(inner: HttpClient)

  /** `JsInput`. */
  datatype JsInput = JsInput(inputType: InputType, httpClient: Option<ReqwestClient>, identifier: string)

  /** The voice library inputs the binding can build. */
  datatype SongbirdInput =
    | YoutubeDl(client: HttpClient, url: string)
    | HttpRequest(client: HttpClient, url: string)

  /** The pairing every factory keeps: a client exactly for the sources
      that are fetched over the network. */
  predicate WellPaired(i: JsInput) {
    i.httpClient.Some? <==> (i.inputType == YouTube || i.inputType == Http)
  }

  /** `JsInput::youtube`. */
  function FromYouTube(client: ReqwestClient, identifier: string): (r: JsInput)
    ensures WellPaired(r)
    ensures r.inputType == YouTube && r.identifier == identifier && r.httpClient == Some(client)
  {
    JsInput(YouTube, Some(client), identifier)
  }

  /** `JsInput::http`. */
  function FromHttp(client: ReqwestClient, url: string): (r: JsInput)
    ensures WellPaired(r)
    ensures r.inputType == Http && r.identifier == url && r.httpClient == Some(client)
  {
    JsInput(Http, Some(client), url)
  }

  /** `JsInput::file`. */
  function FromFile(path: string): (r: JsInput)
    ensures WellPaired(r)
    ensures r.inputType == File && r.identifier == path && r.httpClient.None?
  {
    JsInput(File, None, path)
  }

  /** `JsInput::create_input`: a YouTube source becomes a `YoutubeDl` and an
      HTTP source an `HttpRequest`, each with the stored identifier and a
      copy of the stored client (taken with `unwrap`); a file source
      panics, not being implemented. */
  function CreateInput(i: JsInput): (r: Outcome<SongbirdInput>)
    ensures r.Panic? <==> i.inputType == File || i.httpClient.None?
    ensures i.inputType == File ==> r == Panic(NotImplemented)
    ensures i.inputType != File && i.httpClient.None? ==> r == Panic(UnwrapNone)
    ensures r.Return? && i.inputType == YouTube ==>
      r.value.YoutubeDl? && r.value.url == i.identifier && Some(ReqwestClient(r.value.client)) == i.httpClient
    ensures r.Return? && i.inputType == Http ==>
      r.value.HttpRequest? && r.value.url == i.identifier && Some(ReqwestClient(r.value.client)) == i.httpClient
  {
    match i.inputType
    case YouTube =>
      if i.httpClient.None? then Panic(UnwrapNone)
      else Return(YoutubeDl(i.httpClient.value.inner, i.identifier))
    case Http =>
      if i.httpClient.None? then Panic(UnwrapNone)
      else Return(HttpRequest(i.httpClient.value.inner, i.identifier))
    case File => Panic(NotImplemented)
  }

  /** For inputs built by the factories the `unwrap`s in `create_input`
      never fire: it panics exactly for file sources. */
  lemma CreateInputPanicsOnlyForFiles(i: JsInput)
    requires WellPaired(i)
    ensures CreateInput(i).Panic? <==> i.inputType == File
    ensures CreateInput(i).Panic? ==> CreateInput(i).cause == NotImplemented
  {
  }

  /** The voice library's `AuxMetadata`. */
  datatype AuxMetadata = AuxMetadata(
    track: Option<string>,
    artist: Option<string>,
    album: Option<string>,
    date: Option<string>,
    channels: Option<U8>,
    channel: Option<string>,
    startTime: Option<Duration>,
    duration: Option<Duration>,
    sampleRate: Option<U32>,
    sourceUrl: Option<string>,
    title: Option<string>,
    thumbnail: Option<string>)

  /** `JsAuxMetadata`: the same fields, with the two durations as u32
      milliseconds. */
  datatype JsAuxMetadata = JsAuxMetadata(
    track: Option<string>,
    artist: Option<string>,
    album: Option<string>,
    date: Option<string>,
    channels: Option<U8>,
    channel: Option<string>,
    startTime: Option<U32>,
    duration: Option<U32>,
    sampleRate: Option<U32>,
    sourceUrl: Option<string>,
    title: Option<string>,
    thumbnail: Option<string>)

  /** `d.map(|st| st.as_millis() as u32)`. */
  function OptionalMillis(d: Option<Duration>): (r: Option<U32>)
    ensures r.None? <==> d.None?
    ensures d.Some? ==> (AsMillis(d.value) - r.value) % U32_LIMIT == 0
    ensures d.Some? && AsMillis(d.value) < U32_LIMIT ==> r.value == AsMillis(d.value)
  {
    match d
    case None => None
    case Some(v) => Some(AsMillisU32(v))
  }

  /** The field mapping of `get_aux_metadata`: every field is copied, and
      the two durations become milliseconds, present exactly when they were. */
  function ToJsAuxMetadata(m: AuxMetadata): (r: JsAuxMetadata)
    ensures r.track == m.track && r.artist == m.artist && r.album == m.album && r.date == m.date
    ensures r.channels == m.channels && r.channel == m.channel && r.sampleRate == m.sampleRate
    ensures r.sourceUrl == m.sourceUrl && r.title == m.title && r.thumbnail == m.thumbnail
    ensures r.startTime.None? <==> m.startTime.None?
    ensures r.duration.None? <==> m.duration.None?
    ensures m.startTime.Some? ==> (AsMillis(m.startTime.value) - r.startTime.value) % U32_LIMIT == 0
    ensures m.duration.Some? ==> (AsMillis(m.duration.value) - r.duration.value) % U32_LIMIT == 0
  {
    JsAuxMetadata(m.track, m.artist, m.album, m.date, m.channels, m.channel,
                  OptionalMillis(m.startTime), OptionalMillis(m.duration),
                  m.sampleRate, m.sourceUrl, m.title, m.thumbnail)
  }

  /** Durations that were whole u32 millisecond counts come back unchanged. */
  lemma AuxMillisRoundTrip(m: AuxMetadata, start: U32, length: U32)
    requires m.startTime == Some(FromMillis(start)) && m.duration == Some(FromMillis(length))
    ensures ToJsAuxMetadata(m).startTime == Some(start)
    ensures ToJsAuxMetadata(m).duration == Some(length)
  {
    TimecodeRoundTrip(start);
    TimecodeRoundTrip(length);
  }

  /** The voice library's error when it cannot read an input's metadata;
      only its `Display` text is visible. */
  datatype AuxMetadataError = AuxMetadataError(display: string)

  /** `JsInput::get_aux_metadata`: build the input (so a file source
      panics before anything is fetched), let the library read its metadata
      (`fetch`), and map the answer; a library error becomes an error whose
      reason is the error's text. */
  function GetAuxMetadata(i: JsInput, fetch: SongbirdInput -> Result<AuxMetadata, AuxMetadataError>)
    : (r: Outcome<Result<JsAuxMetadata, NapiError>>)
    ensures r.Panic? <==> CreateInput(i).Panic?
    ensures r.Panic? ==> r.cause == CreateInput(i).cause
    ensures r.Return? && fetch(CreateInput(i).value).Failure? ==>
      r.value == Failure(FromReason(fetch(CreateInput(i).value).error.display))
    ensures r.Return? && fetch(CreateInput(i).value).Success? ==>
      r.value == Success(ToJsAuxMetadata(fetch(CreateInput(i).value).value))
  {
    match CreateInput(i)
    case Panic(cause) => Panic(cause)
    case Return(input) =>
      match fetch(input)
      case Failure(e) => Return(Failure(FromReason(e.display)))
      case Success(m) => Return(Success(ToJsAuxMetadata(m)))
  }
}
