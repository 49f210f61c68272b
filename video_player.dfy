/**
 * src/components/VideoPlayer.jsx: the player that loads a server's video
 * URL and decides what the video area shows. The server-data endpoint's
 * answer is an input; the messages passed to the `onError` callback are
 * recorded in the order they are reported.
 */
module VideoPlayer {
  import opened Js
  import Api

  const InvalidResponse: string := "Invalid server data response."
  const NoVideoUrl: string := "No video URL found for this server."
  const LoadFailed: string := "Failed to load video. Please try another server."

  /** `server => server.id === id`, which throws on a null or undefined server. */
  function HasId(id: Json): Json -> Result<bool> {
    server => if Nullish(server) then Err(TypeErrorText) else Ok(Get(server, "id") == id)
  }

  /**
   * `data.data.url || data.data.videoUrl || data.data.streamingUrl ||
   * data.data.embedUrl` (src/components/VideoPlayer.jsx:41-44): the first
   * truthy of the four fields, in that order.
   */
  function VideoUrlOf(inner: Json): (r: Json)
    ensures Truthy(r) <==> Truthy(Get(inner, "url")) || Truthy(Get(inner, "videoUrl")) ||
                           Truthy(Get(inner, "streamingUrl")) || Truthy(Get(inner, "embedUrl"))
    ensures Truthy(Get(inner, "url")) ==> r == Get(inner, "url")
    ensures !Truthy(Get(inner, "url")) && Truthy(Get(inner, "videoUrl")) ==> r == Get(inner, "videoUrl")
    ensures !Truthy(Get(inner, "url")) && !Truthy(Get(inner, "videoUrl")) && Truthy(Get(inner, "streamingUrl")) ==>
              r == Get(inner, "streamingUrl")
    ensures !Truthy(Get(inner, "url")) && !Truthy(Get(inner, "videoUrl")) && !Truthy(Get(inner, "streamingUrl")) ==>
              r == Get(inner, "embedUrl")
  {
    Or(Get(inner, "url"), Or(Get(inner, "videoUrl"), Or(Get(inner, "streamingUrl"), Get(inner, "embedUrl"))))
  }

  /** How one call of `loadVideoFromServer` ends. */
  datatype Outcome =
    | Thrown            // the search of `serverOptions` threw before the try block
    | OwnUrl(url: Json) // the listed server's own `url`, with no request
    | Loaded(url: Json) // the URL read from the server-data answer
    | Failed(message: string)

  /**
   * The outcome of `loadVideoFromServer(id)` (src/components/VideoPlayer.jsx:25-66),
   * given the server list and what the server-data endpoint answers.
   */
  function LoadOutcome(id: Json, serverOptions: seq<Json>, answer: Api.Endpoint -> Result<Json>): (r: Outcome)
    ensures r.Thrown? <==> Find(serverOptions, HasId(id)).Err?
    ensures r.OwnUrl? <==> Find(serverOptions, HasId(id)).Ok? && Find(serverOptions, HasId(id)).value.Some? &&
                           Truthy(Get(serverOptions[Find(serverOptions, HasId(id)).value.value], "url"))
    ensures r.OwnUrl? ==> Truthy(r.url) && exists k :: 0 <= k < |serverOptions| && Get(serverOptions[k], "id") == id &&
                                                   r.url == Get(serverOptions[k], "url")
    ensures r.Loaded? ==> Truthy(r.url)
    ensures r.Failed? ==> r.message in {InvalidResponse, NoVideoUrl, LoadFailed}
  {
    match Find(serverOptions, HasId(id))
    case Err(_) => Thrown
    case Ok(found) =>
      if found.Some? && Truthy(Get(serverOptions[found.value], "url")) then OwnUrl(Get(serverOptions[found.value], "url"))
      else
        match answer(Api.ServerData(id))
        case Err(_) => Failed(LoadFailed)
        case Ok(data) =>
          if !(Truthy(data) && Truthy(Get(data, "data"))) then Failed(InvalidResponse)
          else
            var url := VideoUrlOf(Get(data, "data"));
            if Truthy(url) then Loaded(url) else Failed(NoVideoUrl)
  }

  /** A listed server with its own URL is played without asking the endpoint: the answer cannot matter. */
  lemma ListedUrlNeedsNoRequest(id: Json, serverOptions: seq<Json>, f: Api.Endpoint -> Result<Json>,
                                g: Api.Endpoint -> Result<Json>)
    requires LoadOutcome(id, serverOptions, f).OwnUrl?
    ensures LoadOutcome(id, serverOptions, g) == LoadOutcome(id, serverOptions, f)
  {
  }

  /**
   * With a request made, the messages sort the failures: a rejected request,
   * an answer without `data`, and a `data` without any of the four URL fields.
   */
  lemma FailureMessages(id: Json, serverOptions: seq<Json>, answer: Api.Endpoint -> Result<Json>)
    requires Find(serverOptions, HasId(id)).Ok?
    requires var found := Find(serverOptions, HasId(id)).value;
             found.None? || !Truthy(Get(serverOptions[found.value], "url"))
    ensures answer(Api.ServerData(id)).Err? ==> LoadOutcome(id, serverOptions, answer) == Failed(LoadFailed)
    ensures answer(Api.ServerData(id)).Ok? && !Truthy(Get(answer(Api.ServerData(id)).value, "data")) ==>
              LoadOutcome(id, serverOptions, answer) == Failed(InvalidResponse)
    ensures var data := answer(Api.ServerData(id));
            data.Ok? && Truthy(Get(data.value, "data")) ==>
              LoadOutcome(id, serverOptions, answer) ==
                (if Truthy(VideoUrlOf(Get(data.value, "data"))) then Loaded(VideoUrlOf(Get(data.value, "data")))
                 else Failed(NoVideoUrl))
  {
    var data := answer(Api.ServerData(id));
    if data.Ok? && Truthy(Get(data.value, "data")) {
      assert Truthy(data.value);
    }
  }

  // ------------------------------------------------------------ rendering

  /** What the video area shows (src/components/VideoPlayer.jsx:72-120). */
  datatype View = Spinner | ErrorBox(message: string) | Markup(html: Json) | Frame(src: Json) | Prompt

  /**
   * `videoUrl.includes('<iframe') || videoUrl.includes('<script')`: a string
   * is searched for either marker, an array for either marker as an element,
   * and any other value has no `includes` and throws.
   */
  function IsMarkup(videoUrl: Json): (r: Result<bool>)
    ensures r.Err? <==> !videoUrl.Str? && !videoUrl.Arr?
    ensures videoUrl.Str? ==> r == Ok(Contains(videoUrl.s, "<iframe") || Contains(videoUrl.s, "<script"))
  {
    match videoUrl
    case Str(s) => Ok(Contains(s, "<iframe") || Contains(s, "<script"))
    case Arr(items) => Ok(Str("<iframe") in items || Str("<script") in items)
    case _ => Err(TypeErrorText)
  }

  /**
   * `renderVideoContent()`: loading first, then an error, then a URL, as
   * markup when it carries a frame or script tag and as a frame source
   * otherwise, and the prompt to pick a server when there is no URL.
   */
  function Render(loading: bool, error: Option<string>, videoUrl: Json): (r: Result<View>)
    ensures loading ==> r == Ok(Spinner)
    ensures !loading && error.Some? && error.value != "" ==> r == Ok(ErrorBox(error.value))
    ensures !loading && (error.None? || error.value == "") && !Truthy(videoUrl) ==> r == Ok(Prompt)
    ensures !loading && (error.None? || error.value == "") && videoUrl.Str? && videoUrl.s != "" ==>
              r == Ok(if Contains(videoUrl.s, "<iframe") || Contains(videoUrl.s, "<script")
                      then Markup(videoUrl) else Frame(videoUrl))
    ensures r.Err? <==> !loading && (error.None? || error.value == "") && Truthy(videoUrl) && IsMarkup(videoUrl).Err?
  {
    if loading then Ok(Spinner)
    else if error.Some? && error.value != "" then Ok(ErrorBox(error.value))
    else if Truthy(videoUrl) then
      match IsMarkup(videoUrl)
      case Err(e) => Err(e)
      case Ok(true) => Ok(Markup(videoUrl))
      case Ok(false) => Ok(Frame(videoUrl))
    else Ok(Prompt)
  }

  // ------------------------------------------------------------- state

  /** The state `EnhancedVideoPlayer` keeps (src/components/VideoPlayer.jsx:7-10) and what it reported. */
  class Player {
    var selectedServerId: Json
    var loading: bool
    var error: Option<string>
    var videoUrl: Json
    var reported: seq<string>

    constructor (serverId: Json)
      ensures selectedServerId == serverId && !loading && error.None? && videoUrl == Null && reported == []
    {
      selectedServerId := serverId;
      loading := false;
      error := None;
      videoUrl := Null;
      reported := [];
    }

    /** What the video area shows now: the spinner while loading, then a stored error, then the URL or the prompt. */
    function View(): (r: Result<View>)
      reads this
      ensures loading ==> r == Ok(Spinner)
      ensures !loading && error.Some? && error.value != "" ==> r == Ok(ErrorBox(error.value))
      ensures !loading && (error.None? || error.value == "") && !Truthy(videoUrl) ==> r == Ok(Prompt)
    {
      Render(loading, error, videoUrl)
    }

    /**
     * The state `loadVideoFromServer(id)` leaves, against the state it
     * started from, for each way the load ends.
     */
    twostate predicate LoadedFrom(id: Json, serverOptions: seq<Json>, hasOnError: bool,
                                  answer: Api.Endpoint -> Result<Json>)
      reads this
    {
      match LoadOutcome(id, serverOptions, answer)
      case Thrown =>
        loading == old(loading) && error == old(error) && videoUrl == old(videoUrl) && reported == old(reported)
      case OwnUrl(url) =>
        loading == old(loading) && error == old(error) && videoUrl == url && reported == old(reported)
      case Loaded(url) =>
        !loading && error.None? && videoUrl == url && reported == old(reported)
      case Failed(m) =>
        && !loading && error == Some(m) && videoUrl == old(videoUrl)
        && reported == old(reported) + (if hasOnError then [m] else [])
    }

    /**
     * `loadVideoFromServer(id)` run to its end (src/components/VideoPlayer.jsx:25-66).
     * A listed server's own URL is taken without touching `loading` or
     * `error`, so an earlier error stays in place; every failure is stored
     * and, when an `onError` callback was given, reported once.
     */
    method LoadVideoFromServer(id: Json, serverOptions: seq<Json>, hasOnError: bool,
                               answer: Api.Endpoint -> Result<Json>)
      modifies this
      ensures selectedServerId == old(selectedServerId)
      ensures LoadedFrom(id, serverOptions, hasOnError, answer)
    {
      var selected := Find(serverOptions, HasId(id));
      if selected.Err? {
        return;
      }
      if selected.value.Some? && Truthy(Get(serverOptions[selected.value.value], "url")) {
        videoUrl := Get(serverOptions[selected.value.value], "url");
        return;
      }
      loading := true;
      error := None;
      var data := answer(Api.ServerData(id));
      var errorMsg: Option<string> := None;
      if data.Err? {
        errorMsg := Some(LoadFailed);
      } else if Truthy(data.value) && Truthy(Get(data.value, "data")) {
        var url := VideoUrlOf(Get(data.value, "data"));
        if Truthy(url) {
          videoUrl := url;
        } else {
          errorMsg := Some(NoVideoUrl);
        }
      } else {
        errorMsg := Some(InvalidResponse);
      }
      if errorMsg.Some? {
        error := errorMsg;
        if hasOnError {
          reported := reported + [errorMsg.value];
        }
      }
      loading := false;
    }

    /**
     * The effect's first run after mounting (src/components/VideoPlayer.jsx:12-16):
     * the initial selection is loaded when it is truthy.
     */
    method Mount(serverOptions: seq<Json>, hasOnError: bool, answer: Api.Endpoint -> Result<Json>)
      modifies this
      ensures selectedServerId == old(selectedServerId)
      ensures !Truthy(selectedServerId) ==>
                loading == old(loading) && error == old(error) && videoUrl == old(videoUrl) && reported == old(reported)
      ensures Truthy(selectedServerId) ==> LoadedFrom(selectedServerId, serverOptions, hasOnError, answer)
    {
      if Truthy(selectedServerId) {
        LoadVideoFromServer(selectedServerId, serverOptions, hasOnError, answer);
      }
    }

    /**
     * Selecting a server (src/components/VideoPlayer.jsx:68-70) and the effect
     * that follows (12-16): the video is loaded again only when the selection
     * changed to a truthy id.
     */
    method HandleServerChange(id: Json, serverOptions: seq<Json>, hasOnError: bool,
                              answer: Api.Endpoint -> Result<Json>)
      modifies this
      ensures selectedServerId == id
      ensures !(Truthy(id) && id != old(selectedServerId)) ==>
                loading == old(loading) && error == old(error) && videoUrl == old(videoUrl) && reported == old(reported)
      ensures Truthy(id) && id != old(selectedServerId) ==> LoadedFrom(id, serverOptions, hasOnError, answer)
    {
      var changed := id != selectedServerId;
      selectedServerId := id;
      if changed && Truthy(id) {
        LoadVideoFromServer(id, serverOptions, hasOnError, answer);
      }
    }

    /**
     * A new `serverId` prop (src/components/VideoPlayer.jsx:18-23): a truthy
     * id different from the selection replaces it and is loaded; anything
     * else changes nothing.
     */
    method ServerIdPropChanged(serverId: Json, serverOptions: seq<Json>, hasOnError: bool,
                               answer: Api.Endpoint -> Result<Json>)
      modifies this
      ensures Truthy(serverId) ==> selectedServerId == serverId
      ensures Truthy(serverId) && serverId != old(selectedServerId) ==> LoadedFrom(serverId, serverOptions, hasOnError, answer)
      ensures serverId == old(selectedServerId) ==>
                loading == old(loading) && error == old(error) && videoUrl == old(videoUrl) && reported == old(reported)
      ensures !Truthy(serverId) ==>
                selectedServerId == old(selectedServerId) && loading == old(loading) && error == old(error) &&
                videoUrl == old(videoUrl) && reported == old(reported)
    {
      if Truthy(serverId) && serverId != selectedServerId {
        HandleServerChange(serverId, serverOptions, hasOnError, answer);
      }
    }
  }

  /**
   * Once a load has finished with a URL and no error is left, the video area
   * shows that URL, as markup or as a frame; a failed load shows its message.
   */
  lemma LoadedUrlIsShown(url: Json, m: string)
    requires url.Str? && url.s != "" && m != ""
    ensures Render(false, None, url).Ok? && Render(false, None, url).value in {Markup(url), Frame(url)}
    ensures Render(false, Some(m), url) == Ok(ErrorBox(m))
  {
  }
}
