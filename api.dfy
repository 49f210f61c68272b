/**
 * src/services/api.js: how one HTTP exchange becomes parsed JSON, a text
 * wrapper or an error; the bounded retry with growing back-off; the endpoint
 * builders and their argument checks; and the batch-download fallback chain.
 * The network is an input: each attempt's `Exchange` is given, and the back-off
 * waits are returned instead of slept.
 */
module Api {
  import opened Js

  /**
   * What reading a response body gives: `response.text()` rejecting, or the
   * text together with what `JSON.parse` makes of it (`Err` carries the
   * SyntaxError's message): `parsed` is the outcome on the whole text, as
   * `response.json()` and `JSON.parse(text)` see it, and `trimmedParsed` the
   * outcome of `JSON.parse(text.trim())`. The two differ when the text starts
   * or ends with white space that `trim()` removes and JSON does not allow
   * (a no-break space, a line separator, a byte-order mark).
   */
  datatype Body =
    | Unreadable(reason: string)
    | Text(text: string, parsed: Result<Json>, trimmedParsed: Result<Json>)

  /** A received response; `contentType` is `headers.get('content-type')` (None for null). */
  datatype Response = Response(status: int, statusText: string, contentType: Option<string>, body: Body)

  /** One attempt of `fetch`: it rejects (with the error's message) or yields a response. */
  datatype Exchange =
    | NetworkError(message: string)
    | Answered(response: Response)

  /** `response.ok` */
  predicate IsOk(r: Response) {
    200 <= r.status <= 299
  }

  /** `await response.json()` */
  function ReadJson(b: Body): Result<Json> {
    match b
    case Unreadable(m) => Err(m)
    case Text(_, parsed, _) => parsed
  }

  /** `text.trim().startsWith('{') || text.trim().startsWith('[')` */
  predicate LooksLikeJson(text: string) {
    var t := TrimStart(text);
    |t| > 0 && (t[0] == '{' || t[0] == '[')
  }

  /** `contentType && contentType.includes('application/json')` */
  predicate DeclaresJson(contentType: Option<string>) {
    contentType.Some? && Contains(contentType.value, "application/json")
  }

  /** `{ success: true, text }` */
  function TextWrapper(text: string): Json {
    Obj([("success", Bool(true)), ("text", Str(text))])
  }

  /**
   * The error detail of a failed response (src/services/api.js:15-21): the
   * body's `message`, else its `error`, else its JSON text; the status text
   * when the body is not JSON or is null (reading `.message` of null throws).
   */
  function ErrorDetail(r: Response): string {
    match ReadJson(r.body)
    case Err(_) => r.statusText
    case Ok(d) =>
      if Nullish(d) then r.statusText
      else Display(Coalesce([Get(d, "message"), Get(d, "error")], Str(Stringify(d))))
  }

  function ApiError(status: int, detail: string): string {
    "API Error (" + IntToString(status) + "): " + detail
  }

  /** `url.split('/').slice(-2).join('/')`: the last two '/'-separated segments. */
  function LastTwoSegments(url: string): (r: string) {
    var parts := Split(url, '/');
    Join(parts[if |parts| >= 2 then |parts| - 2 else 0..], "/")
  }

  /** The context every transport failure is rewrapped with (src/services/api.js:60). */
  function RequestFailed(url: string, message: string): string {
    "Request failed for " + LastTwoSegments(url) + ": " + message
  }

  /** `fetchWithErrorHandling(url)` given the outcome of its one `fetch`. */
  function FetchWithErrorHandling(url: string, ex: Exchange): (r: Result<Json>)
    ensures r.Err? ==> StartsWith(r.error, "Request failed for " + LastTwoSegments(url) + ": ")
    ensures ex.NetworkError? ==> r == Err(RequestFailed(url, ex.message))
    ensures ex.Answered? && !IsOk(ex.response) ==>
              r == Err(RequestFailed(url, ApiError(ex.response.status, ErrorDetail(ex.response))))
    ensures ex.Answered? && IsOk(ex.response) && DeclaresJson(ex.response.contentType) ==>
              (r.Ok? <==> ReadJson(ex.response.body).Ok?) &&
              (r.Ok? ==> r == ReadJson(ex.response.body))
    ensures ex.Answered? && IsOk(ex.response) && !DeclaresJson(ex.response.contentType) &&
            ex.response.body.Text? ==>
              var b := ex.response.body;
              r == if LooksLikeJson(b.text) && b.parsed.Ok? then b.parsed else Ok(TextWrapper(b.text))
  {
    match ex
    case NetworkError(m) => Err(RequestFailed(url, m))
    case Answered(resp) =>
      if !IsOk(resp) then Err(RequestFailed(url, ApiError(resp.status, ErrorDetail(resp))))
      else if DeclaresJson(resp.contentType) then
        match ReadJson(resp.body)
        case Ok(d) => Ok(d)
        case Err(e) => Err(RequestFailed(url, "Failed to parse JSON response: " + e))
      else
        match resp.body
        case Unreadable(m) => Err(RequestFailed(url, m))
        case Text(text, parsed, _) =>
          if LooksLikeJson(text) && parsed.Ok? then parsed else Ok(TextWrapper(text))
  }

  /** The segments quoted in a rewrapped error are a suffix of the URL holding at most one '/'. */
  lemma LastTwoSegmentsIsSuffix(url: string)
    ensures var r := LastTwoSegments(url);
            |r| <= |url| && r == url[|url| - |r|..] &&
            forall i, j :: 0 <= i < j < |r| && r[i] == '/' ==> r[j] != '/'
  {
    var parts := Split(url, '/');
    var from := if |parts| >= 2 then |parts| - 2 else 0;
    SplitJoin(url, '/');
    JoinSuffix(parts, from, "/");
    var r := LastTwoSegments(url);
    if |parts| >= 2 {
      assert r == parts[|parts| - 2] + ['/'] + parts[|parts| - 1] by {
        assert parts[from..] == [parts[|parts| - 2], parts[|parts| - 1]];
      }
      var n := |parts[|parts| - 2]|;
      assert '/' !in parts[|parts| - 2];
      assert '/' !in parts[|parts| - 1];
      assert forall k :: 0 <= k < n ==> r[k] == parts[|parts| - 2][k];
      assert forall k :: n < k < |r| ==> r[k] == parts[|parts| - 1][k - n - 1];
    } else {
      assert parts[from..] == parts;
    }
  }

  /** Joining a suffix of the parts gives a suffix of the joined string. */
  lemma {:induction false} JoinSuffix(parts: seq<string>, from: nat, sep: string)
    requires from <= |parts|
    ensures var whole := Join(parts, sep);
            var tail := Join(parts[from..], sep);
            |tail| <= |whole| && tail == whole[|whole| - |tail|..]
  {
    if from > 0 {
      JoinSuffix(parts[1..], from - 1, sep);
      assert parts[1..][from - 1..] == parts[from..];
      if |parts| > 1 {
        assert Join(parts, sep) == parts[0] + sep + Join(parts[1..], sep);
      } else {
        assert parts[from..] == [];
      }
    }
  }

  /** The `i`-th wait of a back-off that starts at `delay` and grows by half each time. */
  function Backoff(delay: real, i: nat): real
    decreases i
  {
    if i == 0 then delay else Backoff(delay * 1.5, i - 1)
  }

  /** Each wait is one and a half times the one before. */
  lemma {:induction false} BackoffGrows(delay: real, i: nat)
    ensures Backoff(delay, i + 1) == Backoff(delay, i) * 1.5
    decreases i
  {
    if i > 0 {
      BackoffGrows(delay * 1.5, i - 1);
    }
  }

  /** How a `fetchWithRetry` call ended: its result, how many fetches it made and the waits between them (ms). */
  datatype RetryRun = RetryRun(result: Result<Json>, attempts: nat, waits: seq<real>)

  /** The result of each fetch of `url`, given the outcome of each fetch. */
  function Attempts(url: string, outcome: nat -> Exchange): nat -> Result<Json> {
    (i: nat) => FetchWithErrorHandling(url, outcome(i))
  }

  /**
   * `fetchWithRetry(url, options, retries, delay)`, whose fetches yield
   * `attempt(first)`, `attempt(first + 1)`, ...: it returns the first
   * success, or rethrows the last error once `retries` reaches 0, waiting
   * `delay`, `1.5·delay`, ... between fetches.
   */
  function FetchWithRetry(attempt: nat -> Result<Json>, first: nat, retries: int, delay: real): (run: RetryRun)
    ensures 1 <= run.attempts <= (if retries < 0 then 0 else retries) + 1
    ensures run.result == attempt(first + run.attempts - 1)
    ensures forall i :: first <= i < first + run.attempts - 1 ==> attempt(i).Err?
    ensures run.result.Err? ==> run.attempts == (if retries < 0 then 0 else retries) + 1
    ensures |run.waits| == run.attempts - 1
    ensures forall i :: 0 <= i < |run.waits| ==> run.waits[i] == Backoff(delay, i)
    decreases if retries < 0 then 0 else retries
  {
    var r := attempt(first);
    if r.Ok? || retries <= 0 then RetryRun(r, 1, [])
    else
      var rest := FetchWithRetry(attempt, first + 1, retries - 1, delay * 1.5);
      var waits := [delay] + rest.waits;
      assert forall i :: 1 <= i < |waits| ==> waits[i] == rest.waits[i - 1];
      RetryRun(rest.result, rest.attempts + 1, waits)
  }

  /** With the defaults (2 retries, 1000 ms) a request makes at most 3 fetches, waiting 1000 ms then 1500 ms. */
  lemma DefaultRetryBound(url: string, outcome: nat -> Exchange)
    ensures var run := FetchWithRetry(Attempts(url, outcome), 0, 2, 1000.0);
            run.attempts <= 3 &&
            (run.result.Err? ==> run.attempts == 3 && run.waits == [1000.0, 1500.0])
  {
    var run := FetchWithRetry(Attempts(url, outcome), 0, 2, 1000.0);
    if run.result.Err? {
      assert run.waits[0] == Backoff(1000.0, 0);
      assert run.waits[1] == Backoff(1000.0, 1);
    }
  }

  /** A fetch that always fails is made exactly `retries + 1` times, and the last error surfaces. */
  lemma AlwaysFailingRetries(attempt: nat -> Result<Json>, retries: nat, delay: real)
    requires forall i :: attempt(i).Err?
    ensures FetchWithRetry(attempt, 0, retries, delay).attempts == retries + 1
    ensures FetchWithRetry(attempt, 0, retries, delay).result == attempt(retries)
  {
  }

  // ------------------------------------------------------------- endpoints

  const DefaultApiUrl: string := "https://animek-api-rho.vercel.app"

  /** `import.meta.env.VITE_API_URL || 'https://animek-api-rho.vercel.app'` */
  function ApiUrl(env: string): string {
    if env != "" then env else DefaultApiUrl
  }

  /** The endpoints src/services/api.js builds URLs for, with their arguments. */
  datatype Endpoint =
    | HomeData
    | RecentAnime(page: Json)
    | PopularAnime(page: Json)
    | SearchAnime(query: Json, page: Json)
    | AnimeDetails(animeId: Json)
    | EpisodeData(episodeId: Json)
    | ServerData(serverId: Json)
    | OngoingAnime(page: Json, order: Json)
    | CompletedAnime(page: Json, order: Json)
    | AnimeMovies(page: Json)
    | AnimeByGenre(genreId: Json, page: Json)
    | AllGenres
    | AllAnime
    | AnimeSchedule
    | BatchDownload(batchId: Json)
    | BatchList(page: Json)

  /** The argument an endpoint refuses to be called without, if it has one. */
  function RequiredArgument(e: Endpoint): Option<(Json, string)> {
    match e
    case SearchAnime(q, _) => Some((q, "Search query is required"))
    case AnimeDetails(id) => Some((id, "Anime ID is required"))
    case EpisodeData(id) => Some((id, "Episode ID is required"))
    case ServerData(id) => Some((id, "Server ID is required"))
    case AnimeByGenre(id, _) => Some((id, "Genre ID is required"))
    case BatchDownload(id) => Some((id, "Batch ID is required"))
    case _ => None
  }

  /** A default parameter (`page = 1`, `order = 'title'`): it applies when the argument is undefined, and only then. */
  function Defaulted(arg: Json, default: Json): (r: Json)
    ensures arg.Undefined? ==> r == default
    ensures !arg.Undefined? ==> r == arg
  {
    if arg.Undefined? then default else arg
  }

  /** `${page}` of a `page = 1` parameter. */
  function PageText(p: Json): string {
    Display(Defaulted(p, Num(1)))
  }

  /** `${order}` of an `order = 'title'` parameter. */
  function OrderText(o: Json): string {
    Display(Defaulted(o, Str("title")))
  }

  /** The path of an endpoint below `<API base>/samehadaku/`; `encode` is `encodeURIComponent`. */
  function Route(e: Endpoint, encode: string -> string): string {
    match e
    case HomeData => "home"
    case RecentAnime(p) => "recent?page=" + PageText(p)
    case PopularAnime(p) => "popular?page=" + PageText(p)
    case SearchAnime(q, p) => "search?q=" + encode(Display(q)) + "&page=" + PageText(p)
    case AnimeDetails(id) => "anime/" + Display(id)
    case EpisodeData(id) => "episode/" + Display(id)
    case ServerData(id) => "server/" + Display(id)
    case OngoingAnime(p, o) => "ongoing?page=" + PageText(p) + "&order=" + OrderText(o)
    case CompletedAnime(p, o) => "completed?page=" + PageText(p) + "&order=" + OrderText(o)
    case AnimeMovies(p) => "movies?page=" + PageText(p)
    case AnimeByGenre(id, p) => "genres/" + Display(id) + "?page=" + PageText(p)
    case AllGenres => "genres"
    case AllAnime => "anime"
    case AnimeSchedule => "schedule"
    case BatchDownload(id) => "batch/" + Display(id)
    case BatchList(p) => "batch?page=" + PageText(p)
  }

  /** Omitted arguments take their defaults: the first page, ordered by title; null is passed through as "null". */
  lemma OmittedArgumentsDefault(encode: string -> string)
    ensures Route(RecentAnime(Undefined), encode) == "recent?page=1"
    ensures Route(OngoingAnime(Undefined, Undefined), encode) == "ongoing?page=1&order=title"
    ensures Route(CompletedAnime(Num(2), Undefined), encode) == "completed?page=2&order=title"
    ensures Route(AnimeMovies(Null), encode) == "movies?page=null"
  {
    DigitText(1);
    DigitText(2);
    OrderedRoutes(encode);
    assert PageText(Undefined) == "1";
    assert PageText(Null) == "null";
  }

  lemma OrderedRoutes(encode: string -> string)
    ensures Route(OngoingAnime(Undefined, Undefined), encode) == "ongoing?page=1&order=title"
    ensures Route(CompletedAnime(Num(2), Undefined), encode) == "completed?page=2&order=title"
  {
    DigitText(1);
    DigitText(2);
    OrderedRoute(encode, "ongoing?page=", Undefined, "1");
    OrderedRoute(encode, "completed?page=", Num(2), "2");
  }

  lemma OrderedRoute(encode: string -> string, path: string, page: Json, pageText: string)
    requires path == "ongoing?page=" || path == "completed?page="
    requires PageText(page) == pageText
    ensures path == "ongoing?page=" ==> Route(OngoingAnime(page, Undefined), encode) == path + pageText + "&order=title"
    ensures path == "completed?page=" ==> Route(CompletedAnime(page, Undefined), encode) == path + pageText + "&order=title"
  {
    assert OrderText(Undefined) == "title";
  }

  lemma DigitText(d: nat)
    requires d < 10
    ensures Display(Num(d)) == [DigitChar(d)] && DigitChar(d) == "0123456789"[d]
  {
  }

  /**
   * The URL an endpoint function requests, or the error it throws before any
   * request when its required argument is missing.
   */
  function Url(base: string, e: Endpoint, encode: string -> string): (r: Result<string>)
    ensures r.Err? <==> RequiredArgument(e).Some? && !Truthy(RequiredArgument(e).value.0)
    ensures r.Err? ==> r.error == RequiredArgument(e).value.1
    ensures r.Ok? ==> StartsWith(r.value, base + "/samehadaku/")
  {
    var req := RequiredArgument(e);
    if req.Some? && !Truthy(req.value.0) then Err(req.value.1)
    else
      var prefix := base + "/samehadaku/";
      var url := prefix + Route(e, encode);
      assert url[..|prefix|] == prefix;
      Ok(url)
  }

  // -------------------------------------------------- batch download fallback

  const PlaceholderMessage: string := "Batch download belum tersedia untuk anime ini."
  const EpisodeNote: string := "Batch tidak tersedia. Menampilkan download untuk episode terakhir."

  /** The placeholder returned when neither the batch endpoint nor the details carry links (src/services/api.js:223-235). */
  function Placeholder(details: Json): Json {
    var title := Or(Get(details, "title"), Str("Unknown Anime"));
    Obj([
      ("data", PlaceholderData(title, Coalesce([Get(details, "poster"), Get(details, "thumbnail")], Str("")),
                               Or(Get(details, "status"), Str("Completed")), Or(Get(details, "type"), Str("TV")))),
      ("title", title),
      ("batchAvailable", Bool(false))])
  }

  /** The `data` part of the placeholder, with the title, poster, status and type it shows. */
  function PlaceholderData(title: Json, poster: Json, status: Json, kind: Json): Json {
    Obj([
      ("title", title),
      ("poster", poster),
      ("status", status),
      ("type", kind),
      ("downloadLinks", Arr([])),
      ("batchAvailable", Bool(false)),
      ("message", Str(PlaceholderMessage))])
  }

  /** The id of the first listed episode when the details list episodes and it has one (src/services/api.js:191-197). */
  function FirstEpisodeId(details: Json): Option<Json> {
    var eps := Get(details, "episodes");
    if Truthy(details) && NonEmptyArray(eps) && Truthy(eps.items[0]) && Truthy(Get(eps.items[0], "id"))
    then Some(Get(eps.items[0], "id"))
    else None
  }

  /** Which source the fallback answers from. */
  datatype FallbackSource = FromBatch | FromDownloads | FromEpisode | FromPlaceholder | DetailsUnusable

  /** The precedence of the fallback: `details.batch`, `details.downloads`, the first episode's downloads, the placeholder. */
  function FallbackSourceOf(details: Json, episode: Result<Json>): FallbackSource {
    if Truthy(details) && Truthy(Get(details, "batch")) then FromBatch
    else if Truthy(details) && Truthy(Get(details, "downloads")) then FromDownloads
    else if FirstEpisodeId(details).Some? && episode.Ok? && Truthy(episode.value) &&
            Truthy(Get(episode.value, "downloads")) then FromEpisode
    else if Nullish(details) then DetailsUnusable
    else FromPlaceholder
  }

  /**
   * `getBatchDownload(batchId)` of src/services/api.js, given the outcomes of
   * its requests: the batch endpoint, the anime details and (when the details
   * list an episode with an id) that episode's data.
   */
  function GetBatchDownload(batchId: Json, primary: Result<Json>, details: Result<Json>, episode: Result<Json>): (r: Result<Json>)
    ensures !Truthy(batchId) ==> r == Err("Batch ID is required")
    ensures Truthy(batchId) && primary.Ok? ==> r == primary
    ensures r.Err? ==> r.error == "Batch ID is required" || StartsWith(r.error, "Batch download not available: ")
    ensures Truthy(batchId) && primary.Err? && details.Err? ==> r == Err("Batch download not available: " + details.error)
    ensures Truthy(batchId) && primary.Err? && details.Ok? ==>
              var d := details.value;
              var title := Get(d, "title");
              var poster := Or(Get(d, "poster"), Get(d, "thumbnail"));
              var hasBatch := Truthy(d) && Truthy(Get(d, "batch"));
              var hasDownloads := Truthy(d) && Truthy(Get(d, "downloads"));
              var hasEpisode := FirstEpisodeId(d).Some? && episode.Ok? && Truthy(episode.value) && Truthy(Get(episode.value, "downloads"));
              && (hasBatch ==> r == Ok(Obj([("data", Get(d, "batch")), ("title", title)])))
              && (!hasBatch && hasDownloads ==>
                    r == Ok(Obj([("data", Obj([("title", title), ("poster", poster), ("downloadLinks", Get(d, "downloads"))])),
                                 ("title", title)])))
              && (!hasBatch && !hasDownloads && hasEpisode ==>
                    r == Ok(Obj([("data", Obj([("title", title), ("poster", poster),
                                               ("downloadLinks", Get(episode.value, "downloads")),
                                               ("episodeSource", FirstEpisodeId(d).value),
                                               ("note", Str(EpisodeNote))])),
                                 ("title", title)])))
              && (!hasBatch && !hasDownloads && !hasEpisode && Nullish(d) ==>
                    r == Err("Batch download not available: " + TypeErrorText))
              && (!hasBatch && !hasDownloads && !hasEpisode && !Nullish(d) ==> r == Ok(Placeholder(d)))
  {
    if !Truthy(batchId) then Err("Batch ID is required")
    else if primary.Ok? then primary
    else
      match details
      case Err(m) => Err("Batch download not available: " + m)
      case Ok(d) =>
        var title := Get(d, "title");
        var poster := Or(Get(d, "poster"), Get(d, "thumbnail"));
        match FallbackSourceOf(d, episode)
        case FromBatch => Ok(Obj([("data", Get(d, "batch")), ("title", title)]))
        case FromDownloads =>
          Ok(Obj([("data", Obj([("title", title), ("poster", poster), ("downloadLinks", Get(d, "downloads"))])),
                  ("title", title)]))
        case FromEpisode =>
          Ok(Obj([("data", Obj([("title", title), ("poster", poster),
                                ("downloadLinks", Get(episode.value, "downloads")),
                                ("episodeSource", FirstEpisodeId(d).value),
                                ("note", Str(EpisodeNote))])),
                  ("title", title)]))
        case DetailsUnusable => Err("Batch download not available: " + TypeErrorText)
        case FromPlaceholder => Ok(Placeholder(d))
  }

  /** The placeholder reports no batch: `batchAvailable` false, and it always has a title. */
  lemma PlaceholderUnavailable(details: Json)
    ensures Get(Placeholder(details), "batchAvailable") == Bool(false)
    ensures Truthy(Get(Placeholder(details), "title"))
  {
    var p := Placeholder(details);
    assert Get(p, "batchAvailable") == Bool(false) by { LookupAt(p.fields, "batchAvailable", 2); }
    assert Get(p, "title") == p.fields[1].1 by { LookupAt(p.fields, "title", 1); }
  }

  /** The placeholder's data holds no download links and says so. */
  lemma PlaceholderDataEmpty(details: Json)
    ensures Get(Get(Placeholder(details), "data"), "downloadLinks") == Arr([])
    ensures Get(Get(Placeholder(details), "data"), "batchAvailable") == Bool(false)
  {
    var p := Placeholder(details);
    LookupAt(p.fields, "data", 0);
    PlaceholderDataFields(Or(Get(details, "title"), Str("Unknown Anime")),
                          Coalesce([Get(details, "poster"), Get(details, "thumbnail")], Str("")),
                          Or(Get(details, "status"), Str("Completed")), Or(Get(details, "type"), Str("TV")));
  }

  lemma PlaceholderDataFields(title: Json, poster: Json, status: Json, kind: Json)
    ensures Get(PlaceholderData(title, poster, status, kind), "downloadLinks") == Arr([])
    ensures Get(PlaceholderData(title, poster, status, kind), "batchAvailable") == Bool(false)
  {
    var fields := PlaceholderData(title, poster, status, kind).fields;
    LookupAt(fields, "downloadLinks", 4);
    LookupAt(fields, "batchAvailable", 5);
  }

  /** A failed episode request is swallowed: the answer is the same as if the episode had no downloads. */
  lemma EpisodeErrorSwallowed(batchId: Json, primary: Result<Json>, details: Result<Json>, m: string)
    ensures GetBatchDownload(batchId, primary, details, Err(m)) == GetBatchDownload(batchId, primary, details, Ok(Null))
  {
  }

  /** When the details carry a batch, the answer wraps that batch, whatever the episodes hold. */
  lemma BatchBeatsEpisodes(batchId: Json, details: Json, m: string, e1: Result<Json>, e2: Result<Json>)
    requires Truthy(batchId) && Truthy(details) && Truthy(Get(details, "batch"))
    ensures GetBatchDownload(batchId, Err(m), Ok(details), e1) == GetBatchDownload(batchId, Err(m), Ok(details), e2)
    ensures Get(GetBatchDownload(batchId, Err(m), Ok(details), e1).value, "data") == Get(details, "batch")
  {
  }
}
