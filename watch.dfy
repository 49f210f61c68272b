/**
 * src/pages/Watch.jsx: the episode page. It loads the episode and its parent
 * anime, sets the document title, picks the server to start with, and turns
 * a chosen server into the URL the player gets. The answers of the episode,
 * parent-anime and stream-link requests are inputs; `document.title` is a
 * field of the page.
 */
module Watch {
  import opened Js

  // ------------------------------------------------------ server choice

  /**
   * The test `find` applies to one server (src/pages/Watch.jsx:58): its type
   * is 'direct_link', or its name contains "direct" in any case. Reading a
   * property of a null server, or lower-casing a name that is not a string,
   * throws.
   */
  function IsDirect(server: Json): (r: Result<bool>)
    ensures r.Err? <==> Nullish(server) ||
                        (Get(server, "type") != Str("direct_link") && Truthy(Get(server, "name")) && !Get(server, "name").Str?)
    ensures Get(server, "type") == Str("direct_link") && !Nullish(server) ==> r == Ok(true)
    ensures Get(server, "name").Str? && !Nullish(server) && Get(server, "type") != Str("direct_link") ==>
              r == Ok(Contains(ToLower(Get(server, "name").s), "direct"))
  {
    if Nullish(server) then Err(TypeErrorText)
    else if Get(server, "type") == Str("direct_link") then Ok(true)
    else
      var name := Get(server, "name");
      if !Truthy(name) then Ok(false)
      else if name.Str? then Ok(Contains(ToLower(name.s), "direct"))
      else Err(TypeErrorText)
  }

  /**
   * `servers.find(...) || servers[0]` for a non-empty list
   * (src/pages/Watch.jsx:58): the first direct server, else the first one.
   */
  function PreferredServer(servers: seq<Json>): (r: Result<Json>)
    requires |servers| > 0
    ensures r.Err? <==> exists k :: 0 <= k < |servers| && IsDirect(servers[k]).Err? &&
                                   forall j :: 0 <= j < k ==> IsDirect(servers[j]) == Ok(false)
    ensures (forall j :: 0 <= j < |servers| ==> IsDirect(servers[j]) == Ok(false)) ==> r == Ok(servers[0])
    ensures r.Ok? && r.value != servers[0] ==> IsDirect(r.value) == Ok(true)
    ensures r.Ok? && IsDirect(r.value) == Ok(true) ==> exists k :: 0 <= k < |servers| && r.value == servers[k] &&
                                                           forall j :: 0 <= j < k ==> IsDirect(servers[j]) == Ok(false)
  {
    match Find(servers, IsDirect)
    case Err(e) => Err(e)
    case Ok(None) => Ok(servers[0])
    case Ok(Some(k)) => Ok(servers[k])
  }

  /**
   * The server the load starts with (src/pages/Watch.jsx:57-58): None when
   * the episode has no non-empty `servers`, else the preferred server or the
   * error choosing it throws (`find` is missing on a non-array).
   */
  function StartingServer(epData: Json): (r: Option<Result<Json>>)
    ensures r.None? <==> !(Truthy(epData) && Truthy(Get(epData, "servers")) && LengthPositive(Get(epData, "servers")))
    ensures r.Some? && !Get(epData, "servers").Arr? ==> r.value == Err(TypeErrorText)
    ensures r.Some? && Get(epData, "servers").Arr? ==>
              |Get(epData, "servers").items| > 0 && r.value == PreferredServer(Get(epData, "servers").items)
  {
    var servers := Get(epData, "servers");
    if !(Truthy(epData) && Truthy(servers) && LengthPositive(servers)) then None
    else if servers.Arr? then Some(PreferredServer(servers.items))
    else Some(Err(TypeErrorText))
  }

  // ------------------------------------------------------ titles and ids

  /** `epData?.anime?.id || epData?.anime_id || epData?.animeId` (src/pages/Watch.jsx:33). */
  function ParentAnimeId(epData: Json): (r: Json)
    ensures Truthy(r) <==> Truthy(Get(Get(epData, "anime"), "id")) || Truthy(Get(epData, "anime_id")) ||
                           Truthy(Get(epData, "animeId"))
    ensures Truthy(Get(Get(epData, "anime"), "id")) ==> r == Get(Get(epData, "anime"), "id")
    ensures !Truthy(Get(Get(epData, "anime"), "id")) && Truthy(Get(epData, "anime_id")) ==> r == Get(epData, "anime_id")
    ensures !Truthy(Get(Get(epData, "anime"), "id")) && !Truthy(Get(epData, "anime_id")) ==> r == Get(epData, "animeId")
  {
    Or(Get(Get(epData, "anime"), "id"), Or(Get(epData, "anime_id"), Get(epData, "animeId")))
  }

  /** The parent-anime request of a loaded episode: None when the episode names no parent. */
  function ParentOutcome(epData: Json, animeDetailsOf: Json -> Result<Json>): (r: Option<Result<Json>>)
    ensures r.None? <==> !Truthy(ParentAnimeId(epData))
    ensures r.Some? ==> r.value == animeDetailsOf(ParentAnimeId(epData))
  {
    var parentId := ParentAnimeId(epData);
    if Truthy(parentId) then Some(animeDetailsOf(parentId)) else None
  }

  const SiteSuffix: string := " - DaunNime"

  /**
   * `document.title` once the episode has loaded (src/pages/Watch.jsx:34-54):
   * `parent` is None when the episode names no parent anime, else the
   * outcome of fetching it; `previous` is the title before.
   */
  function TitleAfterLoad(epData: Json, parent: Option<Result<Json>>, previous: string): (r: string)
    ensures Truthy(epData) && Truthy(Get(epData, "title")) ==>
              var ep := "Nonton " + Display(Get(epData, "title"));
              r == (if parent.Some? && parent.value.Ok? && Truthy(parent.value.value) &&
                       Truthy(Get(parent.value.value, "title"))
                    then ep + " - " + Display(Get(parent.value.value, "title")) + SiteSuffix
                    else ep + SiteSuffix)
    ensures !(Truthy(epData) && Truthy(Get(epData, "title"))) ==>
              r == (if parent.Some? && parent.value.Ok? then "Nonton Anime" + SiteSuffix else previous)
  {
    var hasEpTitle := Truthy(epData) && Truthy(Get(epData, "title"));
    var epPart := "Nonton " + Display(Get(epData, "title"));
    match parent
    case Some(Ok(a)) =>
      if hasEpTitle && Truthy(a) && Truthy(Get(a, "title")) then epPart + " - " + Display(Get(a, "title")) + SiteSuffix
      else if hasEpTitle then epPart + SiteSuffix
      else "Nonton Anime" + SiteSuffix
    case Some(Err(_)) => if hasEpTitle then epPart + SiteSuffix else previous
    case None => if hasEpTitle then epPart + SiteSuffix else previous
  }

  /**
   * `episodeData?.title || \`Episode ${episodeId.split('-').pop()}\``
   * (src/pages/Watch.jsx:112).
   */
  function EpisodeTitleForDisplay(episodeData: Json, episodeId: string): (r: Json)
    ensures Truthy(r)
    ensures Truthy(Get(episodeData, "title")) ==> r == Get(episodeData, "title")
  {
    var fallback := "Episode " + LastPart(episodeId, '-');
    assert |fallback| > 0 by { assert fallback[0] == 'E'; }
    Or(Get(episodeData, "title"), Str(fallback))
  }

  /**
   * Without a title the heading shows "Episode " and the part of the id after
   * its last '-': a suffix of the id containing no '-', the whole id when it
   * has none.
   */
  lemma FallbackTitleIsIdSuffix(episodeData: Json, episodeId: string)
    requires !Truthy(Get(episodeData, "title"))
    ensures EpisodeTitleForDisplay(episodeData, episodeId) == Str("Episode " + LastPart(episodeId, '-'))
    ensures var tail := LastPart(episodeId, '-');
            && '-' !in tail && |tail| <= |episodeId| && tail == episodeId[|episodeId| - |tail|..]
            && (|tail| < |episodeId| ==> episodeId[|episodeId| - |tail| - 1] == '-')
            && ('-' !in episodeId ==> tail == episodeId)
  {
    LastPartIsSuffix(episodeId, '-');
  }

  // --------------------------------------------------- server to stream

  const NoStreamUrl: string := "URL streaming tidak ditemukan dari server."
  const NoIdentifier: string := "Server identifier tidak ditemukan untuk mengambil link streaming."

  /** `server.id || server.stream_id || server.value` (src/pages/Watch.jsx:84). */
  function ServerIdentifier(server: Json): Json {
    Or(Get(server, "id"), Or(Get(server, "stream_id"), Get(server, "value")))
  }

  /** Does the server's own `url` go straight to the player (src/pages/Watch.jsx:86)? */
  predicate UsesOwnUrl(server: Json) {
    Truthy(Get(server, "url")) && (Get(server, "type") == Str("embed") || !Truthy(ServerIdentifier(server)))
  }

  /**
   * What the try block of `handleServerChange` ends with
   * (src/pages/Watch.jsx:83-97): the URL for the player, or the message of
   * the error it throws. `streamLink` is the outcome of the stream-link
   * request for an identifier.
   */
  function StreamOutcome(server: Json, streamLink: Json -> Result<Json>): (r: Result<Json>)
    ensures r.Ok? ==> Truthy(r.value)
    ensures UsesOwnUrl(server) ==> r == Ok(Get(server, "url"))
    ensures !UsesOwnUrl(server) && !Truthy(ServerIdentifier(server)) ==> r == Err(NoIdentifier)
    ensures !UsesOwnUrl(server) && Truthy(ServerIdentifier(server)) ==>
              match streamLink(ServerIdentifier(server))
              case Err(m) => r == Err(m)
              case Ok(sr) =>
                r == (if Truthy(Get(sr, "url")) then Ok(Get(sr, "url"))
                      else if Truthy(Get(sr, "link")) then Ok(Get(sr, "link"))
                      else Err(NoStreamUrl))
  {
    var identifier := ServerIdentifier(server);
    if UsesOwnUrl(server) then Ok(Get(server, "url"))
    else if Truthy(identifier) then
      match streamLink(identifier)
      case Err(m) => Err(m)
      case Ok(sr) =>
        var actualUrl := Or(Get(sr, "url"), Get(sr, "link"));
        if !Truthy(actualUrl) then Err(NoStreamUrl) else Ok(actualUrl)
    else Err(NoIdentifier)
  }

  /** A server that plays its own URL makes no stream-link request: the answer cannot matter. */
  lemma OwnUrlNeedsNoRequest(server: Json, f: Json -> Result<Json>, g: Json -> Result<Json>)
    requires UsesOwnUrl(server)
    ensures StreamOutcome(server, f) == StreamOutcome(server, g) == Ok(Get(server, "url"))
  {
  }

  /** The message shown when a server fails (src/pages/Watch.jsx:100). */
  function ServerFailure(server: Json, message: string): string {
    "Gagal memuat video dari server " + Display(Get(server, "name")) + ". " + message
  }

  // ------------------------------------------------------------- state

  const InvalidEpisodeId: string := "ID Episode tidak valid."
  const EpisodeLoadFailed: string := "Gagal memuat data episode."

  /** The state `Watch` keeps (src/pages/Watch.jsx:12-18) and the document title. */
  class WatchPage {
    var episodeData: Json
    var animeDetails: Json
    var currentServer: Json
    var videoUrl: Json
    var loading: bool
    var error: Option<string>
    var loadingServer: bool
    var documentTitle: string

    constructor (documentTitle: string)
      ensures episodeData == Null && animeDetails == Null && currentServer == Null && videoUrl == Str("")
      ensures loading && error.None? && !loadingServer && this.documentTitle == documentTitle
    {
      episodeData := Null;
      animeDetails := Null;
      currentServer := Null;
      videoUrl := Str("");
      loading := true;
      error := None;
      loadingServer := false;
      this.documentTitle := documentTitle;
    }

    /**
     * `handleServerChange(server)` (src/pages/Watch.jsx:76-105), run to its
     * end: a falsy server changes nothing; otherwise the server becomes
     * current and the player gets the stream URL, or no URL and an error
     * naming the server.
     */
    method HandleServerChange(server: Json, streamLink: Json -> Result<Json>)
      modifies this
      ensures !Truthy(server) ==>
                currentServer == old(currentServer) && videoUrl == old(videoUrl) &&
                error == old(error) && loadingServer == old(loadingServer)
      ensures Truthy(server) ==>
                var outcome := StreamOutcome(server, streamLink);
                && currentServer == server && !loadingServer
                && videoUrl == (if outcome.Ok? then outcome.value else Str(""))
                && error == (if outcome.Ok? then None else Some(ServerFailure(server, outcome.error)))
      ensures episodeData == old(episodeData) && animeDetails == old(animeDetails)
      ensures loading == old(loading) && documentTitle == old(documentTitle)
    {
      if !Truthy(server) {
        return;
      }
      currentServer := server;
      loadingServer := true;
      videoUrl := Str("");
      error := None;
      var serverIdentifier := ServerIdentifier(server);
      var failure: Option<string> := None;
      if Truthy(Get(server, "url")) && (Get(server, "type") == Str("embed") || !Truthy(serverIdentifier)) {
        videoUrl := Get(server, "url");
      } else if Truthy(serverIdentifier) {
        var streamResponse := streamLink(serverIdentifier);
        if streamResponse.Err? {
          failure := Some(streamResponse.error);
        } else {
          var actualUrl := Or(Get(streamResponse.value, "url"), Get(streamResponse.value, "link"));
          if !Truthy(actualUrl) {
            failure := Some(NoStreamUrl);
          } else {
            videoUrl := actualUrl;
          }
        }
      } else {
        failure := Some(NoIdentifier);
      }
      if failure.Some? {
        error := Some(ServerFailure(server, failure.value));
        videoUrl := Str("");
      }
      loadingServer := false;
    }

    /**
     * `fetchEpisodeAndAnimeData` (src/pages/Watch.jsx:20-74), given the
     * outcome of the episode request and of the parent-anime request for an
     * id. The first server is started as if `handleServerChange` ran to its
     * end before the load finishes.
     */
    method FetchEpisodeAndAnimeData(episodeId: string, episode: Result<Json>,
                                    animeDetailsOf: Json -> Result<Json>, streamLink: Json -> Result<Json>)
      modifies this
      ensures !loading
      ensures episodeId == "" ==>
                error == Some(InvalidEpisodeId) && episodeData == old(episodeData) && documentTitle == old(documentTitle)
      ensures episodeId != "" && episode.Err? ==>
                error == Some(if episode.error != "" then episode.error else EpisodeLoadFailed) &&
                episodeData == old(episodeData) && documentTitle == "Error Nonton Anime" + SiteSuffix
      ensures episodeId == "" || episode.Err? ==>
                animeDetails == old(animeDetails) && currentServer == old(currentServer) &&
                videoUrl == old(videoUrl) && loadingServer == old(loadingServer)
      ensures episodeId != "" && episode.Ok? ==>
                var epData := episode.value;
                var parent := ParentOutcome(epData, animeDetailsOf);
                && episodeData == epData
                && (parent.Some? && parent.value.Ok? ==> animeDetails == parent.value.value)
                && (!(parent.Some? && parent.value.Ok?) ==> animeDetails == old(animeDetails))
                && ServerStarted(epData, streamLink, TitleAfterLoad(epData, parent, old(documentTitle)),
                                 old(videoUrl), old(currentServer), old(loadingServer))
    {
      if episodeId == "" {
        error := Some(InvalidEpisodeId);
        loading := false;
        return;
      }
      loading := true;
      error := None;
      if episode.Err? {
        error := Some(if episode.error != "" then episode.error else EpisodeLoadFailed);
        documentTitle := "Error Nonton Anime" + SiteSuffix;
        loading := false;
        return;
      }
      LoadEpisode(episode.value, animeDetailsOf, streamLink);
      loading := false;
    }

    /**
     * The body of the load once the episode has arrived (src/pages/Watch.jsx:30-63):
     * the episode is stored, the parent anime's details are stored when they
     * arrive, the title is set and the first server is started.
     */
    method LoadEpisode(epData: Json, animeDetailsOf: Json -> Result<Json>, streamLink: Json -> Result<Json>)
      modifies this
      requires error.None?
      ensures loading == old(loading) && episodeData == epData
      ensures var parent := ParentOutcome(epData, animeDetailsOf);
              && (parent.Some? && parent.value.Ok? ==> animeDetails == parent.value.value)
              && (!(parent.Some? && parent.value.Ok?) ==> animeDetails == old(animeDetails))
              && ServerStarted(epData, streamLink, TitleAfterLoad(epData, parent, old(documentTitle)),
                               old(videoUrl), old(currentServer), old(loadingServer))
    {
      episodeData := epData;
      var parentAnimeId := ParentAnimeId(epData);
      var parent: Option<Result<Json>> := None;
      if Truthy(parentAnimeId) {
        var animeParentData := animeDetailsOf(parentAnimeId);
        parent := Some(animeParentData);
        if animeParentData.Ok? {
          animeDetails := animeParentData.value;
        }
      }
      documentTitle := TitleAfterLoad(epData, parent, documentTitle);
      StartFirstServer(epData, streamLink);
    }

    /**
     * The page after the first server of `epData` is started, from a page
     * titled `title0` that played `video0` from `server0`: the preferred
     * server as a server change, else the episode's own `videoUrl` from a
     * "Default Source"; a throw while choosing the server is the load's error.
     */
    ghost predicate ServerStarted(epData: Json, streamLink: Json -> Result<Json>,
                                  title0: string, video0: Json, server0: Json, loadingServer0: bool)
      reads this
    {
      match StartingServer(epData)
      case None =>
        && documentTitle == title0 && error.None?
        && (Truthy(epData) && Truthy(Get(epData, "videoUrl")) ==>
              videoUrl == Get(epData, "videoUrl") &&
              currentServer == Obj([("name", Str("Default Source")), ("url", Get(epData, "videoUrl"))]))
        && (!(Truthy(epData) && Truthy(Get(epData, "videoUrl"))) ==>
              videoUrl == video0 && currentServer == server0)
        && loadingServer == loadingServer0
      case Some(Err(e)) =>
        && error == Some(if e != "" then e else EpisodeLoadFailed) && documentTitle == "Error Nonton Anime" + SiteSuffix
        && videoUrl == video0 && currentServer == server0 && loadingServer == loadingServer0
      case Some(Ok(server)) =>
        var outcome := StreamOutcome(server, streamLink);
        && documentTitle == title0
        && (Truthy(server) ==>
              && currentServer == server && !loadingServer
              && videoUrl == (if outcome.Ok? then outcome.value else Str(""))
              && error == (if outcome.Ok? then None else Some(ServerFailure(server, outcome.error))))
        && (!Truthy(server) ==>
              && currentServer == server0 && videoUrl == video0
              && error.None? && loadingServer == loadingServer0)
    }

    /**
     * The end of a successful load (src/pages/Watch.jsx:57-63): the preferred
     * server is started, or the episode's own `videoUrl` is played from a
     * "Default Source"; a throw while choosing the server is the load's error.
     */
    method StartFirstServer(epData: Json, streamLink: Json -> Result<Json>)
      modifies this
      requires error.None?
      ensures episodeData == old(episodeData) && animeDetails == old(animeDetails) && loading == old(loading)
      ensures ServerStarted(epData, streamLink, old(documentTitle), old(videoUrl), old(currentServer), old(loadingServer))
    {
      var start := StartingServer(epData);
      if start.Some? {
        var preferred := start.value;
        if preferred.Err? {
          error := Some(if preferred.error != "" then preferred.error else EpisodeLoadFailed);
          documentTitle := "Error Nonton Anime" + SiteSuffix;
        } else {
          HandleServerChange(preferred.value, streamLink);
        }
      } else if Truthy(epData) && Truthy(Get(epData, "videoUrl")) {
        videoUrl := Get(epData, "videoUrl");
        currentServer := Obj([("name", Str("Default Source")), ("url", Get(epData, "videoUrl"))]);
      }
    }
  }
}
