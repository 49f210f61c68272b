/**
 * src/pages/AnimeDetail.jsx: how the details answer is patched so that
 * `episodes` is always an array, how a failed load is explained to the user,
 * the synopsis text and its 250-character preview, which detail rows are
 * shown, and the labels and links of the episode list. The answer of
 * `getAnimeDetails` is an input; `document.title` is a field of the page.
 */
module AnimeDetail {
  import opened Js
  import Api

  // ----------------------------------------------------- episodes patching

  /**
   * The patching of src/pages/AnimeDetail.jsx:34-43: `episode_list` stands in
   * for a falsy `episodes`, and anything that is then not an array becomes
   * `[]`. The assignments throw on a truthy primitive (a module is strict
   * code); arrays cannot carry the named property in this model.
   */
  function Patched(dataToSet: Json): (r: Result<Json>)
    ensures !Truthy(dataToSet) ==> r == Ok(dataToSet)
    ensures dataToSet.Obj? ==>
              var episodes := Get(dataToSet, "episodes");
              var list := Get(dataToSet, "episode_list");
              && r.Ok? && r.value.Obj?
              && Get(r.value, "episodes") ==
                   (if Truthy(episodes) then (if episodes.Arr? then episodes else Arr([]))
                    else if list.Arr? then list else Arr([]))
              && (forall k :: k != "episodes" ==> Get(r.value, k) == Get(dataToSet, k))
    ensures Truthy(dataToSet) && !dataToSet.Obj? && !dataToSet.Arr? ==> r == Err(TypeErrorText)
    ensures dataToSet.Arr? ==> r == Ok(dataToSet)
  {
    var data :=
      if Truthy(dataToSet) && Truthy(Get(dataToSet, "episode_list")) && !Truthy(Get(dataToSet, "episodes"))
      then SetField(dataToSet, "episodes", Get(dataToSet, "episode_list")).value
      else dataToSet;
    if Truthy(data) && !Get(data, "episodes").Arr? then SetField(data, "episodes", Arr([]))
    else Ok(data)
  }

  /** Patching an object keeps its title, and leaves an array of episodes. */
  lemma PatchedKeepsTitle(dataToSet: Json)
    requires dataToSet.Obj?
    ensures Patched(dataToSet).Ok? && Patched(dataToSet).value.Obj?
    ensures Get(Patched(dataToSet).value, "title") == Get(dataToSet, "title")
    ensures Get(Patched(dataToSet).value, "episodes").Arr?
  {
  }

  /** The two assignments of src/pages/AnimeDetail.jsx:34-43, made in place on the answer. */
  method PatchEpisodes(dataToSet: Json) returns (r: Result<Json>)
    ensures r == Patched(dataToSet)
  {
    var data := dataToSet;
    if Truthy(data) && Truthy(Get(data, "episode_list")) && !Truthy(Get(data, "episodes")) {
      data := SetField(data, "episodes", Get(data, "episode_list")).value;
    }
    if Truthy(data) && !Get(data, "episodes").Arr? {
      var patched := SetField(data, "episodes", Arr([]));
      if patched.Err? {
        return Err(patched.error);
      }
      data := patched.value;
    }
    r := Ok(data);
  }

  // ------------------------------------------------------- error messages

  const ServerTrouble: string := "Server mengalami masalah. Silakan coba lagi nanti."
  const ConnectionTrouble: string := "Masalah koneksi internet. Periksa koneksi Anda."

  function AccessDenied(animeId: string): string {
    "Akses ditolak untuk anime \"" + animeId + "\". API mungkin memblokir request atau ID anime tidak valid."
  }

  function NotFound(animeId: string): string {
    "Anime dengan ID \"" + animeId + "\" tidak ditemukan."
  }

  /**
   * The message shown for a failed load (src/pages/AnimeDetail.jsx:55-67):
   * the first of '403', '404', '500' and 'Failed to fetch'/'Network' found in
   * the error's message picks a fixed text, and a message with none of them
   * is shown as it is.
   */
  function ClassifyError(message: string, animeId: string): (r: string)
    ensures Contains(message, "403") ==> r == AccessDenied(animeId)
    ensures !Contains(message, "403") && Contains(message, "404") ==> r == NotFound(animeId)
    ensures !Contains(message, "403") && !Contains(message, "404") && Contains(message, "500") ==> r == ServerTrouble
    ensures !Contains(message, "403") && !Contains(message, "404") && !Contains(message, "500") ==>
              (r == ConnectionTrouble <==> Contains(message, "Failed to fetch") || Contains(message, "Network") || message == ConnectionTrouble)
    ensures (!Contains(message, "403") && !Contains(message, "404") && !Contains(message, "500") &&
             !Contains(message, "Failed to fetch") && !Contains(message, "Network")) ==> r == message
  {
    if Contains(message, "403") then AccessDenied(animeId)
    else if Contains(message, "404") then NotFound(animeId)
    else if Contains(message, "500") then ServerTrouble
    else if Contains(message, "Failed to fetch") || Contains(message, "Network") then ConnectionTrouble
    else message
  }

  /** A text always contains what is written in its middle. */
  lemma ContainsMiddle(a: string, b: string, c: string)
    ensures Contains(a + b + c, b)
  {
    assert (a + b + c)[|a|..|a| + |b|] == b;
    assert OccursAt(a + b + c, b, |a|);
  }

  /**
   * A 404 answer to the details request, as the API layer rewraps it, is
   * reported as an unknown anime whenever the message names no 403 (the
   * quoted URL segments and the detail are part of the message).
   */
  lemma NotFoundAnswer(url: string, detail: string, animeId: string)
    requires !Contains(Api.RequestFailed(url, Api.ApiError(404, detail)), "403")
    ensures ClassifyError(Api.RequestFailed(url, Api.ApiError(404, detail)), animeId) == NotFound(animeId)
  {
    assert IntToString(404) == "404" by {
      assert NatToString(4) == "4";
      assert NatToString(40) == NatToString(4) + [DigitChar(0)];
      assert NatToString(404) == NatToString(40) + [DigitChar(4)];
    }
    var m := Api.RequestFailed(url, Api.ApiError(404, detail));
    var before := "Request failed for " + Api.LastTwoSegments(url) + ": " + "API Error (";
    assert m == before + "404" + ("): " + detail);
    ContainsMiddle(before, "404", "): " + detail);
  }

  /** Likewise a 500 answer is reported as server trouble when the message names no 403 or 404. */
  lemma ServerErrorAnswer(url: string, detail: string, animeId: string)
    requires !Contains(Api.RequestFailed(url, Api.ApiError(500, detail)), "403")
    requires !Contains(Api.RequestFailed(url, Api.ApiError(500, detail)), "404")
    ensures ClassifyError(Api.RequestFailed(url, Api.ApiError(500, detail)), animeId) == ServerTrouble
  {
    assert IntToString(500) == "500" by {
      assert NatToString(5) == "5";
      assert NatToString(50) == NatToString(5) + [DigitChar(0)];
      assert NatToString(500) == NatToString(50) + [DigitChar(0)];
    }
    var m := Api.RequestFailed(url, Api.ApiError(500, detail));
    var before := "Request failed for " + Api.LastTwoSegments(url) + ": " + "API Error (";
    assert m == before + "500" + ("): " + detail);
    ContainsMiddle(before, "500", "): " + detail);
  }

  // ------------------------------------------------------------- synopsis

  /** `String(x)` of each array element as `join` converts it: null and undefined give "". */
  function ElementTexts(items: seq<Json>): (r: seq<string>)
    ensures |r| == |items|
    ensures forall i :: 0 <= i < |items| ==> r[i] == (if Nullish(items[i]) then "" else Display(items[i]))
  {
    seq(|items|, i requires 0 <= i < |items| => if Nullish(items[i]) then "" else Display(items[i]))
  }

  /**
   * `fullSynopsisText` (src/pages/AnimeDetail.jsx:136-141): the paragraphs of
   * an object synopsis joined by a blank line, a non-empty string synopsis as
   * it is, and '' for anything else.
   */
  function SynopsisText(synopsis: Json): (r: string)
    ensures synopsis.Obj? && NonEmptyArray(Get(synopsis, "paragraphs")) ==>
              var items := Get(synopsis, "paragraphs").items;
              && r == Join(ElementTexts(items), "\n\n")
              && |r| == TotalLength(ElementTexts(items)) + (|items| - 1) * 2
    ensures !(synopsis.Obj? && NonEmptyArray(Get(synopsis, "paragraphs"))) ==>
              r == (if synopsis.Str? then synopsis.s else "")
  {
    if synopsis.Obj? && NonEmptyArray(Get(synopsis, "paragraphs")) then
      var items := Get(synopsis, "paragraphs").items;
      JoinLength(ElementTexts(items), "\n\n");
      Join(ElementTexts(items), "\n\n")
    else if synopsis.Str? && synopsis.s != "" then synopsis.s
    else ""
  }

  const PreviewLength: nat := 250

  /**
   * `synopsisToShow` (src/pages/AnimeDetail.jsx:143-145): the whole text
   * when expanded or when it fits in 250 characters, otherwise its first 250
   * characters followed by '...'.
   */
  function SynopsisToShow(text: string, showFullSynopsis: bool): (r: string)
    ensures showFullSynopsis || |text| <= PreviewLength ==> r == text
    ensures !showFullSynopsis && |text| > PreviewLength ==>
              |r| == PreviewLength + 3 && r[..PreviewLength] == text[..PreviewLength] && r[PreviewLength..] == "..."
  {
    if showFullSynopsis || text == "" || |text| <= PreviewLength then text
    else text[..PreviewLength] + "..."
  }

  /** `fullSynopsisText.length > 250 && <button>` (src/pages/AnimeDetail.jsx:222). */
  predicate ShowsToggle(text: string) {
    |text| > PreviewLength
  }

  /**
   * Without the toggle both states show the whole text; with it the collapsed
   * state shows exactly 253 characters, and the two states look the same
   * only for a 253-character text that already ends in "...".
   */
  lemma ToggleMatters(text: string)
    ensures !ShowsToggle(text) ==> SynopsisToShow(text, true) == SynopsisToShow(text, false) == text
    ensures ShowsToggle(text) ==>
              |SynopsisToShow(text, false)| == PreviewLength + 3 &&
              (SynopsisToShow(text, true) == SynopsisToShow(text, false) <==>
                 |text| == PreviewLength + 3 && text[PreviewLength..] == "...")
  {
    if ShowsToggle(text) && |text| == PreviewLength + 3 && text[PreviewLength..] == "..." {
      assert text == text[..PreviewLength] + text[PreviewLength..];
    }
  }

  // --------------------------------------------------------- detail rows

  /** `DetailItem` renders nothing for null, undefined or '' (src/pages/AnimeDetail.jsx:147-148). */
  predicate DetailItemShown(value: Json) {
    !(value == Null || value.Undefined? || value == Str(""))
  }

  /** Every truthy value is shown, and so are the falsy 0 and false; only null, undefined and '' are hidden. */
  lemma DetailItemRule(value: Json)
    ensures Truthy(value) ==> DetailItemShown(value)
    ensures !DetailItemShown(value) <==> Nullish(value) || value == Str("")
    ensures DetailItemShown(Num(0)) && DetailItemShown(Bool(false))
  {
  }

  // -------------------------------------------------------- episode list

  /**
   * The text of an episode's link (src/pages/AnimeDetail.jsx:303): its
   * `title`, else its `name`, else "Episode " and the first of
   * `episode_number`, `number` and the 1-based position. Reading a property
   * of a null or undefined episode throws.
   */
  function EpisodeLabel(ep: Json, index: nat): (r: Result<Json>)
    ensures r.Err? <==> Nullish(ep)
    ensures r.Ok? ==> Truthy(r.value)
    ensures r.Ok? && Truthy(Get(ep, "title")) ==> r.value == Get(ep, "title")
    ensures r.Ok? && !Truthy(Get(ep, "title")) && Truthy(Get(ep, "name")) ==> r.value == Get(ep, "name")
    ensures r.Ok? && !Truthy(Get(ep, "title")) && !Truthy(Get(ep, "name")) ==>
              r.value.Str? && StartsWith(r.value.s, "Episode ")
    ensures r.Ok? && !Truthy(Get(ep, "title")) && !Truthy(Get(ep, "name")) && Truthy(Get(ep, "episode_number")) ==>
              r.value == Str("Episode " + Display(Get(ep, "episode_number")))
    ensures r.Ok? && !Truthy(Get(ep, "title")) && !Truthy(Get(ep, "name")) &&
            !Truthy(Get(ep, "episode_number")) && Truthy(Get(ep, "number")) ==>
              r.value == Str("Episode " + Display(Get(ep, "number")))
    ensures r.Ok? && !Truthy(Get(ep, "title")) && !Truthy(Get(ep, "name")) &&
            !Truthy(Get(ep, "episode_number")) && !Truthy(Get(ep, "number")) ==>
              r.value == Str("Episode " + IntToString(index + 1))
  {
    if Nullish(ep) then Err(TypeErrorText)
    else
      var number := Or(Get(ep, "episode_number"), Or(Get(ep, "number"), Num(index + 1)));
      var text := "Episode " + Display(number);
      assert text[..8] == "Episode ";
      Ok(Or(Get(ep, "title"), Or(Get(ep, "name"), Str(text))))
  }

  /** `/watch/${ep.id || ep.episodeId}` (src/pages/AnimeDetail.jsx:299); throws for a null or undefined episode. */
  function EpisodeLink(ep: Json): (r: Result<string>)
    ensures r.Err? <==> Nullish(ep)
    ensures r.Ok? ==> StartsWith(r.value, "/watch/")
    ensures r.Ok? && Truthy(Get(ep, "id")) ==> r.value == "/watch/" + Display(Get(ep, "id"))
    ensures r.Ok? && !Truthy(Get(ep, "id")) ==> r.value == "/watch/" + Display(Get(ep, "episodeId"))
  {
    if Nullish(ep) then Err(TypeErrorText)
    else
      var link := "/watch/" + Display(Or(Get(ep, "id"), Get(ep, "episodeId")));
      assert link[..7] == "/watch/";
      Ok(link)
  }

  /** An episode in the list with neither `id` nor `episodeId` links to "/watch/undefined". */
  lemma EpisodeWithoutIdLink(ep: Json)
    requires ep.Obj? && Get(ep, "id").Undefined? && Get(ep, "episodeId").Undefined?
    ensures EpisodeLink(ep) == Ok("/watch/undefined")
  {
    assert Display(Or(Get(ep, "id"), Get(ep, "episodeId"))) == "undefined";
    assert "/watch/" + "undefined" == "/watch/undefined";
  }

  /**
   * The "Nonton Episode Pertama" link (src/pages/AnimeDetail.jsx:198-200):
   * present exactly when there is a first episode with a truthy `id` or
   * `episodeId`, and then the same link as that episode's row.
   */
  function FirstEpisodeLink(episodes: seq<Json>): (r: Option<string>)
    ensures r.Some? <==> |episodes| > 0 && (Truthy(Get(episodes[0], "id")) || Truthy(Get(episodes[0], "episodeId")))
    ensures r.Some? ==> EpisodeLink(episodes[0]) == Ok(r.value)
  {
    if |episodes| > 0 && Truthy(Or(Get(episodes[0], "id"), Get(episodes[0], "episodeId"))) then
      Some("/watch/" + Display(Or(Get(episodes[0], "id"), Get(episodes[0], "episodeId"))))
    else None
  }

  // ----------------------------------------------------------- page state

  const InvalidId: string := "Anime ID tidak valid."
  const SiteSuffix: string := " - DaunNime"

  /** The state `AnimeDetail` keeps, and the document title it sets (src/pages/AnimeDetail.jsx:11-14). */
  class AnimeDetailPage {
    var animeData: Json
    var loading: bool
    var error: Option<string>
    var showFullSynopsis: bool
    var documentTitle: string

    constructor (documentTitle: string)
      ensures animeData == Null && loading && error.None? && !showFullSynopsis
      ensures this.documentTitle == documentTitle
    {
      animeData := Null;
      loading := true;
      error := None;
      showFullSynopsis := false;
      this.documentTitle := documentTitle;
    }

    /**
     * `fetchAnimeData` (src/pages/AnimeDetail.jsx:16-74), given what
     * `getAnimeDetails(animeId)` produced: an empty id is refused without a
     * request; a failure or a throw while patching keeps the old data and
     * shows the classified message; otherwise the patched data is stored and
     * the title names the anime when it has one.
     */
    method FetchAnimeData(animeId: string, fetched: Result<Json>)
      modifies this
      ensures !loading && showFullSynopsis == old(showFullSynopsis)
      ensures animeId == "" ==> error == Some(InvalidId) && animeData == old(animeData) && documentTitle == old(documentTitle)
      ensures animeId != "" && fetched.Err? ==>
                error == Some(ClassifyError(fetched.error, animeId)) && animeData == old(animeData) &&
                documentTitle == "Error Detail Anime" + SiteSuffix
      ensures animeId != "" ==>
                var outcome := if fetched.Ok? then Patched(fetched.value) else fetched;
                && (outcome.Err? ==>
                      error == Some(ClassifyError(outcome.error, animeId)) && animeData == old(animeData) &&
                      documentTitle == "Error Detail Anime" + SiteSuffix)
                && (outcome.Ok? ==>
                      error.None? && animeData == outcome.value &&
                      documentTitle == (if Truthy(outcome.value) && Truthy(Get(outcome.value, "title"))
                                        then Display(Get(outcome.value, "title")) + SiteSuffix
                                        else "Detail Anime" + SiteSuffix))
      ensures animeId != "" && fetched.Ok? && fetched.value.Obj? ==>
                && error.None? && animeData.Obj? && Get(animeData, "episodes").Arr?
                && documentTitle == (if Truthy(Get(fetched.value, "title"))
                                     then Display(Get(fetched.value, "title")) + SiteSuffix
                                     else "Detail Anime" + SiteSuffix)
    {
      if animeId == "" {
        error := Some(InvalidId);
        loading := false;
        return;
      }
      loading := true;
      error := None;
      var outcome := fetched;
      if fetched.Ok? {
        outcome := PatchEpisodes(fetched.value);
        if fetched.value.Obj? {
          PatchedKeepsTitle(fetched.value);
        }
      }
      ShowOutcome(animeId, outcome);
      loading := false;
    }

    /**
     * The end of `fetchAnimeData` (src/pages/AnimeDetail.jsx:45-69): the patched
     * data and its title, or the classified message and the error title.
     */
    method ShowOutcome(animeId: string, outcome: Result<Json>)
      modifies this
      ensures loading == old(loading) && showFullSynopsis == old(showFullSynopsis)
      ensures outcome.Err? ==>
                error == Some(ClassifyError(outcome.error, animeId)) && animeData == old(animeData) &&
                documentTitle == "Error Detail Anime" + SiteSuffix
      ensures outcome.Ok? ==>
                error == old(error) && animeData == outcome.value &&
                documentTitle == (if Truthy(outcome.value) && Truthy(Get(outcome.value, "title"))
                                  then Display(Get(outcome.value, "title")) + SiteSuffix
                                  else "Detail Anime" + SiteSuffix)
    {
      match outcome {
        case Err(message) =>
          error := Some(ClassifyError(message, animeId));
          documentTitle := "Error Detail Anime" + SiteSuffix;
        case Ok(dataToSet) =>
          animeData := dataToSet;
          if Truthy(dataToSet) && Truthy(Get(dataToSet, "title")) {
            documentTitle := Display(Get(dataToSet, "title")) + SiteSuffix;
          } else {
            documentTitle := "Detail Anime" + SiteSuffix;
          }
      }
    }

    /** The "Baca Selengkapnya" / "Tampilkan Lebih Sedikit" button (src/pages/AnimeDetail.jsx:224). */
    method ToggleSynopsis()
      modifies this
      ensures showFullSynopsis == !old(showFullSynopsis)
      ensures animeData == old(animeData) && loading == old(loading) && error == old(error)
      ensures documentTitle == old(documentTitle)
    {
      showFullSynopsis := !showFullSynopsis;
    }

    /** The synopsis the page currently shows. */
    function ShownSynopsis(): (r: string)
      reads this
      ensures showFullSynopsis ==> r == SynopsisText(Get(animeData, "synopsis"))
      ensures !showFullSynopsis ==> |r| <= PreviewLength + 3
      ensures !showFullSynopsis && ShowsToggle(SynopsisText(Get(animeData, "synopsis"))) ==>
                PreviewLength <= |r| && r[..PreviewLength] == SynopsisText(Get(animeData, "synopsis"))[..PreviewLength]
    {
      SynopsisToShow(SynopsisText(Get(animeData, "synopsis")), showFullSynopsis)
    }
  }
}
