/**
 * src/pages/SearchResults.jsx: the search page. It asks the search endpoint
 * for the query, picks the result list out of whichever answer shape arrives,
 * keeps a page count for the pager, and maps each result to the props of a
 * card. The search endpoint's answer is an input.
 */
module SearchResults {
  import opened Js
  import Api
  import AnimeCard
  import Home
  import Pagination

  // ------------------------------------------------------- answer shapes

  /**
   * The four places a result list may sit, in the order they are tried
   * (src/pages/SearchResults.jsx:49-62): `data`, the answer itself,
   * `data.results` and `results`. Every test there reads a property of a
   * truthy value first, and a property of anything but an object is
   * undefined here, so "is the candidate an array" is the whole test.
   */
  function Candidate(response: Json, k: nat): Json
    requires k < 4
  {
    if k == 0 then Get(response, "data")
    else if k == 1 then response
    else if k == 2 then Get(Get(response, "data"), "results")
    else Get(response, "results")
  }

  /** The first candidate that is an array, or 4 when none is. */
  function FirstArray(response: Json): (k: nat)
    ensures k <= 4
    ensures k < 4 ==> Candidate(response, k).Arr?
    ensures forall j :: 0 <= j < k ==> !Candidate(response, j).Arr?
  {
    if Candidate(response, 0).Arr? then 0
    else if Candidate(response, 1).Arr? then 1
    else if Candidate(response, 2).Arr? then 2
    else if Candidate(response, 3).Arr? then 3
    else 4
  }

  /** The list shown for an answer: the first array candidate, or nothing. */
  function Listed(response: Json): (r: seq<Json>)
    ensures FirstArray(response) == 4 ==> r == []
    ensures FirstArray(response) < 4 ==> r == Candidate(response, FirstArray(response)).items
  {
    var k := FirstArray(response);
    if k < 4 then Candidate(response, k).items else []
  }

  /**
   * The page count kept for an answer (src/pages/SearchResults.jsx:47,58,61):
   * 1 unless the list came from `data.results` or `results`, whose shapes may
   * carry a count.
   */
  function PageCount(response: Json): (r: Json)
    ensures Truthy(r)
    ensures FirstArray(response) !in {2, 3} ==> r == Num(1)
    ensures FirstArray(response) == 2 && Truthy(Get(Get(response, "data"), "totalPages")) ==>
              r == Get(Get(response, "data"), "totalPages")
    ensures FirstArray(response) == 3 && Truthy(Get(Get(response, "pagination"), "totalPages")) ==>
              r == Get(Get(response, "pagination"), "totalPages")
    ensures FirstArray(response) == 3 && !Truthy(Get(Get(response, "pagination"), "totalPages")) &&
            Truthy(Get(response, "totalPages")) ==>
              r == Get(response, "totalPages")
  {
    match FirstArray(response)
    case 2 => Or(Get(Get(response, "data"), "totalPages"), Num(1))
    case 3 => Or(Get(Get(response, "pagination"), "totalPages"), Or(Get(response, "totalPages"), Num(1)))
    case _ => Num(1)
  }

  /**
   * The if-chain of src/pages/SearchResults.jsx:46-62, assigning the list and
   * the page count step by step.
   */
  method ExtractSearchData(response: Json) returns (searchData: seq<Json>, fetchedTotalPages: Json)
    ensures searchData == Listed(response) && fetchedTotalPages == PageCount(response)
  {
    searchData := [];
    fetchedTotalPages := Num(1);
    var data := Get(response, "data");
    if Truthy(response) && Truthy(data) && data.Arr? {
      searchData := data.items;
    } else if Truthy(response) && response.Arr? {
      searchData := response.items;
    } else if Truthy(response) && Truthy(data) && Get(data, "results").Arr? {
      searchData := Get(data, "results").items;
      fetchedTotalPages := Or(Get(data, "totalPages"), Num(1));
    } else if Truthy(response) && Truthy(Get(response, "results")) && Get(response, "results").Arr? {
      searchData := Get(response, "results").items;
      fetchedTotalPages := Or(Get(Get(response, "pagination"), "totalPages"), Or(Get(response, "totalPages"), Num(1)));
    }
  }

  /**
   * A list that arrives as a bare array, or under `data` as an array, is used
   * as it is and never comes with a page count, whatever else the answer
   * carries.
   */
  lemma ArrayShapesHaveOnePage(response: Json)
    requires response.Arr? || Get(response, "data").Arr?
    ensures PageCount(response) == Num(1)
    ensures Listed(response) == (if Get(response, "data").Arr? then Get(response, "data").items else response.items)
  {
  }

  /** An answer with no array in any of the four places shows no results and one page. */
  lemma UnknownShapeIsEmpty(response: Json)
    requires forall k :: 0 <= k < 4 ==> !Candidate(response, k).Arr?
    ensures Listed(response) == [] && PageCount(response) == Num(1)
  {
    assert !Candidate(response, 0).Arr? && !Candidate(response, 1).Arr?;
    assert !Candidate(response, 2).Arr? && !Candidate(response, 3).Arr?;
  }

  // --------------------------------------------------------- card props

  /**
   * The `anime` prop built for one result (src/pages/SearchResults.jsx:142-148);
   * reading a property of a null or undefined result throws.
   */
  function CardProps(anime: Json): (r: Result<Json>)
    ensures r.Err? <==> Nullish(anime)
    ensures r.Ok? ==> r.value.Obj?
  {
    if Nullish(anime) then Err(TypeErrorText)
    else Ok(Obj([("id", Or(Get(anime, "id"), Get(anime, "animeId"))),
                 ("title", Or(Get(anime, "title"), Get(anime, "name"))),
                 ("thumbnail", Or(Get(anime, "poster"), Or(Get(anime, "thumbnail"), Get(anime, "image")))),
                 ("type", Get(anime, "type")),
                 ("episodeNumber", Or(Get(anime, "episodeNumber"), Or(Get(anime, "episodes"), Get(anime, "status"))))]))
  }

  /**
   * What the card for a search result shows: the first truthy of `id` and
   * `animeId` (else 'unknown'), of `title` and `name` (else "No Title"), of
   * `poster`, `thumbnail` and `image` (else the placeholder), of
   * `episodeNumber`, `episodes` and `status` (else null), and `type` (else
   * "TV"). The card's own `slug` and `href` fallbacks never apply.
   */
  lemma SearchCardShows(anime: Json)
    requires !Nullish(anime)
    ensures var id := Or(Or(Get(anime, "id"), Get(anime, "animeId")), Str(AnimeCard.UnknownId));
            AnimeCard.CardOf(CardProps(anime).value) ==
              Ok(Some(AnimeCard.Card(
                id,
                Or(Or(Get(anime, "title"), Get(anime, "name")), Str("No Title")),
                Or(Or(Get(anime, "poster"), Or(Get(anime, "thumbnail"), Get(anime, "image"))), Str(AnimeCard.PlaceholderImage)),
                Or(Or(Get(anime, "episodeNumber"), Or(Get(anime, "episodes"), Get(anime, "status"))), Null),
                Or(Get(anime, "type"), Str("TV")),
                "/anime/" + Display(id))))
  {
    var o := CardProps(anime).value;
    PropsPresent(anime);
    PropsAreListingKeys(anime);
    AnimeCard.CardOfListing(o);
  }

  /** The prop object carries only the keys the card reads first. */
  lemma PropsAreListingKeys(anime: Json)
    requires !Nullish(anime)
    ensures var o := CardProps(anime).value;
            forall i :: 0 <= i < |o.fields| ==> o.fields[i].0 in AnimeCard.ListingKeys
  {
    var fields := CardProps(anime).value.fields;
    var keys := AnimeCard.ListingKeys;
    assert |fields| == |keys|;
    forall i | 0 <= i < |fields| ensures fields[i].0 in keys {
      assert fields[i].0 == keys[i];
    }
  }

  /** The properties the prop object carries. */
  lemma PropsPresent(anime: Json)
    requires !Nullish(anime)
    ensures var o := CardProps(anime).value;
            && Get(o, "id") == Or(Get(anime, "id"), Get(anime, "animeId"))
            && Get(o, "title") == Or(Get(anime, "title"), Get(anime, "name"))
            && Get(o, "thumbnail") == Or(Get(anime, "poster"), Or(Get(anime, "thumbnail"), Get(anime, "image")))
            && Get(o, "type") == Get(anime, "type")
            && Get(o, "episodeNumber") == Or(Get(anime, "episodeNumber"), Or(Get(anime, "episodes"), Get(anime, "status")))
  {
    PropObjectFields(Or(Get(anime, "id"), Get(anime, "animeId")),
                     Or(Get(anime, "title"), Get(anime, "name")),
                     Or(Get(anime, "poster"), Or(Get(anime, "thumbnail"), Get(anime, "image"))),
                     Get(anime, "type"),
                     Or(Get(anime, "episodeNumber"), Or(Get(anime, "episodes"), Get(anime, "status"))));
  }

  lemma PropObjectFields(id: Json, title: Json, thumbnail: Json, kind: Json, episode: Json)
    ensures var o := Obj([("id", id), ("title", title), ("thumbnail", thumbnail), ("type", kind), ("episodeNumber", episode)]);
            Get(o, "id") == id && Get(o, "title") == title && Get(o, "thumbnail") == thumbnail &&
            Get(o, "type") == kind && Get(o, "episodeNumber") == episode
  {
    PropObjectFront(id, title, thumbnail, kind, episode);
    PropObjectBack(id, title, thumbnail, kind, episode);
  }

  lemma PropObjectFront(id: Json, title: Json, thumbnail: Json, kind: Json, episode: Json)
    ensures var fields := [("id", id), ("title", title), ("thumbnail", thumbnail), ("type", kind), ("episodeNumber", episode)];
            Lookup(fields, "title") == title && Lookup(fields, "thumbnail") == thumbnail
  {
    var fields := [("id", id), ("title", title), ("thumbnail", thumbnail), ("type", kind), ("episodeNumber", episode)];
    LookupAt(fields, "title", 1);
    LookupAt(fields, "thumbnail", 2);
  }

  lemma PropObjectBack(id: Json, title: Json, thumbnail: Json, kind: Json, episode: Json)
    ensures var fields := [("id", id), ("title", title), ("thumbnail", thumbnail), ("type", kind), ("episodeNumber", episode)];
            Lookup(fields, "type") == kind && Lookup(fields, "episodeNumber") == episode
  {
    var fields := [("id", id), ("title", title), ("thumbnail", thumbnail), ("type", kind), ("episodeNumber", episode)];
    LookupAt(fields, "type", 3);
    LookupAt(fields, "episodeNumber", 4);
  }

  // ------------------------------------------------------------- state

  const SiteSuffix: string := " - DaunNime"
  const SearchFailed: string := "Gagal melakukan pencarian."

  /** `totalPages > 1` for the counts this model carries: numbers above one. */
  predicate AboveOne(totalPages: Json) {
    totalPages.Num? && totalPages.n > 1
  }

  /** The state `SearchResults` keeps (src/pages/SearchResults.jsx:24-27) and the document title. */
  class SearchResultsPage {
    var results: seq<Json>
    var loading: bool
    var error: Option<string>
    var totalPages: Json
    var documentTitle: string

    constructor (documentTitle: string)
      ensures results == [] && !loading && error.None? && totalPages == Num(1) && this.documentTitle == documentTitle
    {
      results := [];
      loading := false;
      error := None;
      totalPages := Num(1);
      this.documentTitle := documentTitle;
    }

    /**
     * Is the pager rendered (src/pages/SearchResults.jsx:135,152)? Only below
     * a non-empty result grid, with more than one page.
     */
    predicate ShowsPager(): (b: bool)
      reads this
      ensures b ==> |results| > 0 && totalPages.Num? && Pagination.Renders(totalPages.n)
    {
      !loading && error.None? && |results| > 0 && AboveOne(totalPages)
    }

    /**
     * `performSearch(query, page)` (src/pages/SearchResults.jsx:29-80), given
     * what the search endpoint answers. `titleQuery` is the `searchQuery` the
     * callback closed over when it was created: the title uses it, not
     * `query`. The page number is never sent: the request is the endpoint's
     * default first page.
     */
    method PerformSearch(query: Option<string>, page: int, titleQuery: Option<string>,
                         answer: Api.Endpoint -> Result<Json>)
      modifies this
      ensures !loading
      ensures !Home.HasQuery(query) ==>
                results == [] && error == old(error) && totalPages == old(totalPages) &&
                documentTitle == old(documentTitle)
      ensures Home.HasQuery(query) ==>
                match answer(Api.SearchAnime(Str(query.value), Num(1)))
                case Err(m) =>
                  && error == Some(if m != "" then m else SearchFailed) && results == []
                  && totalPages == old(totalPages) && documentTitle == "Error Pencarian" + SiteSuffix
                case Ok(response) =>
                  && error.None? && results == Listed(response) && totalPages == PageCount(response)
                  && documentTitle == (if Home.HasQuery(titleQuery)
                                       then "Pencarian: \"" + titleQuery.value + "\"" + SiteSuffix
                                       else "Pencarian Anime" + SiteSuffix)
    {
      if !Home.HasQuery(query) {
        results := [];
        loading := false;
        return;
      }
      loading := true;
      error := None;
      var response := answer(Api.SearchAnime(Str(query.value), Num(1)));
      if response.Err? {
        error := Some(if response.error != "" then response.error else SearchFailed);
        results := [];
        documentTitle := "Error Pencarian" + SiteSuffix;
      } else {
        var searchData, fetchedTotalPages := ExtractSearchData(response.value);
        results := searchData;
        totalPages := fetchedTotalPages;
        if Home.HasQuery(titleQuery) {
          documentTitle := "Pencarian: \"" + titleQuery.value + "\"" + SiteSuffix;
        } else {
          documentTitle := "Pencarian Anime" + SiteSuffix;
        }
      }
      loading := false;
    }
  }

  /**
   * A search for a query always gets past the endpoint's own check, so the
   * only failures are those of the request itself.
   */
  lemma SearchRequestIsBuilt(base: string, query: Option<string>, encode: string -> string)
    requires Home.HasQuery(query)
    ensures Api.Url(base, Api.SearchAnime(Str(query.value), Num(1)), encode).Ok?
  {
  }
}
