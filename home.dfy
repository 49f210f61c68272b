/**
 * src/pages/Home.jsx: which list endpoint the home page asks for, how the
 * anime list is dug out of whatever shape the answer has, how each item is
 * normalised for `AnimeCard`, and the page count handed to `Pagination`.
 * The answer of the chosen endpoint is an input (`fetched`), as are
 * `parseInt` and `Math.random` (the latter as the `RandomId` marker).
 */
module Home {
  import opened Js
  import Api
  import AnimeCard

  // ------------------------------------------------------------ parameters

  /** `pageParam ? parseInt(pageParam) : 1` (src/pages/Home.jsx:17-18); `parseInt` is a parameter. */
  function CurrentPage(pageParam: Option<string>, parseInt: string -> int): (r: int)
    ensures pageParam.None? || pageParam == Some("") ==> r == 1
    ensures pageParam.Some? && pageParam.value != "" ==> r == parseInt(pageParam.value)
  {
    if pageParam.Some? && pageParam.value != "" then parseInt(pageParam.value) else 1
  }

  /** Is `searchParams.get('q')` truthy? */
  predicate HasQuery(searchQuery: Option<string>) {
    searchQuery.Some? && searchQuery.value != ""
  }

  /**
   * The request `fetchData` awaits (src/pages/Home.jsx:34-43): a search when
   * there is a query, whatever the tab; otherwise the recent or popular list
   * for those tabs and the home data for any other tab.
   */
  function SelectRequest(searchQuery: Option<string>, activeTab: string, currentPage: int): (r: Api.Endpoint)
    ensures HasQuery(searchQuery) <==> r.SearchAnime?
    ensures HasQuery(searchQuery) ==> r == Api.SearchAnime(Str(searchQuery.value), Num(currentPage))
    ensures !HasQuery(searchQuery) ==>
              (r.RecentAnime? <==> activeTab == "recent") &&
              (r.PopularAnime? <==> activeTab == "popular") &&
              (r.HomeData? <==> activeTab != "recent" && activeTab != "popular")
  {
    if HasQuery(searchQuery) then Api.SearchAnime(Str(searchQuery.value), Num(currentPage))
    else if activeTab == "recent" then Api.RecentAnime(Num(currentPage))
    else if activeTab == "popular" then Api.PopularAnime(Num(currentPage))
    else Api.HomeData
  }

  /**
   * The request the home page makes always carries its required argument, so
   * the endpoint builder never throws "Search query is required".
   */
  lemma SelectedRequestIsBuilt(searchQuery: Option<string>, activeTab: string, currentPage: int,
                               base: string, encode: string -> string)
    ensures Api.Url(base, SelectRequest(searchQuery, activeTab, currentPage), encode).Ok?
  {
    var e := SelectRequest(searchQuery, activeTab, currentPage);
    if e.SearchAnime? {
      assert Truthy(e.query);
    }
  }

  // -------------------------------------------------------- list extraction

  /** `Array.isArray(group.animeList) ? group.animeList : []` for a group that is not null or undefined. */
  function AnimeListOf(group: Json): seq<Json>
    requires !Nullish(group)
  {
    var a := Get(group, "animeList");
    if a.Arr? then a.items else []
  }

  /**
   * `list.flatMap(group => ...)` (src/pages/Home.jsx:54-56): the groups'
   * `animeList` arrays concatenated in order, groups without one contributing
   * nothing; reading `animeList` of a null or undefined group throws.
   */
  function FlattenGroups(groups: seq<Json>): (r: Result<seq<Json>>)
    ensures r.Err? <==> exists i :: 0 <= i < |groups| && Nullish(groups[i])
    ensures r.Err? ==> r.error == TypeErrorText
    ensures |groups| == 1 && !Nullish(groups[0]) ==> r == Ok(AnimeListOf(groups[0]))
  {
    if |groups| == 0 then Ok([])
    else
      var init := groups[..|groups| - 1];
      var last := groups[|groups| - 1];
      var f := FlattenGroups(init);
      assert forall i :: 0 <= i < |init| ==> init[i] == groups[i];
      assert |groups| == 1 && !Nullish(last) ==> f == Ok([]) && [] + AnimeListOf(last) == AnimeListOf(last);
      if f.Err? then f
      else if Nullish(last) then Err(TypeErrorText)
      else Ok(f.value + AnimeListOf(last))
  }

  /** Flattening two runs of groups is flattening each and concatenating: the order of the groups is kept. */
  lemma {:induction false} FlattenGroupsAppend(a: seq<Json>, b: seq<Json>)
    ensures FlattenGroups(a + b) ==
              if FlattenGroups(a).Err? || FlattenGroups(b).Err? then Err(TypeErrorText)
              else Ok(FlattenGroups(a).value + FlattenGroups(b).value)
    decreases |b|
  {
    if |b| == 0 {
      assert a + b == a;
      if FlattenGroups(a).Ok? {
        assert FlattenGroups(a).value + [] == FlattenGroups(a).value;
      }
    } else {
      var b0 := b[..|b| - 1];
      assert (a + b)[..|a + b| - 1] == a + b0;
      assert (a + b)[|a + b| - 1] == b[|b| - 1];
      FlattenGroupsAppend(a, b0);
      if FlattenGroups(a).Ok? && FlattenGroups(b0).Ok? && !Nullish(b[|b| - 1]) {
        var fa := FlattenGroups(a).value;
        var fb0 := FlattenGroups(b0).value;
        var tail := AnimeListOf(b[|b| - 1]);
        assert fa + fb0 + tail == fa + (fb0 + tail);
      }
    }
  }

  /**
   * The index of the first entry whose value is a non-empty array, or the
   * number of entries when there is none.
   */
  function FirstNonEmptyArray(fields: seq<(string, Json)>): (k: nat)
    ensures k <= |fields|
    ensures k < |fields| ==> NonEmptyArray(fields[k].1)
    ensures forall m :: 0 <= m < k ==> !NonEmptyArray(fields[m].1)
  {
    if |fields| == 0 then 0
    else if NonEmptyArray(fields[0].1) then 0
    else 1 + FirstNonEmptyArray(fields[1..])
  }

  /**
   * The list `fetchData` extracts from the answer (src/pages/Home.jsx:48-75),
   * in priority order: `data` itself when it is an array; the flattened
   * `data.list`; `data.animeList`; the first property of `data`, in key order,
   * holding a non-empty array; `[data]` when `data` has a truthy title; else
   * nothing.
   */
  function Extracted(rawData: Json): (r: Result<seq<Json>>)
    ensures r.Err? <==>
              Truthy(rawData) && Truthy(Get(rawData, "data")) && !Get(rawData, "data").Arr? &&
              Get(Get(rawData, "data"), "list").Arr? &&
              exists i :: 0 <= i < |Get(Get(rawData, "data"), "list").items| &&
                          Nullish(Get(Get(rawData, "data"), "list").items[i])
    ensures !Truthy(rawData) || !Truthy(Get(rawData, "data")) ==> r == Ok([])
    ensures var data := Get(rawData, "data");
            Truthy(rawData) && data.Arr? ==> r == Ok(data.items)
    ensures var data := Get(rawData, "data");
            Truthy(rawData) && Truthy(data) && !data.Arr? && Get(data, "list").Arr? ==>
              r == FlattenGroups(Get(data, "list").items)
    ensures var data := Get(rawData, "data");
            Truthy(rawData) && Truthy(data) && !data.Arr? && !Get(data, "list").Arr? && Get(data, "animeList").Arr? ==>
              r == Ok(Get(data, "animeList").items)
    ensures var data := Get(rawData, "data");
            Truthy(rawData) && data.Obj? && !Get(data, "list").Arr? && !Get(data, "animeList").Arr? ==>
              var k := FirstNonEmptyArray(data.fields);
              && (k < |data.fields| ==> r == Ok(data.fields[k].1.items))
              && (k == |data.fields| ==> r == (if Truthy(Get(data, "title")) then Ok([data]) else Ok([])))
    ensures var data := Get(rawData, "data");
            Truthy(rawData) && Truthy(data) && !data.Arr? && !data.Obj? ==> r == Ok([])
  {
    var data := Get(rawData, "data");
    if !(Truthy(rawData) && Truthy(data)) then Ok([])
    else if data.Arr? then Ok(data.items)
    else if Get(data, "list").Arr? then FlattenGroups(Get(data, "list").items)
    else if Get(data, "animeList").Arr? then Ok(Get(data, "animeList").items)
    else
      var fields := Entries(data).value;
      var k := FirstNonEmptyArray(fields);
      if k < |fields| then Ok(fields[k].1.items)
      else if Truthy(Get(data, "title")) then Ok([data])
      else Ok([])
  }

  /**
   * The extraction as the page runs it: the if-chain and the for-in loop over
   * the keys of `data` that keeps the first non-empty array it meets.
   */
  method ExtractList(rawData: Json) returns (r: Result<seq<Json>>)
    ensures r == Extracted(rawData)
  {
    var flatList: seq<Json> := [];
    var data := Get(rawData, "data");
    if Truthy(rawData) && Truthy(data) {
      var list := Get(data, "list");
      var animeList := Get(data, "animeList");
      if data.Arr? {
        flatList := data.items;
      } else if Truthy(list) && list.Arr? {
        var flat := FlattenGroups(list.items);
        if flat.Err? {
          return Err(flat.error);
        }
        flatList := flat.value;
      } else if Truthy(animeList) && animeList.Arr? {
        flatList := animeList.items;
      } else {
        var fields := Entries(data).value;
        if |fields| > 0 {
          var i := 0;
          while i < |fields|
            invariant 0 <= i <= |fields|
            invariant flatList == []
            invariant forall m :: 0 <= m < i ==> !NonEmptyArray(fields[m].1)
          {
            var value := fields[i].1;
            if value.Arr? {
              flatList := value.items;
              if |flatList| > 0 {
                assert FirstNonEmptyArray(fields) == i;
                break;
              }
            }
            i := i + 1;
          }
          if |flatList| == 0 && Truthy(Get(data, "title")) {
            flatList := [data];
          }
        }
      }
    }
    r := Ok(flatList);
  }

  /**
   * Whatever the shape, each extracted item comes from `data`: an element of
   * `data` when it is an array, of a group's `animeList`, of `data.animeList`
   * or of an array property, or `data` itself.
   */
  lemma ExtractedFromData(rawData: Json, x: Json)
    requires Extracted(rawData).Ok? && x in Extracted(rawData).value
    ensures var data := Get(rawData, "data");
            || (data.Arr? && x in data.items)
            || (data.Obj? && Get(data, "list").Arr? && exists g :: g in Get(data, "list").items && !Nullish(g) && x in AnimeListOf(g))
            || (data.Obj? && exists e :: e in data.fields && e.1.Arr? && x in e.1.items)
            || x == data
  {
    var data := Get(rawData, "data");
    if !data.Arr? && Get(data, "list").Arr? {
      var groups := Get(data, "list").items;
      GroupOfFlattened(groups, x);
    } else if !data.Arr? && Get(data, "animeList").Arr? {
      var e :| e in data.fields && e.0 == "animeList" && e.1 == Get(data, "animeList");
    }
  }

  lemma {:induction false} GroupOfFlattened(groups: seq<Json>, x: Json)
    requires FlattenGroups(groups).Ok? && x in FlattenGroups(groups).value
    ensures exists g :: g in groups && !Nullish(g) && x in AnimeListOf(g)
    decreases |groups|
  {
    var init := groups[..|groups| - 1];
    var last := groups[|groups| - 1];
    assert forall i :: 0 <= i < |init| ==> init[i] == groups[i];
    if x in FlattenGroups(init).value {
      GroupOfFlattened(init, x);
      var g :| g in init && !Nullish(g) && x in AnimeListOf(g);
      assert g in groups;
    } else {
      assert x in AnimeListOf(last);
    }
  }

  // ------------------------------------------------------ item normalisation

  /** An item id: a value found on the item, or a fresh `Math.random().toString()`. */
  datatype ItemId = Given(value: Json) | RandomId

  /** What the page hands to `AnimeCard` for one item. */
  datatype AnimeItem = AnimeItem(id: ItemId, title: Json, thumbnail: Json, episodeNumber: Json, kind: Json)

  /**
   * `item.animeId || item.id || item.slug || item.href || (item.link ?
   * item.link.replace(...) : Math.random().toString())` (src/pages/Home.jsx:88-89):
   * `href` is taken verbatim; a truthy `link` that is not a string has no
   * `replace` and throws.
   */
  function IdCandidates(item: Json): seq<Json> {
    [Get(item, "animeId"), Get(item, "id"), Get(item, "slug"), Get(item, "href")]
  }

  function ItemIdOf(item: Json): (r: Result<ItemId>)
    ensures r.Err? <==>
              FirstTruthy(IdCandidates(item)) == 4 &&
              Truthy(Get(item, "link")) && !Get(item, "link").Str?
    ensures r.Err? ==> r.error == TypeErrorText
    ensures r.Ok? && r.value.Given? ==> Truthy(r.value.value)
    ensures r == Ok(RandomId) <==>
              FirstTruthy(IdCandidates(item)) == 4 &&
              !Truthy(Get(item, "link"))
    ensures FirstTruthy(IdCandidates(item)) < 4 ==> r == Ok(Given(IdCandidates(item)[FirstTruthy(IdCandidates(item))]))
    ensures FirstTruthy(IdCandidates(item)) == 4 && Get(item, "link").Str? && Get(item, "link").s != "" ==>
              r == Ok(Given(Str(ReplaceTrailingSegment(Get(item, "link").s))))
  {
    var found := Coalesce(IdCandidates(item), Undefined);
    var link := Get(item, "link");
    if Truthy(found) then Ok(Given(found))
    else if !Truthy(link) then Ok(RandomId)
    else if link.Str? then Ok(Given(Str(ReplaceTrailingSegment(link.s))))
    else Err(TypeErrorText)
  }

  /** A `link` read as the id gives the segment after its last '/' (a trailing '/' ignored), or the link itself. */
  lemma LinkIdIsLastSegment(item: Json)
    requires FirstTruthy(IdCandidates(item)) == 4
    requires Get(item, "link").Str? && Get(item, "link").s != ""
    requires forall i :: 0 <= i < |Get(item, "link").s| ==> !IsLineTerminator(Get(item, "link").s[i])
    ensures var link := Get(item, "link").s;
            var t := StripTrailingSlash(link);
            ItemIdOf(item) == Ok(Given(Str(link))) ||
            (0 <= LastSlash(t) && ItemIdOf(item) == Ok(Given(Str(t[LastSlash(t) + 1..]))) &&
             '/' !in t[LastSlash(t) + 1..])
  {
    var link := Get(item, "link").s;
    assert Coalesce(IdCandidates(item), Undefined) == Undefined;
    assert ItemIdOf(item) == Ok(Given(Str(ReplaceTrailingSegment(link))));
    TrailingSegmentOfUrl(link);
  }

  /**
   * A link of the form `<prefix>/<segment>`, with or without a trailing '/',
   * gives the segment as the id.
   */
  lemma SegmentedLinkId(item: Json, prefix: string, segment: string)
    requires FirstTruthy(IdCandidates(item)) == 4
    requires |prefix| > 0 && prefix[|prefix| - 1] == '/'
    requires segment != "" && '/' !in segment
    requires forall i :: 0 <= i < |prefix| ==> !IsLineTerminator(prefix[i])
    requires Get(item, "link") == Str(prefix + segment) || Get(item, "link") == Str(prefix + segment + "/")
    ensures ItemIdOf(item) == Ok(Given(Str(segment)))
  {
    AnimeCard.HrefLastSegment(prefix, segment);
    assert Get(item, "link").s != "";
  }

  /**
   * The arrow passed to `flatList.map` (src/pages/Home.jsx:80-95): None for a
   * falsy item, otherwise the item with title, thumbnail, episode number and
   * type each taken from its candidates in order, or their defaults.
   */
  function NormalizeItem(item: Json): (r: Result<Option<AnimeItem>>)
    ensures r == Ok(None) <==> !Truthy(item)
    ensures r.Err? <==> Truthy(item) && ItemIdOf(item).Err?
    ensures r.Ok? && r.value.Some? ==>
              var a := r.value.value;
              && Ok(a.id) == ItemIdOf(item)
              && Truthy(a.title) && Truthy(a.thumbnail) && Truthy(a.kind)
              && (Truthy(a.episodeNumber) || a.episodeNumber == Null)
              && (!Truthy(Get(item, "title")) && !Truthy(Get(item, "name")) ==> a.title == Str("No Title"))
              && (!Truthy(Get(item, "type")) && !Truthy(Get(item, "category")) ==> a.kind == Str("TV"))
              && a.title == Coalesce([Get(item, "title"), Get(item, "name")], Str("No Title"))
              && a.thumbnail == Coalesce([Get(item, "image"), Get(item, "thumbnail"), Get(item, "poster"),
                                          Get(item, "img")], Str("/placeholder-anime.jpg"))
              && a.episodeNumber == Coalesce([Get(item, "episodeNumber"), Get(item, "episode")], Null)
              && a.kind == Coalesce([Get(item, "type"), Get(item, "category")], Str("TV"))
  {
    if !Truthy(item) then Ok(None)
    else
      match ItemIdOf(item)
      case Err(e) => Err(e)
      case Ok(id) =>
        Ok(Some(AnimeItem(
          id,
          Coalesce([Get(item, "title"), Get(item, "name")], Str("No Title")),
          Coalesce([Get(item, "image"), Get(item, "thumbnail"), Get(item, "poster"), Get(item, "img")],
                   Str("/placeholder-anime.jpg")),
          Coalesce([Get(item, "episodeNumber"), Get(item, "episode")], Null),
          Coalesce([Get(item, "type"), Get(item, "category")], Str("TV")))))
  }

  /** `.filter(Boolean)` applied to the items: the truthy ones, in order. */
  function Kept(xs: seq<Json>): (r: seq<Json>)
    ensures |r| <= |xs|
    ensures forall x :: x in r <==> x in xs && Truthy(x)
  {
    if |xs| == 0 then []
    else if Truthy(xs[0]) then [xs[0]] + Kept(xs[1..])
    else Kept(xs[1..])
  }

  /**
   * `xs.map(f).filter(Boolean)` for an `f` that gives null exactly for falsy
   * items: one entry per truthy item, in order; the first throw of `f` is
   * the outcome.
   */
  function MapKept<T>(xs: seq<Json>, f: Json -> Result<Option<T>>): (r: Result<seq<T>>)
    requires forall x :: f(x) == Ok(None) <==> !Truthy(x)
    ensures r.Err? <==> exists i :: 0 <= i < |xs| && f(xs[i]).Err?
    ensures r.Ok? ==> (|r.value| == |Kept(xs)| &&
                       forall i :: 0 <= i < |r.value| ==> f(Kept(xs)[i]) == Ok(Some(r.value[i])))
  {
    if |xs| == 0 then Ok([])
    else
      assert forall i :: 1 <= i < |xs| ==> xs[i] == xs[1..][i - 1];
      var head := f(xs[0]);
      var rest := MapKept(xs[1..], f);
      if head.Err? then Err(head.error)
      else if rest.Err? then rest
      else if head.value.None? then rest
      else
        var r := [head.value.value] + rest.value;
        assert Kept(xs) == [xs[0]] + Kept(xs[1..]);
        Ok(r)
  }

  /**
   * `flatList.map(...).filter(Boolean)` (src/pages/Home.jsx:80-95): one
   * normalised entry per truthy item, in order; the map throws when some
   * truthy item has an unreadable link.
   */
  function NormalizeList(xs: seq<Json>): (r: Result<seq<AnimeItem>>)
    ensures r.Err? <==> exists i :: 0 <= i < |xs| && Truthy(xs[i]) && ItemIdOf(xs[i]).Err?
    ensures r.Ok? ==> (|r.value| == |Kept(xs)| &&
                       forall i :: 0 <= i < |r.value| ==> NormalizeItem(Kept(xs)[i]) == Ok(Some(r.value[i])))
  {
    MapKept(xs, NormalizeItem)
  }

  /** A list made only of objects loses no item: one entry per object. */
  lemma ObjectsAllKept(xs: seq<Json>)
    requires forall i :: 0 <= i < |xs| ==> xs[i].Obj?
    requires NormalizeList(xs).Ok?
    ensures |NormalizeList(xs).value| == |xs|
  {
    AllTruthyKept(xs);
  }

  lemma {:induction false} AllTruthyKept(xs: seq<Json>)
    requires forall i :: 0 <= i < |xs| ==> Truthy(xs[i])
    ensures Kept(xs) == xs
  {
    if |xs| > 0 {
      AllTruthyKept(xs[1..]);
    }
  }

  /**
   * The object literal the map builds for an item (src/pages/Home.jsx:87-94);
   * `randomText` is what `Math.random().toString()` gave.
   */
  function ItemObject(a: AnimeItem, randomText: string): (r: Json)
    ensures r.Obj? && forall i :: 0 <= i < |r.fields| ==> r.fields[i].0 in AnimeCard.ListingKeys
  {
    var id := if a.id.Given? then a.id.value else Str(randomText);
    Obj([("id", id), ("title", a.title), ("thumbnail", a.thumbnail),
         ("episodeNumber", a.episodeNumber), ("type", a.kind)])
  }

  /** What every item `NormalizeItem` produces satisfies. */
  predicate Normalised(a: AnimeItem) {
    && (a.id.Given? ==> Truthy(a.id.value))
    && Truthy(a.title) && Truthy(a.thumbnail) && Truthy(a.kind)
    && (Truthy(a.episodeNumber) || a.episodeNumber == Null)
  }

  /**
   * The card rendered for a normalised item (src/pages/Home.jsx:178-180) shows
   * exactly the normalised values: the card's own fallbacks never apply again.
   */
  lemma CardShowsItem(a: AnimeItem, randomText: string)
    requires Normalised(a) && randomText != ""
    ensures var id := if a.id.Given? then a.id.value else Str(randomText);
            AnimeCard.CardOf(ItemObject(a, randomText)) ==
              Ok(Some(AnimeCard.Card(id, a.title, a.thumbnail, a.episodeNumber, a.kind, "/anime/" + Display(id))))
  {
    var o := ItemObject(a, randomText);
    ItemObjectPresent(a, randomText);
    assert forall i :: 0 <= i < |o.fields| ==> o.fields[i].0 in AnimeCard.ListingKeys;
    AnimeCard.CardOfListing(o);
  }

  /** The properties an item object carries. */
  lemma ItemObjectPresent(a: AnimeItem, randomText: string)
    ensures var o := ItemObject(a, randomText);
            && Get(o, "id") == (if a.id.Given? then a.id.value else Str(randomText))
            && Get(o, "title") == a.title && Get(o, "thumbnail") == a.thumbnail
            && Get(o, "episodeNumber") == a.episodeNumber && Get(o, "type") == a.kind
  {
    var o := ItemObject(a, randomText);
    assert Get(o, "title") == a.title by { LookupAt(o.fields, "title", 1); }
    assert Get(o, "thumbnail") == a.thumbnail by { LookupAt(o.fields, "thumbnail", 2); }
    assert Get(o, "episodeNumber") == a.episodeNumber by { LookupAt(o.fields, "episodeNumber", 3); }
    assert Get(o, "type") == a.kind by { LookupAt(o.fields, "type", 4); }
  }

  // ------------------------------------------------------------ page count

  /**
   * `rawData?.pagination?.totalPages || rawData?.data?.pagination?.totalPages
   * || Math.ceil(count / 20) || 1` (src/pages/Home.jsx:98-100): never falsy,
   * so never 0; without a usable server value it is the number of 20-item
   * pages needed for `count` items, and 1 for none.
   */
  function TotalPages(rawData: Json, count: nat): (r: Json)
    ensures Truthy(r)
    ensures Truthy(Get(Get(rawData, "pagination"), "totalPages")) ==> r == Get(Get(rawData, "pagination"), "totalPages")
    ensures !Truthy(Get(Get(rawData, "pagination"), "totalPages")) &&
            Truthy(Get(Get(Get(rawData, "data"), "pagination"), "totalPages")) ==>
              r == Get(Get(Get(rawData, "data"), "pagination"), "totalPages")
    ensures !Truthy(Get(Get(rawData, "pagination"), "totalPages")) &&
            !Truthy(Get(Get(Get(rawData, "data"), "pagination"), "totalPages")) ==>
              r.Num? && r.n >= 1 && (count == 0 ==> r.n == 1) && (count > 0 ==> (r.n - 1) * 20 < count <= r.n * 20)
  {
    var ceil := (count + 19) / 20;
    assert 20 * ceil <= count + 19 < 20 * ceil + 20;
    Or(Get(Get(rawData, "pagination"), "totalPages"),
       Or(Get(Get(Get(rawData, "data"), "pagination"), "totalPages"),
          Or(Num(ceil), Num(1))))
  }

  // ------------------------------------------------------------- page state

  const FetchFailed: string := "Failed to fetch anime data. Please try again later."

  /** The state `Home` keeps between renders (src/pages/Home.jsx:20-24). */
  class HomePage {
    var loading: bool
    var error: Option<string>
    var animeList: seq<AnimeItem>
    var totalPages: Json
    var activeTab: string

    constructor ()
      ensures loading && error.None? && animeList == [] && totalPages == Num(1) && activeTab == "recent"
    {
      loading := true;
      error := None;
      animeList := [];
      totalPages := Num(1);
      activeTab := "recent";
    }

    /** `handleTabChange(tab)` (src/pages/Home.jsx:113-115). */
    method HandleTabChange(tab: string)
      modifies this
      ensures activeTab == tab
      ensures loading == old(loading) && error == old(error) && animeList == old(animeList) && totalPages == old(totalPages)
    {
      activeTab := tab;
    }

    /**
     * One run of `fetchData` (src/pages/Home.jsx:27-108), given what each
     * endpoint answers: the list and page count are replaced on success; on
     * any throw they are kept and the fixed message is shown. The tab turns
     * to 'search' once a search has answered.
     */
    method FetchData(searchQuery: Option<string>, currentPage: int, fetched: Api.Endpoint -> Result<Json>)
      modifies this
      ensures !loading
      ensures var request := SelectRequest(searchQuery, old(activeTab), currentPage);
              var answer := fetched(request);
              var list := if answer.Ok? then Extracted(answer.value) else Err(answer.error);
              var items := if list.Ok? then NormalizeList(list.value) else Err(list.error);
              && activeTab == (if request.SearchAnime? && answer.Ok? then "search" else old(activeTab))
              && (items.Ok? ==> error.None? && animeList == items.value &&
                                totalPages == TotalPages(answer.value, |items.value|))
              && (items.Err? ==> error == Some(FetchFailed) && animeList == old(animeList) &&
                                 totalPages == old(totalPages))
    {
      loading := true;
      error := None;
      var request := SelectRequest(searchQuery, activeTab, currentPage);
      var answer := fetched(request);
      if answer.Err? {
        error := Some(FetchFailed);
        loading := false;
        return;
      }
      if request.SearchAnime? {
        activeTab := "search";
      }
      var rawData := answer.value;
      var flatList := ExtractList(rawData);
      if flatList.Err? {
        error := Some(FetchFailed);
        loading := false;
        return;
      }
      var normalized := NormalizeList(flatList.value);
      if normalized.Err? {
        error := Some(FetchFailed);
        loading := false;
        return;
      }
      animeList := normalized.value;
      totalPages := TotalPages(rawData, |normalized.value|);
      loading := false;
    }
  }
}
