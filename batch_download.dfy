/**
 * src/pages/BatchDownload.jsx: the normalisation of a batch answer into the
 * page's view model. `normalizeIndividualDownloadLinks` coalesces and filters
 * single links; `normalizeFullBatchData` unwraps the payload, picks the link
 * source, collects a quality map in a for-in loop, groups flat links by quality
 * label in a `Map`, and derives `batchAvailable`. `new URL(link).hostname` is a
 * parameter (None when the constructor throws).
 */
module BatchDownload {
  import opened Js

  /** `{ url, host, quality, size }` */
  datatype DownloadLink = DownloadLink(url: Json, host: Json, quality: Json, size: Json)

  /** `{ quality, links }` */
  datatype QualityGroup = QualityGroup(quality: Json, links: seq<DownloadLink>)

  /** `hostname.replace(/^www\./, '')` */
  function StripWww(h: string): string {
    if StartsWith(h, "www.") then h[4..] else h
  }

  /** The host of a bare-string link: its hostname without a leading "www.", or 'Download' when it does not parse. */
  function StringLinkHost(link: string, hostname: string -> Option<string>): string {
    match hostname(link)
    case Some(h) => StripWww(h)
    case None => "Download"
  }

  /** What one element of a links array becomes, before filtering; reading a property of null or undefined throws. */
  function NormalizeLink(link: Json, defaultQuality: Json, hostname: string -> Option<string>): (r: Result<DownloadLink>)
    ensures r.Err? <==> Nullish(link)
    ensures link.Str? ==> r == Ok(DownloadLink(link, Str(StringLinkHost(link.s, hostname)), defaultQuality, Null))
    ensures !Nullish(link) && !link.Str? ==>
              r.Ok? &&
              r.value.url == Coalesce([Get(link, "url"), Get(link, "link")], Str("#")) &&
              r.value.host == Coalesce([Get(link, "host"), Get(link, "name"), Get(link, "provider")], Str("Download")) &&
              r.value.quality == Coalesce([Get(link, "quality"), Get(link, "resolution")], defaultQuality) &&
              r.value.size == Or(Get(link, "size"), Null)
  {
    if link.Str? then Ok(DownloadLink(link, Str(StringLinkHost(link.s, hostname)), defaultQuality, Null))
    else if Nullish(link) then Err(TypeErrorText)
    else
      Ok(DownloadLink(
        Coalesce([Get(link, "url"), Get(link, "link")], Str("#")),
        Coalesce([Get(link, "host"), Get(link, "name"), Get(link, "provider")], Str("Download")),
        Coalesce([Get(link, "quality"), Get(link, "resolution")], defaultQuality),
        Or(Get(link, "size"), Null)))
  }

  /** `link.url && link.url !== '#'` */
  predicate Emitted(l: DownloadLink) {
    Truthy(l.url) && l.url != Str("#")
  }

  /** `links.map(NormalizeLink)`: each element's outcome. */
  function NormalizedEach(links: seq<Json>, defaultQuality: Json, hostname: string -> Option<string>): (rs: seq<Result<DownloadLink>>)
    ensures |rs| == |links| && forall i :: 0 <= i < |links| ==> rs[i] == NormalizeLink(links[i], defaultQuality, hostname)
  {
    seq(|links|, i requires 0 <= i < |links| => NormalizeLink(links[i], defaultQuality, hostname))
  }

  /** One step of `filter` over the mapped array: a thrown error wins, a kept link goes in front. */
  function Prepend(link: Result<DownloadLink>, rest: Result<seq<DownloadLink>>): Result<seq<DownloadLink>> {
    match link
    case Err(e) => Err(e)
    case Ok(l) =>
      if rest.Err? then rest
      else if Emitted(l) then Ok([l] + rest.value)
      else rest
  }

  /** The first error of the mapped array, or its emitted links in order. */
  function Collect(rs: seq<Result<DownloadLink>>): (r: Result<seq<DownloadLink>>)
    ensures r.Err? <==> exists i :: 0 <= i < |rs| && rs[i].Err?
    ensures r.Err? ==> exists i :: 0 <= i < |rs| && rs[i] == Err(r.error)
    ensures r.Ok? ==> |r.value| <= |rs|
    ensures r.Ok? ==> forall l :: l in r.value ==> Emitted(l)
    ensures r.Ok? ==> forall l :: l in r.value <==> Emitted(l) && exists i :: 0 <= i < |rs| && rs[i] == Ok(l)
  {
    if |rs| == 0 then Ok([])
    else
      assert forall i :: 1 <= i < |rs| ==> rs[i] == rs[1..][i - 1];
      Prepend(rs[0], Collect(rs[1..]))
  }

  /** Collecting keeps the order of the outcomes: it distributes over concatenation. */
  lemma {:induction false} CollectAppend(a: seq<Result<DownloadLink>>, b: seq<Result<DownloadLink>>)
    requires Collect(a).Ok? && Collect(b).Ok?
    ensures Collect(a + b) == Ok(Collect(a).value + Collect(b).value)
  {
    if |a| == 0 {
      assert a + b == b;
      assert [] + Collect(b).value == Collect(b).value;
    } else {
      var x, t := a[0], a[1..];
      assert a == [x] + t;
      CollectCons(x, t);
      CollectAppend(t, b);
      assert a + b == [x] + (t + b);
      CollectCons(x, t + b);
      var rt := Collect(t).value;
      var rb := Collect(b).value;
      if Emitted(x.value) {
        EmittedInFront(x.value, rt, rb, Collect([x] + (t + b)), Collect([x] + t));
      }
    }
  }

  /** Collecting a list is one filter step on its head over the collected tail. */
  lemma CollectCons(x: Result<DownloadLink>, t: seq<Result<DownloadLink>>)
    ensures Collect([x] + t) == Prepend(x, Collect(t))
  {
    assert ([x] + t)[1..] == t;
  }

  lemma EmittedInFront(l: DownloadLink, rt: seq<DownloadLink>, rb: seq<DownloadLink>,
                       whole: Result<seq<DownloadLink>>, front: Result<seq<DownloadLink>>)
    requires whole == Ok([l] + (rt + rb)) && front == Ok([l] + rt)
    ensures whole == Ok(front.value + rb)
  {
    assert [l] + (rt + rb) == ([l] + rt) + rb;
  }

  /** `links.map(NormalizeLink).filter(Emitted)`: the map throws on a null element before anything is filtered. */
  function NormalizeLinks(links: seq<Json>, defaultQuality: Json, hostname: string -> Option<string>): (r: Result<seq<DownloadLink>>)
    ensures r.Err? <==> exists i :: 0 <= i < |links| && Nullish(links[i])
    ensures r.Err? ==> r.error == TypeErrorText
    ensures r.Ok? ==> |r.value| <= |links|
    ensures r.Ok? ==> forall l :: l in r.value ==> Emitted(l)
    ensures r.Ok? ==> forall l :: l in r.value <==>
              Emitted(l) && exists i :: 0 <= i < |links| && NormalizeLink(links[i], defaultQuality, hostname) == Ok(l)
  {
    Collect(NormalizedEach(links, defaultQuality, hostname))
  }

  /** Normalisation keeps the order of the links: it distributes over concatenation. */
  lemma NormalizeLinksAppend(a: seq<Json>, b: seq<Json>, defaultQuality: Json, hostname: string -> Option<string>)
    requires NormalizeLinks(a, defaultQuality, hostname).Ok? && NormalizeLinks(b, defaultQuality, hostname).Ok?
    ensures NormalizeLinks(a + b, defaultQuality, hostname) ==
            Ok(NormalizeLinks(a, defaultQuality, hostname).value + NormalizeLinks(b, defaultQuality, hostname).value)
  {
    var na := NormalizedEach(a, defaultQuality, hostname);
    var nb := NormalizedEach(b, defaultQuality, hostname);
    NormalizedEachAppend(a, b, defaultQuality, hostname);
    CollectAppend(na, nb);
  }

  lemma NormalizedEachAppend(a: seq<Json>, b: seq<Json>, defaultQuality: Json, hostname: string -> Option<string>)
    ensures NormalizedEach(a + b, defaultQuality, hostname) ==
            NormalizedEach(a, defaultQuality, hostname) + NormalizedEach(b, defaultQuality, hostname)
  {
    assert forall i :: 0 <= i < |a| ==> (a + b)[i] == a[i];
    assert forall i :: |a| <= i < |a + b| ==> (a + b)[i] == b[i - |a|];
  }

  /** `normalizeIndividualDownloadLinks(linksArray, defaultQuality)`: no links for anything but an array. */
  function NormalizeIndividualDownloadLinks(linksArray: Json, defaultQuality: Json, hostname: string -> Option<string>): (r: Result<seq<DownloadLink>>)
    ensures !linksArray.Arr? ==> r == Ok([])
    ensures linksArray.Arr? ==> r == NormalizeLinks(linksArray.items, defaultQuality, hostname)
  {
    if linksArray.Arr? then NormalizeLinks(linksArray.items, defaultQuality, hostname) else Ok([])
  }

  /** A bare-string link other than "" and "#" becomes one link with the default quality and no size. */
  lemma StringLinkKept(s: string, defaultQuality: Json, hostname: string -> Option<string>)
    requires s != "" && s != "#"
    ensures NormalizeLinks([Str(s)], defaultQuality, hostname) ==
            Ok([DownloadLink(Str(s), Str(StringLinkHost(s, hostname)), defaultQuality, Null)])
  {
    var links := [Str(s)];
    assert links[1..] == [];
    var l := DownloadLink(Str(s), Str(StringLinkHost(s, hostname)), defaultQuality, Null);
    assert NormalizeLink(links[0], defaultQuality, hostname) == Ok(l);
    assert Emitted(l);
    assert [l] + [] == [l];
  }

  /** An object whose `url` and `link` are both missing is given '#' and dropped. */
  lemma LinkWithoutUrlDropped(link: Json, defaultQuality: Json, hostname: string -> Option<string>)
    requires link.Obj? && !Truthy(Get(link, "url")) && !Truthy(Get(link, "link"))
    ensures NormalizeLinks([link], defaultQuality, hostname) == Ok([])
  {
    assert [link][1..] == [];
    assert NormalizeLink(link, defaultQuality, hostname).value.url == Str("#");
  }

  // ----------------------------------------------------------------- view model

  /** The page's view model; `kind` is the source's `type`. */
  datatype BatchInfo = BatchInfo(
    title: Json, poster: Json, downloadLinks: seq<QualityGroup>, batchAvailable: bool, message: Json,
    alternativeTitle: Json, genres: Json, kind: Json, episodes: Json, status: Json, studio: Json, synopsis: Json)

  const PlaceholderPoster: string := "/placeholder-anime.jpg"
  const InvalidMessage: string := "Data batch tidak valid atau tidak ditemukan."

  /** `resp.data || resp`, replaced by its own `data` when that is an object (src/pages/BatchDownload.jsx:33-36). */
  function Payload(resp: Json): Json {
    var raw := Or(Get(resp, "data"), resp);
    var inner := Get(raw, "data");
    if Truthy(raw) && Truthy(inner) && IsObjectType(inner) then inner else raw
  }

  /** `rawBatchData && typeof rawBatchData === 'object'` */
  predicate ValidPayload(raw: Json) {
    raw.Obj? || raw.Arr?
  }

  /** The view model of a payload that is not an object (src/pages/BatchDownload.jsx:38-56). */
  function InvalidInfo(details: Json, titleFromParams: string): BatchInfo {
    BatchInfo(
      Coalesce([Get(details, "title"), Str(titleFromParams)], Str("Anime Batch")),
      Coalesce([Get(details, "poster"), Get(details, "thumbnail"), Get(details, "image")], Str(PlaceholderPoster)),
      [], false, Str(InvalidMessage),
      Get(details, "alternativeTitle"), Get(details, "genres"), Get(details, "type"),
      Or(Get(details, "episodes"), Get(details, "total_episodes")),
      Get(details, "status"), Get(details, "studio"), Get(details, "synopsis"))
  }

  /** `normalizedData` before any link is found (src/pages/BatchDownload.jsx:58-71). */
  function BaseInfo(raw: Json, details: Json, titleFromParams: string): (info: BatchInfo)
    ensures Truthy(info.title) && Truthy(info.poster)
    ensures info.downloadLinks == [] && !info.batchAvailable
  {
    BatchInfo(
      Coalesce([Get(raw, "title"), Get(details, "title"), Str(titleFromParams)], Str("Anime Batch")),
      Coalesce([Get(raw, "poster"), Get(raw, "thumbnail"), Get(raw, "image"),
                Get(details, "poster"), Get(details, "thumbnail"), Get(details, "image")], Str(PlaceholderPoster)),
      [], false, Or(Get(raw, "message"), Null),
      Or(Get(raw, "alternativeTitle"), Get(details, "alternativeTitle")),
      Or(Get(raw, "genres"), Get(details, "genres")),
      Or(Get(raw, "type"), Get(details, "type")),
      Coalesce([Get(raw, "episodes"), Get(raw, "total_episodes"), Get(details, "episodes")], Get(details, "total_episodes")),
      Or(Get(raw, "status"), Get(details, "status")),
      Or(Get(raw, "studio"), Get(details, "studio")),
      Or(Get(raw, "synopsis"), Get(details, "synopsis")))
  }

  /** Where the links come from: a quality map collected by the for-in loop, or a flat list grouped afterwards. */
  datatype LinkSource =
    | QualityMap(fields: seq<(string, Json)>)
    | Flat(links: seq<Json>)

  /**
   * The link source, in priority order (src/pages/BatchDownload.jsx:73-105):
   * non-empty `downloadLinks`, non-empty `download_links`, `downloads` (an
   * array, then its `links` array, then an object as a quality map), non-empty
   * `links`, a single `url`.
   */
  function Source(raw: Json): (s: LinkSource)
    ensures NonEmptyArray(Get(raw, "downloadLinks")) ==> s == Flat(Get(raw, "downloadLinks").items)
    ensures s.QualityMap? ==> Get(raw, "downloads").Obj? && s.fields == Get(raw, "downloads").fields
    ensures s.Flat? && |s.links| == 0 ==>
              !NonEmptyArray(Get(raw, "downloadLinks")) && !NonEmptyArray(Get(raw, "download_links")) &&
              (Truthy(Get(raw, "downloads")) || (!NonEmptyArray(Get(raw, "links")) && !Truthy(Get(raw, "url"))))
    ensures !NonEmptyArray(Get(raw, "downloadLinks")) && NonEmptyArray(Get(raw, "download_links")) ==>
              s == Flat(Get(raw, "download_links").items)
    ensures !NonEmptyArray(Get(raw, "downloadLinks")) && !NonEmptyArray(Get(raw, "download_links")) ==>
              var downloads := Get(raw, "downloads");
              && (downloads.Arr? ==> s == Flat(downloads.items))
              && (downloads.Obj? && Get(downloads, "links").Arr? ==> s == Flat(Get(downloads, "links").items))
              && (downloads.Obj? && !Get(downloads, "links").Arr? ==> s == QualityMap(downloads.fields))
              && (Truthy(downloads) && !downloads.Arr? && !downloads.Obj? ==> s == Flat([]))
    ensures !NonEmptyArray(Get(raw, "downloadLinks")) && !NonEmptyArray(Get(raw, "download_links")) && !Truthy(Get(raw, "downloads")) ==>
              && (NonEmptyArray(Get(raw, "links")) ==> s == Flat(Get(raw, "links").items))
              && (!NonEmptyArray(Get(raw, "links")) && Truthy(Get(raw, "url")) ==>
                    s == Flat([Obj([("url", Get(raw, "url")), ("host", Coalesce([Get(raw, "host"), Get(raw, "name")], Str("Download")))])]))
              && (!NonEmptyArray(Get(raw, "links")) && !Truthy(Get(raw, "url")) ==> s == Flat([]))
  {
    var downloadLinks := Get(raw, "downloadLinks");
    var downloadLinksSnake := Get(raw, "download_links");
    var downloads := Get(raw, "downloads");
    var links := Get(raw, "links");
    if NonEmptyArray(downloadLinks) then Flat(downloadLinks.items)
    else if NonEmptyArray(downloadLinksSnake) then Flat(downloadLinksSnake.items)
    else if Truthy(downloads) then
      var nested := Get(downloads, "links");
      if downloads.Arr? then Flat(downloads.items)
      else if Truthy(nested) && nested.Arr? then Flat(nested.items)
      else if downloads.Obj? then QualityMap(downloads.fields)
      else Flat([])
    else if NonEmptyArray(links) then Flat(links.items)
    else if Truthy(Get(raw, "url")) then
      Flat([Obj([("url", Get(raw, "url")), ("host", Coalesce([Get(raw, "host"), Get(raw, "name")], Str("Download")))])])
    else Flat([])
  }

  // -------------------------------------------------------------- quality map

  /** `key.replace(/_/g, ' ').replace(/\b\w/g, l => l.toUpperCase())` */
  function QualityLabel(key: string): (r: string)
    ensures |r| == |key| && '_' !in r
    ensures forall i :: 0 <= i < |key| ==>
              r[i] == (if key[i] == '_' then ' '
                       else if IsWordChar(key[i]) && (i == 0 || key[i - 1] == '_' || !IsWordChar(key[i - 1])) then UpperChar(key[i])
                       else key[i])
  {
    var spaced := ReplaceChar(key, '_', ' ');
    var r := CapitalizeWords(spaced);
    forall i | 0 <= i < |key|
      ensures r[i] == (if key[i] == '_' then ' '
                       else if IsWordChar(key[i]) && (i == 0 || key[i - 1] == '_' || !IsWordChar(key[i - 1])) then UpperChar(key[i])
                       else key[i])
    {
      SpacedWordStart(key, '_', i);
    }
    assert forall i :: 0 <= i < |r| ==> r[i] != '_' by {
      forall i | 0 <= i < |r| ensures r[i] != '_' {
        assert spaced[i] != '_';
      }
    }
    r
  }

  /** Replacing a word character by a space: a word starts where the original has one after a start or a replaced character. */
  lemma SpacedWordStart(s: string, from: char, i: int)
    requires IsWordChar(from) && 0 <= i < |s|
    ensures var spaced := ReplaceChar(s, from, ' ');
            WordStart(spaced, i) <==> s[i] != from && IsWordChar(s[i]) && (i == 0 || s[i - 1] == from || !IsWordChar(s[i - 1]))
  {
  }

  /** What `.flat()` makes of one value: an array's elements, any other value itself. */
  function Piece(v: Json): seq<Json> {
    if v.Arr? then v.items else [v]
  }

  /** `Object.values(group).flat()`: array values are spliced in, other values kept. */
  function Flatten(values: seq<Json>): seq<Json> {
    if |values| == 0 then [] else Piece(values[0]) + Flatten(values[1..])
  }

  /** A flattened value is one of the values, or an element of one that is an array. */
  lemma {:induction false} FlattenMembers(values: seq<Json>)
    ensures forall x :: x in Flatten(values) <==> exists i :: 0 <= i < |values| && x in Piece(values[i])
  {
    if |values| > 0 {
      FlattenMembers(values[1..]);
      assert forall i :: 1 <= i < |values| ==> values[i] == values[1..][i - 1];
    }
  }

  /** Flattening keeps the order of the values: it distributes over concatenation. */
  lemma {:induction false} FlattenAppend(a: seq<Json>, b: seq<Json>)
    ensures Flatten(a + b) == Flatten(a) + Flatten(b)
  {
    if |a| == 0 {
      assert a + b == b;
    } else {
      assert (a + b)[0] == a[0] && (a + b)[1..] == a[1..] + b;
      FlattenAppend(a[1..], b);
    }
  }

  /** The individual links of a quality entry: an array as it is, an object's values flattened one level. */
  function EntryLinks(group: Json): seq<Json> {
    if group.Arr? then group.items else if group.Obj? then Flatten(Values(group.fields)) else []
  }

  /**
   * One iteration of the for-in loop: an array or object value becomes a group
   * labelled from the key, holding `normalizeIndividualDownloadLinks` of its
   * individual links with the raw key as default quality; a null or undefined
   * individual link throws.
   */
  function QualityEntryGroup(key: string, group: Json, hostname: string -> Option<string>): (r: Result<Option<QualityGroup>>)
    ensures !(group.Arr? || group.Obj?) ==> r == Ok(None)
    ensures r.Err? ==> r.error == TypeErrorText
    ensures r.Ok? && (group.Arr? || group.Obj?) ==> r.value.Some?
    ensures r.Ok? && r.value.Some? ==> r.value.value.quality == Str(QualityLabel(key))
    ensures r.Ok? && r.value.Some? ==> NormalizeLinks(EntryLinks(group), Str(key), hostname) == Ok(r.value.value.links)
  {
    if group.Arr? || group.Obj? then
      match NormalizeLinks(EntryLinks(group), Str(key), hostname)
      case Err(e) => Err(e)
      case Ok(ls) => Ok(Some(QualityGroup(Str(QualityLabel(key)), ls)))
    else Ok(None)
  }

  /** An entry throws exactly when one of its individual links is null or undefined. */
  lemma QualityEntryGroupThrows(key: string, group: Json, hostname: string -> Option<string>)
    requires group.Arr? || group.Obj?
    ensures QualityEntryGroup(key, group, hostname).Err? <==>
              exists i :: 0 <= i < |EntryLinks(group)| && Nullish(EntryLinks(group)[i])
  {
  }

  /** The entries the for-in loop makes a group of: those whose value is an array or an object, in key order. */
  function GroupedEntries(fields: seq<(string, Json)>): (r: seq<(string, Json)>)
    ensures |r| <= |fields|
    ensures forall e :: e in r <==> e in fields && (e.1.Arr? || e.1.Obj?)
  {
    if |fields| == 0 then []
    else
      var init := fields[..|fields| - 1];
      var last := fields[|fields| - 1];
      assert fields == init + [last];
      GroupedEntries(init) + (if last.1.Arr? || last.1.Obj? then [last] else [])
  }

  /** Every link of every group has a truthy url other than '#'. */
  predicate AllEmitted(groups: seq<QualityGroup>) {
    forall k, l :: 0 <= k < |groups| && l in groups[k].links ==> Emitted(l)
  }

  /** The groups the for-in loop collects from the first `|fields|` entries (specification of `CollectQualityGroups`). */
  function QualityMapGroups(fields: seq<(string, Json)>, hostname: string -> Option<string>): (r: Result<seq<QualityGroup>>)
    ensures r.Err? <==> exists i :: 0 <= i < |fields| && QualityEntryGroup(fields[i].0, fields[i].1, hostname).Err?
    ensures r.Err? ==> r.error == TypeErrorText
    ensures r.Ok? ==> |r.value| <= |fields|
    ensures r.Ok? ==> forall g :: g in r.value ==> exists i :: 0 <= i < |fields| && g.quality == Str(QualityLabel(fields[i].0))
    ensures r.Ok? ==> (|r.value| > 0 <==> exists i :: 0 <= i < |fields| && (fields[i].1.Arr? || fields[i].1.Obj?))
    ensures r.Ok? ==> AllEmitted(r.value)
  {
    if |fields| == 0 then Ok([])
    else
      var init := fields[..|fields| - 1];
      var last := fields[|fields| - 1];
      assert forall i :: 0 <= i < |init| ==> init[i] == fields[i];
      assert fields == init + [last];
      match QualityMapGroups(init, hostname)
      case Err(e) => Err(e)
      case Ok(gs) =>
        match QualityEntryGroup(last.0, last.1, hostname)
        case Err(e) => Err(e)
        case Ok(None) => Ok(gs)
        case Ok(Some(g)) => Ok(gs + [g])
  }

  /**
   * The loop makes exactly one group per array or object entry, in key order:
   * the j-th group is the group of the j-th such entry.
   */
  lemma {:induction false} QualityMapGroupsEntries(fields: seq<(string, Json)>, hostname: string -> Option<string>)
    requires QualityMapGroups(fields, hostname).Ok?
    ensures |QualityMapGroups(fields, hostname).value| == |GroupedEntries(fields)|
    ensures forall j :: 0 <= j < |GroupedEntries(fields)| ==>
              QualityEntryGroup(GroupedEntries(fields)[j].0, GroupedEntries(fields)[j].1, hostname)
                == Ok(Some(QualityMapGroups(fields, hostname).value[j]))
  {
    if |fields| > 0 {
      var init := fields[..|fields| - 1];
      var last := fields[|fields| - 1];
      var rest := QualityMapGroups(init, hostname);
      var entry := QualityEntryGroup(last.0, last.1, hostname);
      assert rest.Ok? && entry.Ok?;
      QualityMapGroupsEntries(init, hostname);
      var gs := rest.value;
      var es := GroupedEntries(init);
      var r := QualityMapGroups(fields, hostname).value;
      var E := GroupedEntries(fields);
      if entry.value.Some? {
        assert r == gs + [entry.value.value];
        assert E == es + [last];
      } else {
        assert r == gs;
        assert E == es;
      }
      forall j | 0 <= j < |E|
        ensures QualityEntryGroup(E[j].0, E[j].1, hostname) == Ok(Some(r[j]))
      {
        if j < |es| {
          assert E[j] == es[j] && r[j] == gs[j];
        }
      }
    }
  }

  /** Once an entry throws, the loop's outcome stays that error. */
  lemma QualityMapErrorPersists(fields: seq<(string, Json)>, i: nat, hostname: string -> Option<string>)
    requires i <= |fields|
    requires QualityMapGroups(fields[..i], hostname).Err?
    ensures QualityMapGroups(fields, hostname) == QualityMapGroups(fields[..i], hostname)
  {
    var j :| 0 <= j < i && QualityEntryGroup(fields[..i][j].0, fields[..i][j].1, hostname).Err?;
    assert fields[..i][j] == fields[j];
  }

  /** The for-in loop over a `downloads` quality map (src/pages/BatchDownload.jsx:82-94). */
  method CollectQualityGroups(fields: seq<(string, Json)>, hostname: string -> Option<string>) returns (r: Result<seq<QualityGroup>>)
    ensures r == QualityMapGroups(fields, hostname)
  {
    var linksByQuality: seq<QualityGroup> := [];
    var i := 0;
    while i < |fields|
      invariant 0 <= i <= |fields|
      invariant QualityMapGroups(fields[..i], hostname) == Ok(linksByQuality)
    {
      var key := fields[i].0;
      var group := fields[i].1;
      assert fields[..i + 1][..i] == fields[..i];
      var entry := QualityEntryGroup(key, group, hostname);
      if entry.Err? {
        QualityMapErrorPersists(fields, i + 1, hostname);
        return Err(entry.error);
      }
      if entry.value.Some? {
        linksByQuality := linksByQuality + [entry.value.value];
      }
      i := i + 1;
    }
    assert fields[..|fields|] == fields;
    return Ok(linksByQuality);
  }

  // -------------------------------------------------------- grouping by quality

  /** `linkObj.quality || linkObj.resolution || 'Default Quality'` */
  function QualityOf(link: Json): Json {
    Coalesce([Get(link, "quality"), Get(link, "resolution")], Str("Default Quality"))
  }

  function Labels(links: seq<Json>, labelOf: Json -> Json): (qs: seq<Json>)
    ensures |qs| == |links| && forall i :: 0 <= i < |links| ==> qs[i] == labelOf(links[i])
  {
    seq(|links|, i requires 0 <= i < |links| => labelOf(links[i]))
  }

  /** The distinct labels in order of first appearance (the key order of a `Map` filled in sequence). */
  function FirstAppearances(xs: seq<Json>): (d: seq<Json>)
    ensures forall x :: x in d <==> x in xs
    ensures forall i, j :: 0 <= i < j < |d| ==> d[i] != d[j]
  {
    if |xs| == 0 then []
    else
      var init := xs[..|xs| - 1];
      var x := xs[|xs| - 1];
      assert xs == init + [x];
      var d := FirstAppearances(init);
      if x in d then d else d + [x]
  }

  /** The position of the first occurrence of `x`. */
  function FirstIndex(xs: seq<Json>, x: Json): (k: nat)
    requires x in xs
    ensures k < |xs| && xs[k] == x && forall m :: 0 <= m < k ==> xs[m] != x
  {
    if xs[0] == x then 0 else 1 + FirstIndex(xs[1..], x)
  }

  /** Appending `x` leaves the first index of every earlier label alone and puts a new `x` last. */
  lemma FirstIndexAppend(init: seq<Json>, x: Json, y: Json)
    requires y in init || y == x
    ensures y in init ==> FirstIndex(init + [x], y) == FirstIndex(init, y)
    ensures y !in init ==> FirstIndex(init + [x], y) == |init|
  {
    var xs := init + [x];
    var a := FirstIndex(xs, y);
    if y in init {
      var b := FirstIndex(init, y);
      assert xs[b] == y;
      assert a <= b;
    } else {
      assert xs[|init|] == y;
    }
  }

  /** Labels come out in the order in which they first occur among the links. */
  lemma {:induction false} FirstAppearancesOrdered(xs: seq<Json>)
    ensures forall i, j :: 0 <= i < j < |FirstAppearances(xs)| ==>
              FirstIndex(xs, FirstAppearances(xs)[i]) < FirstIndex(xs, FirstAppearances(xs)[j])
  {
    if |xs| > 0 {
      var init := xs[..|xs| - 1];
      var x := xs[|xs| - 1];
      assert xs == init + [x];
      FirstAppearancesOrdered(init);
      var d0 := FirstAppearances(init);
      var d := FirstAppearances(xs);
      assert d == if x in d0 then d0 else d0 + [x];
      forall i, j | 0 <= i < j < |d| ensures FirstIndex(xs, d[i]) < FirstIndex(xs, d[j]) {
        assert d[i] == d0[i] && d0[i] in init;
        FirstIndexAppend(init, x, d[i]);
        if j < |d0| {
          assert d[j] == d0[j] && d0[j] in init;
          FirstIndexAppend(init, x, d[j]);
        } else {
          assert d[j] == x && x !in init;
          FirstIndexAppend(init, x, x);
        }
      }
    }
  }

  /** The links whose label is `q`, in order (the array a `Map` entry accumulates). */
  function WithLabel(links: seq<Json>, labelOf: Json -> Json, q: Json): (r: seq<Json>)
    ensures |r| <= |links|
  {
    if |links| == 0 then []
    else
      var init := links[..|links| - 1];
      var last := links[|links| - 1];
      var r := WithLabel(init, labelOf, q);
      if labelOf(last) == q then r + [last] else r
  }

  /** A `Map` entry holds exactly the links carrying its label. */
  lemma {:induction false} WithLabelMembers(links: seq<Json>, labelOf: Json -> Json, q: Json)
    ensures forall l :: l in WithLabel(links, labelOf, q) <==> l in links && labelOf(l) == q
  {
    if |links| > 0 {
      var init := links[..|links| - 1];
      var last := links[|links| - 1];
      assert links == init + [last];
      WithLabelMembers(init, labelOf, q);
    }
  }

  /** A label that no link carries has no links. */
  lemma {:induction false} WithLabelAbsent(links: seq<Json>, labelOf: Json -> Json, q: Json)
    requires q !in Labels(links, labelOf)
    ensures WithLabel(links, labelOf, q) == []
  {
    if |links| > 0 {
      var init := links[..|links| - 1];
      var last := links[|links| - 1];
      assert Labels(links, labelOf) == Labels(init, labelOf) + [labelOf(last)];
      WithLabelAbsent(init, labelOf, q);
    }
  }

  /** The `Map` filled by the forEach loop: each label to the links carrying it. */
  function Grouped(links: seq<Json>, labelOf: Json -> Json): (g: map<Json, seq<Json>>)
    ensures forall q :: q in g <==> q in Labels(links, labelOf)
  {
    if |links| == 0 then map[]
    else
      var g := Grouped(links[..|links| - 1], labelOf);
      var link := links[|links| - 1];
      assert Labels(links, labelOf) == Labels(links[..|links| - 1], labelOf) + [labelOf(link)];
      var q := labelOf(link);
      g[q := (if q in g then g[q] else []) + [link]]
  }

  /** The `Map` has one entry per label that occurs, holding exactly the links with that label, in order. */
  lemma {:induction false} GroupedMeaning(links: seq<Json>, labelOf: Json -> Json)
    ensures forall q :: q in Grouped(links, labelOf) ==> Grouped(links, labelOf)[q] == WithLabel(links, labelOf, q)
  {
    if |links| > 0 {
      var init := links[..|links| - 1];
      var link := links[|links| - 1];
      assert links == init + [link];
      GroupedMeaning(init, labelOf);
      LabelsSnoc(init, link, labelOf);
      var q := labelOf(link);
      forall q' | q' in Grouped(links, labelOf) ensures Grouped(links, labelOf)[q'] == WithLabel(links, labelOf, q') {
        WithLabelSnoc(init, link, labelOf, q');
        if q' == q && q !in Grouped(init, labelOf) {
          WithLabelAbsent(init, labelOf, q);
        }
      }
    }
  }


  lemma FirstAppearancesSnoc(xs: seq<Json>, x: Json)
    ensures FirstAppearances(xs + [x]) == if x in xs then FirstAppearances(xs) else FirstAppearances(xs) + [x]
  {
    assert (xs + [x])[..|xs|] == xs;
  }

  lemma WithLabelSnoc(links: seq<Json>, link: Json, labelOf: Json -> Json, q: Json)
    ensures WithLabel(links + [link], labelOf, q) == if labelOf(link) == q then WithLabel(links, labelOf, q) + [link] else WithLabel(links, labelOf, q)
  {
    assert (links + [link])[..|links|] == links;
  }

  lemma LabelsSnoc(links: seq<Json>, link: Json, labelOf: Json -> Json)
    ensures Labels(links + [link], labelOf) == Labels(links, labelOf) + [labelOf(link)]
  {
  }

  /** Appending a link adds its label at the end of the key order if it is new. */
  lemma OrderSnoc(links: seq<Json>, link: Json, labelOf: Json -> Json)
    ensures var q := labelOf(link);
            var order := FirstAppearances(Labels(links, labelOf));
            FirstAppearances(Labels(links + [link], labelOf)) == if q in order then order else order + [q]
  {
    LabelsSnoc(links, link, labelOf);
    FirstAppearancesSnoc(Labels(links, labelOf), labelOf(link));
  }

  ghost predicate NoneNullish(links: seq<Json>) {
    forall l :: l in links ==> !Nullish(l)
  }

  /** One iteration of the forEach loop keeps the loop invariant of `GroupByLabel`. */
  lemma GroupStep(links: seq<Json>, labelOf: Json -> Json, i: nat, order: seq<Json>, m: map<Json, seq<Json>>,
                  order': seq<Json>, m': map<Json, seq<Json>>)
    requires i < |links| && !Nullish(links[i])
    requires NoneNullish(links[..i]) && order == FirstAppearances(Labels(links[..i], labelOf)) && m == Grouped(links[..i], labelOf)
    requires var q := labelOf(links[i]);
             && order' == (if q !in m then order + [q] else order)
             && m' == (if q !in m then m[q := []] else m)[q := (if q !in m then m[q := []] else m)[q] + [links[i]]]
    ensures NoneNullish(links[..i + 1])
    ensures order' == FirstAppearances(Labels(links[..i + 1], labelOf))
    ensures m' == Grouped(links[..i + 1], labelOf)
  {
    var link := links[i];
    var next := links[..i + 1];
    assert next == links[..i] + [link];
    assert forall l :: l in next ==> l in links[..i] || l == link;
    OrderSnoc(links[..i], link, labelOf);
    GroupedSnoc(links[..i], link, labelOf);
    BucketPush(m, labelOf(link), link);
  }

  /** The map for one more link: that link appended to its label's bucket. */
  lemma GroupedSnoc(links: seq<Json>, link: Json, labelOf: Json -> Json)
    ensures var g := Grouped(links, labelOf);
            var q := labelOf(link);
            Grouped(links + [link], labelOf) == g[q := (if q in g then g[q] else []) + [link]]
  {
    assert (links + [link])[..|links|] == links;
  }

  /** `if (!map.has(q)) map.set(q, []); map.get(q).push(link)` as one update. */
  lemma BucketPush(m: map<Json, seq<Json>>, q: Json, link: Json)
    ensures var m1 := if q !in m then m[q := []] else m;
            m1[q := m1[q] + [link]] == m[q := (if q in m then m[q] else []) + [link]]
  {
    if q !in m {
      assert [] + [link] == [link];
    }
  }

  lemma NoNullishLink(links: seq<Json>)
    requires NoneNullish(links)
    ensures !exists i :: 0 <= i < |links| && Nullish(links[i])
  {
    assert forall k :: 0 <= k < |links| ==> links[k] in links;
  }

  /**
   * The forEach loop of src/pages/BatchDownload.jsx:107-115: one `Map` entry per
   * label, created at the label's first appearance; a null or undefined link
   * makes `linkObj.quality` throw.
   */
  method GroupByLabel(links: seq<Json>, labelOf: Json -> Json) returns (r: Result<(seq<Json>, map<Json, seq<Json>>)>)
    ensures r.Err? <==> exists i :: 0 <= i < |links| && Nullish(links[i])
    ensures r.Err? ==> r.error == TypeErrorText
    ensures r.Ok? ==> r.value.0 == FirstAppearances(Labels(links, labelOf)) && r.value.1 == Grouped(links, labelOf)
  {
    var order: seq<Json> := [];
    var linksByQualityMap: map<Json, seq<Json>> := map[];
    var i := 0;
    while i < |links|
      invariant 0 <= i <= |links|
      invariant NoneNullish(links[..i])
      invariant order == FirstAppearances(Labels(links[..i], labelOf))
      invariant linksByQualityMap == Grouped(links[..i], labelOf)
    {
      var link := links[i];
      if Nullish(link) {
        return Err(TypeErrorText);
      }
      var q := labelOf(link);
      ghost var order0, map0 := order, linksByQualityMap;
      if q !in linksByQualityMap {
        order := order + [q];
        linksByQualityMap := linksByQualityMap[q := []];
      }
      linksByQualityMap := linksByQualityMap[q := linksByQualityMap[q] + [link]];
      GroupStep(links, labelOf, i, order0, map0, order, linksByQualityMap);
      i := i + 1;
    }
    assert links[..|links|] == links;
    NoNullishLink(links);
    return Ok((order, linksByQualityMap));
  }

  /** `Array.from(map.entries()).map(([quality, links]) => ({quality, links: normalize(links, quality)}))` */
  function GroupsOf(order: seq<Json>, linksByQualityMap: map<Json, seq<Json>>, hostname: string -> Option<string>): (r: Result<seq<QualityGroup>>)
    requires forall q :: q in order ==> q in linksByQualityMap
    ensures r.Ok? ==> |r.value| == |order|
    ensures r.Ok? ==> forall k :: 0 <= k < |order| ==>
              r.value[k].quality == order[k] &&
              NormalizeLinks(linksByQualityMap[order[k]], order[k], hostname) == Ok(r.value[k].links)
    ensures r.Ok? ==> AllEmitted(r.value)
  {
    if |order| == 0 then Ok([])
    else
      var rest := GroupsOf(order[1..], linksByQualityMap, hostname);
      match NormalizeLinks(linksByQualityMap[order[0]], order[0], hostname)
      case Err(e) => Err(e)
      case Ok(ls) =>
        if rest.Err? then rest
        else
          var groups := [QualityGroup(order[0], ls)] + rest.value;
          assert forall k :: 1 <= k < |order| ==> order[k] == order[1..][k - 1] && groups[k] == rest.value[k - 1];
          Ok(groups)
  }

  /** Grouped links are never null, so normalising the groups cannot throw. */
  lemma GroupsOfGrouped(links: seq<Json>, hostname: string -> Option<string>)
    requires forall i :: 0 <= i < |links| ==> !Nullish(links[i])
    ensures GroupsOf(FirstAppearances(Labels(links, QualityOf)), Grouped(links, QualityOf), hostname).Ok?
  {
    var order := FirstAppearances(Labels(links, QualityOf));
    GroupedMeaning(links, QualityOf);
    forall q | q in order ensures forall l :: l in Grouped(links, QualityOf)[q] ==> !Nullish(l) {
      WithLabelMembers(links, QualityOf, q);
    }
    GroupsOfOk(order, Grouped(links, QualityOf), hostname);
  }

  lemma {:induction false} GroupsOfOk(order: seq<Json>, linksByQualityMap: map<Json, seq<Json>>, hostname: string -> Option<string>)
    requires forall q :: q in order ==> q in linksByQualityMap
    requires forall q :: q in order ==> forall l :: l in linksByQualityMap[q] ==> !Nullish(l)
    ensures GroupsOf(order, linksByQualityMap, hostname).Ok?
  {
    if |order| > 0 {
      GroupsOfOk(order[1..], linksByQualityMap, hostname);
      assert order[0] in order;
      var ls := linksByQualityMap[order[0]];
      assert forall i :: 0 <= i < |ls| ==> !Nullish(ls[i]) by {
        forall i | 0 <= i < |ls| ensures !Nullish(ls[i]) { assert ls[i] in ls; }
      }
    }
  }

  // ------------------------------------------------------------ the whole page model

  /** `downloadLinks.some(group => group.links && group.links.length > 0)` */
  predicate SomeGroupHasLinks(groups: seq<QualityGroup>) {
    exists k :: 0 <= k < |groups| && |groups[k].links| > 0
  }

  /** The grouping of a flat list of links: a null link throws, otherwise one group per label. */
  function FlatGroups(links: seq<Json>, hostname: string -> Option<string>): (r: Result<seq<QualityGroup>>)
    ensures r.Err? <==> exists i :: 0 <= i < |links| && Nullish(links[i])
    ensures r.Ok? ==> AllEmitted(r.value)
  {
    if exists i :: 0 <= i < |links| && Nullish(links[i]) then Err(TypeErrorText)
    else
      GroupsOfGrouped(links, hostname);
      GroupedMeaning(links, QualityOf);
      GroupsOf(FirstAppearances(Labels(links, QualityOf)), Grouped(links, QualityOf), hostname)
  }

  /** Every link's label has a group. */
  lemma FlatGroupsCover(links: seq<Json>, hostname: string -> Option<string>)
    requires FlatGroups(links, hostname).Ok?
    ensures var groups := FlatGroups(links, hostname).value;
            forall i :: 0 <= i < |links| ==> exists k :: 0 <= k < |groups| && groups[k].quality == QualityOf(links[i])
  {
    var qs := Labels(links, QualityOf);
    var order := FirstAppearances(qs);
    var groups := FlatGroups(links, hostname).value;
    GroupedMeaning(links, QualityOf);
    assert GroupsOf(order, Grouped(links, QualityOf), hostname) == Ok(groups);
    forall i | 0 <= i < |links| ensures exists k :: 0 <= k < |groups| && groups[k].quality == QualityOf(links[i]) {
      assert qs[i] in qs;
      var k :| 0 <= k < |order| && order[k] == qs[i];
      assert groups[k].quality == order[k];
    }
  }

  /** Groups have distinct labels, in the order in which each label first appears among the links. */
  lemma FlatGroupsOrdered(links: seq<Json>, hostname: string -> Option<string>)
    requires FlatGroups(links, hostname).Ok?
    ensures var groups := FlatGroups(links, hostname).value;
            forall k1, k2 :: 0 <= k1 < k2 < |groups| ==>
              groups[k1].quality != groups[k2].quality &&
              FirstIndex(Labels(links, QualityOf), groups[k1].quality) < FirstIndex(Labels(links, QualityOf), groups[k2].quality)
  {
    var qs := Labels(links, QualityOf);
    var order := FirstAppearances(qs);
    FirstAppearancesOrdered(qs);
    var groups := FlatGroups(links, hostname).value;
    GroupedMeaning(links, QualityOf);
    assert GroupsOf(order, Grouped(links, QualityOf), hostname) == Ok(groups);
    forall k1, k2 | 0 <= k1 < k2 < |groups|
      ensures groups[k1].quality != groups[k2].quality &&
              FirstIndex(qs, groups[k1].quality) < FirstIndex(qs, groups[k2].quality)
    {
      assert groups[k1].quality == order[k1] && groups[k2].quality == order[k2];
    }
  }

  /** Each group holds the normalised links carrying its label, in their original order. */
  lemma FlatGroupsContents(links: seq<Json>, hostname: string -> Option<string>)
    requires FlatGroups(links, hostname).Ok?
    ensures var groups := FlatGroups(links, hostname).value;
            forall k :: 0 <= k < |groups| ==>
              NormalizeLinks(WithLabel(links, QualityOf, groups[k].quality), groups[k].quality, hostname) == Ok(groups[k].links)
  {
    var order := FirstAppearances(Labels(links, QualityOf));
    var groups := FlatGroups(links, hostname).value;
    GroupedMeaning(links, QualityOf);
    assert GroupsOf(order, Grouped(links, QualityOf), hostname) == Ok(groups);
    forall k | 0 <= k < |groups|
      ensures NormalizeLinks(WithLabel(links, QualityOf, groups[k].quality), groups[k].quality, hostname) == Ok(groups[k].links)
    {
      assert order[k] in order;
      assert Grouped(links, QualityOf)[order[k]] == WithLabel(links, QualityOf, order[k]);
    }
  }

  /**
   * The links of the view model and `batchAvailable` (src/pages/BatchDownload.jsx:73-130).
   * `batchAvailable` is "some group has a link", except after a quality map,
   * where it is true as soon as one array or object quality entry exists, even
   * when all of its links were filtered out.
   */
  function SourceGroups(source: LinkSource, hostname: string -> Option<string>): (r: Result<(seq<QualityGroup>, bool)>)
    ensures r.Ok? && source.QualityMap? && |r.value.0| > 0 ==> r.value.1
    ensures r.Ok? && !(source.QualityMap? && |r.value.0| > 0) ==> r.value.1 == SomeGroupHasLinks(r.value.0)
    ensures source.Flat? ==> (r.Err? <==> exists i :: 0 <= i < |source.links| && Nullish(source.links[i]))
    ensures r.Ok? ==> AllEmitted(r.value.0)
  {
    match source
    case QualityMap(fields) =>
      (match QualityMapGroups(fields, hostname)
       case Err(e) => Err(e)
       case Ok(gs) => if |gs| > 0 then Ok((gs, true)) else Ok(([], false)))
    case Flat(links) =>
      if |links| == 0 then Ok(([], false))
      else
        match FlatGroups(links, hostname)
        case Err(e) => Err(e)
        case Ok(gs) => Ok((gs, SomeGroupHasLinks(gs)))
  }

  /** A quality-map entry whose links are all filtered out still makes the batch available. */
  lemma EmptyQualityEntryAvailable(hostname: string -> Option<string>)
    ensures SourceGroups(QualityMap([("720p", Arr([]))]), hostname) == Ok(([QualityGroup(Str("720p"), [])], true))
  {
    var fields := [("720p", Arr([]))];
    assert fields[..|fields| - 1] == [];
    assert QualityMapGroups(fields[..|fields| - 1], hostname) == Ok([]);
    assert [] + [QualityGroup(Str("720p"), [])] == [QualityGroup(Str("720p"), [])];
    assert QualityLabel("720p") == "720p";
    assert QualityEntryGroup("720p", Arr([]), hostname) == Ok(Some(QualityGroup(Str("720p"), [])));
    assert QualityMapGroups(fields, hostname) == Ok([QualityGroup(Str("720p"), [])]);
  }

  /** The steps of src/pages/BatchDownload.jsx:73-130: the quality-map loop or the grouping loop. */
  method ExtractGroups(source: LinkSource, hostname: string -> Option<string>) returns (r: Result<(seq<QualityGroup>, bool)>)
    ensures r == SourceGroups(source, hostname)
  {
    var downloadLinks: seq<QualityGroup> := [];
    var extracted: seq<Json> := [];
    match source {
      case QualityMap(fields) =>
        var collected := CollectQualityGroups(fields, hostname);
        if collected.Err? {
          return Err(collected.error);
        }
        if |collected.value| > 0 {
          return Ok((collected.value, true));
        }
      case Flat(links) =>
        extracted := links;
    }
    if |extracted| > 0 {
      var grouped := GroupByLabel(extracted, QualityOf);
      if grouped.Err? {
        return Err(grouped.error);
      }
      GroupsOfGrouped(extracted, hostname);
      GroupedMeaning(extracted, QualityOf);
      downloadLinks := GroupsOf(grouped.value.0, grouped.value.1, hostname).value;
    }
    return Ok((downloadLinks, SomeGroupHasLinks(downloadLinks)));
  }

  /** The view model of an object payload: the coalesced fields and the links of the first source that has any. */
  function PayloadInfo(raw: Json, details: Json, titleFromParams: string, hostname: string -> Option<string>): (r: Result<BatchInfo>)
    ensures r.Ok? ==> Truthy(r.value.title) && Truthy(r.value.poster)
    ensures r.Err? <==> SourceGroups(Source(raw), hostname).Err?
    ensures r.Ok? ==> r.value.title == Coalesce([Get(raw, "title"), Get(details, "title"), Str(titleFromParams)], Str("Anime Batch"))
    ensures r.Ok? ==> r.value.poster == Coalesce([Get(raw, "poster"), Get(raw, "thumbnail"), Get(raw, "image"),
                                                  Get(details, "poster"), Get(details, "thumbnail"), Get(details, "image")], Str(PlaceholderPoster))
    ensures r.Ok? ==> r.value.message == Or(Get(raw, "message"), Null)
    ensures r.Ok? ==> (r.value.downloadLinks, r.value.batchAvailable) == SourceGroups(Source(raw), hostname).value
    ensures r.Ok? ==> AllEmitted(r.value.downloadLinks)
  {
    match SourceGroups(Source(raw), hostname)
    case Err(e) => Err(e)
    case Ok(found) => Ok(BaseInfo(raw, details, titleFromParams).(downloadLinks := found.0, batchAvailable := found.1))
  }

  /**
   * `normalizeFullBatchData(batchResponse, animeDetailsData, animeTitleFromParams)`
   * (src/pages/BatchDownload.jsx:30-132): None for a falsy response; the
   * fallback view model for a payload that is not an object; otherwise the
   * coalesced fields with the links of the first source that has any.
   */
  method NormalizeFullBatchData(resp: Json, details: Json, titleFromParams: string, hostname: string -> Option<string>)
    returns (r: Result<Option<BatchInfo>>)
    ensures !Truthy(resp) ==> r == Ok(None)
    ensures Truthy(resp) && !ValidPayload(Payload(resp)) ==> r == Ok(Some(InvalidInfo(details, titleFromParams)))
    ensures Truthy(resp) && ValidPayload(Payload(resp)) ==>
              r == match PayloadInfo(Payload(resp), details, titleFromParams, hostname)
                   case Ok(info) => Ok(Some(info))
                   case Err(e) => Err(e)
  {
    if !Truthy(resp) {
      return Ok(None);
    }
    var raw := Or(Get(resp, "data"), resp);
    if Truthy(raw) && Truthy(Get(raw, "data")) && IsObjectType(Get(raw, "data")) {
      raw := Get(raw, "data");
    }
    if !ValidPayload(raw) {
      return Ok(Some(InvalidInfo(details, titleFromParams)));
    }
    var info := NormalizePayload(raw, details, titleFromParams, hostname);
    if info.Err? {
      return Err(info.error);
    }
    return Ok(Some(info.value));
  }

  /** The view model of an object payload (src/pages/BatchDownload.jsx:58-130): the base fields with the links of the first source that has any. */
  method NormalizePayload(raw: Json, details: Json, titleFromParams: string, hostname: string -> Option<string>)
    returns (r: Result<BatchInfo>)
    ensures r == PayloadInfo(raw, details, titleFromParams, hostname)
  {
    var found := ExtractGroups(Source(raw), hostname);
    if found.Err? {
      return Err(found.error);
    }
    var info := BaseInfo(raw, details, titleFromParams);
    info := info.(downloadLinks := found.value.0, batchAvailable := found.value.1);
    return Ok(info);
  }

  /** The placeholder title built from the route's id: hyphens become spaces and each word is capitalised (src/pages/BatchDownload.jsx:162). */
  function TitleFromSlug(animeId: string): (r: string)
    ensures |r| == |animeId| && '-' !in r
    ensures forall i :: 0 <= i < |animeId| && animeId[i] == '-' ==> r[i] == ' '
    ensures forall i :: 0 <= i < |animeId| && animeId[i] != '-' ==>
              r[i] == (if WordStart(animeId, i) then UpperChar(animeId[i]) else animeId[i])
  {
    var spaced := ReplaceChar(animeId, '-', ' ');
    var r := CapitalizeWords(spaced);
    assert forall i :: 0 <= i < |r| ==> r[i] != '-' by {
      forall i | 0 <= i < |r| ensures r[i] != '-' {
        assert spaced[i] != '-';
      }
    }
    r
  }

  /** The document title (src/pages/BatchDownload.jsx:166-170). */
  function DocumentTitle(info: Option<BatchInfo>): (t: string)
    ensures info.Some? && Truthy(info.value.title) ==> t == "Batch Download " + Display(info.value.title) + " - DaunNime"
    ensures info.None? ==> t == "Batch Download - DaunNime"
  {
    if info.Some? && Truthy(info.value.title) then "Batch Download " + Display(info.value.title) + " - DaunNime"
    else "Batch Download - DaunNime"
  }
}
