/**
 * src/services/batchService.js: `fetchWithSafeJson`, which classifies one
 * response, and `getBatchDownload`, the cascade of shape checks over the batch
 * endpoint's answer and then over the anime details, converting host→url maps,
 * quality→host maps and per-episode download maps into `{quality, links}`
 * groups and deciding `batchAvailable`.
 *
 * The objects the source rewrites in place (`primary.batch.downloadLinks`,
 * `details.data`, `details.data.batch.downloadLinks`,
 * `details.batch.downloadLinks`) are fresh results of `JSON.parse` that only
 * leave the call through the returned `data`; each rewrite is modelled by
 * building the updated value (`Js.SetField`).
 */
module BatchService {
  import opened Js
  import Api

  // ------------------------------------------------------------ fetchWithSafeJson

  /** `{ error: message }` */
  function ErrorObject(message: string): Json {
    Obj([("error", Str(message))])
  }

  /** `{ text }` */
  function TextObject(text: string): Json {
    Obj([("text", Str(text))])
  }

  /**
   * The detail of a failed response (src/services/batchService.js:16-22): the
   * body's `message`, else `error`, else its JSON text (optional chaining makes a
   * null body "null"); the status text or 'Unknown error' when the body is not JSON.
   */
  function SafeErrorDetail(r: Api.Response): string {
    match Api.ReadJson(r.body)
    case Err(_) => if r.statusText != "" then r.statusText else "Unknown error"
    case Ok(d) => Display(Coalesce([Get(d, "message"), Get(d, "error")], Str(Stringify(d))))
  }

  /** `fetchWithSafeJson(url)` given the outcome of its `fetch`. */
  function FetchWithSafeJson(ex: Api.Exchange): (r: Result<Json>)
    ensures r.Err? <==> ex.NetworkError? || !Api.IsOk(ex.response)
    ensures ex.NetworkError? ==> r == Err(ex.message)
    ensures ex.Answered? && !Api.IsOk(ex.response) ==>
              r == Err(Api.ApiError(ex.response.status, SafeErrorDetail(ex.response)))
    ensures ex.Answered? && Api.IsOk(ex.response) && ex.response.body.Unreadable? ==>
              r == Ok(ErrorObject("Failed to read response text"))
    ensures ex.Answered? && Api.IsOk(ex.response) && ex.response.body.Text? ==>
              var b := ex.response.body;
              if !Api.LooksLikeJson(b.text) then r == Ok(TextObject(b.text))
              else if b.trimmedParsed.Ok? then r == b.trimmedParsed
              else r == Ok(ErrorObject("Invalid JSON structure"))
  {
    match ex
    case NetworkError(m) => Err(m)
    case Answered(resp) =>
      if !Api.IsOk(resp) then Err(Api.ApiError(resp.status, SafeErrorDetail(resp)))
      else
        match resp.body
        case Unreadable(_) => Ok(ErrorObject("Failed to read response text"))
        case Text(text, _, trimmedParsed) =>
          if Api.LooksLikeJson(text) then
            if trimmedParsed.Ok? then trimmedParsed else Ok(ErrorObject("Invalid JSON structure"))
          else Ok(TextObject(text))
  }

  // ------------------------------------------------------------- links and groups

  /** `{ url, host }` */
  datatype Link = Link(url: Json, host: Json)

  /** `{ quality, links }` */
  datatype Group = Group(quality: Json, links: Json)

  function LinkJson(l: Link): Json {
    Obj([("url", l.url), ("host", l.host)])
  }

  function LinksJson(links: seq<Link>): Json {
    Arr(seq(|links|, i requires 0 <= i < |links| => LinkJson(links[i])))
  }

  function GroupJson(g: Group): Json {
    Obj([("quality", g.quality), ("links", g.links)])
  }

  function GroupsJson(gs: seq<Group>): Json {
    Arr(seq(|gs|, i requires 0 <= i < |gs| => GroupJson(gs[i])))
  }

  /** `[v?.f1, v?.f2, ...]` */
  function Props(v: Json, names: seq<string>): (r: seq<Json>)
    ensures |r| == |names|
    ensures forall i :: 0 <= i < |names| ==> r[i] == Get(v, names[i])
  {
    seq(|names|, i requires 0 <= i < |names| => Get(v, names[i]))
  }

  /**
   * The link one entry of a host map becomes: a string value is the url and
   * the key the host; otherwise the url is `value?.url || ''` and the host the
   * first truthy of the `hostFields` properties, else the key. The host
   * properties differ between call sites: `host`, `name` (primary and detail
   * batches, host-keyed downloads), none (quality maps), `host` (episodes).
   */
  function HostLink(key: string, v: Json, hostFields: seq<string>): (l: Link)
    ensures v.Str? ==> l == Link(v, Str(key))
    ensures Truthy(l.url) <==> if v.Str? then v.s != "" else Truthy(Get(v, "url"))
    ensures key != "" ==> Truthy(l.host)
    ensures hostFields == [] ==> l.host == Str(key)
    ensures !v.Str? && Truthy(Get(v, "url")) ==> l.url == Get(v, "url")
    ensures !v.Str? && !Truthy(Get(v, "url")) ==> l.url == Str("")
    ensures !v.Str? && FirstTruthy(Props(v, hostFields)) < |hostFields| ==>
              l.host == Get(v, hostFields[FirstTruthy(Props(v, hostFields))])
    ensures !v.Str? && FirstTruthy(Props(v, hostFields)) == |hostFields| ==> l.host == Str(key)
  {
    if v.Str? then Link(v, Str(key))
    else Link(Or(Get(v, "url"), Str("")), Coalesce(Props(v, hostFields), Str(key)))
  }

  /** `Object.keys(m).map(key => HostLink(key, m[key]))` over the entries of `m`. */
  function HostLinks(entries: seq<(string, Json)>, hostFields: seq<string>): (links: seq<Link>)
    ensures |links| == |entries|
    ensures forall i :: 0 <= i < |entries| ==> links[i] == HostLink(entries[i].0, entries[i].1, hostFields)
  {
    seq(|entries|, i requires 0 <= i < |entries| => HostLink(entries[i].0, entries[i].1, hostFields))
  }

  /** A host map whose values are all strings is given back by its links: one link per key, in key order. */
  lemma HostLinksOfStringMap(entries: seq<(string, Json)>, hostFields: seq<string>)
    requires forall i :: 0 <= i < |entries| ==> entries[i].1.Str?
    ensures var links := HostLinks(entries, hostFields);
            forall i :: 0 <= i < |links| ==> links[i].host.Str? && (links[i].host.s, links[i].url) == entries[i]
  {
    var links := HostLinks(entries, hostFields);
    forall i | 0 <= i < |links|
      ensures links[i].host.Str? && (links[i].host.s, links[i].url) == entries[i]
    {
      assert links[i] == Link(entries[i].1, Str(entries[i].0));
    }
  }

  /** `[{ quality: 'Default', links: <host map as links> }]` for a host-keyed map. */
  function DefaultHostGroup(entries: seq<(string, Json)>): (g: Group)
    ensures g.quality == Str("Default") && g.links.Arr? && |g.links.items| == |entries|
    ensures forall i :: 0 <= i < |entries| ==> g.links.items[i] == LinkJson(HostLink(entries[i].0, entries[i].1, ["host", "name"]))
  {
    Group(Str("Default"), LinksJson(HostLinks(entries, ["host", "name"])))
  }

  /**
   * A quality map: one group per key, whose links are the value itself when it
   * is an array and the value's host map (host = key) otherwise. With
   * `emptyForFalsy` a falsy value counts as `{}` (src/services/batchService.js:301);
   * without it a null or undefined value makes `Object.keys` throw.
   */
  function QualityGroups(entries: seq<(string, Json)>, emptyForFalsy: bool): (r: Result<seq<Group>>)
    ensures r.Err? ==> r.error == TypeErrorText
    ensures r.Err? <==> !emptyForFalsy && exists i :: 0 <= i < |entries| && Nullish(entries[i].1)
    ensures r.Ok? ==> |r.value| == |entries|
    ensures r.Ok? ==> forall i :: 0 <= i < |entries| ==> r.value[i].quality == Str(entries[i].0)
    ensures r.Ok? ==> forall i :: 0 <= i < |entries| && entries[i].1.Arr? ==> r.value[i].links == entries[i].1
    ensures r.Ok? ==> forall i :: 0 <= i < |entries| && entries[i].1.Obj? ==>
              r.value[i].links == LinksJson(HostLinks(entries[i].1.fields, []))
    ensures r.Ok? ==> forall i :: 0 <= i < |entries| && !Truthy(entries[i].1) ==> r.value[i].links == Arr([])
  {
    if |entries| == 0 then Ok([])
    else
      var key := entries[0].0;
      var v := entries[0].1;
      var source := if emptyForFalsy then Or(v, Obj([])) else v;
      var links: Result<Json> :=
        if v.Arr? then Ok(v)
        else match Entries(source)
             case Err(e) => Err(e)
             case Ok(es) => Ok(LinksJson(HostLinks(es, [])));
      var rest := QualityGroups(entries[1..], emptyForFalsy);
      assert forall i :: 1 <= i < |entries| ==> entries[i] == entries[1..][i - 1];
      FalsyEntries(source);
      assert LinksJson([]) == Arr([]);
      if links.Err? then Err(links.error)
      else if rest.Err? then Err(rest.error)
      else Ok([Group(Str(key), links.value)] + rest.value)
  }

  /** A falsy value that is not null or undefined has no keys. */
  lemma FalsyEntries(j: Json)
    ensures !Truthy(j) && !Nullish(j) ==> Entries(j) == Ok([])
  {
  }

  /** `Object.values(m).some(val => typeof val === 'object' && val !== null)` */
  predicate HasObjectValue(fields: seq<(string, Json)>) {
    exists i :: 0 <= i < |fields| && (fields[i].1.Arr? || fields[i].1.Obj?)
  }

  /**
   * The `downloadLinks` a truthy `downloads` value becomes
   * (src/services/batchService.js:227-259, 426-457): an array as it is; an
   * object with some object value as quality groups; any other object as one
   * 'Default' group of host links; anything else as no links.
   */
  function DownloadsGroups(downloads: Json): (r: Result<seq<Json>>)
    ensures r.Err? ==> r.error == TypeErrorText
    ensures downloads.Arr? ==> r == Ok(downloads.items)
    ensures downloads.Obj? && HasObjectValue(downloads.fields) ==>
              (r.Ok? <==> QualityGroups(downloads.fields, false).Ok?) &&
              (r.Ok? ==> r.value == GroupsJson(QualityGroups(downloads.fields, false).value).items)
    ensures downloads.Obj? && !HasObjectValue(downloads.fields) ==>
              r == Ok([GroupJson(DefaultHostGroup(downloads.fields))])
    ensures !downloads.Arr? && !downloads.Obj? ==> r == Ok([])
  {
    match downloads
    case Arr(items) => Ok(items)
    case Obj(fields) =>
      if HasObjectValue(fields) then
        match QualityGroups(fields, false)
        case Err(e) => Err(e)
        case Ok(gs) => Ok(GroupsJson(gs).items)
      else Ok([GroupJson(DefaultHostGroup(fields))])
    case _ => Ok([])
  }

  /** A link counts when its `url` is truthy. */
  predicate LinkHasUrl(link: Json) {
    Truthy(Get(link, "url"))
  }

  /** A group counts when its `links` is a non-empty array holding a link with a url. */
  predicate GroupHasUrl(item: Json) {
    var links := Get(item, "links");
    links.Arr? && exists j :: 0 <= j < |links.items| && LinkHasUrl(links.items[j])
  }

  /**
   * `links.some(link => link.url)`, or with `guardLink` `links.some(link => link && link.url)`:
   * without the guard a null or undefined link reached before a match throws.
   */
  function SomeLinkHasUrl(links: seq<Json>, guardLink: bool): (r: Result<bool>)
    ensures r.Err? ==> r.error == TypeErrorText
    ensures r.Ok? ==> (r.value <==> exists j :: 0 <= j < |links| && LinkHasUrl(links[j]))
    ensures guardLink ==> r.Ok?
    ensures (forall j :: 0 <= j < |links| ==> !Nullish(links[j])) ==> r.Ok?
  {
    if |links| == 0 then Ok(false)
    else if Nullish(links[0]) && !guardLink then Err(TypeErrorText)
    else if LinkHasUrl(links[0]) then Ok(true)
    else
      var rest := SomeLinkHasUrl(links[1..], guardLink);
      assert forall j :: 1 <= j < |links| ==> links[j] == links[1..][j - 1];
      rest
  }

  /** `item.links && item.links.length > 0 && item.links.some(...)` for one group. */
  function ItemHasUrl(item: Json, guardLink: bool): (r: Result<bool>)
    ensures r.Err? ==> r.error == TypeErrorText
    ensures r.Ok? ==> (r.value <==> GroupHasUrl(item))
  {
    if Nullish(item) then Err(TypeErrorText)
    else
      var links := Get(item, "links");
      if !Truthy(links) || !LengthPositive(links) then Ok(false)
      else if !links.Arr? then Err(TypeErrorText)
      else SomeLinkHasUrl(links.items, guardLink)
  }

  /** `downloadLinks.some(item => ItemHasUrl(item))`, stopping at the first group that counts. */
  function AnyItemHasUrl(items: seq<Json>, guardLink: bool): (r: Result<bool>)
    ensures r.Err? ==> r.error == TypeErrorText
    ensures r.Ok? ==> (r.value <==> exists i :: 0 <= i < |items| && GroupHasUrl(items[i]))
  {
    if |items| == 0 then Ok(false)
    else
      match ItemHasUrl(items[0], guardLink)
      case Err(e) => Err(e)
      case Ok(found) =>
        if found then Ok(true)
        else
          var rest := AnyItemHasUrl(items[1..], guardLink);
          assert forall i :: 1 <= i < |items| ==> items[i] == items[1..][i - 1];
          rest
  }

  /** `item.links && item.links.length > 0` */
  predicate Kept(g: Group) {
    LengthPositive(g.links)
  }

  /** `.filter(item => item.links && item.links.length > 0)` */
  function KeepNonEmpty(gs: seq<Group>): (r: seq<Group>)
    ensures |r| <= |gs|
    ensures forall g :: g in r <==> g in gs && Kept(g)
  {
    if |gs| == 0 then []
    else if Kept(gs[0]) then [gs[0]] + KeepNonEmpty(gs[1..])
    else KeepNonEmpty(gs[1..])
  }

  /** The filter keeps the order of the groups: it distributes over concatenation. */
  lemma {:induction false} KeepNonEmptyAppend(a: seq<Group>, b: seq<Group>)
    ensures KeepNonEmpty(a + b) == KeepNonEmpty(a) + KeepNonEmpty(b)
  {
    if |a| > 0 {
      assert (a + b)[1..] == a[1..] + b;
      KeepNonEmptyAppend(a[1..], b);
    } else {
      assert a + b == b;
    }
  }

  // ------------------------------------------------------------------ results

  /** The optional marker a result carries besides data, title, poster and availability. */
  datatype Marker =
    | NoMarker
    | EpisodeCollection   // isEpisodeCollection: true
    | HasEpisodes         // hasEpisodes: true
    | ApiMessage(message: Json)

  /** `{ data, title, poster, batchAvailable, ... }`; `batchAvailable` is the JS value computed, not always a boolean. */
  datatype BatchResult = BatchResult(data: Json, title: Json, poster: Json, batchAvailable: Json, marker: Marker)

  /** `{ title, poster, downloadLinks }` */
  function Formatted(title: Json, poster: Json, downloadLinks: Json): Json {
    Obj([("title", title), ("poster", poster), ("downloadLinks", downloadLinks)])
  }

  /** `dl && dl.length > 0`: the falsy value itself, else whether it has a positive length. */
  function AndLengthPositive(dl: Json): (r: Json)
    ensures Truthy(r) <==> Truthy(dl) && LengthPositive(dl)
  {
    if Truthy(dl) then Bool(LengthPositive(dl)) else dl
  }

  // ---------------------------------------------------------- primary response

  /** The group each element of an array answer becomes: `{quality: quality || 'Default', links: links || []}`. */
  function ArrayGroup(item: Json): Group {
    Group(Or(Get(item, "quality"), Str("Default")), Or(Get(item, "links"), Arr([])))
  }

  function ArrayGroups(items: seq<Json>): (gs: seq<Group>)
    ensures |gs| == |items|
    ensures forall i :: 0 <= i < |items| ==> gs[i] == ArrayGroup(items[i])
  {
    seq(|items|, i requires 0 <= i < |items| => ArrayGroup(items[i]))
  }

  /**
   * A non-empty array answer (src/services/batchService.js:70-86): each element
   * becomes a group, groups without links are dropped, and the batch is
   * reported available even when every group was dropped. A null or undefined
   * element makes `item.quality` throw, which sends the call to the fallback (None).
   */
  function ArrayAnswer(items: seq<Json>): (r: Option<BatchResult>)
    requires |items| > 0
    ensures r.Some? <==> forall i :: 0 <= i < |items| ==> !Nullish(items[i])
    ensures r.Some? ==> r.value.batchAvailable == Bool(true)
    ensures r.Some? ==> r.value.data == Formatted(r.value.title, r.value.poster, GroupsJson(KeepNonEmpty(ArrayGroups(items))))
    ensures r.Some? ==> Truthy(r.value.title)
  {
    if exists i :: 0 <= i < |items| && Nullish(items[i]) then None
    else
      var title := Or(Get(items[0], "title"), Str("Batch Download"));
      var poster := Coalesce([Get(items[0], "poster"), Get(items[0], "thumbnail")], Str(""));
      Some(BatchResult(Formatted(title, poster, GroupsJson(KeepNonEmpty(ArrayGroups(items)))), title, poster, Bool(true), NoMarker))
  }

  /** An array answer whose only element has no links: nothing is left to download, yet the batch is reported available. */
  lemma ArrayAnswerAvailableWithoutLinks()
    ensures var r := ArrayAnswer([Obj([])]);
            r.Some? && r.value.batchAvailable == Bool(true) &&
            r.value.data == Formatted(Str("Batch Download"), Str(""), Arr([]))
  {
    var gs := ArrayGroups([Obj([])]);
    assert gs == [Group(Str("Default"), Arr([]))];
    assert KeepNonEmpty(gs) == [];
    assert GroupsJson([]) == Arr([]);
  }

  /**
   * The `downloadLinks` a batch without usable ones is given from its `links`
   * or `downloads`: one 'Default' group holding an array as it is, or the
   * links of a host-keyed map.
   */
  function DefaultLinks(links: Json): (r: Json)
    ensures links.Arr? ==> r == Arr([GroupJson(Group(Str("Default"), links))])
    ensures !links.Arr? && !Nullish(links) ==> r == Arr([GroupJson(DefaultHostGroup(Entries(links).value))])
    ensures Nullish(links) ==> r == Arr([])
  {
    if links.Arr? then Arr([GroupJson(Group(Str("Default"), links))])
    else
      match Entries(links)
      case Err(_) => Arr([])
      case Ok(es) => Arr([GroupJson(DefaultHostGroup(es))])
  }

  /** The links rebuilt from a truthy `links || downloads` are one group. */
  lemma DefaultLinksOne(links: Json)
    requires Truthy(links)
    ensures DefaultLinks(links).Arr? && |DefaultLinks(links).items| == 1
  {
    if !links.Arr? {
      assert Entries(links).Ok?;
    }
  }

  /**
   * A `batch` object in the primary answer (src/services/batchService.js:127-155):
   * without a non-empty `downloadLinks` array it is given one built from
   * `links || downloads` when present.
   */
  function PrimaryBatch(primary: Json, batch: Json): (r: BatchResult)
    requires batch.Obj? || batch.Arr?
    ensures NonEmptyArray(Get(batch, "downloadLinks")) ==> r.data == batch && r.batchAvailable == Bool(true)
    ensures var links := Or(Get(batch, "links"), Get(batch, "downloads"));
            && (!NonEmptyArray(Get(batch, "downloadLinks")) && Truthy(links) ==>
                  batch.Obj? && r.data.Obj? && Get(r.data, "downloadLinks") == DefaultLinks(links) &&
                  forall k :: k != "downloadLinks" ==> Get(r.data, k) == Get(batch, k))
            && (!Truthy(links) ==> r.data == batch)
    ensures r.title == Coalesce([Get(primary, "title"), Get(batch, "title")], Str("Batch Download"))
    ensures r.poster == Coalesce([Get(primary, "poster"), Get(batch, "poster")], Str(""))
    ensures r.marker == NoMarker
    ensures Truthy(r.batchAvailable) <==>
              NonEmptyArray(Get(batch, "downloadLinks")) ||
              Truthy(Or(Get(batch, "links"), Get(batch, "downloads"))) ||
              (Truthy(Get(batch, "downloadLinks")) && LengthPositive(Get(batch, "downloadLinks")))
  {
    var dl0 := Get(batch, "downloadLinks");
    var links := Or(Get(batch, "links"), Get(batch, "downloads"));
    var rebuild := !NonEmptyArray(dl0) && Truthy(links);
    var dl := if rebuild then DefaultLinks(links) else dl0;
    var data := if rebuild then SetField(batch, "downloadLinks", dl).value else batch;
    assert Truthy(AndLengthPositive(dl)) <==> Truthy(dl) && LengthPositive(dl);
    assert rebuild ==> Truthy(dl) && LengthPositive(dl) by {
      if rebuild { DefaultLinksOne(links); }
    }
    BatchResult(data,
      Coalesce([Get(primary, "title"), Get(batch, "title")], Str("Batch Download")),
      Coalesce([Get(primary, "poster"), Get(batch, "poster")], Str("")),
      AndLengthPositive(dl), NoMarker)
  }

  /** `x && typeof x === 'object'`: an object or an array. */
  predicate IsObjectValue(j: Json) {
    j.Obj? || j.Arr?
  }

  /**
   * The checks on the batch endpoint's answer, in order
   * (src/services/batchService.js:64-157): an `error` field, a non-empty array,
   * a non-empty `downloadLinks`, `data.downloadLinks`, `data.batch`, `batch`.
   * None: the answer throws and the details fallback runs.
   */
  function PrimaryAnswer(p: Json): (r: Option<BatchResult>)
    ensures Truthy(Get(p, "error")) ==> r == None
    ensures !Truthy(Get(p, "error")) && NonEmptyArray(p) ==> r == ArrayAnswer(p.items)
    ensures !Truthy(Get(p, "error")) && !NonEmptyArray(p) && NonEmptyArray(Get(p, "downloadLinks")) ==>
              r.Some? && r.value.data == p && r.value.batchAvailable == Bool(true) &&
              r.value.title == Or(Get(p, "title"), Str("Batch Download")) && r.value.poster == Or(Get(p, "poster"), Str(""))
    ensures !Truthy(Get(p, "error")) && !NonEmptyArray(p) && !NonEmptyArray(Get(p, "downloadLinks")) ==>
              var d := Get(p, "data");
              var db := Get(d, "batch");
              && (IsObjectValue(d) && NonEmptyArray(Get(d, "downloadLinks")) ==>
                    r.Some? && r.value.data == d && r.value.batchAvailable == Bool(true) &&
                    r.value.title == Coalesce([Get(d, "title"), Get(p, "title")], Str("Batch Download")) &&
                    r.value.poster == Coalesce([Get(d, "poster"), Get(p, "poster")], Str("")))
              && (IsObjectValue(d) && !NonEmptyArray(Get(d, "downloadLinks")) && IsObjectValue(db) ==>
                    r.Some? && r.value.data == db && r.value.batchAvailable == Bool(true) &&
                    r.value.title == Coalesce([Get(d, "title"), Get(db, "title")], Str("Batch Download")) &&
                    r.value.poster == Coalesce([Get(d, "poster"), Get(db, "poster")], Str("")))
              && (!(IsObjectValue(d) && (NonEmptyArray(Get(d, "downloadLinks")) || IsObjectValue(db))) && IsObjectValue(Get(p, "batch")) ==>
                    r == Some(PrimaryBatch(p, Get(p, "batch"))))
    ensures (!Truthy(Get(p, "error")) && !NonEmptyArray(p) && !NonEmptyArray(Get(p, "downloadLinks")) &&
             !(IsObjectValue(Get(p, "data")) &&
               (NonEmptyArray(Get(Get(p, "data"), "downloadLinks")) || IsObjectValue(Get(Get(p, "data"), "batch")))) &&
             !IsObjectValue(Get(p, "batch"))) ==> r == None
    ensures r.Some? && !NonEmptyArray(p) ==> p.Obj?
    ensures r.None? && !Truthy(Get(p, "error")) && !NonEmptyArray(p) ==>
              !NonEmptyArray(Get(p, "downloadLinks")) && !IsObjectValue(Get(p, "batch"))
  {
    if Truthy(Get(p, "error")) then None
    else if NonEmptyArray(p) then ArrayAnswer(p.items)
    else if NonEmptyArray(Get(p, "downloadLinks")) then
      Some(BatchResult(p, Or(Get(p, "title"), Str("Batch Download")), Or(Get(p, "poster"), Str("")), Bool(true), NoMarker))
    else
      var d := Get(p, "data");
      var db := Get(d, "batch");
      var b := Get(p, "batch");
      if IsObjectValue(d) && NonEmptyArray(Get(d, "downloadLinks")) then
        Some(BatchResult(d,
          Coalesce([Get(d, "title"), Get(p, "title")], Str("Batch Download")),
          Coalesce([Get(d, "poster"), Get(p, "poster")], Str("")),
          Bool(true), NoMarker))
      else if IsObjectValue(d) && IsObjectValue(db) then
        Some(BatchResult(db,
          Coalesce([Get(d, "title"), Get(db, "title")], Str("Batch Download")),
          Coalesce([Get(d, "poster"), Get(db, "poster")], Str("")),
          Bool(true), NoMarker))
      else if IsObjectValue(b) then Some(PrimaryBatch(p, b))
      else None
  }

  /** What `fetchWithSafeJson` gives for an unreadable, non-JSON or malformed body always sends the call to the fallback. */
  lemma WrappedBodiesFallBack(ex: Api.Exchange)
    requires ex.Answered? && Api.IsOk(ex.response)
    requires ex.response.body.Unreadable? || !Api.LooksLikeJson(ex.response.body.text) ||
             ex.response.body.trimmedParsed.Err?
    ensures PrimaryAnswer(FetchWithSafeJson(ex).value) == None
  {
    var b := ex.response.body;
    if b.Unreadable? {
      ErrorObjectFallsBack("Failed to read response text");
    } else if !Api.LooksLikeJson(b.text) {
      TextObjectFallsBack(b.text);
    } else {
      ErrorObjectFallsBack("Invalid JSON structure");
    }
  }

  /** An `{ error }` answer with a message is rejected by the first check. */
  lemma ErrorObjectFallsBack(message: string)
    requires message != ""
    ensures PrimaryAnswer(ErrorObject(message)) == None
  {
    assert Get(ErrorObject(message), "error") == Str(message);
  }

  /** A `{ text }` answer matches none of the shapes. */
  lemma TextObjectFallsBack(text: string)
    ensures PrimaryAnswer(TextObject(text)) == None
  {
    var p := TextObject(text);
    assert Get(p, "error") == Undefined && !NonEmptyArray(p);
    assert Get(p, "downloadLinks") == Undefined && Get(p, "data") == Undefined && Get(p, "batch") == Undefined;
  }

  // ---------------------------------------------------------- details fallback

  /**
   * A `batch` object inside `details.data` (src/services/batchService.js:186-220):
   * a `downloadLinks` that is not an array is replaced by a 'Default' group
   * built from an array or object `links || downloads`, else by `[]`.
   */
  function DataBatch(data: Json, batch: Json): (r: BatchResult)
    requires IsObjectValue(batch)
    ensures var dl0 := Get(batch, "downloadLinks");
            var links := Or(Get(batch, "links"), Get(batch, "downloads"));
            && (Truthy(dl0) && dl0.Arr? ==> r.data == batch)
            && (batch.Arr? ==> r.data == batch)
            && (batch.Obj? && !(Truthy(dl0) && dl0.Arr?) ==>
                  r.data.Obj? &&
                  Get(r.data, "downloadLinks") == (if IsObjectValue(links) then DefaultLinks(links) else Arr([])) &&
                  forall k :: k != "downloadLinks" ==> Get(r.data, k) == Get(batch, k))
    ensures r.title == Coalesce([Get(data, "title"), Get(batch, "title")], Str("Batch Download"))
    ensures r.poster == Coalesce([Get(data, "poster"), Get(data, "thumbnail"), Get(batch, "poster")], Str(""))
    ensures r.marker == NoMarker
    ensures r.batchAvailable.Bool?
    ensures r.batchAvailable == Bool(true) <==>
              (Truthy(Get(batch, "downloadLinks")) && Get(batch, "downloadLinks").Arr? &&
               |Get(batch, "downloadLinks").items| > 0) ||
              (!(Truthy(Get(batch, "downloadLinks")) && Get(batch, "downloadLinks").Arr?) &&
               IsObjectValue(Or(Get(batch, "links"), Get(batch, "downloads"))))
  {
    var dl0 := Get(batch, "downloadLinks");
    var keep := Truthy(dl0) && dl0.Arr?;
    var links := Or(Get(batch, "links"), Get(batch, "downloads"));
    var dl := if keep then dl0 else if IsObjectValue(links) then DefaultLinks(links) else Arr([]);
    var updated := if keep then batch else SetField(batch, "downloadLinks", dl).value;
    BatchResult(updated,
      Coalesce([Get(data, "title"), Get(batch, "title")], Str("Batch Download")),
      Coalesce([Get(data, "poster"), Get(data, "thumbnail"), Get(batch, "poster")], Str("")),
      Bool(|dl.items| > 0), NoMarker)
  }

  /**
   * A truthy `downloads` (src/services/batchService.js:223-278 inside
   * `details.data`, 420-476 on `details`): the groups, and `batchAvailable`
   * true iff some group holds a link with a url. `guardLink` is the second
   * form, which skips null links instead of throwing.
   */
  function DownloadsAnswer(container: Json, downloads: Json, guardLink: bool): (r: Result<BatchResult>)
    ensures r.Err? ==> r.error == TypeErrorText
    ensures r.Ok? ==> DownloadsGroups(downloads).Ok?
    ensures r.Ok? ==> var items := DownloadsGroups(downloads).value;
              r.value.data == Formatted(r.value.title, r.value.poster, Arr(items)) &&
              (r.value.batchAvailable == Bool(true) <==> exists i :: 0 <= i < |items| && GroupHasUrl(items[i])) &&
              r.value.batchAvailable.Bool?
    ensures r.Ok? ==> Truthy(r.value.title) && r.value.marker == NoMarker
  {
    match DownloadsGroups(downloads)
    case Err(e) => Err(e)
    case Ok(items) =>
      var title := Or(Get(container, "title"), Str("Batch Download"));
      var poster := Coalesce([Get(container, "poster"), Get(container, "thumbnail")], Str(""));
      match AnyItemHasUrl(items, guardLink)
      case Err(e) => Err(e)
      case Ok(valid) => Ok(BatchResult(Formatted(title, poster, Arr(items)), title, poster, Bool(valid), NoMarker))
  }

  /** Groups built from a host-keyed `downloads` map never make the url check throw. */
  lemma HostKeyedDownloadsDecide(container: Json, fields: seq<(string, Json)>, guardLink: bool)
    requires !HasObjectValue(fields)
    ensures DownloadsAnswer(container, Obj(fields), guardLink).Ok?
  {
    var g := DefaultHostGroup(fields);
    var item := GroupJson(g);
    assert Get(item, "links") == g.links by {
      LookupAt(item.fields, "links", 1);
    }
    var links := g.links;
    if Truthy(links) && LengthPositive(links) {
      assert forall j :: 0 <= j < |links.items| ==> links.items[j] == LinkJson(HostLink(fields[j].0, fields[j].1, ["host", "name"]));
      assert forall j :: 0 <= j < |links.items| ==> !Nullish(links.items[j]);
    }
    assert ItemHasUrl(item, guardLink).Ok?;
    assert [item][1..] == [];
    assert DownloadsGroups(Obj(fields)) == Ok([item]);
    assert AnyItemHasUrl([item], guardLink).Ok?;
  }

  /**
   * `batch_links || downloadBatch || batchLinks` (src/services/batchService.js:281-319):
   * an array as it is, an object as a quality map whose falsy values count as
   * empty, anything else as no links.
   */
  function BatchLinksGroups(batchLinks: Json): (r: seq<Json>)
    ensures batchLinks.Arr? ==> r == batchLinks.items
    ensures batchLinks.Obj? ==> |r| == |batchLinks.fields|
    ensures !batchLinks.Arr? && !batchLinks.Obj? ==> r == []
    ensures batchLinks.Obj? ==> var fields := batchLinks.fields;
              forall i :: 0 <= i < |fields| ==>
                && (fields[i].1.Arr? ==> r[i] == GroupJson(Group(Str(fields[i].0), fields[i].1)))
                && (fields[i].1.Obj? ==> r[i] == GroupJson(Group(Str(fields[i].0), LinksJson(HostLinks(fields[i].1.fields, [])))))
                && (!Truthy(fields[i].1) ==> r[i] == GroupJson(Group(Str(fields[i].0), Arr([]))))
  {
    match batchLinks
    case Arr(items) => items
    case Obj(fields) =>
      (match QualityGroups(fields, true)
       case Err(_) => []
       case Ok(gs) => GroupsJson(gs).items)
    case _ => []
  }

  // ----------------------------------------------------------------- episodes

  /** `ep.downloads || ep.download_links || ep.downloadLinks` */
  function EpisodeDownloads(ep: Json): Json {
    Coalesce([Get(ep, "downloads"), Get(ep, "download_links")], Get(ep, "downloadLinks"))
  }

  /** `ep.downloads || ep.download_links || ep.downloadLinks` is truthy. */
  predicate HasDownloads(ep: Json) {
    Truthy(EpisodeDownloads(ep))
  }

  /** `xs.filter(keep)` where `keep` reads a property of each element, so a null or undefined element throws. */
  function FilterObjects(xs: seq<Json>, keep: Json -> bool): (r: Result<seq<Json>>)
    ensures r.Err? ==> r.error == TypeErrorText
    ensures r.Ok? ==> |r.value| <= |xs|
  {
    if |xs| == 0 then Ok([])
    else
      var rest := FilterObjects(xs[1..], keep);
      if Nullish(xs[0]) then Err(TypeErrorText)
      else if rest.Err? then rest
      else if keep(xs[0]) then Ok([xs[0]] + rest.value)
      else rest
  }

  /** The filter throws exactly when some element is nullish, and keeps exactly the elements `keep` accepts. */
  lemma {:induction false} FilterObjectsMembers(xs: seq<Json>, keep: Json -> bool)
    ensures FilterObjects(xs, keep).Err? <==> exists i :: 0 <= i < |xs| && Nullish(xs[i])
    ensures FilterObjects(xs, keep).Ok? ==> forall e :: e in FilterObjects(xs, keep).value <==> e in xs && keep(e)
  {
    if |xs| > 0 {
      FilterObjectsMembers(xs[1..], keep);
      assert forall i :: 1 <= i < |xs| ==> xs[i] == xs[1..][i - 1];
      assert xs == [xs[0]] + xs[1..];
    }
  }

  /** The filter keeps the order of the elements: it distributes over concatenation. */
  lemma {:induction false} FilterObjectsAppend(a: seq<Json>, b: seq<Json>, keep: Json -> bool)
    requires FilterObjects(a, keep).Ok? && FilterObjects(b, keep).Ok?
    ensures FilterObjects(a + b, keep) == Ok(FilterObjects(a, keep).value + FilterObjects(b, keep).value)
  {
    if |a| == 0 {
      assert a + b == b;
      assert [] + FilterObjects(b, keep).value == FilterObjects(b, keep).value;
    } else {
      var x, t := a[0], a[1..];
      assert a == [x] + t;
      FilterObjectsAppend(t, b, keep);
      FilterObjectsAppendStep(x, t, b, keep);
      assert a + b == [x] + (t + b);
    }
  }

  /** The inductive step of FilterObjectsAppend: putting an object in front of both sides. */
  lemma FilterObjectsAppendStep(x: Json, t: seq<Json>, b: seq<Json>, keep: Json -> bool)
    requires !Nullish(x) && FilterObjects(t, keep).Ok? && FilterObjects(b, keep).Ok?
    requires FilterObjects(t + b, keep) == Ok(FilterObjects(t, keep).value + FilterObjects(b, keep).value)
    ensures FilterObjects([x] + (t + b), keep) == Ok(FilterObjects([x] + t, keep).value + FilterObjects(b, keep).value)
  {
    FilterObjectsCons(x, t, keep);
    FilterObjectsCons(x, t + b, keep);
    var rt := FilterObjects(t, keep).value;
    var rb := FilterObjects(b, keep).value;
    if keep(x) {
      KeptInFront(x, rt, rb, FilterObjects([x] + (t + b), keep), FilterObjects([x] + t, keep));
    }
  }

  lemma KeptInFront(x: Json, rt: seq<Json>, rb: seq<Json>, whole: Result<seq<Json>>, front: Result<seq<Json>>)
    requires whole.Ok? && whole.value == [x] + (rt + rb)
    requires front.Ok? && front.value == [x] + rt
    ensures whole == Ok(front.value + rb)
  {
    assert [x] + (rt + rb) == ([x] + rt) + rb;
  }

  /** One step of the filter over a list whose head is an object. */
  lemma FilterObjectsCons(x: Json, t: seq<Json>, keep: Json -> bool)
    requires !Nullish(x)
    ensures FilterObjects([x] + t, keep).Ok? <==> FilterObjects(t, keep).Ok?
    ensures FilterObjects(t, keep).Ok? ==>
      FilterObjects([x] + t, keep).value ==
        (if keep(x) then [x] + FilterObjects(t, keep).value else FilterObjects(t, keep).value)
  {
    var xs := [x] + t;
    assert xs[0] == x && xs[1..] == t;
  }

  /** `episodes.filter(ep => ep.downloads || ep.download_links || ep.downloadLinks)`; a null episode throws. */
  function EpisodesWithDownloads(eps: seq<Json>): (r: Result<seq<Json>>)
    ensures r.Err? ==> r.error == TypeErrorText
    ensures r.Err? <==> exists i :: 0 <= i < |eps| && Nullish(eps[i])
    ensures r.Ok? ==> |r.value| <= |eps|
    ensures r.Ok? ==> forall e :: e in r.value <==> e in eps && Truthy(EpisodeDownloads(e))
  {
    FilterObjectsMembers(eps, HasDownloads);
    FilterObjects(eps, HasDownloads)
  }

  /** The episodes with downloads keep their order: the filter distributes over concatenation. */
  lemma EpisodesWithDownloadsAppend(a: seq<Json>, b: seq<Json>)
    requires EpisodesWithDownloads(a).Ok? && EpisodesWithDownloads(b).Ok?
    ensures EpisodesWithDownloads(a + b) == Ok(EpisodesWithDownloads(a).value + EpisodesWithDownloads(b).value)
  {
    FilterObjectsAppend(a, b, HasDownloads);
  }

  /**
   * `ep.episode || (ep.title && ep.title.match(/(\d+)/) ? <first digit run> : '') || ''`;
   * matching a truthy title that is not a string throws.
   */
  function EpisodeNumber(ep: Json): (r: Result<Json>)
    ensures r.Err? ==> r.error == TypeErrorText
    ensures Truthy(Get(ep, "episode")) ==> r == Ok(Get(ep, "episode"))
    ensures !Truthy(Get(ep, "episode")) && Get(ep, "title").Str? ==>
              r == Ok(Str(DigitRunOrEmpty(Get(ep, "title").s)))
    ensures r.Err? <==> !Truthy(Get(ep, "episode")) && Truthy(Get(ep, "title")) && !Get(ep, "title").Str?
  {
    var title := Get(ep, "title");
    if Truthy(Get(ep, "episode")) then Ok(Get(ep, "episode"))
    else if !Truthy(title) then Ok(Str(""))
    else if !title.Str? then Err(TypeErrorText)
    else Ok(Str(DigitRunOrEmpty(title.s)))
  }

  /** `s.match(/(\d+)/) ? <the first run of digits> : ''` */
  function DigitRunOrEmpty(s: string): (r: string)
    ensures (forall i :: 0 <= i < |s| ==> !IsDigit(s[i])) ==> r == ""
    ensures forall i :: FirstDigitAt(s, i) ==> r == DigitPrefix(s[i..]) && r != ""
  {
    match FirstDigitRun(s)
    case Some(d) => d
    case None => ""
  }

  /** The label of an episode's group: "Episode N" when a number is found, else the title, else "Episode". */
  function EpisodeLabel(ep: Json): (r: Result<Json>)
    ensures r.Err? ==> r.error == TypeErrorText
    ensures r.Ok? <==> EpisodeNumber(ep).Ok?
    ensures r.Ok? && Truthy(EpisodeNumber(ep).value) ==> r.value == Str("Episode " + Display(EpisodeNumber(ep).value))
    ensures r.Ok? && !Truthy(EpisodeNumber(ep).value) ==> r.value == Or(Get(ep, "title"), Str("Episode"))
    ensures r.Ok? ==> Truthy(r.value)
  {
    match EpisodeNumber(ep)
    case Err(e) => Err(e)
    case Ok(n) => if Truthy(n) then Ok(Str("Episode " + Display(n))) else Ok(Or(Get(ep, "title"), Str("Episode")))
  }

  /** The group of one episode with downloads: an array as its links, else its host map (host: value's `host`, else key). */
  function EpisodeGroup(ep: Json): (r: Result<Group>)
    ensures r.Err? ==> r.error == TypeErrorText
    ensures r.Ok? <==> EpisodeLabel(ep).Ok?
    ensures r.Ok? ==> r.value.quality == EpisodeLabel(ep).value && r.value.links.Arr?
    ensures r.Ok? && EpisodeDownloads(ep).Arr? ==> r.value.links == EpisodeDownloads(ep)
    ensures r.Ok? && EpisodeDownloads(ep).Obj? ==> r.value.links == LinksJson(HostLinks(EpisodeDownloads(ep).fields, ["host"]))
    ensures r.Ok? && !Truthy(EpisodeDownloads(ep)) ==> r.value.links == Arr([])
  {
    var downloads := Or(EpisodeDownloads(ep), Obj([]));
    match EpisodeLabel(ep)
    case Err(e) => Err(e)
    case Ok(heading) =>
      if downloads.Arr? then Ok(Group(heading, downloads))
      else
        match Entries(downloads)
        case Err(_) => Ok(Group(heading, Arr([])))
        case Ok(es) => Ok(Group(heading, LinksJson(HostLinks(es, ["host"]))))
  }

  function EpisodeGroups(eps: seq<Json>): (r: Result<seq<Group>>)
    ensures r.Err? ==> r.error == TypeErrorText
    ensures r.Ok? <==> forall i :: 0 <= i < |eps| ==> EpisodeGroup(eps[i]).Ok?
    ensures r.Ok? ==> |r.value| == |eps|
    ensures r.Ok? ==> forall i :: 0 <= i < |eps| ==> r.value[i] == EpisodeGroup(eps[i]).value
  {
    if |eps| == 0 then Ok([])
    else
      var rest := EpisodeGroups(eps[1..]);
      assert forall i :: 1 <= i < |eps| ==> eps[i] == eps[1..][i - 1];
      match EpisodeGroup(eps[0])
      case Err(e) => Err(e)
      case Ok(g) => if rest.Err? then rest else Ok([g] + rest.value)
  }

  const EpisodesOnlyMessage: string := "Batch download tidak tersedia, tetapi episode individu dapat diunduh."

  /**
   * A non-empty `episodes` array (src/services/batchService.js:322-382 inside
   * `details.data`, 479-538 on `details`): the episodes with downloads become
   * labelled groups, empty groups are dropped; with none left the result is
   * unavailable and marked `hasEpisodes`.
   */
  function EpisodesAnswer(container: Json, eps: seq<Json>): (r: Result<BatchResult>)
    ensures r.Err? ==> r.error == TypeErrorText
    ensures r.Ok? ==> (r.value.marker == EpisodeCollection <==> r.value.batchAvailable == Bool(true))
    ensures r.Ok? ==> r.value.marker == EpisodeCollection || r.value.marker == HasEpisodes
    ensures r.Ok? && r.value.marker == HasEpisodes ==>
              r.value.batchAvailable == Bool(false) &&
              r.value.data == Obj([("title", r.value.title), ("message", Str(EpisodesOnlyMessage)), ("downloadLinks", Arr([]))])
    ensures r.Ok? && r.value.marker == EpisodeCollection ==>
              EpisodesWithDownloads(eps).Ok? && EpisodeGroups(EpisodesWithDownloads(eps).value).Ok? &&
              var kept := KeepNonEmpty(EpisodeGroups(EpisodesWithDownloads(eps).value).value);
              |kept| > 0 && r.value.data == Formatted(r.value.title, r.value.poster, GroupsJson(kept))
    ensures r.Ok? ==> Truthy(r.value.title)
    ensures r.Err? <==> exists i :: 0 <= i < |eps| && (Nullish(eps[i]) || (Truthy(EpisodeDownloads(eps[i])) && EpisodeLabel(eps[i]).Err?))
  {
    var title := Or(Get(container, "title"), Str("Episode Downloads"));
    var poster := Coalesce([Get(container, "poster"), Get(container, "thumbnail")], Str(""));
    var none := Ok(BatchResult(Obj([("title", title), ("message", Str(EpisodesOnlyMessage)), ("downloadLinks", Arr([]))]),
                               title, poster, Bool(false), HasEpisodes));
    match EpisodesWithDownloads(eps)
    case Err(e) => Err(e)
    case Ok(withDownloads) =>
      EpisodesAnswerFails(eps);
      if |withDownloads| == 0 then none
      else
        match EpisodeGroups(withDownloads)
        case Err(e) => Err(e)
        case Ok(gs) =>
          var kept := KeepNonEmpty(gs);
          if |kept| > 0 then Ok(BatchResult(Formatted(title, poster, GroupsJson(kept)), title, poster, Bool(true), EpisodeCollection))
          else none
  }

  /** Grouping the episodes with downloads throws exactly when one of them has a label that throws. */
  lemma EpisodesAnswerFails(eps: seq<Json>)
    requires EpisodesWithDownloads(eps).Ok?
    ensures var wd := EpisodesWithDownloads(eps).value;
            (|wd| > 0 && EpisodeGroups(wd).Err?) <==>
            exists i :: 0 <= i < |eps| && Truthy(EpisodeDownloads(eps[i])) && EpisodeLabel(eps[i]).Err?
  {
    var wd := EpisodesWithDownloads(eps).value;
    if exists i :: 0 <= i < |eps| && Truthy(EpisodeDownloads(eps[i])) && EpisodeLabel(eps[i]).Err? {
      var i :| 0 <= i < |eps| && Truthy(EpisodeDownloads(eps[i])) && EpisodeLabel(eps[i]).Err?;
      assert eps[i] in eps;
      var j :| 0 <= j < |wd| && wd[j] == eps[i];
      assert !EpisodeGroup(wd[j]).Ok?;
    }
    if |wd| > 0 && EpisodeGroups(wd).Err? {
      var j :| 0 <= j < |wd| && !EpisodeGroup(wd[j]).Ok?;
      assert wd[j] in wd;
      var i :| 0 <= i < |eps| && eps[i] == wd[j];
    }
  }

  /** Only episodes with downloads contribute, and every group of the collection holds at least one link. */
  lemma EpisodeCollectionGroups(container: Json, eps: seq<Json>)
    requires EpisodesAnswer(container, eps).Ok? && EpisodesAnswer(container, eps).value.marker == EpisodeCollection
    ensures var withDownloads := EpisodesWithDownloads(eps).value;
            var kept := KeepNonEmpty(EpisodeGroups(withDownloads).value);
            |kept| <= |withDownloads| &&
            (forall g :: g in kept ==>
               (g.links.Arr? && |g.links.items| > 0 &&
                exists e :: e in eps && Truthy(EpisodeDownloads(e)) && EpisodeGroup(e) == Ok(g)))
  {
    var withDownloads := EpisodesWithDownloads(eps).value;
    var gs := EpisodeGroups(withDownloads).value;
    var kept := KeepNonEmpty(gs);
    forall g | g in kept
      ensures g.links.Arr? && |g.links.items| > 0 &&
              exists e :: e in eps && Truthy(EpisodeDownloads(e)) && EpisodeGroup(e) == Ok(g)
    {
      var i :| 0 <= i < |gs| && gs[i] == g;
      assert EpisodeGroup(withDownloads[i]) == Ok(g);
      assert withDownloads[i] in withDownloads;
    }
  }

  // -------------------------------------------------------------- the cascade

  /** `details.data`, replaced by `details.data.data` when that is an object (src/services/batchService.js:179-182). */
  function Unwrap(data: Json): Json {
    var inner := Get(data, "data");
    if IsObjectValue(inner) then inner else data
  }

  /**
   * Case 1 of the fallback, on the (unwrapped) `details.data`: its `batch`,
   * its `downloads`, non-empty alternative batch links, its episodes. None: no
   * sub-case answered and the later cases run.
   */
  function DataAnswer(data: Json): (r: Result<Option<BatchResult>>)
    ensures IsObjectValue(Get(data, "batch")) ==> r == Ok(Some(DataBatch(data, Get(data, "batch"))))
    ensures r == Ok(None) ==>
              !IsObjectValue(Get(data, "batch")) && !Truthy(Get(data, "downloads")) &&
              !NonEmptyArray(Get(data, "episodes"))
    ensures !IsObjectValue(Get(data, "batch")) && Truthy(Get(data, "downloads")) ==>
              var a := DownloadsAnswer(data, Get(data, "downloads"), false);
              (r.Err? <==> a.Err?) && (r.Ok? ==> r.value == Some(a.value))
    ensures !IsObjectValue(Get(data, "batch")) && !Truthy(Get(data, "downloads")) ==>
              var batchLinks := Coalesce([Get(data, "batch_links"), Get(data, "downloadBatch")], Get(data, "batchLinks"));
              var items := BatchLinksGroups(batchLinks);
              && (Truthy(batchLinks) && |items| > 0 ==>
                    r.Ok? && r.value.Some? && r.value.value.batchAvailable == Bool(true) &&
                    r.value.value.data == Formatted(r.value.value.title, r.value.value.poster, Arr(items)) &&
                    r.value.value.title == Or(Get(data, "title"), Str("Batch Download")))
              && (!(Truthy(batchLinks) && |items| > 0) && NonEmptyArray(Get(data, "episodes")) ==>
                    var a := EpisodesAnswer(data, Get(data, "episodes").items);
                    (r.Err? <==> a.Err?) && (r.Ok? ==> r.value == Some(a.value)))
  {
    var batch := Get(data, "batch");
    if IsObjectValue(batch) then Ok(Some(DataBatch(data, batch)))
    else if Truthy(Get(data, "downloads")) then
      match DownloadsAnswer(data, Get(data, "downloads"), false)
      case Err(e) => Err(e)
      case Ok(a) => Ok(Some(a))
    else
      var batchLinks := Coalesce([Get(data, "batch_links"), Get(data, "downloadBatch")], Get(data, "batchLinks"));
      var items := BatchLinksGroups(batchLinks);
      if Truthy(batchLinks) && |items| > 0 then
        var title := Or(Get(data, "title"), Str("Batch Download"));
        var poster := Coalesce([Get(data, "poster"), Get(data, "thumbnail")], Str(""));
        Ok(Some(BatchResult(Formatted(title, poster, Arr(items)), title, poster, Bool(true), NoMarker)))
      else if NonEmptyArray(Get(data, "episodes")) then
        match EpisodesAnswer(data, Get(data, "episodes").items)
        case Err(e) => Err(e)
        case Ok(a) => Ok(Some(a))
      else Ok(None)
  }

  /**
   * Case 2: `details.batch` (src/services/batchService.js:386-417). Without a
   * non-empty `downloadLinks` array it is given one from `links || downloads`,
   * else `[]`; assigning it on a primitive throws.
   */
  function DetailsBatch(details: Json, batch: Json): (r: Result<BatchResult>)
    ensures r.Err? ==> r.error == TypeErrorText
    ensures r.Err? <==> !IsObjectValue(batch)
    ensures r.Ok? ==> (r.value.batchAvailable == Bool(true) <==>
                         NonEmptyArray(Get(batch, "downloadLinks")) || Truthy(Or(Get(batch, "links"), Get(batch, "downloads"))))
    ensures r.Ok? ==> r.value.batchAvailable.Bool?
    ensures r.Ok? ==> var links := Or(Get(batch, "links"), Get(batch, "downloads"));
              && (NonEmptyArray(Get(batch, "downloadLinks")) || batch.Arr? ==> r.value.data == batch)
              && (batch.Obj? && !NonEmptyArray(Get(batch, "downloadLinks")) ==>
                    r.value.data.Obj? &&
                    Get(r.value.data, "downloadLinks") == (if Truthy(links) then DefaultLinks(links) else Arr([])) &&
                    forall k :: k != "downloadLinks" ==> Get(r.value.data, k) == Get(batch, k))
    ensures r.Ok? ==> r.value.title == Coalesce([Get(details, "title"), Get(batch, "title")], Str("Batch Download"))
    ensures r.Ok? ==> r.value.poster == Coalesce([Get(details, "poster"), Get(details, "thumbnail"), Get(batch, "poster")], Str(""))
    ensures r.Ok? ==> r.value.marker == NoMarker
  {
    var dl0 := Get(batch, "downloadLinks");
    var links := Or(Get(batch, "links"), Get(batch, "downloads"));
    var title := Coalesce([Get(details, "title"), Get(batch, "title")], Str("Batch Download"));
    var poster := Coalesce([Get(details, "poster"), Get(details, "thumbnail"), Get(batch, "poster")], Str(""));
    if NonEmptyArray(dl0) then Ok(BatchResult(batch, title, poster, Bool(true), NoMarker))
    else
      var dl := if Truthy(links) then DefaultLinks(links) else Arr([]);
      match SetField(batch, "downloadLinks", dl)
      case Err(e) => Err(e)
      case Ok(updated) => Ok(BatchResult(updated, title, poster, Bool(|dl.items| > 0), NoMarker))
  }

  /** Case 5: `details.ok === false` with a truthy `message` (src/services/batchService.js:541-554). */
  function ApiMessageAnswer(message: Json): (r: BatchResult)
    ensures !Truthy(r.batchAvailable) && r.marker == ApiMessage(message)
    ensures r.title == Str("Batch Download") && Get(r.data, "message") == message
  {
    var data := Obj([("title", Str("Batch Download")), ("message", message), ("downloadLinks", Arr([]))]);
    LookupAt(data.fields, "message", 1);
    BatchResult(data, Str("Batch Download"), Str(""), Bool(false), ApiMessage(message))
  }

  /** Cases 2 to 6 on `details`, in order: `batch`, `downloads`, `episodes`, an `ok: false` message, else an error. */
  function LaterCases(details: Json): (r: Result<BatchResult>)
    ensures r == Err("Unexpected API response format") <==>
              !Truthy(Get(details, "batch")) && !Truthy(Get(details, "downloads")) &&
              !NonEmptyArray(Get(details, "episodes")) &&
              !(Get(details, "ok") == Bool(false) && Truthy(Get(details, "message")))
    ensures !Truthy(Get(details, "batch")) && !Truthy(Get(details, "downloads")) &&
            !NonEmptyArray(Get(details, "episodes")) &&
            Get(details, "ok") == Bool(false) && Truthy(Get(details, "message")) ==>
              r == Ok(ApiMessageAnswer(Get(details, "message"))) &&
              r.value.batchAvailable == Bool(false)
    ensures Truthy(Get(details, "batch")) ==> r == DetailsBatch(details, Get(details, "batch"))
    ensures !Truthy(Get(details, "batch")) && Truthy(Get(details, "downloads")) ==>
              r == DownloadsAnswer(details, Get(details, "downloads"), true)
    ensures !Truthy(Get(details, "batch")) && !Truthy(Get(details, "downloads")) && NonEmptyArray(Get(details, "episodes")) ==>
              r == EpisodesAnswer(details, Get(details, "episodes").items)
  {
    var batch := Get(details, "batch");
    if Truthy(batch) then DetailsBatch(details, batch)
    else if Truthy(Get(details, "downloads")) then DownloadsAnswer(details, Get(details, "downloads"), true)
    else if NonEmptyArray(Get(details, "episodes")) then EpisodesAnswer(details, Get(details, "episodes").items)
    else if Get(details, "ok") == Bool(false) && Truthy(Get(details, "message")) then Ok(ApiMessageAnswer(Get(details, "message")))
    else Err("Unexpected API response format")
  }

  /** The details fallback (src/services/batchService.js:160-563) on the value `getAnimeDetails` resolved to. */
  function Fallback(details: Json): (r: Result<BatchResult>)
    ensures !Truthy(details) ==> r == Err("getAnimeDetails returned null or undefined")
    ensures Truthy(details) && !Truthy(Get(details, "data")) ==> r == LaterCases(details)
    ensures Truthy(details) && Truthy(Get(details, "data")) ==>
              var first := DataAnswer(Unwrap(Get(details, "data")));
              && (first.Err? ==> r == Err(first.error))
              && (first.Ok? && first.value.Some? ==> r == Ok(first.value.value))
              && (first == Ok(None) ==> r == LaterCases(details))
  {
    if !Truthy(details) then Err("getAnimeDetails returned null or undefined")
    else
      var data := Get(details, "data");
      var first := if Truthy(data) then DataAnswer(Unwrap(data)) else Ok(None);
      match first
      case Err(e) => Err(e)
      case Ok(Some(a)) => Ok(a)
      case Ok(None) => LaterCases(details)
  }

  predicate EndsWith(s: string, suffix: string) {
    |suffix| <= |s| && s[|s| - |suffix|..] == suffix
  }

  /** The message every fallback failure is rethrown with (src/services/batchService.js:557-561). */
  function FallbackFailed(message: string, batchId: Json): string {
    "Fallback failed: " + message + " (" + Display(batchId) + ")"
  }

  /** The fallback's outcome with its failure rethrown as "Fallback failed: <message> (<batchId>)". */
  function Wrap(batchId: Json, fallback: Result<BatchResult>): (r: Result<BatchResult>)
    ensures r.Ok? <==> fallback.Ok?
    ensures r.Ok? ==> r == fallback
    ensures r.Err? ==> r.error == FallbackFailed(fallback.error, batchId)
  {
    match fallback
    case Ok(a) => Ok(a)
    case Err(m) => Err(FallbackFailed(m, batchId))
  }

  /**
   * `getBatchDownload(batchId)` of src/services/batchService.js, given the
   * outcome of the batch request and what `getAnimeDetails(batchId)` resolved
   * or rejected with.
   */
  function GetBatchDownload(batchId: Json, primary: Api.Exchange, details: Result<Json>): (r: Result<BatchResult>)
    ensures !Truthy(batchId) ==> r == Err("Batch ID is required")
    ensures Truthy(batchId) && FetchWithSafeJson(primary).Ok? && PrimaryAnswer(FetchWithSafeJson(primary).value).Some? ==>
              r == Ok(PrimaryAnswer(FetchWithSafeJson(primary).value).value)
    ensures Truthy(batchId) && (FetchWithSafeJson(primary).Err? || PrimaryAnswer(FetchWithSafeJson(primary).value).None?) ==>
              r == Wrap(batchId, if details.Ok? then Fallback(details.value) else Err(details.error))
  {
    if !Truthy(batchId) then Err("Batch ID is required")
    else
      var p := FetchWithSafeJson(primary);
      var answered := if p.Ok? then PrimaryAnswer(p.value) else None;
      if answered.Some? then Ok(answered.value)
      else
        Wrap(batchId, if details.Ok? then Fallback(details.value) else Err(details.error))
  }

  /**
   * Every failure past the id check carries the "Fallback failed" prefix and
   * the batch id, so the default result after the try/catch is never reached.
   */
  lemma ErrorsAreWrapped(batchId: Json, primary: Api.Exchange, details: Result<Json>)
    ensures var r := GetBatchDownload(batchId, primary, details);
            r.Err? ==> r.error == "Batch ID is required" ||
                       (StartsWith(r.error, "Fallback failed: ") && EndsWith(r.error, " (" + Display(batchId) + ")"))
  {
    var r := GetBatchDownload(batchId, primary, details);
    if Truthy(batchId) && (FetchWithSafeJson(primary).Err? || PrimaryAnswer(FetchWithSafeJson(primary).value).None?) {
      WrappedFailure(batchId, if details.Ok? then Fallback(details.value) else Err(details.error));
    }
  }

  /** A wrapped failure starts with "Fallback failed: " and ends with the batch id in parentheses. */
  lemma WrappedFailure(batchId: Json, fallback: Result<BatchResult>)
    ensures var r := Wrap(batchId, fallback);
            r.Err? ==> StartsWith(r.error, "Fallback failed: ") && EndsWith(r.error, " (" + Display(batchId) + ")")
  {
    var r := Wrap(batchId, fallback);
    if r.Err? {
      var prefix := "Fallback failed: ";
      var tail := " (" + Display(batchId) + ")";
      assert r.error == (prefix + fallback.error) + tail;
      assert r.error[..|prefix|] == prefix;
      assert r.error[|r.error| - |tail|..] == tail;
    }
  }

  /** When the batch endpoint answers usefully, the details are never consulted. */
  lemma PrimaryAnswerIgnoresDetails(batchId: Json, primary: Api.Exchange, d1: Result<Json>, d2: Result<Json>)
    requires Truthy(batchId) && FetchWithSafeJson(primary).Ok?
    requires PrimaryAnswer(FetchWithSafeJson(primary).value).Some?
    ensures GetBatchDownload(batchId, primary, d1) == GetBatchDownload(batchId, primary, d2)
  {
  }
}
