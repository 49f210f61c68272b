/**
 * src/components/AnimeCard.jsx: the values a card shows for one anime object
 * of any shape, and where it links to. Rendering itself is left out; the
 * card is described by the values it puts on screen.
 */
module AnimeCard {
  import opened Js

  /** What one card shows: the id behind its link, its texts and image, and its link target. */
  datatype Card = Card(id: Json, title: Json, thumbnail: Json, episodeNumber: Json, kind: Json, to: string)

  const UnknownId: string := "unknown"
  const PlaceholderImage: string := "/placeholder-anime.jpg"

  /**
   * `anime.href && anime.href.replace(/.*\/([^/]+)\/?$/, '$1')`: a falsy href
   * as it is, a string href reduced to its last path segment, and any other
   * truthy href throws (it has no `replace`).
   */
  function HrefId(href: Json): (r: Result<Json>)
    ensures r.Err? <==> Truthy(href) && !href.Str?
    ensures r.Err? ==> r.error == TypeErrorText
    ensures r.Ok? ==> (Truthy(r.value) <==> Truthy(href))
  {
    if !Truthy(href) then Ok(href)
    else if href.Str? then Ok(Str(ReplaceTrailingSegment(href.s)))
    else Err(TypeErrorText)
  }

  /**
   * The id (src/components/AnimeCard.jsx:8-9): `animeId`, `id`, `slug`, the
   * last segment of `href`, or 'unknown', so it is never falsy.
   */
  function CardId(anime: Json): (r: Result<Json>)
    ensures r.Err? <==> FirstTruthy([Get(anime, "animeId"), Get(anime, "id"), Get(anime, "slug")]) == 3 &&
                        Truthy(Get(anime, "href")) && !Get(anime, "href").Str?
    ensures r.Ok? ==> Truthy(r.value)
    ensures var ids := [Get(anime, "animeId"), Get(anime, "id"), Get(anime, "slug")];
            FirstTruthy(ids) < 3 ==> r == Ok(ids[FirstTruthy(ids)])
    ensures (r.Ok? && FirstTruthy([Get(anime, "animeId"), Get(anime, "id"), Get(anime, "slug")]) == 3) ==>
              r.value == Or(HrefId(Get(anime, "href")).value, Str(UnknownId))
    ensures (r.Ok? && FirstTruthy([Get(anime, "animeId"), Get(anime, "id"), Get(anime, "slug")]) == 3 &&
             !Truthy(Get(anime, "href"))) ==> r.value == Str(UnknownId)
  {
    var found := Coalesce([Get(anime, "animeId"), Get(anime, "id"), Get(anime, "slug")], Undefined);
    if Truthy(found) then Ok(found)
    else
      match HrefId(Get(anime, "href"))
      case Err(e) => Err(e)
      case Ok(h) => Ok(Or(h, Str(UnknownId)))
  }

  /**
   * The card for `anime` (src/components/AnimeCard.jsx:4-17): nothing for a
   * falsy `anime`; otherwise every shown value is truthy except the episode
   * number, which is `null` when absent, and the link goes to
   * `/anime/<id>`.
   */
  function CardOf(anime: Json): (r: Result<Option<Card>>)
    ensures r == Ok(None) <==> !Truthy(anime)
    ensures r.Err? <==> Truthy(anime) && CardId(anime).Err?
    ensures r.Ok? && r.value.Some? ==>
              var c := r.value.value;
              && Ok(c.id) == CardId(anime)
              && c.to == "/anime/" + Display(c.id)
              && Truthy(c.title) && Truthy(c.thumbnail) && Truthy(c.kind)
              && (Truthy(c.episodeNumber) || c.episodeNumber == Null)
              && c.title == Coalesce([Get(anime, "title"), Get(anime, "name")], Str("No Title"))
              && c.thumbnail == Coalesce([Get(anime, "image"), Get(anime, "thumbnail"), Get(anime, "poster"),
                                          Get(anime, "img")], Str(PlaceholderImage))
              && c.episodeNumber == Coalesce([Get(anime, "episodeNumber"), Get(anime, "episode")], Null)
              && c.kind == Coalesce([Get(anime, "type"), Get(anime, "category")], Str("TV"))
  {
    if !Truthy(anime) then Ok(None)
    else
      match CardId(anime)
      case Err(e) => Err(e)
      case Ok(id) =>
        Ok(Some(Card(
          id,
          Coalesce([Get(anime, "title"), Get(anime, "name")], Str("No Title")),
          Coalesce([Get(anime, "image"), Get(anime, "thumbnail"), Get(anime, "poster"), Get(anime, "img")],
                   Str(PlaceholderImage)),
          Coalesce([Get(anime, "episodeNumber"), Get(anime, "episode")], Null),
          Coalesce([Get(anime, "type"), Get(anime, "category")], Str("TV")),
          "/anime/" + Display(id))))
  }

  /** `{episodeNumber && <span>EP …</span>}` (src/components/AnimeCard.jsx:31-35). */
  predicate ShowsEpisodeBadge(c: Card) {
    Truthy(c.episodeNumber)
  }

  /** `{type && <p>…</p>}` (src/components/AnimeCard.jsx:41-45). */
  predicate ShowsType(c: Card) {
    Truthy(c.kind)
  }

  /**
   * The "EP n" badge is shown exactly when the object carries a truthy
   * `episodeNumber` or `episode`; the type line is always shown.
   */
  lemma BadgeIffEpisode(anime: Json)
    requires CardOf(anime).Ok? && CardOf(anime).value.Some?
    ensures ShowsEpisodeBadge(CardOf(anime).value.value) <==>
              Truthy(Get(anime, "episodeNumber")) || Truthy(Get(anime, "episode"))
    ensures ShowsType(CardOf(anime).value.value)
  {
    var xs := [Get(anime, "episodeNumber"), Get(anime, "episode")];
    if !Truthy(xs[0]) && !Truthy(xs[1]) {
      assert FirstTruthy(xs) == 2;
    }
  }

  /** The keys of the objects the pages build for a card (src/pages/Home.jsx:87-94, src/pages/SearchResults.jsx:142-148). */
  const ListingKeys: seq<string> := ["id", "title", "thumbnail", "type", "episodeNumber"]

  /** Any other key is undefined on an object that only has listing keys. */
  lemma OtherKeyUndefined(o: Json, key: string)
    requires o.Obj? && forall i :: 0 <= i < |o.fields| ==> o.fields[i].0 in ListingKeys
    requires key !in ListingKeys
    ensures Get(o, key) == Undefined
  {
  }

  /**
   * The card for an object that has only listing keys: each value is the
   * object's own, or the card's default when falsy; the card's alternative
   * keys (`animeId`, `slug`, `href`, `name`, `image`, `poster`, `img`,
   * `episode`, `category`) never apply.
   */
  lemma CardOfListing(o: Json)
    requires o.Obj? && forall i :: 0 <= i < |o.fields| ==> o.fields[i].0 in ListingKeys
    ensures var id := Or(Get(o, "id"), Str(UnknownId));
            CardOf(o) ==
              Ok(Some(Card(
                id,
                Or(Get(o, "title"), Str("No Title")),
                Or(Get(o, "thumbnail"), Str(PlaceholderImage)),
                Or(Get(o, "episodeNumber"), Null),
                Or(Get(o, "type"), Str("TV")),
                "/anime/" + Display(id))))
  {
    ListingLacksAlternatives(o);
    CardOfWithoutAlternatives(o);
  }

  /** The alternative keys the card tries are all undefined on a listing object. */
  lemma ListingLacksAlternatives(o: Json)
    requires o.Obj? && forall i :: 0 <= i < |o.fields| ==> o.fields[i].0 in ListingKeys
    ensures Get(o, "animeId") == Undefined && Get(o, "slug") == Undefined && Get(o, "href") == Undefined
    ensures Get(o, "name") == Undefined && Get(o, "image") == Undefined && Get(o, "poster") == Undefined
    ensures Get(o, "img") == Undefined && Get(o, "episode") == Undefined && Get(o, "category") == Undefined
  {
    OtherKeyUndefined(o, "animeId");
    OtherKeyUndefined(o, "slug");
    OtherKeyUndefined(o, "href");
    OtherKeyUndefined(o, "name");
    OtherKeyUndefined(o, "image");
    OtherKeyUndefined(o, "poster");
    OtherKeyUndefined(o, "img");
    OtherKeyUndefined(o, "episode");
    OtherKeyUndefined(o, "category");
  }

  /** The card for an object whose alternative keys are all undefined. */
  lemma CardOfWithoutAlternatives(o: Json)
    requires o.Obj?
    requires Get(o, "animeId") == Undefined && Get(o, "slug") == Undefined && Get(o, "href") == Undefined
    requires Get(o, "name") == Undefined && Get(o, "image") == Undefined && Get(o, "poster") == Undefined
    requires Get(o, "img") == Undefined && Get(o, "episode") == Undefined && Get(o, "category") == Undefined
    ensures var id := Or(Get(o, "id"), Str(UnknownId));
            CardOf(o) ==
              Ok(Some(Card(
                id,
                Or(Get(o, "title"), Str("No Title")),
                Or(Get(o, "thumbnail"), Str(PlaceholderImage)),
                Or(Get(o, "episodeNumber"), Null),
                Or(Get(o, "type"), Str("TV")),
                "/anime/" + Display(id))))
  {
    var idp := Get(o, "id");
    assert CardId(o) == Ok(Or(idp, Str(UnknownId))) by {
      var ids := [Get(o, "animeId"), idp, Get(o, "slug")];
      if !Truthy(idp) {
        assert FirstTruthy(ids) == 3;
      } else {
        assert FirstTruthy(ids) == 1;
      }
    }
    var t := [Get(o, "title"), Get(o, "name")];
    assert Coalesce(t, Str("No Title")) == Or(Get(o, "title"), Str("No Title")) by {
      if !Truthy(t[0]) { assert FirstTruthy(t) == 2; }
    }
    var th := [Get(o, "image"), Get(o, "thumbnail"), Get(o, "poster"), Get(o, "img")];
    assert Coalesce(th, Str(PlaceholderImage)) == Or(Get(o, "thumbnail"), Str(PlaceholderImage)) by {
      if !Truthy(th[1]) { assert FirstTruthy(th) == 4; }
    }
    var e := [Get(o, "episodeNumber"), Get(o, "episode")];
    assert Coalesce(e, Null) == Or(Get(o, "episodeNumber"), Null) by {
      if !Truthy(e[0]) { assert FirstTruthy(e) == 2; }
    }
    var k := [Get(o, "type"), Get(o, "category")];
    assert Coalesce(k, Str("TV")) == Or(Get(o, "type"), Str("TV")) by {
      if !Truthy(k[0]) { assert FirstTruthy(k) == 2; }
    }
  }

  /**
   * An href ending in '/' and a segment without '/', with or without a
   * trailing '/', gives exactly that segment.
   */
  lemma HrefLastSegment(prefix: string, segment: string)
    requires |prefix| > 0 && prefix[|prefix| - 1] == '/'
    requires segment != "" && '/' !in segment
    requires forall i :: 0 <= i < |prefix| ==> !IsLineTerminator(prefix[i])
    ensures HrefId(Str(prefix + segment)) == Ok(Str(segment))
    ensures HrefId(Str(prefix + segment + "/")) == Ok(Str(segment))
  {
    var t := prefix + segment;
    LastSlashBeforeSegment(prefix, segment);
    assert StripTrailingSlash(t) == t;
    SegmentReplaced(prefix, segment, t);
    assert StripTrailingSlash(t + "/") == t;
    SegmentReplaced(prefix, segment, t + "/");
  }

  lemma LastSlashBeforeSegment(prefix: string, segment: string)
    requires |prefix| > 0 && prefix[|prefix| - 1] == '/'
    requires '/' !in segment
    ensures LastSlash(prefix + segment) == |prefix| - 1
  {
    var t := prefix + segment;
    assert t[|prefix| - 1] == '/';
    assert forall i :: |prefix| <= i < |t| ==> t[i] == segment[i - |prefix|];
  }

  lemma SegmentReplaced(prefix: string, segment: string, s: string)
    requires |prefix| > 0 && segment != ""
    requires StripTrailingSlash(s) == prefix + segment
    requires LastSlash(prefix + segment) == |prefix| - 1
    requires forall i :: 0 <= i < |prefix| ==> !IsLineTerminator(prefix[i])
    ensures HrefId(Str(s)) == Ok(Str(segment))
  {
    var t := prefix + segment;
    var k := |prefix| - 1;
    assert |t| <= |s| && s[..|t|] == t;
    assert LineStart(s, k) == 0 by {
      assert forall i :: 0 <= i < k ==> s[i] == prefix[i];
    }
    assert t[k + 1..] == segment;
    assert ReplaceTrailingSegment(s) == s[..0] + segment;
    assert s[..0] + segment == segment;
  }

  /** An href without a '/' followed by a segment is kept unchanged. */
  lemma HrefWithoutSegmentUnchanged(s: string)
    requires s != "" && '/' !in StripTrailingSlash(s)
    ensures HrefId(Str(s)) == Ok(Str(s))
  {
    var t := StripTrailingSlash(s);
    if 0 <= LastSlash(t) {
      assert t[LastSlash(t)] in t;
    }
  }
}
