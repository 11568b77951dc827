/** The upstream lookup URL built by the add/edit handler before it fetches the
    metadata record: the request's `type` picks the resource path (`tv` or `movie`),
    and the identifier and the API key are interpolated into the URL. */
module TmdbLookup {
  import opened JsValues

  const ApiBase: string := "https://api.themoviedb.org/3/"
  const KeyParam: string := "?api_key="

  /** The resource path segment: `type === 'series' ? 'tv' : 'movie'`. */
  function ResourceKind(kind: Value): (segment: string)
    ensures segment == "tv" <==> kind == Str("series")
    ensures segment == "movie" <==> kind != Str("series")
  {
    if StrictEquals(kind, Str("series")) then "tv" else "movie"
  }

  /** The text `${process.env.TMDB_API_KEY}` gives: the key, or "undefined" when unset. */
  function KeyText(apiKey: Option<string>): (t: string)
    ensures ToJsString(EnvValue(apiKey)) == Some(t)
    ensures apiKey.Some? ==> t == apiKey.value
  {
    match apiKey
    case Some(k) => k
    case None => "undefined"
  }

  /** The lookup URL for the request's `type` and `tmdbId`, with the configured API key.
      None when interpolating `tmdbId` throws, in which case nothing is fetched. The URL
      addresses `tv` exactly for a `series` request and `movie` for every other `type`,
      missing included, and always ends with `/{tmdbId}?api_key={key}`. */
  function LookupUrl(kind: Value, tmdbId: Value, apiKey: Option<string>): (url: Option<string>)
    ensures url.None? <==> ConversionThrows(tmdbId)
    ensures url.Some? ==> (ApiBase + "tv/" <= url.value <==> kind == Str("series"))
    ensures url.Some? && kind != Str("series") ==> ApiBase + "movie/" <= url.value
    ensures url.Some? ==>
      var tail := "/" + ToJsString(tmdbId).value + KeyParam + KeyText(apiKey);
      |tail| <= |url.value| && url.value[|url.value| - |tail|..] == tail
  {
    match ToJsString(tmdbId)
    case None => None
    case Some(id) =>
      UrlOfShape(ResourceKind(kind), id, KeyText(apiKey));
      Some(UrlOf(ResourceKind(kind), id, KeyText(apiKey)))
  }

  /** The template of the lookup URL, over the interpolated texts. */
  function UrlOf(segment: string, id: string, key: string): string
  {
    ApiBase + segment + "/" + id + KeyParam + key
  }

  lemma UrlOfShape(segment: string, id: string, key: string)
    requires segment == "tv" || segment == "movie"
    ensures ApiBase + "tv/" <= UrlOf(segment, id, key) <==> segment == "tv"
    ensures segment == "movie" ==> ApiBase + "movie/" <= UrlOf(segment, id, key)
    ensures
      var url, tail := UrlOf(segment, id, key), "/" + id + KeyParam + key;
      |tail| <= |url| && url[|url| - |tail|..] == tail
  {
    var tail := "/" + id + KeyParam + key;
    var url := UrlOf(segment, id, key);
    assert url == (ApiBase + segment) + tail;
    if segment == "tv" {
      assert url == (ApiBase + "tv/") + (id + KeyParam + key);
    } else {
      assert url == (ApiBase + "movie/") + (id + KeyParam + key);
      assert url[|ApiBase|] == 'm';
      assert (ApiBase + "tv/")[|ApiBase|] == 't';
    }
  }

  /** What a lookup URL addresses: resource kind, identifier text and API key text. */
  datatype Target = Target(resource: string, id: string, key: string)

  /** Position of the first '?' in s, or |s| when there is none. */
  function IndexOfQuery(s: string): (i: nat)
    ensures i <= |s|
    ensures forall j :: 0 <= j < i ==> s[j] != '?'
    ensures i < |s| ==> s[i] == '?'
  {
    if s == [] || s[0] == '?' then 0 else 1 + IndexOfQuery(s[1..])
  }

  /** The text after the resource segment and its slash, given the segment. */
  function AfterResource(rest: string): (r: Option<(string, string)>)
  {
    if "tv/" <= rest then Some(("tv", rest[3..]))
    else if "movie/" <= rest then Some(("movie", rest[6..]))
    else None
  }

  /** The partner of LookupUrl: splits a lookup URL back into what it addresses. The
      identifier is the text up to the first '?'. */
  function ParseLookupUrl(url: string): (t: Option<Target>)
    ensures t.Some? ==> ApiBase <= url && (t.value.resource == "tv" || t.value.resource == "movie")
  {
    if !(ApiBase <= url) then None
    else
      match AfterResource(url[|ApiBase|..])
      case None => None
      case Some((resource, after)) =>
        var q := IndexOfQuery(after);
        if KeyParam <= after[q..] then Some(Target(resource, after[..q], after[q..][|KeyParam|..]))
        else None
  }

  lemma AfterResourceOf(segment: string, after: string)
    requires segment == "tv" || segment == "movie"
    ensures AfterResource(segment + "/" + after) == Some((segment, after))
  {
    var rest := segment + "/" + after;
    if segment == "tv" {
      assert rest == "tv/" + after;
    } else {
      assert rest == "movie/" + after;
      assert rest[0] == 'm';
    }
  }

  lemma {:induction false} IndexOfQueryAfter(id: string, tail: string)
    requires '?' !in id
    requires |tail| > 0 && tail[0] == '?'
    ensures IndexOfQuery(id + tail) == |id|
  {
    if id != [] {
      assert (id + tail)[1..] == id[1..] + tail;
      IndexOfQueryAfter(id[1..], tail);
    }
  }

  lemma UrlOfRoundTrip(segment: string, id: string, key: string)
    requires segment == "tv" || segment == "movie"
    requires '?' !in id
    ensures ParseLookupUrl(UrlOf(segment, id, key)) == Some(Target(segment, id, key))
  {
    var tail := KeyParam + key;
    var after := id + tail;
    var url := UrlOf(segment, id, key);
    assert url == ApiBase + (segment + "/" + after);
    assert url[|ApiBase|..] == segment + "/" + after;
    AfterResourceOf(segment, after);
    IndexOfQueryAfter(id, tail);
    assert after[..|id|] == id;
    assert after[|id|..] == tail;
    assert tail[|KeyParam|..] == key;
  }

  /** A lookup URL parses back into its resource kind, identifier and key, provided the
      identifier converts to a text that holds no '?'. */
  lemma LookupUrlRoundTrip(kind: Value, tmdbId: Value, apiKey: Option<string>)
    requires !ConversionThrows(tmdbId) && '?' !in ToJsString(tmdbId).value
    ensures LookupUrl(kind, tmdbId, apiKey).Some?
    ensures ParseLookupUrl(LookupUrl(kind, tmdbId, apiKey).value)
         == Some(Target(ResourceKind(kind), ToJsString(tmdbId).value, KeyText(apiKey)))
  {
    UrlOfRoundTrip(ResourceKind(kind), ToJsString(tmdbId).value, KeyText(apiKey));
  }

  /** With a numeric identifier, equal lookup URLs address the same resource kind and
      the same identifier. */
  lemma LookupUrlDeterminesNumericId(kind1: Value, n1: JsInteger, kind2: Value, n2: JsInteger, apiKey: Option<string>)
    requires LookupUrl(kind1, Num(n1), apiKey) == LookupUrl(kind2, Num(n2), apiKey)
    ensures n1 == n2
    ensures kind1 == Str("series") <==> kind2 == Str("series")
  {
    NumberStringHasNoQuery(n1);
    NumberStringHasNoQuery(n2);
    LookupUrlRoundTrip(kind1, Num(n1), apiKey);
    LookupUrlRoundTrip(kind2, Num(n2), apiKey);
    NumberToStringInjective(n1, n2);
  }

  /** An identifier object with an own `toString` key (JSON `{"toString": 1}`) makes the
      URL interpolation throw, so no lookup happens. */
  lemma ObjectIdHasNoUrl(kind: Value, apiKey: Option<string>)
    ensures LookupUrl(kind, Obj(map["toString" := Num(1)]), apiKey) == None
  {
  }
}
