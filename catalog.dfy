/** The add/edit handler's document shaping: from the request fields and the fetched
    upstream metadata record to the catalog document that is inserted (no `id` given)
    or to the update payload for an existing document (`id` given). */
module Catalog {
  import opened JsValues
  import opened Http
  import TmdbLookup

  const PosterBase: string := "https://image.tmdb.org/t/p/w500"
  const BackdropBase: string := "https://image.tmdb.org/t/p/original"

  /** The stored fields of a catalog entry. */
  datatype Field =
    | TmdbId | Title | Overview | PosterPath | BackdropPath | ReleaseDate | Category | Type
    | StreamLink | Download480 | Download720 | Download1080
    | BatchLink1 | BatchLink2 | BatchLink3 | BatchLink4
    | Episodes

  /** Which block a field belongs to: the shared metadata, the movie links or the
      series links. */
  datatype Group = Shared | MovieLinks | SeriesLinks

  function GroupOf(f: Field): Group
  {
    match f
    case StreamLink | Download480 | Download720 | Download1080 => MovieLinks
    case Episodes | BatchLink1 | BatchLink2 | BatchLink3 | BatchLink4 => SeriesLinks
    case _ => Shared
  }

  /** The fields the handler destructures from the request body. */
  datatype AddRequest = AddRequest(
    id: Value, tmdbId: Value, kind: Value, category: Value,
    episodes: Value, streamLink: Value,
    d480: Value, d720: Value, d1080: Value,
    b1: Value, b2: Value, b3: Value, b4: Value)

  /** `const { id, tmdbId, type, ... } = req.body`: each field is the body's property of
      that name, `undefined` when the body lacks it. */
  function FromBody(body: Record): (req: AddRequest)
    ensures req.id == Get(body, "id") && req.tmdbId == Get(body, "tmdbId")
    ensures req.kind == Get(body, "type") && req.category == Get(body, "category")
    ensures req.episodes == Get(body, "episodes") && req.streamLink == Get(body, "streamLink")
    ensures req.d480 == Get(body, "d480") && req.d720 == Get(body, "d720")
    ensures req.d1080 == Get(body, "d1080")
    ensures req.b1 == Get(body, "b1") && req.b2 == Get(body, "b2")
    ensures req.b3 == Get(body, "b3") && req.b4 == Get(body, "b4")
  {
    AddRequest(
      Get(body, "id"), Get(body, "tmdbId"), Get(body, "type"), Get(body, "category"),
      Get(body, "episodes"), Get(body, "streamLink"),
      Get(body, "d480"), Get(body, "d720"), Get(body, "d1080"),
      Get(body, "b1"), Get(body, "b2"), Get(body, "b3"), Get(body, "b4"))
  }

  /** The body properties the handler reads. */
  const RequestKeys: set<string> :=
    {"id", "tmdbId", "type", "category", "episodes", "streamLink",
     "d480", "d720", "d1080", "b1", "b2", "b3", "b4"}

  /** Any other property of the body, whatever its value, leaves the request unchanged. */
  lemma FromBodyIgnoresOtherKeys(body: Record, k: string, v: Value)
    requires k !in RequestKeys
    ensures FromBody(body[k := v]) == FromBody(body)
  {
  }

  predicate IsSeries(req: AddRequest)
  {
    StrictEquals(req.kind, Str("series"))
  }

  predicate IsMovie(req: AddRequest)
  {
    StrictEquals(req.kind, Str("movie"))
  }

  /** The text after a fixed prefix, when the text starts with it. */
  function AfterPrefix(prefix: string, v: Value): Option<string>
  {
    if v.Str? && prefix <= v.s then Some(v.s[|prefix|..]) else None
  }

  /** The metadata block `commonData` shared by both paths. */
  datatype Common = Common(
    tmdbId: Value, title: Value, overview: Value,
    posterPath: Value, backdropPath: Value, releaseDate: Value,
    category: Value, kind: Value)

  /** Builds the metadata block, or None when appending the upstream poster or backdrop
      path to its prefix throws. Title and release date fall back from the movie field to
      the series field when the former is falsy; poster and backdrop always carry their
      image-host prefix; `tmdbId` comes from the upstream record, `category` and `type`
      from the request. */
  function CommonData(req: AddRequest, data: Record): (c: Option<Common>)
    ensures c.None? <==>
      ConversionThrows(Get(data, "poster_path")) || ConversionThrows(Get(data, "backdrop_path"))
    ensures c.Some? ==> c.value.tmdbId == Get(data, "id")
    ensures c.Some? && Truthy(Get(data, "title")) ==> c.value.title == Get(data, "title")
    ensures c.Some? && !Truthy(Get(data, "title")) ==> c.value.title == Get(data, "name")
    ensures c.Some? ==> c.value.overview == Get(data, "overview")
    ensures c.Some? ==> AfterPrefix(PosterBase, c.value.posterPath) == ToJsString(Get(data, "poster_path"))
    ensures c.Some? ==> AfterPrefix(BackdropBase, c.value.backdropPath) == ToJsString(Get(data, "backdrop_path"))
    ensures c.Some? && Truthy(Get(data, "release_date")) ==> c.value.releaseDate == Get(data, "release_date")
    ensures c.Some? && !Truthy(Get(data, "release_date")) ==> c.value.releaseDate == Get(data, "first_air_date")
    ensures c.Some? ==> c.value.category == req.category && c.value.kind == req.kind
  {
    match (ToJsString(Get(data, "poster_path")), ToJsString(Get(data, "backdrop_path")))
    case (Some(posterText), Some(backdropText)) =>
      var poster := PosterBase + posterText;
      var backdrop := BackdropBase + backdropText;
      assert poster[|PosterBase|..] == posterText;
      assert backdrop[|BackdropBase|..] == backdropText;
      Some(Common(
        Get(data, "id"),
        Or(Get(data, "title"), Get(data, "name")),
        Get(data, "overview"),
        Str(poster),
        Str(backdrop),
        Or(Get(data, "release_date"), Get(data, "first_air_date")),
        req.category,
        req.kind))
    case _ => None
  }

  /** The value a shared field holds in the metadata block. */
  function CommonField(c: Common, f: Field): Value
    requires GroupOf(f) == Shared
  {
    match f
    case TmdbId => c.tmdbId
    case Title => c.title
    case Overview => c.overview
    case PosterPath => c.posterPath
    case BackdropPath => c.backdropPath
    case ReleaseDate => c.releaseDate
    case Category => c.category
    case Type => c.kind
  }

  // ----- Edit path -----

  /** The object literal `{ ...commonData, ... }` of the edit path. The eight shared keys
      are always present; each link key is either present (`Some`, with a value that may
      well be `undefined`) or absent from the object (`None`). */
  datatype Payload = Payload(
    common: Common,
    streamLink: Option<Value>,
    download480: Option<Value>, download720: Option<Value>, download1080: Option<Value>,
    episodes: Option<Value>,
    batchLink1: Option<Value>, batchLink2: Option<Value>,
    batchLink3: Option<Value>, batchLink4: Option<Value>)

  /** `f in payload ? Some(payload[f]) : None`. */
  function Entry(p: Payload, f: Field): Option<Value>
  {
    match f
    case StreamLink => p.streamLink
    case Download480 => p.download480
    case Download720 => p.download720
    case Download1080 => p.download1080
    case Episodes => p.episodes
    case BatchLink1 => p.batchLink1
    case BatchLink2 => p.batchLink2
    case BatchLink3 => p.batchLink3
    case BatchLink4 => p.batchLink4
    case _ => Some(CommonField(p.common, f))
  }

  /** The update payload of the edit path. A series payload holds the shared block, the
      episode list and the four batch links, and no movie link keys; any other `type`
      gives the shared block, the stream link and the three download links, and no
      series keys. Submitted values are passed through unchanged, `undefined` included. */
  function EditPayload(req: AddRequest, common: Common): (p: Payload)
    ensures p.common == common
    ensures IsSeries(req) ==> forall f :: Entry(p, f).Some? <==> GroupOf(f) != MovieLinks
    ensures !IsSeries(req) ==> forall f :: Entry(p, f).Some? <==> GroupOf(f) != SeriesLinks
    ensures IsSeries(req) ==>
      && p.episodes == Some(req.episodes)
      && p.batchLink1 == Some(req.b1) && p.batchLink2 == Some(req.b2)
      && p.batchLink3 == Some(req.b3) && p.batchLink4 == Some(req.b4)
    ensures !IsSeries(req) ==>
      && p.streamLink == Some(req.streamLink)
      && p.download480 == Some(req.d480) && p.download720 == Some(req.d720)
      && p.download1080 == Some(req.d1080)
  {
    if IsSeries(req) then
      Payload(common, None, None, None, None,
        Some(req.episodes), Some(req.b1), Some(req.b2), Some(req.b3), Some(req.b4))
    else
      Payload(common, Some(req.streamLink), Some(req.d480), Some(req.d720), Some(req.d1080),
        None, None, None, None, None)
  }

  // ----- Create path -----

  /** The object handed to `new Content(...)` on the create path: it carries every field. */
  datatype Content = Content(
    common: Common,
    streamLink: Value, download480: Value, download720: Value, download1080: Value,
    episodes: Value,
    batchLink1: Value, batchLink2: Value, batchLink3: Value, batchLink4: Value)

  /** The value a field holds in a new document. */
  function FieldOf(c: Content, f: Field): Value
  {
    match f
    case StreamLink => c.streamLink
    case Download480 => c.download480
    case Download720 => c.download720
    case Download1080 => c.download1080
    case Episodes => c.episodes
    case BatchLink1 => c.batchLink1
    case BatchLink2 => c.batchLink2
    case BatchLink3 => c.batchLink3
    case BatchLink4 => c.batchLink4
    case _ => CommonField(c.common, f)
  }

  /** The new document of the create path. The stream link is kept only for
      `type === 'movie'` and is "" otherwise; the episode list is kept only for
      `type === 'series'` and is `[]` otherwise; download and batch links are copied
      whatever the type. */
  function CreateDocument(req: AddRequest, common: Common): (c: Content)
    ensures c.common == common
    ensures IsMovie(req) ==> c.streamLink == req.streamLink
    ensures !IsMovie(req) ==> c.streamLink == Str("")
    ensures IsSeries(req) ==> c.episodes == req.episodes
    ensures !IsSeries(req) ==> c.episodes == Arr([])
    ensures c.download480 == req.d480 && c.download720 == req.d720 && c.download1080 == req.d1080
    ensures c.batchLink1 == req.b1 && c.batchLink2 == req.b2
    ensures c.batchLink3 == req.b3 && c.batchLink4 == req.b4
  {
    Content(
      common,
      if IsMovie(req) then req.streamLink else Str(""),
      req.d480, req.d720, req.d1080,
      if IsSeries(req) then req.episodes else Arr([]),
      req.b1, req.b2, req.b3, req.b4)
  }

  // ----- The handler -----

  /** The store write the handler issues. */
  datatype Write =
    | Update(id: Value, changes: Payload)
    | Insert(doc: Content)

  /** How the handler ends: the store write it issues, or the 500 reply of its `catch`
      when building the lookup URL or the metadata block throws. */
  datatype Outcome = Wrote(w: Write) | Failed

  /** The add/edit handler. `data` is the response body of the metadata lookup; it is
      consulted only when the lookup URL could be built. A truthy `id` selects an update
      of that document, an absent or falsy one an insert. */
  function AddContent(body: Record, apiKey: Option<string>, data: Record): (o: Outcome)
    ensures o.Failed? <==>
      || ConversionThrows(Get(body, "tmdbId"))
      || ConversionThrows(Get(data, "poster_path"))
      || ConversionThrows(Get(data, "backdrop_path"))
    ensures o.Wrote? ==> (o.w.Update? <==> Truthy(Get(body, "id")))
    ensures o.Wrote? && o.w.Update? ==>
      o.w.id == Get(body, "id") &&
      o.w.changes == EditPayload(FromBody(body), CommonData(FromBody(body), data).value)
    ensures o.Wrote? && o.w.Insert? ==>
      o.w.doc == CreateDocument(FromBody(body), CommonData(FromBody(body), data).value)
  {
    var req := FromBody(body);
    if TmdbLookup.LookupUrl(req.kind, req.tmdbId, apiKey).None? then Failed
    else
      match CommonData(req, data)
      case None => Failed
      case Some(common) =>
        if Truthy(req.id) then Wrote(Update(req.id, EditPayload(req, common)))
        else Wrote(Insert(CreateDocument(req, common)))
  }

  const UpdatedMsg: string := "\U{2705} Updated Successfully!"
  const AddedMsg: string := "\U{2705} Added Successfully!"
  const ErrorMsg: string := "Error: Check ID or Server Log"

  /** The reply sent once the write has completed, or the 500 reply of a failure. */
  function AddContentReply(o: Outcome): (reply: Reply)
    ensures reply.body.Keys == {"msg"}
    ensures reply.status == 200 <==> o.Wrote?
    ensures reply.status == 500 <==> o.Failed?
    ensures reply.body["msg"] == Str(UpdatedMsg) <==> o.Wrote? && o.w.Update?
    ensures reply.body["msg"] == Str(AddedMsg) <==> o.Wrote? && o.w.Insert?
    ensures reply.body["msg"] == Str(ErrorMsg) <==> o.Failed?
  {
    match o
    case Wrote(w) => Reply(200, map["msg" := Str(if w.Update? then UpdatedMsg else AddedMsg)])
    case Failed => Reply(500, map["msg" := Str(ErrorMsg)])
  }

  /** A request whose `tmdbId` is the JSON object `{"toString": 1}` writes nothing and
      gets the 500 reply, whatever the lookup would have returned. */
  lemma ObjectTmdbIdFails(body: Record, apiKey: Option<string>, data: Record)
    requires Get(body, "tmdbId") == Obj(map["toString" := Num(1)])
    ensures AddContent(body, apiKey, data) == Failed
    ensures AddContentReply(AddContent(body, apiKey, data)).status == 500
  {
  }

  // ----- Relations between the two paths and the lookup -----

  /** For a `movie` or `series` request, the new document stores exactly what an edit of
      the same request would write, on every key the edit writes. */
  lemma CreateMatchesEditForKnownKinds(req: AddRequest, common: Common)
    requires IsMovie(req) || IsSeries(req)
    ensures forall f :: Entry(EditPayload(req, common), f).Some? ==>
      Entry(EditPayload(req, common), f).value == FieldOf(CreateDocument(req, common), f)
  {
  }

  /** A `type` that is neither `movie` nor `series` (a missing one included) is treated
      as a movie by an edit, which writes the submitted stream link, but a create blanks
      both the stream link and the episode list. */
  lemma UnknownKindCreateBlanksBoth(req: AddRequest, common: Common)
    requires !IsMovie(req) && !IsSeries(req)
    ensures CreateDocument(req, common).streamLink == Str("")
    ensures CreateDocument(req, common).episodes == Arr([])
    ensures EditPayload(req, common).streamLink == Some(req.streamLink)
    ensures EditPayload(req, common).episodes == None
  {
  }

  /** The lookup addresses the `tv` resource exactly when the edit payload has the series
      shape: both choices test `type === 'series'`. */
  lemma LookupKindMatchesEditShape(req: AddRequest, common: Common)
    ensures TmdbLookup.ResourceKind(req.kind) == "tv" <==> EditPayload(req, common).episodes.Some?
    ensures TmdbLookup.ResourceKind(req.kind) == "movie" <==> EditPayload(req, common).streamLink.Some?
  {
  }

  /** An upstream record with `poster_path: null` (no poster) still gets the image-host
      prefix, followed by the text "null". */
  lemma NullPosterKeepsPrefix(req: AddRequest, data: Record)
    requires Get(data, "poster_path") == Null
    requires !ConversionThrows(Get(data, "backdrop_path"))
    ensures CommonData(req, data).Some?
    ensures CommonData(req, data).value.posterPath == Str(PosterBase + "null")
  {
  }
}
