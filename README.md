# Movie catalog admin API: request shaping and login, in Dafny

This project models the logic of `server.js`, the single file of a small content-catalog
admin API. The file mostly wires HTTP routes to store calls. The part with decisions of
its own is modelled here:

- the upstream lookup URL of the add/edit handler. Its resource path is `tv` for a
  `series` request and `movie` for everything else (`TmdbLookup`);
- the shaping of the fetched metadata record and the request fields into the stored
  document. This covers the shared `commonData` block, the create-path document, the
  edit-path update payload, and the truthy-`id` choice between the two paths
  (`Catalog`);
- the login check, a strict comparison against the configured secret that yields a fixed
  token (`Auth`).

These rest on a small model of the JavaScript values involved (`JsValues`):

- JSON-shaped values, with `undefined` as a value of its own;
- truthiness, which decides `||` and `if (id)`;
- `===`;
- the string conversion applied by `+` and by template literals. This conversion
  writes `undefined` and `null` as text, and numbers as decimal numerals. It throws a
  `TypeError` for a JSON object with an own `toString` key, which is never callable, and
  for an array holding such an object.

Everything is pure: the network fetch, the store and the environment become parameters
or are left out.

A conversion that throws inside the add/edit handler ends in its `catch`: nothing is
written and the reply is status 500.

Files: `js_values.dfy` (module `JsValues`), `http.dfy` (`Http`, the reply type),
`tmdb_lookup.dfy` (`TmdbLookup`), `catalog.dfy` (`Catalog`), `auth.dfy` (`Auth`).

A reader of this service might expect some things that the code does not do. In each
case the model follows the code:

- On create, the three download links are copied whatever the `type`. They are not
  blanked for a series.
- The edit payload is only what the code builds. Whether the store merges it or
  overwrites the document is not visible in this code.
- A missing or unknown `type` gets a `movie` lookup and a movie-shaped edit payload. On
  create, it gets neither a stream link nor episodes.

## Model

| member | source | states |
|---|---|---|
| JsValues.Truthy | server.js:74 | exactly `undefined`, `null`, `false`, `0` and `""` are falsy; every array and object is truthy |
| JsValues.Or | server.js:65-69 | `a || b` is one of its operands: `a` when `a` is truthy, otherwise `b`; the result is truthy exactly when either operand is |
| JsValues.StrictEquals | server.js:76-88 | `===` holds only between equal non-object values; with a primitive left operand it is plain value equality |
| JsValues.StrictEqualsPrimitive | server.js:129 | `===` against a primitive operand (a string literal or an environment value) holds exactly when the two values are equal |
| JsValues.Digits | server.js:59 | the decimal text of a number is non-empty, all digits, and has no leading zero except for 0 itself |
| JsValues.DigitsRoundTrip | server.js:59 | reading back the decimal digits of a natural number gives that number |
| JsValues.NumberToString | server.js:59 | a number's text is non-empty, starts with `-` exactly for a negative number, and is otherwise all decimal digits |
| JsValues.ToJsString | server.js:67-68 | string conversion fails exactly for a JSON object with an own `toString` key, or an array holding one at any depth; every other value converts |
| JsValues.JoinItems | server.js:67-68 | joining an array's first k elements fails exactly when one of them fails to convert |
| JsValues.NumberToStringRoundTrip | server.js:59 | the text that interpolation gives an integral number reads back as the same number |
| JsValues.NumberToStringInjective | server.js:59 | distinct numeric identifiers interpolate to distinct texts |
| JsValues.NumberStringHasNoQuery | server.js:59 | an interpolated number contains no '?', so it cannot end the URL path early |
| TmdbLookup.ResourceKind | server.js:59 | the resource segment is `tv` exactly when `type === 'series'`, and `movie` for every other value, missing included |
| TmdbLookup.KeyText | server.js:59 | the interpolated API key is the configured key, or `undefined` when the variable is unset |
| TmdbLookup.LookupUrl | server.js:59 | no URL exactly when interpolating `tmdbId` throws; otherwise the URL starts with `.../3/tv/` exactly for a series request and `.../3/movie/` for every other type, and ends with `/{tmdbId}?api_key={key}` |
| TmdbLookup.UrlOfShape | server.js:59 | the URL template starts with the API base and `tv/` exactly for the `tv` segment, and ends with `/{id}?api_key={key}` |
| TmdbLookup.ParseLookupUrl | server.js:59 | the partner of the URL builder: whatever it accepts starts with the API base and addresses `tv` or `movie` |
| TmdbLookup.UrlOfRoundTrip | server.js:59 | parsing the URL template recovers its segment, identifier and key when the identifier has no '?' |
| TmdbLookup.LookupUrlRoundTrip | server.js:59 | parsing a lookup URL recovers the resource kind, the identifier text and the key text, provided the identifier converts and its text holds no '?' |
| TmdbLookup.LookupUrlDeterminesNumericId | server.js:59 | for numeric identifiers, equal lookup URLs mean equal identifiers and the same series/non-series choice |
| TmdbLookup.ObjectIdHasNoUrl | server.js:59 | a `tmdbId` of `{"toString": 1}` gives no URL, because its interpolation throws |
| Catalog.FromBody | server.js:56 | each request field is the body property of the same name, `undefined` when absent |
| Catalog.FromBodyIgnoresOtherKeys | server.js:56 | body properties other than the thirteen destructured ones do not affect the request |
| Catalog.CommonData | server.js:63-72 | no block exactly when converting the upstream `poster_path` or `backdrop_path` throws; otherwise `tmdbId` comes from the upstream `id` and not from the request; title is `title` if truthy, else `name`; release date is `release_date` if truthy, else `first_air_date`; poster and backdrop always start with their image-host prefixes, and what follows the prefix is the upstream path as text; `category` and `type` are the request's values |
| Catalog.EditPayload | server.js:76-78 | the edit payload always carries the common block; for `type === 'series'` its keys are exactly the common ones plus `episodes` and `batchLink1..4`, holding the submitted values; for any other type, exactly the common ones plus `streamLink` and `download480/720/1080` |
| Catalog.CreateDocument | server.js:84-90 | the new document carries the common block; `streamLink` is the submitted one for `type === 'movie'` and `""` otherwise; `episodes` is the submitted list for `type === 'series'` and `[]` otherwise; download and batch links are copied whatever the type |
| Catalog.AddContent | server.js:54-97 | the handler fails, writing nothing, exactly when converting `tmdbId`, `poster_path` or `backdrop_path` throws; otherwise a truthy `id` gives an update of that id with the edit payload, and an absent or falsy `id` (`undefined`, `null`, `""`, `0`, `false`) gives an insert of the create document |
| Catalog.AddContentReply | server.js:81-96 | status 200 with "Updated Successfully!" for an update or "Added Successfully!" for an insert; status 500 with "Error: Check ID or Server Log" for a failure; the body has only `msg` |
| Catalog.ObjectTmdbIdFails | server.js:55-96 | a request whose `tmdbId` is `{"toString": 1}` writes nothing and gets the 500 reply, whatever the lookup would return |
| Catalog.CreateMatchesEditForKnownKinds | server.js:76-90 | for `movie` or `series` requests, every key the edit payload holds has the same value in the create document |
| Catalog.UnknownKindCreateBlanksBoth | server.js:76-88 | a type that is neither `movie` nor `series` gets `""` and `[]` on create, while the edit writes the submitted stream link and no episodes |
| Catalog.LookupKindMatchesEditShape | server.js:59-78 | the lookup uses `tv` exactly when the edit payload has the series shape, and `movie` exactly when it has the movie shape |
| Catalog.NullPosterKeepsPrefix | server.js:67 | an upstream `poster_path` of `null` still yields the prefixed text, ending in `null` |
| Auth.Granted | server.js:131 | the success reply: status 200, exactly the keys `success` (true) and `token` (the fixed token) |
| Auth.Refused | server.js:133 | the refusal reply: status 401, exactly the keys `success` (false) and `msg` (the fixed message), no token |
| Auth.Login | server.js:126-134 | the token reply is returned exactly when `password === ADMIN_PASS`; every other request gets the 401 reply with `success: false` |
| Auth.LoginGrantsOnlyTheSecret | server.js:129-133 | with a configured secret, status 200 is returned exactly for the string equal to it; every other value gets status 401 and `success: false` |
| Auth.LoginTokenIsConstant | server.js:131 | every successful login gets the same reply with the same fixed token |
| Auth.LoginUnsetSecretGrantsMissingPassword | server.js:126-131 | with `ADMIN_PASS` unset, a body without `password` is granted the token |
| Auth.LoginRequiringSecret | server.js:129-134 | corrected check: the token is granted exactly when a secret is configured and the password equals it; with no secret, every request is refused |
| Auth.LoginRequiringSecretAgreesWhenConfigured | server.js:129-134 | the corrected check and the code as written agree whenever a secret is configured |

## Findings

| source | as written | input that shows it | evidently intended | confidence | as-written member | corrected member |
|---|---|---|---|---|---|---|
| server.js:127-129 | `password === process.env.ADMIN_PASS` with no check that the variable is set | `ADMIN_PASS` unset and request body `{}`: `undefined === undefined` holds, so the token is returned | refuse every login when no secret is configured | medium (depends on deployment configuration); not executed | Auth.LoginUnsetSecretGrantsMissingPassword | Auth.LoginRequiringSecret |

## Left out

- The store layer (Mongoose) is left out. Its semantics belong to the library, not to this file. This covers:
  - schema casting, such as a numeric `tmdbId` stored in a string field;
  - the schema defaults (`type: 'movie'`, `addedAt`);
  - `findByIdAndUpdate`, `save`, `find().sort`, `findById` and `findByIdAndDelete`, and with them the list, get and delete routes (server.js:100-120).
  The model stops at the write it issues: `Catalog.Write`.
- The metadata fetch (Axios) is left out. Its response body is the `data` parameter of the shaping functions.
- Network and store failures are left out. A failed fetch or a failed write also ends in the 500 reply of the `catch` (server.js:94-96). The model produces that reply only for the conversion failures it does model.
- Express wiring is left out: routing, JSON body parsing, CORS, static files and `listen`. The parsed request body is taken to be a JSON object.
- Configuration and side effects are left out. `TMDB_API_KEY` and `ADMIN_PASS` are parameters, absent when unset. `dotenv`, the port, wall-clock time and logging are not modelled.
- JsValues.NumberToString: numbers are modelled as the integers of magnitude at most 2^53 (`JsValues.JsInteger`), which JavaScript holds exactly and prints in plain decimal. Larger JSON integers are rounded on parsing and printed in shortest round-trip form, for example `12345678901234567890` prints as `12345678901234567000`. Fractions, `NaN`, and the exponent form used from 10^21 up are not modelled either.
- Objects are modelled without their key order. A payload is modelled as which keys it has and their values.
- `===` on two objects is reference identity. The model never compares two objects that could be the same reference, so two object operands count as unequal.
- Concurrency between requests is left out. The runtime and the database handle it, not this code.
