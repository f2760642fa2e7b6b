# Now-playing proxy: a Dafny model

The service is one Express file, `server.js`. It exposes `GET /api/now-playing`,
which reports what a Spotify account is playing without handing the account's
long-lived credentials to browsers. Three pieces of its logic are modelled here as
pure functions, with lemmas about them.

- **Origin gate** (`origin_gate.dfy`, module `OriginGate`). This is the `origin`
  callback given to the CORS middleware. An absent or empty `Origin` is allowed.
  So is an origin matching `^http://localhost(:\d+)?$` or
  `^https://([a-zA-Z0-9-]+\.)*<domain>(:\d+)?$`. Both regular expressions are
  written twice: once as languages (how a string splits into the pattern's
  pieces), and once as executable tests. The two are proved to agree. The domain
  text is built as in the code: `String.replace` with a string pattern escapes
  only the first `.`, and the result is read as regular-expression atoms. So every
  later dot of the domain matches any character except a line terminator.
  Origins are the ASCII serialisation of section 6.2 of RFC 6454.
- **Normalisation** (`now_playing.dfy`, module `NowPlaying`). This maps the
  upstream "currently playing" JSON to the eight-field snapshot. Every JSON key is
  an `Option`, because `?.` and `??` treat a missing key and `null` alike. The
  `artist` field joins the names of `item.artists` with `", "`.
- **Dispatch** (`proxy.dfy`, module `Proxy`). This is the request handler.
  First comes the refresh-token grant (section 6 of RFC 6749), sent with Basic
  authentication (section 2 of RFC 7617). Then comes the playback query, sent with
  a Bearer token (section 2.1 of RFC 6750). Upstream replies are inputs. The
  handler's result lists the upstream requests it issued, in order, and gives the
  status and body it answers.

Answers the handler gives, as the code sends them:

- Status 204 from the playback query is answered with status 204 and
  `{error: 'Currently Not Playing'}`. No snapshot is sent in that case.
- Any other status outside 200-299 is passed through with
  `{error: 'Unable to Fetch Song'}`.
- Failures answer 500 with `{error: 'Internal Error'}`.
- Only the first dot of the configured domain is escaped. Every later dot is
  a regular-expression wildcard.

## Model

| member | source | states |
|---|---|---|
| `OriginGate.Allowed` | server.js:28-34 | The origin is allowed exactly when it is absent, empty, in the domain pattern's language, or in the localhost pattern's language; everything else is refused |
| `OriginGate.DomainRegexTest` | server.js:25 | The executable test accepts exactly the strings that split into `https://`, dotted labels, a host matching the domain atoms, and an optional port |
| `OriginGate.LocalhostRegexTest` | server.js:26 | The executable test accepts exactly `http://localhost` followed by an optional `:digits` |
| `OriginGate.MatchesLabelsCorrect` | server.js:25 | The label scanner accepts exactly the concatenations of non-empty `[a-zA-Z0-9-]` labels, each followed by `.` |
| `OriginGate.ReplaceFirstDotSpec` | server.js:25 | `replace('.', '\\.')` leaves a dot-free domain unchanged; otherwise it turns the first dot, and only that one, into `\.` |
| `OriginGate.FirstDotSpec` | server.js:25 | The first-dot index points at a `.` with no `.` before it, and is absent exactly when the text has no `.` |
| `OriginGate.DomainPatternAtoms` | server.js:25 | The domain pattern has one atom per domain character. Non-dots and the first dot are literals; every later dot is a wildcard |
| `OriginGate.SingleDotDomainIsLiteral` | server.js:25 | For a domain with at most one dot, the host part must equal the domain exactly |
| `OriginGate.LocalhostOrigins` | server.js:26 | `http://localhost` and `http://localhost:5173` match. `https://localhost`, `http://localhost:` and `http://localhost.evil.com` do not |
| `OriginGate.ExampleComAllows` | server.js:25-31 | With domain `example.com`, `https://blog.example.com` and `https://example.com:8443` are allowed |
| `OriginGate.ExampleComDenies` | server.js:25-33 | With domain `example.com`, `https://evilexample.com` and `https://exampleXcom` are refused |
| `OriginGate.LaterDotsMatchAnyCharacter` | server.js:25-31 | With domain `my.example.com`, `https://my.exampleXcom` is allowed, because only the first dot is escaped |
| `NowPlaying.Normalize` | server.js:68-78 | Building the snapshot throws exactly when the body is `null` or the artist list holds a `null`; otherwise each field is its path's value or its default |
| `NowPlaying.AlbumImageUrl` | server.js:70 | Present exactly when item, album, a non-null first image and its url are all present; then it is that url |
| `NowPlaying.SongUrl` | server.js:73 | Present exactly when `item.external_urls.spotify` is present; then it is that value |
| `NowPlaying.Title` | server.js:74 | Present exactly when `item.name` is present; then it is that name |
| `NowPlaying.TimeTotal` | server.js:76 | `item.duration_ms` when present (0 included), otherwise 0 |
| `NowPlaying.ArtistUrl` | server.js:77 | Present exactly when the first album artist and its `external_urls.spotify` are present; then it is that value |
| `NowPlaying.FirstOf` | server.js:70 | `xs?.[0]` is present exactly when the array is present, non-empty and its first element is not null |
| `NowPlaying.Names` | server.js:71 | `map(a => a.name)` fails exactly when an element is `null`; otherwise the names are kept in order, with a missing name read as `""` |
| `NowPlaying.ArtistLineInOrder` | server.js:71 | No artists give `""`. One artist gives its bare name. Each further artist appends `", "` and its name |
| `NowPlaying.JoinConcat` | server.js:71 | Joining two non-empty lists puts exactly one separator between their joins |
| `NowPlaying.JoinAppend` | server.js:71 | Appending a part to a non-empty list appends the separator and the part |
| `NowPlaying.NormalizeTotal` | server.js:69-78 | A non-null body without null artists always normalises. A body with no keys gives the all-defaults snapshot |
| `NowPlaying.FieldsFollowPaths` | server.js:72-77 | Present `is_playing`, `progress_ms` and `name` are copied unchanged, `false` and `0` included. Absent ones give false, 0 and null. A missing `item` defaults every item field |
| `NowPlaying.ExampleBody` | server.js:69-78 | A full body with two artists gives `artist` "X, Y" and every field copied |
| `Proxy.TokenRequestCarriesCredentials` | server.js:39-50 | The first request is the token request. Reading its Basic credentials as RFC 7617 does gives back the configured id and secret, when the id has no colon. Its form is `grant_type=refresh_token` with the configured refresh token |
| `Proxy.SplitJoinedCredentials` | server.js:39 | Splitting `id:secret` at the first colon recovers `id` and `secret`, when `id` has no colon |
| `Proxy.CredentialsReachOnlyTokenEndpoint` | server.js:39-62 | The client id, secret and refresh token reach only the token request. Later requests and the response are the same for every configuration |
| `Proxy.TokenRequestPrecedesReplies` | server.js:58-60 | The two-run reading of `Handle`'s first-request clause: across any two pairs of upstream replies, the first request is the same, because it is sent before any reply is known |
| `Proxy.AccessToken` | server.js:51-60 | A token is obtained exactly when the fetch resolves, the status is 2xx, the body parses and is not `null`; it is the body's `access_token` |
| `Proxy.Handle` | server.js:58-83 | The token request always comes first and alone. The playback query is issued exactly when a token was obtained, with `Bearer <token>`. Without a token the answer is 500 |
| `Proxy.PlaybackDispatch` | server.js:64-78 | Playback 204 gives 204 'Currently Not Playing', checked before `ok`. Another non-2xx status passes through with 'Unable to Fetch Song'. A 2xx status gives 200 with the snapshot, or 500 when the body cannot be read |
| `Proxy.TokenFailureAnswers500` | server.js:51-62 | A failed token exchange answers 500 'Internal Error' and issues no playback query |
| `Proxy.ResponseIndependentOfCredentials` | server.js:58-83 | The response does not depend on the client id, the secret, the refresh token or the access token; no credential reaches a response body |
| `Proxy.ResponseShapes` | server.js:64-82 | A snapshot is sent exactly when the status is 200. Every other body is one of the three fixed error messages |
| `Proxy.BearerCarriesToken` | server.js:62 | The playback query's header is `Bearer ` plus the access token. An absent token is interpolated as `undefined` |

## Left out

- `OriginGate.Allowed`: requires the configured domain to consist of letters, digits, `-` and `.`. Other characters would be further regular-expression syntax, which is not modelled.
- `OriginGate.DomainRegexTest`: carries the same restriction on the domain alphabet.
- Full JavaScript regular-expression semantics are not modelled. Only what the two patterns use is covered: literals, `.`, `\.`, `\/`, `[a-zA-Z0-9-]`, `\d`, the groups `(…)` and `(?:…)`, `+`, `*`, `?` and the anchors `^` and `$`.
- `fetch`, Express routing, `app.listen` and the `cors` middleware's header writing are I/O and framework code. Upstream replies are inputs, and the gate's verdict is a boolean.
- Base64 (`Buffer.toString('base64')`) and `querystring.stringify` are library encoders. The token request records the text before encoding.
- Reading the environment and `dotenv` are left out. Credentials and the domain are parameters. The crash at start-up when `ALLOWED_ORIGIN_DOMAIN` is unset is not modelled.
- `console.log` and `console.error` output is not modelled. This includes the start-up logging of the credentials and the logging of the token error text.
- JSON values of an unexpected type are not modelled. Examples are a number where a URL string is expected, or an `artists` that is not an array. Leaf types are fixed, and JSON numbers are integers.
- A JSON body that is not an object and not `null` reads every key as `undefined`. Such a body is modelled by `Object(Song(None, None, None))`.
- Concurrent requests are not modelled. Each request is an independent sequential pipeline with no shared mutable state.
- Characters are taken as single units. JavaScript strings are UTF-16, so an origin with a character above U+FFFF, which is two code units, would meet the `.` wildcard as two units. Origins are ASCII in practice, and such characters are not modelled.
- The modelled response body is the one handed to `res.json`. For status 204 (and 304) Node's HTTP layer sends no body. That stripping is framework behaviour and is not modelled.
