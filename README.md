# warpgen: AWG15 configuration generator, modelled in Dafny

warpgen is a pair of serverless endpoints. `/generate` registers a new device with
Cloudflare's WARP API, switches the device to the WARP tier, and renders the keys and
addresses it gets back into an AmneziaWG 1.5 (AWG15) configuration file. `/auth` checks a
submitted password against an allow-list taken from the `PASSWORDS` environment value.

This project models those two endpoints:

- `text.dfy` (`Text`): the JavaScript string operations the renderer relies on.
  - `join` and `split` with a one-character separator, proved inverse to each other.
  - The first piece of a split.
  - The decimal text of an integer, proved to denote that integer.
  - Lower-case hex digits.
- `awg15.dfy` (`Awg15`): the renderer. It builds the fifteen `[Interface]` lines and the four
  `[Peer]` lines, joins them with a blank line between the two sections, and derives the
  file name from the IPv4 address.
  - The proofs split the rendered text back into lines.
  - They show that each section header occurs once, in order.
  - They read the file back by key, including the endpoint default.
- `warp_client.dfy` (`WarpClient`): how `makeRequest` builds a request and turns a reply into a
  document or one prefixed error.
  - It also holds the shape checks of the registration and activation responses.
  - A `Network` object stands for `fetch`. It logs every request and answers each from a
    fixed function of the request and its position in the log.
  - `MakeRequest`, `RegisterClient` and `EnableWarp` are methods over that object.
- `generate.dfy` (`Generate`): the generation flow (register, then enable, then render) and the
  `/generate` handler, as methods. `Flow` and `Respond` are the functions that specify them,
  and the requests each sends.
- `auth.dfy` (`Auth`): the `/auth` handler as a pure decision from the method, the body,
  `PASSWORDS` and the outcome of `JSON.parse`.
- `common.dfy` and `http.dfy`: `Option`, `Result` (a value or a thrown error's message) and
  the `(status, headers, body)` response record.

What the code does, and does not do:

- The `/generate` handler never reads the request body. It has no CAPTCHA check and no
  endpoint override: it always renders the default endpoint `162.159.195.1:500`.
- The `corsHeaders` constant is never used. Only the OPTIONS answer carries the three CORS
  headers.
- The `I1` value is reproduced exactly as written: `<b 0x` and 1969 hex digits. That is an
  odd number of digits, and the tag has no closing `>`. The model keeps the payload as its
  sequence of four-bit digits, so its text is the literal's text.

## Model

| member | source | states |
|---|---|---|
| `Text.Join` | api/generate.js:117-133 | `join` of no parts is empty; otherwise its length is the parts' total plus one separator between neighbours, and it starts with the first part; `SplitJoin` shows it is undone by `split` |
| `Text.Split` | api/generate.js:182 | `split` gives at least one piece, and no piece holds the separator |
| `Text.SplitJoin` | api/generate.js:117-133 | splitting a `join('\n')` of one-line parts at line feeds gives back exactly those parts |
| `Text.JoinSplit` | api/generate.js:182 | joining the pieces of a split with the separator gives back the original string |
| `Text.FirstPiece` | api/generate.js:182 | `split(sep)[0]` is a separator-free prefix that stops at the first separator or at the end |
| `Text.Decimal` | api/generate.js:125-127 | the template text of a profile number is a non-empty run of decimal digits, with a leading `0` only for zero |
| `Text.DecimalValue` | api/generate.js:125-127 | the decimal text denotes exactly the number it was made from |
| `Text.DecimalInjective` | api/generate.js:125-127 | distinct numbers get distinct texts |
| `Awg15.HexTag` | api/generate.js:115 | an `<b 0x…` tag of hex digits holds no line break, so the `I1` line stays one line |
| `Awg15.I1Shape` | api/generate.js:115 | the I1 value is `<b 0x` and 1969 lower-case hex digits ending in `6`, with no `>` |
| `Awg15.ProfileLines` | api/generate.js:94-97 | the junk-packet lines read `Jc = 120`, `Jmin = 23` and `Jmax = 911` |
| `Awg15.EffectiveEndpoint` | api/generate.js:143 | `endpoint \|\| DEFAULT_ENDPOINT` is never empty: the supplied endpoint when non-empty, else `162.159.195.1:500` |
| `Awg15.Build` | api/generate.js:103-108 | the interface section, a blank line, then the peer section; its meaning is stated by `BuildLayout`, `SectionHeaders` and `ReadBack` |
| `Awg15.InterfaceSection` | api/generate.js:110-134 | the fifteen interface lines joined by line feeds; `InterfaceSectionLines` splits it back into them |
| `Awg15.PeerSection` | api/generate.js:136-145 | the four peer lines joined by line feeds; `PeerSectionLines` splits it back into them |
| `Awg15.ConfigName` | api/generate.js:182 | the name is `AWG15_` + the IPv4 text up to its first `/` (all of it when there is none) + `.conf` |
| `Awg15.BuildLayout` | api/generate.js:103-145 | when every interpolated value is one line, the text splits into exactly the 15 interface lines, one empty line and the 4 peer lines, 20 lines in all |
| `Awg15.InterfaceSectionLines` | api/generate.js:117-133 | when every interpolated value is one line, the interface section alone splits back into exactly its 15 lines |
| `Awg15.PeerSectionLines` | api/generate.js:139-144 | when every interpolated value is one line, the peer section alone splits back into exactly its 4 lines |
| `Awg15.SectionHeaders` | api/generate.js:103-145 | when every interpolated value is one line, `[Interface]` is line 0 and no other line; `[Peer]` is line 16 and no other line; line 15 is empty |
| `Awg15.InterfaceLinesFixed` | api/generate.js:117-133 | every interface line except `PrivateKey` and `Address` is the same for all inputs |
| `Awg15.FileReadBack` | api/generate.js:117-144 | in the 20 lines of a file, whatever its I1 value, each key reads back the value rendered into it |
| `Awg15.ReadBack` | api/generate.js:101-145 | when every interpolated value is one line, reading the file back by key gives the private key, `v4 + ", " + v6`, the peer key, `0.0.0.0/0, ::/0`, and the supplied endpoint if non-empty, else `162.159.195.1:500` |
| `Awg15.RenderedTextDeterminesFields` | api/generate.js:103-145 | for renderings whose interpolated values are each one line, equal text means they agree on private key, address pair, peer key and effective endpoint |
| `WarpClient.ReplyOutcome` | api/generate.js:61-71 | a reply yields its document exactly when its status is 2xx and its body parses; every failure is one error prefixed `Cloudflare API request failed: `, naming `HTTP <status>: <text>` for a non-2xx status |
| `WarpClient.CheckRegistration` | api/generate.js:26-33 | accepted exactly when `result.id` and `result.token` are present and non-empty, and then it returns exactly those two |
| `WarpClient.CheckWarpConfig` | api/generate.js:44-48 | accepted exactly when `result.config` has a first peer and an interface, and then it returns those two |
| `WarpClient.RegistrationRequest` | api/generate.js:14-24 | registration is a POST to `BASE_URL/reg` with the default headers and the fixed device identity carrying the key and the timestamp |
| `WarpClient.ActivationRequest` | api/generate.js:36-42 | activation is a PATCH to `BASE_URL/reg/<id>` with `warp_enabled: true` and the default headers plus `Authorization: Bearer <token>` |
| `WarpClient.RequestFor` | api/generate.js:51-58 | the URL is the endpoint under `BASE_URL`; custom headers replace the defaults wholesale; a body is attached exactly when one is given and the method is POST or PATCH |
| `WarpClient.Network.Fetch` | api/generate.js:62 | one `fetch`: the request is appended to the log and answered as the next request |
| `WarpClient.MakeRequest` | api/generate.js:51-72 | sends exactly one request to `BASE_URL/<endpoint>`. Custom headers replace the defaults wholesale. A body is attached only when one is given and the method is POST or PATCH. The result is `ReplyOutcome` of the reply |
| `WarpClient.RegisterClient` | api/generate.js:14-34 | sends exactly the registration request and returns the shape check of its reply |
| `WarpClient.EnableWarp` | api/generate.js:36-49 | sends exactly the activation request for the registration and returns the shape check of its reply |
| `Generate.Assemble` | api/generate.js:168-183 | succeeds exactly when the interface has addresses with a `v4`; the file is the rendering of the first peer's key and both addresses with the default endpoint, named after `v4` |
| `Generate.Flow` | api/generate.js:156-188 | registration is always the first request, and the activation request is sent exactly when registration succeeded; success implies both were sent |
| `Generate.GenerateConfig` | api/generate.js:156-188 | the method's result and the requests it appends to the log are exactly those of `Flow` |
| `Generate.FailedRegistrationStops` | api/generate.js:162-165 | after a failed registration only the registration request was sent, and the outcome is that failure |
| `Generate.SuccessfulFlow` | api/generate.js:159-183 | a success sent registration then the activation authorised by the returned token, and delivers the rendering named after `v4` with the default endpoint |
| `Generate.DeliveredConfigContents` | api/generate.js:172-178 | a delivered file reads back the generated private key, the peer key, `v4, v6` and always the default endpoint |
| `Generate.Respond` | api/generate.js:200-229 | status is always 200, 405 or 500. OPTIONS gets 200, the three CORS headers and no body. Any other non-POST method gets 405. Neither sends a request |
| `Generate.Handler` | api/generate.js:200-229 | the handler's response and the requests it sends are exactly those of `Respond` |
| `Generate.HandlerStatus` | api/generate.js:213-228 | a POST gets 200 with the file exactly when generation succeeds, and 500 with `Ошибка: <message>` otherwise |
| `Auth.Truthy` | api/auth.js:11 | `!password` holds for an absent value and `null`, never for an array or object, and for a string exactly when it is empty |
| `Auth.SameValueZero` | api/auth.js:39 | an entry matches only a password equal to it, never as an array or object; the relation is symmetric |
| `Auth.Includes` | api/auth.js:39 | `includes` holds exactly when some entry is a primitive equal to the password |
| `Auth.AllowList` | api/auth.js:25-36 | a parsed array is the list. Any other parsed value becomes a one-entry list. Text that does not parse becomes a one-entry list of the raw text |
| `Auth.Handle` | api/auth.js:2-51 | status is always 200, 400, 401, 405 or 500; 200 exactly with the success body; no headers are set |
| `Auth.NonPostRefusedFirst` | api/auth.js:4-6 | any method but POST gets 405, and the answer does not depend on the body or `PASSWORDS` |
| `Auth.MissingPasswordRefusedBeforeAllowList` | api/auth.js:9-13 | a missing or falsy password gets 400, and the answer does not depend on `PASSWORDS` |
| `Auth.OpenAccessWhenUnset` | api/auth.js:18-23 | with `PASSWORDS` unset or empty, every truthy password is accepted |
| `Auth.AcceptedIffListed` | api/auth.js:39-45 | with `PASSWORDS` set, a truthy password gets 200 exactly when it is a primitive equal to an allow-list entry, and 401 otherwise |
| `Auth.RawTextIsSinglePassword` | api/auth.js:33-35 | when `PASSWORDS` is not JSON, the accepted password is exactly its raw text |
| `Auth.ScalarIsSinglePassword` | api/auth.js:29-32 | when `PASSWORDS` parses to a non-array, the accepted password is exactly that value |
| `Auth.TwoPasswordExample` | api/auth.js:25-45 | `PASSWORDS='["a","b"]'` accepts `"a"` and refuses `"c"` with 401 |
| `Auth.ServerErrorOnlyWithoutBody` | api/auth.js:8-50 | 500 arises exactly for a POST whose body cannot be destructured |

## Left out

- Key generation (`nacl.box.keyPair()` and the base64 encoding) is not modelled. It is random and a foreign library, so the key pair is an input.
- The registration timestamp (`new Date().toISOString()`) comes from the clock. It is an input, `now`.
- `fetch` and `response.json()` are network I/O. A reply is a value: a transport failure, or a status, its text and the outcome of parsing the body.
- `JSON.stringify` of request bodies is not modelled. A request carries the body value that would be serialised.
- `JSON.parse` in `/auth` is a foreign library. It is an input function from text to a parse result.
- Response documents are typed: a present field is a string, an object or an array of peer objects. Responses with differently typed fields are not modelled: a numeric id, a `null` array element, a non-object `config`.
- A missing field and a `null` field are the same in the model. The V8 error message for reading from a missing `addresses` or `v4` uses the `undefined` wording. A `null` `public_key` or `v6` would render as `null` in the file, but the model renders an absent one as `undefined`.
- The renderer's `endpoint` parameter is a string, and the empty string stands for an absent one. The only caller always passes the default endpoint.
- The framework's part of a response is not modelled: the `Content-Type` that `res.json` adds, and how status and body are sent.
- `console.error` logging is a side effect, and async scheduling has no bearing on the result. Neither is modelled.
- The I1 payload is a sequence of four-bit digits, written out one lower-case hex digit each. No property depends on the digits themselves.
- `Generate.Respond`: its contract covers only the OPTIONS and non-POST cases. The POST case is stated by `Generate.HandlerStatus`.
