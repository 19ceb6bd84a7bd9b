# translation-server-mcp, modelled in Dafny

translation-server-mcp is an MCP server. It offers an agent six tools. Five of
them forward to a Zotero translation server: translate a web page, complete a
multiple-choice web translation, translate an identifier, import raw
bibliographic text, export items. The sixth saves items into Zotero through
one of three backends: the desktop connector endpoint, the local web API, or
the Zotero web API.

This project models the deterministic rules inside that plumbing:

- which request each tool sends, and which inputs stop a call before any request;
- how a response becomes a result or an error (status 400 or more fails;
  for `translate_web`, 300 means "multiple choices");
- the connector's save payload and headers;
- the local API's collection tagging (`applyCollection`), library path and API-key guard;
- the server's tool dispatch and Zotero target dispatch;
- the test client's argument lookup and RIS fixture.

Files, one module each:

- `prelude.dfy` (`Prelude`): Option, `join`, one-character `split`, `indexOf`,
  ASCII lower-casing and decimal rendering, with the lemmas relating them.
- `json.dfy` (`Json`): JavaScript values (`Value`), truthiness, property
  reads, `||`, `String(v)`, `Object.assign({}, v)`, and `Rendered` for text
  that is either a string or an uninterpreted `JSON.stringify`.
- `http.dfy` (`Http`): requests, responses, errors, the shared status rule
  and save reply, and `Transport`. `Transport` is a class whose `sent` field
  records every request in order. A request's reply comes from a function
  fixed when the transport is built, so the network is a parameter.
- `translation_client.dfy` (`TranslationClient`): `mcp/translationClient.js`.
- `zotero_connector.dfy` (`ZoteroConnector`): `mcp/connectors/zoteroConnector.js`.
- `zotero_local.dfy` (`ZoteroLocal`): `mcp/connectors/zoteroLocal.js`.
- `server.dfy` (`Server`): `toText`, `handleSaveToZotero` and the call-tool handler of `mcp/server.js`.
- `test_client.dfy` (`TestClient`): `getArgValue`, `hasFlag` and `buildRis` of `mcp/testClient.js`.

Every operation that performs I/O is a method that `modifies` the transport.
Its contract gives the exact requests appended to `sent` (none when a guard
fails) and the result as a function of the transport's reply.
For each of these methods except `Server.CallTool`, that contract is a single predicate whose name ends in `Run`:
`TranslationClient.WebRun`, `WebSelectRun`, `SearchRun`, `ImportRun` and `ExportRun`, `ZoteroConnector.SaveRun`, `ZoteroLocal.SaveRun`, and `Server.SaveToZoteroRun`.
The predicate relates the requests sent before the call, the requests sent after it, the network's answers and the result.
`Server.CallTool` states two things. An unknown tool is refused. For a known tool, `Server.CallRun` holds: tool by tool, it applies the handler's predicate to the arguments the `switch` passes. Pure decisions
are functions, and lemmas state their properties. Items are values, not
shared objects. So "the input items and their `collections` arrays are not
mutated" holds by construction: nothing in the model can change a value.

Environment-derived settings are explicit configuration: base URLs, the
connector API version, the default client version and the local API key.
The defaults used when the environment sets nothing are recorded as constants, not wired into any operation:
- `TranslationClient.DefaultTranslationUrl`: the translation server;
- `ZoteroConnector.DefaultConfig`: the connector;
- `ZoteroLocal.DefaultBaseUrl`: the local API base URL.

## Model

| member | source | states |
|---|---|---|
| `Prelude.IndexOf` | mcp/testClient.js:7 | `indexOf`: -1 exactly when the element is absent; otherwise the index holds it and no earlier index does |
| `Prelude.SplitJoin` | mcp/testClient.js:26 | joining newline-free lines with "\n" and splitting on "\n" gives the lines back |
| `Prelude.IntToStringInjective` | mcp/translationClient.js:33 | distinct status numbers render as distinct text |
| `Http.HeadlineDeterminesStatus` | mcp/translationClient.js:33 | the "`<operation>` failed (`<status>`): " headline determines the status it reports |
| `Http.RejectionHeadline` | mcp/translationClient.js:33 | the error headline starts with the operation, followed by " failed (" |
| `Http.Message` | mcp/translationClient.js:29-35 | a thrown error reads as its message; a rejection reads as "`<operation>` failed (`<status>`): " followed by its detail text |
| `Http.MessageDeterminesStatus` | mcp/translationClient.js:33 | two rejections of one operation whose full messages are equal report the same status, whatever their details |
| `Json.Detail` | mcp/translationClient.js:32 | a string body is the detail verbatim; any other body is its compact `JSON.stringify` (the same rule at mcp/connectors/zoteroConnector.js:54 and mcp/connectors/zoteroLocal.js:52) |
| `Json.ShallowCopy` | mcp/connectors/zoteroLocal.js:17 | `Object.assign({}, item)` of an object is its own properties; of an array, its index properties; of null, undefined, a boolean or a number, no properties |
| `Json.IndexPropsHoldElements` | mcp/connectors/zoteroLocal.js:17 | the copy of an array (or string) has, for every index written in decimal, a key holding that element |
| `Json.IndexPropsOnlyIndices` | mcp/connectors/zoteroLocal.js:17 | the copy of an array (or string) has no key other than its indices written in decimal |
| `Http.Wrap` | mcp/connectors/zoteroConnector.js:37 | a list of items is kept as is; any other value becomes a one-element list |
| `Http.SaveReply` | mcp/connectors/zoteroConnector.js:53-60 | an error exactly when the status is 400 or more, carrying status and body; otherwise exactly `{statusCode, response}` |
| `TranslationClient.HttpPatternIsSchemePrefix` | mcp/translationClient.js:9 | the regular expression `/^https?:\/\//i` matches exactly the strings whose lower-cased form starts with "http://" or "https://" |
| `TranslationClient.ToUrl` | mcp/translationClient.js:8-13 | a string with an http or https scheme, in any letter case, is used unchanged; anything else is resolved against the base URL |
| `TranslationClient.UpperCaseSchemeIsAbsolute` | mcp/translationClient.js:9 | "HTTPS://..." is absolute; "/web" and "ftp://..." are resolved against the base |
| `TranslationClient.ParseJsonMaybe` | mcp/translationClient.js:15-27 | null, undefined and every non-string value are returned unchanged; a string is replaced by its parse, or kept when it is not JSON |
| `TranslationClient.EnsureOk` | mcp/translationClient.js:29-35 | an error if and only if the status is 400 or more; the error carries the operation, the status and the parsed body |
| `TranslationClient.Checked` | mcp/translationClient.js:76-80 | fails exactly on a failure status, and then with exactly the error `ensureOk` builds (operation, status, detail of the parsed body); otherwise the tool's success value |
| `TranslationClient.TextRequest` | mcp/translationClient.js:37-47 | `postText`: the target and body as given; the headers are the caller's headers plus `Content-Type`, which is "text/plain" unless the caller sets it |
| `TranslationClient.JsonRequest` | mcp/translationClient.js:49-60 | `postJson`: the payload sent as JSON text; the headers are the caller's headers plus `Content-Type`, which is "application/json" unless the caller sets it |
| `TranslationClient.WebOutcome` | mcp/translationClient.js:67-80 | status 300 is always a `multiple_choices` result with exactly the keys status, url, session and items, read before the status check: its `url` is the body's url when truthy, else the requested URL, and its session and items come from the body; any other status fails exactly when 400 or more, else `{status: "ok", items: parsed body}` |
| `TranslationClient.TranslateWeb` | mcp/translationClient.js:62-81 | a falsy URL fails before any request; otherwise exactly one plain-text POST of the URL to `/web`, and the result is `WebOutcome` of the reply |
| `TranslationClient.TranslateWebSelect` | mcp/translationClient.js:83-100 | fails before any request unless options, session and items are all truthy; otherwise one JSON POST to `/web` whose payload holds session and items, plus url only when truthy |
| `TranslationClient.TranslateSearch` | mcp/translationClient.js:102-112 | a falsy identifier fails before any request; otherwise one plain-text POST to `/search`, and the status rule applies to the reply |
| `TranslationClient.TranslateImport` | mcp/translationClient.js:114-125 | fails before any request unless `data` is a string, the empty string included; the content type is `mimeType` when truthy, else "text/plain" |
| `TranslationClient.ExportItems` | mcp/translationClient.js:127-140 | a falsy format fails before any request; otherwise one POST to `/export?format=...` whose body is the JSON of the items, or of `[]` when items are falsy |
| `ZoteroConnector.BuildPayload` | mcp/connectors/zoteroConnector.js:14-34 | `items` is always present; sessionID, uri, cookie, detailedCookies and proxy each appear exactly when truthy, copied verbatim; no other key (so never clientVersion); with no options only `items` |
| `ZoteroConnector.ClientVersion` | mcp/connectors/zoteroConnector.js:46 | the `X-Zotero-Version` header is `clientVersion` when truthy, otherwise the default client version |
| `ZoteroConnector.Headers` | mcp/connectors/zoteroConnector.js:43-47 | exactly three headers: a JSON content type, the configured connector API version, and `ClientVersion` as `X-Zotero-Version` |
| `ZoteroConnector.Save` | mcp/connectors/zoteroConnector.js:36-61 | exactly one request, to `/connector/saveItems`, with the wrapped items in the payload and the connector headers; the result is `SaveReply` of the reply |
| `ZoteroLocal.Collections` | mcp/connectors/zoteroLocal.js:18 | an item's `collections` when it is an array, otherwise the empty list |
| `ZoteroLocal.Tag` | mcp/connectors/zoteroLocal.js:16-24 | the copy's `collections` contains the key; it is unchanged when the key was there, and is the old list with the key appended otherwise; a missing or non-array `collections` gives exactly `[key]`; every other copied property is kept |
| `ZoteroLocal.ApplyCollection` | mcp/connectors/zoteroLocal.js:12-25 | a falsy key returns the input list itself; otherwise it fails exactly when some item is null or undefined, naming the first such item; on success the output has the input's length and item i is the tagged copy of input item i |
| `ZoteroLocal.TagIdempotent` | mcp/connectors/zoteroLocal.js:18-22 | tagging an already tagged item changes nothing |
| `ZoteroLocal.FixedPoint` | mcp/connectors/zoteroLocal.js:12-25 | a list whose items tagging leaves alone comes back unchanged |
| `ZoteroLocal.ApplyCollectionIdempotent` | mcp/connectors/zoteroLocal.js:12-25 | applying the same collection twice equals applying it once |
| `ZoteroLocal.TagKeepsNoDuplicates` | mcp/connectors/zoteroLocal.js:19-21 | a `collections` list without duplicates stays without duplicates |
| `ZoteroLocal.ApplyCollectionTagsEveryItem` | mcp/connectors/zoteroLocal.js:16-23 | every output item lists the key, keeps its old collections as a prefix, and gains no duplicate |
| `ZoteroLocal.PathSegment` | mcp/connectors/zoteroLocal.js:32-33 | a library type or id is its fallback ("users", "0") when the option is falsy; otherwise the option as a template literal renders it: a string as itself, a number in decimal |
| `ZoteroLocal.NumericLibraryIdPath` | mcp/connectors/zoteroLocal.js:33-39 | a numeric library id 42 gives the path "/users/42/items" |
| `ZoteroLocal.ItemsPath` | mcp/connectors/zoteroLocal.js:39 | the path is "/" + library type + "/" + library id + "/items" |
| `ZoteroLocal.DefaultItemsPath` | mcp/connectors/zoteroLocal.js:32-39 | with no options, or options naming neither field, the path is "/users/0/items" |
| `ZoteroLocal.ItemsPathSegments` | mcp/connectors/zoteroLocal.js:39 | the path splits into "", library type, library id and "items" |
| `ZoteroLocal.Headers` | mcp/connectors/zoteroLocal.js:41-45 | exactly three headers: the API key, API version "3" and a JSON content type |
| `ZoteroLocal.Save` | mcp/connectors/zoteroLocal.js:27-59 | no API key: error and no request; a tagging error: that error and no request; otherwise exactly one request to `/{libraryType}/{libraryId}/items` with the tagged list and the API-key headers; the result is `SaveReply` of the reply |
| `Server.ToText` | mcp/server.js:114-119 | a string result is the text unchanged; any other result is its JSON with two-space indentation |
| `Server.ForwardedOptions` | mcp/server.js:126-136 | the backend options hold exactly the nine listed fields, each read from the arguments, so never `target` or `items` |
| `Server.SelectBackend` | mcp/server.js:137-146 | "connector", "local" and "web" each select their own backend, and no other target value selects any |
| `Server.SaveTarget` | mcp/server.js:125 | a truthy `target` is used as given; without one the connector is selected |
| `Server.HandleSaveToZotero` | mcp/server.js:121-147 | missing items fail before any backend; an unknown target fails with "Unknown Zotero target" and no request; otherwise exactly the selected backend runs, with the forwarded options, and its whole contract (requests and result) holds for the call |
| `Server.Route` | mcp/server.js:156-187 | a name reaches a handler exactly when it is one of the six tool names, and then the handler of that name |
| `Server.Answer` | mcp/server.js:189-191 | a handler's error is passed on unchanged; a result becomes exactly one text element holding `toText` of it |
| `Server.CallTool` | mcp/server.js:151-192 | an unknown tool fails with "Unknown tool" before any request; a known tool runs the handler of that name on exactly the arguments the `switch` picks out (missing arguments read as `{}`), with that handler's requests, guard errors and result, and the reply is `Answer` of its outcome |
| `TestClient.GetArgValue` | mcp/testClient.js:6-12 | null when the flag is absent or is the last argument; otherwise the argument right after the flag's first occurrence |
| `TestClient.HasFlag` | mcp/testClient.js:14-16 | true exactly when the flag is one of the arguments |
| `TestClient.GetArgValueImpliesFlag` | mcp/testClient.js:6-16 | when `getArgValue` returns a value, both the flag and that value are among the arguments |
| `TestClient.BuildRis` | mcp/testClient.js:18-27 | for any title, the text starts with "TY  - JOUR\nTI  - " and the title, and ends with "\nER  -" |
| `TestClient.RisReadsBackAsSixLines` | mcp/testClient.js:18-27 | a one-line title gives exactly six lines: the type line first, "TI  - " and the title second, "ER  -" last |

## Left out

- `mcp/cli.js`: process spawning, port polling, retries, timers and signal handling. These are I/O and timing.
- The MCP SDK server, client and stdio transports, the `tools` schema list and `main` in `mcp/server.js` and `mcp/testClient.js`. These are library calls and static data.
- `mcp/connectors/zoteroWeb.js` is not part of this model. `Server.HandleSaveToZotero` takes its `save` as a function parameter (`WebSave`) and assumes it sends nothing through the modelled transport.
- The HTTP library itself. `Transport.Post` records the request, and a function given when the transport is built supplies the reply or the rejection (network error, timeout). Timeouts are not modelled.
- `JSON.parse` is a parameter (`Parser`). `JSON.stringify` (`Rendered.Stringify`) and WHATWG URL resolution (`Url.Resolved`, `Url.WithParam`) are kept as uninterpreted data. So the exact text of stringified error details and the exact URL strings are not computed.
- `ExportItems` builds its target directly as the export URL with its `format` parameter. The source passes that URL's serialisation through `toUrl`. That string always carries a scheme, so `toUrl` gives back the same URL either way.
- Reading `process.env` and `parseInt` of environment variables. Their values arrive as configuration fields.
- JavaScript numbers are modelled as integers: no fractions, NaN, infinities, or exponent notation in `String(n)`.
- Property reads see an object's own properties only, never inherited ones. The property names the core reads are never prototype members.
- `ZoteroLocal.Tag`: `includes` compares object-valued collection keys by reference in JavaScript. The model compares all values structurally, so the two agree only for primitive keys such as collection-key strings.
- `Json.ShallowCopy` of a string item copies one property per Dafny character. JavaScript copies one per UTF-16 code unit. Both agree for text inside the Basic Multilingual Plane.
- Errors are kept structured (`Http.Error`). `Http.Message` renders them as text, given `JSON.stringify` as a parameter (`Stringifier`). The wording of the TypeError for reading a property of null or undefined follows V8 and comes from the JavaScript engine, not from this repository.
- Aliasing: when `applyCollection` returns its input list, JavaScript returns the same array object. The model returns an equal value.
