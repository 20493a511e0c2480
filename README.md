# CONTENTdm client model

A Dafny model of `ContentDm`, the TypeScript client that cdm-bridge uses to talk to a CONTENTdm repository server. The client does three things:

- It builds URLs from a server descriptor (host name, port, TLS flag). These are the RPC endpoint `http[s]://host:port/dmwebservices/index.php?` and the file URL `http[s]://host:port/cgi-bin/showfile.exe?CISOROOT=…&CISOPTR=…`. Both are empty when no server is set.
- It makes query-string RPC calls (`q=<function>/<p1>/<p2>/…/json`) through four public wrappers, then reads and parses the JSON response.
- It downloads a file to `<location>/<filename>`. The bytes go first to `<destination>.part`, which is renamed onto the destination when the stream finishes.

The project has five modules:

- `Wrappers`: `Option`.
- `Strings`: the JavaScript string operations the code calls: `String(n)` for a port, `replace` with a one-character pattern, and `join`. It also holds `IndexOf` and `Split`, which the model's readers of URLs and queries use.
- `Protocol`: the wire formats: origin, file URL, query, alias normalisation, the `String(published)` parameter and the download paths.
  - The origin, the file URL and the query each have an idealised reader: a split of the raw string at its delimiters, with no URL decoding. A lemma proves that the reader recovers what was written.
  - The alias, the parameter and the paths have no reader; lemmas state their properties directly.
- `Outcomes`: the promises of `_request` and `download` as settle-once state machines driven by event sequences.
- `Client`: the `ContentDm` class. Its `server` field is mutable.
  - `Endpoint` and `FileUrl` are functions that read that field.
  - `Request` and `Download` are methods with loops over the incoming events. Each is proved against the matching state machine.
  - The four RPC wrappers build their parameters and delegate to `Request`.

The outside world enters as parameters:

- The HTTP response is a sequence of `Status(code)`, `Data(chunk)` and `End` events.
- The file system is the flag `destExists` (what `existsSync` answered) plus the events `Finish` (the write stream's `finish`) and `Renamed(err)` (the `rename` callback).
- `JSON.parse` is a function `parse: string -> Option<J>`; `None` means it threw.
- `Download` returns the file-system and network actions it asks for, in order: `OpenWrite(part)`, `Get(url)`, `Close(part)`, `Rename(part, destination)`.

Some of the code's behaviour is easy to misread. The model follows what the code does:

- One might expect collection aliases to lose every `/`. But `alias.replace('/', '')` uses a string pattern, so it removes only the first `/`. A second `/` in an alias survives, and the server reads it as a parameter boundary (`SecondSlashSurvives`).
- One might expect the TLS flag to make the client speak HTTPS. But it imports `get` from Node's `http` module only, and that `get` throws `ERR_INVALID_PROTOCOL` on every `https:` URL. So with a TLS server every RPC and every download is rejected at once: nothing is sent and no response is read (`TlsRequestRejects`, `TlsDownloadRejects`). The URLs are still built with `https://` (`OriginRoundTrip`).
- One might expect an existing destination to mean no network access. But `download` does not `return` after `resolve()`. It still opens the `.part` file, issues the GET and later renames over the destination, although its promise is already resolved (`ExistingDestinationResolves`).
- One might expect a failed download to leave the destination alone. But `download` never looks at the HTTP status: a 404 or 500 page is piped into the `.part` file and renamed onto the destination like any other body. The model has no status event for downloads, and `CleanDownload` holds whatever the server answered.
- One might expect an unconfigured client not to call `get`. But `_request` does not `return` after rejecting. It still calls `get` with the bare query string, which is no absolute URL, so `get` throws inside the promise executor and installs no response callback. The outcome is `NotConfigured` and no body is read (`UnconfiguredRejects`).
- `download` with no server set calls `get('')`, which throws the same way. The `.part` file has been opened by then, nothing is fetched, and the promise is rejected unless the destination already existed (`DownloadWithoutServer`).
- `_request` does not stop reading after a status other than 200. The body is still accumulated and parsed, but the promise stays rejected (`BadStatusRejects`).
- After a failed rename, the callback calls `reject(err)` and then `resolve()`. The first call wins (`RenameErrorRejects`).

## Model

| member | source | states |
|---|---|---|
| Strings.NatToString | src/lib/contentdm.ts:135 | `String(port)` is a non-empty string of decimal digits with no leading zero |
| Strings.ParseNatToString | src/lib/contentdm.ts:135 | reading the decimal rendering of a port back gives the port |
| Strings.RemoveFirst | src/lib/contentdm.ts:49 | `replace` with a one-character pattern shortens the string by one exactly when the character occurs |
| Strings.RemoveFirstSpec | src/lib/contentdm.ts:49 | a string without the character is unchanged; otherwise exactly the first occurrence is dropped and the text around it is kept |
| Strings.SplitJoin | src/lib/contentdm.ts:101 | splitting `params.join('/')` on `/` recovers a non-empty parameter list in order when no parameter holds `/` |
| Protocol.OriginRoundTrip | src/lib/contentdm.ts:134-135 | `http` + `s` iff ssl + `://` + host + `:` + port, followed by a path starting with `/`, reads back as the same descriptor and path (host without `:`) |
| Protocol.EndpointParses | src/lib/contentdm.ts:144-146 | origin + `/dmwebservices/index.php?` reads back as the descriptor it was built from |
| Protocol.FileUrlParses | src/lib/contentdm.ts:134-136 | origin + `/cgi-bin/showfile.exe?CISOROOT=` + alias + `&CISOPTR=` + pointer reads back as descriptor, alias and pointer (alias without `&`) |
| Protocol.AbsentParamsQuery | src/lib/contentdm.ts:101-102 | absent params, `[]` and `[""]` all give `q=<fnc>//json` |
| Protocol.QueryRoundTrip | src/lib/contentdm.ts:101-102 | a positional split of the raw query string gives back the function name and every parameter in order, if and only if none of them holds `/` |
| Protocol.CollectionsQuery | src/lib/contentdm.ts:41-42 | `collections` sends exactly one parameter, which the positional split gives back unchanged |
| Protocol.PublishedParamInjective | src/lib/contentdm.ts:10-13 | `String(published)` gives `"0"`, `"1"`, `"undefined"`: distinct choices give distinct parameters, both directions |
| Protocol.NormalizeAliasSpec | src/lib/contentdm.ts:49 | an alias without `/` is unchanged; otherwise it becomes the text before the first `/` joined to the text after it, one character shorter |
| Protocol.LeadingSlashIgnored | src/lib/contentdm.ts:57 | `"/" + a` and `a` normalise alike if and only if `a` holds no `/` |
| Protocol.SecondSlashSurvives | src/lib/contentdm.ts:62 | of two slashes only the first is removed; the normalised alias still contains `/` |
| Protocol.Destination | src/lib/contentdm.ts:69 | the destination is the location, then `/`, then the file name |
| Protocol.PartPath | src/lib/contentdm.ts:70 | the partial path differs from the destination and has the destination as a proper prefix ending in `.part` |
| Outcomes.SettleOnce | src/lib/contentdm.ts:94-99 | of two `resolve`/`reject` calls in a row the second changes nothing, and on a pending promise the first decides |
| Outcomes.GetAcceptance | src/lib/contentdm.ts:1 | the `get` of the `http` module takes `http://` URLs and throws on `https://` URLs (protocol error), the empty string and a bare query string (URL error) |
| Outcomes.ParseOutcome | src/lib/contentdm.ts:117-123 | a parse result always settles the promise |
| Outcomes.RequestSettledStays | src/lib/contentdm.ts:106-124 | once settled, no later response event changes the request's outcome |
| Outcomes.StalledRequestStays | src/lib/contentdm.ts:103 | when `get` installed no response callback, no event changes the request's state |
| Outcomes.UnconfiguredRejects | src/lib/contentdm.ts:95-103 | with an empty endpoint the request is rejected with NotConfigured whatever events follow, and no body is read when `get` refuses the URL |
| Outcomes.RefusedRequestRejects | src/lib/contentdm.ts:103 | a configured request whose URL `get` refuses is rejected with the error `get` threw, and no body is read |
| Outcomes.BadStatusRejects | src/lib/contentdm.ts:106-112 | for a URL `get` takes, a status other than 200 rejects with that status, even if a body that parses follows |
| Outcomes.DataAccumulates | src/lib/contentdm.ts:115 | `rawData += chunk` over the data events yields the chunks' concatenation and leaves the outcome alone |
| Outcomes.OkResponseParses | src/lib/contentdm.ts:114-124 | for a URL `get` takes, status 200, the chunks and `end` settle to the parse of the concatenated chunks (value or MalformedResponse), whatever follows |
| Outcomes.ResolvedOnlyByParse | src/lib/contentdm.ts:114-120 | a request resolves with `v` only if some `end` arrived when the `rawData` read before it parsed to `v` |
| Outcomes.DownloadSettledStays | src/lib/contentdm.ts:81-87 | once settled, a download's outcome never changes, its action log only grows, and whether callbacks are installed stays as it was |
| Outcomes.StalledDownloadStays | src/lib/contentdm.ts:77 | when `get` installed no callback, no file-system event changes the download's state |
| Outcomes.RefusedDownloadRejects | src/lib/contentdm.ts:72-77 | with a URL `get` refuses the `.part` file is opened, nothing is fetched, and the promise is rejected with the error `get` threw (resolved if the destination existed), whatever follows |
| Outcomes.ExistingDestinationResolves | src/lib/contentdm.ts:72-77 | an existing destination resolves the download whatever follows; the `.part` file is still opened, and the GET still issued exactly when `get` takes the URL |
| Outcomes.RenameErrorRejects | src/lib/contentdm.ts:81-86 | a rename error rejects with that error despite the `resolve()` after it |
| Outcomes.CleanDownload | src/lib/contentdm.ts:76-86 | a fresh download of a URL `get` takes, with a successful rename resolves after exactly: open `.part`, GET, close, rename `.part` onto the destination |
| Outcomes.OnlyRenamePublishes | src/lib/contentdm.ts:76-81 | every action is opening/closing the `.part` file, the GET, or renaming `.part` onto the destination; nothing else touches the destination |
| Outcomes.PendingUntilRenamed | src/lib/contentdm.ts:76-87 | a download to a fresh destination stays pending if and only if `get` takes the URL and the rename callback has not run |
| Client.ContentDm.constructor | src/lib/contentdm.ts:39 | the client holds the given server descriptor or none |
| Client.ContentDm.Endpoint | src/lib/contentdm.ts:139-147 | `_endpoint()` is empty if and only if no server is set |
| Client.ContentDm.FileUrl | src/lib/contentdm.ts:129-137 | `_fileUrl` is empty if and only if no server is set |
| Client.ContentDm.Request | src/lib/contentdm.ts:93-127 | `_request` GETs endpoint + query, and its promise ends as the request machine run over the response events, with `rawData` accumulated step by step; when `get` refuses the URL it returns before any event |
| Client.ContentDm.Collections | src/lib/contentdm.ts:41-46 | `collections` asks for `dmGetCollectionList` with the single parameter `String(published)` |
| Client.ContentDm.CollectionFieldInfo | src/lib/contentdm.ts:48-54 | `collectionFieldInfo` asks for `dmGetCollectionFieldInfo` with the normalised alias |
| Client.ContentDm.CompoundObject | src/lib/contentdm.ts:56-59 | `compoundObject` asks for `dmGetCompoundObjectInfo` with the normalised alias and the pointer |
| Client.ContentDm.Item | src/lib/contentdm.ts:61-64 | `item` asks for `dmGetItemInfo` with the normalised alias and the pointer |
| Client.ContentDm.Download | src/lib/contentdm.ts:66-91 | `download` derives destination and `.part` path, and its actions and promise are the download machine run over the file-system events; when `get` refuses the URL it stops after opening the `.part` file |
| Client.EndpointRoundTrip | src/lib/contentdm.ts:139-147 | a configured client's endpoint reads back as its server descriptor |
| Client.FileUrlRoundTrip | src/lib/contentdm.ts:129-137 | a configured client's file URL reads back as its server, the alias and the pointer |
| Client.PlainServerAccepted | src/lib/contentdm.ts:1 | `get` takes the endpoint and file URLs of a configured server without TLS |
| Client.UnconfiguredRequestRejects | src/lib/contentdm.ts:95-103 | an RPC of a client with no server is rejected with NotConfigured and reads no response |
| Client.TlsRequestRejects | src/lib/contentdm.ts:93-103 | every RPC to a TLS server is rejected with the protocol error of `http.get`, and reads no response |
| Client.DownloadWithoutServer | src/lib/contentdm.ts:66-77 | a client with no server opens the `.part` file, fetches nothing, and rejects unless the destination existed |
| Client.TlsDownloadRejects | src/lib/contentdm.ts:66-77 | a download from a TLS server opens the `.part` file, fetches nothing, and rejects with the protocol error unless the destination existed |
| Client.ExampleCollectionsUrl | src/lib/contentdm.ts:41-42 | against `cdm.example.org:81` without TLS, `collections(Published)` requests `http://cdm.example.org:81/dmwebservices/index.php?q=dmGetCollectionList/0/json` |
| Client.ExampleFileUrl | src/lib/contentdm.ts:129-137 | against the same server, `_fileUrl("demo", "12")` is `http://cdm.example.org:81/cgi-bin/showfile.exe?CISOROOT=demo&CISOPTR=12` |
| Client.LeadingSlashSameRequest | src/lib/contentdm.ts:61-63 | `item("/" + a, p)` and `item(a, p)` request the same URL if and only if `a` holds no `/` |

## Left out

- Network and file I/O (`http.get`, `createWriteStream`, `pipe`, `existsSync`, `fs.rename`, `output.close`): their answers are parameters or events, and `Download` returns the actions it asks for instead of performing them.
- The bytes piped into the `.part` file: the model only records that the GET is piped into the open stream. What ends up in the destination is therefore not modelled.
- `JSON.parse` internals: the parser is an arbitrary function parameter.
- Transport and stream errors: the source attaches no `error` listener to the request, the response or the write stream. A connection failure, or a `.part` file that cannot be created (for example in a missing `location` directory), therefore throws as an uncaught "Unhandled 'error' event" exception. This typically ends the process, and the promise never settles. The model has no such events.
- `get` throwing on a configured plain server's URL, for example a host name with characters that are not allowed in a URL: the model takes every `http://` URL as accepted. It refuses only the empty URL, the bare query string and `https://` URLs. Any other synchronous throw is not modelled either.
- Chunk decoding: the response gets no `setEncoding`, so each `data` chunk is a Buffer that `rawData += chunk` decodes on its own as UTF-8. `Data(chunk)` stands for the decoded chunk. A multi-byte character split across two chunks becomes U+FFFD in the source; that is not modelled.
- URL encoding of RPC parameters: the client encodes nothing. A parameter holding `&`, `#`, `+` or `%` is cut off, dropped or decoded by the server, while the model's reader of the query treats them as ordinary characters. Protocol.QueryRoundTrip therefore states the round trip of the raw string only.
- `console.error` logging, and the message texts of the errors: an error kind stands for each.
- The `as ReadonlyArray<…>` casts in `collections` and `collectionFieldInfo`: they do nothing at run time, so the wrappers return the request's outcome unchanged.
- Concurrency: two downloads of the same file racing on one `.part` path, the check-then-write gap, and event-loop scheduling. Events are one sequence per call.
- Replacing `server` while a call is in flight: each method reads the field once, at the start of the call.
- The port as a JavaScript number: the model uses a `nat`. Fractional or negative ports, and their `String` forms, are not modelled.
- Protocol.OriginRoundTrip: holds only for host names without `:` (such as an unbracketed IPv6 address). The client puts such a name into the URL unchanged, and the model's reader of the origin then cannot tell where the host ends.
- Client.FileUrlRoundTrip: holds only for aliases without `&`, because the client does not URL-encode the alias or the pointer.
- src/ui/preferences/fields.tsx and src/ui/form/checkbox.tsx: React presentation components with no logic beyond rendering and callback forwarding.
