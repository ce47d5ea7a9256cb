# local-proxy-server, modelled in Dafny

local-proxy-server is a small Koa development server. Every request goes
through a fixed chain of middleware stages:

1. **Local rules.** The first rule whose pattern matches the request path
   names candidate files. The first candidate that exists is served. If
   none exists, the request goes on, and later rules are never tried.
2. **Cache lookup.** This stage runs only when both a proxy table and a
   cache are configured. When some proxy prefix starts the path, the lookup
   resolver names candidate files, and the first existing one is served.
3. **Proxy middlewares.** There is one per prefix of the flattened proxy
   table. The first prefix that starts the path forwards the request
   upstream. With a cache configured, the upstream answer goes through an
   interceptor, which first writes the body to the file the record resolver
   names.
4. **History-mode fallback.** A configured path, or its `index.html` when
   the path has no extension, is always served. What `sendFile` throws is
   passed on to Koa.

A request that no stage takes is left to Koa's default 404.

The project models this chain together with `sendFile`, `flatProxy` and
the example configuration's resolvers. It also follows one request
through the example configuration: the first time it is recorded, the
second time it is replayed.

- **The disk** is a map from path to what `fs.stat` reports: a file with
  bytes and mtime, a directory, or an error code. A missing path reports
  ENOENT.
- **The upstream server** is a function from proxy options and request to
  status and bytes.
- **Rule patterns** are given predicates on the path.
- **The Koa context** (`Http.Context`) is a class whose status, headers,
  type and body the stages update in place. Each stage method is proved
  against a pure function of the response before the request
  (`Static.Served`, `Static.Caught`, `ProxyService.Answered`). The whole
  chain, `Server.Handle`, is proved against the pure function
  `Server.Chain`.

Modules follow the program:

| module | contents |
|---|---|
| `Basics` | `find`, `some` and `indexOf` |
| `JsNumbers` | truncation by bitwise or with 0, ToInt32 and number printing |
| `Paths` | Node's POSIX `path.join`, `normalize`, `basename` and `extname` |
| `Disk` | the file system map |
| `Http` | request, response values and the context class |
| `Static` | `sendFile` |
| `ProxyConfig` | the `proxy` setting and `flatProxy` |
| `Config` | the settings and the resolver results |
| `LocalRules` | `proxyLocal` |
| `ProxyService` | `proxyService`: lookup, middlewares, interceptor |
| `Server` | installing the chain and running one request through it |
| `ExampleConf` | `example/conf.js` |
| `ExampleRun` | the example configuration installed, and one request recorded then replayed |

## Model

| member | source | states |
|---|---|---|
| ProxyConfig.Assign | lib/server.js:78 | `proxy[ctx] = proxyConf`: the value is replaced; a new key goes last, an existing key keeps its place; a well-formed object stays well-formed |
| ProxyConfig.AssignAll | lib/server.js:77-79 | the inner loop keeps every existing key in its place, and every key afterwards comes from the object or the contexts |
| ProxyConfig.FlattenList | lib/server.js:75-80 | every key of the flattened list is a context that some entry lists |
| ProxyConfig.Flattened | lib/server.js:72-83 | an object comes back untouched; a list yields only its contexts as keys |
| ProxyConfig.FlatProxy | lib/server.js:72-83 | the two nested loops compute exactly the flattened table; an object passed in is returned unchanged |
| ProxyConfig.FlattenedValid | lib/server.js:72-83 | the result of `flatProxy` is a well-formed object (each key once, the listed keys are the mapped ones) |
| ProxyConfig.FlattenListValid | lib/server.js:75-80 | flattening any list yields a well-formed object |
| ProxyConfig.AssignAllValid | lib/server.js:77-79 | the inner loop keeps the object well-formed |
| ProxyConfig.AssignAllValues | lib/server.js:77-79 | after the inner loop a key is mapped iff it was before or is one of the contexts; contexts map to the entry's options, and other keys keep their values |
| ProxyConfig.FlattenedKeys | lib/server.js:75-80 | a prefix is a key of the flattened table iff some entry lists it |
| ProxyConfig.FlattenedLastWins | lib/server.js:76-79 | a prefix maps to the options of the last entry that lists it |
| ProxyConfig.AddNewAppend | lib/server.js:76-79 | adding first occurrences piecewise equals adding them all at once |
| ProxyConfig.AssignAllKeys | lib/server.js:77-79 | the inner loop appends each context not yet a key, in order |
| ProxyConfig.FlattenedKeyOrder | lib/server.js:75-80 | `Object.keys` of the result lists every prefix once, at its first occurrence across all entries |
| Basics.FindIndex | lib/server.js:97 | `find`: the index found satisfies the test, no earlier one does, and none is found iff no element satisfies it |
| Basics.FindIndexAppend | lib/server.js:146 | elements after the first match never change what `find` returns |
| Basics.FindIndexFirst | lib/server.js:150 | the first element that passes the test is the one found |
| Basics.Any | lib/server.js:90 | `some` holds iff some element passes the test |
| Basics.IndexFrom | lib/server.js:90 | `indexOf(k, from)` returns a position at or after `from` where `k` occurs, and no earlier such position exists; otherwise it returns -1 |
| Basics.IndexOfZeroIsPrefix | lib/server.js:90 | `path.indexOf(context) === 0` holds exactly when `context` is a prefix of `path` |
| Config.CandidateList | lib/server.js:96 | a string becomes a list of one, a falsy result the empty list, and a list stays as it is |
| Config.Locate | lib/server.js:96-97 | the chosen path is an existing candidate with no existing candidate before it; there is none iff no candidate exists; a falsy result chooses nothing |
| Config.LocateFirst | lib/server.js:149-150 | an existing candidate with no existing candidate before it is the one chosen |
| Config.LookupResolver | lib/server.js:87 | a single cache function is the lookup resolver; the object form gives its `matchCacheFilepath` |
| Config.RecordResolver | lib/server.js:124 | a single cache function also records, so one function serves both stages; the object form gives its `cacheFilepath` |
| Disk.Stat | lib/server.js:208 | `fs.stat` reports what the disk holds at the path, and ENOENT for an empty or missing path |
| Disk.Exists | lib/server.js:97 | `pathExistsSync` holds iff the disk holds an entry, not an error, at a non-empty path |
| Disk.Writable | lib/server.js:131-132 | a write can go to a non-empty path that is absent, reports ENOENT, or is a regular file |
| Disk.Write | lib/server.js:132 | afterwards the path holds the bytes with the write time, and every other path reports what it did before |
| Paths.Normalize | example/conf.js:3 | the result is never empty, and a leading or trailing separator survives |
| Paths.Join | example/conf.js:3 | the result is never empty, and it is absolute when the first argument is |
| Paths.JoinPlain | example/conf.js:3 | joining plain pieces below an absolute directory gives the absolute path of all the pieces |
| Paths.NormalizeWithin | example/conf.js:24 | a path without a `..` piece, normalized below a directory, stays inside it |
| Paths.Extname | lib/server.js:239 | the extension is empty or starts with its only '.', holds no '/', and is a proper tail of the base name |
| Paths.ExtnameOfName | lib/server.js:239 | the extension of `dir/stem.ext` is `.ext` |
| Paths.BasenameOfName | lib/server.js:239 | the base name of `dir/name` is `name` |
| Http.Context.Set | lib/server.js:230 | `ctx.set` replaces one header and keeps the others |
| Http.Context.SetStatus | lib/server.js:102 | `ctx.status = code` sets the status and marks it explicit |
| Http.Context.SetType | lib/server.js:239 | `ctx.type = t` sets the type |
| Http.Context.SetBody | lib/server.js:240 | `ctx.body = b` sets the body; the status becomes 200 unless it was set explicitly, and counts as explicit afterwards |
| LocalRules.MatchedRule | lib/server.js:146 | the rule chosen is a matching one with no match before it; none is chosen iff no rule matches |
| LocalRules.LocalTarget | lib/server.js:146-151 | no rule matching gives nothing; otherwise the result is the first existing candidate of the first matching rule, and it exists |
| LocalRules.LaterRulesIgnored | lib/server.js:146-151 | once some rule matches, appending further rules changes nothing |
| LocalRules.MissPassesThrough | lib/server.js:148-151 | a first matching rule with no existing candidate passes the request on, even if a later rule would match |
| LocalRules.LocalStage | lib/server.js:144-162 | it passes iff no file was chosen, and a passing stage leaves the context unchanged; otherwise the response is what `sendFile` with its catch (lines 153-159) makes of the chosen file |
| Static.StatError | lib/server.js:221-228 | ENOENT, ENAMETOOLONG and ENOTDIR give 404 and every other error 500; the error code is kept |
| Static.Resolve | lib/server.js:207-228 | a stat failure throws the mapped error; a file is served; a directory with an index is served through `filepath/index`, which is stat'ed again; a directory without an index throws 500 |
| Static.ExistingIsServedOrSwallowed | lib/server.js:99-105 | `sendFile` serves a candidate that exists when it is a file; a directory throws 500 and the catch leaves the response unchanged |
| Static.CacheControl | lib/server.js:233-237 | the value starts with `max-age=`, and ends in `,immutable` exactly when `immutable` is set |
| Static.CacheControlSeconds | lib/server.js:233 | for a `maxAge` below 2^31 seconds the value carries `maxAge / 1000` in decimal, and reading it back gives that number |
| Static.DefaultCacheControl | lib/server.js:233 | the default options give `max-age=0` |
| Static.FileHeaders | lib/server.js:230-238 | Content-Length is the size; Last-Modified and Cache-Control are added only where no truthy header is present; other headers are kept |
| Static.SetFileHeaders | lib/server.js:230-238 | the `ctx.set` calls leave exactly `FileHeaders` of the old headers |
| Static.DefaultType | lib/server.js:239 | the type becomes the extension only when none is set |
| Static.SetFileResponse | lib/server.js:230-240 | the context ends up holding `Served` of its old response |
| Static.Served | lib/server.js:230-240 | a served file leaves a read stream of its path as body, status 200 unless set explicitly before, Content-Length its size, every earlier header present, and a type already set kept |
| Static.Caught | lib/server.js:99-105 | a served file gives a read stream of it; an error keeps headers (Content-Length included) and type; ENOENT with status 404 gives 404 "Not Found"; any other error leaves the response as it was |
| Static.SendFile | lib/server.js:204-241 | the method follows `Resolve`; a throw leaves the context unchanged, and a success leaves `Served` of the old response |
| Static.SendCaught | lib/server.js:99-105 | `sendFile(...).catch(...)` leaves `Caught`: the file is served, or 404 "Not Found" for ENOENT with status 404, or any other error is swallowed |
| ProxyService.MatchesContext | lib/server.js:90 | the lookup stage acts exactly when some proxy key is a prefix of the path |
| ProxyService.CacheHit | lib/server.js:90-98 | nothing is served when no key matches; otherwise it serves what the lookup resolver names for stage 'hit', and only an existing path |
| ProxyService.CacheLookupStage | lib/server.js:88-108 | the resolver is called iff a key matches; it passes, with the context unchanged, iff nothing was found; otherwise the response is `Caught` of the found file |
| ProxyService.OptionsOf | lib/server.js:112-117 | a bare URL becomes `{ target }`, and an options object stays as it is |
| ProxyService.Middlewares | lib/server.js:111-139 | one middleware per key, in key order, each with its key's options, self-handling exactly when a cache is configured |
| ProxyService.ProxyFor | lib/server.js:138 | the middleware taking the path is a prefix match with no prefix match before it; none takes it iff no prefix matches |
| ProxyService.LookupOnlyWhereProxied | lib/server.js:90 | the lookup stage acts exactly on the paths some proxy middleware takes |
| ProxyService.Intercept | lib/server.js:127-135 | it writes iff the record resolver names one non-empty writable path; falsy or empty results are skipped; the file then holds the upstream bytes and nothing else on the disk changes; a list or an unwritable path fails; the buffer is returned unchanged |
| ProxyService.Answered | lib/server.js:127-138 | the client gets the upstream status, marked explicit, and its bytes; headers and type stay as they were |
| ProxyService.ProxyStage | lib/server.js:111-139 | it forwards iff some prefix matches; the answer is the upstream's status and bytes, through the interceptor when self-handling; a failed write stalls with the context unchanged; with no match the context and disk stay as they were |
| Server.FallbackIndex | lib/server.js:44 | the index is `index.html` exactly when the fallback path has no extension, and otherwise empty |
| Server.FallbackOutcome | lib/server.js:45-47 | the fallback always handles the request (it never passes on): a file is served or an error is raised |
| Server.FallbackStage | lib/server.js:45-47 | the method yields exactly `FallbackOutcome` of the old response |
| Server.FallbackDirectory | lib/server.js:213-216 | a fallback directory without extension is served through `index.html`; a missing index raises 404 with code ENOENT |
| Server.FallbackDirectoryWithExtension | lib/server.js:213-219 | a fallback directory with an extension has no index, so `sendFile` raises 500 |
| Server.Installed | lib/server.js:30-48 | the chain as a value: keys and middlewares line up, the fallback is installed iff it is set, and the proxy keys are those of `flatProxy` |
| Server.Setup | lib/server.js:30-48 | the chain installed is `Installed`: the rules as given, the fallback iff the path is non-empty, the proxy keys from `flatProxy`, each middleware with its key's options and self-handling iff a cache is set |
| Server.ProxyRoute | lib/server.js:88-139 | in the proxy part a cache hit is replayed iff a cache is set and the lookup finds a file; the upstream takes the request iff there is no hit and some middleware's prefix matches; otherwise nothing takes it |
| Server.Route | lib/server.js:30-48 | each stage takes the request iff it is installed, takes it, and every earlier stage passed: local file, then cache replay, then upstream, then fallback; no stage iff all pass and no fallback is set |
| Server.Proxied | lib/server.js:127-138 | the upstream always takes the request; the client is answered, or a failed cache write ends the request with the response as it was |
| Server.ProxyOutcome | lib/server.js:86-139 | its stage is `ProxyRoute`; only forwarding changes the disk; it passes on iff nothing takes the request, with the response unchanged |
| Server.Chain | lib/server.js:30-48 | the stage is `Route` (stages in order, the first one that takes the request wins); only the upstream stage writes the disk; a request no stage takes is unchanged |
| Server.ProxyPart | lib/server.js:86-139 | the method yields exactly `ProxyOutcome`; the context is unchanged when no proxy stage takes the request |
| Server.Handle | lib/server.js:30-48 | one request through the installed chain yields exactly `Chain` of the old response and disk |
| Server.CacheHitSkipsUpstream | lib/server.js:88-107 | with no local file, a cache hit is answered from the file found; the upstream is not asked and the disk is not written |
| Server.ReplayOnlyOnProxiedPaths | lib/server.js:90 | a cache replay happens only on a path a proxy middleware would forward |
| Server.RecordedIsReplayed | lib/server.js:95-133 | after a recorded upstream answer, a later request for the same path whose lookup names the recorded file first is replayed from it, and the file holds the recorded bytes |
| Server.UpstreamRecords | lib/server.js:123-138 | with a cache, a forwarded request leaves the interceptor's disk; it stalls iff the write fails, and is otherwise answered with the upstream status and bytes |
| Server.ReplayServesRecording | lib/server.js:230-240 | the replayed answer is a read stream over the recorded file, and its Content-Length is the number of recorded bytes |
| Server.RecordThenReplay | lib/server.js:88-138 | of two requests to the same path, the first is forwarded and answered with the upstream status and bytes; the second, on the disk the first left, is replayed from the recorded file as `sendFile` serves it |
| ExampleConf.SlashesToUnderscores | example/conf.js:15 | the replacement leaves no '/' |
| ExampleConf.FileName | example/conf.js:47 | the name starts with `method__` and ends with `.json` |
| ExampleConf.FileNamePlain | example/conf.js:47 | when the method has no '/', the name is one plain path piece |
| ExampleConf.SlashesConcat | example/conf.js:15 | the replacement works piece by piece |
| ExampleConf.FileNameCollision | example/conf.js:52 | `/x/y` and `/x__y` share a cache file while being different paths |
| ExampleConf.ApplicationPath | example/conf.js:2-4 | `applicationPath` always gives an absolute path |
| ExampleConf.ApiFile | example/conf.js:14-17 | the first rule always names one absolute path |
| ExampleConf.WebFile | example/conf.js:22-26 | the second rule always names one absolute path, and `web/index.html` for a path without extension |
| ExampleConf.HistoryApiFallback | example/conf.js:30 | the fallback is a non-empty absolute path, so the fallback stage is installed |
| ExampleConf.MatchCacheFilepath | example/conf.js:46-49 | the lookup names two absolute candidates, the second being the file a response is recorded in |
| ExampleConf.CacheFilepath | example/conf.js:50-54 | the write resolver names one non-empty absolute path, so the interceptor never skips the write |
| ExampleConf.ExampleSettings | example/conf.js:5-56 | two local rules, the proxy object, which is well-formed, a fallback, and both cache resolvers |
| ExampleConf.ApplicationPathPlain | example/conf.js:2-4 | `applicationPath` of plain pieces is the absolute path below `application-demo` |
| ExampleConf.ProxyTableValid | example/conf.js:32-43 | the example proxy table is a well-formed object |
| ExampleConf.ApiFileLayout | example/conf.js:14-17 | the first rule names `application-demo/api/<name>` below the configuration's directory |
| ExampleConf.LookupCandidates | example/conf.js:46-49 | exactly two candidates, `data/<name>` before `.cache/<name>`, and they differ |
| ExampleConf.RecordedWhereLookedUp | example/conf.js:48-53 | the file written is the second lookup candidate for every request with the same method and path |
| ExampleConf.ResolversIgnoreQueryAndBody | example/conf.js:46-54 | both resolvers depend only on the method and the path |
| ExampleConf.CacheFileLayout | example/conf.js:50-54 | the write path is `.cache/<name>` below the configuration's directory |
| ExampleConf.RecordedFileIsJson | example/conf.js:52-53 | recorded files have the extension `.json` |
| ExampleConf.FallbackHasNoExtension | example/conf.js:30 | the fallback is `application-demo/web` and has no extension, so its `index.html` is served |
| ExampleConf.WebFileIndex | example/conf.js:23-25 | a path without extension maps to `web/index.html` |
| ExampleConf.WebJoin | example/conf.js:23-24 | a path with an extension is normalized below `web` |
| ExampleConf.WebFileWithin | example/conf.js:22-26 | a path with an extension and no `..` piece stays inside the `web` directory |
| ExampleRun.ExampleApp | example/conf.js:5-56 | the installed example chain has the proxy keys `/api` and `/mock`, a cache and a fallback |
| ExampleRun.NoLocalRule | lib/server.js:146-151 | when neither rule pattern matches the path, the local rule stage passes |
| ExampleRun.ApiMiddleware | example/conf.js:33-37 | a path below `/api` is taken by the first middleware, with the `/api` options |
| ExampleRun.Forwarded | lib/server.js:88-107 | a request below `/api` with neither lookup candidate on disk goes to the upstream |
| ExampleRun.Recorded | example/conf.js:50-54 | the answer is written to `.cache/<name>`, and the `data` candidate stays absent |
| ExampleRun.SameCandidates | example/conf.js:46-49 | a later request with the same method and path has the same two candidates |
| ExampleRun.ReplayConditions | lib/server.js:95-97 | once the answer is recorded, the later request passes the local rules and finds the recorded file first |
| ExampleRun.ReplayOf | lib/server.js:88-138 | the record-then-replay result, with the forwarding options and the recorded file named |
| ExampleRun.ExampleRecordThenReplay | example/conf.js:32-54 | with the example configuration, a request below `/api` is forwarded and recorded in `.cache/<name>`, and the same request later is served from that file with the recorded bytes |
| JsNumbers.TruncDiv | lib/server.js:233 | `maxAge / 1000` truncated toward zero |
| JsNumbers.ToInt32 | lib/server.js:233 | the bitwise or with 0 lands in the signed 32-bit range and agrees with its input modulo 2^32 |
| JsNumbers.ToInt32InRange | lib/server.js:233 | the bitwise or with 0 keeps every value that fits in 32 bits |
| JsNumbers.IntToString | lib/server.js:233 | `${n}` is the decimal spelling, with a minus sign for negatives |
| JsNumbers.ParseNatToString | lib/server.js:233 | the decimal spelling reads back as the number |
| JsNumbers.NatToStringInjective | lib/server.js:233 | different numbers give different spellings |

## Left out

- Koa bootstrap: listening, logging, argument parsing and `parseConfFilepath`. These are start-up and I/O code.
- `getAllInterfaces`: it is a query to the operating system.
- `koa-body`, `fixRequestBody`, `http-proxy-middleware`, `koa2-connect` and `http-errors` are foreign code. The upstream is a parameter from options and request to a status and bytes. The headers the upstream sends back, and the proxy library's own defaults, are not modelled.
- `pathToRegexp` and the line that compiles each rule's pattern (lib/server.js:143): rule patterns are given predicates on the path. The regular expression of the second example rule (example/conf.js:21) is not modelled.
- Streams and real file-system calls: `fs.stat`, `pathExistsSync` and `createReadStream` are reads of the disk map, and a served body is a stream named by its path. `ensureFileSync` creating parent directories is not modelled.
- `mtime.toUTCString()`: Last-Modified holds the modification time as a number.
- ProxyService.Intercept: stores the upstream bytes as received. The UTF-8 conversion of line 128 is left out, because text encoding is outside the model.
- ProxyService.Intercept: a path is writable when nothing, or a regular file, is there. Parent directories that are files are not modelled, because the disk is a flat map.
- ProxyService.ProxyStage: the upstream always answers. When it cannot be reached, the proxy library's error handler answers the client itself (504, or 500 for other errors) and the interceptor never runs, so nothing is recorded. `Server.Proxied` and `Server.Chain` share this gap, because the proxy library is foreign code.
- ProxyService.ProxyFor: a proxy key is matched as a plain prefix of the path. The proxy library matches keys holding glob characters with micromatch instead; such keys are not modelled, and the example's keys are plain.
- Static.DefaultType: the type is the bare extension. Koa's `ctx.type` setter maps it to a MIME type, and sets none for an empty or unknown extension; Koa then types a stream body `application/octet-stream`. MIME lookup is outside the model.
- Server.Proxied: a failed cache write is the step Stalled, with the response as it was. In the library the upstream status and headers have already been copied when the write throws. The throw happens inside the stream's 'end' listener, so it is an unhandled promise rejection, and under Node 15 and later that ends the process by default. Process termination is outside the model.
- Paths are taken as the exact strings the server builds, which in the example are normalized absolute paths from `path.join`. Different spellings of one file (`a//b`, `a/./b`, a trailing '/', relative paths) are different keys of the disk map, so `sendFile` of a fallback ending in '/' looks for `dir//index.html` under that spelling only. The map is also not required to form a consistent tree: a file and a path below it may both be present.
- Header names are compared as spelled. Node and Koa compare them without regard to case; the model always spells them the same way.
- ProxyConfig.Flattened: the table's insertion order is taken as `Object.keys` order. That holds only for keys that are not array indices ("0", "42"), which JavaScript lists first; no contract requires the contexts to start with '/', which would exclude them.
- Koa's implicit behaviour beyond status defaulting and the 200 on a body: the Content-Type and Content-Length Koa's body setter derives from a text body (so the 404 "Not Found" answer keeps the headers it had), and the error page Koa writes for an error a stage raises. `Server.Chain` reports a raised error as a step, not as a response.
- The aliasing of a list entry's options object between the prefixes it lists, which `Object.assign` at line 125 then mutates. Each middleware gets its own copy of the options in the model.
- A proxy setting given as an object with a `length` key, which `flatProxy` would treat like a list. The empty list, returned as it is, is modelled as the empty object, because both have no keys.
- The object form of `cache` with a resolver missing: both resolvers are assumed present.
- Concurrency: concurrent requests and their interleaved cache writes.
- `example/demo-server.js`: it is a stand-in upstream and not part of this model.
