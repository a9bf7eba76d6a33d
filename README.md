# Aurelia runtime-node, au CLI and testing helpers — a Dafny model

This project models the decision logic of seven files of the Aurelia
repository and proves what they promise:

- **The two request handlers of the Node runtime** (`FileServer`, `Http2FileServer`).
  - They work over a file-system tree (`FileSystem.Entry`) and a port object that hands out descriptors (`FileSystem.FilePort`).
  - They record what they do to the response as an ordered list of actions (`Http.HttpContext.sent`).
  - For `/index.html`, the HTTP/2 handler pushes every readable regular file reached through readable directories below the root. That is server push, section 8.2 of RFC 7540. The pushed request carries its path in the `:path` pseudo-header (section 8.1.2.3).
- **The eager example server** (`server.js`).
  - At start-up it caches a descriptor and headers for every file under `<cwd>/dist`, in a `Map` kept in insertion order (`VanillaServer.Server.fdMap`).
  - It answers from that cache.
  - For `/index.html`, it first pushes every cached file whose path does not end in `index.html`.
  - `PushVariants` pins down where this server and the runtime handler differ: what is excluded, the `:path` format, and 400 against 404.
- **The expression parser.**
  - Three memo tables are chosen by binding type.
  - An empty expression is not cached for the command bindings.
  - `cache` pre-seeds the tables.
  - `parseCore` turns `a.b().c` into a left-nested chain of scope and member nodes.
- **`parseArgs` of the `au` command line:** command check, pair check, key normalisation, key map, and values resolved against the working directory.
- **`RuntimeNodeConfiguration`:** option defaults and merging, and the choice of server and handler pair.
- **The dev server's decisions:** the log-level mapping, the options handed to the runtime, the wipe of the scratch directory (as `rimraf` on the file-system tree), and the import specifier of the generated page.
- **`verifyBindingInstructionsEqual` and `targetedInstructionTypeName`:** a recursive side-by-side walk of two JSON-like values. It appends `OK`/`WRONG` lines to a shared list and fails at the top-level path `instruction` if any line is a mismatch.

Stateful code is modelled as classes with `modifies` clauses, and loops as
`while` loops with invariants:

- the handlers and the example server, over a `FilePort` and an `HttpContext`;
- `ExpressionParser`, with its three maps;
- the DI `Container`;
- the diff's shared `ErrorLog`.

Each such method is proved equal to a specification function, and the
lemmas state the properties of that function. The pure pieces are
functions and lemmas.

Modules: `Common` (strings), `Paths`, `FileSystem`, `Http`, `FileServer`,
`VanillaServer`, `PushVariants`, `ExpressionParser`, `Cli`,
`Configuration`, `DevServer`, `Assertions`.

## Model

| member | source | states |
|---|---|---|
| Common.IndexOfSpec | packages/au/src/dev-server.ts:78 | the first occurrence a string `replace` acts on: `IndexOf` is the least position where the pattern occurs, and none exactly when it occurs nowhere |
| Common.LastIndexOf | examples/vanilla-ts/server.js:49 | `lastIndexOf('.')`: the index holds the character and no later index does; none exactly when the character is absent |
| Common.Split | packages/runtime/dist/umd/binding/expression-parser.js:70 | `split('.')` yields at least one part and no part contains the separator |
| Common.JoinSplit | packages/runtime/dist/umd/binding/expression-parser.js:70 | joining the parts of `split` with the separator gives the input back |
| Common.SplitJoin | packages/runtime/dist/umd/binding/expression-parser.js:70 | splitting the join of separator-free parts gives the parts back |
| Common.NatToString | packages/testing/src/specialized-assertions.ts:153 | the decimal text of an index is non-empty and all digits |
| Paths.JoinPath | packages/runtime-node/src/request-handlers/file-server.ts:36 | `join(root, path)` is a normal path (no empty, `.` or `..` segment) |
| Paths.ResolvePath | packages/runtime-node/src/request-handlers/file-server.ts:25 | `resolve(opts.root)` against the working directory is a normal absolute path |
| Paths.JoinName | packages/runtime-node/src/request-handlers/file-server.ts:140 | `join(dir, item)` for a listed name is that directory with the name appended |
| Paths.JoinRootedName | packages/runtime-node/src/request-handlers/file-server.ts:95 | `join(root, '/' + name)` is the root with the name appended |
| Paths.RelativeBelow | examples/vanilla-ts/server.js:104 | `relative(root, root + rel)` is `rel` |
| Paths.RenderInjective | packages/runtime-node/src/request-handlers/file-server.ts:152 | two normal paths with the same text are the same path, so the `:path` text identifies the file |
| Paths.RenderEnd | packages/runtime-node/src/request-handlers/file-server.ts:36 | the text of a nonempty normal path is at least two characters long and does not end in `/` |
| Paths.JoinTextNames | packages/runtime-node/src/request-handlers/file-server.ts:36 | the text `join(root, path)` gives is the text of a nonempty normal path `q` iff the request path does not end in `/` and joins to `q` |
| FileSystem.Readdir | packages/runtime-node/src/request-handlers/file-server.ts:139 | `readdirSync` returns one name per entry of the directory: as many names as entries, and the k-th name is the name of the k-th entry |
| FileSystem.LookupChild | packages/runtime-node/src/request-handlers/file-server.ts:140-141 | the joined path of a listed name looks up exactly that entry |
| FileSystem.FilePort.OpenSync | packages/runtime-node/src/request-handlers/file-server.ts:125 | `openSync` succeeds iff the path is readable and, when its text ends in `/`, names a directory (a regular file then fails with `ENOTDIR`); on success the descriptor is the next number and the path joins the open descriptors; otherwise nothing changes |
| Http.HttpContext.constructor | packages/runtime-node/src/request-handlers/file-server.ts:30-32 | a context holds its request and response, starts in state `Start` and has nothing sent |
| FileServer.FileServer.constructor | packages/runtime-node/src/request-handlers/file-server.ts:25 | the root is `resolve(opts.root)` |
| FileServer.FileServer.HandleRequest | packages/runtime-node/src/request-handlers/file-server.ts:30-63 | with the wrong transport nothing changes; otherwise a readable target gives `writeHead(200, Content-Type of the joined text)` and its content; an unreadable target, or a regular file asked for with a trailing `/`, gives `404` with an empty body; the state becomes `end` unless reading a directory rejects |
| FileServer.Http2FileServer.constructor | packages/runtime-node/src/request-handlers/file-server.ts:83 | the root is `resolve(opts.root)` |
| FileServer.Http2FileServer.HandleRequest | packages/runtime-node/src/request-handlers/file-server.ts:88-121 | with the wrong transport nothing changes; otherwise the actions and opened descriptors are `Http2Outcome`: 404 with an empty body when the target is unreadable or is a regular file asked for with a trailing `/`, else the primary response then the pushes; the state becomes `end` unless the push walk throws |
| FileServer.Http2FileServer.GetFile | packages/runtime-node/src/request-handlers/file-server.ts:123-135 | opens the next descriptor on that path; headers are `:status` 200, `content-length` the stat size, `last-modified` the stat time, and the content type of the path's text, trailing `/` included when it was asked for |
| FileServer.Http2FileServer.PushRoot | packages/runtime-node/src/request-handlers/file-server.ts:106-108 | `pushAll(stream)` of the root appends exactly the pushes of `Pushed` for `/index.html` and opens their paths in order |
| FileServer.Http2FileServer.PushAll | packages/runtime-node/src/request-handlers/file-server.ts:137-149 | a readable directory appends one push per file of `PushList` of its entries, on consecutive descriptors; an unreadable one (where `readdirSync` throws) changes nothing |
| FileServer.Http2FileServer.PushNames | packages/runtime-node/src/request-handlers/file-server.ts:139-148 | the `for` loop over the listing appends the pushes of `PushList` of all the entries |
| FileServer.Http2FileServer.PushNext | packages/runtime-node/src/request-handlers/file-server.ts:140-147 | one turn of the loop extends the pushes of the entries before it by those of the next entry |
| FileServer.Http2FileServer.PushChild | packages/runtime-node/src/request-handlers/file-server.ts:140-147 | an unreadable entry is skipped, a readable file pushed, and a readable directory walked |
| FileServer.Http2FileServer.Push | packages/runtime-node/src/request-handlers/file-server.ts:150-157 | one push whose `:path` is the joined file-system path, on the next descriptor, with `getFile`'s headers for that path |
| FileServer.EntryTarget | packages/runtime-node/src/request-handlers/file-server.ts:95 | `join(root, '/index.html')` is the root's `index.html` |
| FileServer.PushListPaths | packages/runtime-node/src/request-handlers/file-server.ts:137-149 | every path the push walk lists is normal and lies below the directory walked |
| FileServer.PushListExactly | packages/runtime-node/src/request-handlers/file-server.ts:137-149 | a path is pushed iff it lies below the directory and names a readable regular file reached only through readable directories |
| FileServer.PushEntryExactly | packages/runtime-node/src/request-handlers/file-server.ts:141-146 | the same characterisation for one entry |
| FileServer.PushListDistinct | packages/runtime-node/src/request-handlers/file-server.ts:137-149 | no path is pushed twice |
| FileServer.PushListFound | packages/runtime-node/src/request-handlers/file-server.ts:141-143 | every pushed path looks up a readable regular file, the one recorded |
| FileServer.PushActionsAt | packages/runtime-node/src/request-handlers/file-server.ts:150-157 | the k-th push goes out on descriptor `firstFd + k` with that file's path and headers |
| FileServer.Http2EntryOutcome | packages/runtime-node/src/request-handlers/file-server.ts:97-108 | for `/index.html` with a readable root: the primary response, then the pushes of the walk; opened are `index.html`, then the pushed paths |
| FileServer.Http2PushSet | packages/runtime-node/src/request-handlers/file-server.ts:97-149 | after the two primary actions come exactly the pushes; their paths are distinct and are exactly the reachable readable files |
| FileServer.Http2PushesEntryDocumentToo | packages/runtime-node/src/request-handlers/file-server.ts:137-149 | the walk does not exclude `index.html`: the entry document itself is pushed |
| FileServer.Http2PushOnlyForEntryDocument | packages/runtime-node/src/request-handlers/file-server.ts:97-108 | any push implies the request path is exactly `/index.html` and its target is readable |
| FileServer.Http2PrimaryClosesItsFd | packages/runtime-node/src/request-handlers/file-server.ts:100-103 | the primary response registers the close of its own descriptor, responds from it, and no other close is registered |
| VanillaServer.ExtensionIs | examples/vanilla-ts/server.js:49-51 | the slice from the last `.` equals a dot-suffix iff the path ends with it |
| VanillaServer.GetContentTypeSpec | examples/vanilla-ts/server.js:48-56 | the JavaScript type iff the path ends in `.js`, the HTML type iff `.html`, undefined otherwise |
| VanillaServer.Get | examples/vanilla-ts/server.js:68 | `Map.get` finds nothing iff the key is absent; what it finds is an entry of the map |
| VanillaServer.MapSetSpec | examples/vanilla-ts/server.js:38 | `Map.set` appends a new key, keeps an existing key's place, stores the value and leaves every other key alone |
| VanillaServer.SetAllKeys | examples/vanilla-ts/server.js:38 | setting distinct new keys appends them in order |
| VanillaServer.Server.constructor | examples/vanilla-ts/server.js:14 | the root is `<cwd>/dist` and the map starts empty |
| VanillaServer.Server.GetFile | examples/vanilla-ts/server.js:19-29 | fails iff `openSync` does (unreadable); otherwise the next descriptor and headers with no `:status`, the stat size, the stat time and the content type |
| VanillaServer.Server.Startup | examples/vanilla-ts/server.js:115 | `prepare()` succeeds iff the root is a directory whose every entry can be opened or listed; then the map holds the files found, in walk order, on consecutive descriptors |
| VanillaServer.Server.Prepare | examples/vanilla-ts/server.js:33-43 | the same for any directory: success iff every entry below it is sound, and the map then gains its files in order |
| VanillaServer.Server.PrepareNames | examples/vanilla-ts/server.js:34-42 | the `for` loop over the listing caches the files of all the entries |
| VanillaServer.Server.PrepareNext | examples/vanilla-ts/server.js:35-41 | one turn of the loop extends the cache by the next entry's files |
| VanillaServer.Server.PrepareChild | examples/vanilla-ts/server.js:35-41 | a regular file is opened and set into the map; anything else is walked |
| VanillaServer.StartupKeys | examples/vanilla-ts/server.js:33-43 | after start-up the keys are exactly the regular files below the root, with no duplicates, and never a directory |
| VanillaServer.FilesArePushList | examples/vanilla-ts/server.js:33-43 | on a tree with nothing unreadable, `prepare` finds the same files, in the same order, as the runtime handler's walk |
| VanillaServer.Server.RequestHandler | examples/vanilla-ts/server.js:62-86 | appends `Response` for the request path, looked up in the cache by the joined text, so `/a/` misses the cached file `a` and gets 400; nothing else changes (the cache is written only at start-up) |
| VanillaServer.NotCachedIsBadRequest | examples/vanilla-ts/server.js:67-85 | with the keys start-up caches, a request whose joined path is not cached, or which ends in `/`, gets `400` with an empty body and no push |
| VanillaServer.GetText | examples/vanilla-ts/server.js:69 | `fdMap.get(text)`: none iff no key has that text; otherwise an entry whose key has that text holds the value |
| VanillaServer.CacheLookupByText | examples/vanilla-ts/server.js:67-69 | when every key is a normal path, looking up the joined text misses for a request ending in `/` and otherwise finds what looking up the joined path finds |
| VanillaServer.StartupKeysArePaths | examples/vanilla-ts/server.js:33-43 | every key start-up caches is a nonempty normal path |
| VanillaServer.EntryDocumentPushesFirst | examples/vanilla-ts/server.js:69-78 | with the keys start-up caches and `index.html` cached, every push for `/index.html` comes before the `respondWithFD` with the cached descriptor and headers |
| VanillaServer.PushOnlyForEntryDocument | examples/vanilla-ts/server.js:73-77 | any other request path issues no push |
| VanillaServer.Server.PushAll | examples/vanilla-ts/server.js:91-97 | appends the pushes of every map entry whose path does not end in `index.html`, in map order |
| VanillaServer.PushesExactly | examples/vanilla-ts/server.js:91-97 | an action is pushed iff some entry not ending in `index.html` produces it |
| VanillaServer.Server.Push | examples/vanilla-ts/server.js:103-113 | one push with `:path` = `/` + the root-relative path, reusing the cached descriptor and headers |
| PushVariants.IndexNamesExcluded | examples/vanilla-ts/server.js:93 | any file whose name ends in `index.html`, in any directory, is excluded |
| PushVariants.MyIndexExcluded | examples/vanilla-ts/server.js:93 | `myindex.html` is excluded too |
| PushVariants.VanillaNeverPushesEntryDocument | examples/vanilla-ts/server.js:91-97 | the example server never pushes `/index.html`, which the runtime handler does push |
| PushVariants.PushPathFormats | examples/vanilla-ts/server.js:104 | the example's `:path` is `/` + the root-relative path; it equals the runtime handler's full path only when the root is `/` |
| PushVariants.RelativeAgrees | examples/vanilla-ts/server.js:104 | the root-relative `:path` identifies the file below the root |
| PushVariants.MissingFileStatus | packages/runtime-node/src/request-handlers/file-server.ts:110-117 | a request that the runtime handler cannot read and the example server has not cached (a trailing `/` on a regular file counts as both) is 404 in the former and 400 in the latter, both with an empty body |
| PushVariants.SameFilesWhenSound | examples/vanilla-ts/server.js:33-43 | on a tree with nothing unreadable, the example caches exactly the paths the runtime handler pushes, in order |
| ExpressionParser.ExpressionParser.constructor | packages/runtime/dist/umd/binding/expression-parser.js:17-21 | the three tables start empty |
| ExpressionParser.ExpressionParser.Parse | packages/runtime/dist/umd/binding/expression-parser.js:22-51 | result and new tables are `ParseSpec` of the old tables |
| ExpressionParser.ParseTouchesOneTable | packages/runtime/dist/umd/binding/expression-parser.js:22-50 | only the table of the binding type is consulted or filled; a hit returns the stored node unchanged; a miss stores `parseCore`'s result; keys are never lost |
| ExpressionParser.ParseIdempotent | packages/runtime/dist/umd/binding/expression-parser.js:25-28 | parsing the same expression again returns the same node and changes nothing |
| ExpressionParser.EmptyExpressionNotCached | packages/runtime/dist/umd/binding/expression-parser.js:41-43 | an empty expression whose type shares a bit with 55 returns `$empty` and leaves the tables alone |
| ExpressionParser.EmptyInterpolationCached | packages/runtime/dist/umd/binding/expression-parser.js:24-29 | an empty interpolation takes no shortcut: it is parsed and stored |
| ExpressionParser.EmptyMaskLowBits | packages/runtime/dist/umd/binding/expression-parser.js:41 | `bindingType & 55` lies in 0..55 and depends only on the low six bits, also after 32-bit truncation |
| ExpressionParser.EmptyAllowedFor | packages/runtime/dist/umd/binding/expression-parser.js:41 | `BindCommand`, `OneTimeCommand` and `ToViewCommand` keep their own bits under the mask |
| ExpressionParser.EmptyAllowedForOther | packages/runtime/dist/umd/binding/expression-parser.js:112-118 | `TwoWayCommand`, `FromViewCommand` and `TriggerCommand` share bits with the mask too |
| ExpressionParser.EmptyRejectedFor | packages/runtime/dist/umd/binding/expression-parser.js:100-106 | `None`, `IsRef`, `IsIterator` and `IsEvent` do not |
| ExpressionParser.ExpressionParser.Cache | packages/runtime/dist/umd/binding/expression-parser.js:52-67 | the tables become `CacheAll` of the entries over the old tables |
| ExpressionParser.CacheLastWins | packages/runtime/dist/umd/binding/expression-parser.js:54-65 | each entry ends up in the table chosen by its `$kind` (24, 6199, else expressions); the last entry for a key wins |
| ExpressionParser.CacheUntouched | packages/runtime/dist/umd/binding/expression-parser.js:54-65 | keys the entries do not mention keep their presence and value in every table |
| ExpressionParser.Set | packages/runtime/dist/umd/binding/expression-parser.js:27 | storing into one table leaves the other two unchanged |
| ExpressionParser.ExpressionParser.ParseCore | packages/runtime/dist/umd/binding/expression-parser.js:68-95 | the `while` loop builds `Chain` of the `.`-separated parts |
| ExpressionParser.ChainStep | packages/runtime/dist/umd/binding/expression-parser.js:80-88 | each turn wraps the chain so far in a member node for the next part |
| ExpressionParser.ChainShape | packages/runtime/dist/umd/binding/expression-parser.js:70-90 | one node per part, left-nested, a scope node innermost; a part is a call iff it ends in `()`, and a call's name is the part with its first `()` removed |
| ExpressionParser.SegmentRoundTrip | packages/runtime/dist/umd/binding/expression-parser.js:73-74 | for a part whose only `()` is trailing, the call name plus `()` is the part |
| ExpressionParser.ChainUnparse | packages/runtime/dist/umd/binding/expression-parser.js:70-90 | unparsing a chain of such parts joins them with `.` |
| ExpressionParser.ParseCoreRoundTrip | packages/runtime/dist/umd/binding/expression-parser.js:70-90 | for an expression whose parts have no `()` except a trailing one, unparsing `parseCore`'s result gives the input back |
| Cli.CommandOf | packages/au/src/index.ts:27-29 | a command exactly for `dev` and `test`, whose name is the argument |
| Cli.TrimStartSpec | packages/au/src/index.ts:36 | `trim` drops exactly the leading white space |
| Cli.TrimEndSpec | packages/au/src/index.ts:36 | `trim` drops exactly the trailing white space |
| Cli.RemoveDashesSpec | packages/au/src/index.ts:36 | `replace(/-/g, '')` leaves no dash, keeps a dash-free key unchanged and adds no character |
| Cli.RemoveDashesAppend | packages/au/src/index.ts:36 | removing dashes distributes over concatenation |
| Cli.NormalizedKeyForm | packages/au/src/index.ts:36 | a normalised key has no dash and no upper-case letter |
| Cli.NormalizeUntrimmed | packages/au/src/index.ts:36 | without surrounding white space, normalising is removing dashes then lower-casing |
| Cli.DashIgnored | packages/au/src/index.ts:36 | a dash anywhere in a key does not change its normal form |
| Cli.LeadingDashesIgnored | packages/au/src/index.ts:36 | `--key` and `key` normalise alike |
| Cli.EntryFileSpellings | packages/au/src/index.ts:14-17 | `entryFile` and `scratchDir` lower-case to the key map's keys |
| Cli.KeyMap | packages/au/src/index.ts:14-17 | `entryfile` maps to `entryFile` and `scratchdir` to `scratchDir`, and nothing else maps |
| Cli.ParseArgs | packages/au/src/index.ts:19-57 | the `for (i += 2)` loop returns `ParseArgsWith` of the arguments for the names `key in keyMap` finds through the prototype: `InheritedKeys` is the code as written, `{}` the corrected own-key check |
| Cli.ApplyPairsSpec | packages/au/src/index.ts:35-50 | the pair loop succeeds iff every key is known; then each field holds the resolved value of its last occurrence, or its previous value |
| Cli.ApplyPairsNeverUnknownCommand | packages/au/src/index.ts:35-50 | the pair loop fails only with `Unknown key` |
| Cli.ParseArgsSucceeds | packages/au/src/index.ts:19-52 | success iff a `dev`/`test` command is followed by pairs with known keys; then `cmd` is `args[0]` and unsupplied fields stay `''` |
| Cli.ParseArgsErrors | packages/au/src/index.ts:20-29 | an odd number of arguments after the command is `Uneven` before the command is checked; `Unknown command` exactly for a bad command or no arguments |
| Cli.ConstructorKeyInherited | packages/au/src/index.ts:36-37 | `--constructor` normalises to a name `in` finds through `Object.prototype` |
| Cli.InheritedKeyAccepted | packages/au/src/index.ts:37-49 | as written, an inherited key passes the check and assigns nothing; the intended check answers `Unknown key` |
| Configuration.MergeSpec | packages/runtime-node/src/configuration.ts:8-18 | each option is the supplied one if present, else the default (`0.0.0.0`, 8080, `./`, info, no HTTP/2); nothing supplied gives the defaults |
| Configuration.Container.Register | packages/runtime-node/src/configuration.ts:21-26 | registering appends the items and returns the same container |
| Configuration.RegisterAll | packages/runtime-node/src/configuration.ts:20-41 | `register` appends exactly `Registrations(opts)` and returns the container it was given |
| Configuration.ServerSelection | packages/runtime-node/src/configuration.ts:28-38 | HTTP/2 registers exactly `Http2Server` and `Http2FileServer`, otherwise exactly `HttpServer` and `FileServer`, never both |
| Configuration.AlwaysRegistered | packages/runtime-node/src/configuration.ts:21-26 | the file system, the system, the options instance and the logger at the chosen level are registered whatever `useHttp2` is |
| DevServer.GetLogLevelRoundTrip | packages/au/src/dev-server.ts:15-24 | each of the seven names maps to the level of that name |
| DevServer.GetLogLevelDefault | packages/au/src/dev-server.ts:25 | undefined or an unlisted name gives `info` |
| DevServer.GetLogLevelNamed | packages/au/src/dev-server.ts:15-25 | any level other than `info` comes from its own name |
| DevServer.DevServerOptions | packages/au/src/dev-server.ts:90-97 | merged, the options are root = scratch dir, HTTP/2, the mapped level and the default host and port; they select the HTTP/2 server and handler |
| DevServer.WipeOnlyWhenAsked | packages/au/src/dev-server.ts:58-60 | when the scratch directory is readable and `wipeScratchDir` is true, nothing at or below it remains; otherwise the tree is unchanged; either way every path neither within it nor above it is found as before |
| DevServer.RimrafGone | packages/au/src/dev-server.ts:59 | after `rimraf(p)` nothing is found at `p` |
| DevServer.RimrafOther | packages/au/src/dev-server.ts:59 | `rimraf(p)` leaves every path neither at or below `p` nor above it as it was |
| DevServer.LookupPrefixNone | packages/au/src/dev-server.ts:59 | nothing is found below a path at which nothing is found, so `rimraf` removes the whole subtree |
| DevServer.TsToJsSpec | packages/au/src/dev-server.ts:78 | only a trailing `.ts` becomes `.js`; everything else is kept |
| DevServer.ImportBelowRoot | packages/au/src/dev-server.ts:78 | for an entry file below the common root, the specifier is `.` + its root-relative path with `.ts` turned into `.js` |
| DevServer.ImportOutsideRoot | packages/au/src/dev-server.ts:78 | when the common root does not occur in the entry file, nothing is removed |
| Assertions.CodesDistinct | packages/testing/src/specialized-assertions.ts:92-122 | the fifteen instruction type codes are pairwise distinct, so every `case` is reachable |
| Assertions.FirstCaseFinds | packages/testing/src/specialized-assertions.ts:92-122 | the `switch` returns the name of the first case whose code matches |
| Assertions.TypeNameOfCode | packages/testing/src/specialized-assertions.ts:91-122 | each of the fifteen codes is named by its fixed name |
| Assertions.TypeNameFallback | packages/testing/src/specialized-assertions.ts:123-124 | any other string comes back unchanged |
| Assertions.Shown | packages/testing/src/specialized-assertions.ts:137-146 | an object is shown as its JSON text, a string at a path ending in `type` as its instruction type name (an object's JSON text there too), anything else as it is; what is shown is never an object |
| Assertions.ErrorLog.Push | packages/testing/src/specialized-assertions.ts:147 | `errors.push` appends one line |
| Assertions.Verify | packages/testing/src/specialized-assertions.ts:128-182 | the walk appends exactly `Lines` of the two values, with `inherited` the names a fresh `seen` answers for, and fails iff `Failure` of the whole list says so |
| Assertions.VerifyElements | packages/testing/src/specialized-assertions.ts:151-154 | the index loop appends the lines of indices 0 to `max(expected.length, actual.length) - 1`, in order |
| Assertions.VerifyProps | packages/testing/src/specialized-assertions.ts:167-177 | the two key loops append the lines of the expected keys, then of the actual keys neither seen nor inherited by `seen` |
| Assertions.VerifyExpectedKeys | packages/testing/src/specialized-assertions.ts:169-172 | the first loop appends the lines of each expected key in order and records exactly those keys as seen |
| Assertions.VerifyActualKeys | packages/testing/src/specialized-assertions.ts:173-177 | the second loop appends the lines of each actual key not seen, in order |
| Assertions.VerifyKey | packages/testing/src/specialized-assertions.ts:170 | one key's call appends the lines of the two values under it, at path `path.key` |
| Assertions.VerifyBindingInstructionsEqual | packages/testing/src/specialized-assertions.ts:128-134 | the path defaults to `instruction`, the list to a fresh one (the given list otherwise); the lines appended are `Lines` with the inherited names of `seen` (`PrototypeNames` as written, `{}` corrected), and it fails iff `Failure` says so |
| Assertions.LeafLine | packages/testing/src/specialized-assertions.ts:135-150 | a leaf comparison appends exactly one line, which starts with `W` iff the values differ; equal values give `OK   : path === value`, different ones `WRONG: path === <actual shown> (expected: <expected shown>)` |
| Assertions.TypeMismatchNamed | packages/testing/src/specialized-assertions.ts:143-147 | a mismatch of two instruction codes at a path ending in `type` prints both by name |
| Assertions.StringMismatchVerbatim | packages/testing/src/specialized-assertions.ts:143-147 | elsewhere, two different strings are printed as they are |
| Assertions.EqualPasses | packages/testing/src/specialized-assertions.ts:135-177 | comparing a value with itself never reports a mismatch |
| Assertions.IndexWrong | packages/testing/src/specialized-assertions.ts:152-154 | a mismatch at one index is a mismatch of the whole array |
| Assertions.KeyWrong | packages/testing/src/specialized-assertions.ts:169-177 | a mismatch at one visited key is a mismatch of the whole object |
| Assertions.ExtraElementReported | packages/testing/src/specialized-assertions.ts:151-154 | an element only the actual array has, unless undefined, is reported |
| Assertions.MissingElementReported | packages/testing/src/specialized-assertions.ts:151-154 | an element only the expected array has, unless undefined, is reported |
| Assertions.ExpectedKeyReported | packages/testing/src/specialized-assertions.ts:169-172 | a key only the expected object has, unless undefined, is reported |
| Assertions.MissingKeyReported | packages/testing/src/specialized-assertions.ts:173-177 | a key only the actual value has, unless undefined, is reported once `seen` records only the expected keys |
| Assertions.VisitedOnce | packages/testing/src/specialized-assertions.ts:167-177 | the keys visited are the expected keys in order, then the others of actual: every key of either side, each once |
| Assertions.IndexPathsDistinct | packages/testing/src/specialized-assertions.ts:153 | different indices get different paths |
| Assertions.NatToStringInjective | packages/testing/src/specialized-assertions.ts:153 | different numbers have different decimal texts |
| Assertions.SomeWrongSpec | packages/testing/src/specialized-assertions.ts:179 | `errors.some(e => e[0] === 'W')` holds iff some line starts with `W` |
| Assertions.FailsIffWrong | packages/testing/src/specialized-assertions.ts:179-181 | a call fails iff its path is `instruction` and some line of the whole list starts with `W` |
| Assertions.NestedNeverFails | packages/testing/src/specialized-assertions.ts:179 | a nested call, whose path has a `.` or `[`, never fails |
| Assertions.InheritedNamesSkipped | packages/testing/src/specialized-assertions.ts:168-174 | as written, an actual key named like an `Object.prototype` member is never visited by the second loop |
| Assertions.PrototypeKeySkipped | packages/testing/src/specialized-assertions.ts:168-181 | as written, an extra `constructor` property produces no line and no failure; with `seen` holding only the expected keys it fails |

## Left out

- I/O and the process: `url.parse` is not modelled; a request carries its parsed path. Also left out are listening, TLS and the key and certificate reads of `server.js`, the top-level dispatch of `au` with `process.exit`, and the compile, bundle, write and browser steps of `DevServer.run`. Logging is dropped everywhere.
- `getContentType` and `HTTPStatusCode` of `http-utils` are not part of this model. The runtime handlers take the content type as a function of the path. The statuses are the standard 200 and 404.
- `HttpContextState` of `http-context` is not part of this model. Its states are `Start`, `Dispatching` and `End`.
- Asynchrony: awaited promises and `pushStream` callbacks are modelled as actions recorded in the order they are issued. The callback's error argument is ignored, as in the code.
- Descriptors are numbered in opening order. Their closing is modelled only as the close the primary response registers. `mtime.toUTCString()` is an opaque string.
- Paths are POSIX segment lists; Windows paths are out of scope. No `..` containment check exists in the code, and none is proved.
- `FileServer.FileServer.HandleRequest`: reading a directory that `isReadable` accepts makes `readFile` reject. The model records that as a rejected call that writes nothing. The underlying OS error is not modelled.
- `VanillaServer.Server.Startup`: when `prepare` throws part way, the contract does not state which entries were cached before the throw. It states only the failure.
- `VanillaServer.Server.GetFile`: a directory named on a request is never opened, because only files are in the map.
- The `ExpressionParser` AST classes are a small datatype. `PLATFORM.emptyArray` is an empty argument list. The `catch` that wraps errors in `Reporter.error` is unreachable for string input and is not modelled.
- `ExpressionParser.ExpressionParser.Cache`: the entries are taken as a sequence in the order `for…in` enumerates them. That order is not derived.
- `Cli`: `toLowerCase` is modelled for ASCII letters only. `resolve(process.cwd(), value)` takes the working directory as a parameter.
- `Configuration`: `create` wraps the merged options in the configuration; what they hold is stated by `Configuration.MergeSpec`. A supplied option is either present or absent. An option present with the value `undefined` is not modelled; the spread would let it override the default. The DI container is a list of registrations. `LoggerConfiguration.create` is a registration that carries the level.
- `DevServer`: `normalizePath` is not part of this model, so the entry file and scratch directory are taken as already normalised. The `lastCommonRootDir` is a parameter.
- `Assertions`:
  - `JSON.stringify` of an object is a parameter of the walk.
  - The DOM branch (`nodeType`, `childNodes`, `outerHTML`) is left out.
  - Numbers are integers; floating point, `NaN` texts and `-0` are not modelled.
  - Reading a property an object lacks gives `undefined`; lookups through the prototype chain (`actual.constructor`, array methods) are not modelled.
  - An array's `length` read from an object is used only when it is a number, `null` or a boolean.
- `Assertions.Bound`: a string `length` is treated as `NaN`; the coercion by `Math.max` of a numeric string to its number is not modelled.
  - Object keys are taken in their listed order and assumed distinct.
- `Assertions.TypeNameOfCode`: the code strings of `TargetedInstructionType` and `HTMLTargetedInstructionType` belong to the runtime packages, which are not part of this model. They are fixed here as two-letter codes (`ra`–`rk`, `ha`–`he`). The properties hold for any fifteen distinct codes.

## Findings

| source | as written | input that shows it | evidently intended | confidence | as-written member | corrected member |
|---|---|---|---|---|---|---|
| packages/au/src/index.ts:37 | `key in keyMap` also finds names inherited from `Object.prototype`; such a key matches no `case` and is silently ignored | `parseArgs(['dev', '--constructor', 'x'])` returns `{cmd: 'dev', entryFile: '', scratchDir: ''}` | throw `Unknown key: constructor` | not executed; high | Cli.InheritedKeyAccepted | Cli.ApplyPairsSpec |
| packages/testing/src/specialized-assertions.ts:168 | `seen` is `{}`, so `seen[prop]` is truthy for every `Object.prototype` member name, and such a key of `actual` that `expected` lacks is never compared | `verifyBindingInstructionsEqual({constructor: 1}, {})` appends no line and does not throw | report a `WRONG` line for `instruction.constructor` and throw; the expected side is then the `Object` function `{}` inherits, which the model, not following the prototype chain, reads as `undefined` | not executed; high | Assertions.PrototypeKeySkipped | Assertions.MissingKeyReported |
