# mini-vite dev server: update dispatch and request decisions

This project models the decision logic in `packages/vite/src/node/server.ts`, the
`createServer` function of a small Vite-style development server, and proves
properties about it in Dafny:

- **Update dispatch.** The file watcher's `change`, `add` and `unlink` handlers
  turn filesystem events into hot-module-replacement payloads sent over the
  WebSocket channel. A `change` to an `.html` file gives a `full-reload`. Any
  other `change` gives an `update` with a single entry. Its type comes from the
  regular expression `/\.t|js$/`. Its file is the path with the root removed
  by `String.replace`. Its timestamp is the clock reading. `add` and `unlink`
  send nothing.
- **Static assets.** sirv's `setHeaders` hook serves script sources as
  `application/javascript`, using `/\.[tj]sx?$/`.
- **History fallback.** The `to` rewrite for request paths ending in `/`.
- **Server object.** The middleware chain in registration order, ending in
  the 404 handler. The `listen` wrapper with its one-shot `isOptimized` latch.

Files:

- `wrappers.dfy`: `Option` and `Result`.
- `text.dfy`: the two JavaScript string operations the code calls. These are
  `endsWith` (line 38) and `replace` with a string pattern (line 50), which
  removes only the first occurrence. `replace` is specified through a
  leftmost-occurrence search, `IndexOf`, and `StartsWith` states when a path
  lies under the root.
- `patterns.dfy`: the two regular expressions. Each one has a
  character-by-character reference definition of what `RegExp.test` searches
  for. A computable test is proved equal to that definition.
- `hot_update.dfy`: the watcher handlers as functions from an event to the
  payloads sent, plus `Dispatch` over a whole event sequence.
- `serving.dfy`: `setHeaders` and the history rewrite.
- `dev_server.dfy`: the middleware chain, the `listen` latch, and the `Server`
  class that holds the state shared by the closures of `createServer`.

These are parameters of the model:

- `Date.now()` is the `now` field of each watch event.
- `fs.existsSync` is a predicate `fileExists`.
- `decodeURIComponent` is `decode: string -> Option<string>`. `None` stands
  for the `URIError` it throws.
- `ws.send` appends to the `sent` sequence of `Server`.

Two details of the change handler decide what the model states:

- The entry's file is `file.replace(root, '')`. This removes the first
  occurrence of `root` wherever it is. If `root` does not occur, the path is
  unchanged.
- The JS/CSS decision is `/\.t|js$/`. That regex matches any path with a `.t`
  anywhere, such as a `.txt` file or a `.tmp` directory. It does not match
  `.json` or `.jsx`.

## Model

| member | source | states |
|---|---|---|
| `Text.EndsWithIsSuffix` | packages/vite/src/node/server.ts:38 | `endsWith(suffix)`, as `EndsWith` computes it, holds if and only if the string is some string followed by `suffix`. |
| `Text.IndexOf` | packages/vite/src/node/server.ts:50 | The leftmost-occurrence search behind `replace`: it gives -1 exactly when the pattern does not occur. Otherwise it gives the leftmost occurrence. |
| `Text.RemoveFirst` | packages/vite/src/node/server.ts:50 | `replace(root, '')` leaves the string unchanged when `root` does not occur. Otherwise it cuts out exactly the first occurrence. |
| `Text.RemoveFirstOfPrefix` | packages/vite/src/node/server.ts:50 | A path that starts with `root` loses exactly that prefix. |
| `Text.RemoveFirstLength` | packages/vite/src/node/server.ts:50 | When `root` occurs, the result is shorter by exactly the length of `root`. |
| `Text.RemoveFirstEmpty` | packages/vite/src/node/server.ts:50 | An empty root removes nothing. |
| `Text.RemoveFirstKeepsLaterOccurrences` | packages/vite/src/node/server.ts:50 | Only the first occurrence is removed: `/app/src/app/main.js` with root `/app` gives `/src/app/main.js`. |
| `Patterns.UpdateRegexCases` | packages/vite/src/node/server.ts:49 | `/\.t/` or `/js$/` matches at some start position, checked character by character, if and only if `.t` occurs somewhere in the path or the path ends in `js`. |
| `Patterns.IsJsUpdatePath` | packages/vite/src/node/server.ts:49 | The test "`.t` occurs or the path ends in `js`" holds if and only if the search for the update regex finds a match. |
| `Patterns.UpdateRegexExamples` | packages/vite/src/node/server.ts:49 | `a.ts`, `notes.txt`, `main.js` and a file under `.tmp/` are JS updates. `a.json`, `a.jsx` and `a.css` are not. |
| `Patterns.AssetRegexCases` | packages/vite/src/node/server.ts:95 | The search for `/\.[tj]sx?$/` succeeds if and only if the path ends in `.ts`, `.js`, `.tsx` or `.jsx`. |
| `Patterns.IsScriptAssetPath` | packages/vite/src/node/server.ts:95 | Ending in `.ts`, `.js`, `.tsx` or `.jsx` is equivalent to a match of `/\.[tj]sx?$/`. |
| `Patterns.AssetRegexExamples` | packages/vite/src/node/server.ts:95 | `.ts`, `.tsx`, `.js` and `.jsx` match. `.json`, `.mjs`, `.css` and `.tsxx` do not. |
| `HotUpdate.ChangePayload` | packages/vite/src/node/server.ts:36-56 | A full reload happens if and only if the path ends in `.html`, and it carries the path unmodified. Otherwise there is exactly one update entry. Its kind is `js-update` if and only if the regex matches, its file is the path with the first `root` removed, and its timestamp is `now`. |
| `HotUpdate.OnWatchEvent` | packages/vite/src/node/server.ts:36-64 | An event sends at most one payload. It sends none if and only if it is an `add` or `unlink`. A `change` sends its change payload. |
| `HotUpdate.Dispatch` | packages/vite/src/node/server.ts:36-64 | The payloads sent for an event sequence: at most one per event, and none when no event is a `change`. |
| `HotUpdate.DispatchIsPerChange` | packages/vite/src/node/server.ts:36-64 | Over any event sequence, one payload is sent per `change` event. The k-th payload is that of the k-th `change`. |
| `HotUpdate.DispatchAppend` | packages/vite/src/node/server.ts:36-64 | Events are dispatched in arrival order, with no batching or reordering across events. |
| `HotUpdate.ChangeUnderRootIsRootRelative` | packages/vite/src/node/server.ts:43-54 | For a non-HTML file under `root`, the single entry names the file relative to `root`. |
| `HotUpdate.HtmlChangeExample` | packages/vite/src/node/server.ts:38-42 | A change to `index.html` gives `{type: 'full-reload', path: 'index.html'}`. |
| `HotUpdate.TsChangeExample` | packages/vite/src/node/server.ts:43-54 | `/proj/src/main.ts` under root `/proj` gives one `js-update` entry for `/src/main.ts`. |
| `HotUpdate.TxtChangeExample` | packages/vite/src/node/server.ts:49-50 | `/proj/notes.txt` gives a `js-update`. |
| `HotUpdate.JsxChangeExample` | packages/vite/src/node/server.ts:49-50 | `/proj/App.jsx` gives a `css-update`. |
| `Serving.SetHeaders` | packages/vite/src/node/server.ts:94-98 | If the path matches `/\.[tj]sx?$/`, `Content-Type` becomes `application/javascript` and the other headers are kept. Otherwise the headers are untouched. |
| `Serving.SetHeadersExamples` | packages/vite/src/node/server.ts:94-98 | `.tsx` gets the JavaScript type. `.svg` and `.json` get no header. |
| `Serving.ResolvePath` | packages/vite/src/node/server.ts:112 | `path.resolve(root, p)` returns an absolute `p` itself. A relative `p` is placed under `root`. |
| `Serving.HistoryToAsWritten` | packages/vite/src/node/server.ts:108-117 | The `to` callback as written. A decode failure is an error. Otherwise the result is `decoded + 'index.html'` exactly when `existsSync(path.resolve(root, decoded + 'index.html'))` holds, and `/index.html` otherwise. |
| `Serving.JoinPath` | packages/vite/src/node/server.ts:112 | `path.join(root, p)`, used by the corrected existence test, always gives a path under `root` that ends in `p`. |
| `Serving.HistoryToAsWrittenIgnoresRoot` | packages/vite/src/node/server.ts:112 | When the decoded path is absolute, the as-written result is the same for every `root`. |
| `Serving.HistoryToAsWrittenMissesProjectFile` | packages/vite/src/node/server.ts:110-116 | `/docs/` with `/proj/docs/index.html` present is rewritten to `/index.html` as written. The corrected rewrite gives `/docs/index.html`. |
| `Serving.HistoryTo` | packages/vite/src/node/server.ts:108-117 | The rewrite with the existence test under `root`. It is `decoded + 'index.html'` whenever that file exists under `root`. Any other target is `/index.html`. A decode failure is an error. |
| `Serving.HistoryToTargetsIndexHtml` | packages/vite/src/node/server.ts:110-116 | A directory request is always rewritten to a path ending in `/index.html`. |
| `Serving.HistoryRewriteAsWritten` | packages/vite/src/node/server.ts:105-119 | The registered rule applies if and only if the path ends in `/`, and then its result is that of the `to` callback as written. |
| `Serving.HistoryRewrite` | packages/vite/src/node/server.ts:105-119 | The same rule with the corrected `to`: it applies if and only if the path ends in `/`, its result is the corrected callback's, and any target ends in `index.html`. |
| `DevServer.RunChain` | packages/vite/src/node/server.ts:81-130 | Whoever answers is in the chain, and any answerer other than the 404 handler claimed the URL it saw. A failure needs the history middleware. A request falls off the end if and only if the chain has no 404 handler and nothing answered or failed. A chain with the 404 handler and no history middleware always answers, with the URL unchanged. |
| `DevServer.RunChainFirstAnswerWins` | packages/vite/src/node/server.ts:81-130 | If every middleware before position k passes the request on and the one at k takes it, the request is answered at k. |
| `DevServer.StandardChainAnswers` | packages/vite/src/node/server.ts:81-130 | In the registered order no request falls off the end. Transform answers if and only if it claims the URL, then static. If both decline, a throwing history rewrite ends the request in connect's error handler, past index-html and the 404 handler. Otherwise index-html answers on the rewritten URL if it claims it, and the 404 handler answers if and only if none of them did. |
| `DevServer.ListenStep` | packages/vite/src/node/server.ts:133-143 | After a `listen` call the latch is set and the port is appended to the forwarded ports. The optimisation branch runs only if the latch was clear. |
| `DevServer.ListenAll` | packages/vite/src/node/server.ts:133-143 | Successive `listen` calls: after at least one the latch is set, and one port is forwarded per call. |
| `DevServer.ListenAllLatches` | packages/vite/src/node/server.ts:131-143 | After any sequence of calls, the latch is set exactly when it was set before or a call was made. The branch has run at most once more. Every port was forwarded, in order. |
| `DevServer.OptimizeRunsAtMostOnce` | packages/vite/src/node/server.ts:131-143 | From a fresh server the branch runs exactly once if there was any `listen` call. The forwarded ports are exactly the ports passed. |
| `DevServer.Server.constructor` | packages/vite/src/node/server.ts:81-131 | After construction the stack is logger, transform, static, history, index-html, 404. Nothing has been sent and the latch is clear. |
| `DevServer.Server.Use` | packages/vite/src/node/server.ts:81-127 | `middlewares.use` appends one middleware to the stack. |
| `DevServer.Server.OnWatchEvent` | packages/vite/src/node/server.ts:36-64 | A handler appends exactly the event's payloads to what was sent. |
| `DevServer.Server.Listen` | packages/vite/src/node/server.ts:133-143 | The wrapped `listen` changes the server's listen state exactly as `ListenStep` does. |
| `DevServer.Server.Start` | packages/vite/src/node/server.ts:72-74 | `server.listen()` calls the wrapped `listen` with port 3000, through `startServer`. |

## Findings

| source | as written | input that shows it | evidently intended | confidence | as-written member | corrected member |
|---|---|---|---|---|---|---|
| packages/vite/src/node/server.ts:112 | `fs.existsSync(path.resolve(root, rewritten))`, where `rewritten` begins with `/`, so `path.resolve` drops `root` and the test runs against the filesystem root | root `/proj` with `/proj/docs/index.html` present and no `/docs/index.html`. A request for `/docs/` is rewritten to `/index.html`. | test the file under the project root (`path.join(root, rewritten)`), so `/docs/` is rewritten to `/docs/index.html` | high, not executed | `Serving.HistoryToAsWritten` | `Serving.HistoryTo` |

## Left out

- The plugin container, `transformMiddleware`, `indexHtmlMiddleware`, the
  WebSocket server (`ws`) and `resolveConfig` are imported by `server.ts`.
  They are not part of this model. Whether the transform, static and
  index-html middlewares answer a request is the oracle `answers` of
  `RunChain`.
- How connect-history-api-fallback decides which requests to rewrite, such as
  the method and `Accept` header checks, is library code. In `RunChain` the
  history middleware's effect on the URL is the oracle `rewrite`. It gives
  `None` where the `to` callback throws, which for a path ending in `/` is
  where `Serving.HistoryRewriteAsWritten` gives an error. The model does not
  prove that `rewrite` agrees with that function.
- What connect's final handler writes for a failed or unhandled request is
  library code.
- `Serving.HistoryRewriteAsWritten` and `Serving.HistoryRewrite` model only
  the `from: /\/$/` selection and the `to` callback.
- sirv's own file lookup, ETags and default content types are library code.
  Only the `setHeaders` hook is modelled.
- The chokidar watcher and its options (lines 30-35) are filesystem I/O. The
  options ignore `node_modules` and `.git`, skip the initial scan and ignore
  permission errors. Events are an input sequence.
- `console.log` calls, the `process.on('SIGTERM')` handler and `close`
  (awaiting `watcher.close()` and then `httpServer.close()`) are process
  plumbing. So are the Promise that `startServer` resolves with the port, and
  the extra arguments and callback that the `listen` wrapper passes through.
- The `try`/`catch` around the latch (lines 134-141) is left out. The `try`
  body only tests and sets a boolean and cannot throw, so the catch's
  `console.log(e)` never runs.
- Serialising payloads to JSON frames and delivering them to connected
  clients happen inside `ws.send`, which is not part of this model. `sent`
  records what was handed to it.
- `Serving.ResolvePath`, `Serving.JoinPath`: model only whether the second
  argument is absolute. Normalisation is not modelled, including `.`, `..`,
  repeated or trailing slashes, and a relative `root`.
- `Serving.SetHeaders`: header names are compared case-sensitively. Node's
  `setHeader` ignores case.
- `Date.now()`, `fs.existsSync` and `decodeURIComponent` are parameters of
  the model. Their own behaviour is not modelled.
