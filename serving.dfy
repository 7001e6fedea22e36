/**
 * The request-side decisions of the dev server that the repository states
 * itself: sirv's `setHeaders` hook and the history-fallback `to` rewrite.
 * The file system and URI decoding are parameters.
 */
module Serving {
  import opened Wrappers
  import opened Text
  import opened Patterns

  /** Response headers, name to value, as `res.setHeader` leaves them. */
  type Headers = map<string, string>

  const ContentType: string := "Content-Type"
  const JavaScriptMime: string := "application/javascript"

  /**
   * sirv's `setHeaders(res, pathname)`: a script source gets
   * `Content-Type: application/javascript`; any other path leaves the headers as they were.
   */
  function SetHeaders(headers: Headers, pathname: string): (r: Headers)
    ensures AssetRegexMatches(pathname) ==> ContentType in r && r[ContentType] == JavaScriptMime
    ensures !AssetRegexMatches(pathname) ==> r == headers
    ensures r.Keys == headers.Keys + (if AssetRegexMatches(pathname) then {ContentType} else {})
    ensures forall h :: h in headers && h != ContentType ==> r[h] == headers[h]
  {
    if IsScriptAssetPath(pathname) then headers[ContentType := JavaScriptMime] else headers
  }

  lemma SetHeadersExamples(headers: Headers)
    ensures SetHeaders(headers, "/src/main.tsx")[ContentType] == JavaScriptMime
    ensures SetHeaders(headers, "/logo.svg") == headers
    ensures SetHeaders(headers, "/data.json") == headers
  {
    AssetRegexExamples();
    assert !IsScriptAssetPath("/logo.svg");
  }

  /**
   * `path.resolve(root, p)`, for the one distinction that matters here: an
   * absolute `p` replaces `root` altogether, a relative one is placed under it.
   */
  function ResolvePath(root: string, p: string): (r: string)
    ensures StartsWith(p, "/") ==> r == p
    ensures !StartsWith(p, "/") ==> StartsWith(r, root) && EndsWith(r, p)
  {
    if StartsWith(p, "/") then p else root + "/" + p
  }

  /** `path.join(root, p)`: `p` always ends up under `root`, absolute or not. */
  function JoinPath(root: string, p: string): (r: string)
    ensures StartsWith(r, root) && EndsWith(r, p)
  {
    if StartsWith(p, "/") then root + p else root + "/" + p
  }

  /** `decodeURIComponent` throws a `URIError` on a malformed escape. */
  datatype RewriteError = UriError

  /** The fallback target when the directory has no `index.html`. */
  const RootIndex: string := "/index.html"

  /**
   * The `to` callback as the repository writes it: it tests
   * `fs.existsSync(path.resolve(root, rewritten))`.
   */
  function HistoryToAsWritten(root: string, pathname: string,
                              decode: string -> Option<string>, fileExists: string -> bool): (r: Result<string, RewriteError>)
    ensures r.Err? <==> decode(pathname).None?
    ensures r.Ok? ==> r.value == decode(pathname).value + "index.html" || r.value == RootIndex
    ensures r.Ok? && r.value != RootIndex ==> fileExists(ResolvePath(root, r.value))
    ensures r.Ok? && fileExists(ResolvePath(root, decode(pathname).value + "index.html"))
      ==> r.value == decode(pathname).value + "index.html"
  {
    match decode(pathname)
    case None => Err(UriError)
    case Some(d) =>
      var rewritten := d + "index.html";
      if fileExists(ResolvePath(root, rewritten)) then Ok(rewritten) else Ok(RootIndex)
  }

  /**
   * For every request path that decodes to an absolute path (any path an HTTP
   * request carries), the as-written check does not depend on `root` at all.
   */
  lemma HistoryToAsWrittenIgnoresRoot(root1: string, root2: string, pathname: string,
                                      decode: string -> Option<string>, fileExists: string -> bool)
    requires decode(pathname).Some? && StartsWith(decode(pathname).value, "/")
    ensures HistoryToAsWritten(root1, pathname, decode, fileExists) == HistoryToAsWritten(root2, pathname, decode, fileExists)
  {
    var rewritten := decode(pathname).value + "index.html";
    assert rewritten[..1] == decode(pathname).value[..1];
    assert ResolvePath(root1, rewritten) == ResolvePath(root2, rewritten);
  }

  /**
   * The `to` callback with the existence test made under the project root,
   * `fs.existsSync(path.join(root, rewritten))`.
   */
  function HistoryTo(root: string, pathname: string,
                     decode: string -> Option<string>, fileExists: string -> bool): (r: Result<string, RewriteError>)
    ensures r.Err? <==> decode(pathname).None?
    ensures r.Ok? ==> r.value == decode(pathname).value + "index.html" || r.value == RootIndex
    ensures r.Ok? && r.value != RootIndex ==> fileExists(JoinPath(root, r.value))
    ensures r.Ok? && fileExists(JoinPath(root, decode(pathname).value + "index.html"))
      ==> r.value == decode(pathname).value + "index.html"
  {
    match decode(pathname)
    case None => Err(UriError)
    case Some(d) =>
      var rewritten := d + "index.html";
      if fileExists(JoinPath(root, rewritten)) then Ok(rewritten) else Ok(RootIndex)
  }

  /** A directory request is always rewritten to an `index.html`: its own when it exists, else the root one. */
  lemma HistoryToTargetsIndexHtml(root: string, pathname: string,
                                  decode: string -> Option<string>, fileExists: string -> bool)
    requires decode(pathname).Some? && EndsWith(decode(pathname).value, "/")
    ensures HistoryTo(root, pathname, decode, fileExists).Ok?
    ensures EndsWith(HistoryTo(root, pathname, decode, fileExists).value, "/index.html")
  {
    var d := decode(pathname).value;
    var r := HistoryTo(root, pathname, decode, fileExists).value;
    EndsWithAppend(d, "/", "index.html");
    assert "/" + "index.html" == "/index.html";
    assert EndsWith(RootIndex, "/index.html");
  }

  /**
   * The rewrite rule as the repository registers it: the `from` pattern
   * `/\/$/` selects the request paths it applies to, and `to` as written
   * gives the target. Other paths are not rewritten by this rule (`None`).
   */
  function HistoryRewriteAsWritten(root: string, pathname: string,
                                   decode: string -> Option<string>, fileExists: string -> bool): (r: Option<Result<string, RewriteError>>)
    ensures r.Some? <==> EndsWith(pathname, "/")
    ensures r.Some? ==> r.value == HistoryToAsWritten(root, pathname, decode, fileExists)
  {
    if EndsWith(pathname, "/") then Some(HistoryToAsWritten(root, pathname, decode, fileExists)) else None
  }

  /**
   * The same rule with the corrected `to`, which tests for the file under the
   * project root.
   */
  function HistoryRewrite(root: string, pathname: string,
                          decode: string -> Option<string>, fileExists: string -> bool): (r: Option<Result<string, RewriteError>>)
    ensures r.Some? <==> EndsWith(pathname, "/")
    ensures r.Some? ==> r.value == HistoryTo(root, pathname, decode, fileExists)
    ensures r.Some? && r.value.Ok? ==> EndsWith(r.value.value, "index.html")
  {
    if EndsWith(pathname, "/") then Some(HistoryTo(root, pathname, decode, fileExists)) else None
  }

  /**
   * The project `/proj` has `docs/index.html`, the file system root has no
   * `/docs/index.html`: the as-written rewrite of `/docs/` falls back to
   * `/index.html`, the corrected one serves the directory's own page.
   */
  lemma HistoryToAsWrittenMissesProjectFile()
    ensures HistoryToAsWritten("/proj", "/docs/", p => Some(p), p => p == "/proj/docs/index.html") == Ok(RootIndex)
    ensures HistoryTo("/proj", "/docs/", p => Some(p), p => p == "/proj/docs/index.html") == Ok("/docs/index.html")
  {
    assert ResolvePath("/proj", "/docs/index.html") == "/docs/index.html";
    assert JoinPath("/proj", "/docs/index.html") == "/proj/docs/index.html";
  }
}
