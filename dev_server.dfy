/**
 * The server object `createServer` builds: its connect middleware chain, the
 * watcher handlers wired to the WebSocket channel, and the `listen` wrapper
 * with its one-shot `isOptimized` latch.
 */
module DevServer {
  import opened Wrappers
  import opened HotUpdate

  /** The middlewares `createServer` registers, one constructor per `middlewares.use` call. */
  datatype Middleware =
    | Logger     // logs `req.url`, then `next()`
    | Transform  // transformMiddleware(pluginContainer)
    | Static     // sirv static files
    | History    // connect-history-api-fallback with the `to` rewrite
    | IndexHtml  // indexHtmlMiddleware(root)
    | NotFound   // status 404, body `<h1>Page 404</h1>`, never calls `next()`

  /** The chain in registration order. */
  const StandardChain: seq<Middleware> := [Logger, Transform, Static, History, IndexHtml, NotFound]

  /** The three middlewares whose code is not part of this model: each may answer a request or pass it on. */
  predicate IsCollaborator(m: Middleware) {
    m == Transform || m == Static || m == IndexHtml
  }

  /**
   * How a request leaves the chain: answered by a middleware (which saw
   * `url`); failed, when the history rewrite threw and connect handed the
   * error past every remaining middleware, none of which takes an error; or
   * unhandled, when it fell off the end of the chain. The last two end in
   * connect's own final handler.
   */
  datatype Outcome = Answered(handler: Middleware, url: string) | Failed | Unhandled

  /**
   * Runs a request for `url` down `chain`, as connect does: each middleware
   * either answers or calls `next()`. The logger always passes the request on.
   * The history middleware passes it on with the URL `rewrite` gives, or fails
   * (`None`) when its `to` callback throws, as `decodeURIComponent` does on a
   * malformed escape. The 404 handler always answers, with status 404 and body
   * `<h1>Page 404</h1>`. Whether the transform, static and index-html
   * middlewares answer is the oracle `answers`.
   */
  function RunChain(chain: seq<Middleware>, url: string, rewrite: string -> Option<string>,
                    answers: (Middleware, string) -> bool): (r: Outcome)
    ensures r.Answered? ==> r.handler in chain
    ensures r.Answered? && r.handler != NotFound ==> IsCollaborator(r.handler) && answers(r.handler, r.url)
    ensures r.Failed? ==> History in chain
    ensures r.Unhandled? <==> NotFound !in chain && !r.Failed? && !r.Answered?
    ensures NotFound in chain && History !in chain ==> r.Answered?
    ensures History !in chain && r.Answered? ==> r.url == url
    decreases |chain|
  {
    if chain == [] then Unhandled
    else
      match chain[0]
      case Logger => RunChain(chain[1..], url, rewrite, answers)
      case History =>
        (match rewrite(url)
         case None => Failed
         case Some(u) => RunChain(chain[1..], u, rewrite, answers))
      case NotFound => Answered(NotFound, url)
      case _ =>
        if answers(chain[0], url) then Answered(chain[0], url)
        else RunChain(chain[1..], url, rewrite, answers)
  }

  /** `m` answers `url` when it reaches it: the 404 handler, or a collaborator that claims it. */
  predicate Takes(m: Middleware, url: string, answers: (Middleware, string) -> bool) {
    m == NotFound || (IsCollaborator(m) && answers(m, url))
  }

  /** `m` passes `url` on unchanged: the logger, or a collaborator that declines it. */
  predicate PassesOn(m: Middleware, url: string, answers: (Middleware, string) -> bool) {
    m == Logger || (IsCollaborator(m) && !answers(m, url))
  }

  /**
   * The first middleware willing to answer is the one that answers: if every
   * middleware before position `k` passes the request on, and the one at `k`
   * takes it, the request is answered there.
   */
  lemma {:induction false} RunChainFirstAnswerWins(chain: seq<Middleware>, url: string,
                                                   rewrite: string -> Option<string>,
                                                   answers: (Middleware, string) -> bool, k: nat)
    requires k < |chain| && Takes(chain[k], url, answers)
    requires forall j :: 0 <= j < k ==> PassesOn(chain[j], url, answers)
    ensures RunChain(chain, url, rewrite, answers) == Answered(chain[k], url)
    decreases k
  {
    if k > 0 {
      assert PassesOn(chain[0], url, answers);
      assert forall j :: 0 <= j < k - 1 ==> chain[1..][j] == chain[j + 1];
      RunChainFirstAnswerWins(chain[1..], url, rewrite, answers, k - 1);
    }
  }

  /**
   * The registered chain. The transform middleware sees the request first,
   * with the URL unchanged, then the static middleware. If both decline, a
   * failing history rewrite ends the request in connect's error handler, past
   * the index-html and 404 middlewares. Otherwise the index-html middleware
   * sees the rewritten URL, and the 404 handler answers exactly when nobody
   * else did. No request falls off the end.
   */
  lemma StandardChainAnswers(url: string, rewrite: string -> Option<string>, answers: (Middleware, string) -> bool)
    ensures !RunChain(StandardChain, url, rewrite, answers).Unhandled?
    ensures RunChain(StandardChain, url, rewrite, answers) == Answered(Transform, url) <==> answers(Transform, url)
    ensures RunChain(StandardChain, url, rewrite, answers) == Answered(Static, url) <==>
      !answers(Transform, url) && answers(Static, url)
    ensures RunChain(StandardChain, url, rewrite, answers).Failed? <==>
      !answers(Transform, url) && !answers(Static, url) && rewrite(url).None?
    ensures rewrite(url).Some? ==>
      (RunChain(StandardChain, url, rewrite, answers) == Answered(IndexHtml, rewrite(url).value) <==>
        !answers(Transform, url) && !answers(Static, url) && answers(IndexHtml, rewrite(url).value))
    ensures rewrite(url).Some? ==>
      (RunChain(StandardChain, url, rewrite, answers) == Answered(NotFound, rewrite(url).value) <==>
        !answers(Transform, url) && !answers(Static, url) && !answers(IndexHtml, rewrite(url).value))
  {
    StandardChainSteps(url, rewrite, answers);
  }

  /** Helper: the registered chain, unfolded one middleware at a time. */
  lemma StandardChainSteps(url: string, rewrite: string -> Option<string>, answers: (Middleware, string) -> bool)
    ensures RunChain(StandardChain, url, rewrite, answers) ==
      if answers(Transform, url) then Answered(Transform, url)
      else if answers(Static, url) then Answered(Static, url)
      else match rewrite(url)
        case None => Failed
        case Some(u) => if answers(IndexHtml, u) then Answered(IndexHtml, u) else Answered(NotFound, u)
  {
    var c := StandardChain;
    var fromHistory: seq<Middleware> := [History, IndexHtml, NotFound];
    assert c[1..] == [Transform, Static, History, IndexHtml, NotFound];
    assert c[1..][1..] == [Static, History, IndexHtml, NotFound];
    assert c[1..][1..][1..] == fromHistory;
    HistoryStep(url, rewrite, answers);
  }

  /** Helper: the last three middlewares of the registered chain. */
  lemma HistoryStep(url: string, rewrite: string -> Option<string>, answers: (Middleware, string) -> bool)
    ensures RunChain([History, IndexHtml, NotFound], url, rewrite, answers) ==
      match rewrite(url)
        case None => Failed
        case Some(u) => if answers(IndexHtml, u) then Answered(IndexHtml, u) else Answered(NotFound, u)
  {
    var c: seq<Middleware> := [History, IndexHtml, NotFound];
    assert c[1..] == [IndexHtml, NotFound];
    assert c[1..][1..] == [NotFound];
  }

  /** The `listen` wrapper's state: the latch, how often its branch ran, and the ports forwarded. */
  datatype ListenState = ListenState(isOptimized: bool, optimizeRuns: nat, forwarded: seq<int>)

  const InitialListenState: ListenState := ListenState(false, 0, [])

  /** One call of the wrapped `httpServer.listen(port)`. */
  function ListenStep(s: ListenState, port: int): (r: ListenState)
    ensures r.isOptimized
    ensures r.forwarded == s.forwarded + [port]
    ensures r.optimizeRuns == if s.isOptimized then s.optimizeRuns else s.optimizeRuns + 1
  {
    if !s.isOptimized then ListenState(true, s.optimizeRuns + 1, s.forwarded + [port])
    else ListenState(true, s.optimizeRuns, s.forwarded + [port])
  }

  /** A sequence of `listen` calls, in order. */
  function ListenAll(s: ListenState, ports: seq<int>): (r: ListenState)
    ensures ports != [] ==> r.isOptimized
    ensures |r.forwarded| == |s.forwarded| + |ports|
    decreases |ports|
  {
    if ports == [] then s else ListenAll(ListenStep(s, ports[0]), ports[1..])
  }

  /**
   * The latch is one-shot: after any calls, `isOptimized` is set exactly when
   * there was at least one call, the optimisation branch has run at most once
   * in all, and every port was forwarded, in order.
   */
  lemma {:induction false} ListenAllLatches(s: ListenState, ports: seq<int>)
    ensures ListenAll(s, ports).isOptimized == (s.isOptimized || |ports| > 0)
    ensures ListenAll(s, ports).optimizeRuns == s.optimizeRuns + (if !s.isOptimized && |ports| > 0 then 1 else 0)
    ensures ListenAll(s, ports).forwarded == s.forwarded + ports
    decreases |ports|
  {
    if ports != [] {
      ListenAllLatches(ListenStep(s, ports[0]), ports[1..]);
      assert s.forwarded + [ports[0]] + ports[1..] == s.forwarded + ports;
    }
  }

  /** From a fresh server, the branch runs once at most, whatever the calls. */
  lemma OptimizeRunsAtMostOnce(ports: seq<int>)
    ensures ListenAll(InitialListenState, ports).optimizeRuns == if ports == [] then 0 else 1
    ensures ListenAll(InitialListenState, ports).forwarded == ports
  {
    ListenAllLatches(InitialListenState, ports);
  }

  /** The port `server.listen()` passes on through `startServer`. */
  const DefaultPort: int := 3000

  /** The object `createServer` returns, with the state its closures share. */
  class Server {
    const root: string
    /** The middleware stack, in `use` order. */
    var middlewares: seq<Middleware>
    /** Every payload handed to `ws.send`, in order. */
    var sent: seq<HmrPayload>
    var isOptimized: bool
    /** How many times the optimisation branch of the `listen` wrapper has run. */
    ghost var optimizeRuns: nat
    /** The ports passed on to the original `httpServer.listen`. */
    var forwardedPorts: seq<int>

    ghost function Listening(): ListenState
      reads this
    {
      ListenState(isOptimized, optimizeRuns, forwardedPorts)
    }

    /** `createServer`: registers the six middlewares in order; nothing sent, not yet listening. */
    constructor (root: string)
      ensures this.root == root
      ensures middlewares == StandardChain
      ensures sent == []
      ensures Listening() == InitialListenState
    {
      this.root := root;
      middlewares := [];
      sent := [];
      isOptimized := false;
      optimizeRuns := 0;
      forwardedPorts := [];
      new;
      Use(Logger);
      Use(Transform);
      Use(Static);
      Use(History);
      Use(IndexHtml);
      Use(NotFound);
    }

    /** `middlewares.use(m)` appends to the stack. */
    method Use(m: Middleware)
      modifies this`middlewares
      ensures middlewares == old(middlewares) + [m]
    {
      middlewares := middlewares + [m];
    }

    /** The watcher's handler for `ev`: sends the event's payloads, if any. */
    method OnWatchEvent(ev: WatchEvent)
      modifies this`sent
      ensures sent == old(sent) + HotUpdate.OnWatchEvent(ev, root)
    {
      match ev.kind
      case Change =>
        sent := sent + [ChangePayload(ev.file, root, ev.now)];
      case Add =>
      case Unlink =>
    }

    /** The wrapped `httpServer.listen(port)`: sets the latch once, always forwards `port`. */
    method Listen(port: int)
      modifies this`isOptimized, this`optimizeRuns, this`forwardedPorts
      ensures Listening() == ListenStep(old(Listening()), port)
    {
      if !isOptimized {
        isOptimized := true;
        optimizeRuns := optimizeRuns + 1;
      }
      forwardedPorts := forwardedPorts + [port];
    }

    /** `server.listen()`, through `startServer(server, 3000)`. */
    method Start()
      modifies this`isOptimized, this`optimizeRuns, this`forwardedPorts
      ensures Listening() == ListenStep(old(Listening()), DefaultPort)
    {
      Listen(DefaultPort);
    }
  }
}
