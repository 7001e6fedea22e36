/**
 * The file watcher's handlers: how a filesystem event becomes zero or one
 * hot-module-replacement payload for the WebSocket channel.
 */
module HotUpdate {
  import opened Text
  import opened Patterns

  datatype UpdateKind = JsUpdate | CssUpdate

  /** One entry of an `update` payload: `{ type, file, timestamp }`. */
  datatype Update = Update(kind: UpdateKind, file: string, timestamp: int)

  /** `{ type: 'full-reload', path }` or `{ type: 'update', updates }`. */
  datatype HmrPayload = FullReload(path: string) | UpdateBatch(updates: seq<Update>)

  /** The three watcher events the server subscribes to. */
  datatype WatchEventKind = Change | Add | Unlink

  /**
   * A watcher event for `file`; `now` is what `Date.now()` returns while its
   * handler runs (the clock is a parameter of the model).
   */
  datatype WatchEvent = WatchEvent(kind: WatchEventKind, file: string, now: int)

  /** The `change` handler's payload for `file`, with the project `root` and clock reading `now`. */
  function ChangePayload(file: string, root: string, now: int): (r: HmrPayload)
    ensures r.FullReload? <==> EndsWith(file, ".html")
    ensures r.FullReload? ==> r.path == file
    ensures r.UpdateBatch? ==> |r.updates| == 1
    ensures r.UpdateBatch? ==> (r.updates[0].kind == JsUpdate <==> UpdateRegexMatches(file))
    ensures r.UpdateBatch? ==> r.updates[0].file == RemoveFirst(file, root)
    ensures r.UpdateBatch? ==> r.updates[0].timestamp == now
  {
    if EndsWith(file, ".html") then
      FullReload(file)
    else
      UpdateBatch([Update(if IsJsUpdatePath(file) then JsUpdate else CssUpdate, RemoveFirst(file, root), now)])
  }

  /** The payloads one event hands to `ws.send`: one for `change`, none for `add` and `unlink`. */
  function OnWatchEvent(ev: WatchEvent, root: string): (r: seq<HmrPayload>)
    ensures |r| <= 1
    ensures r == [] <==> ev.kind != Change
    ensures ev.kind == Change ==> r == [ChangePayload(ev.file, root, ev.now)]
  {
    match ev.kind
    case Change => [ChangePayload(ev.file, root, ev.now)]
    case Add => []
    case Unlink => []
  }

  /** All payloads sent for a sequence of events, in the order the events arrive. */
  function Dispatch(events: seq<WatchEvent>, root: string): (r: seq<HmrPayload>)
    ensures |r| <= |events|
    ensures (forall i :: 0 <= i < |events| ==> events[i].kind != Change) ==> r == []
  {
    if events == [] then []
    else OnWatchEvent(events[0], root) + Dispatch(events[1..], root)
  }

  /** The `change` events among `events`, in order. */
  function Changes(events: seq<WatchEvent>): seq<WatchEvent> {
    if events == [] then []
    else (if events[0].kind == Change then [events[0]] else []) + Changes(events[1..])
  }

  /**
   * Each `change` event yields its own payload and nothing else does: the
   * k-th payload sent is the payload of the k-th `change` event.
   */
  lemma {:induction false} DispatchIsPerChange(events: seq<WatchEvent>, root: string)
    ensures |Dispatch(events, root)| == |Changes(events)|
    ensures forall k :: 0 <= k < |Changes(events)| ==>
      Dispatch(events, root)[k] == ChangePayload(Changes(events)[k].file, root, Changes(events)[k].now)
  {
    if events != [] {
      var rest := events[1..];
      DispatchIsPerChange(rest, root);
      assert Dispatch(events, root) == OnWatchEvent(events[0], root) + Dispatch(rest, root);
      if events[0].kind == Change {
        assert Changes(events) == [events[0]] + Changes(rest);
        forall k | 0 <= k < |Changes(events)|
          ensures Dispatch(events, root)[k] == ChangePayload(Changes(events)[k].file, root, Changes(events)[k].now)
        {
          if k > 0 {
            assert Changes(events)[k] == Changes(rest)[k - 1];
            assert Dispatch(events, root)[k] == Dispatch(rest, root)[k - 1];
          }
        }
      } else {
        assert Changes(events) == Changes(rest);
        assert Dispatch(events, root) == Dispatch(rest, root);
      }
    }
  }

  /** No batching or reordering across events: dispatching `a` then `b` sends `a`'s payloads, then `b`'s. */
  lemma {:induction false} DispatchAppend(a: seq<WatchEvent>, b: seq<WatchEvent>, root: string)
    ensures Dispatch(a + b, root) == Dispatch(a, root) + Dispatch(b, root)
  {
    if a == [] {
      assert a + b == b;
    } else {
      assert (a + b)[1..] == a[1..] + b;
      DispatchAppend(a[1..], b, root);
    }
  }

  /** For a file the watcher reports under `root`, the update entry names it relative to `root`. */
  lemma ChangeUnderRootIsRootRelative(file: string, root: string, now: int)
    requires StartsWith(file, root) && !EndsWith(file, ".html")
    ensures ChangePayload(file, root, now).updates == [Update(
      if UpdateRegexMatches(file) then JsUpdate else CssUpdate, file[|root|..], now)]
  {
    RemoveFirstOfPrefix(file, root);
  }

  /** An HTML page reloads the whole page, with the path exactly as the watcher reported it. */
  lemma HtmlChangeExample()
    ensures ChangePayload("index.html", "/proj", 5) == FullReload("index.html")
    ensures ChangePayload("/proj/index.html", "/proj", 5) == FullReload("/proj/index.html")
  {
  }

  /** A `.ts` module under the root becomes a root-relative JS update. */
  lemma TsChangeExample()
    ensures ChangePayload("/proj/src/main.ts", "/proj", 7) == UpdateBatch([Update(JsUpdate, "/src/main.ts", 7)])
  {
    var f := "/proj/src/main.ts";
    RemoveFirstOfPrefix(f, "/proj");
    assert f[|"/proj"|..] == "/src/main.ts";
    assert UpdateRegexMatchesAt(f, 14);
  }

  /** A text file also counts as a JS update, because `.t` occurs in `.txt`. */
  lemma TxtChangeExample()
    ensures ChangePayload("/proj/notes.txt", "/proj", 8) == UpdateBatch([Update(JsUpdate, "/notes.txt", 8)])
  {
    var f := "/proj/notes.txt";
    RemoveFirstOfPrefix(f, "/proj");
    assert f[|"/proj"|..] == "/notes.txt";
    assert UpdateRegexMatchesAt(f, 11);
  }

  /** A `.jsx` module is classed as a CSS update: `js` is not at the end and there is no `.t`. */
  // The inputs are fixed by `requires` rather than written as literals: on
  // literal arguments the verifier unrolls `IndexOf` to the end of the string.
  lemma JsxChangeExample(file: string, root: string, now: int)
    requires file == "/proj/App.jsx" && root == "/proj"
    ensures ChangePayload(file, root, now) == UpdateBatch([Update(CssUpdate, "/App.jsx", now)])
  {
    NoUpdateMatch(file);
    RemoveFirstOfPrefix(file, root);
    assert file[|root|..] == "/App.jsx";
  }
}
