/**
 * The debugger proxy in front of the debugging middleware: the per-request
 * dispatch decision, the capture store (frames and tracebacks by id), the
 * run of the wrapped application with exception capture, and the replay of
 * a stored capture's console.
 */
module Debugger {

  import opened Wrappers
  import opened PyText
  import opened Tracebacks

  const DefaultDebuggerPath := "/dbg-console"

  const Status500 := "500 INTERNAL SERVER ERROR"
  const Status200 := "200 OK"

  /** Every debugger-originated response carries these two headers. */
  const DebugHeaders: seq<(string, string)> :=
    [("Content-Type", "text/html; charset=utf-8"), ("X-XSS-Protection", "0")]

  /** Written to `wsgi.errors` when the response headers can no longer be sent. */
  const HeadersSentNotice :=
    "Debugging middleware caught exception in streamed response at a point where response headers were already sent.\n"

  /** What Python raises for `str + None`. */
  const ConcatTypeError :=
    Exc("TypeError", "TypeError: can only concatenate str (not \"NoneType\") to str", Ordinary)

  /**
   * The parts of a request the proxy looks at: `request.path`, the first
   * value of each query argument (`request.args.get`), and the Host header.
   */
  datatype Request = Request(path: string, args: map<string, string>, host: Option<string>)

  /**
   * The proxy's settings: the console path (`None` switches the console
   * off), link mode, the process secret and the middleware's `evalex` flag.
   */
  datatype Config = Config(debuggerPath: Option<string>, useLink: bool, secret: string, evalex: bool)

  /** The dispatch decision: replay a stored capture, or hand the request to the parent middleware. */
  datatype Dispatch = Console(traceback: Traceback) | Delegate

  /** `request.args.get('tb', type=int)`: `None` when missing or not an integer. */
  function TbArg(req: Request): (id: Option<int>)
  {
    match Get(req.args, "tb")
    case None => None
    case Some(v) => ParseInt(v)
  }

  /** All six conditions under which a stored console is replayed. */
  ghost predicate ConsoleRequested(cfg: Config, tracebacks: map<int, Traceback>, req: Request)
  {
    && Get(req.args, "__debugger__") != Some("yes")
    && cfg.debuggerPath == Some(req.path)
    && cfg.useLink
    && Get(req.args, "s") == Some(cfg.secret)
    && TbArg(req).Some?
    && TbArg(req).value in tracebacks
  }

  /**
   * The dispatch of `__call__`. A request that misses any condition (wrong or
   * missing secret, unknown or non-integer id, link mode off) is delegated,
   * never answered with an error.
   */
  function Route(cfg: Config, tracebacks: map<int, Traceback>, req: Request): (r: Dispatch)
    ensures r.Console? <==> ConsoleRequested(cfg, tracebacks, req)
    ensures r.Console? ==> r.traceback == tracebacks[TbArg(req).value]
  {
    if Get(req.args, "__debugger__") != Some("yes") && cfg.debuggerPath.Some?
      && req.path == cfg.debuggerPath.value && cfg.useLink
    then
      var secret := Get(req.args, "s");
      var key := TbArg(req);
      var traceback := if key.Some? then Get(tracebacks, key.value) else None;
      if secret == Some(cfg.secret) && traceback.Some? then Console(traceback.value) else Delegate
    else
      Delegate
  }

  /** What `get_debugger_path` produces: a string or `None`, or the `TypeError` of `str + None`. */
  datatype PathResult = Path(value: Option<string>) | RaisesTypeError

  /** `get_debugger_path`: the console path, prefixed with the Host header when it is non-empty. */
  function GetDebuggerPath(debuggerPath: Option<string>, host: Option<string>): (r: PathResult)
    ensures (host.None? || host.value == []) ==> r == Path(debuggerPath)
    ensures host.Some? && host.value != [] && debuggerPath.Some? ==>
      r == Path(Some(host.value + debuggerPath.value))
    ensures host.Some? && host.value != [] && debuggerPath.None? ==> r == RaisesTypeError
  {
    match host
    case Some(h) =>
      if h == [] then Path(debuggerPath)
      else if debuggerPath.None? then RaisesTypeError
      else Path(Some(h + debuggerPath.value))
    case None => Path(debuggerPath)
  }

  // ---------------------------------------------------------------------------
  // The frame store.

  /** The ids of a sequence of frames. */
  ghost function FrameIds(fs: seq<Frame>): (ids: set<int>)
  {
    set f | f in fs :: f.id
  }

  /** No two frames of the sequence share an id. */
  ghost predicate DistinctIds(fs: seq<Frame>)
  {
    forall i, j :: 0 <= i < j < |fs| ==> fs[i].id != fs[j].id
  }

  /** `for frame in frames: store[frame.id] = frame`, as a value. */
  function RegisterFrames(m: map<int, Frame>, fs: seq<Frame>): (r: map<int, Frame>)
    decreases |fs|
    ensures r.Keys == m.Keys + FrameIds(fs)
  {
    if fs == [] then m
    else
      var last := fs[|fs| - 1];
      assert fs == fs[..|fs| - 1] + [last];
      RegisterFrames(m, fs[..|fs| - 1])[last.id := last]
  }

  /** Registering frames leaves every other key of the store as it was. */
  lemma {:induction false} RegisterFramesKeeps(m: map<int, Frame>, fs: seq<Frame>, k: int)
    requires k in m && k !in FrameIds(fs)
    ensures RegisterFrames(m, fs)[k] == m[k]
    decreases |fs|
  {
    if fs != [] {
      assert fs == fs[..|fs| - 1] + [fs[|fs| - 1]];
      assert k !in FrameIds(fs[..|fs| - 1]);
      RegisterFramesKeeps(m, fs[..|fs| - 1], k);
    }
  }

  /** With distinct ids, every registered frame is found under its own id. */
  lemma {:induction false} RegisterFramesFinds(m: map<int, Frame>, fs: seq<Frame>, i: int)
    requires DistinctIds(fs) && 0 <= i < |fs|
    ensures RegisterFrames(m, fs)[fs[i].id] == fs[i]
    decreases |fs|
  {
    var n := |fs| - 1;
    if i < n {
      assert fs == fs[..n] + [fs[n]];
      RegisterFramesFinds(m, fs[..n], i);
    }
  }

  /**
   * The store after registering a capture's frames: every frame is found
   * under its id (ids being distinct), the keys are the old ones plus the
   * capture's, and every other key keeps its frame.
   */
  lemma {:induction false} RegisterFramesStore(m: map<int, Frame>, fs: seq<Frame>)
    requires DistinctIds(fs)
    ensures forall i :: 0 <= i < |fs| ==> RegisterFrames(m, fs)[fs[i].id] == fs[i]
    ensures RegisterFrames(m, fs).Keys == m.Keys + FrameIds(fs)
    ensures forall k :: k in m && k !in FrameIds(fs) ==> RegisterFrames(m, fs)[k] == m[k]
  {
    forall i | 0 <= i < |fs| ensures RegisterFrames(m, fs)[fs[i].id] == fs[i] {
      RegisterFramesFinds(m, fs, i);
    }
    forall k | k in m && k !in FrameIds(fs) ensures RegisterFrames(m, fs)[k] == m[k] {
      RegisterFramesKeeps(m, fs, k);
    }
  }

  /**
   * Two captures whose frame ids are disjoint do not disturb each other:
   * after the second, the first capture's frames are all still in place.
   */
  lemma SecondCaptureKeepsFirst(m: map<int, Frame>, first: seq<Frame>, second: seq<Frame>, i: int)
    requires DistinctIds(first) && FrameIds(first) !! FrameIds(second)
    requires 0 <= i < |first|
    ensures RegisterFrames(RegisterFrames(m, first), second)[first[i].id] == first[i]
  {
    RegisterFramesFinds(m, first, i);
    assert first[i].id in FrameIds(first);
    RegisterFramesKeeps(RegisterFrames(m, first), second, first[i].id);
  }

  // ---------------------------------------------------------------------------
  // Responses and the wrapped application's run.

  /** A body item: text, or werkzeug's full console page for a traceback (`render_full`). */
  datatype Item = Chunk(text: string) | FullPage(traceback: Traceback, evalex: bool, trusted: bool, secret: string)

  /** A write to `wsgi.errors`: a plain notice, or werkzeug's log of a traceback (`traceback.log`). */
  datatype ErrorWrite = Notice(text: string) | TracebackLog(traceback: Traceback)

  /** A call of `start_response` made by the proxy itself. */
  datatype StartCall = StartCall(status: string, headers: seq<(string, string)>)

  /**
   * What one request through the proxy produces: the proxy's own
   * `start_response` call, the streamed body, the error-stream writes, and
   * an exception that leaves the proxy uncaught.
   */
  datatype Response = Response(started: Option<StartCall>, body: seq<Item>, errors: seq<ErrorWrite>, raised: Option<Exc>)

  /** The exception the wrapped application raised and its traceback chain. */
  datatype Fault = Fault(exc: Exc, tb: TbNode)

  /** The wrapped application's run: the items it yields, then possibly an exception. */
  datatype AppRun = AppRun(items: seq<Item>, fault: Option<Fault>)

  /** The capture `debug_application` registers for an ordinary fault (one frame skipped). */
  ghost function Captured(f: Fault, tbId: int): (t: Traceback)
    requires f.tb.Valid()
  {
    Traceback(tbId, f.exc.typeName, f.exc.text, f.tb.Frames()[SkipIndex(1, f.tb.len)..])
  }

  /**
   * The answer to a request whose application raised, once capture `t` is
   * stored: the items already streamed come first; a failed `start_response`
   * leaves only the notice and the log on the error stream; otherwise a 500
   * with the two debug headers and the link page (link mode) or the full
   * console, unless the host-prefixed path raises `TypeError`.
   */
  ghost predicate ErrorReply(cfg: Config, req: Request, items: seq<Item>, t: Traceback,
                             startResponseOk: bool, pinTrusted: bool, resp: Response)
  {
    && |resp.body| >= |items| && resp.body[..|items|] == items
    && (!startResponseOk ==>
          resp == Response(None, items, [Notice(HeadersSentNotice), TracebackLog(t)], None))
    && (startResponseOk ==> resp.started == Some(StartCall(Status500, DebugHeaders)))
    && (startResponseOk && !cfg.useLink ==>
          && resp.body == items + [FullPage(t, cfg.evalex, pinTrusted, cfg.secret)]
          && resp.errors == [TracebackLog(t)] && resp.raised == None)
    && (startResponseOk && cfg.useLink ==>
          match GetDebuggerPath(cfg.debuggerPath, req.host)
          case Path(p) =>
            && resp.body == items + [Chunk(RenderLink(t, cfg.secret, p))]
            && resp.errors == [TracebackLog(t)] && resp.raised == None
          case RaisesTypeError =>
            resp.body == items && resp.errors == [] && resp.raised == Some(ConcatTypeError))
  }

  /**
   * The replay of capture `t`: a 200 with the two debug headers and the full
   * console, or, when `start_response` fails, only the notice; the traceback
   * is logged either way.
   */
  ghost predicate ConsoleReply(cfg: Config, t: Traceback, startResponseOk: bool, pinTrusted: bool, resp: Response)
  {
    && resp.raised == None
    && (startResponseOk ==>
          && resp.started == Some(StartCall(Status200, DebugHeaders))
          && resp.body == [FullPage(t, cfg.evalex, pinTrusted, cfg.secret)]
          && resp.errors == [TracebackLog(t)])
    && (!startResponseOk ==>
          resp.started == None && resp.body == [] && resp.errors == [Notice(HeadersSentNotice), TracebackLog(t)])
  }

  /**
   * `RunDbgDebuggedApplication`: the proxy with its settings and the store of
   * captured frames and tracebacks, both keyed by id.
   */
  class DebuggedApp {
    const cfg: Config
    var frames: map<int, Frame>
    var tracebacks: map<int, Traceback>

    /**
     * `__init__`: `debugger_path` and `use_link` are keyword arguments
     * (`None` here means not passed) with defaults `'/dbg-console'` and
     * `False`; the store starts empty.
     */
    constructor (debuggerPathKw: Option<Option<string>>, useLinkKw: Option<bool>, secret: string, evalex: bool)
      ensures cfg.debuggerPath == debuggerPathKw.GetOr(Some(DefaultDebuggerPath))
      ensures cfg.useLink == useLinkKw.GetOr(false)
      ensures cfg.secret == secret && cfg.evalex == evalex
      ensures frames == map[] && tracebacks == map[]
    {
      cfg := Config(debuggerPathKw.GetOr(Some(DefaultDebuggerPath)), useLinkKw.GetOr(false), secret, evalex);
      frames := map[];
      tracebacks := map[];
    }

    /** Registers a capture: every frame under its id, then the traceback under its id. */
    method Register(t: Traceback)
      modifies this
      ensures frames == RegisterFrames(old(frames), t.frames)
      ensures tracebacks == old(tracebacks)[t.id := t]
      ensures DistinctIds(t.frames) ==> forall f :: f in t.frames ==> frames[f.id] == f
      ensures forall k :: k in old(frames) && k !in FrameIds(t.frames) ==> frames[k] == old(frames)[k]
    {
      for i := 0 to |t.frames|
        invariant frames == RegisterFrames(old(frames), t.frames[..i])
        invariant tracebacks == old(tracebacks)
      {
        assert t.frames[..i + 1][..i] == t.frames[..i];
        frames := frames[t.frames[i].id := t.frames[i]];
      }
      assert t.frames[..|t.frames|] == t.frames;
      tracebacks := tracebacks[t.id := t];
      forall k | k in old(frames) && k !in FrameIds(t.frames) ensures frames[k] == old(frames)[k] {
        RegisterFramesKeeps(old(frames), t.frames, k);
      }
      if DistinctIds(t.frames) {
        forall f | f in t.frames ensures frames[f.id] == f {
          var i :| 0 <= i < |t.frames| && t.frames[i] == f;
          RegisterFramesFinds(old(frames), t.frames, i);
        }
      }
    }

    /**
     * The answer once capture `t` is stored: after the items already
     * streamed, a 500 with the link page or the full console; the notice on
     * the error stream when `start_response` fails.
     */
    method ErrorResponse(req: Request, items: seq<Item>, t: Traceback, startResponseOk: bool, pinTrusted: bool)
      returns (resp: Response)
      ensures ErrorReply(cfg, req, items, t, startResponseOk, pinTrusted, resp)
    {
      if !startResponseOk {
        resp := Response(None, items, [Notice(HeadersSentNotice), TracebackLog(t)], None);
      } else {
        var started := Some(StartCall(Status500, DebugHeaders));
        if cfg.useLink {
          var path := GetDebuggerPath(cfg.debuggerPath, req.host);
          if path.RaisesTypeError? {
            resp := Response(started, items, [], Some(ConcatTypeError));
          } else {
            var rendered := RenderLink(t, cfg.secret, path.value);
            resp := Response(started, items + [Chunk(rendered)], [TracebackLog(t)], None);
          }
        } else {
          resp := Response(started, items + [FullPage(t, cfg.evalex, pinTrusted, cfg.secret)], [TracebackLog(t)], None);
        }
      }
    }

    /**
     * `debug_application`: stream the application's items unchanged; on an
     * ordinary exception capture it, register every frame and the traceback,
     * and answer as `ErrorReply` says. System-level exceptions pass through
     * uncaught and capture nothing.
     */
    method DebugApplication(req: Request, run: AppRun, startResponseOk: bool, pinTrusted: bool, tbId: int)
      returns (resp: Response)
      requires run.fault.Some? ==> run.fault.value.tb.Valid()
      modifies this
      ensures |resp.body| >= |run.items| && resp.body[..|run.items|] == run.items
      ensures run.fault.None? ==>
        && resp == Response(None, run.items, [], None)
        && frames == old(frames) && tracebacks == old(tracebacks)
      ensures run.fault.Some? && run.fault.value.exc.kind == SystemLevel ==>
        && resp == Response(None, run.items, [], Some(run.fault.value.exc))
        && frames == old(frames) && tracebacks == old(tracebacks)
      ensures run.fault.Some? && run.fault.value.exc.kind == Ordinary ==>
        var t := Captured(run.fault.value, tbId);
        && tracebacks == old(tracebacks)[t.id := t]
        && frames == RegisterFrames(old(frames), t.frames)
        && ErrorReply(cfg, req, run.items, t, startResponseOk, pinTrusted, resp)
    {
      resp := Response(None, run.items, [], None);
      if run.fault.None? {
        return;
      }
      var fault := run.fault.value;
      if fault.exc.kind == SystemLevel {
        resp := resp.(raised := Some(fault.exc));
        return;
      }
      var captured := GetCurrentTraceback(fault.exc, fault.tb, true, 1, tbId);
      var t := captured.value;
      Register(t);
      resp := ErrorResponse(req, run.items, t, startResponseOk, pinTrusted);
    }

    /**
     * `debugger_console`: answer 200 with the stored capture's full console,
     * or write the notice when `start_response` fails; the traceback is
     * logged either way. Reads the store and changes nothing.
     */
    method DebuggerConsole(t: Traceback, startResponseOk: bool, pinTrusted: bool) returns (resp: Response)
      ensures ConsoleReply(cfg, t, startResponseOk, pinTrusted, resp)
    {
      if !startResponseOk {
        resp := Response(None, [], [Notice(HeadersSentNotice), TracebackLog(t)], None);
      } else {
        resp := Response(Some(StartCall(Status200, DebugHeaders)), [FullPage(t, cfg.evalex, pinTrusted, cfg.secret)], [TracebackLog(t)], None);
      }
    }

    /**
     * `__call__`: replay the stored console when the request asks for it
     * with the right secret and a known id; `None` stands for handing the
     * request to the parent middleware. The store is only read.
     */
    method Call(req: Request, startResponseOk: bool, pinTrusted: bool) returns (resp: Option<Response>)
      ensures resp.Some? <==> ConsoleRequested(cfg, tracebacks, req)
      ensures resp.Some? ==>
        ConsoleReply(cfg, tracebacks[TbArg(req).value], startResponseOk, pinTrusted, resp.value)
    {
      var route := Route(cfg, tracebacks, req);
      if route.Console? {
        var r := DebuggerConsole(route.traceback, startResponseOk, pinTrusted);
        return Some(r);
      }
      return None;
    }
  }

  /**
   * The console path the link page should name: the bare console path,
   * whatever the Host header says. Where the Host header is missing or
   * empty it is what `GetDebuggerPath` gives.
   */
  function IntendedDebuggerPath(debuggerPath: Option<string>, host: Option<string>): (r: Option<string>)
    ensures (host.None? || host.value == []) ==> GetDebuggerPath(debuggerPath, host) == Path(r)
  {
    debuggerPath
  }

  /**
   * With the intended console path, the link of a capture just registered
   * reaches that capture's console for every Host header: the page names the
   * console path with the secret as `s` and the id as `tb`, and a request to
   * that path with those arguments replays the capture.
   */
  lemma IntendedLinkReachesConsole(cfg: Config, tracebacks: map<int, Traceback>, t: Traceback, host: Option<string>)
    requires cfg.useLink && cfg.debuggerPath.Some?
    ensures var p := cfg.debuggerPath.value;
      var req := Request(p, map["s" := cfg.secret, "tb" := IntToString(t.id)], host);
      && IntendedDebuggerPath(cfg.debuggerPath, host) == Some(p)
      && LinkTarget(PyStr(IntendedDebuggerPath(cfg.debuggerPath, host)), cfg.secret, t.id)
         == req.path + "?s=" + req.args["s"] + "&tb=" + req.args["tb"]
      && Route(cfg, tracebacks[t.id := t], req) == Console(t)
  {
    ParseIntOfIntToString(t.id);
  }

  /**
   * Following the link of a capture just registered reaches that capture's
   * console when the request carried no Host header: the link's target is
   * the console path with the secret as `s` and the id as `tb`, and a request
   * to that path with those arguments replays the capture.
   */
  lemma LinkReachesConsole(cfg: Config, tracebacks: map<int, Traceback>, t: Traceback, host: Option<string>)
    requires cfg.useLink && cfg.debuggerPath.Some?
    requires host.None? || host.value == []
    ensures var p := cfg.debuggerPath.value;
      var req := Request(p, map["s" := cfg.secret, "tb" := IntToString(t.id)], host);
      && GetDebuggerPath(cfg.debuggerPath, host) == Path(Some(p))
      && LinkTarget(PyStr(GetDebuggerPath(cfg.debuggerPath, host).value), cfg.secret, t.id)
         == req.path + "?s=" + req.args["s"] + "&tb=" + req.args["tb"]
      && Route(cfg, tracebacks[t.id := t], req) == Console(t)
  {
    IntendedLinkReachesConsole(cfg, tracebacks, t, host);
  }

  /**
   * The link as written when the request carried a Host header `h`: its
   * target is `h` glued to the console path, with no scheme and no `//`.
   * A browser reads that as a relative path (or, for `localhost:8000`, as a
   * URL of scheme `localhost:`), and any request whose path ends in
   * `h + p` is not the console path, so it is handed on instead of replayed.
   */
  lemma HostPrefixedLinkMissesConsole(cfg: Config, tracebacks: map<int, Traceback>, t: Traceback,
                                      h: string, base: string, args: map<string, string>)
    requires cfg.debuggerPath.Some? && h != []
    ensures var p := cfg.debuggerPath.value;
      && GetDebuggerPath(cfg.debuggerPath, Some(h)) == Path(Some(h + p))
      && LinkTarget(PyStr(GetDebuggerPath(cfg.debuggerPath, Some(h)).value), cfg.secret, t.id)
         == h + LinkTarget(p, cfg.secret, t.id)
      && Route(cfg, tracebacks, Request(base + h + p, args, Some(h))) == Delegate
  {
  }

  /**
   * A request whose application raises, then the request the link page
   * points at (the request carried no Host header): the first gets the 500
   * link page naming `follow`'s path and query, and `follow` replays the
   * first one's capture.
   */
  method CaptureThenReplay(app: DebuggedApp, req: Request, run: AppRun, tbId: int, pinTrusted: bool)
    returns (first: Response, follow: Request, second: Option<Response>)
    requires app.cfg.useLink && app.cfg.debuggerPath.Some?
    requires req.host.None? || req.host.value == []
    requires run.fault.Some? && run.fault.value.tb.Valid() && run.fault.value.exc.kind == Ordinary
    modifies app
    ensures var t := Captured(run.fault.value, tbId);
      && ErrorReply(app.cfg, req, run.items, t, true, pinTrusted, first)
      && first.body == run.items + [Chunk(RenderLink(t, app.cfg.secret, Some(follow.path)))]
      && "s" in follow.args && "tb" in follow.args
      && LinkTarget(PyStr(GetDebuggerPath(app.cfg.debuggerPath, req.host).value), app.cfg.secret, tbId)
         == follow.path + "?s=" + follow.args["s"] + "&tb=" + follow.args["tb"]
      && Route(app.cfg, app.tracebacks, follow) == Console(t)
      && second.Some? && ConsoleReply(app.cfg, t, true, pinTrusted, second.value)
  {
    first := app.DebugApplication(req, run, true, pinTrusted, tbId);
    var p := app.cfg.debuggerPath.value;
    follow := Request(p, map["s" := app.cfg.secret, "tb" := IntToString(tbId)], req.host);
    LinkReachesConsole(app.cfg, old(app.tracebacks), Captured(run.fault.value, tbId), req.host);
    second := app.Call(follow, true, pinTrusted);
  }
}
