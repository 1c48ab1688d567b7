/**
 * Captured exceptions: the interpreter's traceback chain, the debugger's
 * frame and traceback records built from it, the bounded walk that skips
 * the proxy's own frames, and the short HTML page that links to a capture.
 */
module Tracebacks {

  import opened Wrappers
  import opened PyText

  /** One stack frame as the debugger keeps it; `id` addresses it for evaluation. */
  datatype Frame = Frame(id: int, filename: string, lineno: int, functionName: string)

  /** One captured exception: its id, the type name, the formatted exception line, its frames. */
  datatype Traceback = Traceback(id: int, exceptionType: string, exception: string, frames: seq<Frame>)

  /**
   * `Ordinary` exceptions derive from `Exception`; `SystemLevel` ones
   * (`SystemExit`, `KeyboardInterrupt`, `GeneratorExit`) only from `BaseException`.
   */
  datatype ExcKind = Ordinary | SystemLevel

  /** A raised exception: its type name, its formatted text and its kind. */
  datatype Exc = Exc(typeName: string, text: string, kind: ExcKind)

  /**
   * A node of the interpreter's traceback chain (`tb`, `tb.tb_next`, ...).
   * The chain is immutable, so its fields are constants; `len` counts the
   * nodes from this one to the innermost frame.
   */
  class TbNode {
    const frame: Frame
    const next: TbNode?
    ghost const len: nat

    ghost predicate Valid()
      decreases len
    {
      && len >= 1
      && (next == null <==> len == 1)
      && (next != null ==> next.len == len - 1 && next.Valid())
    }

    constructor (frame: Frame, next: TbNode?)
      requires next != null ==> next.Valid()
      ensures Valid() && this.frame == frame && this.next == next
      ensures len == if next == null then 1 else next.len + 1
    {
      this.frame := frame;
      this.next := next;
      this.len := if next == null then 1 else next.len + 1;
    }

    /** The chain from this node to the innermost one. */
    ghost function Nodes(): (r: seq<TbNode>)
      requires Valid()
      decreases len
      ensures |r| == len && r[0] == this
    {
      if next == null then [this] else [this] + next.Nodes()
    }

    /** Node `i` of the chain is itself a valid chain: the rest of this one. */
    lemma {:induction false} NodesSuffix(i: nat)
      requires Valid() && i < len
      ensures Nodes()[i].Valid() && Nodes()[i].len == len - i
      ensures Nodes()[i].Nodes() == Nodes()[i..]
      decreases len
    {
      if i > 0 {
        next.NodesSuffix(i - 1);
        assert Nodes()[i..] == next.Nodes()[i - 1..];
      }
    }

    /** The debugger frames of the chain, outermost first. */
    function Frames(): (r: seq<Frame>)
      requires Valid()
      decreases len
      ensures |r| == len
      ensures forall i :: 0 <= i < len ==> r[i] == Nodes()[i].frame
    {
      if next == null then [frame] else [frame] + next.Frames()
    }
  }

  /** The frames kept from node `k` on are the tail of the whole stack. */
  lemma FramesFrom(tb: TbNode, k: nat)
    requires tb.Valid() && k < tb.len
    ensures tb.Nodes()[k].Valid()
    ensures tb.Nodes()[k].Frames() == tb.Frames()[k..]
  {
    tb.NodesSuffix(k);
    var n := tb.Nodes()[k];
    forall i | 0 <= i < n.len ensures n.Frames()[i] == tb.Frames()[k..][i] {
      assert n.Nodes()[i] == tb.Nodes()[k + i];
    }
  }

  /** Where a walk of at most `skip` links, stopping at the last node, ends. */
  function SkipIndex(skip: int, len: nat): (k: nat)
    requires len >= 1
    ensures k < len
  {
    if skip <= 0 then 0 else if skip < len then skip else len - 1
  }

  /**
   * The walk that drops the outermost frames of a capture: follow the chain
   * one link at a time, at most `skip` times, stopping early at the
   * innermost node, which has no successor.
   */
  method Skip(tb: TbNode, skip: int) returns (r: TbNode)
    requires tb.Valid()
    ensures r == tb.Nodes()[SkipIndex(skip, tb.len)]
  {
    r := tb;
    var x := 0;
    while x < skip
      invariant 0 <= x < tb.len && x <= (if skip > 0 then skip else 0)
      invariant r == tb.Nodes()[x]
    {
      tb.NodesSuffix(x);
      if r.next == null {
        assert x == tb.len - 1;
        assert SkipIndex(skip, tb.len) == x;
        break;
      }
      assert r.Nodes() == tb.Nodes()[x..];
      x := x + 1;
      r := r.next;
    }
    assert SkipIndex(skip, tb.len) == x;
  }

  /**
   * `get_current_traceback`: `None` models the re-raise of a system-level
   * exception when those are to be ignored; otherwise the capture holds the
   * frames from node `skip` of the chain on, under the id `tbId`.
   */
  method GetCurrentTraceback(exc: Exc, tb: TbNode, ignoreSystemExceptions: bool, skip: int, tbId: int)
    returns (r: Option<Traceback>)
    requires tb.Valid()
    ensures r.None? <==> ignoreSystemExceptions && exc.kind == SystemLevel
    ensures r.Some? ==> r.value.id == tbId && r.value.exceptionType == exc.typeName
    ensures r.Some? ==> r.value.exception == exc.text
    ensures r.Some? ==> r.value.frames == tb.Frames()[SkipIndex(skip, tb.len)..]
  {
    if ignoreSystemExceptions && exc.kind == SystemLevel {
      return None;
    }
    var start := Skip(tb, skip);
    FramesFrom(tb, SkipIndex(skip, tb.len));
    r := Some(Traceback(tbId, exc.typeName, exc.text, start.Frames()));
  }

  // ---------------------------------------------------------------------------
  // The link page.

  /** Python's `'%s' % v` for a string or `None`. */
  function PyStr(v: Option<string>): (s: string)
  {
    match v
    case Some(s) => s
    case None => "None"
  }

  /** The query target the link page points at: `<path>?s=<secret>&tb=<id>`. */
  function LinkTarget(debuggerPath: string, secret: string, id: int): (target: string)
  {
    debuggerPath + "?s=" + secret + "&tb=" + IntToString(id)
  }

  /** The pieces of the `LINK_HTML` template filled in for traceback `t`, in order. */
  function LinkParts(t: Traceback, secret: string, debuggerPath: Option<string>): (parts: seq<string>)
  {
    var target := LinkTarget(PyStr(debuggerPath), secret, t.id);
    [ "<html><head><title>Error 500</title></head><body>",
      "<h1>" + Escape(t.exceptionType) + "</h1>",
      "\n<div>\n  ",
      "<p>" + Escape(t.exception) + "</p>",
      "\n  ",
      "<p>Inspect at " + target + "</p>",
      "\n</div>",
      "<a href='" + target + "'>",
      "Open</a>\n</body></html>" ]
  }

  /** `render_link`: the `LINK_HTML` page for traceback `t`. */
  function RenderLink(t: Traceback, secret: string, debuggerPath: Option<string>): (page: string)
  {
    Join(LinkParts(t, secret, debuggerPath))
  }

  /**
   * The link page names the console target twice, as text and as the
   * `href`, and shows the escaped exception type and message.
   */
  lemma RenderLinkShows(t: Traceback, secret: string, debuggerPath: Option<string>)
    ensures var page := RenderLink(t, secret, debuggerPath);
      var target := LinkTarget(PyStr(debuggerPath), secret, t.id);
      && Contains(page, "<p>Inspect at " + target + "</p>")
      && Contains(page, "<a href='" + target + "'>")
      && Contains(page, "<h1>" + Escape(t.exceptionType) + "</h1>")
      && Contains(page, "<p>" + Escape(t.exception) + "</p>")
  {
    var parts := LinkParts(t, secret, debuggerPath);
    JoinContainsPart(parts, 1);
    JoinContainsPart(parts, 3);
    JoinContainsPart(parts, 5);
    JoinContainsPart(parts, 7);
  }
}
