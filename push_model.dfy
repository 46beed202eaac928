/** The value-level meaning of the push pipeline of materials/broadcast.py:
    a tree of decorated generator stages, what one `send` does to it, and the
    ordering, fan-out and filtering properties that follow. The `Stage`
    objects of module BroadcastPipeline are proved to behave as this model says. */
module PushModel {
  import opened Python

  /** One stage of the pipeline with the state a `send` can change. */
  datatype Node =
    | PrinterNode(status: Status, printed: seq<string>)  // `printer()`: what it has printed
    | NullNode(status: Status)                            // `null()`
    | GrepNode(status: Status, pattern: string, target: Node)  // `grep(pattern, target)`
    | BroadcastNode(status: Status, targets: seq<Node>)  // `broadcast(targets)`

  /** The tree after one `send`, and the exception the `send` raised, if any. */
  datatype Step = Step(node: Node, error: Option<Exception>)

  /** The targets after the `for target in targets` loop, and its exception. */
  datatype Steps = Steps(nodes: seq<Node>, error: Option<Exception>)

  /** A suspended stage resumed its body: without an exception it is back at
      its `yield`; with one, its frame is gone and the exception escapes. */
  function Resumed(n: Node, e: Option<Exception>): (r: Step)
    ensures e.None? ==> r == Step(n, None)
    ensures e.Some? ==> r.node == n.(status := Finished) && r.error == Some(Escape(e.value))
    // A resumed stage is still running exactly when nothing escaped, and by
    // PEP 479 what escapes is never StopIteration, even when a target's
    // `send` raised one.
    ensures n.status == Suspended ==> (r.error.None? <==> r.node.status == Suspended)
    ensures r.error != Some(StopIteration)
  {
    match e
    case None => Step(n, None)
    case Some(x) => Step(n.(status := Finished), Some(Escape(x)))
  }

  /** `stage.send(line)`. */
  function Send(n: Node, line: string): Step
    decreases n
  {
    match n.status
    case Created => Step(n, Some(TypeError))       // can't send non-None value to a just-started generator
    case Finished => Step(n, Some(StopIteration))
    case Suspended =>
      match n
      case PrinterNode(_, printed) => Step(PrinterNode(Suspended, printed + [line]), None)
      case NullNode(_) => Step(n, None)
      case GrepNode(_, p, t) =>
        if Contains(p, line) then
          var r := Send(t, line);
          Resumed(GrepNode(Suspended, p, r.node), r.error)
        else Step(n, None)
      case BroadcastNode(_, ts) =>
        var r := SendAll(ts, line);
        Resumed(BroadcastNode(Suspended, r.nodes), r.error)
  }

  /** `for target in targets: target.send(item)`: in order, stopping at the
      first target whose `send` raises. */
  function SendAll(ts: seq<Node>, line: string): (r: Steps)
    ensures |r.nodes| == |ts|
    decreases ts
  {
    if ts == [] then Steps([], None)
    else
      var first := Send(ts[0], line);
      if first.error.Some? then Steps([first.node] + ts[1..], first.error)
      else
        var rest := SendAll(ts[1..], line);
        Steps([first.node] + rest.nodes, rest.error)
  }

  /** Sending the lines one after another, stopping at the first exception
      (which ends the caller's loop). */
  function Feed(n: Node, lines: seq<string>): Step
    decreases |lines|
  {
    if lines == [] then Step(n, None)
    else
      var r := Send(n, lines[0]);
      if r.error.Some? then r else Feed(r.node, lines[1..])
  }

  /** Every stage of the tree is suspended at its `yield`: what the
      `coroutine` decorator leaves behind. */
  predicate Healthy(n: Node)
    decreases n
  {
    n.status == Suspended &&
    match n
    case GrepNode(_, _, t) => Healthy(t)
    case BroadcastNode(_, ts) => forall i :: 0 <= i < |ts| ==> Healthy(ts[i])
    case _ => true
  }

  // ---------------------------------------------------------------------
  // Lifecycle

  /** A stage that is not suspended rejects the line and does not change:
      TypeError before priming, StopIteration once finished. */
  lemma NotSuspendedRejects(n: Node, line: string)
    requires n.status != Suspended
    ensures Send(n, line).node == n
    ensures Send(n, line).error == Some(if n.status == Created then TypeError else StopIteration)
  {
  }

  /** A suspended stage whose `send` raises is finished afterwards, so the
      next `send` raises StopIteration; what it raised is never StopIteration. */
  lemma {:induction false} ErrorFinishesStage(n: Node, line: string, next: string)
    requires n.status == Suspended && Send(n, line).error.Some?
    ensures Send(n, line).node.status == Finished
    ensures Send(n, line).error != Some(StopIteration)
    ensures Send(Send(n, line).node, next) == Step(Send(n, line).node, Some(StopIteration))
  {
    match n
    case GrepNode(_, p, t) =>
      assert Contains(p, line);
    case BroadcastNode(_, ts) =>
  }

  /** A healthy tree accepts every line and stays healthy. */
  lemma {:induction false} SendHealthy(n: Node, line: string)
    requires Healthy(n)
    ensures Send(n, line).error == None && Healthy(Send(n, line).node)
    decreases n
  {
    match n
    case PrinterNode(_, _) =>
    case NullNode(_) =>
    case GrepNode(_, p, t) =>
      if Contains(p, line) { SendHealthy(t, line); }
    case BroadcastNode(_, ts) =>
      SendAllHealthy(ts, line);
  }

  /** On healthy targets the loop reaches every target, each target gets the
      line once, and no target sees anything else. */
  lemma {:induction false} SendAllHealthy(ts: seq<Node>, line: string)
    requires forall i :: 0 <= i < |ts| ==> Healthy(ts[i])
    ensures SendAll(ts, line).error == None
    ensures forall i :: 0 <= i < |ts| ==> SendAll(ts, line).nodes[i] == Send(ts[i], line).node
    ensures forall i :: 0 <= i < |ts| ==> Healthy(SendAll(ts, line).nodes[i])
    decreases ts
  {
    if ts != [] {
      SendHealthy(ts[0], line);
      SendAllHealthy(ts[1..], line);
      var rest := SendAll(ts[1..], line);
      assert SendAll(ts, line).nodes == [Send(ts[0], line).node] + rest.nodes;
      forall i | 0 < i < |ts|
        ensures SendAll(ts, line).nodes[i] == Send(ts[i], line).node
        ensures Healthy(SendAll(ts, line).nodes[i])
      {
        assert ts[1..][i - 1] == ts[i];
      }
    }
  }

  /** When no target raises, the loop reaches every target in turn. */
  lemma {:induction false} SendAllNoError(ts: seq<Node>, line: string)
    requires forall i :: 0 <= i < |ts| ==> Send(ts[i], line).error.None?
    ensures SendAll(ts, line).error == None
    ensures forall i :: 0 <= i < |ts| ==> SendAll(ts, line).nodes[i] == Send(ts[i], line).node
    decreases ts
  {
    if ts != [] {
      forall i | 0 <= i < |ts| - 1 ensures Send(ts[1..][i], line).error.None? {
        assert ts[1..][i] == ts[i + 1];
      }
      SendAllNoError(ts[1..], line);
      assert SendAll(ts, line).nodes == [Send(ts[0], line).node] + SendAll(ts[1..], line).nodes;
      forall i | 0 < i < |ts|
        ensures SendAll(ts, line).nodes[i] == Send(ts[i], line).node
      {
        assert ts[1..][i - 1] == ts[i];
      }
    }
  }

  /** Feeding one more line continues from where the stream left off. */
  lemma {:induction false} FeedSnoc(n: Node, lines: seq<string>, line: string)
    requires Feed(n, lines).error.None?
    ensures Feed(n, lines + [line]) == Send(Feed(n, lines).node, line)
    decreases |lines|
  {
    if lines == [] {
      assert lines + [line] == [line] && [line][1..] == [];
    } else {
      assert (lines + [line])[0] == lines[0] && (lines + [line])[1..] == lines[1..] + [line];
      FeedSnoc(Send(n, lines[0]).node, lines[1..], line);
    }
  }

  /** A healthy tree takes any number of lines without an exception. */
  lemma {:induction false} FeedHealthy(n: Node, lines: seq<string>)
    requires Healthy(n)
    ensures Feed(n, lines).error == None && Healthy(Feed(n, lines).node)
    decreases |lines|
  {
    if lines != [] {
      SendHealthy(n, lines[0]);
      FeedHealthy(Send(n, lines[0]).node, lines[1..]);
    }
  }

  // ---------------------------------------------------------------------
  // Sinks

  /** `printer()` prints every line it receives, unchanged, in order, and
      drops none. */
  lemma {:induction false} PrinterPrintsAll(printed: seq<string>, lines: seq<string>)
    ensures Feed(PrinterNode(Suspended, printed), lines) == Step(PrinterNode(Suspended, printed + lines), None)
    decreases |lines|
  {
    if lines == [] {
      assert printed + lines == printed;
    } else {
      PrinterPrintsAll(printed + [lines[0]], lines[1..]);
      assert printed + [lines[0]] + lines[1..] == printed + lines;
    }
  }

  /** `null()` accepts everything and forwards nothing. */
  lemma {:induction false} NullAcceptsAll(lines: seq<string>)
    ensures Feed(NullNode(Suspended), lines) == Step(NullNode(Suspended), None)
    decreases |lines|
  {
    if lines != [] {
      NullAcceptsAll(lines[1..]);
    }
  }

  // ---------------------------------------------------------------------
  // The filter

  /** `grep(pattern, target)` passes a line on iff `pattern in line`;
      a passed line reaches the target unchanged and exactly once. */
  lemma GrepForwardsIff(p: string, t: Node, line: string)
    requires Healthy(t)
    ensures Send(GrepNode(Suspended, p, t), line) ==
      Step(GrepNode(Suspended, p, if Contains(p, line) then Send(t, line).node else t), None)
  {
    if Contains(p, line) { SendHealthy(t, line); }
  }

  /** Over a whole stream, the target of `grep(pattern, target)` receives
      exactly the lines that contain the pattern, in stream order. */
  lemma {:induction false} GrepFeed(p: string, t: Node, lines: seq<string>)
    requires Healthy(t)
    ensures Feed(GrepNode(Suspended, p, t), lines) == Step(GrepNode(Suspended, p, Feed(t, Grep(p, lines)).node), None)
    decreases |lines|
  {
    if lines != [] {
      var l := lines[0];
      GrepForwardsIff(p, t, l);
      if Contains(p, l) {
        SendHealthy(t, l);
        GrepFeed(p, Send(t, l).node, lines[1..]);
        assert Grep(p, lines) == [l] + Grep(p, lines[1..]);
      } else {
        GrepFeed(p, t, lines[1..]);
        assert Grep(p, lines) == Grep(p, lines[1..]);
      }
    }
  }

  // ---------------------------------------------------------------------
  // Fan-out

  /** The targets after every target of a healthy broadcast received `lines`. */
  function FedAll(ts: seq<Node>, lines: seq<string>): (r: seq<Node>)
    ensures |r| == |ts|
    ensures forall i :: 0 <= i < |ts| ==> r[i] == Feed(ts[i], lines).node
  {
    seq(|ts|, i requires 0 <= i < |ts| => Feed(ts[i], lines).node)
  }

  /** After N items are pushed into `broadcast(targets)`, each target has
      received exactly those N items, in push order. */
  lemma {:induction false} BroadcastFeed(ts: seq<Node>, lines: seq<string>)
    requires forall i :: 0 <= i < |ts| ==> Healthy(ts[i])
    ensures Feed(BroadcastNode(Suspended, ts), lines) == Step(BroadcastNode(Suspended, FedAll(ts, lines)), None)
    decreases |lines|
  {
    if lines == [] {
      assert FedAll(ts, lines) == ts;
    } else {
      var l := lines[0];
      SendAllHealthy(ts, l);
      var next := SendAll(ts, l).nodes;
      BroadcastFeed(next, lines[1..]);
      forall i | 0 <= i < |ts|
        ensures FedAll(next, lines[1..])[i] == FedAll(ts, lines)[i]
      {
        SendHealthy(ts[i], l);
      }
      assert FedAll(next, lines[1..]) == FedAll(ts, lines);
    }
  }

  /** Fail-fast: if the k-th target is the first whose `send` raises, the
      targets before it and the k-th itself received the item, the later ones
      did not, the broadcast stage is finished and the exception leaves it. */
  lemma {:induction false} BroadcastFailFast(ts: seq<Node>, line: string, k: nat)
    requires k < |ts|
    requires forall j :: 0 <= j < k ==> Send(ts[j], line).error.None?
    requires Send(ts[k], line).error.Some?
    ensures var r := Send(BroadcastNode(Suspended, ts), line);
      r.error == Some(Escape(Send(ts[k], line).error.value)) &&
      r.node.status == Finished &&
      (forall j :: 0 <= j <= k ==> r.node.targets[j] == Send(ts[j], line).node) &&
      (forall j :: k < j < |ts| ==> r.node.targets[j] == ts[j])
  {
    SendAllStopsAt(ts, line, k);
  }

  lemma {:induction false} SendAllStopsAt(ts: seq<Node>, line: string, k: nat)
    requires k < |ts|
    requires forall j :: 0 <= j < k ==> Send(ts[j], line).error.None?
    requires Send(ts[k], line).error.Some?
    ensures SendAll(ts, line).error == Send(ts[k], line).error
    ensures forall j :: 0 <= j <= k ==> SendAll(ts, line).nodes[j] == Send(ts[j], line).node
    ensures forall j :: k < j < |ts| ==> SendAll(ts, line).nodes[j] == ts[j]
    decreases k
  {
    if k > 0 {
      assert Send(ts[0], line).error.None?;
      forall j | 0 <= j < k - 1 ensures Send(ts[1..][j], line).error.None? {
        assert ts[1..][j] == ts[j + 1];
      }
      SendAllStopsAt(ts[1..], line, k - 1);
      assert SendAll(ts, line).nodes == [Send(ts[0], line).node] + SendAll(ts[1..], line).nodes;
      forall j | 0 < j < |ts|
        ensures SendAll(ts, line).nodes[j] == (if j <= k then Send(ts[j], line).node else ts[j])
      {
        assert ts[1..][j - 1] == ts[j];
      }
    }
  }

  /** The `for` loop of `broadcast` left at target k by an exception: the
      targets so far received the item, the later ones kept their state. */
  lemma StoppedAt(ts: seq<Node>, line: string, k: nat, now: seq<Node>, e: Option<Exception>)
    requires |now| == |ts| && k < |ts| && e.Some?
    requires forall j :: 0 <= j < k ==> Send(ts[j], line).error.None? && now[j] == Send(ts[j], line).node
    requires Send(ts[k], line) == Step(now[k], e)
    requires forall j :: k < j < |ts| ==> now[j] == ts[j]
    ensures SendAll(ts, line) == Steps(now, e)
  {
    SendAllStopsAt(ts, line, k);
    assert SendAll(ts, line).nodes == now;
  }

  /** The `for` loop of `broadcast` run to its end: every target received
      the item. */
  lemma RanToEnd(ts: seq<Node>, line: string, now: seq<Node>)
    requires |now| == |ts|
    requires forall j :: 0 <= j < |ts| ==> Send(ts[j], line).error.None? && now[j] == Send(ts[j], line).node
    ensures SendAll(ts, line) == Steps(now, None)
  {
    SendAllNoError(ts, line);
    assert SendAll(ts, line).nodes == now;
  }

  /** The broadcast processes item N completely before item N+1: after two
      sends, each target is as if it had received the two items alone. */
  lemma BroadcastTotalOrder(ts: seq<Node>, a: string, b: string)
    requires forall i :: 0 <= i < |ts| ==> Healthy(ts[i])
    ensures Feed(BroadcastNode(Suspended, ts), [a, b]).error == None
    ensures Feed(BroadcastNode(Suspended, ts), [a, b]).node.BroadcastNode?
    ensures |Feed(BroadcastNode(Suspended, ts), [a, b]).node.targets| == |ts|
    ensures forall i :: 0 <= i < |ts| ==>
      Feed(BroadcastNode(Suspended, ts), [a, b]).node.targets[i] == Send(Send(ts[i], a).node, b).node
  {
    BroadcastFeed(ts, [a, b]);
    forall i | 0 <= i < |ts|
      ensures Feed(ts[i], [a, b]).node == Send(Send(ts[i], a).node, b).node
    {
      SendHealthy(ts[i], a);
      var x := Send(ts[i], a).node;
      assert [a, b][1..] == [b] && [b][1..] == [];
      assert Feed(ts[i], [a, b]) == Feed(x, [b]);
      assert Feed(x, [b]).node == Send(x, b).node;
    }
  }

  // ---------------------------------------------------------------------
  // The wiring of materials/broadcast.py line 48

  /** `broadcast((grep("python", printer()), grep("ply", printer()),
      grep("swig", printer())))` with what the three printers have printed. */
  function AccessLogTree(python: seq<string>, ply: seq<string>, swig: seq<string>): Node
  {
    BroadcastNode(Suspended, [
      GrepNode(Suspended, "python", PrinterNode(Suspended, python)),
      GrepNode(Suspended, "ply", PrinterNode(Suspended, ply)),
      GrepNode(Suspended, "swig", PrinterNode(Suspended, swig))])
  }

  /** Printer k prints exactly the input lines that contain pattern k, in
      input order, and the pipeline never raises. */
  lemma AccessLogRoutes(python: seq<string>, ply: seq<string>, swig: seq<string>, lines: seq<string>)
    ensures Feed(AccessLogTree(python, ply, swig), lines) ==
      Step(AccessLogTree(python + Grep("python", lines), ply + Grep("ply", lines), swig + Grep("swig", lines)), None)
  {
    var ts := AccessLogTree(python, ply, swig).targets;
    BroadcastFeed(ts, lines);
    var pats := ["python", "ply", "swig"];
    var outs := [python, ply, swig];
    forall i | 0 <= i < 3
      ensures Feed(ts[i], lines).node == GrepNode(Suspended, pats[i], PrinterNode(Suspended, outs[i] + Grep(pats[i], lines)))
    {
      GrepFeed(pats[i], PrinterNode(Suspended, outs[i]), lines);
      PrinterPrintsAll(outs[i], Grep(pats[i], lines));
    }
    assert FedAll(ts, lines) ==
      AccessLogTree(python + Grep("python", lines), ply + Grep("ply", lines), swig + Grep("swig", lines)).targets;
  }

  /** The line-48 tree after `lines` went through it from the start. */
  function Routed(lines: seq<string>): Node
  {
    AccessLogTree(Grep("python", lines), Grep("ply", lines), Grep("swig", lines))
  }

  /** One more line through the line-48 tree. */
  lemma RoutedSnoc(lines: seq<string>, line: string)
    ensures Send(Routed(lines), line) == Step(Routed(lines + [line]), None)
  {
    AccessLogRoutes(Grep("python", lines), Grep("ply", lines), Grep("swig", lines), [line]);
    SendHealthy(Routed(lines), line);
    assert [line][1..] == [];
    GrepAppend("python", lines, [line]);
    GrepAppend("ply", lines, [line]);
    GrepAppend("swig", lines, [line]);
  }
}
