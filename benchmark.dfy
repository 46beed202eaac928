/** materials/benchmark.py: the same filter written as an object
    (`GrepHandler`) and as a coroutine (`grep`), both in front of a `null()`
    sink. The two forward the same lines in the same order; they differ only
    in what happens after the target raises. */
module Benchmark {
  import opened Python
  import opened PushModel
  import opened BroadcastPipeline

  /** `GrepHandler.send(line)` on the value of its target. The object has no
      lifecycle of its own, and an exception from the target passes through
      it unchanged. */
  function HandlerSend(pattern: string, t: Node, line: string): Step
  {
    if Contains(pattern, line) then Send(t, line) else Step(t, None)
  }

  /** The lines sent to a `GrepHandler` one after another, stopping at the
      first exception. */
  function HandlerFeed(pattern: string, t: Node, lines: seq<string>): Step
    decreases |lines|
  {
    if lines == [] then Step(t, None)
    else
      var r := HandlerSend(pattern, t, lines[0]);
      if r.error.Some? then r else HandlerFeed(pattern, r.node, lines[1..])
  }

  /** An object with a pattern and a target. */
  class GrepHandler {
    var pattern: string
    var target: Stage

    constructor (pattern: string, target: Stage)
      ensures this.pattern == pattern && this.target == target
    {
      this.pattern := pattern;
      this.target := target;
    }

    /** `send(line)`: calls `target.send(line)` iff `pattern in line`; the
        handler's own fields never change. */
    method Send(line: string) returns (err: Option<Exception>)
      requires target.Valid()
      modifies target.Repr
      ensures pattern == old(pattern) && target == old(target)
      ensures HandlerSend(pattern, old(target.View()), line) == Step(target.View(), err)
      ensures !Contains(pattern, line) ==> target.View() == old(target.View()) && err == None
    {
      err := None;
      if Contains(pattern, line) {
        err := target.Push(line);
      }
    }
  }

  /** Over any stream, a `GrepHandler` passes its target exactly the lines that
      contain its pattern, in order, and the `grep` coroutine in front of the
      same target leaves that target in the same state. */
  lemma {:induction false} HandlerMatchesGrep(p: string, t: Node, lines: seq<string>)
    requires Healthy(t)
    ensures HandlerFeed(p, t, lines) == Step(Feed(t, Grep(p, lines)).node, None)
    ensures Feed(GrepNode(Suspended, p, t), lines) == Step(GrepNode(Suspended, p, HandlerFeed(p, t, lines).node), None)
    decreases |lines|
  {
    GrepFeed(p, t, lines);
    if lines != [] {
      var l := lines[0];
      if Contains(p, l) {
        SendHealthy(t, l);
        HandlerMatchesGrep(p, Send(t, l).node, lines[1..]);
        assert Grep(p, lines) == [l] + Grep(p, lines[1..]);
      } else {
        HandlerMatchesGrep(p, t, lines[1..]);
        assert Grep(p, lines) == Grep(p, lines[1..]);
      }
    }
  }

  /** Where the two differ: in front of a finished target, the object lets
      StopIteration through and keeps working, while the coroutine turns it
      into RuntimeError and is finished, so it rejects even a line that does
      not match. */
  lemma HandlerOutlivesTargetError()
    ensures HandlerSend("python", NullNode(Finished), "python is nice") == Step(NullNode(Finished), Some(StopIteration))
    ensures HandlerSend("python", NullNode(Finished), "ruby") == Step(NullNode(Finished), None)
    ensures Send(GrepNode(Suspended, "python", NullNode(Finished)), "python is nice") ==
      Step(GrepNode(Finished, "python", NullNode(Finished)), Some(RuntimeError))
    ensures Send(GrepNode(Finished, "python", NullNode(Finished)), "ruby").error == Some(StopIteration)
  {
    PrefixContained("python", " is nice");
    assert "python" + " is nice" == "python is nice";
    MissingFirstChar("python", "ruby");
  }

  /** `null()` accepts any item and forwards nothing. */
  lemma NullSinkSwallows(lines: seq<string>)
    ensures Feed(NullNode(Suspended), lines) == Step(NullNode(Suspended), None)
    ensures HandlerFeed("python", NullNode(Suspended), lines) == Step(NullNode(Suspended), None)
  {
    NullAcceptsAll(lines);
    HandlerMatchesGrep("python", NullNode(Suspended), lines);
    NullAcceptsAll(Grep("python", lines));
  }

  /** The set-up of the benchmark: `p1 = grep("python", null())`,
      `p2 = GrepHandler("python", null())`, each sent "python is nice" once;
      both forward the line and neither raises. */
  method BenchmarkSend() returns (forwarded: bool, e1: Option<Exception>, e2: Option<Exception>)
    ensures forwarded && e1 == None && e2 == None
  {
    var line := "python is nice";
    PrefixContained("python", " is nice");
    assert "python" + " is nice" == line;
    var n1 := NullStage();
    var p1 := GrepStage("python", n1);
    var n2 := NullStage();
    var p2 := new GrepHandler("python", n2);
    forwarded := Contains("python", line);
    e1 := p1.Push(line);
    e2 := p2.Send(line);
  }
}
