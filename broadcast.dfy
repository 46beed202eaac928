/** materials/broadcast.py as objects: each decorated generator function
    (`printer`, `grep`, `broadcast`, and `null` of materials/benchmark.py)
    builds a `Stage` whose `Push` is `send`; `Follower` is the `follow`
    source over an append-only log file; `AccessLog` is the wiring of line 48.
    Every stage's abstract value is a `PushModel.Node`, and `Push` is proved
    to do what `PushModel.Send` says. */
module BroadcastPipeline {
  import opened Python
  import opened PushModel

  datatype Kind = PrinterKind | NullKind | GrepKind(pattern: string) | BroadcastKind

  /** One generator object of the pipeline. The tree of targets is fixed at
      construction; a stage owns its targets' stages (no sharing). */
  class Stage {
    const kind: Kind
    const targets: seq<Stage>
    ghost const Repr: set<Stage>
    var status: Status
    var printed: seq<string>   // what a printer stage has printed

    ghost predicate Valid()
      decreases Repr
    {
      this in Repr &&
      (kind.GrepKind? ==> |targets| == 1) &&
      ((kind.PrinterKind? || kind.NullKind?) ==> targets == []) &&
      (forall i :: 0 <= i < |targets| ==>
        targets[i] in Repr && targets[i].Repr <= Repr && this !in targets[i].Repr && targets[i].Valid()) &&
      (forall i, j :: 0 <= i < j < |targets| ==> targets[i].Repr !! targets[j].Repr)
    }

    /** The stage tree as a value. */
    ghost function View(): Node
      requires Valid()
      reads Repr
      decreases Repr, 1
    {
      match kind
      case PrinterKind => PrinterNode(status, printed)
      case NullKind => NullNode(status)
      case GrepKind(p) => GrepNode(status, p, targets[0].View())
      case BroadcastKind => BroadcastNode(status, ViewsFrom(0))
    }

    ghost function ViewsFrom(i: nat): (vs: seq<Node>)
      requires Valid() && i <= |targets|
      reads Repr - {this}
      ensures |vs| == |targets| - i
      ensures forall j :: 0 <= j < |vs| ==> vs[j] == targets[i + j].View()
      decreases Repr, 0, |targets| - i
    {
      if i == |targets| then [] else [targets[i].View()] + ViewsFrom(i + 1)
    }

    /** `printer()` before the decorator primes it. */
    constructor Printer()
      ensures Valid() && fresh(Repr) && Repr == {this}
      ensures kind == PrinterKind && View() == PrinterNode(Created, [])
    {
      kind, targets := PrinterKind, [];
      Repr := {this};
      status, printed := Created, [];
    }

    /** `null()` before the decorator primes it. */
    constructor Null()
      ensures Valid() && fresh(Repr) && Repr == {this}
      ensures kind == NullKind && View() == NullNode(Created)
    {
      kind, targets := NullKind, [];
      Repr := {this};
      status, printed := Created, [];
    }

    /** `grep(pattern, target)` before the decorator primes it. */
    constructor Grep(pattern: string, target: Stage)
      requires target.Valid()
      ensures Valid() && Repr == {this} + target.Repr
      ensures kind == GrepKind(pattern) && targets == [target]
      ensures View() == GrepNode(Created, pattern, target.View())
    {
      kind, targets := GrepKind(pattern), [target];
      Repr := {this} + target.Repr;
      status, printed := Created, [];
    }

    /** `broadcast(targets)` before the decorator primes it; the targets are
        distinct trees. */
    constructor Broadcast(ts: seq<Stage>)
      requires forall i :: 0 <= i < |ts| ==> ts[i].Valid()
      requires forall i, j :: 0 <= i < j < |ts| ==> ts[i].Repr !! ts[j].Repr
      ensures Valid() && Repr == {this} + ReprOf(ts)
      ensures kind == BroadcastKind && targets == ts
      ensures View() == BroadcastNode(Created, ViewsFrom(0))
    {
      kind, targets := BroadcastKind, ts;
      Repr := {this} + ReprOf(ts);
      status, printed := Created, [];
      ReprOfCovers(ts);
      new;
      forall i | 0 <= i < |ts|
        ensures ts[i] in Repr && ts[i].Repr <= Repr && this !in ts[i].Repr
      {
      }
    }

    /** The `coroutine` decorator's `next(cr)`: a fresh generator runs to its
        first `yield`. No stage body does anything before that `yield`. */
    method Start()
      requires Valid() && status == Created
      modifies this
      ensures status == Suspended && printed == old(printed)
      ensures View() == old(View()).(status := Suspended)
    {
      status := Suspended;
    }

    /** `stage.send(line)`. */
    method Push(line: string) returns (err: Option<Exception>)
      requires Valid()
      modifies Repr
      ensures Send(old(View()), line) == Step(View(), err)
      decreases Repr, 3
    {
      if status == Created {
        return Some(TypeError);
      }
      if status == Finished {
        return Some(StopIteration);
      }
      match kind {
        case PrinterKind =>
          printed := printed + [line];
          err := None;
        case NullKind =>
          err := None;
        case GrepKind(p) =>
          err := PushGrep(line);
        case BroadcastKind =>
          err := PushAll(line);
      }
    }

    /** The body of `grep` between two `yield`s. */
    method PushGrep(line: string) returns (err: Option<Exception>)
      requires Valid() && status == Suspended && kind.GrepKind?
      modifies Repr
      ensures Send(old(View()), line) == Step(View(), err)
      decreases Repr, 1
    {
      err := None;
      if Contains(kind.pattern, line) {
        var e := targets[0].Push(line);
        if e.Some? {
          status := Finished;
          err := Some(Escape(e.value));
        }
      }
    }

    /** The body of `broadcast` between two `yield`s; an exception from a
        target leaves the loop and the generator frame. */
    method PushAll(line: string) returns (err: Option<Exception>)
      requires Valid() && status == Suspended && kind.BroadcastKind?
      modifies Repr
      ensures Send(old(View()), line) == Step(View(), err)
      decreases Repr, 2
    {
      var e := PushEach(line);
      if e.Some? {
        status := Finished;
        err := Some(Escape(e.value));
      } else {
        err := None;
      }
    }

    /** `for target in targets: target.send(item)`. */
    method PushEach(line: string) returns (err: Option<Exception>)
      requires Valid()
      modifies Repr - {this}
      ensures SendAll(old(ViewsFrom(0)), line) == Steps(ViewsFrom(0), err)
      decreases Repr, 1
    {
      ghost var before := ViewsFrom(0);
      var i := 0;
      while i < |targets|
        invariant 0 <= i <= |targets|
        invariant forall j :: 0 <= j < i ==>
          Send(before[j], line).error.None? && targets[j].View() == Send(before[j], line).node
        invariant forall j :: i <= j < |targets| ==> targets[j].View() == before[j]
      {
        var e := PushTarget(i, line);
        if e.Some? {
          StoppedAt(before, line, i, ViewsFrom(0), e);
          return e;
        }
        i := i + 1;
      }
      RanToEnd(before, line, ViewsFrom(0));
      return None;
    }

    /** `targets[i].send(item)`: only the i-th target's tree changes. */
    method PushTarget(i: nat, line: string) returns (err: Option<Exception>)
      requires Valid() && i < |targets|
      modifies targets[i].Repr
      ensures Send(old(targets[i].View()), line) == Step(targets[i].View(), err)
      ensures forall j :: 0 <= j < |targets| && j != i ==> targets[j].View() == old(targets[j].View())
      ensures status == old(status) && printed == old(printed)
      decreases Repr, 0
    {
      err := targets[i].Push(line);
      forall j | 0 <= j < |targets| && j != i
        ensures targets[j].View() == old(targets[j].View())
      {
        assert targets[i].Repr !! targets[j].Repr;
      }
    }
  }

  /** The stages of all the trees in `ts`. */
  ghost function ReprOf(ts: seq<Stage>): set<Stage>
  {
    if ts == [] then {} else ts[0].Repr + ReprOf(ts[1..])
  }

  lemma {:induction false} ReprOfCovers(ts: seq<Stage>)
    ensures forall i :: 0 <= i < |ts| ==> ts[i].Repr <= ReprOf(ts)
    ensures forall o :: o in ReprOf(ts) ==> exists i :: 0 <= i < |ts| && o in ts[i].Repr
  {
    if ts != [] {
      ReprOfCovers(ts[1..]);
      forall i | 0 < i < |ts| ensures ts[i].Repr <= ReprOf(ts) {
        assert ts[1..][i - 1] == ts[i];
      }
      forall o | o in ReprOf(ts[1..]) ensures exists i :: 0 <= i < |ts| && o in ts[i].Repr {
        var i :| 0 <= i < |ts[1..]| && o in ts[1..][i].Repr;
        assert o in ts[i + 1].Repr;
      }
    }
  }

  // -----------------------------------------------------------------------
  // The decorated generator functions: construct, then `next` to the first yield.

  /** `printer()`. */
  method PrinterStage() returns (s: Stage)
    ensures s.Valid() && fresh(s.Repr) && s.Repr == {s}
    ensures s.kind == PrinterKind && s.View() == PrinterNode(Suspended, [])
  {
    s := new Stage.Printer();
    s.Start();
  }

  /** `null()` of materials/benchmark.py. */
  method NullStage() returns (s: Stage)
    ensures s.Valid() && fresh(s.Repr) && s.Repr == {s}
    ensures s.kind == NullKind && s.View() == NullNode(Suspended)
  {
    s := new Stage.Null();
    s.Start();
  }

  /** `grep(pattern, target)`: the arguments reach the generator unchanged. */
  method GrepStage(pattern: string, target: Stage) returns (s: Stage)
    requires target.Valid()
    ensures s.Valid() && fresh(s) && s.Repr == {s} + target.Repr
    ensures s.kind == GrepKind(pattern) && s.targets == [target]
    ensures s.View() == GrepNode(Suspended, pattern, target.View())
  {
    s := new Stage.Grep(pattern, target);
    s.Start();
  }

  /** `broadcast(targets)`: the targets keep their order. */
  method BroadcastStage(ts: seq<Stage>) returns (s: Stage)
    requires forall i :: 0 <= i < |ts| ==> ts[i].Valid()
    requires forall i, j :: 0 <= i < j < |ts| ==> ts[i].Repr !! ts[j].Repr
    ensures s.Valid() && fresh(s) && s.Repr == {s} + ReprOf(ts)
    ensures s.kind == BroadcastKind && s.targets == ts
    ensures s.View() == BroadcastNode(Suspended, s.ViewsFrom(0))
  {
    s := new Stage.Broadcast(ts);
    s.Start();
  }

  // -----------------------------------------------------------------------
  // The data source

  /** The growing file: other processes only ever append lines to it. A
      line keeps its newline (only the last may lack one), so no line is
      empty, and `readline` returns "" exactly at the end of the file. */
  class LogFile {
    var lines: seq<string>

    ghost predicate Valid()
      reads this
    {
      forall i :: 0 <= i < |lines| ==> lines[i] != ""
    }

    constructor (lines: seq<string>)
      requires forall i :: 0 <= i < |lines| ==> lines[i] != ""
      ensures Valid() && this.lines == lines
    {
      this.lines := lines;
    }

    /** `thefile.readline()` with the file position at line `pos`. */
    function ReadLine(pos: nat): (line: string)
      reads this
      ensures Valid() ==> (line == "" <==> |lines| <= pos)
      ensures pos < |lines| ==> line == lines[pos]
    {
      if pos < |lines| then lines[pos] else ""
    }

    method Append(line: string)
      requires Valid() && line != ""
      modifies this
      ensures Valid() && lines == old(lines) + [line]
    {
      lines := lines + [line];
    }
  }

  /** `follow(thefile, target)`: `cursor` is the file position in lines, and
      `consumed` the lines `readline` has returned so far, which must stay the
      file's first lines: the file is only appended to. */
  class Follower {
    const file: LogFile
    const target: Stage
    ghost const start: nat   // the end of the file when `follow` was called
    var cursor: nat
    ghost var consumed: seq<string>

    ghost predicate Valid()
      reads this, file
    {
      target.Valid() && file.Valid() && start <= cursor <= |file.lines| &&
      consumed == file.lines[..cursor]
    }

    /** `thefile.seek(0, 2)`: start at the current end of the file. */
    constructor (file: LogFile, target: Stage)
      requires target.Valid() && file.Valid()
      ensures Valid() && this.file == file && this.target == target
      ensures start == cursor == |file.lines|
    {
      this.file, this.target := file, target;
      start, cursor := |file.lines|, |file.lines|;
      consumed := file.lines;
    }

    /** One pass of the `while True` loop: an empty `readline` sends
        nothing (and would sleep); a line is sent to the target. */
    method Poll() returns (err: Option<Exception>)
      requires Valid()
      modifies this, target.Repr
      ensures Valid()
      ensures old(cursor) < |file.lines| ==>
        cursor == old(cursor) + 1 && Send(old(target.View()), file.lines[old(cursor)]) == Step(target.View(), err)
      ensures old(cursor) == |file.lines| ==>
        cursor == old(cursor) && target.View() == old(target.View()) && err == None
    {
      var line := file.ReadLine(cursor);
      if line == "" {
        err := None;   // `time.sleep(0.1)` and `continue`
      } else {
        cursor := cursor + 1;
        consumed := consumed + [line];
        err := target.Push(line);
      }
    }

    /** `polls` passes of the loop; an exception from `send` ends `follow`.
        Exactly the lines after the cursor are delivered, each once, in file
        order. */
    method Run(polls: nat) returns (err: Option<Exception>)
      requires Valid()
      modifies this, target.Repr
      ensures Valid() && old(cursor) <= cursor
      ensures Feed(old(target.View()), file.lines[old(cursor)..cursor]) == Step(target.View(), err)
      ensures err.None? ==> cursor == if old(cursor) + polls < |file.lines| then old(cursor) + polls else |file.lines|
      ensures err.Some? ==> old(cursor) < cursor && Feed(old(target.View()), file.lines[old(cursor)..cursor - 1]).error.None?
    {
      ghost var v0 := target.View();
      err := None;
      var n := 0;
      while n < polls && err.None?
        invariant Valid() && old(cursor) <= cursor
        invariant Feed(v0, file.lines[old(cursor)..cursor]) == Step(target.View(), err)
        invariant err.None? ==> cursor == if old(cursor) + n < |file.lines| then old(cursor) + n else |file.lines|
        invariant err.Some? ==> old(cursor) < cursor && Feed(v0, file.lines[old(cursor)..cursor - 1]).error.None?
        invariant n <= polls
      {
        ghost var c := cursor;
        ghost var v := target.View();
        err := Poll();
        if c < cursor {
          assert file.lines[old(cursor)..cursor] == file.lines[old(cursor)..c] + [file.lines[c]];
          FeedSnoc(v0, file.lines[old(cursor)..c], file.lines[c]);
        }
        n := n + 1;
      }
    }
  }

  // -----------------------------------------------------------------------
  // materials/broadcast.py line 48

  /** The stage tree of line 48, primed:
      `broadcast((grep("python", printer()), grep("ply", printer()), grep("swig", printer())))`. */
  method AccessLogStages() returns (root: Stage, sinks: seq<Stage>)
    ensures root.Valid() && fresh(root.Repr)
    ensures root.View() == AccessLogTree([], [], [])
    ensures IsAccessLogShape(root, sinks)
  {
    var g1, p1 := FilteredPrinter("python");
    var g2, p2 := FilteredPrinter("ply");
    var g3, p3 := FilteredPrinter("swig");
    ReprOfThree(g1, g2, g3);
    root := BroadcastStage([g1, g2, g3]);
    assert root.ViewsFrom(0) == [g1.View(), g2.View(), g3.View()];
    sinks := [p1, p2, p3];
  }

  lemma ReprOfThree(a: Stage, b: Stage, c: Stage)
    ensures ReprOf([a, b, c]) == a.Repr + b.Repr + c.Repr
  {
    assert [c][1..] == [];
    assert ReprOf([c]) == c.Repr;
    assert [b, c][1..] == [c];
    assert ReprOf([b, c]) == b.Repr + c.Repr;
    assert [a, b, c][1..] == [b, c];
  }

  /** `grep(pattern, printer())`, primed. */
  method FilteredPrinter(pattern: string) returns (g: Stage, p: Stage)
    ensures g.Valid() && fresh(g.Repr) && g.Repr == {g, p}
    ensures g.kind == GrepKind(pattern) && g.targets == [p] && p.kind == PrinterKind
    ensures g.View() == GrepNode(Suspended, pattern, PrinterNode(Suspended, []))
  {
    p := PrinterStage();
    g := GrepStage(pattern, p);
  }

  /** The shape `AccessLogStages` builds: a broadcast over three greps, the
      k-th feeding the k-th printer. */
  ghost predicate IsAccessLogShape(root: Stage, sinks: seq<Stage>)
  {
    root.Valid() && root.kind == BroadcastKind && |root.targets| == 3 && |sinks| == 3 &&
    forall k :: 0 <= k < 3 ==>
      root.targets[k].kind.GrepKind? && root.targets[k].targets == [sinks[k]] && sinks[k].kind == PrinterKind
  }

  /** What the printers of the line-48 tree have printed can be read off
      the tree's value. */
  lemma AccessLogPrinted(root: Stage, sinks: seq<Stage>, python: seq<string>, ply: seq<string>, swig: seq<string>)
    requires IsAccessLogShape(root, sinks)
    requires root.View() == AccessLogTree(python, ply, swig)
    ensures sinks[0].printed == python && sinks[1].printed == ply && sinks[2].printed == swig
  {
    var vs := root.ViewsFrom(0);
    assert root.View() == BroadcastNode(root.status, vs);
    forall k | 0 <= k < 3 ensures sinks[k].Valid() {
      assert root.targets[k].Valid() && root.targets[k].targets[0] == sinks[k];
    }
    assert vs[0] == root.targets[0].View() == GrepNode(root.targets[0].status, "python", sinks[0].View());
    assert vs[1] == root.targets[1].View() == GrepNode(root.targets[1].status, "ply", sinks[1].View());
    assert vs[2] == root.targets[2].View() == GrepNode(root.targets[2].status, "swig", sinks[2].View());
  }

  /** `follow(f, broadcast(...))` of line 48, before the first pass of its loop. */
  method AccessLog(file: LogFile) returns (follower: Follower, sinks: seq<Stage>)
    requires file.Valid()
    ensures fresh(follower) && follower.Valid() && follower.file == file
    ensures follower.cursor == |file.lines|
    ensures fresh(follower.target.Repr)
    ensures follower.target.View() == AccessLogTree([], [], [])
    ensures IsAccessLogShape(follower.target, sinks)
  {
    var root;
    root, sinks := AccessLogStages();
    follower := new Follower(file, root);
  }

  /** Another process appends a line to the log; then `follow` runs one
      pass of its loop and sends that line. */
  method WriteAndPoll(follower: Follower, line: string) returns (err: Option<Exception>)
    requires follower.Valid() && follower.cursor == |follower.file.lines| && line != ""
    modifies follower, follower.file, follower.target.Repr
    ensures follower.Valid() && follower.cursor == old(follower.cursor) + 1
    ensures follower.file.lines == old(follower.file.lines) + [line]
    ensures Send(old(follower.target.View()), line) == Step(follower.target.View(), err)
  {
    follower.file.Append(line);
    err := follower.Poll();
  }

  /** Start tailing the log, then let `appended` be written to it one line at
      a time, each followed by a pass of `follow`'s loop; the result is what
      each printer has printed. */
  method TailAccessLog(file: LogFile, appended: seq<string>) returns (python: seq<string>, ply: seq<string>, swig: seq<string>)
    requires file.Valid() && forall i :: 0 <= i < |appended| ==> appended[i] != ""
    modifies file
    ensures file.lines == old(file.lines) + appended
    ensures python == Python.Grep("python", appended)
    ensures ply == Python.Grep("ply", appended)
    ensures swig == Python.Grep("swig", appended)
  {
    var follower, sinks := AccessLog(file);
    var root := follower.target;
    assert Routed([]) == AccessLogTree([], [], []);
    ghost var start := follower.cursor;
    var i := 0;
    while i < |appended|
      invariant 0 <= i <= |appended|
      invariant follower.Valid() && follower.cursor == start + i && follower.target == root
      invariant file.lines == old(file.lines) + appended[..i]
      invariant root.View() == Routed(appended[..i])
    {
      var err := WriteAndPoll(follower, appended[i]);
      RoutedSnoc(appended[..i], appended[i]);
      assert appended[..i + 1] == appended[..i] + [appended[i]];
      i := i + 1;
    }
    assert appended[..i] == appended;
    AccessLogPrinted(root, sinks, Python.Grep("python", appended), Python.Grep("ply", appended), Python.Grep("swig", appended));
    python, ply, swig := sinks[0].printed, sinks[1].printed, sinks[2].printed;
  }
}
