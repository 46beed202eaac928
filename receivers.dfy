/** The receive loops that print what they are sent: the echo `coroutine` and
    the `print_name`/`grep` coroutines of materials/send_coroutines.py, the
    `print_name` of materials/close_coroutines.py with its GeneratorExit
    handler, and the `coroutine` decorator of materials/decorator.py with its
    demo `grep`. What a generator prints is kept as its own output sequence. */
module Receivers {
  import opened Python

  // ---------------------------------------------------------------------
  // The echo coroutine: `value = yield; print(value)` forever.

  /** The frame of the echo coroutine and the values it has printed (`None`
      included: `next` prints None once the coroutine is started). */
  datatype EchoState = EchoState(status: Status, printed: seq<Option<int>>)

  datatype EchoStep = EchoStep(state: EchoState, out: Outcome<()>)

  /** `i.send(sent)`: the first call must send None and only starts the loop;
      every later one prints the sent value. */
  function EchoSend(s: EchoState, sent: Option<int>): (r: EchoStep)
    ensures s.status == Created ==> r.state.printed == s.printed
    ensures s.status == Suspended ==> r == EchoStep(EchoState(Suspended, s.printed + [sent]), Yielded(()))
    ensures r.out.Raised? <==> (s.status == Created && sent.Some?) || s.status == Finished
    ensures r.out.Raised? ==> r.state == s
  {
    match s.status
    case Created =>
      if sent.Some? then EchoStep(s, Raised(TypeError)) else EchoStep(EchoState(Suspended, s.printed), Yielded(()))
    case Suspended => EchoStep(EchoState(Suspended, s.printed + [sent]), Yielded(()))
    case Finished => EchoStep(s, Raised(StopIteration))
  }

  /** Sending the values one after another, stopping at the first exception. */
  function EchoFeed(s: EchoState, sent: seq<Option<int>>): EchoStep
    decreases |sent|
  {
    if sent == [] then EchoStep(s, Yielded(()))
    else
      var r := EchoSend(s, sent[0]);
      if r.out.Raised? then r else EchoFeed(r.state, sent[1..])
  }

  /** Once primed, the coroutine prints every value it is sent, in order. */
  lemma {:induction false} EchoPrintsAll(printed: seq<Option<int>>, sent: seq<Option<int>>)
    ensures EchoFeed(EchoState(Suspended, printed), sent) == EchoStep(EchoState(Suspended, printed + sent), Yielded(()))
    decreases |sent|
  {
    if sent != [] {
      EchoPrintsAll(printed + [sent[0]], sent[1..]);
      assert printed + [sent[0]] + sent[1..] == printed + sent;
    }
  }

  /** A generator object returned by `coroutine()`. */
  class Echo {
    var status: Status
    var printed: seq<Option<int>>

    function State(): EchoState
      reads this
    {
      EchoState(status, printed)
    }

    constructor ()
      ensures State() == EchoState(Created, [])
    {
      status := Created;
      printed := [];
    }

    method Send(sent: Option<int>) returns (out: Outcome<()>)
      modifies this
      ensures EchoSend(old(State()), sent) == EchoStep(State(), out)
    {
      match status {
        case Created =>
          if sent.Some? {
            return Raised(TypeError);
          }
          status := Suspended;
        case Suspended =>
          printed := printed + [sent];
        case Finished =>
          return Raised(StopIteration);
      }
      out := Yielded(());
    }
  }

  /** The demo: `send(None)` starts it, then 1 and 10 are printed. */
  method EchoDemo() returns (printed: seq<Option<int>>)
    ensures printed == [Some(1), Some(10)]
  {
    var i := new Echo();
    var a := i.Send(None);
    var b := i.Send(Some(1));
    var c := i.Send(Some(10));
    printed := i.printed;
  }

  // ---------------------------------------------------------------------
  // The search coroutines: print a banner, then print each sent string that
  // contains the pattern.

  /** One of the search coroutines: the banner its body prints before the
      loop, the pattern, whether a match is printed as `Matched: '...'`, and
      what its GeneratorExit handler prints, if it has one. */
  datatype Search = Search(banner: string, pattern: string, framed: bool, onClose: Option<string>)

  /** `print_name(prefix)` of materials/send_coroutines.py; `print` puts a
      space between its three arguments. */
  function SendPrintName(prefix: string): Search
  {
    Search("Search for " + " " + prefix + " " + " prefix", prefix, false, None)
  }

  /** `print_name(prefix)` of materials/close_coroutines.py. */
  function ClosePrintName(prefix: string): Search
  {
    Search("Search for " + prefix + " prefix", prefix, false, Some("Closing generator!"))
  }

  /** `grep(pattern)` of materials/send_coroutines.py. */
  function SendGrep(pattern: string): Search
  {
    Search("Search for '" + pattern + "' pattern", pattern, true, None)
  }

  /** The decorated demo `grep(pattern)` of materials/decorator.py. */
  function DecoratedGrep(pattern: string): Search
  {
    Search("Search for '" + pattern + "' pattern", pattern, false, None)
  }

  /** What the coroutine prints for a matching string. */
  function Shown(g: Search, value: string): string
  {
    if g.framed then "Matched: '" + value + "'" else value
  }

  /** What it prints for each of several matching strings, in order. */
  function ShownAll(g: Search, values: seq<string>): (r: seq<string>)
    ensures |r| == |values|
    ensures forall i :: 0 <= i < |values| ==> r[i] == Shown(g, values[i])
  {
    if values == [] then [] else [Shown(g, values[0])] + ShownAll(g, values[1..])
  }

  /** The frame of a search coroutine and what it has printed. */
  datatype SearchState = SearchState(status: Status, printed: seq<string>)

  datatype SearchStep = SearchStep(state: SearchState, out: Outcome<()>)

  /** `g.send(sent)`; `next(g)` is `g.send(None)`. Starting runs the body up
      to the first `yield`, which prints the banner. A started coroutine
      prints the sent string iff it contains the pattern; None makes the `in`
      test raise TypeError, which finishes the coroutine. */
  function SearchSend(g: Search, s: SearchState, sent: Option<string>): (r: SearchStep)
    ensures s.status == Created && sent.None? ==> r == SearchStep(SearchState(Suspended, s.printed + [g.banner]), Yielded(()))
    ensures s.status == Created && sent.Some? ==> r == SearchStep(s, Raised(TypeError))
    ensures s.status == Suspended && sent.Some? ==>
      r == SearchStep(SearchState(Suspended, s.printed + (if Contains(g.pattern, sent.value) then [Shown(g, sent.value)] else [])), Yielded(()))
    ensures s.status == Suspended && sent.None? ==> r == SearchStep(s.(status := Finished), Raised(TypeError))
    ensures s.status == Finished ==> r == SearchStep(s, Raised(StopIteration))
  {
    match s.status
    case Created =>
      if sent.Some? then SearchStep(s, Raised(TypeError))
      else SearchStep(SearchState(Suspended, s.printed + [g.banner]), Yielded(()))
    case Suspended =>
      if sent.None? then SearchStep(s.(status := Finished), Raised(TypeError))
      else if Contains(g.pattern, sent.value) then SearchStep(SearchState(Suspended, s.printed + [Shown(g, sent.value)]), Yielded(()))
      else SearchStep(s, Yielded(()))
    case Finished => SearchStep(s, Raised(StopIteration))
  }

  /** What a caller of `send` sees: the coroutine yields exactly when it can
      take another string, a raising call prints nothing, and a call prints
      at most one line, which is the banner when starting and otherwise the
      sent string, shown, because it contains the pattern. */
  lemma SearchSendOutput(g: Search, s: SearchState, sent: Option<string>)
    ensures var r := SearchSend(g, s, sent);
      (r.out.Yielded? <==> r.state.status == Suspended) &&
      (r.out.Raised? ==> r.state.printed == s.printed) &&
      s.printed <= r.state.printed && |r.state.printed| <= |s.printed| + 1
    ensures var r := SearchSend(g, s, sent);
      |r.state.printed| > |s.printed| ==>
        (s.status == Created && r.state.printed[|s.printed|] == g.banner) ||
        (s.status == Suspended && sent.Some? && Contains(g.pattern, sent.value) &&
         r.state.printed[|s.printed|] == Shown(g, sent.value))
  {
  }

  /** `g.close()`: a suspended coroutine gets GeneratorExit at its `yield`
      and runs its handler, if any, before finishing; one that never started
      finishes without running any of its body. */
  function SearchClose(g: Search, s: SearchState): (r: SearchState)
    ensures r.status == Finished
    ensures s.status == Suspended && g.onClose.Some? ==> r.printed == s.printed + [g.onClose.value]
    ensures !(s.status == Suspended && g.onClose.Some?) ==> r.printed == s.printed
  {
    if s.status == Suspended && g.onClose.Some? then SearchState(Finished, s.printed + [g.onClose.value])
    else s.(status := Finished)
  }

  /** A closed search coroutine stays closed: a later `send` or `next`
      raises StopIteration and prints nothing, and closing it again prints
      nothing. */
  lemma ClosedSearchRejects(g: Search, s: SearchState, sent: Option<string>)
    ensures SearchSend(g, SearchClose(g, s), sent) == SearchStep(SearchClose(g, s), Raised(StopIteration))
    ensures SearchClose(g, SearchClose(g, s)) == SearchClose(g, s)
  {
  }

  /** Sending the strings one after another. */
  function SearchFeed(g: Search, s: SearchState, sent: seq<string>): SearchStep
    decreases |sent|
  {
    if sent == [] then SearchStep(s, Yielded(()))
    else
      var r := SearchSend(g, s, Some(sent[0]));
      if r.out.Raised? then r else SearchFeed(g, r.state, sent[1..])
  }

  /** A started search coroutine prints exactly the sent strings that contain
      its pattern, in the order they were sent, and nothing else. */
  lemma {:induction false} SearchPrintsMatches(g: Search, printed: seq<string>, sent: seq<string>)
    ensures SearchFeed(g, SearchState(Suspended, printed), sent) ==
      SearchStep(SearchState(Suspended, printed + ShownAll(g, Grep(g.pattern, sent))), Yielded(()))
    decreases |sent|
  {
    if sent != [] {
      var x := sent[0];
      var rest := Grep(g.pattern, sent[1..]);
      var now := if Contains(g.pattern, x) then [Shown(g, x)] else [];
      SearchFeedFirst(g, printed, sent);
      SearchPrintsMatches(g, printed + now, sent[1..]);
      ShownAllFirst(g, sent);
      assert printed + now + ShownAll(g, rest) == printed + (now + ShownAll(g, rest));
    }
  }

  /** The first string sent to a started search coroutine. */
  lemma SearchFeedFirst(g: Search, printed: seq<string>, sent: seq<string>)
    requires sent != []
    ensures SearchFeed(g, SearchState(Suspended, printed), sent) ==
      SearchFeed(g, SearchState(Suspended, printed + (if Contains(g.pattern, sent[0]) then [Shown(g, sent[0])] else [])), sent[1..])
  {
  }

  /** What is printed for the matches of several strings starts with what is
      printed for the first. */
  lemma ShownAllFirst(g: Search, sent: seq<string>)
    requires sent != []
    ensures ShownAll(g, Grep(g.pattern, sent)) ==
      (if Contains(g.pattern, sent[0]) then [Shown(g, sent[0])] else []) + ShownAll(g, Grep(g.pattern, sent[1..]))
  {
    var rest := Grep(g.pattern, sent[1..]);
    if Contains(g.pattern, sent[0]) {
      assert Grep(g.pattern, sent) == [sent[0]] + rest;
      assert ([sent[0]] + rest)[1..] == rest;
    } else {
      assert Grep(g.pattern, sent) == rest;
    }
  }

  /** A generator object returned by one of the search coroutines. */
  class SearchCoroutine {
    const search: Search
    var status: Status
    var printed: seq<string>

    function State(): SearchState
      reads this
    {
      SearchState(status, printed)
    }

    constructor (search: Search)
      ensures this.search == search && State() == SearchState(Created, [])
    {
      this.search := search;
      status := Created;
      printed := [];
    }

    method Send(sent: Option<string>) returns (out: Outcome<()>)
      modifies this
      ensures SearchSend(search, old(State()), sent) == SearchStep(State(), out)
    {
      match status {
        case Created =>
          if sent.Some? {
            return Raised(TypeError);
          }
          printed := printed + [search.banner];
          status := Suspended;
        case Suspended =>
          if sent.None? {
            status := Finished;
            return Raised(TypeError);
          }
          if Contains(search.pattern, sent.value) {
            printed := printed + [Shown(search, sent.value)];
          }
        case Finished =>
          return Raised(StopIteration);
      }
      out := Yielded(());
    }

    method Close()
      modifies this
      ensures State() == SearchClose(search, old(State()))
    {
      if status == Suspended && search.onClose.Some? {
        printed := printed + [search.onClose.value];
      }
      status := Finished;
    }
  }

  /** The `coroutine` decorator: the wrapped function is called with the
      caller's arguments, and the generator is advanced to its first `yield`
      before it is returned, so the code before that `yield` has run exactly
      once and the first `send` is delivered to the loop. */
  method Start(search: Search) returns (cr: SearchCoroutine)
    ensures fresh(cr)
    ensures cr.search == search
    ensures cr.State() == SearchState(Suspended, [search.banner])
  {
    cr := new SearchCoroutine(search);
    var out := cr.Send(None);
  }

  /** Which demo strings contain "Dear". */
  lemma DearAlex()
    ensures !Contains("Dear", "Alex") && Contains("Dear", "Dear Alex")
  {
    MissingFirstChar("Dear", "Alex");
    PrefixContained("Dear", " Alex");
    assert "Dear" + " Alex" == "Dear Alex";
  }

  /** Which demo strings contain "hey": "hello" shares only its first letter. */
  lemma HeyHello()
    ensures !Contains("hey", "hello") && Contains("hey", "hey") && Contains("hey", "hey Mike")
  {
    assert "hello"[..3] == "hel" != "hey" && "hello"[1..] == "ello";
    assert "ello"[..3] != "hey" && "ello"[1..] == "llo";
    assert "llo"[..3] != "hey" && "llo"[1..] == "lo";
    PrefixContained("hey", "");
    assert "hey" + "" == "hey";
    PrefixContained("hey", " Mike");
    assert "hey" + " Mike" == "hey Mike";
  }

  /** The `print_name("Dear")` demo of materials/send_coroutines.py: "Alex"
      is not printed, "Dear Alex" is. */
  method PrintNameDemo() returns (printed: seq<string>)
    ensures printed == ["Search for  Dear  prefix", "Dear Alex"]
  {
    var pn := new SearchCoroutine(SendPrintName("Dear"));
    var a := pn.Send(None);
    assert SendPrintName("Dear").banner == "Search for  Dear  prefix";
    DearAlex();
    var b := pn.Send(Some("Alex"));
    var c := pn.Send(Some("Dear Alex"));
    printed := pn.printed;
  }

  /** The `grep("hey")` demo of materials/send_coroutines.py. */
  method GrepDemo() returns (printed: seq<string>)
    ensures printed == ["Search for 'hey' pattern", "Matched: 'hey'", "Matched: 'hey Mike'"]
  {
    var g := new SearchCoroutine(SendGrep("hey"));
    var a := g.Send(None);
    assert SendGrep("hey").banner == "Search for 'hey' pattern";
    assert Shown(SendGrep("hey"), "hey") == "Matched: 'hey'";
    assert Shown(SendGrep("hey"), "hey Mike") == "Matched: 'hey Mike'";
    HeyHello();
    var b := g.Send(Some("hello"));
    var c := g.Send(Some("hey"));
    var d := g.Send(Some("hey Mike"));
    printed := g.printed;
  }

  /** The `print_name("Dear")` demo of materials/close_coroutines.py. */
  method ClosePrintNameDemo() returns (printed: seq<string>)
    ensures printed == ["Search for Dear prefix", "Dear Alex"]
  {
    var pn := new SearchCoroutine(ClosePrintName("Dear"));
    var a := pn.Send(None);
    assert ClosePrintName("Dear").banner == "Search for Dear prefix";
    DearAlex();
    var b := pn.Send(Some("Alex"));
    var c := pn.Send(Some("Dear Alex"));
    printed := pn.printed;
  }

  /** Closing the suspended `print_name` of materials/close_coroutines.py runs
      its GeneratorExit handler: "Closing generator!" is its last output, and
      closing it again prints nothing more. */
  lemma ClosingPrintsFarewell(prefix: string, printed: seq<string>)
    ensures SearchClose(ClosePrintName(prefix), SearchState(Suspended, printed)) == SearchState(Finished, printed + ["Closing generator!"])
    ensures SearchClose(ClosePrintName(prefix), SearchState(Finished, printed)) == SearchState(Finished, printed)
  {
  }

  /** `g.send(line)` on the started demo `grep("python")` for a line
      without "p": nothing is printed. */
  method SendUnmatched(g: SearchCoroutine, line: string)
    requires g.search == DecoratedGrep("python") && g.status == Suspended
    requires 'p' !in line
    modifies g
    ensures g.status == Suspended && g.printed == old(g.printed)
  {
    MissingFirstChar("python", line);
    var out := g.Send(Some(line));
  }

  /** `g.send(line)` on the started demo `grep("python")` for a line that
      starts with "python": the line is printed. */
  method SendMatched(g: SearchCoroutine, line: string)
    requires g.search == DecoratedGrep("python") && g.status == Suspended
    requires |line| >= 6 && line[..6] == "python"
    modifies g
    ensures g.status == Suspended && g.printed == old(g.printed) + [line]
  {
    PrefixContained("python", line[6..]);
    assert "python" + line[6..] == line;
    var out := g.Send(Some(line));
  }

  /** The demo of materials/decorator.py: no `next` is needed, and of the
      three strings sent only "python generators rock!" is printed. */
  method DecoratorDemo() returns (printed: seq<string>)
    ensures printed == ["Search for 'python' pattern", "python generators rock!"]
  {
    var g := Start(DecoratedGrep("python"));
    assert DecoratedGrep("python").banner == "Search for 'python' pattern";
    SendUnmatched(g, "Yeah, but no, but yeah, but no");
    SendUnmatched(g, "A series of tubes");
    SendMatched(g, "python generators rock!");
    printed := g.printed;
  }
}
