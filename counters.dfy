/** The counting generators: `counter(maximum)` of materials/send_coroutines.py,
    close_coroutines.py and throw_coroutines.py (the same body in all three),
    and `generator(input_number)` of materials/coroutines.py. A generator
    object is a class whose fields are its lifecycle status and the locals of
    its frame; what one `next`/`send`/`close`/`throw` does is a function on the
    values of those fields. */
module Counters {
  import opened Python

  // ---------------------------------------------------------------------
  // counter(maximum)

  /** The frame of `counter(maximum)`: its status and the local `initial`. */
  datatype CounterState = CounterState(status: Status, initial: int)

  /** A call on a counter: the frame afterwards and what the caller gets. */
  datatype CounterStep = CounterStep(state: CounterState, out: Outcome<int>)

  /** The loop test `while initial < maximum`: yield `initial`, or return. */
  function CounterTest(maximum: int, initial: int): (r: CounterStep)
    ensures r.out.Yielded? <==> initial < maximum
    ensures r.out.Yielded? ==> r == CounterStep(CounterState(Suspended, initial), Yielded(initial))
    ensures r.out.Raised? ==> r == CounterStep(CounterState(Finished, initial), Raised(StopIteration))
  {
    if initial < maximum then CounterStep(CounterState(Suspended, initial), Yielded(initial))
    else CounterStep(CounterState(Finished, initial), Raised(StopIteration))
  }

  /** `c.send(sent)`; `next(c)` is `c.send(None)`. A value sent to a counter
      that has not started is refused; a started one continues from the sent
      value, or from `initial + 1` when nothing was sent. */
  function CounterSend(maximum: int, s: CounterState, sent: Option<int>): (r: CounterStep)
    ensures r.out.Yielded? ==> r.out.value < maximum && r.state == CounterState(Suspended, r.out.value)
    ensures s.status == Created && sent.Some? ==> r == CounterStep(s, Raised(TypeError))
    ensures s.status == Created && sent.None? ==> r == CounterTest(maximum, 0)
    ensures s.status == Suspended && sent.Some? ==> r == CounterTest(maximum, sent.value)
    ensures s.status == Suspended && sent.None? ==> r == CounterTest(maximum, s.initial + 1)
    ensures s.status == Finished ==> r == CounterStep(s, Raised(StopIteration))
  {
    match s.status
    case Created =>
      if sent.Some? then CounterStep(s, Raised(TypeError)) else CounterTest(maximum, 0)
    case Suspended =>
      CounterTest(maximum, if sent.Some? then sent.value else s.initial + 1)
    case Finished => CounterStep(s, Raised(StopIteration))
  }

  /** `c.close()`: the GeneratorExit raised at the `yield` is not caught, so
      the counter is finished; closing never raises. */
  function CounterClose(s: CounterState): (r: CounterState)
    ensures r.status == Finished && r.initial == s.initial
  {
    s.(status := Finished)
  }

  /** `c.throw(e)`: the counter has no handler, so it is finished and the
      exception comes back out of `throw` (as RuntimeError if it was
      StopIteration and the frame had not already finished). */
  function CounterThrow(s: CounterState, e: Exception): (r: CounterStep)
    ensures r.state == s.(status := Finished)
    ensures r.out.Raised?
    ensures e != StopIteration ==> r.out.error == e
    ensures e == StopIteration ==> r.out.error == (if s.status == Finished then StopIteration else RuntimeError)
  {
    if s.status == Finished then CounterStep(s, Raised(e))
    else CounterStep(s.(status := Finished), Raised(Escape(e)))
  }

  /** The values a `for` loop over the counter obtains from here on, with no
      value sent. */
  function CounterIterate(maximum: int, s: CounterState): seq<int>
    decreases match s.status
      case Finished => 0
      case Suspended => (if s.initial < maximum then maximum - s.initial else 0) + 1
      case Created => (if 0 < maximum then maximum else 0) + 2
  {
    var r := CounterSend(maximum, s, None);
    if r.out.Yielded? then [r.out.value] + CounterIterate(maximum, r.state) else []
  }

  /** Without sends, each step adds exactly one, until `maximum` is reached. */
  lemma {:induction false} CounterStepsByOne(maximum: int, initial: int)
    ensures CounterIterate(maximum, CounterState(Suspended, initial)) == Range(initial + 1, maximum)
    decreases maximum - initial
  {
    if initial + 1 < maximum {
      CounterStepsByOne(maximum, initial + 1);
    }
  }

  /** `for i in counter(maximum)` sees exactly 0, 1, ..., maximum - 1. */
  lemma CounterCountsToMaximum(maximum: int)
    ensures CounterIterate(maximum, CounterState(Created, 0)) == Range(0, maximum)
  {
    if 0 < maximum {
      CounterStepsByOne(maximum, 0);
    }
  }

  /** The loop test `while initial < maximum`: only values below `maximum`
      are yielded, and once the value reaches `maximum` the counter is
      finished, so every later `next` or `send` raises StopIteration. */
  lemma {:induction false} FinishesAtMaximum(maximum: int, initial: int, sent: Option<int>)
    ensures CounterTest(maximum, initial).out.Yielded? ==> CounterTest(maximum, initial).out.value < maximum
    ensures initial >= maximum ==>
      var r := CounterTest(maximum, initial);
      r.out == Raised(StopIteration) &&
      CounterSend(maximum, r.state, sent) == CounterStep(r.state, Raised(StopIteration))
  {
  }

  /** A closed counter stays closed: every later `next` or `send` raises
      StopIteration and changes nothing, and closing again changes nothing. */
  lemma ClosedCounterRejects(maximum: int, s: CounterState, sent: Option<int>)
    ensures CounterSend(maximum, CounterClose(s), sent) == CounterStep(CounterClose(s), Raised(StopIteration))
    ensures CounterClose(CounterClose(s)) == CounterClose(s)
  {
  }

  /** A generator object returned by `counter(maximum)`. */
  class Counter {
    const maximum: int
    var status: Status
    var initial: int

    function State(): CounterState
      reads this
    {
      CounterState(status, initial)
    }

    /** `counter(maximum)`: nothing of the body runs yet. */
    constructor (maximum: int)
      ensures this.maximum == maximum && State() == CounterState(Created, 0)
    {
      this.maximum := maximum;
      status := Created;
      initial := 0;
    }

    method Send(sent: Option<int>) returns (out: Outcome<int>)
      modifies this
      ensures CounterSend(maximum, old(State()), sent) == CounterStep(State(), out)
    {
      match status {
        case Finished =>
          return Raised(StopIteration);
        case Created =>
          if sent.Some? {
            return Raised(TypeError);
          }
          initial := 0;
        case Suspended =>
          if sent.Some? {
            initial := sent.value;
          } else {
            initial := initial + 1;
          }
      }
      if initial < maximum {
        status := Suspended;
        out := Yielded(initial);
      } else {
        status := Finished;
        out := Raised(StopIteration);
      }
    }

    method Next() returns (out: Outcome<int>)
      modifies this
      ensures CounterSend(maximum, old(State()), None) == CounterStep(State(), out)
    {
      out := Send(None);
    }

    method Close()
      modifies this
      ensures State() == CounterClose(old(State()))
    {
      status := Finished;
    }

    method Throw(e: Exception) returns (out: Outcome<int>)
      modifies this
      ensures CounterThrow(old(State()), e) == CounterStep(State(), out)
    {
      if status == Finished {
        out := Raised(e);
      } else {
        status := Finished;
        out := Raised(Escape(e));
      }
    }
  }

  /** The demo of materials/send_coroutines.py: `next`, `next`, `send(5)`,
      `next` on `counter(10)`; the three values printed are 0, 1 and 6. */
  method SendDemo() returns (printed: seq<int>, reply: Outcome<int>)
    ensures printed == [0, 1, 6]
    ensures reply == Yielded(5)
  {
    var c := new Counter(10);
    var a := c.Next();
    var b := c.Next();
    reply := c.Send(Some(5));
    var d := c.Next();
    printed := [a.value, b.value, d.value];
  }

  /** materials/close_coroutines.py: print each value of `counter(10)` and
      close it at 5. The loop prints 0 through 5 and ends without an error. */
  method CloseAtFive() returns (printed: seq<int>, err: Option<Exception>)
    ensures printed == Range(0, 6)
    ensures err == None
  {
    var c := new Counter(10);
    printed := [];
    var out := c.Next();
    while out.Yielded?
      invariant c.maximum == 10
      invariant printed == Range(0, |printed|)
      invariant out.Yielded? ==> c.State() == CounterState(Suspended, out.value) && out.value == |printed| <= 5
      invariant out.Raised? ==> out.error == StopIteration && |printed| == 6
      decreases 6 - |printed|
    {
      printed := printed + [out.value];
      if out.value == 5 {
        c.Close();
      }
      out := c.Next();
    }
    // The StopIteration of the closed counter ends the `for` loop quietly.
    err := match out
      case Raised(e) => if e == StopIteration then None else Some(e)
      case Yielded(_) => None;
  }

  /** materials/throw_coroutines.py: print each value of `counter(10)` and
      throw ValueError into it at 5. The loop prints 0 through 5, nothing
      after, and the ValueError leaves the loop. */
  method ThrowAtFive() returns (printed: seq<int>, err: Option<Exception>)
    ensures printed == Range(0, 6)
    ensures err == Some(ValueError)
  {
    var c := new Counter(10);
    printed := [];
    err := None;
    var out := c.Next();
    while out.Yielded? && err.None?
      invariant c.maximum == 10
      invariant printed == Range(0, |printed|)
      invariant err.None? ==> out.Yielded? && c.State() == CounterState(Suspended, out.value) && out.value == |printed| <= 5
      invariant err.Some? ==> err == Some(ValueError) && |printed| == 6
      decreases 6 - |printed|
    {
      printed := printed + [out.value];
      if out.value == 5 {
        // An exception raised by `throw` in the loop body leaves the loop.
        var thrown := c.Throw(ValueError);
        err := Some(thrown.error);
      } else {
        out := c.Next();
      }
    }
  }

  // ---------------------------------------------------------------------
  // generator(input_number)

  /** Where the frame of `generator(input_number)` is: not started, at the
      first bare `yield`, at `yield number` inside the loop, or finished. */
  datatype Point = NotStarted | AtFirstYield | InLoop | Returned

  /** The frame: where it is suspended and the local `number`. */
  datatype NumberState = NumberState(point: Point, number: int)

  datatype NumberStep = NumberStep(state: NumberState, out: Outcome<Option<int>>)

  /** The loop test `while number < input_number`. */
  function NumberTest(inputNumber: int, number: int): (r: NumberStep)
    ensures r.out.Yielded? <==> number < inputNumber
    ensures r.out.Yielded? ==> r == NumberStep(NumberState(InLoop, number), Yielded(Some(number)))
    ensures r.out.Raised? ==> r == NumberStep(NumberState(Returned, number), Raised(StopIteration))
  {
    if number < inputNumber then NumberStep(NumberState(InLoop, number), Yielded(Some(number)))
    else NumberStep(NumberState(Returned, number), Raised(StopIteration))
  }

  /** `g.send(sent)`. The first `next` stops at the bare `yield`, which gives
      None. The value sent there is compared with `input_number` (None makes
      `<` raise TypeError); a value sent inside the loop is first increased by
      one (None makes `+` raise TypeError). A TypeError finishes the generator. */
  function NumberSend(inputNumber: int, s: NumberState, sent: Option<int>): (r: NumberStep)
    ensures s.point == NotStarted && sent.Some? ==> r == NumberStep(s, Raised(TypeError))
    ensures s.point == NotStarted && sent.None? ==> r == NumberStep(NumberState(AtFirstYield, s.number), Yielded(None))
    ensures s.point == AtFirstYield && sent.Some? ==> r == NumberTest(inputNumber, sent.value)
    ensures s.point == InLoop && sent.Some? ==> r == NumberTest(inputNumber, sent.value + 1)
    ensures s.point in {AtFirstYield, InLoop} && sent.None? ==>
      r == NumberStep(NumberState(Returned, s.number), Raised(TypeError))
    ensures s.point == Returned ==> r == NumberStep(s, Raised(StopIteration))
    ensures r.out.Yielded? && r.out.value.Some? ==> r.out.value.value < inputNumber
  {
    match s.point
    case NotStarted =>
      if sent.Some? then NumberStep(s, Raised(TypeError))
      else NumberStep(NumberState(AtFirstYield, s.number), Yielded(None))
    case AtFirstYield =>
      if sent.None? then NumberStep(NumberState(Returned, s.number), Raised(TypeError))
      else NumberTest(inputNumber, sent.value)
    case InLoop =>
      if sent.None? then NumberStep(NumberState(Returned, s.number), Raised(TypeError))
      else NumberTest(inputNumber, sent.value + 1)
    case Returned => NumberStep(s, Raised(StopIteration))
  }

  /** A generator object returned by `generator(input_number)`. */
  class NumberGenerator {
    const inputNumber: int
    var point: Point
    var number: int

    function State(): NumberState
      reads this
    {
      NumberState(point, number)
    }

    constructor (inputNumber: int)
      ensures this.inputNumber == inputNumber && State() == NumberState(NotStarted, 0)
    {
      this.inputNumber := inputNumber;
      point := NotStarted;
      number := 0;
    }

    method Send(sent: Option<int>) returns (out: Outcome<Option<int>>)
      modifies this
      ensures NumberSend(inputNumber, old(State()), sent) == NumberStep(State(), out)
    {
      match point {
        case Returned =>
          return Raised(StopIteration);
        case NotStarted =>
          if sent.Some? {
            return Raised(TypeError);
          }
          point := AtFirstYield;
          return Yielded(None);
        case AtFirstYield =>
          if sent.None? {
            point := Returned;
            return Raised(TypeError);
          }
          number := sent.value;
        case InLoop =>
          if sent.None? {
            point := Returned;
            return Raised(TypeError);
          }
          number := sent.value + 1;
      }
      if number < inputNumber {
        point := InLoop;
        out := Yielded(Some(number));
      } else {
        point := Returned;
        out := Raised(StopIteration);
      }
    }
  }

  /** The loop test `while number < input_number`: only values below
      `input_number` are yielded, and a value at or above it ends the
      generator, so every later `next` or `send` raises StopIteration. */
  lemma {:induction false} NumberFinishesAtInput(inputNumber: int, number: int, sent: Option<int>)
    ensures NumberTest(inputNumber, number).out.Yielded? ==>
      NumberTest(inputNumber, number).out == Yielded(Some(number)) && number < inputNumber
    ensures number >= inputNumber ==>
      var r := NumberTest(inputNumber, number);
      r.out == Raised(StopIteration) &&
      NumberSend(inputNumber, r.state, sent) == NumberStep(r.state, Raised(StopIteration))
  {
  }

  /** A value can only be sent once the generator has been primed. */
  lemma MustPrimeFirst(inputNumber: int, v: int)
    ensures NumberSend(inputNumber, NumberState(NotStarted, 0), Some(v)).out == Raised(TypeError)
    ensures NumberSend(inputNumber, NumberState(NotStarted, 0), None).out == Yielded(None)
  {
  }

  /** Once a value has been yielded, the next value tested and yielded is the
      sent value plus one, and resuming with `next` is a TypeError. */
  lemma NextValueIsSentPlusOne(inputNumber: int, s: NumberState, v: int)
    requires s.point == InLoop
    ensures NumberSend(inputNumber, s, Some(v)).out == (if v + 1 < inputNumber then Yielded(Some(v + 1)) else Raised(StopIteration))
    ensures NumberSend(inputNumber, s, None).out == Raised(TypeError)
  {
  }

  /** A first sent value at or above `input_number` finishes the generator
      without yielding. */
  lemma LargeFirstValueFinishes(inputNumber: int, v: int)
    requires v >= inputNumber
    ensures NumberSend(inputNumber, NumberState(AtFirstYield, 0), Some(v)) == NumberStep(NumberState(Returned, v), Raised(StopIteration))
  {
  }

  /** The demo of materials/coroutines.py: `g = generator(10)`, `next(g)`,
      then `g.send(5)` gives 5. */
  method PrimeThenSend() returns (primed: Outcome<Option<int>>, reply: Outcome<Option<int>>)
    ensures primed == Yielded(None)
    ensures reply == Yielded(Some(5))
  {
    var g := new NumberGenerator(10);
    primed := g.Send(None);
    reply := g.Send(Some(5));
  }
}
