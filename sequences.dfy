/** The finite iterators: class `Countdown` of materials/countdown.py,
    `countdown_from` and `increment` of materials/yielding.py, `doubles_of`
    and its `islice` window of materials/slice_generators.py, and the two
    generator expressions of materials/generator_expressions.py. Each is
    described by the sequence of values it yields. */
module Sequences {
  import opened Python

  // ---------------------------------------------------------------------
  // materials/countdown.py

  /** s, s - 1, ..., 1; nothing when s <= 0. */
  function CountdownValues(s: int): (r: seq<int>)
    ensures |r| == if s > 0 then s else 0
    ensures forall i :: 0 <= i < |r| ==> r[i] == s - i
    decreases s
  {
    if s <= 0 then [] else [s] + CountdownValues(s - 1)
  }

  /** 1, 2, ..., s; nothing when s <= 0. */
  function CountUpValues(s: int): (r: seq<int>)
    ensures |r| == if s > 0 then s else 0
    ensures forall i :: 0 <= i < |r| ==> r[i] == i + 1
    decreases s
  {
    if s <= 0 then [] else CountUpValues(s - 1) + [s]
  }

  /** Counting up to s is counting down from s backwards. */
  lemma CountUpIsReversedCountdown(s: int)
    ensures CountUpValues(s) == Reverse(CountdownValues(s))
  {
    var up, down := CountUpValues(s), Reverse(CountdownValues(s));
    assert forall i :: 0 <= i < |up| ==> up[i] == down[i];
  }

  /** An object that can be iterated forwards and backwards. */
  class Countdown {
    var start: int

    constructor (start: int)
      ensures this.start == start
    {
      this.start := start;
    }

    /** `__iter__`: counts `number` down from `start` while it is positive.
        It changes nothing, so iterating again gives the same values. */
    method Iter() returns (values: seq<int>)
      ensures values == CountdownValues(start)
    {
      var number := start;
      values := [];
      while number > 0
        invariant number <= start
        invariant |values| == if number > 0 then start - number else |CountdownValues(start)|
        invariant forall i :: 0 <= i < |values| ==> values[i] == start - i
        decreases number
      {
        values := values + [number];
        number := number - 1;
      }
    }

    /** `__reversed__`: counts `number` up from 1 while it is at most `start`. */
    method Reversed() returns (values: seq<int>)
      ensures values == CountUpValues(start)
    {
      var number := 1;
      values := [];
      while number <= start
        invariant 1 <= number <= (if start > 0 then start else 0) + 1
        invariant values == CountUpValues(number - 1)
        decreases start - number
      {
        values := values + [number];
        number := number + 1;
      }
    }
  }

  /** The demo: `Countdown(10)` forwards gives 10 down to 1, and `reversed`
      gives the same values backwards. */
  method CountdownDemo() returns (forward: seq<int>, backward: seq<int>)
    ensures forward == [10, 9, 8, 7, 6, 5, 4, 3, 2, 1]
    ensures backward == Reverse(forward)
  {
    var c := new Countdown(10);
    forward := c.Iter();
    var r := new Countdown(10);
    backward := r.Reversed();
    CountUpIsReversedCountdown(10);
  }

  // ---------------------------------------------------------------------
  // materials/yielding.py

  /** A line the `countdown_from` demo prints: the generator's greeting, a
      value printed by the loop, or the generator's "Done!". */
  datatype Line = Starting(from: int) | Count(value: int) | DoneLine

  /** The loop's `print(count)` for each value. */
  function Counts(values: seq<int>): (r: seq<Line>)
    ensures |r| == |values|
    ensures forall i :: 0 <= i < |values| ==> r[i] == Count(values[i])
  {
    if values == [] then [] else [Count(values[0])] + Counts(values[1..])
  }

  /** `for count in countdown_from(number): print(count)`: the generator
      prints its greeting when first resumed and "Done!" when its loop ends,
      after the last value. */
  method CountdownFrom(number: int) returns (values: seq<int>, printed: seq<Line>)
    ensures values == CountdownValues(number)
    ensures printed == [Starting(number)] + Counts(values) + [DoneLine]
    ensures printed[|printed| - 1] == DoneLine
    ensures forall i :: 0 <= i < |printed| - 1 ==> printed[i] != DoneLine
  {
    printed := [Starting(number)];
    values := [];
    var n := number;
    while n > 0
      invariant values + CountdownValues(n) == CountdownValues(number)
      invariant printed == [Starting(number)] + Counts(values)
      decreases n
    {
      assert CountdownValues(n) == [n] + CountdownValues(n - 1);
      values := values + [n];
      printed := printed + [Count(n)];
      assert Counts(values) == Counts(values[..|values| - 1]) + [Count(n)];
      n := n - 1;
    }
    printed := printed + [DoneLine];
  }

  /** `increment(start, stop)`: delegates to `range(start, stop)`. */
  function Increment(start: int, stop: int): (r: seq<int>)
    ensures |r| == if start < stop then stop - start else 0
    ensures forall i :: 0 <= i < |r| ==> r[i] == start + i
  {
    Range(start, stop)
  }

  /** `countdown_from(n)` yields `increment(1, n + 1)` backwards. */
  lemma CountdownIsReversedIncrement(n: int)
    ensures CountdownValues(n) == Reverse(Increment(1, n + 1))
  {
    var down, inc := CountdownValues(n), Reverse(Increment(1, n + 1));
    assert forall i :: 0 <= i < |down| ==> down[i] == inc[i];
  }

  // ---------------------------------------------------------------------
  // materials/slice_generators.py

  /** `2 * num` for each `num`. */
  function Doubled(s: seq<int>): (r: seq<int>)
    ensures |r| == |s|
    ensures forall i :: 0 <= i < |s| ==> r[i] == 2 * s[i]
  {
    if s == [] then [] else [2 * s[0]] + Doubled(s[1..])
  }

  /** `doubles_of(number)`. */
  function DoublesOf(number: int): (r: seq<int>)
    ensures |r| == if number > 0 then number else 0
    ensures forall i :: 0 <= i < |r| ==> r[i] == 2 * i
  {
    Doubled(Range(0, number))
  }

  /** Every element is even, and the sequence strictly increases. */
  lemma DoublesEvenAndIncreasing(number: int)
    ensures forall i :: 0 <= i < |DoublesOf(number)| ==> DoublesOf(number)[i] % 2 == 0
    ensures forall i, j :: 0 <= i < j < |DoublesOf(number)| ==> DoublesOf(number)[i] < DoublesOf(number)[j]
  {
  }

  /** `itertools.islice(it, start, stop)`: the elements at indices
      `start <= i < stop` that the iterator has. */
  function ISlice<T>(s: seq<T>, start: nat, stop: nat): (r: seq<T>)
    ensures |r| == if start < stop && start < |s| then (if stop < |s| then stop else |s|) - start else 0
    ensures forall i :: 0 <= i < |r| ==> r[i] == s[start + i]
  {
    var hi := if stop < |s| then stop else |s|;
    if start < hi then s[start..hi] else []
  }

  /** The demo's window `islice(doubles_of(50), 10, 15)`: elements 10 to 14,
      five of them because 15 <= 50, and the same for any `number >= 15`. */
  lemma DoublesWindow(number: int)
    requires number >= 15
    ensures ISlice(DoublesOf(number), 10, 15) == [20, 22, 24, 26, 28]
  {
    var d := DoublesOf(number);
    assert ISlice(d, 10, 15) == d[10..15];
    assert d[10..15] == [d[10], d[11], d[12], d[13], d[14]];
  }

  // ---------------------------------------------------------------------
  // materials/generator_expressions.py

  /** `(num for num in s if num % 2 == 0)`. */
  function KeepEven(s: seq<int>): (r: seq<int>)
    ensures |r| <= |s|
    ensures forall x :: x in r <==> x in s && x % 2 == 0
  {
    if s == [] then []
    else (if s[0] % 2 == 0 then [s[0]] else []) + KeepEven(s[1..])
  }

  /** `even_numbers`. */
  function EvenNumbers(): seq<int>
  {
    KeepEven(Range(0, 15))
  }

  /** From an even `lo`, the even numbers of `range(lo, hi)` are lo, lo + 2,
      and so on below `hi`. */
  lemma {:induction false} EvensOfRange(lo: int, hi: int)
    requires lo % 2 == 0
    ensures |KeepEven(Range(lo, hi))| == if lo < hi then (hi - lo + 1) / 2 else 0
    ensures forall i :: 0 <= i < |KeepEven(Range(lo, hi))| ==> KeepEven(Range(lo, hi))[i] == lo + 2 * i
    decreases hi - lo
  {
    if lo + 1 < hi {
      EvensOfRange(lo + 2, hi);
      assert Range(lo, hi)[1..] == Range(lo + 1, hi);
      assert Range(lo + 1, hi)[1..] == Range(lo + 2, hi);
      assert KeepEven(Range(lo + 1, hi)) == KeepEven(Range(lo + 2, hi));
      assert KeepEven(Range(lo, hi)) == [lo] + KeepEven(Range(lo + 2, hi));
    } else if lo < hi {
      assert Range(lo, hi) == [lo];
    }
  }

  /** `even_numbers` is 0, 2, ..., 14: 8 elements, element i being 2 * i,
      so every one is even, below 15, and they ascend. */
  lemma EvenNumbersAre()
    ensures |EvenNumbers()| == 8
    ensures forall i :: 0 <= i < 8 ==> EvenNumbers()[i] == 2 * i
  {
    EvensOfRange(0, 15);
  }

  /** `element * multiplier` for each `element`. */
  function Scaled(s: seq<int>, multiplier: int): (r: seq<int>)
    ensures |r| == |s|
    ensures forall i :: 0 <= i < |s| ==> r[i] == s[i] * multiplier
  {
    if s == [] then [] else [s[0] * multiplier] + Scaled(s[1..], multiplier)
  }

  /** `multiply_each_by(multiplier)`: five elements, element i being
      i * multiplier, so the first is always 0. */
  function MultiplyEachBy(multiplier: int): (r: seq<int>)
    ensures |r| == 5
    ensures forall i :: 0 <= i < 5 ==> r[i] == i * multiplier
    ensures r[0] == 0
  {
    Scaled(Range(0, 5), multiplier)
  }

  /** The demo: `multiply_each_by(3)` is 0, 3, 6, 9, 12. */
  lemma MultiplyByThree()
    ensures MultiplyEachBy(3) == [0, 3, 6, 9, 12]
  {
    var r := MultiplyEachBy(3);
    assert r[0] == 0 && r[1] == 3 && r[2] == 6 && r[3] == 9 && r[4] == 12;
  }
}
