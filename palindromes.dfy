/** `is_palindrome_number` and the `infinite_palindromes` generator of
    materials/send_coroutines.py. `str(number)` is the decimal digit string
    of a non-negative number, `[::-1]` reverses it and `int` reads it back
    (leading zeros allowed); on a negative number the reversed string ends
    in "-" and `int` raises ValueError. */
module Palindromes {
  import opened Python

  /** A sequence of decimal digits. */
  predicate IsDigits(ds: seq<int>)
  {
    forall i :: 0 <= i < |ds| ==> 0 <= ds[i] <= 9
  }

  /** `str(n)` for n >= 0, as digits, most significant first. */
  function Digits(n: nat): (ds: seq<int>)
    ensures |ds| >= 1 && IsDigits(ds)
    ensures n >= 10 ==> ds[0] != 0
    decreases n
  {
    if n < 10 then [n] else Digits(n / 10) + [n % 10]
  }

  /** `int(s)` of a digit string: leading zeros do not count. */
  function Value(ds: seq<int>): int
  {
    if ds == [] then 0 else Value(ds[..|ds| - 1]) * 10 + ds[|ds| - 1]
  }

  /** `int(str(n)) == n`. */
  lemma {:induction false} ValueOfDigits(n: nat)
    ensures Value(Digits(n)) == n
    decreases n
  {
    if n >= 10 {
      ValueOfDigits(n / 10);
      assert Digits(n)[..|Digits(n)| - 1] == Digits(n / 10);
    }
  }

  lemma {:induction false} ValueNonNegative(ds: seq<int>)
    requires IsDigits(ds)
    ensures Value(ds) >= 0
  {
    if ds != [] {
      ValueNonNegative(ds[..|ds| - 1]);
    }
  }

  /** Two digit strings of the same length with the same value are equal. */
  lemma {:induction false} ValueInjective(a: seq<int>, b: seq<int>)
    requires IsDigits(a) && IsDigits(b) && |a| == |b| && Value(a) == Value(b)
    ensures a == b
    decreases |a|
  {
    if a != [] {
      var a', b' := a[..|a| - 1], b[..|b| - 1];
      ValueNonNegative(a');
      ValueNonNegative(b');
      assert Value(a') * 10 + a[|a| - 1] == Value(b') * 10 + b[|b| - 1];
      assert a[|a| - 1] == b[|b| - 1];
      ValueInjective(a', b');
      assert a == a' + [a[|a| - 1]] && b == b' + [b[|b| - 1]];
    }
  }

  /** `number == int(str(number)[::-1])` for a non-negative number. */
  predicate IsPalindrome(n: nat)
  {
    n == Value(Reverse(Digits(n)))
  }

  /** A number is a palindrome exactly when its digit string reads the same
      backwards. */
  lemma PalindromeIff(n: nat)
    ensures IsPalindrome(n) <==> Digits(n) == Reverse(Digits(n))
  {
    var ds := Digits(n);
    ValueOfDigits(n);
    if IsPalindrome(n) {
      assert IsDigits(Reverse(ds));
      ValueInjective(Reverse(ds), ds);
    }
  }

  /** `is_palindrome_number(number)`: ValueError for a negative number. */
  function IsPalindromeNumber(n: int): (r: Result<bool>)
    ensures n < 0 ==> r == Err(ValueError)
    ensures n >= 0 ==> r == Ok(Digits(n) == Reverse(Digits(n)))
  {
    if n < 0 then Err(ValueError)
    else
      PalindromeIff(n);
      Ok(IsPalindrome(n))
  }

  /** The three-digit case: first digit equals last digit. */
  lemma ThreeDigits(n: nat)
    requires 100 <= n <= 999
    ensures Digits(n) == [n / 100, n / 10 % 10, n % 10]
    ensures IsPalindrome(n) <==> n / 100 == n % 10
  {
    assert n / 10 / 10 == n / 100;
    assert Digits(n / 100) == [n / 100];
    assert Digits(n / 10) == Digits(n / 100) + [n / 10 % 10];
    assert Digits(n) == Digits(n / 10) + [n % 10];
    PalindromeIff(n);
  }

  /** 10 is not a palindrome: its reversed string "01" reads as 1. */
  lemma TenIsNotPalindrome()
    ensures IsPalindromeNumber(10) == Ok(false)
  {
    assert Digits(10) == [1, 0];
  }

  /** No number from 102 to 110 is a palindrome; 111 is. */
  lemma NoPalindromeFrom102To110()
    ensures forall k: nat :: 102 <= k < 111 ==> !IsPalindrome(k)
    ensures IsPalindrome(111)
  {
    forall k: nat | 102 <= k < 111
      ensures !IsPalindrome(k)
    {
      ThreeDigits(k);
    }
    ThreeDigits(111);
  }

  /** 9, 99, 999, ...: the largest number with `k` digits. */
  function Nines(k: nat): nat
  {
    if k == 0 then 0 else Nines(k - 1) * 10 + 9
  }

  lemma {:induction false} DigitsOfNines(k: nat)
    requires k >= 1
    ensures Digits(Nines(k)) == seq(k, i => 9)
  {
    if k > 1 {
      DigitsOfNines(k - 1);
      assert Nines(k - 1) >= 9;
      assert Nines(k) / 10 == Nines(k - 1) && Nines(k) % 10 == 9;
      assert seq(k - 1, i => 9) + [9] == seq(k, i => 9);
    }
  }

  /** A number is at most the all-nines number with as many digits. */
  lemma {:induction false} ValueAtMostNines(ds: seq<int>)
    requires IsDigits(ds)
    ensures Value(ds) <= Nines(|ds|)
  {
    if ds != [] {
      ValueAtMostNines(ds[..|ds| - 1]);
    }
  }

  /** The all-nines number with as many digits as `n` is a palindrome no
      smaller than `n`, so the search of `infinite_palindromes` ends. */
  lemma NinesBound(n: nat)
    ensures n <= Nines(|Digits(n)|) && IsPalindrome(Nines(|Digits(n)|))
  {
    var k := |Digits(n)|;
    ValueOfDigits(n);
    ValueAtMostNines(Digits(n));
    DigitsOfNines(k);
    assert Reverse(seq(k, i => 9)) == seq(k, i => 9);
    PalindromeIff(Nines(k));
  }

  /** The first palindrome from `n` on, below a palindrome `bound`. */
  function LeastPalindromeFrom(n: nat, bound: nat): (r: nat)
    requires n <= bound && IsPalindrome(bound)
    ensures n <= r <= bound && IsPalindrome(r)
    ensures forall k: nat :: n <= k < r ==> !IsPalindrome(k)
    decreases bound - n
  {
    if IsPalindrome(n) then n else LeastPalindromeFrom(n + 1, bound)
  }

  /** The smallest palindrome at or above `n`. */
  function NextPalindrome(n: nat): (r: nat)
    ensures n <= r && IsPalindrome(r)
    ensures forall k: nat :: n <= k < r ==> !IsPalindrome(k)
  {
    NinesBound(n);
    LeastPalindromeFrom(n, Nines(|Digits(n)|))
  }

  /** There is only one smallest palindrome at or above `n`. */
  lemma NextPalindromeUnique(n: nat, r: nat)
    requires n <= r && IsPalindrome(r)
    requires forall k: nat :: n <= k < r ==> !IsPalindrome(k)
    ensures NextPalindrome(n) == r
  {
    var m := NextPalindrome(n);
    assert !(m < r) && !(r < m);
  }

  /** The body's `if is_palindrome_number(number): ... number += 1` from
      `number` on, up to the next palindrome. */
  method SearchPalindrome(start: nat) returns (p: nat)
    ensures p == NextPalindrome(start)
    ensures start <= p && IsPalindrome(p)
    ensures forall k: nat :: start <= k < p ==> !IsPalindrome(k)
  {
    p := start;
    while !IsPalindrome(p)
      invariant start <= p <= NextPalindrome(start)
      decreases NextPalindrome(start) - p
    {
      assert p != NextPalindrome(start);
      p := p + 1;
    }
    assert !(p < NextPalindrome(start));
  }

  /** The frame of `infinite_palindromes()`: its status and `number`. */
  datatype PalState = PalState(status: Status, number: int)

  datatype PalStep = PalStep(state: PalState, out: Outcome<int>)

  /** The loop continued from `number`: it stops at the next palindrome, or
      raises ValueError at once if `number` is negative. */
  function PalSearch(number: int): (r: PalStep)
    ensures number < 0 ==> r == PalStep(PalState(Finished, number), Raised(ValueError))
    ensures number >= 0 ==> r.state.status == Suspended && r.out == Yielded(r.state.number) && r.state.number == NextPalindrome(number)
    // What a caller sees: the value yielded is the least palindrome at or
    // above `number`, and the search skipped no palindrome.
    ensures number >= 0 ==> r.out.Yielded? && number <= r.out.value && IsPalindrome(r.out.value)
    ensures number >= 0 ==> forall k: nat :: number <= k < r.out.value ==> !IsPalindrome(k)
  {
    if number < 0 then PalStep(PalState(Finished, number), Raised(ValueError))
    else
      var p := NextPalindrome(number);
      PalStep(PalState(Suspended, p), Yielded(p))
  }

  /** `c.send(sent)`; `next(c)` is `c.send(None)`. The search resumes after
      the `yield` at the sent value plus one, or at the last value plus one. */
  function PalSend(s: PalState, sent: Option<int>): (r: PalStep)
    ensures s.status == Created && sent.Some? ==> r == PalStep(s, Raised(TypeError))
    ensures s.status == Created && sent.None? ==> r == PalSearch(0)
    ensures s.status == Suspended ==> r == PalSearch((if sent.Some? then sent.value else s.number) + 1)
    ensures s.status == Finished ==> r == PalStep(s, Raised(StopIteration))
    ensures r.out.Yielded? ==> r.out.value >= 0 && IsPalindrome(r.out.value)
  {
    match s.status
    case Created => if sent.Some? then PalStep(s, Raised(TypeError)) else PalSearch(0)
    case Suspended => PalSearch((if sent.Some? then sent.value else s.number) + 1)
    case Finished => PalStep(s, Raised(StopIteration))
  }

  /** Without sends, the values yielded strictly increase. */
  lemma NextIncreases(number: nat)
    ensures PalSend(PalState(Suspended, number), None).out.Yielded?
    ensures PalSend(PalState(Suspended, number), None).out.value > number
  {
  }

  /** After `send(v)`, the value yielded is the smallest palindrome greater
      than `v`; only a value below -1 makes the next number negative, and
      then `is_palindrome_number` raises ValueError, which ends the generator. */
  lemma SendFindsNextPalindrome(number: int, v: int)
    ensures v >= -1 ==> PalSend(PalState(Suspended, number), Some(v)).out.Yielded?
    ensures var r := PalSend(PalState(Suspended, number), Some(v));
      r.out.Yielded? ==> r.out.value > v && forall k: nat :: v < k < r.out.value ==> !IsPalindrome(k)
    ensures v < -1 ==> PalSend(PalState(Suspended, number), Some(v)) == PalStep(PalState(Finished, v + 1), Raised(ValueError))
  {
  }

  /** A generator object returned by `infinite_palindromes()`. */
  class PalindromeGenerator {
    var status: Status
    var number: int

    function State(): PalState
      reads this
    {
      PalState(status, number)
    }

    constructor ()
      ensures State() == PalState(Created, 0)
    {
      status := Created;
      number := 0;
    }

    method Send(sent: Option<int>) returns (out: Outcome<int>)
      modifies this
      ensures PalSend(old(State()), sent) == PalStep(State(), out)
    {
      match status {
        case Finished =>
          return Raised(StopIteration);
        case Created =>
          if sent.Some? {
            return Raised(TypeError);
          }
          number := 0;
        case Suspended =>
          if sent.Some? {
            number := sent.value;
          }
          number := number + 1;
      }
      if number < 0 {
        status := Finished;
        return Raised(ValueError);
      }
      number := SearchPalindrome(number);
      status := Suspended;
      out := Yielded(number);
    }
  }

  /** The demo's first `next`: 0 is a palindrome. */
  lemma DemoFirstNext()
    ensures PalSend(PalState(Created, 0), None) == PalStep(PalState(Suspended, 0), Yielded(0))
  {
    NextPalindromeUnique(0, 0);
  }

  /** The second `next`: the search resumes at 1, a palindrome. */
  lemma DemoSecondNext()
    ensures PalSend(PalState(Suspended, 0), None) == PalStep(PalState(Suspended, 1), Yielded(1))
  {
    assert IsPalindrome(1);
    NextPalindromeUnique(1, 1);
  }

  /** `send(100)`: the search resumes at 101, a palindrome. */
  lemma DemoSend100()
    ensures PalSend(PalState(Suspended, 1), Some(100)) == PalStep(PalState(Suspended, 101), Yielded(101))
  {
    ThreeDigits(101);
    NextPalindromeUnique(101, 101);
  }

  /** The last `next`: from 102 the search passes nine numbers to reach 111. */
  lemma DemoLastNext()
    ensures PalSend(PalState(Suspended, 101), None) == PalStep(PalState(Suspended, 111), Yielded(111))
  {
    NoPalindromeFrom102To110();
    NextPalindromeUnique(102, 111);
  }

  /** One call of the demo whose step is already known to yield `next.number`. */
  method SendYielding(c: PalindromeGenerator, sent: Option<int>, next: PalState) returns (v: int)
    requires PalSend(c.State(), sent) == PalStep(next, Yielded(next.number))
    modifies c
    ensures c.State() == next && v == next.number
  {
    var out := c.Send(sent);
    v := out.value;
  }

  /** The demo: `next`, `next`, `send(100)`, `next` print 0, 1, 101, 111. */
  method PalindromeDemo() returns (printed: seq<int>)
    ensures printed == [0, 1, 101, 111]
  {
    DemoFirstNext();
    DemoSecondNext();
    DemoSend100();
    DemoLastNext();
    var c := new PalindromeGenerator();
    var a := SendYielding(c, None, PalState(Suspended, 0));
    var b := SendYielding(c, None, PalState(Suspended, 1));
    var d := SendYielding(c, Some(100), PalState(Suspended, 101));
    var e := SendYielding(c, None, PalState(Suspended, 111));
    printed := [a, b, d, e];
  }
}
