/** The few Python built-ins the snippets rely on: `None`, the exceptions a
    generator can raise, the substring test `pattern in line`, `range`,
    `[::-1]` and a list comprehension's `if` filter. */
module Python {

  datatype Option<T> = None | Some(value: T)

  /** The exceptions that reach a caller in the modelled snippets. */
  datatype Exception =
    | TypeError      // send(non-None) to a just-started generator; `None + 1`; `"p" in None`
    | ValueError     // int("1-") on a reversed negative number; the value thrown by throw_coroutines
    | StopIteration  // next()/send() on a finished generator
    | RuntimeError   // StopIteration that escaped a generator frame (PEP 479)

  /** A generator's life: created but not started, suspended at its `yield`,
      or finished (closed, or left by an exception). */
  datatype Status = Created | Suspended | Finished

  /** An exception leaving a generator's frame: StopIteration turns into
      RuntimeError (PEP 479); every other exception passes unchanged. */
  function Escape(e: Exception): (r: Exception)
    ensures r != StopIteration
    ensures e != StopIteration ==> r == e
  {
    if e == StopIteration then RuntimeError else e
  }

  /** What a call of `next`/`send`/`throw` on a generator gives its caller:
      the value of the `yield` it reached, or the exception it raised
      (StopIteration when the generator returned or was already finished). */
  datatype Outcome<T> = Yielded(value: T) | Raised(error: Exception)

  /** The value of a call that either returns or raises. */
  datatype Result<T> = Ok(value: T) | Err(error: Exception)

  /** `pattern` occurs in `s` starting at index `i`. */
  ghost predicate OccursAt(pattern: string, s: string, i: int)
  {
    0 <= i && i + |pattern| <= |s| && s[i..i + |pattern|] == pattern
  }

  /** Python's `pattern in s` on two strings, as a left-to-right scan. */
  function Contains(pattern: string, s: string): bool
    decreases |s|
  {
    if |pattern| > |s| then false
    else if s[..|pattern|] == pattern then true
    else Contains(pattern, s[1..])
  }

  /** The scan finds the pattern exactly when it occurs somewhere. */
  lemma {:induction false} ContainsIff(pattern: string, s: string)
    ensures Contains(pattern, s) <==> exists i :: OccursAt(pattern, s, i)
    decreases |s|
  {
    if |pattern| > |s| {
      assert forall i :: !OccursAt(pattern, s, i);
    } else if s[..|pattern|] == pattern {
      assert OccursAt(pattern, s, 0);
    } else {
      ContainsIff(pattern, s[1..]);
      if Contains(pattern, s[1..]) {
        var i :| OccursAt(pattern, s[1..], i);
        assert s[1..][i..i + |pattern|] == s[i + 1..i + 1 + |pattern|];
        assert OccursAt(pattern, s, i + 1);
      } else {
        forall i | OccursAt(pattern, s, i)
          ensures false
        {
          assert i != 0;
          assert s[1..][i - 1..i - 1 + |pattern|] == s[i..i + |pattern|];
          assert OccursAt(pattern, s[1..], i - 1);
        }
      }
    }
  }

  /** A string that starts with the pattern contains it. */
  lemma {:induction false} PrefixContained(pattern: string, rest: string)
    ensures Contains(pattern, pattern + rest)
  {
    assert (pattern + rest)[..|pattern|] == pattern;
  }

  /** A string that contains a pattern has the pattern's first character. */
  lemma {:induction false} ContainsHasFirstChar(pattern: string, s: string)
    requires |pattern| > 0 && Contains(pattern, s)
    ensures pattern[0] in s
    decreases |s|
  {
    if s[..|pattern|] == pattern {
      assert s[0] == pattern[0];
    } else {
      ContainsHasFirstChar(pattern, s[1..]);
      assert pattern[0] in s[1..];
    }
  }

  /** A string that lacks the pattern's first character does not contain it. */
  lemma MissingFirstChar(pattern: string, s: string)
    requires |pattern| > 0
    requires pattern[0] !in s
    ensures !Contains(pattern, s)
  {
    if Contains(pattern, s) {
      ContainsHasFirstChar(pattern, s);
    }
  }

  /** `range(start, stop)`: empty when start >= stop. */
  function Range(start: int, stop: int): (r: seq<int>)
    ensures |r| == if start < stop then stop - start else 0
    ensures forall i :: 0 <= i < |r| ==> r[i] == start + i
    decreases stop - start
  {
    if start < stop then [start] + Range(start + 1, stop) else []
  }

  /** `s[::-1]`. */
  function Reverse<T>(s: seq<T>): (r: seq<T>)
    ensures |r| == |s|
    ensures forall i :: 0 <= i < |s| ==> r[i] == s[|s| - 1 - i]
  {
    if s == [] then [] else Reverse(s[1..]) + [s[0]]
  }

  /** `[x for x in s if pattern in x]`: the lines of `s` that contain `pattern`. */
  function Grep(pattern: string, s: seq<string>): (r: seq<string>)
    ensures |r| <= |s|
    ensures forall x :: x in r ==> x in s && Contains(pattern, x)
  {
    if s == [] then []
    else (if Contains(pattern, s[0]) then [s[0]] else []) + Grep(pattern, s[1..])
  }

  /** Conversely, every line that contains the pattern is kept. */
  lemma {:induction false} GrepKeepsMatches(pattern: string, s: seq<string>, i: nat)
    requires i < |s| && Contains(pattern, s[i])
    ensures s[i] in Grep(pattern, s)
    decreases |s|
  {
    if i > 0 {
      assert s[i] == s[1..][i - 1];
      GrepKeepsMatches(pattern, s[1..], i - 1);
    }
  }

  /** Filtering one line keeps it exactly when it contains the pattern; with
      GrepAppend this fixes the order of what is kept. */
  lemma GrepOne(pattern: string, line: string)
    ensures Grep(pattern, [line]) == if Contains(pattern, line) then [line] else []
  {
    assert [line][1..] == [];
  }

  /** Filtering a concatenation filters each part. */
  lemma {:induction false} GrepAppend(pattern: string, a: seq<string>, b: seq<string>)
    ensures Grep(pattern, a + b) == Grep(pattern, a) + Grep(pattern, b)
  {
    if a == [] {
      assert a + b == b;
    } else {
      assert (a + b)[0] == a[0] && (a + b)[1..] == a[1..] + b;
      GrepAppend(pattern, a[1..], b);
    }
  }
}
