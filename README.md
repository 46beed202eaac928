# Generators and coroutines, modelled in Dafny

This project models the generator and coroutine teaching snippets of the
`materials/` directory:

- **The push pipeline** of `materials/broadcast.py`: the `follow` source, the
  `grep` filter, the `printer` sink, the `broadcast` fan-out and the
  three-branch wiring of line 48. It also covers the `GrepHandler` object, the
  `grep` coroutine and the `null` sink of `materials/benchmark.py`, and the
  priming `coroutine` decorator of `materials/decorator.py`.
- **The send-driven generators**:
  - the echo `coroutine`, `counter`, `is_palindrome_number`,
    `infinite_palindromes`, `print_name` and `grep` of
    `materials/send_coroutines.py`;
  - the counter that is closed at 5 and the `print_name` with a
    `GeneratorExit` handler, in `materials/close_coroutines.py`;
  - the counter that has `ValueError` thrown into it at 5, in
    `materials/throw_coroutines.py`;
  - `generator(input_number)` of `materials/coroutines.py`.
- **The finite iterators**:
  - `Countdown` forwards and reversed (`materials/countdown.py`);
  - `countdown_from` and `increment` (`materials/yielding.py`);
  - `doubles_of` and its `islice` window (`materials/slice_generators.py`);
  - the two generator expressions of `materials/generator_expressions.py`.

## How generators are modelled

A generator object is a Dafny `class`. Its fields are:

- its lifecycle status: `Created` (not started), `Suspended` (at a `yield`)
  or `Finished`;
- the locals of its frame (`initial`, `number`);
- what it has printed, kept as its own output sequence.

Its `Send`, `Next`, `Close` and `Throw` methods change those fields. Each
method is proved to do what a pure step function says for the old field
values, for example `CounterSend(maximum, old(State()), sent) ==
CounterStep(State(), out)`. The properties the snippets promise are then
proved as lemmas about the step functions.

The Python rules the model follows (Python 3.7 and later):

- Sending a value other than None to a generator that has not started
  raises TypeError, and the generator stays unstarted.
- `next` or `send` on a finished generator raises StopIteration; `close()` on
  it does nothing; `throw(e)` into it raises e.
- An exception that leaves a generator's frame finishes the generator.
- A StopIteration that leaves a frame becomes RuntimeError (PEP 479).
- `close()` raises GeneratorExit at the `yield`. Only `print_name` in
  `materials/close_coroutines.py` catches it; it prints "Closing generator!".
- `throw(e)` into a counter, which has no handler, finishes it and the
  exception comes back out.
- A `for` loop ends quietly on StopIteration. Any other exception leaves the
  loop.

Module by module:

- **`PushModel`** does the pipeline at the level of values. A stage tree is a
  `Node` datatype and `Send(node, line)` is what one `send` does to it.
- **`BroadcastPipeline`** does the pipeline as objects:
  - each stage is a `Stage` object that owns the stages below it;
  - `Stage.Push` is proved to act on the tree's value (`View()`) exactly as
    `PushModel.Send`;
  - `LogFile` is the file: a sequence of lines, none of them empty, that
    other writers only append to;
  - `Follower` is `follow`, with a cursor that starts at the end of the file.
    It stays valid only while the lines it has read are still the file's
    first lines.
- **`Benchmark`** compares the `GrepHandler` object with the `grep`
  coroutine.
- **`Counters`** holds `counter` and `generator`.
- **`Palindromes`** holds `is_palindrome_number` and `infinite_palindromes`.
  - `str(n)` becomes the list of decimal digits.
  - `[::-1]` reverses it, and `int` reads it back.
  - For a negative number the reversed string ends in "-", so `int` raises
    ValueError. The generator raises it too, for example after `send(-5)`.
- **`Receivers`** holds the echo coroutine and the search coroutines.
  - The search coroutines are the two `print_name`s, the `grep` of
    `materials/send_coroutines.py` and the decorated demo `grep`.
  - All four are one class, `SearchCoroutine`. What tells them apart is the
    banner they print first, whether a match is printed as `Matched: '...'`,
    and their `GeneratorExit` handler.
- **`Sequences`** holds the finite iterators. Each is described by the
  sequence of values it yields.

## Model

| member | source | states |
|---|---|---|
| Python.Contains | materials/broadcast.py:25 | definition of `pattern in line`: the pattern is at the start of the line or in its tail; what it means is stated by `Python.ContainsIff` |
| Python.ContainsIff | materials/broadcast.py:25 | `pattern in line` holds exactly when the pattern occurs in the line at some index |
| Python.Escape | materials/broadcast.py:26 | PEP 479: a StopIteration escaping a generator's frame becomes RuntimeError; any other exception escapes unchanged |
| Python.Range | materials/yielding.py:10 | `range(start, stop)` has `stop - start` elements, or none when `start >= stop`; element i is `start + i` |
| Python.Reverse | materials/send_coroutines.py:35 | `s[::-1]` has the length of `s`, and element i is element `len(s) - 1 - i` of `s` |
| Python.Grep | materials/broadcast.py:25-26 | the kept lines are no more than the input lines; each kept line is an input line that contains the pattern (the converse and the order are `Python.GrepKeepsMatches`, `Python.GrepOne` and `Python.GrepAppend`) |
| Python.GrepKeepsMatches | materials/broadcast.py:25-26 | every input line that contains the pattern is kept |
| Python.GrepOne | materials/broadcast.py:25-26 | a single line is kept exactly when it contains the pattern |
| Python.GrepAppend | materials/broadcast.py:23-26 | filtering a stream in two parts gives the filtered first part followed by the filtered second part, so the kept lines stay in input order |
| PushModel.Send | materials/broadcast.py:21-43 | definition of `stage.send(line)` on a stage tree; what it promises is stated by `PushModel.NotSuspendedRejects`, `ErrorFinishesStage`, `SendHealthy`, `GrepForwardsIff` and `BroadcastFailFast` |
| PushModel.Resumed | materials/broadcast.py:24-26 | a primed stage is still running after its body resumes exactly when nothing escaped it, and by PEP 479 what escapes is never StopIteration |
| PushModel.SendAll | materials/broadcast.py:42-43 | definition of the `for target in targets` loop: it keeps one node per target; what it promises is stated by `PushModel.SendAllHealthy`, `SendAllNoError` and `SendAllStopsAt` |
| PushModel.Feed | materials/broadcast.py:12-17 | definition of sending a stream of lines one after another, stopping at the first exception; what it promises is stated by `PushModel.FeedSnoc` and `FeedHealthy` |
| PushModel.NotSuspendedRejects | materials/decorator.py:6-9 | a stage that was never primed raises TypeError on `send`, a finished one raises StopIteration, and neither changes |
| PushModel.ErrorFinishesStage | materials/broadcast.py:23-26 | a primed stage whose `send` raises is finished afterwards; what it raised is never StopIteration; every later `send` raises StopIteration |
| PushModel.Healthy | materials/decorator.py:6-9 | definition of a tree whose every stage is suspended at its `yield`, as the `coroutine` decorator leaves it; what it promises is stated by `PushModel.SendHealthy` and `FeedHealthy` |
| PushModel.SendHealthy | materials/broadcast.py:21-43 | a tree whose stages are all primed accepts any line without an exception and stays primed |
| PushModel.SendAllHealthy | materials/broadcast.py:42-43 | when every target is primed, the loop reaches every target; target i ends as if it alone had been sent the item; all stay primed |
| PushModel.SendAllNoError | materials/broadcast.py:42-43 | when no target raises, the loop raises nothing, and each target has received the item exactly once |
| PushModel.SendAllStopsAt | materials/broadcast.py:42-43 | when target k is the first one to raise, the loop raises that exception; targets 0 to k received the item and the later targets are untouched |
| PushModel.FeedSnoc | materials/broadcast.py:12-17 | sending one more line after a stream continues from the state the stream left behind |
| PushModel.FeedHealthy | materials/broadcast.py:12-17 | a primed tree takes any stream of lines without raising and stays primed |
| PushModel.PrinterPrintsAll | materials/broadcast.py:31-34 | a primed printer that is fed a stream appends exactly that stream to its output, unchanged and in order, and never raises |
| PushModel.NullAcceptsAll | materials/benchmark.py:30-32 | a primed `null()` accepts any stream and does not change |
| PushModel.GrepForwardsIff | materials/broadcast.py:22-26 | for one line, `grep`'s target receives the line exactly when the pattern occurs in it, and is otherwise unchanged; `grep` itself stays primed and raises nothing |
| PushModel.GrepFeed | materials/broadcast.py:24-26 | over a stream, `grep`'s target ends as if it had been fed exactly the matching lines, unchanged, each once, in stream order |
| PushModel.BroadcastFeed | materials/broadcast.py:40-43 | after N items are pushed into `broadcast`, each target is as if it had been fed exactly those N items in push order |
| PushModel.BroadcastFailFast | materials/broadcast.py:42-43 | when target k is the first to raise, the broadcast stage is finished and raises that exception (StopIteration as RuntimeError); targets up to k received the item and later targets did not |
| PushModel.BroadcastTotalOrder | materials/broadcast.py:39-43 | after items a and then b, each target is exactly as if it had been sent a and then b on its own: item a is handled everywhere before b |
| PushModel.AccessLogTree | materials/broadcast.py:48 | definition of the value of the line-48 tree, with what its three printers have printed; what it promises is stated by `PushModel.AccessLogRoutes` |
| PushModel.AccessLogRoutes | materials/broadcast.py:48 | through the line-48 tree, printer k's output grows by exactly the input lines that contain pattern k ("python", "ply", "swig"), in input order, and nothing raises |
| PushModel.RoutedSnoc | materials/broadcast.py:48 | one more line through the line-48 tree gives the tree of the longer stream |
| BroadcastPipeline.Stage.Printer | materials/broadcast.py:30-31 | `printer()` is a new, unprimed stage with empty output and no targets |
| BroadcastPipeline.Stage.Null | materials/benchmark.py:29-30 | `null()` is a new, unprimed stage with no targets |
| BroadcastPipeline.Stage.Grep | materials/broadcast.py:21-22 | `grep(pattern, target)` is a new, unprimed stage whose pattern and only target are the arguments |
| BroadcastPipeline.Stage.Broadcast | materials/broadcast.py:38-39 | `broadcast(targets)` is a new, unprimed stage over the given targets, in tuple order |
| BroadcastPipeline.Stage.Start | materials/decorator.py:8 | `next(cr)` moves an unprimed stage to its first `yield`; nothing is printed and nothing else changes |
| BroadcastPipeline.Stage.Push | materials/broadcast.py:22-43 | the stage tree after `send(line)`, and the exception raised, are what `PushModel.Send` gives for the tree before |
| BroadcastPipeline.Stage.PushGrep | materials/broadcast.py:24-26 | the body of `grep` after `yield`: it forwards the line iff the pattern occurs in it, and a target's exception finishes the stage |
| BroadcastPipeline.Stage.PushAll | materials/broadcast.py:40-43 | the body of `broadcast` after `yield`: the targets change as `PushModel.SendAll` says, and an exception from the loop finishes the stage |
| BroadcastPipeline.Stage.PushEach | materials/broadcast.py:42-43 | the `for` loop leaves the targets as `PushModel.SendAll` says: in order, stopping after the first `send` that raises |
| BroadcastPipeline.Stage.PushTarget | materials/broadcast.py:43 | `target.send(item)` changes target i as `PushModel.Send` says, and no other target |
| BroadcastPipeline.PrinterStage | materials/broadcast.py:30-34 | the decorated `printer()` is primed and has printed nothing |
| BroadcastPipeline.NullStage | materials/benchmark.py:29-32 | the decorated `null()` is primed |
| BroadcastPipeline.GrepStage | materials/decorator.py:6-9 | the decorated `grep(pattern, target)` gets its arguments unchanged and is primed; its target is not touched |
| BroadcastPipeline.BroadcastStage | materials/broadcast.py:38-41 | the decorated `broadcast(targets)` keeps the targets in order and is primed |
| BroadcastPipeline.LogFile.constructor | materials/broadcast.py:47 | the opened file holds the lines written to it so far, none of them empty |
| BroadcastPipeline.LogFile.ReadLine | materials/broadcast.py:13-14 | `readline` returns the line at the file position, and "" exactly at the end of the file |
| BroadcastPipeline.LogFile.Append | materials/broadcast.py:13 | another writer appends one non-empty line at the end; earlier lines never change |
| BroadcastPipeline.Follower.constructor | materials/broadcast.py:10-11 | `follow` starts at the end of the file, so the lines already there are never delivered |
| BroadcastPipeline.Follower.Poll | materials/broadcast.py:13-17 | an empty `readline` (the end of the file) sends nothing and changes nothing; otherwise the pass sends the next line once and moves the cursor by one |
| BroadcastPipeline.Follower.Run | materials/broadcast.py:12-17 | after n passes, the target has been fed exactly the lines between the old and new cursor, in file order; without an error the cursor moved by n or up to the end of the file; an error stops the loop at the line that raised |
| BroadcastPipeline.AccessLogStages | materials/broadcast.py:48 | builds the primed tree `broadcast((grep("python", printer()), grep("ply", printer()), grep("swig", printer())))`, with every output empty |
| BroadcastPipeline.FilteredPrinter | materials/broadcast.py:48 | `grep(pattern, printer())` is primed, with an empty printer behind it |
| BroadcastPipeline.AccessLogPrinted | materials/broadcast.py:48 | what printer k of the line-48 tree has printed is the k-th output in the tree's value |
| BroadcastPipeline.AccessLog | materials/broadcast.py:48 | `follow(f, broadcast(...))` before its first pass: the cursor is at the end of the file and the tree is primed and empty |
| BroadcastPipeline.WriteAndPoll | materials/broadcast.py:13-17 | a line appended to the file is sent to the tree on the next pass of `follow` |
| BroadcastPipeline.TailAccessLog | materials/broadcast.py:48 | lines in the file before `follow` starts are never delivered; each printer prints exactly the later lines that contain its pattern, in file order |
| Benchmark.HandlerSend | materials/benchmark.py:14-16 | definition of `GrepHandler.send(line)` on the target's value; what it promises is stated by `Benchmark.HandlerMatchesGrep` and `HandlerOutlivesTargetError` |
| Benchmark.HandlerFeed | materials/benchmark.py:14-16 | definition of sending a stream to a `GrepHandler`, stopping at the first exception; what it promises is stated by `Benchmark.HandlerMatchesGrep` |
| Benchmark.GrepHandler.constructor | materials/benchmark.py:10-12 | `__init__` stores the pattern and the target |
| Benchmark.GrepHandler.Send | materials/benchmark.py:14-16 | `send(line)` calls `_target.send(line)` iff the pattern occurs in the line; `_pattern` and `_target` never change, and a line that does not match leaves the target untouched |
| Benchmark.HandlerMatchesGrep | materials/benchmark.py:14-25 | over any stream, `GrepHandler(p, t)` passes `t` exactly the lines containing p, in order, and `grep(p, t)` leaves `t` in the same state |
| Benchmark.HandlerOutlivesTargetError | materials/benchmark.py:14-25 | where the twins differ: in front of a finished target, the object lets StopIteration through and keeps working, while the coroutine raises RuntimeError and is finished |
| Benchmark.NullSinkSwallows | materials/benchmark.py:30-32 | `null()` accepts any stream, alone or behind a `GrepHandler` |
| Benchmark.BenchmarkSend | materials/benchmark.py:37-39 | "python is nice" is forwarded by both `p1` and `p2`, and neither raises |
| Counters.CounterTest | materials/send_coroutines.py:18-19 | definition of the loop test `while initial < maximum`; what it promises is stated by `Counters.FinishesAtMaximum` |
| Counters.FinishesAtMaximum | materials/send_coroutines.py:18-19 | only values below `maximum` are yielded; once the value reaches `maximum` the counter raises StopIteration, and every later `next` or `send` raises StopIteration and changes nothing |
| Counters.CounterSend | materials/send_coroutines.py:16-24 | a yielded value is below `maximum`. A new counter refuses a value and starts from 0 on `next`. `send(v)` continues from v, `next` from `initial + 1`. A finished counter raises StopIteration |
| Counters.CounterClose | materials/close_coroutines.py:16 | definition of `close()` on the counter's frame; what it promises is stated by `Counters.ClosedCounterRejects` |
| Counters.ClosedCounterRejects | materials/close_coroutines.py:16 | after `close()` every later `next` or `send` raises StopIteration and changes nothing, and closing again changes nothing |
| Counters.CounterThrow | materials/throw_coroutines.py:17 | `throw(e)` finishes the counter and e comes back out of `throw`; a StopIteration thrown into a counter that has not finished comes back as RuntimeError, one thrown into a finished counter unchanged |
| Counters.CounterIterate | materials/close_coroutines.py:13-14 | definition of the values a `for` loop takes from a counter by `next` until StopIteration; what it promises is stated by `Counters.CounterStepsByOne` and `CounterCountsToMaximum` |
| Counters.CounterStepsByOne | materials/close_coroutines.py:8-9 | without sends, from value i on the counter yields i + 1, i + 2, ..., maximum - 1: each step adds exactly 1 |
| Counters.CounterCountsToMaximum | materials/send_coroutines.py:16-24 | iterating a new `counter(maximum)` yields exactly `range(0, maximum)` |
| Counters.Counter.constructor | materials/send_coroutines.py:27 | `counter(10)` has not started yet |
| Counters.Counter.Send | materials/send_coroutines.py:16-24 | `send` changes the frame and returns what `CounterSend` says |
| Counters.Counter.Next | materials/send_coroutines.py:28 | `next(c)` is `send(None)` |
| Counters.Counter.Close | materials/close_coroutines.py:16 | `close()` does what `CounterClose` says |
| Counters.Counter.Throw | materials/throw_coroutines.py:17 | `throw(e)` does what `CounterThrow` says |
| Counters.SendDemo | materials/send_coroutines.py:27-31 | the demo prints 0, 1 and 6, and `send(5)` returns 5 |
| Counters.CloseAtFive | materials/close_coroutines.py:12-16 | closing at 5 prints exactly 0, 1, 2, 3, 4, 5, and the StopIteration of the closed counter ends the loop without an error |
| Counters.ThrowAtFive | materials/throw_coroutines.py:13-17 | 0 to 5 are printed in order and nothing after them; the ValueError comes back out of `throw` in the loop body and leaves the loop |
| Counters.NumberTest | materials/coroutines.py:3-4 | definition of the loop test `while number < input_number`; what it promises is stated by `Counters.NumberFinishesAtInput` |
| Counters.NumberFinishesAtInput | materials/coroutines.py:3-4 | only values below `input_number` are yielded; a value at or above it makes the generator return with StopIteration, and every later `next` or `send` raises StopIteration and changes nothing |
| Counters.NumberSend | materials/coroutines.py:1-5 | only values below `input_number` are yielded. The first `next` yields None. A sent value is compared as it is at the first `yield` and plus one inside the loop. None after the first `yield` raises TypeError and finishes the generator |
| Counters.NumberGenerator.constructor | materials/coroutines.py:8 | `generator(10)` has not started yet |
| Counters.NumberGenerator.Send | materials/coroutines.py:1-5 | `send` changes the frame and returns what `NumberSend` says |
| Counters.MustPrimeFirst | materials/coroutines.py:2 | a value sent before priming is refused with TypeError; `next` stops at the bare `yield` |
| Counters.NextValueIsSentPlusOne | materials/coroutines.py:4-5 | after a yield, the next value compared and yielded is the sent value plus one; resuming with None raises TypeError |
| Counters.LargeFirstValueFinishes | materials/coroutines.py:2-3 | a first sent value at or above `input_number` finishes the generator without yielding |
| Counters.PrimeThenSend | materials/coroutines.py:8-10 | `next(g)` gives None, and then `g.send(5)` gives 5 |
| Receivers.EchoSend | materials/send_coroutines.py:4-7 | once started, the echo coroutine prints the sent value; starting it prints nothing; it raises only when a value is sent before start, or when it is finished |
| Receivers.EchoFeed | materials/send_coroutines.py:4-7 | definition of sending values one after another to the echo coroutine; what it promises is stated by `Receivers.EchoPrintsAll` |
| Receivers.EchoPrintsAll | materials/send_coroutines.py:4-7 | a started echo coroutine prints every value sent to it, in order |
| Receivers.Echo.constructor | materials/send_coroutines.py:10 | `coroutine()` has not started yet and has printed nothing |
| Receivers.Echo.Send | materials/send_coroutines.py:4-7 | `send` does what `EchoSend` says |
| Receivers.EchoDemo | materials/send_coroutines.py:10-13 | the demo prints 1 and then 10 |
| Receivers.SendPrintName | materials/send_coroutines.py:55-60 | definition of `print_name(prefix)`: the banner `print("Search for ", prefix, " prefix")` with `print`'s separating spaces, plain matches and no `GeneratorExit` handler; `Receivers.PrintNameDemo` states its output |
| Receivers.ClosePrintName | materials/close_coroutines.py:19-27 | definition of `print_name(prefix)`: the banner "Search for <prefix> prefix", plain matches, and "Closing generator!" on `GeneratorExit`; `Receivers.ClosePrintNameDemo` and `ClosingPrintsFarewell` state its output |
| Receivers.SendGrep | materials/send_coroutines.py:69-74 | definition of `grep(pattern)`: the banner "Search for '<pattern>' pattern" and matches printed as `Matched: '...'`; `Receivers.GrepDemo` states its output |
| Receivers.DecoratedGrep | materials/decorator.py:15-20 | definition of the decorated `grep(pattern)`: the same banner, plain matches; `Receivers.DecoratorDemo` states its output |
| Receivers.Shown | materials/send_coroutines.py:73-74 | definition of the line printed for a matching string: `Matched: '...'` for `grep`, the string itself otherwise; what it promises is stated by `Receivers.SearchSendOutput` and `SearchPrintsMatches` |
| Receivers.ShownAll | materials/send_coroutines.py:73-74 | one printed line per match, in order |
| Receivers.SearchSend | materials/send_coroutines.py:69-74 | definition of `send`, case by case: starting prints the banner; a started coroutine prints the sent string iff it contains the pattern; None raises TypeError and finishes a started coroutine; a string sent before start raises TypeError; a finished one raises StopIteration. What a caller sees is stated by `Receivers.SearchSendOutput` |
| Receivers.SearchSendOutput | materials/send_coroutines.py:69-74 | a call yields exactly when the coroutine can take another string; a raising call prints nothing; a call prints at most one line, which is the banner when starting and otherwise the sent string, shown, because it contains the pattern |
| Receivers.SearchClose | materials/close_coroutines.py:21-27 | definition of `close()`: it finishes the coroutine; a suspended one with a `GeneratorExit` handler prints the handler's line first; otherwise nothing is printed. What it promises is stated by `Receivers.ClosedSearchRejects` and `ClosingPrintsFarewell` |
| Receivers.ClosedSearchRejects | materials/close_coroutines.py:21-27 | after `close()` every later `send` or `next` raises StopIteration and prints nothing, and closing again prints nothing |
| Receivers.SearchFeed | materials/send_coroutines.py:57-60 | definition of sending strings one after another to a search coroutine; what it promises is stated by `Receivers.SearchPrintsMatches` |
| Receivers.SearchPrintsMatches | materials/send_coroutines.py:55-60 | a started `print_name`/`grep` prints exactly the sent strings that contain its prefix or pattern, in the order sent, and nothing else |
| Receivers.SearchCoroutine.constructor | materials/send_coroutines.py:63 | the coroutine has not started and has printed nothing |
| Receivers.SearchCoroutine.Send | materials/send_coroutines.py:69-74 | `send` does what `SearchSend` says |
| Receivers.SearchCoroutine.Close | materials/close_coroutines.py:21-27 | `close()` does what `SearchClose` says |
| Receivers.Start | materials/decorator.py:6-9 | the decorator passes its arguments through unchanged and returns the generator at its first `yield`; the banner has been printed exactly once |
| Receivers.DearAlex | materials/send_coroutines.py:65-66 | "Alex" does not contain "Dear"; "Dear Alex" does |
| Receivers.HeyHello | materials/send_coroutines.py:79-81 | "hello" does not contain "hey"; "hey" and "hey Mike" do |
| Receivers.PrintNameDemo | materials/send_coroutines.py:63-66 | the demo prints the banner with `print`'s separating spaces, then "Dear Alex" only |
| Receivers.GrepDemo | materials/send_coroutines.py:77-81 | the demo prints the banner, "Matched: 'hey'" and "Matched: 'hey Mike'" |
| Receivers.ClosePrintNameDemo | materials/close_coroutines.py:31-34 | the demo prints "Search for Dear prefix" and then "Dear Alex" only |
| Receivers.ClosingPrintsFarewell | materials/close_coroutines.py:26-27 | closing a suspended `print_name` prints "Closing generator!" last; closing it again prints nothing |
| Receivers.SendUnmatched | materials/decorator.py:25-26 | a string without "p" is not printed by the decorated `grep("python")` |
| Receivers.SendMatched | materials/decorator.py:27 | a string that starts with "python" is printed once, unchanged |
| Receivers.DecoratorDemo | materials/decorator.py:23-27 | with no `next` call, the banner is printed at construction, and of the three strings sent only "python generators rock!" is printed |
| Palindromes.Digits | materials/send_coroutines.py:35 | `str(n)`: at least one decimal digit and no leading zero |
| Palindromes.Value | materials/send_coroutines.py:35 | definition of `int(s)` on a digit string; what it promises is stated by `Palindromes.ValueOfDigits` and `ValueInjective` |
| Palindromes.ValueOfDigits | materials/send_coroutines.py:35 | `int(str(n)) == n` |
| Palindromes.ValueInjective | materials/send_coroutines.py:35 | two digit strings of the same length with the same value are equal |
| Palindromes.IsPalindrome | materials/send_coroutines.py:35 | definition of `number == int(str(number)[::-1])` for a non-negative number; what it means is stated by `Palindromes.PalindromeIff` |
| Palindromes.PalindromeIff | materials/send_coroutines.py:34-35 | `number == int(str(number)[::-1])` holds exactly when the digit string reads the same backwards |
| Palindromes.IsPalindromeNumber | materials/send_coroutines.py:34-35 | a negative number raises ValueError; otherwise the result is true iff the digits read the same backwards |
| Palindromes.ThreeDigits | materials/send_coroutines.py:35 | a three-digit number is a palindrome iff its first and last digits are equal |
| Palindromes.TenIsNotPalindrome | materials/send_coroutines.py:34-35 | 10 is not a palindrome, because "01" reads as 1 |
| Palindromes.NoPalindromeFrom102To110 | materials/send_coroutines.py:52 | no number from 102 to 110 is a palindrome, and 111 is |
| Palindromes.NinesBound | materials/send_coroutines.py:40-45 | the all-nines number with as many digits as n is a palindrome at or above n, so the search loop ends |
| Palindromes.LeastPalindromeFrom | materials/send_coroutines.py:40-45 | the first palindrome at or above n, found below a palindrome bound |
| Palindromes.NextPalindrome | materials/send_coroutines.py:40-45 | the smallest palindrome at or above n |
| Palindromes.SearchPalindrome | materials/send_coroutines.py:40-45 | the loop stepping `number += 1` until `is_palindrome_number` holds stops at the smallest palindrome at or above its start |
| Palindromes.PalSearch | materials/send_coroutines.py:40-42 | from a negative number the loop raises ValueError and the generator finishes; otherwise the value yielded is a palindrome at or above the number and no palindrome was skipped |
| Palindromes.PalSend | materials/send_coroutines.py:38-45 | every value yielded is a non-negative palindrome. A started generator resumes at the sent value plus one, or at the last value plus one. A value sent before start raises TypeError |
| Palindromes.NextIncreases | materials/send_coroutines.py:45 | without sends, the values yielded strictly increase |
| Palindromes.SendFindsNextPalindrome | materials/send_coroutines.py:43-45 | after `send(v)`, the value yielded is the smallest palindrome greater than v; a v below -1 raises ValueError and finishes the generator |
| Palindromes.PalindromeGenerator.constructor | materials/send_coroutines.py:48 | `infinite_palindromes()` has not started yet |
| Palindromes.PalindromeGenerator.Send | materials/send_coroutines.py:38-45 | `send` changes the frame and returns what `PalSend` says |
| Palindromes.DemoFirstNext | materials/send_coroutines.py:49 | the first `next` yields 0 |
| Palindromes.DemoSecondNext | materials/send_coroutines.py:50 | the second `next` yields 1 |
| Palindromes.DemoSend100 | materials/send_coroutines.py:51 | `send(100)` yields 101 |
| Palindromes.DemoLastNext | materials/send_coroutines.py:52 | the last `next` yields 111 |
| Palindromes.PalindromeDemo | materials/send_coroutines.py:48-52 | the demo prints 0, 1, 101, 111 |
| Sequences.CountdownValues | materials/countdown.py:5-9 | s, s - 1, ..., 1; of length s, or empty when s <= 0 |
| Sequences.CountUpValues | materials/countdown.py:11-15 | 1, 2, ..., s; of length s, or empty when s <= 0 |
| Sequences.CountUpIsReversedCountdown | materials/countdown.py:5-15 | the reversed sequence is exactly the forward sequence backwards |
| Sequences.Countdown.constructor | materials/countdown.py:2-3 | `__init__` stores `start` |
| Sequences.Countdown.Iter | materials/countdown.py:5-9 | `iter(Countdown(s))` yields s, s - 1, ..., 1; it changes nothing, so iterating again gives the same values |
| Sequences.Countdown.Reversed | materials/countdown.py:11-15 | `reversed(Countdown(s))` yields 1, 2, ..., s and changes nothing |
| Sequences.CountdownDemo | materials/countdown.py:18-24 | the demo prints 10 down to 1, and then the same values backwards |
| Sequences.CountdownFrom | materials/yielding.py:1-6 | the loop prints the greeting, then n, n - 1, ..., 1, then "Done!" once, after the last value |
| Sequences.Increment | materials/yielding.py:9-10 | `increment(start, stop)` yields start, ..., stop - 1, and nothing when start >= stop |
| Sequences.CountdownIsReversedIncrement | materials/yielding.py:1-10 | `countdown_from(n)` yields `increment(1, n + 1)` backwards |
| Sequences.DoublesOf | materials/slice_generators.py:4-6 | `doubles_of(n)` has n elements, element i being 2 * i |
| Sequences.DoublesEvenAndIncreasing | materials/slice_generators.py:5-6 | every element is even, and the sequence strictly increases |
| Sequences.ISlice | materials/slice_generators.py:12 | `islice(it, start, stop)` holds the elements at indices start to stop - 1 that exist, in order |
| Sequences.DoublesWindow | materials/slice_generators.py:12 | `islice(doubles_of(n), 10, 15)` is 20, 22, 24, 26, 28 for n = 50 and for every n >= 15 |
| Sequences.KeepEven | materials/generator_expressions.py:1 | the comprehension keeps exactly the even elements |
| Sequences.EvensOfRange | materials/generator_expressions.py:1 | from an even lo, the even numbers of `range(lo, hi)` are lo, lo + 2, ... below hi |
| Sequences.EvenNumbers | materials/generator_expressions.py:1 | definition of `even_numbers`, the even values of `range(15)`; what it holds is stated by `Sequences.EvenNumbersAre` |
| Sequences.EvenNumbersAre | materials/generator_expressions.py:1 | `even_numbers` has 8 elements, element i being 2 * i: even, below 15 and ascending |
| Sequences.MultiplyEachBy | materials/generator_expressions.py:7-8 | `multiply_each_by(m)` has exactly 5 elements; element i is i * m, so the first is 0 for every m |
| Sequences.MultiplyByThree | materials/generator_expressions.py:11-14 | `multiply_each_by(3)` yields 0, 3, 6, 9, 12 |

## Left out

- `time.sleep(0.1)` and the real `open`/`seek`/`readline` of `follow`
  (materials/broadcast.py:11-15, 47). There is no clock and no real file:
  the file is a sequence of non-empty lines that only grows at its end, read
  with a cursor; `readline` returns "" only at the end, and then nothing is
  sent.
- BroadcastPipeline.Follower.Run: runs a given number of passes of the
  `while True` loop instead of running forever, since an endless loop has no
  final state to state a contract about.
- `print` to standard output. Each printing generator keeps its own output
  sequence. The three printers of line 48 write to one stdout in Python, and
  the model does not capture how their outputs interleave there.
- The `timeit` measurements of materials/benchmark.py:35-42 measure time and
  have nothing to verify.
- `help(itertools.islice)` (materials/slice_generators.py:10), and printing a
  generator object (materials/generator_expressions.py:2, 12): their output
  depends on the interpreter.
- Finalisation at interpreter exit: CPython closes the still-suspended `pn` of
  materials/close_coroutines.py when the script ends, which would print
  "Closing generator!" after the demo. The model covers closing
  (`Receivers.ClosingPrintsFarewell`), but `Receivers.ClosePrintNameDemo`
  stops before exit.
- Exception messages, such as "It is too large". Only the exception's class
  is modelled.
- Dynamic typing. Each generator's sent values have one type:
  - `Option<int>` for the counters, the palindromes and `generator`;
  - `Option<string>` for the search coroutines;
  - strings for the pipeline.

  Only the TypeErrors that None causes are modelled (`None < 10`,
  `None + 1`, `"p" in None`).
- One stage under two parents. Python allows the same `printer()` to be the
  target of two stages; the model requires the stage trees below a
  `broadcast` to be disjoint.
- `close` and `throw` on pipeline stages, and `throw` on the search
  coroutines, the palindrome generator and `generator`: no snippet calls
  them.
- `materials/async_.py` and `materials/async_gen.py`: concurrency and
  scheduling.
- `materials/float_range.py`: floating point.
- `materials/memory_efficacy.py`: runtime measurement.
- `materials/concatenate_generators.py`, `materials/zip_generators.py`,
  `materials/multiple_yields.py` and `materials/generator_sample.py`: thin
  library calls over constants.
