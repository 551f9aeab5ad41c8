/**
 * What a loop rewritten by the loop-guard pass does when it runs. The loop's
 * test is abstracted as the sequence of values it yields, `test(0)`,
 * `test(1)`, …; the counter is fresh, so nothing in the body touches it. The
 * counter is incremented at the start of every iteration and the iteration
 * is cut off, reporting the body's line, as soon as it exceeds the limit.
 */
module GuardedExecution {
  import opened LoopGuard

  /**
   * Whether the loop starts iteration `i` (from 0): a `while` or `for` loop
   * evaluates its test before each iteration; a `do-while` loop enters the
   * first iteration unconditionally and evaluates its test after each one.
   */
  predicate Enters(doWhile: bool, test: nat -> bool, i: nat) {
    if doWhile then i == 0 || test(i - 1) else test(i)
  }

  /** How a guarded loop ends: by itself after some iterations, or cut off with `onError`. */
  datatype Outcome = Finished(iterations: nat) | Stopped(line: nat, iterations: nat)

  /**
   * The guarded loop from the start of iteration `counter`: the test decides
   * whether to go on, `_loopCounter++` makes the counter `counter + 1`, and
   * the check breaks out once that exceeds the limit, before the body runs.
   */
  function RunFrom(doWhile: bool, test: nat -> bool, line: nat, counter: nat): (r: Outcome)
    requires counter <= IterationLimit
    ensures r.Finished? ==>
      && counter <= r.iterations <= IterationLimit
      && !Enters(doWhile, test, r.iterations)
      && forall i :: counter <= i < r.iterations ==> Enters(doWhile, test, i)
    ensures r.Stopped? ==>
      && r.line == line && r.iterations == IterationLimit
      && forall i :: counter <= i <= IterationLimit ==> Enters(doWhile, test, i)
    decreases IterationLimit - counter
  {
    if !Enters(doWhile, test, counter) then Finished(counter)
    else if counter + 1 > IterationLimit then Stopped(line, counter)
    else RunFrom(doWhile, test, line, counter + 1)
  }

  /** The guarded loop from its first iteration; `line` is the line `addLoopCheck` reports. */
  function Run(doWhile: bool, test: nat -> bool, line: nat): Outcome {
    RunFrom(doWhile, test, line, 0)
  }

  /**
   * The guard fires exactly when the original loop would start more than
   * `IterationLimit` iterations; it then reports the body's line once, after
   * the body has run `IterationLimit` times.
   */
  lemma StoppedIffOverLimit(doWhile: bool, test: nat -> bool, line: nat)
    ensures Run(doWhile, test, line).Stopped? <==>
      forall i :: 0 <= i <= IterationLimit ==> Enters(doWhile, test, i)
    ensures Run(doWhile, test, line).Stopped? ==> Run(doWhile, test, line) == Stopped(line, IterationLimit)
  {
    var r := Run(doWhile, test, line);
    if r.Finished? {
      assert !Enters(doWhile, test, r.iterations);
    }
  }

  /**
   * A loop that ends by itself within the limit is not changed by the guard:
   * it runs exactly the iterations the original loop runs.
   */
  lemma FinishedIffEndsWithinLimit(doWhile: bool, test: nat -> bool, line: nat, n: nat)
    ensures Run(doWhile, test, line) == Finished(n) <==>
      && n <= IterationLimit
      && !Enters(doWhile, test, n)
      && forall i :: 0 <= i < n ==> Enters(doWhile, test, i)
  {
    var r := Run(doWhile, test, line);
  }

  /** `while (true)` and `do { } while (true)` are cut off. */
  lemma InfiniteLoopStopped(doWhile: bool, line: nat)
    ensures Run(doWhile, _ => true, line) == Stopped(line, IterationLimit)
  {
    StoppedIffOverLimit(doWhile, _ => true, line);
  }

  /** `do { } while (false)` runs its body once, where `while (false)` never does. */
  lemma FalseTestIterations(line: nat)
    ensures Run(true, _ => false, line) == Finished(1)
    ensures Run(false, _ => false, line) == Finished(0)
  {
    FinishedIffEndsWithinLimit(true, _ => false, line, 1);
    FinishedIffEndsWithinLimit(false, _ => false, line, 0);
  }
}
