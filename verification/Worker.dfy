/** The execution of a job by a worker (model/job/worker.go:383-578): executions that fail are
    retried after a delay that doubles each time, give or take a tenth.

    Durations are numbers of nanoseconds, on 64 bits. The fuzz is a tenth of the delay rounded
    down; floating point, in which it is computed, is not part of this model. */
module Worker {
  import opened Options

  // ---------------------------------------------------------------- the configuration

  const DEFAULT_MAX_EXEC_COUNT := 1
  const DEFAULT_RETRY_DELAY := 60_000_000
  const DEFAULT_TIMEOUT := 10_000_000_000

  /** What the configuration of a worker, zero meaning unset, and the options of a job set. */
  datatype Conf = Conf(concurrency: int, maxExecCount: int, retryDelay: int, timeout: int)

  datatype JobOptions = JobOptions(maxExecCount: int, timeout: int)

  /** `defaultedConf`; the default concurrency is the number of processors. */
  method DefaultedConf(conf: Conf, opts: Option<JobOptions>, cpus: int) returns (c: Conf)
    ensures c == Lowered(Completed(conf, cpus), opts)
    ensures c.concurrency == if conf.concurrency == 0 then cpus else conf.concurrency
    ensures c.retryDelay == if conf.retryDelay == 0 then 60_000_000 else conf.retryDelay
    ensures var most := if conf.maxExecCount == 0 then 1 else conf.maxExecCount;
            c.maxExecCount == if opts.Some? && opts.value.maxExecCount != 0 && opts.value.maxExecCount < most
                              then opts.value.maxExecCount else most
    ensures var longest := if conf.timeout == 0 then 10_000_000_000 else conf.timeout;
            c.timeout == if opts.Some? && 0 < opts.value.timeout < longest then opts.value.timeout else longest
  {
    c := conf;
    if c.concurrency == 0 {
      c := c.(concurrency := cpus);
    }
    if c.maxExecCount == 0 {
      c := c.(maxExecCount := DEFAULT_MAX_EXEC_COUNT);
    }
    if c.retryDelay == 0 {
      c := c.(retryDelay := DEFAULT_RETRY_DELAY);
    }
    if c.timeout == 0 {
      c := c.(timeout := DEFAULT_TIMEOUT);
    }
    if opts.None? {
      return;
    }
    if opts.value.maxExecCount != 0 && opts.value.maxExecCount < c.maxExecCount {
      c := c.(maxExecCount := opts.value.maxExecCount);
    }
    if opts.value.timeout > 0 && opts.value.timeout < c.timeout {
      c := c.(timeout := opts.value.timeout);
    }
  }

  function OrElse(n: int, other: int): int { if n == 0 then other else n }

  function Min(a: int, b: int): int { if a < b then a else b }

  function Completed(conf: Conf, cpus: int): Conf {
    Conf(OrElse(conf.concurrency, cpus), OrElse(conf.maxExecCount, DEFAULT_MAX_EXEC_COUNT), OrElse(conf.retryDelay, DEFAULT_RETRY_DELAY),
         OrElse(conf.timeout, DEFAULT_TIMEOUT))
  }

  function Lowered(c: Conf, opts: Option<JobOptions>): Conf {
    if opts.None? then c else
    var o := opts.value;
    c.(maxExecCount := if o.maxExecCount == 0 then c.maxExecCount else Min(c.maxExecCount, o.maxExecCount),
       timeout := if o.timeout <= 0 then c.timeout else Min(c.timeout, o.timeout))
  }

  // ---------------------------------------------------------------- delays

  function Pow2(k: nat): nat {
    if k == 0 then 1 else 2 * Pow2(k - 1)
  }

  const MAX := 0x8000_0000_0000_0000

  /** What 64 bits keep of a number. */
  function Signed64(n: int): int {
    (n + MAX) % (2 * MAX) - MAX
  }

  /** `RetryDelay << (k-1)`, the delay before the k-th retry. */
  function Delay(retryDelay: int, k: int): int
    requires k >= 1
  {
    Signed64(retryDelay * Pow2(k - 1))
  }

  /** The number of retries whose delay has no overflow. */
  predicate Fits(retryDelay: int, k: int) {
    k >= 1 && retryDelay * Pow2(k - 1) < MAX
  }

  lemma {:induction false} PowGrows(j: nat, k: nat)
    requires j <= k
    ensures 1 <= Pow2(j) <= Pow2(k)
    decreases k
  {
    if j < k {
      PowGrows(j, k - 1);
    } else if k > 0 {
      PowGrows(j - 1, k - 1);
    }
  }

  lemma DelayExact(retryDelay: int, k: int)
    requires retryDelay >= 0 && Fits(retryDelay, k)
    ensures Delay(retryDelay, k) == retryDelay * Pow2(k - 1) >= retryDelay
  {
    PowGrows(0, k - 1);
    Scaled(retryDelay, 1, Pow2(k - 1));
  }

  lemma FitsBelow(retryDelay: int, j: int, k: int)
    requires retryDelay >= 0 && 1 <= j <= k && Fits(retryDelay, k)
    ensures Fits(retryDelay, j)
  {
    PowGrows(j - 1, k - 1);
    Scaled(retryDelay, Pow2(j - 1), Pow2(k - 1));
  }

  lemma Scaled(d: int, a: int, b: int)
    requires d >= 0 && a <= b
    ensures d * a <= d * b
  {
  }

  // ---------------------------------------------------------------- the retry loop

  datatype Failure = BadTrigger | Abort | MessageUnmarshal | MessageNil | Failure(id: int)

  datatype Outcome = Success | Failed(e: Failure, noRetry: bool)

  /** The next step of a task: no more execution, one after a delay, or a panic: the random
      generator has no number below zero to give. */
  datatype Next = Stop | Execute(delay: int, timeout: int) | Panic

  predicate Recoverable(e: Failure) { e.Failure? }

  /** What a task calls: the start hook, which may fail, the worker function, the error hook and
      the random generator. */
  datatype World = World(start: Option<Failure>, exec: nat -> Outcome, hook: Option<Option<Failure> -> bool>, draw: (nat, nat) -> nat)

  ghost predicate Draws(w: World) {
    forall k, n :: n > 0 ==> w.draw(k, n) < n
  }

  predicate HookAllows(w: World, e: Option<Failure>) {
    w.hook.None? || w.hook.value(e)
  }

  /** The i-th execution failed in a way that the code itself would retry. */
  predicate MayRetry(conf: Conf, w: World, i: nat) {
    w.exec(i).Failed? && !w.exec(i).noRetry && Recoverable(w.exec(i).e) && i + 1 < conf.maxExecCount
  }

  predicate Retries(conf: Conf, w: World, i: nat) {
    MayRetry(conf, w, i) && Delay(conf.retryDelay, i + 1) >= 10 && HookAllows(w, Some(w.exec(i).e))
  }

  predicate Starts(conf: Conf, w: World) {
    conf.maxExecCount > 0 && HookAllows(w, None)
  }

  /** The task executes n times. */
  ghost predicate RunsFor(conf: Conf, w: World, n: nat) {
    && (forall i :: 0 <= i < n - 1 ==> Retries(conf, w, i))
    && (if n == 0 then !Starts(conf, w) else Starts(conf, w) && !Retries(conf, w, n - 1))
  }

  /** The task panics when it prepares the execution after its n-th one. */
  ghost predicate PanicsAfter(conf: Conf, w: World, n: nat) {
    && n > 0 && Starts(conf, w) && MayRetry(conf, w, n - 1) && Delay(conf.retryDelay, n) < 10
    && forall i :: 0 <= i < n - 1 ==> Retries(conf, w, i)
  }

  ghost predicate Around(retryDelay: int, k: int, slept: int) {
    k >= 1 && var x := Delay(retryDelay, k); x - x / 10 <= slept < x + x / 10
  }

  ghost predicate SleptFor(retryDelay: int, sleeps: seq<int>) {
    forall i :: 0 <= i < |sleeps| ==> Around(retryDelay, i + 1, sleeps[i])
  }

  datatype End = Ended(err: Option<Failure>) | Panicked

  class Task {
    const conf: Conf
    var execCount: nat
    ghost var runs: nat             // the executions so far
    ghost var sleeps: seq<int>      // the delays slept so far
    ghost var commits: nat          // the calls of the commit hook

    constructor (conf: Conf)
      ensures this.conf == conf
    {
      this.conf := conf;
      execCount, runs, sleeps, commits := 0, 0, [], 0;
    }

    /** `nextDelay`. */
    method NextDelay(prev: Option<Failure>, w: World) returns (r: Next)
      requires Draws(w)
      ensures r.Stop? <==> (prev.Some? && !Recoverable(prev.value)) || execCount >= conf.maxExecCount
      ensures r.Panic? <==>
                && !(prev.Some? && !Recoverable(prev.value)) && 0 < execCount < conf.maxExecCount
                && Delay(conf.retryDelay, execCount) < 10
      ensures r.Execute? ==> r.timeout == conf.timeout
      ensures r.Execute? ==> if execCount == 0 then r.delay == 0 else Around(conf.retryDelay, execCount, r.delay)
    {
      if prev.Some? && !Recoverable(prev.value) {
        return Stop;
      }
      if execCount >= conf.maxExecCount {
        return Stop;
      }
      if execCount == 0 {
        return Execute(0, conf.timeout);
      }
      var delay := Delay(conf.retryDelay, execCount);
      if delay < 10 {
        return Panic;
      }
      var fuzz := delay / 10;
      r := Execute(delay + (w.draw(execCount, 2 * fuzz) - fuzz), conf.timeout);
    }

    /** `run`: without execution when the start hook fails; else the loop, and the commit hook once
        however the loop ends. */
    method Run(w: World) returns (end: End)
      requires Draws(w)
      modifies this
      ensures w.start.Some? ==> end == Ended(w.start) && runs == 0 && sleeps == [] && commits == old(commits)
      ensures w.start.None? ==> Looped(w, end) && commits == old(commits) + 1
    {
      execCount, runs, sleeps := 0, 0, [];
      if w.start.Some? {
        return Ended(w.start);
      }
      end := Loop(w);
      commits := commits + 1;
    }

    /** What the loop leaves. Its executions are counted exactly; it ends without error when it did
        nothing or its last execution succeeded; and it sleeps once before each retry. */
    ghost predicate Looped(w: World, end: End)
      reads this
    {
      && (end.Ended? ==> RunsFor(conf, w, runs))
      && (end.Ended? ==>
            end.err == if runs == 0 || w.exec(runs - 1).Success? then None else Some(w.exec(runs - 1).e))
      && (end.Panicked? ==> PanicsAfter(conf, w, runs))
      && |sleeps| == (if runs == 0 then 0 else runs - 1) && SleptFor(conf.retryDelay, sleeps)
    }

    method Loop(w: World) returns (end: End)
      requires Draws(w)
      modifies this`execCount, this`runs, this`sleeps
      ensures Looped(w, end)
    {
      execCount, runs, sleeps := 0, 0, [];
      var err: Option<Failure> := None;
      while true
        invariant runs == execCount && (conf.maxExecCount >= 0 ==> execCount <= conf.maxExecCount)
        invariant runs > 0 ==> Starts(conf, w)
        invariant runs > 0 ==> w.exec(runs - 1).Failed? && !w.exec(runs - 1).noRetry
        invariant err == if runs == 0 then None else Some(w.exec(runs - 1).e)
        invariant forall i :: 0 <= i < runs - 1 ==> Retries(conf, w, i)
        invariant |sleeps| == (if runs == 0 then 0 else runs - 1) && SleptFor(conf.retryDelay, sleeps)
        decreases conf.maxExecCount - execCount
      {
        var next := NextDelay(err, w);
        if next.Panic? {
          return Panicked;
        }
        if next.Stop? || !HookAllows(w, err) {
          break;
        }
        if runs > 0 {
          sleeps := sleeps + [next.delay];
        }
        runs := runs + 1;
        match w.exec(execCount) {
          case Success =>
            err := None;
            return Ended(err);
          case Failed(e, noRetry) =>
            err := Some(e);
            execCount := execCount + 1;
            if noRetry {
              return Ended(err);
            }
        }
      }
      end := Ended(err);
    }
  }

  // ---------------------------------------------------------------- what a run promises

  /** Options can only lower the number of executions and the timeout. */
  lemma OptionsOnlyLower(c: Conf, opts: JobOptions)
    ensures Lowered(c, Some(opts)).maxExecCount <= c.maxExecCount
    ensures Lowered(c, Some(opts)).timeout <= c.timeout
    ensures c.timeout > 0 ==> Lowered(c, Some(opts)).timeout > 0
    ensures Lowered(c, Some(opts)).retryDelay == c.retryDelay && Lowered(c, Some(opts)).concurrency == c.concurrency
  {
  }

  /** A task executes at most as often as its configuration says, and not at all when that is not
      positive, which ends it without error. */
  lemma AtMost(conf: Conf, w: World, n: nat)
    requires RunsFor(conf, w, n)
    ensures n <= conf.maxExecCount || n == 0
    ensures conf.maxExecCount <= 0 ==> n == 0
  {
    if n > 1 {
      assert Retries(conf, w, n - 2);
    }
  }

  /** The number of executions is determined by their outcomes. */
  lemma RunsForUnique(conf: Conf, w: World, n: nat, m: nat)
    requires RunsFor(conf, w, n) && RunsFor(conf, w, m)
    ensures n == m
  {
  }

  /** The last execution of a task, with sane delays: the first one that succeeds, asks for no other
      one, fails in a way that another one would not change, is not allowed another one by the error
      hook, or is the last that the configuration allows. */
  predicate IsLast(conf: Conf, w: World, i: nat) {
    || w.exec(i).Success? || w.exec(i).noRetry
    || w.exec(i).e == BadTrigger || w.exec(i).e == Abort || w.exec(i).e == MessageUnmarshal || w.exec(i).e == MessageNil
    || i + 1 >= conf.maxExecCount
    || (w.hook.Some? && !w.hook.value(Some(w.exec(i).e)))
  }

  lemma LastIff(conf: Conf, w: World, i: nat)
    requires Sane(conf)
    ensures IsLast(conf, w, i) <==> !Retries(conf, w, i)
  {
    if MayRetry(conf, w, i) {
      NeverPanics(conf, w, i);
    }
  }

  lemma RunsToTheLast(conf: Conf, w: World, n: nat)
    requires Sane(conf)
    ensures RunsFor(conf, w, n) <==>
              if conf.maxExecCount <= 0 || (w.hook.Some? && !w.hook.value(None)) then n == 0
              else n > 0 && IsLast(conf, w, n - 1) && forall i :: 0 <= i < n - 1 ==> !IsLast(conf, w, i)
  {
    forall i: nat ensures IsLast(conf, w, i) <==> !Retries(conf, w, i) {
      LastIff(conf, w, i);
    }
  }

  ghost predicate AlwaysFails(w: World) {
    w.hook.None? && forall i :: w.exec(i) == Failed(Failure(0), false)
  }

  /** A worker that always fails panics exactly when some retry that its configuration allows has
      a delay under ten nanoseconds, be it small or overflowing to a small or negative number. */
  lemma PanicIff(conf: Conf, w: World)
    requires AlwaysFails(w)
    ensures (exists n :: PanicsAfter(conf, w, n))
            <==> exists k :: 1 <= k < conf.maxExecCount && Delay(conf.retryDelay, k) < 10
  {
    if k :| 1 <= k < conf.maxExecCount && Delay(conf.retryDelay, k) < 10 {
      var first := FirstShort(conf, w, k);
      assert PanicsAfter(conf, w, first);
    }
  }

  lemma {:induction false} FirstShort(conf: Conf, w: World, k: int) returns (first: nat)
    requires AlwaysFails(w) && 1 <= k < conf.maxExecCount && Delay(conf.retryDelay, k) < 10
    ensures 1 <= first <= k && Delay(conf.retryDelay, first) < 10
    ensures forall i :: 0 <= i < first - 1 ==> Retries(conf, w, i)
    decreases k
  {
    if j :| 1 <= j < k && Delay(conf.retryDelay, j) < 10 {
      first := FirstShort(conf, w, j);
    } else {
      first := k;
    }
  }

  /** The delays the promises are about: at least ten nanoseconds, without overflow up to the
      last retry. */
  predicate Sane(conf: Conf) {
    conf.retryDelay >= 10 && (conf.maxExecCount > 1 ==> Fits(conf.retryDelay, conf.maxExecCount - 1))
  }

  /** With sane delays no retry panics, whatever happens. */
  lemma NeverPanics(conf: Conf, w: World, i: nat)
    requires Sane(conf) && MayRetry(conf, w, i)
    ensures Delay(conf.retryDelay, i + 1) == conf.retryDelay * Pow2(i) >= 10
  {
    FitsBelow(conf.retryDelay, i + 1, conf.maxExecCount - 1);
    DelayExact(conf.retryDelay, i + 1);
  }

  /** Each delay is within a tenth of the base delay doubled for each earlier retry. */
  lemma WithinATenth(conf: Conf, sleeps: seq<int>, i: int)
    requires Sane(conf) && SleptFor(conf.retryDelay, sleeps) && 0 <= i < |sleeps| < conf.maxExecCount
    ensures var x := conf.retryDelay * Pow2(i); 9 * x <= 10 * sleeps[i] < 11 * x
  {
    FitsBelow(conf.retryDelay, i + 1, conf.maxExecCount - 1);
    DelayExact(conf.retryDelay, i + 1);
    assert Around(conf.retryDelay, i + 1, sleeps[i]);
  }

  /** In spite of the fuzz, delays grow. */
  lemma DelaysGrow(conf: Conf, sleeps: seq<int>, i: int)
    requires Sane(conf) && SleptFor(conf.retryDelay, sleeps) && 0 <= i && i + 1 < |sleeps| < conf.maxExecCount
    ensures 0 < sleeps[i] < sleeps[i + 1]
  {
    WithinATenth(conf, sleeps, i);
    WithinATenth(conf, sleeps, i + 1);
    PowGrows(0, i);
    Doubled(conf.retryDelay, Pow2(i));
  }

  lemma Doubled(d: int, p: int)
    requires d > 0 && p > 0
    ensures d * (2 * p) == 2 * (d * p) && d * p > 0
  {
  }

  function Total(sleeps: seq<int>): int {
    if sleeps == [] then 0 else Total(sleeps[..|sleeps| - 1]) + sleeps[|sleeps| - 1]
  }

  /** All the delays together stay within a tenth of their sum without fuzz. */
  lemma {:induction false} TotalWithinATenth(conf: Conf, sleeps: seq<int>)
    requires Sane(conf) && SleptFor(conf.retryDelay, sleeps) && (sleeps == [] || |sleeps| < conf.maxExecCount)
    ensures var x := conf.retryDelay * (Pow2(|sleeps|) - 1); 9 * x <= 10 * Total(sleeps) <= 11 * x
    decreases |sleeps|
  {
    if sleeps != [] {
      var n := |sleeps| - 1;
      forall i | 0 <= i < n ensures Around(conf.retryDelay, i + 1, sleeps[..n][i]) {
        assert Around(conf.retryDelay, i + 1, sleeps[i]);
      }
      TotalWithinATenth(conf, sleeps[..n]);
      WithinATenth(conf, sleeps, n);
      Sum(conf.retryDelay, Pow2(n));
    }
  }

  lemma Sum(d: int, p: int)
    ensures d * (p - 1) + d * p == d * (2 * p - 1)
  {
  }

  /** A task of n executions sleeps for less than 1.1 times the base delay doubled n-1 times. */
  lemma TotalBound(conf: Conf, sleeps: seq<int>, n: nat)
    requires Sane(conf) && SleptFor(conf.retryDelay, sleeps)
    requires 0 < n <= conf.maxExecCount && |sleeps| == n - 1
    ensures 10 * Total(sleeps) < 11 * (conf.retryDelay * Pow2(n - 1))
  {
    TotalWithinATenth(conf, sleeps);
    BelowNext(conf.retryDelay, Pow2(n - 1), Total(sleeps));
  }

  lemma BelowNext(d: int, p: int, t: int)
    requires d > 0 && 10 * t <= 11 * (d * (p - 1))
    ensures 10 * t < 11 * (d * p)
  {
    assert d * p == d * (p - 1) + d;
  }

  /** The state of a job whose task ended: done without error or when it was aborted. */
  predicate IsDone(err: Option<Failure>) {
    err.None? || err == Some(Abort)
  }

  /** How a task ends, from its start. */
  ghost predicate Ends(conf: Conf, w: World, n: nat, err: Option<Failure>) {
    if w.start.Some? then n == 0 && err == w.start
    else RunsFor(conf, w, n) && err == if n == 0 || w.exec(n - 1).Success? then None else Some(w.exec(n - 1).e)
  }

  /** A job is done exactly when its worker was aborted at the start, or was not executed for
      another reason than a failed start, or its last execution succeeded or was aborted. */
  lemma DoneIff(conf: Conf, w: World, n: nat, err: Option<Failure>)
    requires Ends(conf, w, n, err)
    ensures IsDone(err) <==>
              if w.start.Some? then w.start == Some(Abort)
              else !Starts(conf, w) || w.exec(n - 1).Success? || w.exec(n - 1).e == Abort
  {
  }
}
