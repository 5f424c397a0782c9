/** WorkerRunner of apps/workers/src/runner.ts: bounded concurrency, and the chain of retries
    that ends in a completion or a dead letter. */
module Worker {
  import opened Prelude
  import opened Quotients

  // ---- Retry delays ----

  function Pow2(n: nat): nat {
    if n == 0 then 1 else 2 * Pow2(n - 1)
  }

  /** The delay before jitter. */
  function Backoff(attempt: int, baseMs: nat, capMs: nat): int {
    Min(capMs, baseMs * Pow2(Max(0, attempt - 1)))
  }

  function Jitter(span: int, draw: real): int {
    (draw * span as real).Floor
  }

  /** `draw` is Math.random(), from 0 up to but not including 1. */
  function RetryDelay(attempt: int, baseMs: nat, capMs: nat, draw: real): int {
    var exp := Backoff(attempt, baseMs, capMs);
    exp + Jitter(Max(1, exp / 5), draw)
  }

  /** The first retry waits for the base, each later one for twice as long as the one before, and
      none for longer than the cap. */
  lemma BackoffDoubles(attempt: int, baseMs: nat, capMs: nat)
    ensures Backoff(attempt, baseMs, capMs) <= capMs
    ensures attempt <= 1 ==> Backoff(attempt, baseMs, capMs) == Min(capMs, baseMs)
    ensures attempt >= 1 ==> Backoff(attempt + 1, baseMs, capMs) == Min(capMs, 2 * Backoff(attempt, baseMs, capMs))
  {
    if attempt >= 1 {
      BackoffNotNegative(attempt, baseMs, capMs);
      var p := Pow2(attempt - 1);
      assert Pow2(attempt) == 2 * p;
      assert baseMs * (2 * p) == 2 * (baseMs * p);
      PositiveProduct(baseMs, p);
    }
  }

  /** Every jitter below a fifth of the delay, and none at all, is drawn by some number. */
  lemma JitterAttained(attempt: int, baseMs: nat, capMs: nat, jitter: nat) returns (draw: real)
    requires jitter < Max(1, Backoff(attempt, baseMs, capMs) / 5)
    ensures 0.0 <= draw < 1.0
    ensures RetryDelay(attempt, baseMs, capMs, draw) == Backoff(attempt, baseMs, capMs) + jitter
  {
    var span := Max(1, Backoff(attempt, baseMs, capMs) / 5);
    hide Backoff;
    draw := jitter as real / span as real;
    assert draw * span as real == jitter as real;
    assert draw < 1.0;
  }

  ghost predicate Draws(draws: seq<real>) {
    forall i :: 0 <= i < |draws| ==> 0.0 <= draws[i] < 1.0
  }

  /** Waiting time of the retries that follow a delivery at `attempt`, one per draw. */
  function TotalDelay(attempt: int, baseMs: nat, capMs: nat, draws: seq<real>): int {
    if draws == [] then 0
    else TotalDelay(attempt, baseMs, capMs, draws[..|draws| - 1])
         + RetryDelay(attempt + |draws|, baseMs, capMs, draws[|draws| - 1])
  }

  lemma PositiveProduct(a: int, b: int)
    requires a >= 0 && b >= 0
    ensures a * b >= 0
  {
  }

  lemma BackoffNotNegative(attempt: int, baseMs: nat, capMs: nat)
    ensures Backoff(attempt, baseMs, capMs) >= 0
  {
    PositiveProduct(baseMs, Pow2(Max(0, attempt - 1)));
  }

  lemma FractionOf(draw: real, span: real)
    requires 0.0 <= draw < 1.0 && span > 0.0
    ensures 0.0 <= draw * span < span
  {
    assert (1.0 - draw) * span > 0.0;
    assert (1.0 - draw) * span == span - draw * span;
  }

  lemma FloorBelow(x: real, n: int)
    requires 0.0 <= x < n as real
    ensures 0 <= x.Floor < n
  {
  }

  lemma JitterBound(span: int, draw: real)
    requires span >= 1 && 0.0 <= draw < 1.0
    ensures 0 <= Jitter(span, draw) < span
  {
    FractionOf(draw, span as real);
    FloorBelow(draw * span as real, span);
  }

  /** Jitter adds at most a fifth. */
  lemma DelayWithinJitter(attempt: int, baseMs: nat, capMs: nat, draw: real)
    requires 0.0 <= draw < 1.0
    ensures var exp := Backoff(attempt, baseMs, capMs);
      exp <= RetryDelay(attempt, baseMs, capMs, draw) && 5 * RetryDelay(attempt, baseMs, capMs, draw) <= 6 * exp
  {
    BackoffNotNegative(attempt, baseMs, capMs);
    hide Backoff, Jitter;
    JitterBound(Max(1, Backoff(attempt, baseMs, capMs) / 5), draw);
  }

  lemma {:induction false} Pow2Sum(a: nat, n: nat)
    ensures Pow2(a + n) == Pow2(a) * Pow2(n)
  {
    if n > 0 { Pow2Sum(a, n - 1); }
  }

  lemma {:induction false} Pow2Monotone(a: nat, b: nat)
    requires a <= b
    ensures Pow2(a) <= Pow2(b)
  {
    if a < b { Pow2Monotone(a, b - 1); }
  }

  lemma BackoffBound(attempt: int, n: nat, baseMs: nat, capMs: nat)
    requires n >= 1
    ensures Backoff(attempt + n, baseMs, capMs) <= capMs
    ensures Backoff(attempt + n, baseMs, capMs) <= baseMs * Pow2(Max(0, attempt)) * Pow2(n - 1)
  {
    var a := Max(0, attempt);
    Pow2Monotone(Max(0, attempt + n - 1), a + n - 1);
    TimesMonotone(Pow2(Max(0, attempt + n - 1)), Pow2(a + n - 1), baseMs);
    Pow2Sum(a, n - 1);
    assert baseMs * Pow2(a + n - 1) == baseMs * Pow2(a) * Pow2(n - 1);
  }

  lemma Doubling(unit: int, p: int)
    ensures unit * (2 * p - 1) == unit * (p - 1) + unit * p
  {
  }

  lemma OneMoreCap(n: int, cap: int)
    ensures (n + 1) * cap == n * cap + cap
  {
  }

  /** Together n retries wait at most six fifths of n caps, and of the doubling series. */
  lemma {:induction false} TotalDelayBound(attempt: int, baseMs: nat, capMs: nat, draws: seq<real>)
    requires Draws(draws)
    ensures 5 * TotalDelay(attempt, baseMs, capMs, draws)
            <= 6 * Min(|draws| * capMs, baseMs * Pow2(Max(0, attempt)) * (Pow2(|draws|) - 1))
  {
    var n, unit := |draws|, baseMs * Pow2(Max(0, attempt));
    if n == 0 {
      assert unit * (Pow2(0) - 1) == 0;
    } else {
      TotalDelayBound(attempt, baseMs, capMs, draws[..n - 1]);
      DelayWithinJitter(attempt + n, baseMs, capMs, draws[n - 1]);
      BackoffBound(attempt, n, baseMs, capMs);
      Doubling(unit, Pow2(n - 1));
      OneMoreCap(n - 1, capMs);
      hide Backoff, RetryDelay, Draws;
      assert Pow2(n) == 2 * Pow2(n - 1);
    }
  }

  // ---- One delivery, and the chain of redeliveries ----

  /** How the awaits of one run end. Without an idempotency port nothing is recorded. */
  datatype Script = Script(port: bool, lookUp: LookUp, handles: bool, records: bool)

  datatype LookUp = Unknown | AlreadyDone | LookUpFails

  datatype JobResult = Completed(attempt: int) | Retrying(attempt: int) | DeadLettered(attempt: int)

  predicate Succeeds(s: Script) {
    if s.port && s.lookUp == AlreadyDone then true
    else !(s.port && s.lookUp == LookUpFails) && s.handles && (s.port ==> s.records)
  }

  function ResultOf(attempt: int, maxAttempts: int, s: Script): JobResult {
    if Succeeds(s) then Completed(attempt)
    else if attempt + 1 >= maxAttempts then DeadLettered(attempt + 1)
    else Retrying(attempt + 1)
  }

  /** A run completes exactly when the job is recorded as done already, or its handler succeeds and,
      with an idempotency port, the look-up and the record do too; a run that fails is retried
      exactly while attempts are left. */
  lemma CompletesExactly(attempt: int, maxAttempts: int, s: Script)
    ensures ResultOf(attempt, maxAttempts, s) == Completed(attempt) <==>
      (s.port && s.lookUp == AlreadyDone) || (s.handles && (!s.port || (s.lookUp == Unknown && s.records)))
    ensures ResultOf(attempt, maxAttempts, s).Completed? ==> ResultOf(attempt, maxAttempts, s).attempt == attempt
    ensures ResultOf(attempt, maxAttempts, s).Retrying? <==>
      !ResultOf(attempt, maxAttempts, s).Completed? && attempt + 1 < maxAttempts
    ensures !ResultOf(attempt, maxAttempts, s).Completed? ==> ResultOf(attempt, maxAttempts, s).attempt == attempt + 1
  {
  }

  /** The results of redelivering a job with the attempt handed to `onRetry`. */
  function Chain(attempt: int, maxAttempts: int, scripts: nat -> Script, from: nat): seq<JobResult>
    decreases maxAttempts - attempt
  {
    var r := ResultOf(attempt, maxAttempts, scripts(from));
    if r.Retrying? then [r] + Chain(r.attempt, maxAttempts, scripts, from + 1) else [r]
  }

  lemma ChainStarts(attempt: int, maxAttempts: int, scripts: nat -> Script, from: nat)
    ensures var r := ResultOf(attempt, maxAttempts, scripts(from));
      && Chain(attempt, maxAttempts, scripts, from)
         == (if r.Retrying? then [r] + Chain(attempt + 1, maxAttempts, scripts, from + 1) else [r])
      && (r.Retrying? ==> r.attempt == attempt + 1 && attempt + 1 < maxAttempts)
  {
  }

  ghost predicate Settled(r: JobResult) {
    r.Completed? || r.DeadLettered?
  }

  /** The chain ends within max(1, max_attempts - attempt) runs, in one completion or one
      dead letter and nothing but retries before it; it is a dead letter exactly when every
      run failed, and then no run was spared. */
  lemma {:induction false} ChainSettlesOnce(attempt: int, maxAttempts: int, scripts: nat -> Script, from: nat)
    ensures var chain := Chain(attempt, maxAttempts, scripts, from); var n := |chain| - 1;
      && 1 <= |chain| <= Max(1, maxAttempts - attempt)
      && Settled(chain[n])
      && (forall i :: 0 <= i < n ==> chain[i] == Retrying(attempt + i + 1))
      && (chain[n].DeadLettered? <==> forall j: nat :: from <= j <= from + n ==> !Succeeds(scripts(j)))
      && (chain[n].DeadLettered? ==> |chain| == Max(1, maxAttempts - attempt) && chain[n].attempt == attempt + n + 1)
      && (chain[n].Completed? ==> chain[n].attempt == attempt + n)
    decreases maxAttempts - attempt
  {
    var r := ResultOf(attempt, maxAttempts, scripts(from));
    var chain := Chain(attempt, maxAttempts, scripts, from);
    if r.Retrying? {
      var rest := Chain(attempt + 1, maxAttempts, scripts, from + 1);
      ChainSettlesOnce(attempt + 1, maxAttempts, scripts, from + 1);
      assert chain == [r] + rest;
    }
  }

  /** All the retries of a chain wait no longer than the bound for their number. */
  lemma ChainWaits(attempt: int, maxAttempts: int, scripts: nat -> Script, draws: seq<real>)
    requires Draws(draws) && |draws| == |Chain(attempt, maxAttempts, scripts, 0)| - 1
    ensures var n := |draws|;
      && n <= Max(0, maxAttempts - attempt - 1)
      && 5 * TotalDelay(attempt, 500, 60000, draws) <= 6 * Min(n * 60000, 500 * Pow2(Max(0, attempt)) * (Pow2(n) - 1))
  {
    ChainSettlesOnce(attempt, maxAttempts, scripts, 0);
    TotalDelayBound(attempt, 500, 60000, draws);
  }

  // ---- Interleaved runs ----

  type RunId = nat

  /** `unsettled` are the runs that were accepted and have not reached their finally block. */
  datatype State = State(stopping: bool, active: int, concurrency: int, unsettled: set<RunId>, seen: set<RunId>)

  datatype Step = Start(run: RunId) | Settle(run: RunId) | RequestStop

  predicate CanAccept(s: State) {
    !s.stopping && s.active < s.concurrency
  }

  /** A run that is not accepted throws and changes nothing; other steps that cannot happen
      now leave the state alone. */
  function Apply(s: State, step: Step): State {
    match step
    case Start(r) =>
      if r in s.seen then s
      else if !CanAccept(s) then s.(seen := s.seen + {r})
      else s.(seen := s.seen + {r}, active := s.active + 1, unsettled := s.unsettled + {r})
    case Settle(r) =>
      if r in s.unsettled then s.(active := s.active - 1, unsettled := s.unsettled - {r}) else s
    case RequestStop => s.(stopping := true)
  }

  function Exec(s: State, steps: seq<Step>): State {
    if steps == [] then s else Apply(Exec(s, steps[..|steps| - 1]), steps[|steps| - 1])
  }

  ghost predicate Inv(s: State) {
    s.active == |s.unsettled| && s.active <= Max(0, s.concurrency) && s.unsettled <= s.seen
  }

  lemma {:induction false} RunKeepsInv(s: State, steps: seq<Step>)
    requires Inv(s)
    ensures Inv(Exec(s, steps)) && Exec(s, steps).concurrency == s.concurrency
    ensures s.stopping ==> Exec(s, steps).stopping && Exec(s, steps).unsettled <= s.unsettled
  {
    if steps != [] { RunKeepsInv(s, steps[..|steps| - 1]); }
  }

  lemma {:induction false} StopsOnRequest(s: State, steps: seq<Step>)
    ensures Exec(s, steps).stopping <==> s.stopping || RequestStop in steps
  {
    if steps != [] {
      var n := |steps| - 1;
      StopsOnRequest(s, steps[..n]);
      assert steps == steps[..n] + [steps[n]];
    }
  }

  /** In every interleaving the active jobs are the unsettled runs, never more than the
      concurrency; and a job is accepted exactly while there are fewer and no stop is requested. */
  lemma ActiveIsUnsettled(concurrency: int, steps: seq<Step>)
    ensures var s := Exec(State(false, 0, concurrency, {}, {}), steps);
      s.active == |s.unsettled| <= Max(0, concurrency)
      && (CanAccept(s) <==> |s.unsettled| < concurrency && RequestStop !in steps)
  {
    StopsOnRequest(State(false, 0, concurrency, {}, {}), steps);
    RunKeepsInv(State(false, 0, concurrency, {}, {}), steps);
  }

  /** After a stop request nothing is accepted, so the active jobs only settle. */
  lemma StopDrains(concurrency: int, before: seq<Step>, after: seq<Step>)
    ensures var s := Exec(State(false, 0, concurrency, {}, {}), before + [RequestStop]);
      Exec(s, after).unsettled <= s.unsettled && !CanAccept(Exec(s, after))
  {
    var s0 := State(false, 0, concurrency, {}, {});
    RunKeepsInv(s0, before + [RequestStop]);
    RunKeepsInv(Exec(s0, before + [RequestStop]), after);
  }

  class WorkerRunner {
    const concurrency: int
    var stopping: bool
    var active: int
    ghost var unsettled: set<RunId>
    ghost var seen: set<RunId>

    ghost function View(): State reads this {
      State(stopping, active, concurrency, unsettled, seen)
    }

    constructor (concurrency: int)
      ensures View() == State(false, 0, concurrency, {}, {})
    {
      this.concurrency := concurrency;
      stopping, active := false, 0;
      unsettled, seen := {}, {};
    }

    method Stop()
      modifies this
      ensures View() == Apply(old(View()), RequestStop)
    {
      stopping := true;
    }

    /** The start of `run`: refused, or counted as active. */
    method Accept(run: RunId) returns (accepted: bool)
      requires run !in seen
      modifies this
      ensures accepted == CanAccept(old(View()))
      ensures View() == Apply(old(View()), Start(run))
    {
      seen := seen + {run};
      accepted := !stopping && active < concurrency;
      if accepted {
        active := active + 1;
        unsettled := unsettled + {run};
      }
    }

    /** The finally block of `run`. */
    method Release(run: RunId)
      requires run in unsettled
      modifies this
      ensures View() == Apply(old(View()), Settle(run))
    {
      active := active - 1;
      unsettled := unsettled - {run};
    }

    /** One undisturbed delivery: None when it is not accepted, and the slot is given back. */
    method Run(run: RunId, attempt: int, maxAttempts: int, script: Script) returns (r: Option<JobResult>)
      requires run !in seen && unsettled <= seen
      modifies this
      ensures r == if CanAccept(old(View())) then Some(ResultOf(attempt, maxAttempts, script)) else None
      ensures View() == old(View()).(seen := old(seen) + {run})
    {
      var accepted := Accept(run);
      if !accepted { return None; }
      var ok := !(script.port && script.lookUp == LookUpFails);
      if ok && !(script.port && script.lookUp == AlreadyDone) {
        ok := script.handles;
        if ok && script.port { ok := script.records; }
      }
      if ok {
        r := Some(Completed(attempt));
      } else {
        var next := attempt + 1;
        r := Some(if next >= maxAttempts then DeadLettered(next) else Retrying(next));
      }
      Release(run);
      assert unsettled == old(unsettled);
    }

    /** A queue that redelivers a retried job until it settles. */
    method Redeliver(first: RunId, attempt: int, maxAttempts: int, scripts: nat -> Script)
      returns (results: seq<JobResult>)
      requires CanAccept(View()) && unsettled <= seen && forall r :: r in seen ==> r < first
      modifies this
      ensures results == Chain(attempt, maxAttempts, scripts, 0)
      ensures active == old(active) && unsettled == old(unsettled)
    {
      results := [];
      var now, n := attempt, 0;
      var more := true;
      while more
        invariant CanAccept(View()) && View() == old(View()).(seen := seen)
        invariant unsettled <= seen && forall r :: r in seen ==> r < first + n
        invariant more ==> results + Chain(now, maxAttempts, scripts, n) == Chain(attempt, maxAttempts, scripts, 0)
        invariant !more ==> results == Chain(attempt, maxAttempts, scripts, 0)
        decreases more, maxAttempts - now
      {
        ChainStarts(now, maxAttempts, scripts, n);
        hide Chain, ResultOf;
        var r := Run(first + n, now, maxAttempts, scripts(n));
        more := r.value.Retrying?;
        results := results + [r.value];
        now, n := r.value.attempt, n + 1;
      }
    }
  }
}
