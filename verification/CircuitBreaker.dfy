/** The CircuitBreaker of packages/platform-sdk/src/resilience.ts. */
module CircuitBreaking {
  import opened Prelude
  import opened Quotients

  /** `openedAt` is 0 while the breaker is closed. */
  datatype Breaker = Breaker(threshold: int, resetMs: int, failures: int, openedAt: int)

  function Fresh(threshold: int, resetMs: int): Breaker {
    Breaker(threshold, resetMs, 0, 0)
  }

  predicate Rejects(b: Breaker, now: int) {
    b.openedAt != 0 && now - b.openedAt < b.resetMs
  }

  function Settle(b: Breaker, ok: bool, now: int): Breaker {
    if ok then b.(failures := 0, openedAt := 0)
    else if b.failures + 1 >= b.threshold then b.(failures := b.failures + 1, openedAt := now)
    else b.(failures := b.failures + 1)
  }

  // ---- Non-overlapping calls that all fail ----

  /** A call of `run` by its start and, should it reach the dependency, its failure. */
  datatype Call = Call(start: int, end: int)

  ghost predicate OneAfterAnother(calls: seq<Call>, from: int)
    decreases calls
  {
    calls != [] ==> from <= calls[0].start <= calls[0].end && OneAfterAnother(calls[1..], calls[0].end)
  }

  function After(b: Breaker, c: Call): Breaker {
    if Rejects(b, c.start) then b else Settle(b, false, c.end)
  }

  /** How many of the calls reach the dependency no later than `deadline`. */
  function Reaching(b: Breaker, calls: seq<Call>, deadline: int): nat
    decreases calls
  {
    if calls == [] then 0 else
    (if !Rejects(b, calls[0].start) && calls[0].start <= deadline then 1 else 0)
    + Reaching(After(b, calls[0]), calls[1..], deadline)
  }

  /** The time at which the breaker first opens. */
  function FirstOpening(b: Breaker, calls: seq<Call>): Option<int>
    decreases calls
  {
    if b.openedAt != 0 then Some(b.openedAt)
    else if calls == [] then None
    else FirstOpening(After(b, calls[0]), calls[1..])
  }

  /** From an open breaker at most one probe gets through per reset period. */
  lemma {:induction false} ProbesWhileOpen(b: Breaker, calls: seq<Call>, deadline: int)
    requires b.resetMs >= 1 && b.openedAt > 0 && b.failures >= b.threshold && b.failures >= 1
    requires OneAfterAnother(calls, b.openedAt)
    ensures Reaching(b, calls, deadline)
            <= if deadline < b.openedAt then 0 else (deadline - b.openedAt) / b.resetMs
    decreases calls
  {
    if calls != [] {
      var c, r := calls[0], b.resetMs;
      if Rejects(b, c.start) {
        Later(calls, b.openedAt);
        ProbesWhileOpen(b, calls[1..], deadline);
      } else {
        ProbesWhileOpen(After(b, c), calls[1..], deadline);
        assert After(b, c).openedAt == c.end;
        if c.start <= deadline {
          OneMorePeriod(deadline, b.openedAt, c.end, r);
        } else if deadline >= b.openedAt {
          QuotientMonotone(0, deadline - b.openedAt, r);
          QuotientIs(0, r, 0);
        }
      }
    }
  }

  /** A probe that fails by `end`, a period or more after the opening, leaves one period less. */
  lemma OneMorePeriod(deadline: int, openedAt: int, end: int, r: int)
    requires r >= 1 && openedAt + r <= end && openedAt + r <= deadline
    ensures 1 + (if deadline < end then 0 else (deadline - end) / r) <= (deadline - openedAt) / r
  {
    OneDivisorLess(deadline - openedAt, r);
    QuotientMonotone(0, deadline - openedAt - r, r);
    QuotientIs(0, r, 0);
    if deadline >= end { QuotientMonotone(deadline - end, deadline - openedAt - r, r); }
  }

  lemma Later(calls: seq<Call>, from: int)
    requires calls != [] && OneAfterAnother(calls, from)
    ensures OneAfterAnother(calls[1..], from)
  {
  }

  lemma {:induction false} ProbesFrom(b: Breaker, calls: seq<Call>, t: nat)
    requires b.resetMs >= 1 && b.openedAt == 0 && 0 <= b.failures < Max(1, b.threshold)
    requires OneAfterAnother(calls, 1)
    ensures match FirstOpening(b, calls)
      case Some(t0) => Reaching(b, calls, t0 + t) <= Max(1, b.threshold) - b.failures + t / b.resetMs
      case None => |calls| < Max(1, b.threshold) - b.failures
    decreases calls
  {
    if calls != [] {
      var b' := After(b, calls[0]);
      if b'.openedAt == 0 {
        Earlier(calls[1..], calls[0].end, 1);
        ProbesFrom(b', calls[1..], t);
      } else {
        ProbesWhileOpen(b', calls[1..], b'.openedAt + t);
      }
    }
  }

  lemma Earlier(calls: seq<Call>, from: int, from': int)
    requires OneAfterAnother(calls, from) && from' <= from
    ensures OneAfterAnother(calls, from')
  {
  }

  /** While a dependency keeps failing, the calls that reach it up to t ms after the
      breaker first opened number at most the threshold plus one per reset period; and
      if the breaker never opens there were fewer calls than the threshold. */
  lemma ProbeBound(threshold: int, resetMs: int, calls: seq<Call>, t: nat)
    requires resetMs >= 1 && OneAfterAnother(calls, 1)
    ensures match FirstOpening(Fresh(threshold, resetMs), calls)
      case Some(t0) => Reaching(Fresh(threshold, resetMs), calls, t0 + t) <= Max(1, threshold) + t / resetMs
      case None => |calls| < Max(1, threshold)
  {
    ProbesFrom(Fresh(threshold, resetMs), calls, t);
  }

  // ---- Overlapping calls ----

  datatype Completion = Completion(ok: bool, at: int)

  function Fold(b: Breaker, log: seq<Completion>): Breaker {
    if log == [] then b
    else Settle(Fold(b, log[..|log| - 1]), log[|log| - 1].ok, log[|log| - 1].at)
  }

  /** Completed failures since the last success. */
  function FailuresSinceSuccess(log: seq<Completion>): nat {
    if log == [] || log[|log| - 1].ok then 0 else 1 + FailuresSinceSuccess(log[..|log| - 1])
  }

  /** However calls overlap, only the order in which they settle matters: `failures` is the
      number of failures since the last success, and the breaker is open exactly when
      that number has reached the threshold, since the last of them. */
  lemma {:induction false} OverlappingCalls(threshold: int, resetMs: int, log: seq<Completion>)
    requires forall i :: 0 <= i < |log| ==> log[i].at > 0
    ensures var b := Fold(Fresh(threshold, resetMs), log);
      && b.failures == FailuresSinceSuccess(log)
      && (b.openedAt != 0 <==> b.failures >= Max(1, threshold))
      && (b.openedAt != 0 ==> b.openedAt == log[|log| - 1].at)
      && b.threshold == threshold && b.resetMs == resetMs
  {
    if log != [] {
      OverlappingCalls(threshold, resetMs, log[..|log| - 1]);
    }
  }

  /** A call is refused exactly while as many failures as the threshold have come since the last
      success and the reset time since the last of them is not over; so once it is, calls get
      through again. */
  lemma RefusedExactly(threshold: int, resetMs: int, log: seq<Completion>, now: int)
    requires forall i :: 0 <= i < |log| ==> log[i].at > 0
    ensures Rejects(Fold(Fresh(threshold, resetMs), log), now) <==>
      log != [] && FailuresSinceSuccess(log) >= Max(1, threshold) && now < log[|log| - 1].at + resetMs
  {
    OverlappingCalls(threshold, resetMs, log);
  }

  class CircuitBreaker {
    const threshold: int
    const resetMs: int
    var failures: int
    var openedAt: int

    ghost function View(): Breaker reads this {
      Breaker(threshold, resetMs, failures, openedAt)
    }

    constructor (threshold: int, resetMs: int)
      ensures View() == Fresh(threshold, resetMs)
    {
      this.threshold, this.resetMs := threshold, resetMs;
      failures, openedAt := 0, 0;
    }

    /** Up to the first await: refuse, or call fn. */
    method Admit(now: int) returns (admitted: bool)
      ensures admitted == !Rejects(View(), now)
    {
      admitted := !(openedAt != 0 && now - openedAt < resetMs);
    }

    /** When fn settles. */
    method Complete(ok: bool, now: int)
      modifies this
      ensures View() == Settle(old(View()), ok, now)
    {
      if ok {
        failures, openedAt := 0, 0;
      } else {
        failures := failures + 1;
        if failures >= threshold { openedAt := now; }
      }
    }
  }

  /** A caller that runs its calls one after another against a failing dependency, counting
      the ones that get through. */
  method RunFailing(breaker: CircuitBreaker, calls: seq<Call>, deadline: int) returns (reached: nat)
    modifies breaker
    ensures reached == Reaching(old(breaker.View()), calls, deadline)
  {
    reached := 0;
    var i := 0;
    while i < |calls|
      invariant 0 <= i <= |calls|
      invariant reached + Reaching(breaker.View(), calls[i..], deadline)
                == Reaching(old(breaker.View()), calls, deadline)
    {
      var admitted := breaker.Admit(calls[i].start);
      assert calls[i..][1..] == calls[i + 1..];
      if admitted {
        if calls[i].start <= deadline { reached := reached + 1; }
        breaker.Complete(false, calls[i].end);
      }
      i := i + 1;
    }
  }
}
