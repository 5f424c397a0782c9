/** The fixed-window quota of one key, which both limiters of apps/api/src/rate-limit.ts
    are meant to enforce, and the number of requests it can let through. */
module FixedWindow {
  import opened Prelude
  import opened Quotients

  /** `max` may be any positive number, so it need not be whole. */
  datatype Quota = Quota(max: real, windowMs: int) {
    ghost predicate Valid() { max > 0.0 && windowMs >= 1 }
  }

  datatype Window = Window(count: nat, resetAt: int)

  datatype Decision = Decision(allowed: bool, limit: real, remaining: real, resetAt: int)

  datatype Request = Request(key: string, at: int)

  function MaxReal(a: real, b: real): real {
    if a < b then b else a
  }

  predicate Over(w: Option<Window>, now: int) {
    w.None? || w.value.resetAt <= now
  }

  function Admit(q: Quota, w: Option<Window>, now: int): Decision {
    if Over(w, now) then Decision(true, q.max, q.max - 1.0, now + q.windowMs)
    else if w.value.count as real >= q.max then Decision(false, q.max, 0.0, w.value.resetAt)
    else Decision(true, q.max, MaxReal(0.0, q.max - (w.value.count + 1) as real), w.value.resetAt)
  }

  function Next(q: Quota, w: Option<Window>, now: int): Window {
    if Over(w, now) then Window(1, now + q.windowMs)
    else if w.value.count as real >= q.max then w.value
    else w.value.(count := w.value.count + 1)
  }

  /** The window of `key` after the requests, counting only its own. */
  function KeyWindow(q: Quota, reqs: seq<Request>, key: string): Option<Window> {
    if reqs == [] then None else
    var before := KeyWindow(q, reqs[..|reqs| - 1], key);
    if reqs[|reqs| - 1].key == key then Some(Next(q, before, reqs[|reqs| - 1].at)) else before
  }

  ghost predicate InOrder(reqs: seq<Request>) {
    forall i, j :: 0 <= i < j < |reqs| ==> reqs[i].at <= reqs[j].at
  }

  /** When the current window of the key was opened: by its first request, and then by the first
      one that finds the window over. */
  function OpenedAt(q: Quota, reqs: seq<Request>, key: string): Option<int> {
    if reqs == [] then None else
    var before, r := OpenedAt(q, reqs[..|reqs| - 1], key), reqs[|reqs| - 1];
    if r.key == key && (before.None? || r.at >= before.value + q.windowMs) then Some(r.at) else before
  }

  /** How many requests of the key the current window has seen. */
  function SeenInWindow(q: Quota, reqs: seq<Request>, key: string): nat {
    if reqs == [] then 0 else
    var before, r := reqs[..|reqs| - 1], reqs[|reqs| - 1];
    if r.key != key then SeenInWindow(q, before, key)
    else if OpenedAt(q, before, key).None? || r.at >= OpenedAt(q, before, key).value + q.windowMs then 1
    else SeenInWindow(q, before, key) + 1
  }

  lemma {:induction false} WindowIs(q: Quota, reqs: seq<Request>, key: string)
    requires q.Valid()
    ensures match OpenedAt(q, reqs, key)
      case None => KeyWindow(q, reqs, key) == None
      case Some(t) =>
        && SeenInWindow(q, reqs, key) >= 1
        && KeyWindow(q, reqs, key) == Some(Window(Min(SeenInWindow(q, reqs, key), Ceiling(q.max)), t + q.windowMs))
  {
    CeilingIs(q.max, 0);
    if reqs != [] {
      var before := reqs[..|reqs| - 1];
      WindowIs(q, before, key);
      var w := KeyWindow(q, before, key);
      if w.Some? { CeilingIs(q.max, w.value.count); }
    }
  }

  /** A request is let through exactly when the key's window is over, or has seen fewer requests
      than the quota rounded up; the remaining quota and the end of the window are as they say. */
  lemma DecidedExactly(q: Quota, reqs: seq<Request>, key: string, now: int)
    requires q.Valid()
    ensures var since, n := OpenedAt(q, reqs, key), SeenInWindow(q, reqs, key);
      Admit(q, KeyWindow(q, reqs, key), now)
      == if since.None? || now >= since.value + q.windowMs then Decision(true, q.max, q.max - 1.0, now + q.windowMs)
         else if n < Ceiling(q.max)
         then Decision(true, q.max, MaxReal(0.0, q.max - (n + 1) as real), since.value + q.windowMs)
         else Decision(false, q.max, 0.0, since.value + q.windowMs)
  {
    WindowIs(q, reqs, key);
    if OpenedAt(q, reqs, key).Some? {
      CeilingIs(q.max, Min(SeenInWindow(q, reqs, key), Ceiling(q.max)));
    }
  }

  /** Requests of `key` admitted at times from `from` to `to`. */
  function Admitted(q: Quota, reqs: seq<Request>, key: string, from: int, to: int): nat {
    if reqs == [] then 0 else
    var before, r := reqs[..|reqs| - 1], reqs[|reqs| - 1];
    Admitted(q, before, key, from, to)
    + if r.key == key && from <= r.at <= to && Admit(q, KeyWindow(q, before, key), r.at).allowed then 1 else 0
  }

  function Ceiling(x: real): int {
    -((-x).Floor)
  }

  lemma CeilingIs(x: real, n: int)
    ensures n as real >= x <==> n >= Ceiling(x)
  {
  }

  function CeilingQuotient(x: int, y: int): int
    requires y >= 1
  {
    (x + y - 1) / y
  }

  /** The windows that ended before the current one but after `from` were at most this many. */
  function EarlierWindows(q: Quota, w: Window, from: int): int
    requires q.windowMs >= 1
  {
    (w.resetAt - from - 1) / q.windowMs
  }

  ghost predicate Budget(q: Quota, w: Option<Window>, admitted: nat, from: int, last: int)
    requires q.Valid()
  {
    match w
    case None => admitted == 0
    case Some(v) =>
      && 1 <= v.count <= Ceiling(q.max)
      && v.resetAt <= last + q.windowMs
      && if v.resetAt <= from then admitted == 0
         else admitted <= Ceiling(q.max) * EarlierWindows(q, v, from) + v.count
  }

  lemma BudgetNewWindow(q: Quota, w: Option<Window>, admitted: nat, from: int, last: int, now: int)
    requires q.Valid() && Budget(q, w, admitted, from, last) && last <= now && Over(w, now)
    ensures Budget(q, Some(Next(q, w, now)), admitted + (if from <= now then 1 else 0), from, now)
  {
    var cap, n := Ceiling(q.max), q.windowMs;
    CeilingIs(q.max, 0);
    var w' := Next(q, w, now);
    if w'.resetAt > from {
      QuotientMonotone(0, w'.resetAt - from - 1, n);
      TimesMonotone(0, EarlierWindows(q, w', from), cap);
      if w.Some? && w.value.resetAt > from {
        OneDivisorLess(w'.resetAt - from - 1, n);
        QuotientMonotone(w.value.resetAt - from - 1, w'.resetAt - from - 1 - n, n);
        TimesMonotone(EarlierWindows(q, w.value, from) + 1, EarlierWindows(q, w', from), cap);
        assert cap * (EarlierWindows(q, w.value, from) + 1) == cap * EarlierWindows(q, w.value, from) + cap;
      }
    }
  }

  lemma {:induction false} BudgetHolds(q: Quota, reqs: seq<Request>, key: string, from: int, to: int)
    requires q.Valid() && InOrder(reqs) && reqs != [] && reqs[|reqs| - 1].at <= to
    ensures Budget(q, KeyWindow(q, reqs, key), Admitted(q, reqs, key, from, to), from, reqs[|reqs| - 1].at)
  {
    var before, r := reqs[..|reqs| - 1], reqs[|reqs| - 1];
    var w, a := KeyWindow(q, before, key), Admitted(q, before, key, from, to);
    if before != [] { BudgetHolds(q, before, key, from, to); }
    var last := if before == [] then r.at else before[|before| - 1].at;
    if r.key == key {
      if Over(w, r.at) {
        BudgetNewWindow(q, w, a, from, last, r.at);
      } else {
        CeilingIs(q.max, w.value.count);
      }
    }
  }

  /** The requests let through for one key in any interval of `length` milliseconds number
      at most the whole-number quota times the windows that can meet the interval. */
  lemma {:induction false} RateBound(q: Quota, reqs: seq<Request>, key: string, from: int, length: nat)
    requires q.Valid() && InOrder(reqs)
    ensures Admitted(q, reqs, key, from, from + length)
            <= Ceiling(q.max) * (CeilingQuotient(length, q.windowMs) + 1)
  {
    var cap, n := Ceiling(q.max), q.windowMs;
    CeilingIs(q.max, 0);
    QuotientMonotone(0, length + n - 1, n);
    TimesMonotone(0, CeilingQuotient(length, n) + 1, cap);
    if reqs != [] {
      if reqs[|reqs| - 1].at <= from + length {
        BudgetHolds(q, reqs, key, from, from + length);
        var w := KeyWindow(q, reqs, key);
        if w.Some? && w.value.resetAt > from {
          QuotientMonotone(w.value.resetAt - from - 1, length + n - 1, n);
          TimesMonotone(EarlierWindows(q, w.value, from), CeilingQuotient(length, n), cap);
          assert cap * (CeilingQuotient(length, n) + 1) == cap * CeilingQuotient(length, n) + cap;
        }
      } else {
        RateBound(q, reqs[..|reqs| - 1], key, from, length);
      }
    }
  }
}
