/** RedisFixedWindowLimiter of apps/api/src/rate-limit.ts, its script run atomically, and
    its agreement with the memory limiter. */
module RedisLimiting {
  import opened Prelude
  import opened FixedWindow
  import Memory = MemoryLimiting

  datatype Counter = Counter(count: nat, expiresAt: Option<int>)

  type Store = map<string, Counter>

  function RedisKey(prefix: string, key: string): string {
    prefix + ":" + key
  }

  /** A key is gone once its expiry time is reached. */
  function Present(store: Store, key: string, now: int): Option<Counter> {
    if key !in store then None
    else var c := store[key];
      if c.expiresAt.Some? && c.expiresAt.value <= now then None else Some(c)
  }

  function Incremented(c: Option<Counter>): Counter {
    match c case None => Counter(1, None) case Some(v) => v.(count := v.count + 1)
  }

  /** The script's effect on one counter: INCR, and PEXPIRE on the first. */
  function Counted(c: Option<Counter>, windowMs: int, now: int): Counter {
    var v := Incremented(c);
    if v.count == 1 then v.(expiresAt := Some(now + windowMs)) else v
  }

  function TimeToLive(c: Counter, now: int): int {
    match c.expiresAt case None => -1 case Some(t) => t - now
  }

  function Answer(q: Quota, c: Counter, now: int): Decision {
    Decision(c.count as real <= q.max, q.max, MaxReal(0.0, q.max - c.count as real),
             now + Max(0, TimeToLive(c, now)))
  }

  function Consumed(prefix: string, q: Quota, store: Store, r: Request): Store {
    var k := RedisKey(prefix, r.key);
    store[k := Counted(Present(store, k, r.at), q.windowMs, r.at)]
  }

  function Decide(prefix: string, q: Quota, store: Store, r: Request): Decision {
    Answer(q, Counted(Present(store, RedisKey(prefix, r.key), r.at), q.windowMs, r.at), r.at)
  }

  function Run(prefix: string, q: Quota, reqs: seq<Request>): Store {
    if reqs == [] then map[] else Consumed(prefix, q, Run(prefix, q, reqs[..|reqs| - 1]), reqs[|reqs| - 1])
  }

  function Decisions(prefix: string, q: Quota, reqs: seq<Request>): seq<Decision> {
    if reqs == [] then [] else
    var before := reqs[..|reqs| - 1];
    Decisions(prefix, q, before) + [Decide(prefix, q, Run(prefix, q, before), reqs[|reqs| - 1])]
  }

  lemma RedisKeyInjective(prefix: string, a: string, b: string)
    requires RedisKey(prefix, a) == RedisKey(prefix, b)
    ensures a == b
  {
    assert a == RedisKey(prefix, a)[|prefix| + 1..];
    assert b == RedisKey(prefix, b)[|prefix| + 1..];
  }

  ghost predicate Whole(x: real) {
    x == x.Floor as real
  }

  /** The Redis counter goes on counting rejected requests, the memory window stops at the
      quota; otherwise they are the same. */
  ghost predicate Corresponds(q: Quota, w: Option<Window>, store: Store, redisKey: string) {
    match w
    case None => redisKey !in store
    case Some(v) =>
      && redisKey in store
      && store[redisKey].expiresAt == Some(v.resetAt)
      && store[redisKey].count >= 1
      && v.count == Min(store[redisKey].count, q.max.Floor)
  }

  lemma StepCorresponds(q: Quota, w: Option<Window>, store: Store, redisKey: string, now: int)
    requires q.Valid() && Whole(q.max) && Corresponds(q, w, store, redisKey)
    ensures var c := Counted(Present(store, redisKey, now), q.windowMs, now);
      && Corresponds(q, Some(Next(q, w, now)), store[redisKey := c], redisKey)
      && Answer(q, c, now) == Admit(q, w, now)
  {
    assert q.max.Floor >= 1;
  }

  lemma {:induction false} EveryKeyCorresponds(prefix: string, q: Quota, reqs: seq<Request>, key: string)
    requires q.Valid() && Whole(q.max)
    ensures Corresponds(q, KeyWindow(q, reqs, key), Run(prefix, q, reqs), RedisKey(prefix, key))
  {
    if reqs != [] {
      var before, r := reqs[..|reqs| - 1], reqs[|reqs| - 1];
      EveryKeyCorresponds(prefix, q, before, key);
      if r.key == key {
        StepCorresponds(q, KeyWindow(q, before, key), Run(prefix, q, before), RedisKey(prefix, key), r.at);
      } else if RedisKey(prefix, key) == RedisKey(prefix, r.key) {
        RedisKeyInjective(prefix, key, r.key);
      }
    }
  }

  lemma DecidesAsSpecified(prefix: string, q: Quota, before: seq<Request>, r: Request)
    requires q.Valid() && Whole(q.max)
    ensures Decide(prefix, q, Run(prefix, q, before), r) == Admit(q, KeyWindow(q, before, r.key), r.at)
  {
    hide Run, KeyWindow;
    EveryKeyCorresponds(prefix, q, before, r.key);
    StepCorresponds(q, KeyWindow(q, before, r.key), Run(prefix, q, before), RedisKey(prefix, r.key), r.at);
  }

  lemma {:induction false} RedisAsSpecified(prefix: string, q: Quota, reqs: seq<Request>)
    requires q.Valid() && Whole(q.max)
    ensures |Decisions(prefix, q, reqs)| == |reqs|
    ensures forall i :: 0 <= i < |reqs| ==>
      Decisions(prefix, q, reqs)[i] == Admit(q, KeyWindow(q, reqs[..i], reqs[i].key), reqs[i].at)
  {
    hide Run, KeyWindow, Decide, Admit;
    if reqs != [] {
      var before, r := reqs[..|reqs| - 1], reqs[|reqs| - 1];
      RedisAsSpecified(prefix, q, before);
      DecidesAsSpecified(prefix, q, before, r);
      forall i | 0 <= i < |before| ensures reqs[..i] == before[..i] {}
    }
  }

  const PING := Request("", 0)

  /** The same request n times at once. */
  function Burst(n: nat): seq<Request> {
    seq(n, i => PING)
  }

  lemma BurstStep(n: nat)
    requires n > 0
    ensures Burst(n)[..n - 1] == Burst(n - 1) && Burst(n)[n - 1] == PING
  {
  }

  lemma {:induction false} BurstWindow(q: Quota, n: nat)
    requires q.Valid() && 1 <= n && (n - 1) as real < q.max
    ensures KeyWindow(q, Burst(n), "") == Some(Window(n, q.windowMs))
  {
    BurstStep(n);
    if n > 1 { BurstWindow(q, n - 1); } else { assert KeyWindow(q, Burst(0), "") == None; }
  }

  lemma {:induction false} BurstCounter(prefix: string, q: Quota, n: nat)
    requires q.Valid() && 1 <= n
    ensures var store := Run(prefix, q, Burst(n)); var k := RedisKey(prefix, "");
      k in store && store[k] == Counter(n, Some(q.windowMs))
  {
    BurstStep(n);
    if n > 1 { BurstCounter(prefix, q, n - 1); } else { assert Run(prefix, q, Burst(0)) == map[]; }
  }

  lemma LastDecision(prefix: string, q: Quota, n: nat)
    ensures |Decisions(prefix, q, Burst(n + 1))| == n + 1
    ensures Decisions(prefix, q, Burst(n + 1))[n] == Decide(prefix, q, Run(prefix, q, Burst(n)), PING)
  {
    BurstStep(n + 1);
    DecisionsLength(prefix, q, Burst(n));
  }

  lemma OneSlotStays(s: Memory.Settings, l: Memory.Limiter)
    requires l.windows == [] || l.windows == [Memory.Slot("", l.windows[0].window)]
    requires l.windows != [] ==> l.windows[0].window.resetAt > 0
    ensures Memory.CleanedUp(s, l, 0) == l.windows && !Memory.Evicts(s, l, 0)
    ensures Memory.Consumed(s, l, PING).windows
            == [Memory.Slot("", Next(s.quota, if l.windows == [] then None else Some(l.windows[0].window), 0))]
  {
    var ws := l.windows;
    if ws != [] { assert ws[1..] == []; }
    assert Memory.Live([], 0) == [] && Memory.Live(ws, 0) == ws;
    assert Memory.EvictOldest(ws, s.maxTrackedKeys) == ws;
  }

  lemma {:induction false} BurstSlot(s: Memory.Settings, n: nat)
    requires s.quota.Valid()
    ensures var ws := Memory.Run(s, Burst(n)).windows;
      if n == 0 then ws == [] else ws == [Memory.Slot("", ws[0].window)] && ws[0].window.resetAt == s.quota.windowMs
  {
    if n > 0 {
      BurstStep(n);
      BurstSlot(s, n - 1);
      OneSlotStays(s, Memory.Run(s, Burst(n - 1)));
      hide Memory.Consumed;
    }
  }

  /** A burst for the empty key is never evicted, whatever the number of tracked keys. */
  lemma BurstStays(s: Memory.Settings, n: nat)
    requires s.quota.Valid()
    ensures Memory.EvictsNothing(s, Burst(n))
  {
    hide Memory.Run, Memory.Evicts;
    forall i | 0 <= i < n ensures !Memory.Evicts(s, Memory.Run(s, Burst(n)[..i]), Burst(n)[i].at) {
      assert Burst(n)[..i] == Burst(i);
      BurstSlot(s, i);
      OneSlotStays(s, Memory.Run(s, Burst(i)));
    }
  }

  /** For a whole quota the two limiters give the same answers on a run exactly when the memory
      limiter forgets no key in it. */
  lemma LimitersAgreeExactly(prefix: string, s: Memory.Settings, reqs: seq<Request>)
    requires s.quota.Valid() && Whole(s.quota.max)
    ensures Memory.Decisions(s, reqs) == Decisions(prefix, s.quota, reqs)
            <==> (forall key :: Memory.Remembers(s, reqs, key))
  {
    Memory.KeysAreIsolated(s, reqs);
    RedisAsSpecified(prefix, s.quota, reqs);
    hide Decisions, Memory.Decisions, KeyWindow, Admit, Memory.Remembers;
  }

  /** The two limiters give the same answers on every run in time order without eviction exactly
      when the quota is a whole number. */
  lemma LimitersAgree(prefix: string, s: Memory.Settings)
    requires s.quota.Valid()
    ensures (forall reqs | InOrder(reqs) && Memory.EvictsNothing(s, reqs) ::
               Memory.Decisions(s, reqs) == Decisions(prefix, s.quota, reqs))
            <==> Whole(s.quota.max)
  {
    if Whole(s.quota.max) {
      forall reqs | InOrder(reqs) && Memory.EvictsNothing(s, reqs)
        ensures Memory.Decisions(s, reqs) == Decisions(prefix, s.quota, reqs)
      {
        LimitersAgreeExactly(prefix, s, reqs);
        forall key { Memory.NoEvictionRemembers(s, reqs, key); }
      }
    } else {
      var reqs := FractionalQuotaDisagrees(prefix, s);
    }
  }

  /** With a fractional quota the memory limiter rounds it up and the Redis limiter down. */
  lemma FractionalQuotaDisagrees(prefix: string, s: Memory.Settings) returns (reqs: seq<Request>)
    requires s.quota.Valid() && !Whole(s.quota.max)
    ensures InOrder(reqs) && Memory.EvictsNothing(s, reqs)
    ensures Memory.Decisions(s, reqs) != Decisions(prefix, s.quota, reqs)
  {
    var q, n := s.quota, s.quota.max.Floor;
    assert 0 <= n && n as real < q.max < (n + 1) as real;
    reqs := Burst(n + 1);
    BurstStays(s, n + 1);
    forall key { Memory.NoEvictionRemembers(s, reqs, key); }
    Memory.KeysAreIsolated(s, reqs);
    hide Memory.EvictsNothing, Memory.Remembers, Memory.Run;
    LastDecision(prefix, q, n);
    BurstStep(n + 1);
    assert Memory.Decisions(s, reqs)[n] == Admit(q, KeyWindow(q, Burst(n), ""), 0);
    if n > 0 {
      BurstWindow(q, n);
      BurstCounter(prefix, q, n);
    } else {
      assert Burst(0) == [];
    }
    assert Memory.Decisions(s, reqs)[n].allowed && !Decisions(prefix, q, reqs)[n].allowed;
  }

  lemma {:induction false} DecisionsLength(prefix: string, q: Quota, reqs: seq<Request>)
    ensures |Decisions(prefix, q, reqs)| == |reqs|
  {
    if reqs != [] { DecisionsLength(prefix, q, reqs[..|reqs| - 1]); }
  }

  /** The server side: the script's commands, one after the other. */
  class RedisServer {
    var store: Store

    constructor ()
      ensures store == map[]
    {
      store := map[];
    }

    method Incr(key: string, now: int) returns (count: nat)
      modifies this
      ensures store == old(store)[key := Incremented(Present(old(store), key, now))]
      ensures count == store[key].count
    {
      store := store[key := Incremented(Present(store, key, now))];
      count := store[key].count;
    }

    method PExpire(key: string, windowMs: int, now: int)
      modifies this
      ensures store == if key in old(store) then old(store)[key := old(store)[key].(expiresAt := Some(now + windowMs))]
                       else old(store)
    {
      if key in store { store := store[key := store[key].(expiresAt := Some(now + windowMs))]; }
    }

    method ConsumeWindow(key: string, windowMs: int, now: int) returns (count: nat, ttl: int)
      requires windowMs >= 1
      modifies this
      ensures var c := Counted(Present(old(store), key, now), windowMs, now);
        store == old(store)[key := c] && count == c.count && ttl == TimeToLive(c, now)
    {
      count := Incr(key, now);
      if count == 1 { PExpire(key, windowMs, now); }
      ttl := TimeToLive(store[key], now);
    }
  }

  class RedisFixedWindowLimiter {
    const redis: RedisServer
    const prefix: string
    const quota: Quota

    constructor (redis: RedisServer, prefix: string, quota: Quota)
      requires quota.max > 0.0 && quota.windowMs > 0
      ensures this.redis == redis && this.prefix == prefix && this.quota == quota
    {
      this.redis, this.prefix, this.quota := redis, prefix, quota;
    }

    method Consume(key: string, now: int) returns (d: Decision)
      requires quota.windowMs >= 1
      modifies redis
      ensures redis.store == Consumed(prefix, quota, old(redis.store), Request(key, now))
      ensures d == Decide(prefix, quota, old(redis.store), Request(key, now))
    {
      var redisKey := RedisKey(prefix, key);
      var count, ttl := redis.ConsumeWindow(redisKey, quota.windowMs, now);
      var resetAt := now + Max(0, ttl);
      d := Decision(count as real <= quota.max, quota.max, MaxReal(0.0, quota.max - count as real), resetAt);
    }
  }
}
