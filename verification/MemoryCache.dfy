/** MemoryCacheAdapter of packages/platform-sdk/src/fallbacks.ts: an LRU cache with expiry,
    kept in the insertion order of one Map. */
module MemoryCaching {
  import opened Prelude

  type Key = string

  datatype Entry<V> = Entry(key: Key, value: V, expiresAt: Option<int>)

  /** A Map in iteration order, oldest first. */
  type Entries<V> = seq<Entry<V>>

  datatype Op<V> =
    | Get(key: Key, now: int)
    | Set(key: Key, value: V, ttlSeconds: Option<int>, now: int)
    | Delete(key: Key)

  /** An expiry time of 0 is falsy and so never expires. */
  predicate Expired<V>(e: Entry<V>, now: int) {
    e.expiresAt.Some? && e.expiresAt.value != 0 && e.expiresAt.value <= now
  }

  /** A time to live of 0 is falsy and so means none. */
  function ExpiryOf(ttlSeconds: Option<int>, now: int): Option<int> {
    if ttlSeconds.Some? && ttlSeconds.value != 0 then Some(now + ttlSeconds.value * 1000) else None
  }

  function Lookup<V>(es: Entries<V>, k: Key): Option<Entry<V>> {
    if es == [] then None else if es[0].key == k then Some(es[0]) else Lookup(es[1..], k)
  }

  function Without<V>(es: Entries<V>, k: Key): Entries<V> {
    if es == [] then [] else if es[0].key == k then es[1..] else [es[0]] + Without(es[1..], k)
  }

  function Trim<V>(es: Entries<V>, n: nat): Entries<V> {
    if |es| <= n then es else es[|es| - n..]
  }

  function GetResult<V>(es: Entries<V>, k: Key, now: int): Option<V> {
    match Lookup(es, k)
    case None => None
    case Some(e) => if Expired(e, now) then None else Some(e.value)
  }

  function Apply<V>(capacity: nat, es: Entries<V>, op: Op<V>): Entries<V> {
    match op
    case Get(k, now) =>
      (match Lookup(es, k)
       case None => es
       case Some(e) => if Expired(e, now) then Without(es, k) else Without(es, k) + [e])
    case Set(k, v, ttl, now) => Trim(Without(es, k) + [Entry(k, v, ExpiryOf(ttl, now))], capacity)
    case Delete(k) => Without(es, k)
  }

  /** The cache after a sequence of operations on an empty one. */
  function Exec<V>(capacity: nat, ops: seq<Op<V>>): Entries<V> {
    if ops == [] then [] else Apply(capacity, Exec(capacity, ops[..|ops| - 1]), ops[|ops| - 1])
  }

  ghost predicate DistinctKeys<V>(es: Entries<V>) {
    forall i, j :: 0 <= i < j < |es| ==> es[i].key != es[j].key
  }

  lemma {:induction false} LookupIs<V>(es: Entries<V>, k: Key)
    ensures Lookup(es, k).None? <==> forall i :: 0 <= i < |es| ==> es[i].key != k
    ensures Lookup(es, k).Some? ==> Lookup(es, k).value in es && Lookup(es, k).value.key == k
  {
    if es != [] && es[0].key != k {
      LookupIs(es[1..], k);
      if Lookup(es[1..], k).None? {
        forall i | 0 <= i < |es| ensures es[i].key != k {
          if i > 0 { assert es[1..][i - 1] == es[i]; }
        }
      }
    }
  }

  /** The first entry of the key, if any, is the one found and dropped. */
  lemma {:induction false} FirstOf<V>(es: Entries<V>, k: Key) returns (p: nat)
    ensures p <= |es| && forall i :: 0 <= i < p ==> es[i].key != k
    ensures p == |es| ==> Lookup(es, k).None? && Without(es, k) == es
    ensures p < |es| ==> es[p].key == k && Lookup(es, k) == Some(es[p]) && Without(es, k) == es[..p] + es[p + 1..]
  {
    if es == [] || es[0].key == k {
      p := 0;
    } else {
      var rest := es[1..];
      var q := FirstOf(rest, k);
      p := q + 1;
      assert forall i | 0 < i < p :: es[i] == rest[i - 1];
      assert Without(es, k) == [es[0]] + Without(rest, k);
      hide Without, Lookup;
      if q < |rest| { SplitLater(es, q); }
    }
  }

  lemma SplitLater<T>(s: seq<T>, q: nat)
    requires q + 1 < |s|
    ensures [s[0]] + (s[1..][..q] + s[1..][q + 1..]) == s[..q + 1] + s[q + 2..]
  {
  }

  /** Without drops the one entry of the key and keeps the others in order. */
  lemma WithoutIs<V>(es: Entries<V>, k: Key) returns (p: nat)
    requires DistinctKeys(es)
    ensures p <= |es|
    ensures Lookup(es, k).None? ==> p == |es| && Without(es, k) == es
    ensures Lookup(es, k).Some? ==> p < |es| && es[p] == Lookup(es, k).value
                                    && Without(es, k) == es[..p] + es[p + 1..]
    ensures DistinctKeys(Without(es, k))
    ensures forall i :: 0 <= i < |Without(es, k)| ==> Without(es, k)[i].key != k
  {
    p := FirstOf(es, k);
    hide Without, Lookup;
    var w := Without(es, k);
    assert p < |es| ==> forall i | 0 <= i < |w| :: w[i] == es[if i < p then i else i + 1];
  }

  // ---- Bounded size, and hits only of the last value set ----

  /** The entry that the last `set` of the key not followed by a `delete` stored. */
  function LastSet<V>(ops: seq<Op<V>>, k: Key): Option<Entry<V>> {
    if ops == [] then None else
    var op := ops[|ops| - 1];
    if op.key != k || op.Get? then LastSet(ops[..|ops| - 1], k)
    else if op.Delete? then None
    else Some(Entry(k, op.value, ExpiryOf(op.ttlSeconds, op.now)))
  }

  /** Position of the last `get` or `set` of the key, or -1. */
  function LastUse<V>(ops: seq<Op<V>>, k: Key): int {
    if ops == [] then -1
    else if !ops[|ops| - 1].Delete? && ops[|ops| - 1].key == k then |ops| - 1
    else LastUse(ops[..|ops| - 1], k)
  }

  lemma {:induction false} LastUseInRange<V>(ops: seq<Op<V>>, k: Key)
    ensures -1 <= LastUse(ops, k) < |ops|
  {
    if ops != [] { LastUseInRange(ops[..|ops| - 1], k); }
  }

  /** Distinct keys, every entry the last one set, in the order of last use. */
  ghost predicate Faithful<V>(ops: seq<Op<V>>, es: Entries<V>) {
    && DistinctKeys(es)
    && (forall i :: 0 <= i < |es| ==> LastSet(ops, es[i].key) == Some(es[i]))
    && (forall i, j :: 0 <= i < j < |es| ==> LastUse(ops, es[i].key) < LastUse(ops, es[j].key))
  }

  lemma FaithfulWithout<V>(ops: seq<Op<V>>, es: Entries<V>, k: Key)
    requires Faithful(ops, es)
    ensures Faithful(ops, Without(es, k))
    ensures forall i :: 0 <= i < |Without(es, k)| ==> Without(es, k)[i].key != k
    ensures |Without(es, k)| <= |es|
    ensures Lookup(es, k).Some? ==> |Without(es, k)| == |es| - 1
  {
    var p := WithoutIs(es, k);
  }

  /** An operation on one key tells nothing about the others. */
  lemma FaithfulLater<V>(ops: seq<Op<V>>, op: Op<V>, es: Entries<V>)
    requires Faithful(ops, es) && forall i :: 0 <= i < |es| ==> es[i].key != op.key
    ensures Faithful(ops + [op], es)
    ensures forall i :: 0 <= i < |es| ==> LastUse(ops + [op], es[i].key) < |ops|
  {
    assert (ops + [op])[..|ops|] == ops;
    forall i | 0 <= i < |es|
      ensures LastSet(ops + [op], es[i].key) == LastSet(ops, es[i].key)
      ensures LastUse(ops + [op], es[i].key) == LastUse(ops, es[i].key) < |ops|
    {
      LastUseInRange(ops, es[i].key);
    }
  }

  lemma FaithfulAppend<V>(ops: seq<Op<V>>, es: Entries<V>, e: Entry<V>)
    requires ops != [] && Faithful(ops, es) && LastSet(ops, e.key) == Some(e)
    requires forall i :: 0 <= i < |es| ==> es[i].key != e.key
    requires forall i :: 0 <= i < |es| ==> LastUse(ops, es[i].key) < LastUse(ops, e.key)
    ensures Faithful(ops, es + [e])
  {
  }

  lemma FaithfulTrim<V>(ops: seq<Op<V>>, es: Entries<V>, n: nat)
    requires Faithful(ops, es)
    ensures Faithful(ops, Trim(es, n))
  {
  }

  lemma FaithfulApply<V>(capacity: nat, ops: seq<Op<V>>, es: Entries<V>, op: Op<V>)
    requires Faithful(ops, es) && |es| <= capacity
    ensures Faithful(ops + [op], Apply(capacity, es, op)) && |Apply(capacity, es, op)| <= capacity
  {
    var k := op.key;
    var w := Without(es, k);
    assert (ops + [op])[..|ops|] == ops;
    LookupIs(es, k);
    FaithfulWithout(ops, es, k);
    FaithfulLater(ops, op, w);
    match op
    case Delete(_) =>
    case Get(_, now) =>
      if Lookup(es, k).None? {
        FaithfulLater(ops, op, es);
      } else {
        FaithfulAppend(ops + [op], w, Lookup(es, k).value);
      }
    case Set(_, v, ttl, now) =>
      var e := Entry(k, v, ExpiryOf(ttl, now));
      FaithfulAppend(ops + [op], w, e);
      FaithfulTrim(ops + [op], w + [e], capacity);
  }

  lemma {:induction false} CacheIsFaithful<V>(capacity: nat, ops: seq<Op<V>>)
    ensures Faithful(ops, Exec(capacity, ops)) && |Exec(capacity, ops)| <= capacity
  {
    if ops != [] {
      var before := ops[..|ops| - 1];
      CacheIsFaithful(capacity, before);
      FaithfulApply(capacity, before, Exec(capacity, before), ops[|ops| - 1]);
      assert before + [ops[|ops| - 1]] == ops;
    }
  }

  /** In every run the size stays within `maxEntries`, and a hit returns the value that the
      last `set` of the key stored, which no `delete` has removed and which has not expired. */
  lemma HitIsLastUnexpiredSet<V>(capacity: nat, ops: seq<Op<V>>, k: Key, now: int)
    ensures |Exec(capacity, ops)| <= capacity
    ensures var hit := GetResult(Exec(capacity, ops), k, now);
      hit.Some? ==> LastSet(ops, k).Some? && LastSet(ops, k).value.value == hit.value
                    && !Expired(LastSet(ops, k).value, now)
  {
    CacheIsFaithful(capacity, ops);
    LookupIs(Exec(capacity, ops), k);
  }

  /** A `set` drops the entry of another key only when that key is the least recently used:
      the cache is then full of entries used later. */
  lemma EvictsLeastRecentlyUsed<V>(capacity: nat, ops: seq<Op<V>>, op: Op<V>, victim: Entry<V>)
    requires capacity >= 1 && op.Set? && victim.key != op.key
    requires victim in Exec(capacity, ops) && victim !in Exec(capacity, ops + [op])
    ensures var after := Exec(capacity, ops + [op]);
      && |after| == capacity
      && forall i :: 0 <= i < |after| ==> LastUse(ops + [op], victim.key) < LastUse(ops + [op], after[i].key)
  {
    assert (ops + [op])[..|ops|] == ops;
    CacheIsFaithful(capacity, ops);
    var es := Exec(capacity, ops);
    var w := Without(es, op.key);
    var full := w + [Entry(op.key, op.value, ExpiryOf(op.ttlSeconds, op.now))];
    FaithfulWithout(ops, es, op.key);
    FaithfulLater(ops, op, w);
    FaithfulAppend(ops + [op], w, full[|w|]);
    var v := StillThere(es, op.key, victim);
    assert full[v] == victim;
    var after := Trim(full, capacity);
    var drop := |full| - |after|;
    assert v < drop by {
      forall j | drop <= j < |full| ensures full[j] in after {
        assert full[j] == after[j - drop];
      }
    }
    forall i | 0 <= i < |after|
      ensures LastUse(ops + [op], victim.key) < LastUse(ops + [op], after[i].key)
    {
      assert after[i] == full[i + drop];
    }
  }

  lemma StillThere<V>(es: Entries<V>, k: Key, e: Entry<V>) returns (v: nat)
    requires DistinctKeys(es) && e in es && e.key != k
    ensures v < |Without(es, k)| && Without(es, k)[v] == e
  {
    var p := WithoutIs(es, k);
    LookupIs(es, k);
    var i :| 0 <= i < |es| && es[i] == e;
    v := if i < p then i else i - 1;
  }

  // ---- When a get hits ----

  /** A value stored at t0 for a number of seconds has lapsed by t. Zero seconds mean for ever, and
      so does an expiry at time 0. */
  predicate Lapsed(t0: int, ttlSeconds: Option<int>, t: int) {
    match ttlSeconds
    case None => false
    case Some(n) => n != 0 && t0 + 1000 * n != 0 && t0 + 1000 * n <= t
  }

  /** Other keys that were got or set after the last get of k. */
  function OthersUsed<V>(ops: seq<Op<V>>, k: Key): set<Key> {
    if ops == [] then {}
    else
      var before, last := OthersUsed(ops[..|ops| - 1], k), ops[|ops| - 1];
      if last.Delete? then before else if last.key == k then {} else before + {last.key}
  }

  /** The entry is there, and everything used after it has one of these keys. */
  ghost predicate Above<V>(es: Entries<V>, e: Entry<V>, p: nat, others: set<Key>) {
    p < |es| && es[p] == e && forall i :: p < i < |es| ==> es[i].key in others
  }

  lemma {:induction false} LookupAt<V>(es: Entries<V>, p: nat)
    requires DistinctKeys(es) && p < |es|
    ensures Lookup(es, es[p].key) == Some(es[p])
  {
    if p > 0 { LookupAt(es[1..], p - 1); }
  }

  lemma {:induction false} NoMoreThan<V>(es: Entries<V>, keys: set<Key>)
    requires DistinctKeys(es) && forall i :: 0 <= i < |es| ==> es[i].key in keys
    ensures |es| <= |keys|
  {
    if es != [] {
      var n := |es| - 1;
      assert forall i | 0 <= i < n :: es[..n][i] == es[i];
      NoMoreThan(es[..n], keys - {es[n].key});
    }
  }

  lemma AboveWithout<V>(es: Entries<V>, e: Entry<V>, p: nat, others: set<Key>, k: Key) returns (q: nat)
    requires DistinctKeys(es) && Above(es, e, p, others) && k != e.key
    ensures Above(Without(es, k), e, q, others)
  {
    var r := WithoutIs(es, k);
    LookupIs(es, k);
    q := if r < p then p - 1 else p;
  }

  lemma AboveAppend<V>(es: Entries<V>, e: Entry<V>, p: nat, others: set<Key>, x: Entry<V>)
    requires Above(es, e, p, others)
    ensures Above(es + [x], e, p, others + {x.key})
  {
  }

  lemma AboveTrim<V>(es: Entries<V>, e: Entry<V>, p: nat, others: set<Key>, n: nat) returns (q: nat)
    requires DistinctKeys(es) && Above(es, e, p, others) && |others| < n
    ensures Above(Trim(es, n), e, q, others)
  {
    var later := es[p + 1..];
    assert forall i | 0 <= i < |later| :: later[i] == es[p + 1 + i];
    NoMoreThan(later, others);
    q := if |es| <= n then p else p - (|es| - n);
  }

  lemma AboveOther<V>(capacity: nat, es: Entries<V>, e: Entry<V>, p: nat, others: set<Key>, op: Op<V>)
    returns (q: nat)
    requires DistinctKeys(es) && Above(es, e, p, others) && op.key != e.key
    requires !op.Delete? ==> |others + {op.key}| < capacity
    ensures Above(Apply(capacity, es, op), e, q, if op.Delete? then others else others + {op.key})
  {
    var w := Without(es, op.key);
    var r := WithoutIs(es, op.key);
    q := AboveWithout(es, e, p, others, op.key);
    match op
    case Delete(_) =>
    case Get(_, _) =>
      if Lookup(es, op.key).None? { q := p; }
      else { LookupIs(es, op.key); AboveAppend(w, e, q, others, Lookup(es, op.key).value); }
    case Set(k, v, ttl, now) =>
      var x := Entry(k, v, ExpiryOf(ttl, now));
      AboveAppend(w, e, q, others, x);
      q := AboveTrim(w + [x], e, q, others + {k}, capacity);
  }

  lemma AboveOwn<V>(capacity: nat, es: Entries<V>, e: Entry<V>, p: nat, others: set<Key>, now: int) returns (q: nat)
    requires DistinctKeys(es) && Above(es, e, p, others) && !Expired(e, now)
    ensures Above(Apply(capacity, es, Get(e.key, now)), e, q, {})
  {
    LookupAt(es, p);
    q := |Without(es, e.key)|;
  }

  /** The value set at t0 is neither replaced nor deleted, has not lapsed when got, and never has
      the capacity's number of other keys been used since it was last got. */
  ghost predicate Undisturbed<V>(capacity: nat, ops: seq<Op<V>>, k: Key, ttlSeconds: Option<int>, t0: int) {
    && (forall i :: 0 <= i < |ops| && ops[i].key == k ==> ops[i].Get? && !Lapsed(t0, ttlSeconds, ops[i].now))
    && (forall n :: 0 <= n <= |ops| ==> |OthersUsed(ops[..n], k)| < capacity)
  }

  lemma UndisturbedBefore<V>(capacity: nat, ops: seq<Op<V>>, k: Key, ttlSeconds: Option<int>, t0: int)
    requires Undisturbed(capacity, ops, k, ttlSeconds, t0) && ops != []
    ensures Undisturbed(capacity, ops[..|ops| - 1], k, ttlSeconds, t0) && |OthersUsed(ops, k)| < capacity
  {
    hide Lapsed, OthersUsed;
    var front := ops[..|ops| - 1];
    assert ops[..|ops|] == ops;
    assert forall m | 0 <= m <= |front| :: ops[..m] == front[..m];
    assert forall i | 0 <= i < |front| :: ops[i] == front[i];
  }

  lemma AboveStep<V>(capacity: nat, es: Entries<V>, e: Entry<V>, p: nat, after: seq<Op<V>>, ttlSeconds: Option<int>,
                     t0: int) returns (q: nat)
    requires DistinctKeys(es) && after != [] && Above(es, e, p, OthersUsed(after[..|after| - 1], e.key))
    requires e.expiresAt == ExpiryOf(ttlSeconds, t0) && Undisturbed(capacity, after, e.key, ttlSeconds, t0)
    ensures Above(Apply(capacity, es, after[|after| - 1]), e, q, OthersUsed(after, e.key))
  {
    var others, last := OthersUsed(after[..|after| - 1], e.key), after[|after| - 1];
    UndisturbedBefore(capacity, after, e.key, ttlSeconds, t0);
    hide Above, DistinctKeys, Apply;
    if last.key == e.key {
      q := AboveOwn(capacity, es, e, p, others, last.now);
    } else {
      q := AboveOther(capacity, es, e, p, others, last);
    }
  }

  lemma ExecLast<V>(capacity: nat, ops: seq<Op<V>>)
    requires ops != []
    ensures Exec(capacity, ops) == Apply(capacity, Exec(capacity, ops[..|ops| - 1]), ops[|ops| - 1])
  {
  }

  lemma SetIsLast<V>(capacity: nat, es: Entries<V>, k: Key, v: V, ttlSeconds: Option<int>, t0: int)
    requires capacity >= 1
    ensures var after := Apply(capacity, es, Set(k, v, ttlSeconds, t0));
      after != [] && Above(after, Entry(k, v, ExpiryOf(ttlSeconds, t0)), |after| - 1, {})
  {
    hide Without;
  }

  lemma {:induction false} SetStays<V>(capacity: nat, before: seq<Op<V>>, k: Key, v: V, ttlSeconds: Option<int>,
                                       t0: int, after: seq<Op<V>>) returns (p: nat)
    requires Undisturbed(capacity, after, k, ttlSeconds, t0)
    ensures var es := Exec(capacity, before + [Set(k, v, ttlSeconds, t0)] + after);
      DistinctKeys(es) && Above(es, Entry(k, v, ExpiryOf(ttlSeconds, t0)), p, OthersUsed(after, k))
  {
    var e := Entry(k, v, ExpiryOf(ttlSeconds, t0));
    var start := before + [Set(k, v, ttlSeconds, t0)];
    CacheIsFaithful(capacity, start + after);
    ExecLast(capacity, start + after);
    if after == [] {
      assert start + after == start && start[..|start| - 1] == before;
      assert after[..0] == [];
      SetIsLast(capacity, Exec(capacity, before), k, v, ttlSeconds, t0);
      hide Above, Apply, Exec;
      p := |Exec(capacity, start)| - 1;
    } else {
      var front := after[..|after| - 1];
      assert (start + after)[..|start + after| - 1] == start + front;
      UndisturbedBefore(capacity, after, k, ttlSeconds, t0);
      hide Undisturbed, OthersUsed, Above, Apply, Exec;
      p := SetStays(capacity, before, k, v, ttlSeconds, t0, front);
      CacheIsFaithful(capacity, start + front);
      p := AboveStep(capacity, Exec(capacity, start + front), e, p, after, ttlSeconds, t0);
    }
  }

  /** A get hits, with the value last set, whenever that has neither been deleted nor lapsed and
      fewer other keys than the capacity have been used since each last use of the key. */
  lemma GetHits<V>(capacity: nat, before: seq<Op<V>>, k: Key, v: V, ttlSeconds: Option<int>, t0: int,
                   after: seq<Op<V>>, now: int)
    requires Undisturbed(capacity, after, k, ttlSeconds, t0) && !Lapsed(t0, ttlSeconds, now)
    ensures GetResult(Exec(capacity, before + [Set(k, v, ttlSeconds, t0)] + after), k, now) == Some(v)
  {
    var p := SetStays(capacity, before, k, v, ttlSeconds, t0, after);
    LookupAt(Exec(capacity, before + [Set(k, v, ttlSeconds, t0)] + after), p);
  }

  /** It misses from the moment the value has lapsed. */
  lemma GetMissesLapsed<V>(capacity: nat, before: seq<Op<V>>, k: Key, v: V, ttlSeconds: Option<int>, t0: int,
                           after: seq<Op<V>>, now: int)
    requires forall i :: 0 <= i < |after| && after[i].key == k ==> after[i].Get?
    requires Lapsed(t0, ttlSeconds, now)
    ensures GetResult(Exec(capacity, before + [Set(k, v, ttlSeconds, t0)] + after), k, now) == None
  {
    var ops := before + [Set(k, v, ttlSeconds, t0)] + after;
    HitIsLastUnexpiredSet(capacity, ops, k, now);
    LastSetIs(before, k, v, ttlSeconds, t0, after);
  }

  lemma {:induction false} LastSetIs<V>(before: seq<Op<V>>, k: Key, v: V, ttlSeconds: Option<int>, t0: int,
                                        after: seq<Op<V>>)
    requires forall i :: 0 <= i < |after| && after[i].key == k ==> after[i].Get?
    ensures LastSet(before + [Set(k, v, ttlSeconds, t0)] + after, k) == Some(Entry(k, v, ExpiryOf(ttlSeconds, t0)))
  {
    var start := before + [Set(k, v, ttlSeconds, t0)];
    if after == [] {
      assert start + after == start;
    } else {
      assert (start + after)[..|start + after| - 1] == start + after[..|after| - 1];
      LastSetIs(before, k, v, ttlSeconds, t0, after[..|after| - 1]);
    }
  }

  // ---- Inclusion across capacities ----

  /** `a` is `b` with some elements left out. */
  ghost predicate Subsequence<T>(a: seq<T>, b: seq<T>)
    decreases b
  {
    a == [] || (b != [] && ((a[0] == b[0] && Subsequence(a[1..], b[1..])) || Subsequence(a, b[1..])))
  }

  lemma {:induction false} SubsequenceTail<T>(a: seq<T>, b: seq<T>)
    requires Subsequence(a, b) && a != []
    ensures b != [] && Subsequence(a[1..], b) && Subsequence(a[1..], b[1..])
    decreases b
  {
    if !(a[0] == b[0] && Subsequence(a[1..], b[1..])) {
      SubsequenceTail(a, b[1..]);
    }
  }

  lemma {:induction false} SubsequenceAppend<T>(a: seq<T>, b: seq<T>, x: T)
    requires Subsequence(a, b)
    ensures Subsequence(a, b + [x]) && Subsequence(a + [x], b + [x])
    decreases b
  {
    if b == [] {
      assert a + [x] == [x];
    } else {
      assert (b + [x])[1..] == b[1..] + [x];
      if a == [] {
        SubsequenceAppend(a, b[1..], x);
      } else if a[0] == b[0] && Subsequence(a[1..], b[1..]) {
        SubsequenceAppend(a[1..], b[1..], x);
        assert (a + [x])[1..] == a[1..] + [x];
      } else {
        SubsequenceAppend(a, b[1..], x);
      }
    }
  }

  lemma {:induction false} SubsequenceDrop<T>(a: seq<T>, b: seq<T>, q: nat, p: nat)
    requires Subsequence(a, b) && p <= q <= |a|
    ensures p <= |b| && Subsequence(a[q..], b[p..])
    decreases q
  {
    if q > 0 {
      SubsequenceTail(a, b);
      hide Subsequence;
      DropOneMore(a, q);
      if p > 0 {
        SubsequenceDrop(a[1..], b[1..], q - 1, p - 1);
        DropOneMore(b, p);
      } else {
        SubsequenceDrop(a[1..], b, q - 1, 0);
      }
    }
  }

  lemma DropOneMore<T>(s: seq<T>, n: nat)
    requires 1 <= n <= |s|
    ensures s[1..][n - 1..] == s[n..]
  {
  }

  lemma {:induction false} SubsequenceMember<T>(a: seq<T>, b: seq<T>, x: T)
    requires Subsequence(a, b) && x in a
    ensures x in b
    decreases b
  {
    if a[0] == b[0] && Subsequence(a[1..], b[1..]) {
      if x != a[0] { SubsequenceMember(a[1..], b[1..], x); }
    } else {
      SubsequenceMember(a, b[1..], x);
    }
  }

  lemma {:induction false} SubsequenceWithout<V>(a: Entries<V>, b: Entries<V>, k: Key)
    requires Subsequence(a, b) && DistinctKeys(b)
    ensures Subsequence(Without(a, k), Without(b, k))
    decreases b
  {
    if a != [] {
      if a[0] == b[0] && Subsequence(a[1..], b[1..]) {
        if a[0].key != k { SubsequenceWithout(a[1..], b[1..], k); }
      } else {
        SubsequenceWithout(a, b[1..], k);
        if b[0].key == k {
          AbsentWithout(a, b[1..], k);
        }
      }
    }
  }

  lemma AbsentWithout<V>(a: Entries<V>, b: Entries<V>, k: Key)
    requires Subsequence(a, b) && forall i :: 0 <= i < |b| ==> b[i].key != k
    ensures Without(a, k) == a
  {
    forall i | 0 <= i < |a| ensures a[i].key != k {
      SubsequenceMember(a, b, a[i]);
    }
    LookupIs(a, k);
    NothingToRemove(a, k);
  }

  lemma {:induction false} NothingToRemove<V>(a: Entries<V>, k: Key)
    requires forall i :: 0 <= i < |a| ==> a[i].key != k
    ensures Without(a, k) == a
  {
    if a != [] { NothingToRemove(a[1..], k); }
  }

  /** The smaller cache within the larger, which has at most m - n more entries. */
  ghost predicate Included<V>(n: nat, m: nat, small: Entries<V>, large: Entries<V>) {
    && Subsequence(small, large)
    && DistinctKeys(small) && DistinctKeys(large)
    && |large| - |small| <= m - n
  }

  lemma SameLookup<V>(n: nat, m: nat, small: Entries<V>, large: Entries<V>, k: Key)
    requires Included(n, m, small, large) && Lookup(small, k).Some?
    ensures Lookup(large, k) == Lookup(small, k)
  {
    LookupIs(small, k);
    LookupIs(large, k);
    SubsequenceMember(small, large, Lookup(small, k).value);
  }

  lemma WithoutIncluded<V>(n: nat, m: nat, small: Entries<V>, large: Entries<V>, k: Key)
    requires Included(n, m, small, large)
    ensures Included(n, m, Without(small, k), Without(large, k))
    ensures Lookup(small, k).None? && Lookup(large, k).Some? ==> Included(n, m, small, Without(large, k))
  {
    SubsequenceWithout(small, large, k);
    var p := WithoutIs(small, k);
    var q := WithoutIs(large, k);
    if Lookup(small, k).Some? { SameLookup(n, m, small, large, k); }
  }

  lemma AppendIncluded<V>(n: nat, m: nat, small: Entries<V>, large: Entries<V>, e: Entry<V>)
    requires Included(n, m, small, large) && forall i :: 0 <= i < |large| ==> large[i].key != e.key
    ensures |large| + 1 - |small| <= m - n ==> Included(n, m, small, large + [e])
    ensures Included(n, m, small + [e], large + [e])
  {
    SubsequenceAppend(small, large, e);
    forall i | 0 <= i < |small| ensures small[i].key != e.key {
      SubsequenceMember(small, large, small[i]);
    }
  }

  lemma TrimIncluded<V>(n: nat, m: nat, small: Entries<V>, large: Entries<V>)
    requires n <= m && Included(n, m, small, large)
    ensures Included(n, m, Trim(small, n), Trim(large, m))
  {
    hide Subsequence;
    var q, p := |small| - |Trim(small, n)|, |large| - |Trim(large, m)|;
    SubsequenceDrop(small, large, q, p);
    assert Trim(small, n) == small[q..] && Trim(large, m) == large[p..];
    assert DistinctKeys(small[q..]) && DistinctKeys(large[p..]);
  }

  lemma ApplyIncluded<V>(n: nat, m: nat, small: Entries<V>, large: Entries<V>, op: Op<V>)
    requires n <= m && |small| <= n && |large| <= m && Included(n, m, small, large)
    ensures Included(n, m, Apply(n, small, op), Apply(m, large, op))
  {
    var k := op.key;
    var s, l := Without(small, k), Without(large, k);
    WithoutIncluded(n, m, small, large, k);
    var q := WithoutIs(large, k);
    match op
    case Delete(_) =>
    case Get(_, now) =>
      LookupIs(large, k);
      if Lookup(small, k).Some? {
        SameLookup(n, m, small, large, k);
        AppendIncluded(n, m, s, l, Lookup(large, k).value);
      } else if Lookup(large, k).Some? {
        AppendIncluded(n, m, small, l, Lookup(large, k).value);
      }
    case Set(_, v, ttl, now) =>
      var e := Entry(k, v, ExpiryOf(ttl, now));
      AppendIncluded(n, m, s, l, e);
      TrimIncluded(n, m, s + [e], l + [e]);
  }

  lemma {:induction false} RunsIncluded<V>(n: nat, m: nat, ops: seq<Op<V>>)
    requires n <= m
    ensures Included(n, m, Exec(n, ops), Exec(m, ops))
  {
    if ops != [] {
      var before := ops[..|ops| - 1];
      RunsIncluded(n, m, before);
      CacheIsFaithful(n, before);
      CacheIsFaithful(m, before);
      ApplyIncluded(n, m, Exec(n, before), Exec(m, before), ops[|ops| - 1]);
    }
  }

  /** For the same operations at the same times a smaller cache is an order-preserving
      subsequence of a larger one, so each of its hits is the same hit there. */
  lemma Inclusion<V>(n: nat, m: nat, ops: seq<Op<V>>, k: Key, now: int)
    requires n <= m
    ensures Subsequence(Exec(n, ops), Exec(m, ops))
    ensures GetResult(Exec(n, ops), k, now).Some?
            ==> GetResult(Exec(m, ops), k, now) == GetResult(Exec(n, ops), k, now)
  {
    RunsIncluded(n, m, ops);
    if Lookup(Exec(n, ops), k).Some? {
      SameLookup(n, m, Exec(n, ops), Exec(m, ops), k);
    }
  }

  class MemoryCacheAdapter<V> {
    const maxEntries: nat
    var entries: Entries<V>

    constructor (maxEntries: nat)
      requires maxEntries >= 1
      ensures entries == [] && this.maxEntries == maxEntries
    {
      this.maxEntries := maxEntries;
      entries := [];
    }

    /** A limit below 1 is rejected. */
    static method Create(maxEntries: int) returns (r: Option<MemoryCacheAdapter<V>>)
      ensures r.None? <==> maxEntries < 1
      ensures r.Some? ==> fresh(r.value) && r.value.entries == [] && r.value.maxEntries == maxEntries
    {
      if maxEntries < 1 { return None; }
      var cache := new MemoryCacheAdapter<V>(maxEntries);
      r := Some(cache);
    }

    method Get(key: Key, now: int) returns (hit: Option<V>)
      modifies this
      ensures hit == GetResult(old(entries), key, now)
      ensures entries == Apply(maxEntries, old(entries), Op.Get(key, now))
    {
      var entry := Lookup(entries, key);
      if entry.None? { return None; }
      entries := Without(entries, key);
      if Expired(entry.value, now) { return None; }
      entries := entries + [entry.value];
      hit := Some(entry.value.value);
    }

    method Set(key: Key, value: V, ttlSeconds: Option<int>, now: int)
      modifies this
      ensures entries == Apply(maxEntries, old(entries), Op.Set(key, value, ttlSeconds, now))
    {
      entries := Without(entries, key) + [Entry(key, value, ExpiryOf(ttlSeconds, now))];
      ghost var full := entries;
      while |entries| > maxEntries
        invariant |entries| <= |full| && entries == full[|full| - |entries|..]
        invariant |entries| >= maxEntries || entries == full
      {
        entries := entries[1..];
      }
    }

    method Delete(key: Key)
      modifies this
      ensures entries == Apply(maxEntries, old(entries), Op.Delete(key))
    {
      entries := Without(entries, key);
    }
  }
}
