/** MemoryFixedWindowLimiter of apps/api/src/rate-limit.ts: the windows of all keys in one
    Map, in insertion order, with a clean-up that is meant to bound it. */
module MemoryLimiting {
  import opened Prelude
  import opened FixedWindow
  import opened Collections

  const CLEANUP_INTERVAL := 1_000

  datatype Slot = Slot(key: string, window: Window)

  datatype Limiter = Limiter(windows: seq<Slot>, operations: nat)

  datatype Settings = Settings(quota: Quota, maxTrackedKeys: int)

  const EMPTY := Limiter([], 0)

  function Find(ws: seq<Slot>, key: string): Option<Window> {
    if ws == [] then None else if ws[0].key == key then Some(ws[0].window) else Find(ws[1..], key)
  }

  /** Map.set: a present key keeps its position. */
  function Put(ws: seq<Slot>, key: string, w: Window): seq<Slot> {
    if ws == [] then [Slot(key, w)]
    else if ws[0].key == key then [Slot(key, w)] + ws[1..]
    else [ws[0]] + Put(ws[1..], key, w)
  }

  function Live(ws: seq<Slot>, now: int): seq<Slot> {
    if ws == [] then []
    else (if ws[0].window.resetAt <= now then [] else [ws[0]]) + Live(ws[1..], now)
  }

  /** The oldest keys go while there are too many, but an empty oldest key is falsy and
      stops the loop. */
  function EvictOldest(ws: seq<Slot>, most: int): seq<Slot> {
    if |ws| <= most || ws == [] || ws[0].key == "" then ws else EvictOldest(ws[1..], most)
  }

  function Purged(ws: seq<Slot>, most: int, now: int): seq<Slot> {
    EvictOldest(Live(ws, now), most)
  }

  function CleanedUp(s: Settings, l: Limiter, now: int): seq<Slot> {
    if (l.operations + 1) % CLEANUP_INTERVAL == 0 || |l.windows| >= s.maxTrackedKeys
    then Purged(l.windows, s.maxTrackedKeys, now) else l.windows
  }

  function Consumed(s: Settings, l: Limiter, r: Request): Limiter {
    var ws := CleanedUp(s, l, r.at);
    Limiter(Put(ws, r.key, Next(s.quota, Find(ws, r.key), r.at)), l.operations + 1)
  }

  function Decide(s: Settings, l: Limiter, r: Request): Decision {
    Admit(s.quota, Find(CleanedUp(s, l, r.at), r.key), r.at)
  }

  function Run(s: Settings, reqs: seq<Request>): Limiter {
    if reqs == [] then EMPTY else Consumed(s, Run(s, reqs[..|reqs| - 1]), reqs[|reqs| - 1])
  }

  function Decisions(s: Settings, reqs: seq<Request>): seq<Decision> {
    if reqs == [] then [] else
    Decisions(s, reqs[..|reqs| - 1]) + [Decide(s, Run(s, reqs[..|reqs| - 1]), reqs[|reqs| - 1])]
  }

  // ---- When expired windows go ----

  /** Every thousandth request, and every request that finds as many keys as are tracked, drops all
      expired windows; any other leaves the map as it is. */
  lemma SweepsExactly(s: Settings, l: Limiter, now: int)
    ensures (l.operations + 1) % 1000 == 0 || |l.windows| >= s.maxTrackedKeys ==>
      forall x :: x in CleanedUp(s, l, now) ==> x in l.windows && x.window.resetAt > now
    ensures !((l.operations + 1) % 1000 == 0 || |l.windows| >= s.maxTrackedKeys) ==> CleanedUp(s, l, now) == l.windows
  {
    LiveKeepsLive(l.windows, now);
    EvictKeeps(Live(l.windows, now), s.maxTrackedKeys);
  }

  lemma {:induction false} LiveKeepsLive(ws: seq<Slot>, now: int)
    ensures forall x :: x in Live(ws, now) <==> x in ws && x.window.resetAt > now
  {
    if ws != [] {
      LiveKeepsLive(ws[1..], now);
      assert ws == [ws[0]] + ws[1..];
    }
  }

  // ---- How large the map can get ----

  /** The clean-up brings the map within its bound exactly when the empty key is not among
      the oldest live keys that have to go. */
  lemma {:induction false} EvictionBound(ws: seq<Slot>, most: int)
    ensures |EvictOldest(ws, most)| <= Max(0, most)
            <==> forall i :: 0 <= i < |ws| - Max(0, most) ==> ws[i].key != ""
  {
    if |ws| > Max(0, most) {
      if ws[0].key != "" {
        EvictionBound(ws[1..], most);
        forall i | 1 <= i < |ws| - Max(0, most) ensures ws[i] == ws[1..][i - 1] {}
        assert forall i :: 0 <= i < |ws[1..]| - Max(0, most) ==> ws[1..][i] == ws[i + 1];
      } else {
        assert 0 < |ws| - Max(0, most);
      }
    }
  }

  lemma {:induction false} PutSize(ws: seq<Slot>, key: string, w: Window)
    ensures |Put(ws, key, w)| == |ws| + if Find(ws, key).None? then 1 else 0
    ensures forall x :: x in Put(ws, key, w) ==> x in ws || x.key == key
  {
    if ws != [] && ws[0].key != key { PutSize(ws[1..], key, w); }
  }

  lemma {:induction false} CleanUpKeeps(ws: seq<Slot>, most: int, now: int)
    ensures |Live(ws, now)| <= |ws| && forall x :: x in Live(ws, now) ==> x in ws
  {
    if ws != [] { CleanUpKeeps(ws[1..], most, now); }
  }

  lemma {:induction false} EvictKeeps(ws: seq<Slot>, most: int)
    ensures |EvictOldest(ws, most)| <= |ws| && forall x :: x in EvictOldest(ws, most) ==> x in ws
  {
    if !(|ws| <= most || ws == [] || ws[0].key == "") { EvictKeeps(ws[1..], most); }
  }

  /** One more key is added although every tracked key is live and the oldest is empty. */
  predicate Escapes(s: Settings, l: Limiter, r: Request) {
    var live := Live(l.windows, r.at);
    |live| == Max(0, s.maxTrackedKeys) + 1 && live[0].key == "" && Find(live, r.key).None?
  }

  /** A request takes the map past one key more than `maxTrackedKeys` exactly when it finds
      that many live keys, the oldest of them empty, and its own not among them. */
  lemma EscapesExactly(s: Settings, l: Limiter, r: Request)
    requires |l.windows| <= Max(0, s.maxTrackedKeys) + 1
    ensures |Consumed(s, l, r).windows| > Max(0, s.maxTrackedKeys) + 1 <==> Escapes(s, l, r)
  {
    var most, live, ws := Max(0, s.maxTrackedKeys), Live(l.windows, r.at), CleanedUp(s, l, r.at);
    CleanUpKeeps(l.windows, most, r.at);
    EvictKeeps(live, s.maxTrackedKeys);
    PutSize(ws, r.key, Next(s.quota, Find(ws, r.key), r.at));
    hide Live, Find, Put;
    EvictionBound(live, s.maxTrackedKeys);
    if |live| == most + 1 && live[0].key == "" { assert EvictOldest(live, s.maxTrackedKeys) == live; }
  }

  ghost predicate StaysBounded(s: Settings, reqs: seq<Request>) {
    forall n :: 0 <= n <= |reqs| ==> |Run(s, reqs[..n]).windows| <= Max(0, s.maxTrackedKeys) + 1
  }

  ghost predicate NothingEscapes(s: Settings, reqs: seq<Request>) {
    forall n :: 0 <= n < |reqs| ==> !Escapes(s, Run(s, reqs[..n]), reqs[n])
  }

  lemma BoundedOneMore(s: Settings, before: seq<Request>, r: Request)
    ensures StaysBounded(s, before + [r]) <==>
      StaysBounded(s, before) && |Run(s, before + [r]).windows| <= Max(0, s.maxTrackedKeys) + 1
  {
    hide Run;
    var reqs := before + [r];
    assert reqs[..|reqs|] == reqs;
    assert forall n | 0 <= n <= |before| :: reqs[..n] == before[..n];
  }

  lemma EscapeOneMore(s: Settings, before: seq<Request>, r: Request)
    ensures NothingEscapes(s, before + [r]) <==> NothingEscapes(s, before) && !Escapes(s, Run(s, before), r)
  {
    hide Run, Escapes;
    var reqs := before + [r];
    assert reqs[..|before|] == before && reqs[|before|] == r;
    assert forall n | 0 <= n < |before| :: reqs[..n] == before[..n] && reqs[n] == before[n];
  }

  /** In every run the map stays within one key more than `maxTrackedKeys` throughout exactly
      when no request escapes in this way. */
  lemma {:induction false} TrackedKeysExactly(s: Settings, reqs: seq<Request>)
    ensures StaysBounded(s, reqs) <==> NothingEscapes(s, reqs)
  {
    if reqs != [] {
      var before, r := reqs[..|reqs| - 1], reqs[|reqs| - 1];
      assert reqs == before + [r];
      TrackedKeysExactly(s, before);
      BoundedOneMore(s, before, r);
      EscapeOneMore(s, before, r);
      if StaysBounded(s, before) {
        assert before[..|before|] == before;
        EscapesExactly(s, Run(s, before), r);
      }
      hide StaysBounded, NothingEscapes, Escapes, Consumed;
    }
  }

  lemma {:induction false} KeysNonEmpty(s: Settings, reqs: seq<Request>)
    requires forall i :: 0 <= i < |reqs| ==> reqs[i].key != ""
    ensures forall x :: x in Run(s, reqs).windows ==> x.key != ""
    ensures |Run(s, reqs).windows| <= Max(0, s.maxTrackedKeys) + 1
  {
    if reqs != [] {
      var l, r := Run(s, reqs[..|reqs| - 1]), reqs[|reqs| - 1];
      KeysNonEmpty(s, reqs[..|reqs| - 1]);
      var ws := CleanedUp(s, l, r.at);
      CleanUpKeeps(l.windows, s.maxTrackedKeys, r.at);
      EvictKeeps(Live(l.windows, r.at), s.maxTrackedKeys);
      EvictionBound(Live(l.windows, r.at), s.maxTrackedKeys);
      PutSize(ws, r.key, Next(s.quota, Find(ws, r.key), r.at));
    }
  }

  /** In every run that never uses the empty key the map holds at most one key more than
      `maxTrackedKeys`. */
  lemma TrackedKeysBound(s: Settings, reqs: seq<Request>)
    requires forall i :: 0 <= i < |reqs| ==> reqs[i].key != ""
    ensures |Run(s, reqs).windows| <= Max(0, s.maxTrackedKeys) + 1
  {
    KeysNonEmpty(s, reqs);
  }

  /** With it the bound fails: one tracked key allowed, yet three are kept. */
  lemma EmptyKeyEscapesBound(q: Quota)
    requires q.windowMs >= 1
    ensures var reqs := [Request("", 0), Request("a", 0), Request("b", 0)];
      |Run(Settings(q, 1), reqs).windows| == 3
  {
    var s := Settings(q, 1);
    var r0, r1, r2 := Request("", 0), Request("a", 0), Request("b", 0);
    var w := Window(1, q.windowMs);
    var x, y, z := Slot("", w), Slot("a", w), Slot("b", w);
    assert "a"[0] != "b"[0] && "a" != "" && "b" != "";
    assert [r0][..0] == [] && [r0, r1][..1] == [r0] && [r0, r1, r2][..2] == [r0, r1];
    assert [x][1..] == [] && [x, y][1..] == [y] && [y][1..] == [];
    assert Run(s, [r0]) == Limiter([x], 1);
    assert Live([], 0) == [] && Live([y], 0) == [y];
    assert Live([x], 0) == [x] && Live([x, y], 0) == [x, y];
    assert Find([x], "a") == Find([x][1..], "a");
    assert Put([x], "a", w) == [x] + Put([x][1..], "a", w);
    assert Run(s, [r0, r1]) == Consumed(s, Limiter([x], 1), r1) == Limiter([x, y], 2);
    assert Find([x, y], "b") == Find([x, y][1..], "b") == Find([y][1..], "b");
    assert Put([y], "b", w) == [y, z] && Put([x, y], "b", w) == [x] + Put([x, y][1..], "b", w);
  }

  // ---- Each key has its own fixed window ----

  ghost predicate DistinctKeys(ws: seq<Slot>) {
    forall i, j :: 0 <= i < j < |ws| ==> ws[i].key != ws[j].key
  }

  function Keys(reqs: seq<Request>): set<string> {
    set i | 0 <= i < |reqs| :: reqs[i].key
  }

  lemma {:induction false} FindIs(ws: seq<Slot>, key: string)
    ensures Find(ws, key).None? <==> forall x :: x in ws ==> x.key != key
    ensures Find(ws, key).Some? ==> Slot(key, Find(ws, key).value) in ws
  {
    if ws != [] && ws[0].key != key { FindIs(ws[1..], key); }
  }

  lemma {:induction false} PutIs(ws: seq<Slot>, key: string, w: Window)
    requires DistinctKeys(ws)
    ensures DistinctKeys(Put(ws, key, w))
    ensures forall k :: Find(Put(ws, key, w), k) == if k == key then Some(w) else Find(ws, k)
  {
    if ws != [] {
      if ws[0].key == key {
        assert Put(ws, key, w)[1..] == ws[1..];
      } else {
        PutIs(ws[1..], key, w);
        PutSize(ws[1..], key, w);
        assert Put(ws, key, w)[1..] == Put(ws[1..], key, w);
        forall x | x in Put(ws[1..], key, w) ensures x.key != ws[0].key {
          if x in ws[1..] { var i :| 0 <= i < |ws[1..]| && ws[1..][i] == x; assert ws[i + 1] == x; }
        }
      }
    }
  }

  lemma LaterKeysDiffer(ws: seq<Slot>)
    requires DistinctKeys(ws) && ws != []
    ensures DistinctKeys(ws[1..]) && forall x :: x in ws[1..] ==> x.key != ws[0].key
  {
    forall x | x in ws[1..] ensures x.key != ws[0].key {
      var i :| 0 <= i < |ws[1..]| && ws[1..][i] == x;
      assert ws[i + 1] == x;
    }
  }

  lemma {:induction false} LiveDistinct(ws: seq<Slot>, now: int)
    requires DistinctKeys(ws)
    ensures DistinctKeys(Live(ws, now))
  {
    if ws != [] {
      LaterKeysDiffer(ws);
      LiveDistinct(ws[1..], now);
      CleanUpKeeps(ws[1..], 0, now);
    }
  }

  lemma {:induction false} LiveFind(ws: seq<Slot>, now: int, k: string)
    requires DistinctKeys(ws)
    ensures Find(Live(ws, now), k) == if Over(Find(ws, k), now) then None else Find(ws, k)
  {
    if ws != [] {
      LaterKeysDiffer(ws);
      LiveFind(ws[1..], now, k);
      FindIs(ws[1..], ws[0].key);
      if ws[0].window.resetAt > now {
        assert Live(ws, now)[1..] == Live(ws[1..], now);
      } else {
        assert Live(ws, now) == Live(ws[1..], now);
      }
    }
  }

  /** Expired windows go, the others stay as they are. */
  lemma LiveIs(ws: seq<Slot>, now: int)
    requires DistinctKeys(ws)
    ensures DistinctKeys(Live(ws, now))
    ensures forall k :: Find(Live(ws, now), k)
                        == if Over(Find(ws, k), now) then None else Find(ws, k)
  {
    hide Live, Find, DistinctKeys;
    LiveDistinct(ws, now);
    forall k ensures Find(Live(ws, now), k) == if Over(Find(ws, k), now) then None else Find(ws, k) {
      LiveFind(ws, now, k);
    }
  }

  lemma {:induction false} NoMoreSlotsThanKeys(ws: seq<Slot>, keys: set<string>)
    requires DistinctKeys(ws) && forall x :: x in ws ==> x.key in keys
    ensures |ws| <= |keys|
  {
    if ws != [] {
      var k0 := ws[0].key;
      forall x | x in ws[1..] ensures x.key in keys - {k0} {
        var i :| 0 <= i < |ws[1..]| && ws[1..][i] == x;
        assert ws[i + 1] == x;
      }
      NoMoreSlotsThanKeys(ws[1..], keys - {k0});
    }
  }

  lemma MoreKeys(before: seq<Request>, r: Request)
    ensures Keys(before + [r]) == Keys(before) + {r.key}
  {
    var reqs := before + [r];
    forall k | k in Keys(before) + {r.key} ensures k in Keys(reqs) {
      if k == r.key {
        assert reqs[|before|].key == k;
      } else {
        var i :| 0 <= i < |before| && before[i].key == k;
        assert reqs[i].key == k;
      }
    }
  }

  // ---- When a key is forgotten ----

  /** The clean-up before a request has evicted the key's window although it is not over. */
  predicate Forgotten(s: Settings, before: seq<Request>, r: Request) {
    && !Over(KeyWindow(s.quota, before, r.key), r.at)
    && Find(CleanedUp(s, Run(s, before), r.at), r.key).None?
  }

  /** No request for the key finds it forgotten. */
  ghost predicate Remembers(s: Settings, reqs: seq<Request>, key: string) {
    forall n :: 0 <= n < |reqs| && reqs[n].key == key ==> !Forgotten(s, reqs[..n], reqs[n])
  }

  /** The i-th decision is the one of the key's own fixed window. */
  predicate Isolated(s: Settings, reqs: seq<Request>, i: nat)
    requires i < |reqs|
  {
    Decide(s, Run(s, reqs[..i]), reqs[i]) == Admit(s.quota, KeyWindow(s.quota, reqs[..i], reqs[i].key), reqs[i].at)
  }

  ghost predicate KeyIsolated(s: Settings, reqs: seq<Request>, key: string) {
    forall i :: 0 <= i < |reqs| && reqs[i].key == key ==> Isolated(s, reqs, i)
  }

  lemma {:induction false} DecisionsAre(s: Settings, reqs: seq<Request>)
    ensures |Decisions(s, reqs)| == |reqs|
    ensures forall i :: 0 <= i < |reqs| ==> Decisions(s, reqs)[i] == Decide(s, Run(s, reqs[..i]), reqs[i])
  {
    hide Run, Decide;
    if reqs != [] {
      var before := reqs[..|reqs| - 1];
      DecisionsAre(s, before);
      assert forall i | 0 <= i < |before| :: reqs[..i] == before[..i];
    }
  }

  lemma {:induction false} EvictFind(ws: seq<Slot>, most: int, k: string)
    requires DistinctKeys(ws)
    ensures DistinctKeys(EvictOldest(ws, most))
    ensures Find(EvictOldest(ws, most), k) in {None, Find(ws, k)}
  {
    if !(|ws| <= most || ws == [] || ws[0].key == "") {
      LaterKeysDiffer(ws);
      EvictFind(ws[1..], most, k);
      FindIs(ws[1..], ws[0].key);
    }
  }

  /** The clean-up keeps a window as it is or drops it. */
  lemma CleanUpFind(s: Settings, l: Limiter, now: int, k: string)
    requires DistinctKeys(l.windows)
    ensures DistinctKeys(CleanedUp(s, l, now))
    ensures Find(CleanedUp(s, l, now), k) in {None, Find(l.windows, k)}
  {
    LiveIs(l.windows, now);
    EvictFind(Live(l.windows, now), s.maxTrackedKeys, k);
  }

  lemma {:induction false} RunIsDistinct(s: Settings, reqs: seq<Request>)
    ensures DistinctKeys(Run(s, reqs).windows)
  {
    if reqs != [] {
      var before, r := reqs[..|reqs| - 1], reqs[|reqs| - 1];
      RunIsDistinct(s, before);
      var l := Run(s, before);
      CleanUpFind(s, l, r.at, r.key);
      hide CleanedUp;
      PutIs(CleanedUp(s, l, r.at), r.key, Next(s.quota, Find(CleanedUp(s, l, r.at), r.key), r.at));
    }
  }

  lemma {:induction false} CountsAreAtLeastOne(q: Quota, reqs: seq<Request>, key: string)
    ensures KeyWindow(q, reqs, key).Some? ==> KeyWindow(q, reqs, key).value.count >= 1
  {
    if reqs != [] { CountsAreAtLeastOne(q, reqs[..|reqs| - 1], key); }
  }

  /** A request is decided as by the key's own window exactly when the key is not forgotten;
      then the window becomes the key's own next one. */
  lemma DecidedExactly(s: Settings, before: seq<Request>, r: Request)
    requires s.quota.Valid()
    requires Find(Run(s, before).windows, r.key) in {None, KeyWindow(s.quota, before, r.key)}
    ensures var own := KeyWindow(s.quota, before, r.key); var found := Find(CleanedUp(s, Run(s, before), r.at), r.key);
      && (Decide(s, Run(s, before), r) == Admit(s.quota, own, r.at) <==> !Forgotten(s, before, r))
      && (!Forgotten(s, before, r) ==> Next(s.quota, found, r.at) == Next(s.quota, own, r.at))
  {
    RunIsDistinct(s, before);
    CleanUpFind(s, Run(s, before), r.at, r.key);
    CountsAreAtLeastOne(s.quota, before, r.key);
    hide Run, KeyWindow, CleanedUp, DistinctKeys;
  }

  /** A key that is remembered has its own window in the map or none. */
  lemma {:induction false} RememberedWindow(s: Settings, reqs: seq<Request>, key: string)
    requires s.quota.Valid() && Remembers(s, reqs, key)
    ensures Find(Run(s, reqs).windows, key) in {None, KeyWindow(s.quota, reqs, key)}
  {
    if reqs != [] {
      var before, r := reqs[..|reqs| - 1], reqs[|reqs| - 1];
      RemembersBefore(s, reqs, key);
      RememberedWindow(s, before, key);
      var l := Run(s, before);
      RunIsDistinct(s, before);
      CleanUpFind(s, l, r.at, key);
      if r.key == key { DecidedExactly(s, before, r); }
      hide CleanedUp, Forgotten, Next;
      var ws := CleanedUp(s, l, r.at);
      PutIs(ws, r.key, Next(s.quota, Find(ws, r.key), r.at));
    }
  }

  lemma RemembersBefore(s: Settings, reqs: seq<Request>, key: string)
    requires reqs != []
    ensures var before, r := reqs[..|reqs| - 1], reqs[|reqs| - 1];
      Remembers(s, reqs, key) <==> Remembers(s, before, key) && (r.key == key ==> !Forgotten(s, before, r))
  {
    hide Forgotten;
    var before := reqs[..|reqs| - 1];
    assert forall n | 0 <= n < |before| :: reqs[..n] == before[..n] && reqs[n] == before[n];
  }

  lemma IsolatedBefore(s: Settings, reqs: seq<Request>, key: string)
    requires reqs != []
    ensures var n := |reqs| - 1;
      KeyIsolated(s, reqs, key) <==> KeyIsolated(s, reqs[..n], key) && (reqs[n].key == key ==> Isolated(s, reqs, n))
  {
    var before := reqs[..|reqs| - 1];
    hide Isolated;
    forall i | 0 <= i < |before| ensures Isolated(s, reqs, i) <==> Isolated(s, before, i) {
      assert reqs[..i] == before[..i] && reqs[i] == before[i];
      SameIsolated(s, reqs, before, i);
    }
  }

  lemma SameIsolated(s: Settings, reqs: seq<Request>, before: seq<Request>, i: nat)
    requires i < |reqs| && i < |before| && reqs[..i] == before[..i] && reqs[i] == before[i]
    ensures Isolated(s, reqs, i) <==> Isolated(s, before, i)
  {
    hide Decide, Run, Admit, KeyWindow;
  }

  /** The limiter answers all the requests for a key as the key's own fixed window would
      exactly when none of them finds the key forgotten, whatever the other keys do. */
  lemma {:induction false} KeyIsolatedExactly(s: Settings, reqs: seq<Request>, key: string)
    requires s.quota.Valid()
    ensures KeyIsolated(s, reqs, key) <==> Remembers(s, reqs, key)
  {
    if reqs != [] {
      var before, r := reqs[..|reqs| - 1], reqs[|reqs| - 1];
      KeyIsolatedExactly(s, before, key);
      IsolatedBefore(s, reqs, key);
      RemembersBefore(s, reqs, key);
      hide Remembers, KeyIsolated, Forgotten;
      if Remembers(s, before, key) && r.key == key {
        RememberedWindow(s, before, key);
        DecidedExactly(s, before, r);
      }
    }
  }

  /** In every run all decisions are those of the keys' own fixed windows exactly when no key
      is forgotten. */
  lemma KeysAreIsolated(s: Settings, reqs: seq<Request>)
    requires s.quota.Valid()
    ensures |Decisions(s, reqs)| == |reqs|
    ensures (forall i :: 0 <= i < |reqs| ==>
               Decisions(s, reqs)[i] == Admit(s.quota, KeyWindow(s.quota, reqs[..i], reqs[i].key), reqs[i].at))
            <==> (forall key :: Remembers(s, reqs, key))
  {
    DecisionsAre(s, reqs);
    forall key { KeyIsolatedExactly(s, reqs, key); }
    forall i | 0 <= i < |reqs|
      ensures Isolated(s, reqs, i)
              <==> Decisions(s, reqs)[i] == Admit(s.quota, KeyWindow(s.quota, reqs[..i], reqs[i].key), reqs[i].at)
    {
    }
    hide Isolated, Remembers, Decisions, KeyWindow, Admit;
    if forall i :: 0 <= i < |reqs| ==> Isolated(s, reqs, i) {
    } else {
      var i :| 0 <= i < |reqs| && !Isolated(s, reqs, i);
      assert !KeyIsolated(s, reqs, reqs[i].key);
    }
  }

  // ---- Without eviction no key is forgotten ----

  /** A clean-up that keeps less than the live windows. */
  predicate Evicts(s: Settings, l: Limiter, now: int) {
    CleanedUp(s, l, now) != l.windows && CleanedUp(s, l, now) != Live(l.windows, now)
  }

  ghost predicate EvictsNothing(s: Settings, reqs: seq<Request>) {
    forall n :: 0 <= n < |reqs| ==> !Evicts(s, Run(s, reqs[..n]), reqs[n].at)
  }

  /** A slot is the key's own window, unless that window is over and the slot was removed. */
  ghost predicate Tracks(found: Option<Window>, own: Option<Window>, now: int) {
    found == own || (found.None? && Over(own, now))
  }

  ghost predicate TracksAll(q: Quota, reqs: seq<Request>, ws: seq<Slot>, now: int) {
    forall k :: Tracks(Find(ws, k), KeyWindow(q, reqs, k), now)
  }

  lemma CleanUpTracks(s: Settings, reqs: seq<Request>, l: Limiter, before: int, now: int)
    requires DistinctKeys(l.windows) && TracksAll(s.quota, reqs, l.windows, before) && before <= now
    requires !Evicts(s, l, now)
    ensures TracksAll(s.quota, reqs, CleanedUp(s, l, now), now)
  {
    LiveIs(l.windows, now);
    hide CleanedUp, Live, Find, KeyWindow, DistinctKeys;
  }

  ghost function LastAt(reqs: seq<Request>, otherwise: int): int {
    if reqs == [] then otherwise else reqs[|reqs| - 1].at
  }

  lemma NoEvictionBefore(s: Settings, reqs: seq<Request>)
    requires reqs != [] && InOrder(reqs) && EvictsNothing(s, reqs)
    ensures var before, r := reqs[..|reqs| - 1], reqs[|reqs| - 1];
      InOrder(before) && EvictsNothing(s, before) && !Evicts(s, Run(s, before), r.at) && LastAt(before, r.at) <= r.at
  {
    hide Evicts, Run;
    var before := reqs[..|reqs| - 1];
    assert forall n | 0 <= n < |before| :: reqs[..n] == before[..n] && reqs[n] == before[n];
  }

  lemma {:induction false} EveryKeyTracked(s: Settings, reqs: seq<Request>, otherwise: int)
    requires InOrder(reqs) && EvictsNothing(s, reqs)
    ensures TracksAll(s.quota, reqs, Run(s, reqs).windows, LastAt(reqs, otherwise))
  {
    if reqs != [] {
      var before, r := reqs[..|reqs| - 1], reqs[|reqs| - 1];
      NoEvictionBefore(s, reqs);
      EveryKeyTracked(s, before, r.at);
      var l := Run(s, before);
      RunIsDistinct(s, before);
      CleanUpTracks(s, before, l, LastAt(before, r.at), r.at);
      CleanUpFind(s, l, r.at, r.key);
      var ws := CleanedUp(s, l, r.at);
      var w := Next(s.quota, Find(ws, r.key), r.at);
      hide CleanedUp, Find, EvictsNothing, DistinctKeys;
      assert Tracks(Find(ws, r.key), KeyWindow(s.quota, before, r.key), r.at);
      assert w == Next(s.quota, KeyWindow(s.quota, before, r.key), r.at);
      PutIs(ws, r.key, w);
      forall k ensures Tracks(Find(Put(ws, r.key, w), k), KeyWindow(s.quota, reqs, k), r.at) {
        assert Tracks(Find(ws, k), KeyWindow(s.quota, before, k), r.at);
      }
    }
  }

  /** In runs in time order whose clean-ups drop nothing but expired windows, no key is
      forgotten, however many keys come and go. */
  lemma {:induction false} NoEvictionRemembers(s: Settings, reqs: seq<Request>, key: string)
    requires InOrder(reqs) && EvictsNothing(s, reqs)
    ensures Remembers(s, reqs, key)
  {
    if reqs != [] {
      var before, r := reqs[..|reqs| - 1], reqs[|reqs| - 1];
      NoEvictionBefore(s, reqs);
      NoEvictionRemembers(s, before, key);
      RemembersBefore(s, reqs, key);
      RunIsDistinct(s, before);
      EveryKeyTracked(s, before, r.at);
      CleanUpTracks(s, before, Run(s, before), LastAt(before, r.at), r.at);
      hide Run, CleanedUp, Find, KeyWindow, Remembers, EvictsNothing;
      assert Tracks(Find(CleanedUp(s, Run(s, before), r.at), r.key), KeyWindow(s.quota, before, r.key), r.at);
    }
  }

  lemma {:induction false} OnlyUsedKeys(s: Settings, reqs: seq<Request>)
    ensures forall x :: x in Run(s, reqs).windows ==> x.key in Keys(reqs)
  {
    if reqs != [] {
      var before, r := reqs[..|reqs| - 1], reqs[|reqs| - 1];
      assert before + [r] == reqs;
      MoreKeys(before, r);
      OnlyUsedKeys(s, before);
      var l := Run(s, before);
      CleanUpKeeps(l.windows, s.maxTrackedKeys, r.at);
      EvictKeeps(Live(l.windows, r.at), s.maxTrackedKeys);
      var ws := CleanedUp(s, l, r.at);
      hide CleanedUp, Keys;
      PutSize(ws, r.key, Next(s.quota, Find(ws, r.key), r.at));
    }
  }

  /** In particular while no more keys have been used than are tracked. */
  lemma FewKeysEvictNothing(s: Settings, reqs: seq<Request>)
    requires |Keys(reqs)| <= s.maxTrackedKeys
    ensures EvictsNothing(s, reqs)
  {
    forall n | 0 <= n < |reqs| ensures !Evicts(s, Run(s, reqs[..n]), reqs[n].at) {
      var l := Run(s, reqs[..n]);
      OnlyUsedKeys(s, reqs[..n]);
      RunIsDistinct(s, reqs[..n]);
      NoMoreSlotsThanKeys(l.windows, Keys(reqs[..n]));
      forall k | k in Keys(reqs[..n]) ensures k in Keys(reqs) {
        var i :| 0 <= i < n && reqs[..n][i].key == k;
        assert reqs[i].key == k;
      }
      SubsetSize(Keys(reqs[..n]), Keys(reqs));
      CleanUpKeeps(l.windows, s.maxTrackedKeys, reqs[n].at);
      hide Run, Keys, DistinctKeys, Live;
    }
  }

  /** Eviction makes a difference: with one tracked key, a key's second request within its
      window is taken for its first. */
  lemma EvictionForgets(q: Quota)
    requires q.windowMs >= 1
    ensures Forgotten(Settings(q, 1), [Request("a", 0), Request("b", 0)], Request("a", 0))
  {
    var s := Settings(q, 1);
    var ra, rb := Request("a", 0), Request("b", 0);
    var w := Window(1, q.windowMs);
    var x, y := Slot("a", w), Slot("b", w);
    assert "a"[0] != "b"[0] && "a" != "" && "b" != "";
    assert [ra][..0] == [] && [ra, rb][..1] == [ra];
    assert [x][1..] == [] && [x, y][1..] == [y] && [y][1..] == [];
    assert Run(s, [ra]) == Limiter([x], 1);
    assert Live([], 0) == [] && Live([y], 0) == [y] && Live([x], 0) == [x] && Live([x, y], 0) == [x, y];
    assert Find([x], "b") == Find([x][1..], "b") && Put([x], "b", w) == [x] + Put([x][1..], "b", w);
    assert Run(s, [ra, rb]) == Consumed(s, Limiter([x], 1), rb) == Limiter([x, y], 2);
    assert EvictOldest([x, y], 1) == EvictOldest([x, y][1..], 1) == [y];
    assert CleanedUp(s, Limiter([x, y], 2), 0) == [y];
    assert Find([y], "a") == Find([y][1..], "a") == None;
    assert KeyWindow(q, [ra], "a") == Some(w);
    assert KeyWindow(q, [ra, rb], "a") == Some(w);
  }

  /** How many requests of the key the limiter itself admitted in the interval. */
  function AdmittedBy(decisions: seq<Decision>, reqs: seq<Request>, key: string, from: int, to: int): nat
    requires |decisions| == |reqs|
  {
    if reqs == [] then 0 else
    var n := |reqs| - 1;
    AdmittedBy(decisions[..n], reqs[..n], key, from, to)
    + if reqs[n].key == key && from <= reqs[n].at <= to && decisions[n].allowed then 1 else 0
  }

  lemma {:induction false} AdmittedAsSpecified(s: Settings, reqs: seq<Request>, key: string, from: int, to: int)
    requires KeyIsolated(s, reqs, key) && |Decisions(s, reqs)| == |reqs|
    ensures AdmittedBy(Decisions(s, reqs), reqs, key, from, to) == Admitted(s.quota, reqs, key, from, to)
  {
    if reqs != [] {
      var before, n := reqs[..|reqs| - 1], |reqs| - 1;
      IsolatedBefore(s, reqs, key);
      DecisionsAre(s, before);
      AdmittedAsSpecified(s, before, key, from, to);
      hide KeyIsolated, Decide, Admit, Run, KeyWindow;
      assert Decisions(s, reqs)[..n] == Decisions(s, before);
    }
  }

  /** The requests the memory limiter lets through for a key that it remembers number, in any
      interval, at most the quota for each window that can meet the interval. */
  lemma MemoryRateBound(s: Settings, reqs: seq<Request>, key: string, from: int, length: nat)
    requires s.quota.Valid() && InOrder(reqs) && Remembers(s, reqs, key)
    ensures |Decisions(s, reqs)| == |reqs|
    ensures AdmittedBy(Decisions(s, reqs), reqs, key, from, from + length)
            <= Ceiling(s.quota.max) * (CeilingQuotient(length, s.quota.windowMs) + 1)
  {
    hide *;
    DecisionsAre(s, reqs);
    KeyIsolatedExactly(s, reqs, key);
    AdmittedAsSpecified(s, reqs, key, from, from + length);
    RateBound(s.quota, reqs, key, from, length);
  }

  class MemoryFixedWindowLimiter {
    const settings: Settings
    var windows: seq<Slot>
    var operations: nat

    ghost function View(): Limiter reads this {
      Limiter(windows, operations)
    }

    constructor (settings: Settings)
      requires settings.quota.max > 0.0 && settings.quota.windowMs > 0
      ensures this.settings == settings && View() == EMPTY
    {
      this.settings := settings;
      windows, operations := [], 0;
    }

    /** A quota or window that is not positive is rejected. */
    static method Create(settings: Settings) returns (r: Result<MemoryFixedWindowLimiter, string>)
      ensures r == Err("INVALID_LIMIT_MAX") <==> settings.quota.max <= 0.0
      ensures r == Err("INVALID_LIMIT_WINDOW") <==> settings.quota.max > 0.0 && settings.quota.windowMs <= 0
      ensures settings.quota.max > 0.0 && settings.quota.windowMs > 0 ==>
        r.Ok? && fresh(r.value) && r.value.settings == settings && r.value.View() == EMPTY
    {
      if settings.quota.max <= 0.0 { return Err("INVALID_LIMIT_MAX"); }
      if settings.quota.windowMs <= 0 { return Err("INVALID_LIMIT_WINDOW"); }
      var limiter := new MemoryFixedWindowLimiter(settings);
      r := Ok(limiter);
    }

    method Consume(key: string, now: int) returns (d: Decision)
      modifies this
      ensures View() == Consumed(settings, old(View()), Request(key, now))
      ensures d == Decide(settings, old(View()), Request(key, now))
    {
      operations := operations + 1;
      if operations % CLEANUP_INTERVAL == 0 || |windows| >= settings.maxTrackedKeys {
        RemoveExpired(now);
      }
      var q := settings.quota;
      var current := Find(windows, key);
      if current.None? || current.value.resetAt <= now {
        var resetAt := now + q.windowMs;
        windows := Put(windows, key, Window(1, resetAt));
        return Decision(true, q.max, q.max - 1.0, resetAt);
      }
      if current.value.count as real >= q.max {
        PutBack(windows, key);
        return Decision(false, q.max, 0.0, current.value.resetAt);
      }
      var count := current.value.count + 1;
      windows := Put(windows, key, current.value.(count := count));
      return Decision(true, q.max, MaxReal(0.0, q.max - count as real), current.value.resetAt);
    }

    method RemoveExpired(now: int)
      modifies this`windows
      ensures windows == Purged(old(windows), settings.maxTrackedKeys, now)
    {
      var kept, i := [], 0;
      while i < |windows|
        invariant 0 <= i <= |windows| && windows == old(windows)
        invariant kept + Live(windows[i..], now) == Live(windows, now)
      {
        assert windows[i..][1..] == windows[i + 1..];
        if windows[i].window.resetAt > now { kept := kept + [windows[i]]; }
        i := i + 1;
      }
      assert windows[i..] == [];
      assert kept == Live(old(windows), now);
      windows := kept;
      while |windows| > settings.maxTrackedKeys
        invariant EvictOldest(windows, settings.maxTrackedKeys)
                  == Purged(old(windows), settings.maxTrackedKeys, now)
        decreases |windows|
      {
        if windows == [] || windows[0].key == "" { break; }
        windows := windows[1..];
      }
    }

    /** Without a key, or with the empty one, everything goes. */
    method Clear(key: Option<string>)
      modifies this`windows
      ensures windows == if key.Some? && key.value != "" then Others(old(windows), key.value) else []
      ensures forall k :: Find(windows, k)
                          == if key.Some? && key.value != "" && k != key.value then Find(old(windows), k) else None
    {
      if key.Some? && key.value != "" {
        var kept, i := [], 0;
        while i < |windows|
          invariant 0 <= i <= |windows| && windows == old(windows)
          invariant kept + Others(windows[i..], key.value) == Others(windows, key.value)
        {
          assert windows[i..][1..] == windows[i + 1..];
          if windows[i].key != key.value { kept := kept + [windows[i]]; }
          i := i + 1;
        }
        windows := kept;
        assert kept == Others(old(windows), key.value);
        forall k ensures Find(windows, k) == if k == key.value then None else Find(old(windows), k) {
          OthersFind(old(windows), key.value, k);
        }
      } else {
        windows := [];
      }
    }
  }

  function Others(ws: seq<Slot>, key: string): seq<Slot> {
    if ws == [] then [] else (if ws[0].key == key then [] else [ws[0]]) + Others(ws[1..], key)
  }

  lemma {:induction false} OthersFind(ws: seq<Slot>, key: string, k: string)
    ensures Find(Others(ws, key), k) == if k == key then None else Find(ws, k)
  {
    if ws != [] {
      OthersFind(ws[1..], key, k);
      if ws[0].key != key {
        assert Others(ws, key)[1..] == Others(ws[1..], key);
      } else {
        assert Others(ws, key) == Others(ws[1..], key);
      }
    }
  }

  /** Setting a key to the window it already has changes nothing. */
  lemma {:induction false} PutBack(ws: seq<Slot>, key: string)
    requires Find(ws, key).Some?
    ensures Put(ws, key, Find(ws, key).value) == ws
  {
    if ws[0].key != key { PutBack(ws[1..], key); }
  }
}
