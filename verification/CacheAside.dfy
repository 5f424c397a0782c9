/** cacheAside and its breaker, packages/platform-sdk/src/cache-aside.ts: interleaved callers
    that try the cache, then share one load per key through the module-level `inFlight` map.

    A step is the code one caller or one pending promise runs between two awaits. The cache
    may fail, forget or answer with any value once handed to it; telemetry may throw. */
module CacheAside {
  import opened Prelude
  import opened Collections

  type Key = string
  type Caller = nat
  type BreakerId = nat
  type Value = int  // opaque: only copied and compared

  datatype Breaker = Breaker(threshold: int, resetMs: int, failures: int, openUntil: int)

  function NewBreaker(threshold: int, resetMs: int): Breaker {
    Breaker(threshold, resetMs, 0, 0)
  }

  predicate MayPass(b: Breaker, now: int) {
    now >= b.openUntil
  }

  function Succeeded(b: Breaker): Breaker {
    b.(failures := 0, openUntil := 0)
  }

  function HasFailed(b: Breaker, now: int): Breaker {
    if b.failures + 1 >= b.threshold then b.(failures := b.failures + 1, openUntil := now + b.resetMs)
    else b.(failures := b.failures + 1)
  }

  /** What a call is waiting for. */
  datatype Phase =
    | Getting               // cache.get
    | NotingHit(hit: Value)     // telemetry, inside the try
    | NotingMiss
    | NotingError           // telemetry, outside it
    | NotingBypass
    | Joined                // somebody else's load
    | Owning                // its own load
    | Returned(value: Value)
    | Thrown

  /** `flight` names the call whose pending promise this one awaits or awaited. */
  datatype Call = Call(key: Key, breaker: BreakerId, phase: Phase, flight: Option<Caller>)

  /** The pending promise of the call that registered it. */
  datatype Pending =
    | Loading
    | Storing(value: Value)     // cache.set
    | Reporting(value: Value)   // telemetry after a failed cache.set
    | Resolved(value: Value)
    | Rejected

  datatype State = State(
    now: int,
    breakers: map<BreakerId, Breaker>,
    calls: map<Caller, Call>,
    pending: map<Caller, Pending>,
    inFlight: map<Key, Caller>,
    loaded: set<(Key, Value)>,    // every value a load returned
    offered: set<(Key, Value)>)   // every value handed to the cache

  datatype Step =
    | Tick(ms: nat)
    | Start(c: Caller, key: Key, breaker: BreakerId)
    | Got(c: Caller, answer: Result<Option<Value>, ()>)
    | Noted(c: Caller, ok: bool)
    | Loaded(c: Caller, result: Result<Value, ()>)
    | Stored(c: Caller, ok: bool)
    | Reported(c: Caller, ok: bool)
    | Settled(c: Caller)

  function Init(breakers: map<BreakerId, Breaker>): State {
    State(0, breakers, map[], map[], map[], {}, {})
  }

  predicate At(s: State, c: Caller, p: Phase) {
    c in s.calls && s.calls[c].phase == p
  }

  predicate Noting(p: Phase) {
    p.NotingHit? || p.NotingMiss? || p.NotingError? || p.NotingBypass?
  }

  predicate Enabled(s: State, step: Step) {
    match step
    case Tick(_) => true
    case Start(c, _, b) => c !in s.calls && b in s.breakers
    case Got(c, answer) =>
      c in s.calls && s.calls[c].phase.Getting?
      && (answer.Ok? && answer.value.Some? ==> (s.calls[c].key, answer.value.value) in s.offered)
    case Noted(c, _) => c in s.calls && Noting(s.calls[c].phase)
    case Loaded(c, _) => c in s.calls && c in s.pending && s.pending[c].Loading?
    case Stored(c, _) => c in s.calls && c in s.pending && s.pending[c].Storing?
    case Reported(c, _) => c in s.calls && c in s.pending && s.pending[c].Reporting?
    case Settled(c) =>
      c in s.calls && (s.calls[c].phase.Joined? || s.calls[c].phase.Owning?) && s.calls[c].flight.Some?
      && s.calls[c].flight.value in s.pending
      && (s.pending[s.calls[c].flight.value].Resolved? || s.pending[s.calls[c].flight.value].Rejected?)
  }

  function To(s: State, c: Caller, p: Phase): State
    requires c in s.calls
  {
    s.(calls := s.calls[c := s.calls[c].(phase := p)])
  }

  function Pend(s: State, c: Caller, p: Pending): State {
    s.(pending := s.pending[c := p])
  }

  function Failure(s: State, c: Caller): State
    requires c in s.calls
  {
    var b := s.calls[c].breaker;
    if b in s.breakers then s.(breakers := s.breakers[b := HasFailed(s.breakers[b], s.now)]) else s
  }

  function Success(s: State, c: Caller): State
    requires c in s.calls
  {
    var b := s.calls[c].breaker;
    if b in s.breakers then s.(breakers := s.breakers[b := Succeeded(s.breakers[b])]) else s
  }

  predicate MayTry(s: State, c: Caller)
    requires c in s.calls
  {
    s.calls[c].breaker in s.breakers && MayPass(s.breakers[s.calls[c].breaker], s.now)
  }

  /** After the cache has not helped: join the load in flight, or start and register one. */
  function JoinOrLoad(s: State, c: Caller): State
    requires c in s.calls
  {
    var k := s.calls[c].key;
    if k in s.inFlight then
      s.(calls := s.calls[c := s.calls[c].(phase := Joined, flight := Some(s.inFlight[k]))])
    else
      s.(calls := s.calls[c := s.calls[c].(phase := Owning, flight := Some(c))],
         pending := s.pending[c := Loading], inFlight := s.inFlight[k := c])
  }

  /** The finally block: drop the entry if it is still this call's. */
  function CleanedUp(s: State, c: Caller): State
    requires c in s.calls
  {
    var k := s.calls[c].key;
    if k in s.inFlight && s.inFlight[k] == c then s.(inFlight := s.inFlight - {k}) else s
  }

  /** One step; a step that cannot happen now leaves the state alone. */
  function Apply(s: State, step: Step): State {
    if !Enabled(s, step) then s else
    match step
    case Tick(ms) => s.(now := s.now + ms)
    case Start(c, k, b) =>
      s.(calls := s.calls[c := Call(k, b, if MayPass(s.breakers[b], s.now) then Getting else NotingBypass, None)])
    case Got(c, Ok(answer)) =>
      To(Success(s, c), c, match answer case Some(v) => NotingHit(v) case None => NotingMiss)
    case Got(c, Err(_)) => To(Failure(s, c), c, NotingError)
    case Noted(c, ok) =>
      (match s.calls[c].phase
       case NotingHit(v) => if ok then To(s, c, Returned(v)) else To(Failure(s, c), c, NotingError)
       case NotingMiss => if ok then JoinOrLoad(s, c) else To(Failure(s, c), c, NotingError)
       case _ => if ok then JoinOrLoad(s, c) else To(s, c, Thrown))
    case Loaded(c, Ok(v)) =>
      var t := s.(loaded := s.loaded + {(s.calls[c].key, v)});
      if MayTry(s, c) then Pend(t, c, Storing(v)).(offered := s.offered + {(s.calls[c].key, v)})
      else Pend(t, c, Resolved(v))
    case Loaded(c, Err(_)) => Pend(s, c, Rejected)
    case Stored(c, ok) =>
      var v := s.pending[c].value;
      if ok then Pend(Success(s, c), c, Resolved(v)) else Pend(Failure(s, c), c, Reporting(v))
    case Reported(c, ok) => Pend(s, c, if ok then Resolved(s.pending[c].value) else Rejected)
    case Settled(c) =>
      var t := if s.calls[c].phase.Owning? then CleanedUp(s, c) else s;
      (match s.pending[s.calls[c].flight.value]
       case Resolved(v) => To(t, c, Returned(v))
       case _ => To(t, c, Thrown))
  }

  function Exec(s: State, steps: seq<Step>): State {
    if steps == [] then s else Apply(Exec(s, steps[..|steps| - 1]), steps[|steps| - 1])
  }

  // ---- Invariant ----

  /** `inFlight` holds exactly the calls that have registered and not yet cleaned up. */
  ghost predicate FlightsInv(s: State) {
    && (forall k :: k in s.inFlight ==>
          s.inFlight[k] in s.calls && s.calls[s.inFlight[k]].phase.Owning? && s.calls[s.inFlight[k]].key == k)
    && (forall c :: c in s.calls && s.calls[c].phase.Owning? ==>
          s.calls[c].key in s.inFlight && s.inFlight[s.calls[c].key] == c)
  }

  predicate Unsettled(p: Pending) {
    p.Loading? || p.Storing? || p.Reporting?
  }

  /** A pending promise belongs to a call, which awaits it until it has settled. */
  ghost predicate PendingInv(s: State) {
    forall c :: c in s.pending ==>
      && c in s.calls && s.calls[c].flight == Some(c)
      && (Unsettled(s.pending[c]) ==> s.calls[c].phase.Owning?)
      && (s.pending[c].Storing? || s.pending[c].Reporting? || s.pending[c].Resolved? ==>
            (s.calls[c].key, s.pending[c].value) in s.loaded)
  }

  ghost predicate CallInv(s: State, call: Call) {
    && (call.flight.Some? ==> call.flight.value in s.pending && call.flight.value in s.calls
                              && s.calls[call.flight.value].key == call.key
                              && (call.phase.Joined? || call.phase.Owning?
                                  || call.phase.Returned? || call.phase.Thrown?))
    && (call.phase.Joined? || call.phase.Owning? ==> call.flight.Some?)
    && (call.phase.NotingHit? ==> (call.key, call.phase.hit) in s.loaded)
    && (call.phase.Returned? ==> (call.key, call.phase.value) in s.loaded)
    && (call.phase.Returned? && call.flight.Some? ==> s.pending[call.flight.value] == Resolved(call.phase.value))
    && (call.phase.Thrown? && call.flight.Some? ==> s.pending[call.flight.value] == Rejected)
  }

  ghost predicate CallsInv(s: State) {
    && (forall c :: c in s.calls ==> CallInv(s, s.calls[c]))
    && (forall c :: c in s.calls && s.calls[c].phase.Owning? ==> s.calls[c].flight == Some(c))
    && s.offered <= s.loaded
  }

  /** Everything but the breakers and the clock. */
  ghost predicate Core(s: State) {
    FlightsInv(s) && PendingInv(s) && CallsInv(s)
  }

  ghost predicate SameCore(s: State, t: State) {
    t == s.(now := t.now, breakers := t.breakers)
  }

  lemma FrameCore(s: State, t: State)
    requires Core(s) && SameCore(s, t)
    ensures Core(t)
  {
    forall c | c in t.calls ensures CallInv(t, t.calls[c]) { assert CallInv(s, s.calls[c]); }
  }

  /** A call that is in no flight, and may have become over. */
  ghost predicate OnItsOwn(s: State, call: Call) {
    call.flight.None? && !call.phase.Joined? && !call.phase.Owning? && CallInv(s, call)
  }

  lemma OwnStepKeepsCore(s: State, c: Caller, call: Call)
    requires Core(s) && OnItsOwn(s, call) && (c in s.calls ==> OnItsOwn(s, s.calls[c]))
    ensures Core(s.(calls := s.calls[c := call]))
  {
    var t := s.(calls := s.calls[c := call]);
    forall d | d in t.calls ensures CallInv(t, t.calls[d]) {
      if d != c { assert CallInv(s, s.calls[d]); }
    }
  }

  lemma JoinKeepsFlights(s: State, c: Caller)
    requires Core(s) && c in s.calls && OnItsOwn(s, s.calls[c])
    ensures FlightsInv(JoinOrLoad(s, c))
  {
    hide PendingInv, CallsInv;
  }

  lemma JoinKeepsPending(s: State, c: Caller)
    requires Core(s) && c in s.calls && OnItsOwn(s, s.calls[c])
    ensures PendingInv(JoinOrLoad(s, c))
  {
    hide FlightsInv, CallsInv;
  }

  lemma JoinKeepsCalls(s: State, c: Caller)
    requires Core(s) && c in s.calls && OnItsOwn(s, s.calls[c])
    ensures CallsInv(JoinOrLoad(s, c))
  {
    var t := JoinOrLoad(s, c);
    var k := s.calls[c].key;
    assert c !in s.pending;
    if k in s.inFlight { assert CallInv(s, s.calls[s.inFlight[k]]); }
    forall d | d in t.calls ensures CallInv(t, t.calls[d]) { assert CallInv(s, s.calls[d]); }
  }

  lemma JoinKeepsCore(s: State, c: Caller)
    requires Core(s) && c in s.calls && OnItsOwn(s, s.calls[c])
    ensures Core(JoinOrLoad(s, c))
  {
    hide JoinOrLoad;
    JoinKeepsFlights(s, c);
    JoinKeepsPending(s, c);
    JoinKeepsCalls(s, c);
  }

  /** A pending promise that has not settled moves on, with a value that was loaded. */
  lemma PendKeepsCore(s: State, c: Caller, p: Pending)
    requires Core(s) && c in s.pending && Unsettled(s.pending[c]) && !p.Loading?
    requires p.Rejected? || (s.calls[c].key, p.value) in s.loaded
    ensures Core(Pend(s, c, p))
  {
    var t := Pend(s, c, p);
    forall d | d in t.calls ensures CallInv(t, t.calls[d]) { assert CallInv(s, s.calls[d]); }
  }

  lemma LoadKeepsCore(s: State, entry: (Key, Value), offered: bool)
    requires Core(s)
    ensures Core(s.(loaded := s.loaded + {entry}, offered := if offered then s.offered + {entry} else s.offered))
  {
    var t := s.(loaded := s.loaded + {entry}, offered := if offered then s.offered + {entry} else s.offered);
    forall d | d in t.calls ensures CallInv(t, t.calls[d]) { assert CallInv(s, s.calls[d]); }
  }

  lemma SettleKeepsCore(s: State, c: Caller)
    requires Core(s) && Enabled(s, Settled(c))
    ensures Core(Apply(s, Settled(c)))
  {
    hide Apply;
    SettleKeepsFlights(s, c);
    SettleKeepsPending(s, c);
    SettleKeepsCalls(s, c);
  }

  lemma SettleKeepsPending(s: State, c: Caller)
    requires Core(s) && Enabled(s, Settled(c))
    ensures PendingInv(Apply(s, Settled(c)))
  {
    assert CallInv(s, s.calls[c]);
  }

  lemma SettleKeepsCalls(s: State, c: Caller)
    requires Core(s) && Enabled(s, Settled(c))
    ensures CallsInv(Apply(s, Settled(c)))
  {
    var t := Apply(s, Settled(c));
    assert CallInv(s, s.calls[c]);
    forall d | d in t.calls ensures CallInv(t, t.calls[d]) { assert CallInv(s, s.calls[d]); }
  }

  lemma SettleKeepsFlights(s: State, c: Caller)
    requires Core(s) && Enabled(s, Settled(c))
    ensures FlightsInv(Apply(s, Settled(c)))
  {
  }

  lemma StepKeepsCore(s: State, step: Step)
    requires Core(s) && Enabled(s, step)
    ensures Core(Apply(s, step))
  {
    if step.Tick? || step.Start? {
      if step.Tick? { FrameCore(s, Apply(s, step)); }
      else { OwnStepKeepsCore(s, step.c, Apply(s, step).calls[step.c]); }
    } else {
      var c := step.c;
      assert CallInv(s, s.calls[c]);
      match step
      case Got(_, Ok(answer)) =>
        FrameCore(s, Success(s, c));
        OwnStepKeepsCore(Success(s, c), c, Apply(s, step).calls[c]);
      case Got(_, Err(_)) =>
        FrameCore(s, Failure(s, c));
        OwnStepKeepsCore(Failure(s, c), c, Apply(s, step).calls[c]);
      case Noted(_, ok) => NotedKeepsCore(s, c, ok);
      case Loaded(_, Ok(v)) =>
        LoadKeepsCore(s, (s.calls[c].key, v), MayTry(s, c));
        var t := Apply(s, step);
        PendKeepsCore(s.(loaded := t.loaded, offered := t.offered), c, t.pending[c]);
      case Loaded(_, Err(_)) => PendKeepsCore(s, c, Rejected);
      case Stored(_, ok) =>
        FrameCore(s, if ok then Success(s, c) else Failure(s, c));
        PendKeepsCore(if ok then Success(s, c) else Failure(s, c), c, Apply(s, step).pending[c]);
      case Reported(_, ok) => PendKeepsCore(s, c, Apply(s, step).pending[c]);
      case Settled(_) => SettleKeepsCore(s, c);
    }
  }

  lemma NotedKeepsCore(s: State, c: Caller, ok: bool)
    requires Core(s) && Enabled(s, Noted(c, ok))
    ensures Core(Apply(s, Noted(c, ok)))
  {
    assert CallInv(s, s.calls[c]);
    var p := s.calls[c].phase;
    if ok && !p.NotingHit? {
      JoinKeepsCore(s, c);
    } else {
      var t := if !ok && (p.NotingHit? || p.NotingMiss?) then Failure(s, c) else s;
      FrameCore(s, t);
      OwnStepKeepsCore(t, c, Apply(s, Noted(c, ok)).calls[c]);
    }
  }

  lemma {:induction false} RunKeepsCore(s: State, steps: seq<Step>)
    requires Core(s)
    ensures Core(Exec(s, steps))
  {
    if steps != [] {
      RunKeepsCore(s, steps[..|steps| - 1]);
      var before := Exec(s, steps[..|steps| - 1]);
      if Enabled(before, steps[|steps| - 1]) { StepKeepsCore(before, steps[|steps| - 1]); }
    }
  }

  /** The promise that call c registered for the key has not settled. */
  predicate LoadPending(s: State, k: Key, c: Caller) {
    c in s.calls && s.calls[c].key == k && c in s.pending && Unsettled(s.pending[c])
  }

  /** In every interleaving, with cache errors, open breakers, failing loads and throwing
      telemetry: at most one load per key is running, and a key is in `inFlight` exactly
      from the registration of a load until its originator's clean-up. */
  lemma SingleFlight(breakers: map<BreakerId, Breaker>, steps: seq<Step>)
    ensures var s := Exec(Init(breakers), steps);
      && (forall k, c, d :: LoadPending(s, k, c) && LoadPending(s, k, d) ==> c == d)
      && (forall c :: c in s.pending ==> c in s.calls)
      && (forall c :: c in s.calls ==>
            (s.calls[c].phase.Owning? <==> s.calls[c].key in s.inFlight && s.inFlight[s.calls[c].key] == c))
      && (forall k :: k in s.inFlight ==> s.inFlight[k] in s.calls && s.calls[s.inFlight[k]].key == k)
  {
    RunKeepsCore(Init(breakers), steps);
  }

  /** Every value returned came from a load of that key, and all calls of one flight share
      its outcome. */
  lemma Transparency(breakers: map<BreakerId, Breaker>, steps: seq<Step>)
    ensures var s := Exec(Init(breakers), steps);
      && (forall c :: c in s.calls && s.calls[c].phase.Returned? ==>
            (s.calls[c].key, s.calls[c].phase.value) in s.loaded)
      && (forall c, d :: Flew(s, c) && Flew(s, d) && s.calls[c].flight == s.calls[d].flight ==>
            s.calls[c].phase == s.calls[d].phase && s.calls[c].key == s.calls[d].key)
  {
    RunKeepsCore(Init(breakers), steps);
    var s := Exec(Init(breakers), steps);
    forall c | c in s.calls ensures CallInv(s, s.calls[c]) {}
  }

  /** A call that is over and awaited a flight. */
  predicate Flew(s: State, c: Caller) {
    c in s.calls && (s.calls[c].phase.Returned? || s.calls[c].phase.Thrown?) && s.calls[c].flight.Some?
  }

  /** Nobody waits for a flight that is not under way: its promise has settled, or the load,
      the store or the report it waits for is pending and can complete. */
  lemma NobodyWaitsInVain(breakers: map<BreakerId, Breaker>, steps: seq<Step>, c: Caller)
    requires c in Exec(Init(breakers), steps).calls
    requires var p := Exec(Init(breakers), steps).calls[c].phase; p.Joined? || p.Owning?
    ensures var s := Exec(Init(breakers), steps); var f := s.calls[c].flight;
      && f.Some? && f.value in s.pending
      && (Enabled(s, Settled(c)) || Enabled(s, Stored(f.value, true)) || Enabled(s, Reported(f.value, true))
          || forall v :: Enabled(s, Loaded(f.value, Ok(v))))
  {
    RunKeepsCore(Init(breakers), steps);
    var s := Exec(Init(breakers), steps);
    assert CallInv(s, s.calls[c]);
  }

  /** The identity test in the finally block never fails. */
  lemma CleanUpFindsItsOwn(breakers: map<BreakerId, Breaker>, steps: seq<Step>, c: Caller)
    ensures var s := Exec(Init(breakers), steps);
      c in s.calls && s.calls[c].phase.Owning? ==> CleanedUp(s, c).inFlight == s.inFlight - {s.calls[c].key}
                                                   && s.calls[c].key in s.inFlight
  {
    RunKeepsCore(Init(breakers), steps);
  }

  // ---- Every call comes to an end ----

  /** The most steps that a call itself can still take ... */
  function PhaseWork(p: Phase): nat {
    match p
    case Getting => 7
    case NotingHit(_) => 6
    case NotingMiss => 6
    case NotingError => 5
    case NotingBypass => 5
    case Joined => 1
    case Owning => 1
    case Returned(_) => 0
    case Thrown => 0
  }

  /** ... and its pending promise. */
  function PendingWork(p: Pending): nat {
    match p
    case Loading => 3
    case Storing(_) => 2
    case Reporting(_) => 1
    case Resolved(_) => 0
    case Rejected => 0
  }

  function CallWork(s: State, c: Caller): nat
    requires c in s.calls
  {
    PhaseWork(s.calls[c].phase) + if c in s.pending then PendingWork(s.pending[c]) else 0
  }

  /** The steps owed, one element each. */
  function Owed(s: State): set<(Caller, nat)> {
    set c, i: nat | c in s.calls && i < CallWork(s, c) :: (c, i)
  }

  predicate Moving(step: Step) {
    !step.Tick? && !step.Start?
  }

  /** Call c owes less than before, everybody else as much. */
  ghost predicate OwesLess(s: State, t: State, c: Caller) {
    && t.calls.Keys == s.calls.Keys && c in s.calls
    && CallWork(t, c) < CallWork(s, c)
    && forall d :: d in s.calls && d != c ==> CallWork(t, d) == CallWork(s, d)
  }

  lemma JoinOwesLess(s: State, c: Caller)
    requires Core(s) && c in s.calls && OnItsOwn(s, s.calls[c]) && PhaseWork(s.calls[c].phase) >= 5
    ensures OwesLess(s, JoinOrLoad(s, c), c)
  {
    assert c !in s.pending;
    hide Core, OnItsOwn;
  }

  lemma NotedOwesLess(s: State, c: Caller, ok: bool)
    requires Core(s) && Enabled(s, Noted(c, ok))
    ensures OwesLess(s, Apply(s, Noted(c, ok)), c)
  {
    assert CallInv(s, s.calls[c]);
    assert c !in s.pending;
    if ok && !s.calls[c].phase.NotingHit? {
      JoinOwesLess(s, c);
      hide JoinOrLoad, Core;
    } else {
      hide Core;
    }
  }

  lemma PendingOwesLess(s: State, step: Step)
    requires Core(s) && Enabled(s, step) && (step.Loaded? || step.Stored? || step.Reported?)
    ensures OwesLess(s, Apply(s, step), step.c)
  {
    hide Core;
  }

  lemma GotOwesLess(s: State, c: Caller, answer: Result<Option<Value>, ()>)
    requires Enabled(s, Got(c, answer))
    ensures OwesLess(s, Apply(s, Got(c, answer)), c)
  {
  }

  lemma SettledOwesLess(s: State, c: Caller)
    requires Enabled(s, Settled(c))
    ensures OwesLess(s, Apply(s, Settled(c)), c)
  {
  }

  lemma OneOwesLess(s: State, step: Step)
    requires Core(s) && Moving(step) && Enabled(s, step)
    ensures OwesLess(s, Apply(s, step), step.c)
  {
    hide Core, Enabled, OwesLess, Apply;
    match step {
      case Noted(c, ok) => NotedOwesLess(s, c, ok);
      case Got(c, answer) => GotOwesLess(s, c, answer);
      case Settled(c) => SettledOwesLess(s, c);
      case _ => PendingOwesLess(s, step);
    }
  }

  lemma LessIsOwed(s: State, step: Step)
    requires Core(s) && Moving(step) && Enabled(s, step)
    ensures |Owed(Apply(s, step))| < |Owed(s)|
  {
    var t := Apply(s, step);
    OneOwesLess(s, step);
    hide Apply, Enabled, Core, CallWork;
    assert (step.c, CallWork(t, step.c)) in Owed(s) && (step.c, CallWork(t, step.c)) !in Owed(t);
    SubsetSize(Owed(t), Owed(s));
  }

  /** A schedule in which nobody new comes, and every other step can be taken, or time passes. */
  ghost predicate Settling(s: State, steps: seq<Step>) {
    steps == []
    || var before, last := steps[..|steps| - 1], steps[|steps| - 1];
       Settling(s, before) && (last.Tick? || (Moving(last) && Enabled(Exec(s, before), last)))
  }

  function Moves(steps: seq<Step>): nat {
    if steps == [] then 0 else Moves(steps[..|steps| - 1]) + if Moving(steps[|steps| - 1]) then 1 else 0
  }

  lemma {:induction false} MovesAreOwed(s: State, steps: seq<Step>)
    requires Core(s) && Settling(s, steps)
    ensures Moves(steps) + |Owed(Exec(s, steps))| <= |Owed(s)|
  {
    if steps != [] {
      var before, last := steps[..|steps| - 1], steps[|steps| - 1];
      MovesAreOwed(s, before);
      RunKeepsCore(s, before);
      var t := Exec(s, before);
      if Moving(last) {
        LessIsOwed(t, last);
      } else {
        assert Owed(Apply(t, last)) == Owed(t);
      }
    }
  }

  predicate Over(s: State, c: Caller) {
    c in s.calls && (s.calls[c].phase.Returned? || s.calls[c].phase.Thrown?)
  }

  lemma SomethingCanMove(s: State, c: Caller) returns (step: Step)
    requires Core(s) && c in s.calls && !Over(s, c)
    ensures Moving(step) && Enabled(s, step)
  {
    var call := s.calls[c];
    assert CallInv(s, call);
    if call.phase.Getting? {
      step := Got(c, Err(()));
    } else if Noting(call.phase) {
      step := Noted(c, true);
    } else {
      var f := call.flight.value;
      match s.pending[f]
      case Loading => step := Loaded(f, Err(()));
      case Storing(_) => step := Stored(f, true);
      case Reporting(_) => step := Reported(f, true);
      case _ => step := Settled(c);
    }
  }

  /** Once nobody new comes, every schedule has a bounded number of steps besides the passing of
      time, and when none is left every call has returned or thrown and `inFlight` is empty. */
  lemma EveryCallEnds(breakers: map<BreakerId, Breaker>, before: seq<Step>, after: seq<Step>)
    requires Settling(Exec(Init(breakers), before), after)
    ensures var s := Exec(Init(breakers), before); var t := Exec(s, after);
      && Moves(after) <= |Owed(s)|
      && ((forall step :: Moving(step) ==> !Enabled(t, step)) ==>
            (forall c :: c in t.calls ==> Over(t, c)) && t.inFlight == map[])
  {
    var s := Exec(Init(breakers), before);
    RunKeepsCore(Init(breakers), before);
    MovesAreOwed(s, after);
    RunKeepsCore(s, after);
    var t := Exec(s, after);
    hide Exec, Enabled, Moving;
    if forall step :: Moving(step) ==> !Enabled(t, step) {
      forall c | c in t.calls ensures Over(t, c) {
        if !Over(t, c) { var step := SomethingCanMove(t, c); }
      }
      NothingInFlight(t);
    }
  }

  lemma NothingInFlight(s: State)
    requires Core(s) && forall c :: c in s.calls ==> Over(s, c)
    ensures s.inFlight == map[]
  {
    assert s.inFlight.Keys == {};
  }

  // ---- What a call returns ----

  /** Steps of others: nothing of call c itself or of its pending promise. */
  ghost predicate Leaves(c: Caller, steps: seq<Step>) {
    forall i :: 0 <= i < |steps| && !steps[i].Tick? ==> steps[i].c != c
  }

  /** The same for call c and the promise it may have registered. */
  ghost predicate SameCall(s: State, t: State, c: Caller) {
    && c in s.calls && c in t.calls && t.calls[c] == s.calls[c]
    && (c in t.pending <==> c in s.pending) && (c in s.pending ==> t.pending[c] == s.pending[c])
    && s.offered <= t.offered
  }

  lemma OtherNotedLeavesCall(s: State, d: Caller, ok: bool, c: Caller)
    requires c in s.calls && d != c
    ensures SameCall(s, Apply(s, Noted(d, ok)), c)
  {
  }

  lemma OtherStepLeavesCall(s: State, step: Step, c: Caller)
    requires c in s.calls && (step.Tick? || step.c != c)
    ensures SameCall(s, Apply(s, step), c)
  {
    if step.Noted? {
      hide Apply, SameCall;
      OtherNotedLeavesCall(s, step.c, step.ok, c);
    } else {
      hide JoinOrLoad, MayTry, Succeeded, HasFailed, MayPass;
    }
  }

  lemma {:induction false} OthersLeaveCall(s: State, c: Caller, others: seq<Step>)
    requires c in s.calls && Leaves(c, others)
    ensures SameCall(s, Exec(s, others), c)
  {
    if others != [] {
      var n := |others| - 1;
      OthersLeaveCall(s, c, others[..n]);
      OtherStepLeavesCall(Exec(s, others[..n]), others[n], c);
    }
  }

  /** A call that asks the cache, is answered with a value and can report it returns that value,
      and never loads anything, whatever the others do. */
  lemma HitIsReturned(s: State, c: Caller, k: Key, b: BreakerId, v: Value,
                      one: seq<Step>, two: seq<Step>, three: seq<Step>)
    requires Core(s) && c !in s.calls && b in s.breakers && s.now >= s.breakers[b].openUntil
    requires Leaves(c, one) && Leaves(c, two) && Leaves(c, three)
    requires (k, v) in s.offered
    ensures var asked := Exec(Apply(s, Start(c, k, b)), one);
      var answered := Exec(Apply(asked, Got(c, Ok(Some(v)))), two);
      var over := Exec(Apply(answered, Noted(c, true)), three);
      && At(asked, c, Getting) && At(answered, c, NotingHit(v)) && At(over, c, Returned(v))
      && c !in asked.pending && c !in answered.pending && c !in over.pending
  {
    hide Exec;
    var asks := Apply(s, Start(c, k, b));
    assert c !in s.pending;
    OthersLeaveCall(asks, c, one);
    var asked := Exec(asks, one);
    OthersLeaveCall(Apply(asked, Got(c, Ok(Some(v)))), c, two);
    var answered := Exec(Apply(asked, Got(c, Ok(Some(v)))), two);
    OthersLeaveCall(Apply(answered, Noted(c, true)), c, three);
  }

  /** A call that has not asked the cache and will not. */
  predicate AsksNothing(s: State, c: Caller) {
    c in s.calls && match s.calls[c].phase
    case NotingBypass => true
    case Joined => true
    case Owning => true
    case Returned(_) => s.calls[c].flight.Some?
    case Thrown => true
    case _ => false
  }

  lemma StillAsksNothing(s: State, step: Step, c: Caller)
    requires AsksNothing(s, c)
    ensures AsksNothing(Apply(s, step), c)
  {
    hide MayTry, Succeeded, HasFailed, MayPass;
  }

  /** A call that starts while its breaker is open never asks the cache, whatever happens. */
  lemma {:induction false} OpenBreakerBypasses(s: State, c: Caller, k: Key, b: BreakerId, after: seq<Step>)
    requires c !in s.calls && b in s.breakers && s.now < s.breakers[b].openUntil
    ensures AsksNothing(Exec(Apply(s, Start(c, k, b)), after), c)
  {
    var t := Apply(s, Start(c, k, b));
    if after != [] {
      OpenBreakerBypasses(s, c, k, b, after[..|after| - 1]);
      hide AsksNothing, Apply;
      StillAsksNothing(Exec(t, after[..|after| - 1]), after[|after| - 1], c);
    }
  }

  /** A call whose cache did not help, once it has reported that, joins the flight of its key if
      there is one, and otherwise registers its own and loads. A failed cache or a report of a
      hit or miss that fails is reported as an error first. */
  lemma MissJoinsOrLoads(s: State, c: Caller)
    requires c in s.calls
    ensures var k := s.calls[c].key; var p := s.calls[c].phase; var t := Apply(s, Noted(c, true));
      p.NotingMiss? || p.NotingError? || p.NotingBypass? ==>
        if k in s.inFlight
        then t.calls[c].phase == Joined && t.calls[c].flight == Some(s.inFlight[k]) && t.inFlight == s.inFlight
             && t.pending == s.pending
        else t.calls[c].phase == Owning && t.calls[c].flight == Some(c) && t.inFlight == s.inFlight[k := c]
             && t.pending == s.pending[c := Loading]
    ensures At(s, c, Getting) ==>
      At(Apply(s, Got(c, Ok(None))), c, NotingMiss) && At(Apply(s, Got(c, Err(()))), c, NotingError)
    ensures c in s.calls && (s.calls[c].phase.NotingHit? || s.calls[c].phase.NotingMiss?) ==>
      At(Apply(s, Noted(c, false)), c, NotingError)
  {
  }

  /** The originator's promise once its load has come back with a value, and the offer to the
      cache, if it was made, has been answered. */
  function CameBack(s: State, c: Caller, passed: bool, stored: bool): State {
    if !passed then s
    else if stored then Apply(s, Stored(c, true))
    else Apply(Apply(s, Stored(c, false)), Reported(c, true))
  }

  predicate Passes(s: State, c: Caller)
    requires c in s.calls
  {
    s.calls[c].breaker in s.breakers && s.now >= s.breakers[s.calls[c].breaker].openUntil
  }

  lemma LoadedStep(s: State, c: Caller, v: Value)
    requires c in s.calls && c in s.pending && s.pending[c] == Loading
    ensures var t := Apply(s, Loaded(c, Ok(v)));
      && c in t.calls && t.calls[c] == s.calls[c]
      && c in t.pending && t.pending[c] == (if Passes(s, c) then Storing(v) else Resolved(v))
      && (Passes(s, c) ==> (s.calls[c].key, v) in t.offered)
  {
  }

  lemma CameBackResolved(s: State, c: Caller, passed: bool, stored: bool, v: Value)
    requires c in s.calls && c in s.pending && s.pending[c] == (if passed then Storing(v) else Resolved(v))
    ensures var t := CameBack(s, c, passed, stored);
      c in t.calls && t.calls[c] == s.calls[c] && c in t.pending && t.pending[c] == Resolved(v)
  {
    hide Succeeded, HasFailed;
  }

  lemma OwnerReturns(s: State, c: Caller, v: Value)
    requires c in s.calls && c in s.pending && s.pending[c] == Resolved(v)
    requires s.calls[c].phase == Owning && s.calls[c].flight == Some(c)
    ensures At(Apply(s, Settled(c)), c, Returned(v))
  {
  }

  /** The originator of a load that succeeds returns what was loaded. If its breaker passes when
      the load comes back, the value is offered to the cache first, and returned even if the cache
      refuses it and that can be reported. */
  lemma LoadedIsReturned(s: State, c: Caller, v: Value, stored: bool, one: seq<Step>, two: seq<Step>)
    requires Core(s) && c in s.pending && s.pending[c] == Loading
    requires Leaves(c, one) && Leaves(c, two)
    ensures var loaded := Exec(Apply(s, Loaded(c, Ok(v))), one);
      && (Passes(s, c) ==> (s.calls[c].key, v) in loaded.offered)
      && At(Apply(Exec(CameBack(loaded, c, Passes(s, c), stored), two), Settled(c)), c, Returned(v))
  {
    assert s.calls[c].phase == Owning && s.calls[c].flight == Some(c);
    hide Exec, Apply, Core, CameBack, Passes, Leaves, At;
    LoadedStep(s, c, v);
    OthersLeaveCall(Apply(s, Loaded(c, Ok(v))), c, one);
    var loaded := Exec(Apply(s, Loaded(c, Ok(v))), one);
    CameBackResolved(loaded, c, Passes(s, c), stored, v);
    var settled := CameBack(loaded, c, Passes(s, c), stored);
    OthersLeaveCall(settled, c, two);
    OwnerReturns(Exec(settled, two), c, v);
  }

  /** Whoever awaits a flight that has settled gets its value, or throws if it failed. */
  lemma SettledFlightAnswers(s: State, c: Caller)
    requires Core(s) && c in s.calls && (s.calls[c].phase.Joined? || s.calls[c].phase.Owning?)
    ensures var f := s.calls[c].flight;
      && f.Some? && f.value in s.pending
      && (s.pending[f.value].Resolved? ==> At(Apply(s, Settled(c)), c, Returned(s.pending[f.value].value)))
      && (s.pending[f.value].Rejected? ==> At(Apply(s, Settled(c)), c, Thrown))
  {
    assert CallInv(s, s.calls[c]);
    hide Core;
  }

  // ---- The breaker and the settled cache calls ----

  /** What a step tells a breaker: a cache call of a caller that uses it has succeeded or
      failed. A hit or miss that cannot be reported counts as a failure too. */
  function Told(s: State, step: Step, b: BreakerId): Option<bool> {
    if !Enabled(s, step) then None else
    match step
    case Got(c, answer) => if s.calls[c].breaker == b then Some(answer.Ok?) else None
    case Noted(c, false) =>
      if s.calls[c].breaker == b && (s.calls[c].phase.NotingHit? || s.calls[c].phase.NotingMiss?)
      then Some(false) else None
    case Stored(c, ok) => if s.calls[c].breaker == b then Some(ok) else None
    case _ => None
  }

  /** Failures since the last success. */
  function FailuresSince(breakers: map<BreakerId, Breaker>, steps: seq<Step>, b: BreakerId): int
    requires b in breakers
  {
    if steps == [] then breakers[b].failures
    else
      var before, last := steps[..|steps| - 1], steps[|steps| - 1];
      match Told(Exec(Init(breakers), before), last, b)
      case None => FailuresSince(breakers, before, b)
      case Some(ok) => if ok then 0 else FailuresSince(breakers, before, b) + 1
  }

  /** The time of the last of them. */
  function LastFailure(breakers: map<BreakerId, Breaker>, steps: seq<Step>, b: BreakerId): Option<int> {
    if steps == [] then None
    else
      var before, last := steps[..|steps| - 1], steps[|steps| - 1];
      var s := Exec(Init(breakers), before);
      match Told(s, last, b)
      case None => LastFailure(breakers, before, b)
      case Some(ok) => if ok then None else Some(s.now)
  }

  ghost predicate BreakersFollow(s: State, step: Step) {
    && Apply(s, step).breakers.Keys == s.breakers.Keys
    && forall b :: b in s.breakers ==>
         Apply(s, step).breakers[b] == match Told(s, step, b)
           case None => s.breakers[b]
           case Some(ok) => if ok then Succeeded(s.breakers[b]) else HasFailed(s.breakers[b], s.now)
  }

  lemma NotedTellsTheBreaker(s: State, c: Caller, ok: bool)
    ensures BreakersFollow(s, Noted(c, ok))
  {
    hide Succeeded, HasFailed;
  }

  lemma GotTellsTheBreaker(s: State, c: Caller, answer: Result<Option<Value>, ()>)
    ensures BreakersFollow(s, Got(c, answer))
  {
    hide Succeeded, HasFailed;
  }

  lemma StoredTellsTheBreaker(s: State, c: Caller, ok: bool)
    ensures BreakersFollow(s, Stored(c, ok))
  {
    hide Succeeded, HasFailed;
  }

  lemma OthersTellNothing(s: State, step: Step)
    requires !step.Noted? && !step.Got? && !step.Stored?
    ensures BreakersFollow(s, step)
  {
    hide Succeeded, HasFailed, MayTry;
  }

  lemma ToldIsTheBreaker(s: State, step: Step)
    ensures BreakersFollow(s, step)
  {
    hide BreakersFollow;
    match step {
      case Noted(c, ok) => NotedTellsTheBreaker(s, c, ok);
      case Got(c, answer) => GotTellsTheBreaker(s, c, answer);
      case Stored(c, ok) => StoredTellsTheBreaker(s, c, ok);
      case _ => OthersTellNothing(s, step);
    }
  }

  /** In every interleaving a breaker counts the failures of the cache calls since the last
      success among them, and it is open, for its reset time since the last of them, exactly
      when they have reached the threshold. */
  lemma {:induction false} OpenOnlyAtThreshold(breakers: map<BreakerId, Breaker>, steps: seq<Step>, b: BreakerId)
    requires b in breakers && breakers[b].openUntil == 0
    ensures var s := Exec(Init(breakers), steps);
      && s.breakers.Keys == breakers.Keys
      && s.breakers[b].failures == FailuresSince(breakers, steps, b)
      && s.breakers[b].threshold == breakers[b].threshold && s.breakers[b].resetMs == breakers[b].resetMs
      && s.breakers[b].openUntil == match LastFailure(breakers, steps, b)
        case Some(at) =>
          if FailuresSince(breakers, steps, b) >= breakers[b].threshold then at + breakers[b].resetMs else 0
        case None => 0
  {
    if steps != [] {
      var before := steps[..|steps| - 1];
      OpenOnlyAtThreshold(breakers, before, b);
      ToldIsTheBreaker(Exec(Init(breakers), before), steps[|steps| - 1]);
      hide Apply, Told;
    }
  }

  class CacheCircuitBreaker {
    const threshold: int
    const resetMs: int
    var failures: int
    var openUntil: int

    ghost function View(): Breaker reads this {
      Breaker(threshold, resetMs, failures, openUntil)
    }

    constructor (threshold: int := 3, resetMs: int := 10000)
      ensures View() == NewBreaker(threshold, resetMs)
    {
      this.threshold, this.resetMs := threshold, resetMs;
      failures, openUntil := 0, 0;
    }

    method CanTry(now: int) returns (ok: bool)
      ensures ok == MayPass(View(), now)
    {
      ok := now >= openUntil;
    }

    method Success()
      modifies this
      ensures View() == Succeeded(old(View()))
    {
      failures, openUntil := 0, 0;
    }

    method Failure(now: int)
      modifies this
      ensures View() == HasFailed(old(View()), now)
    {
      failures := failures + 1;
      if failures >= threshold { openUntil := now + resetMs; }
    }
  }

  /** The module's state, with the two segments of cacheAside that touch `inFlight`. */
  class Flights {
    var inFlight: map<Key, Caller>
    ghost var calls: map<Caller, Call>
    ghost var pending: map<Caller, Pending>
    ghost var rest: State

    ghost function View(): State reads this {
      rest.(inFlight := inFlight, calls := calls, pending := pending)
    }

    constructor (ghost breakers: map<BreakerId, Breaker>)
      ensures View() == Init(breakers)
    {
      inFlight, calls, pending := map[], map[], map[];
      rest := Init(breakers);
    }

    /** Once the cache has not helped: the flight to join, or none when this call loads. */
    method LookUp(c: Caller, key: Key) returns (existing: Option<Caller>)
      requires c in calls && calls[c].key == key
      modifies this
      ensures View() == JoinOrLoad(old(View()), c)
      ensures existing == if key in old(inFlight) then Some(old(inFlight)[key]) else None
    {
      if key in inFlight {
        existing := Some(inFlight[key]);
        calls := calls[c := calls[c].(phase := Joined, flight := Some(inFlight[key]))];
      } else {
        existing := None;
        inFlight := inFlight[key := c];
        calls := calls[c := calls[c].(phase := Owning, flight := Some(c))];
        pending := pending[c := Loading];
      }
    }

    method Finally(c: Caller, key: Key)
      requires c in calls && calls[c].key == key
      modifies this
      ensures View() == CleanedUp(old(View()), c)
    {
      if key in inFlight && inFlight[key] == c { inFlight := inFlight - {key}; }
    }
  }
}
