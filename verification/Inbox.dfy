/** consumeInboxOnce of adapters/postgres/src/outbox.ts: interleaved consumers that look an
    event up, run their handler and insert it under the primary key `event_id`.

    An insert waits while another open transaction holds an insert of the same key, and
    fails if that key is committed; only committed rows are seen by the SELECT. */
module Inbox {
  type Event = nat
  type CallId = nat

  datatype Phase =
    | Looking    // about to SELECT
    | Seen       // found the event; about to COMMIT
    | Handling   // the handler is running
    | Handled    // about to INSERT
    | Inserted   // about to COMMIT
    | ReturnedTrue | ReturnedFalse | Threw

  datatype Call = Call(event: Event, consumer: string, phase: Phase)

  /** `rows` maps each committed event to the call that committed it; `handled` lists the
      calls whose handler ran to its end. */
  datatype State = State(calls: map<CallId, Call>, rows: map<Event, CallId>, handled: seq<CallId>)

  datatype Step =
    | Start(call: CallId, event: Event, consumer: string)
    | Select(call: CallId)
    | Finish(call: CallId)                // COMMIT after the event was seen
    | Handle(call: CallId)
    | Insert(call: CallId)
    | Commit(call: CallId, answered: bool) // the commit may succeed with its answer lost
    | Fail(call: CallId)                  // any error or crash: the transaction is gone

  const EMPTY := State(map[], map[], [])

  predicate Over(p: Phase) {
    p == ReturnedTrue || p == ReturnedFalse || p == Threw
  }

  predicate In(s: State, c: CallId, p: Phase) {
    c in s.calls && s.calls[c].phase == p
  }

  /** The call returned true for the event. */
  predicate ConsumedBy(s: State, c: CallId, e: Event) {
    In(s, c, ReturnedTrue) && s.calls[c].event == e
  }

  /** Another open transaction has inserted the same key. */
  predicate Blocked(s: State, c: CallId) {
    c in s.calls && exists d | d in s.calls :: d != c && In(s, d, Inserted) && s.calls[d].event == s.calls[c].event
  }

  predicate Enabled(s: State, step: Step) {
    match step
    case Start(c, _, _) => c !in s.calls
    case Select(c) => In(s, c, Looking)
    case Finish(c) => In(s, c, Seen)
    case Handle(c) => In(s, c, Handling)
    case Insert(c) => In(s, c, Handled) && !Blocked(s, c)
    case Commit(c, _) => In(s, c, Inserted)
    case Fail(c) => c in s.calls && !Over(s.calls[c].phase)
  }

  function Move(s: State, c: CallId, p: Phase): State
    requires c in s.calls
  {
    s.(calls := s.calls[c := s.calls[c].(phase := p)])
  }

  /** One step; a step that cannot happen now leaves the state alone. */
  function Apply(s: State, step: Step): State {
    if !Enabled(s, step) then s else
    match step
    case Start(c, e, name) => s.(calls := s.calls[c := Call(e, name, Looking)])
    case Select(c) => Move(s, c, if s.calls[c].event in s.rows then Seen else Handling)
    case Finish(c) => Move(s, c, ReturnedFalse)
    case Handle(c) => Move(s, c, Handled).(handled := s.handled + [c])
    case Insert(c) => Move(s, c, if s.calls[c].event in s.rows then Threw else Inserted)
    case Commit(c, answered) =>
      Move(s, c, if answered then ReturnedTrue else Threw).(rows := s.rows[s.calls[c].event := c])
    case Fail(c) => Move(s, c, Threw)
  }

  function Exec(s: State, steps: seq<Step>): State {
    if steps == [] then s else Apply(Exec(s, steps[..|steps| - 1]), steps[|steps| - 1])
  }

  ghost predicate CallInv(s: State, c: CallId, call: Call) {
    && (call.phase in {Handled, Inserted, ReturnedTrue} ==> c in s.handled)
    && (call.phase in {Seen, ReturnedFalse} ==> call.event in s.rows && s.rows[call.event] != c)
    && (call.phase == Inserted ==> call.event !in s.rows)
    && (call.phase == ReturnedTrue ==> call.event in s.rows && s.rows[call.event] == c)
  }

  ghost predicate CallsInv(s: State) {
    && (forall c :: c in s.calls ==> CallInv(s, c, s.calls[c]))
    && (forall i :: 0 <= i < |s.handled| ==> s.handled[i] in s.calls)
  }

  /** No two open transactions hold an insert of the same key. */
  ghost predicate KeysInv(s: State) {
    forall c, d :: In(s, c, Inserted) && In(s, d, Inserted) && s.calls[c].event == s.calls[d].event ==> c == d
  }

  ghost predicate RowInv(s: State, e: Event, c: CallId) {
    c in s.calls && s.calls[c].event == e && c in s.handled && s.calls[c].phase in {ReturnedTrue, Threw}
  }

  ghost predicate RowsInv(s: State) {
    forall e :: e in s.rows ==> RowInv(s, e, s.rows[e])
  }

  ghost predicate Inv(s: State) {
    CallsInv(s) && KeysInv(s) && RowsInv(s)
  }

  lemma StepKeepsCalls(s: State, step: Step)
    requires Inv(s) && Enabled(s, step)
    ensures CallsInv(Apply(s, step))
  {
    var t, c := Apply(s, step), step.call;
    if c in s.calls { assert CallInv(s, c, s.calls[c]); }
    forall d | d in t.calls ensures CallInv(t, d, t.calls[d]) {
      if d != c {
        assert CallInv(s, d, s.calls[d]);
        assert t.calls[d] == s.calls[d];
        if step.Commit? && s.calls[d].phase == Inserted {
          assert In(s, c, Inserted) && In(s, d, Inserted);
        }
      }
    }
  }

  lemma StepKeepsKeys(s: State, step: Step)
    requires Inv(s) && Enabled(s, step)
    ensures KeysInv(Apply(s, step))
  {
    var t, c := Apply(s, step), step.call;
    forall d | d != c && In(t, d, Inserted) ensures In(s, d, Inserted) && t.calls[d] == s.calls[d] {}
  }

  lemma StepKeepsRows(s: State, step: Step)
    requires Inv(s) && Enabled(s, step)
    ensures RowsInv(Apply(s, step))
    ensures forall e :: e in s.rows ==> e in Apply(s, step).rows && Apply(s, step).rows[e] == s.rows[e]
  {
    var t, c := Apply(s, step), step.call;
    if c in s.calls { assert CallInv(s, c, s.calls[c]); }
    forall e | e in t.rows ensures RowInv(t, e, t.rows[e]) {
      if e in s.rows { assert RowInv(s, e, s.rows[e]); }
    }
  }

  lemma StepKeepsInv(s: State, step: Step)
    requires Inv(s)
    ensures Inv(Apply(s, step))
    ensures forall e :: e in s.rows ==> e in Apply(s, step).rows && Apply(s, step).rows[e] == s.rows[e]
  {
    if Enabled(s, step) {
      StepKeepsCalls(s, step);
      StepKeepsKeys(s, step);
      StepKeepsRows(s, step);
    }
  }

  lemma {:induction false} RunKeepsInv(s: State, steps: seq<Step>)
    requires Inv(s)
    ensures Inv(Exec(s, steps))
    ensures forall e :: e in s.rows ==> e in Exec(s, steps).rows && Exec(s, steps).rows[e] == s.rows[e]
  {
    if steps != [] {
      RunKeepsInv(s, steps[..|steps| - 1]);
      StepKeepsInv(Exec(s, steps[..|steps| - 1]), steps[|steps| - 1]);
    }
  }

  /** However an event is redelivered and its consumers interleave: at most one call per
      event returns true; that call's handler finished and its row is the committed one; and
      a false means that some other call's handler finished and its row was committed. */
  lemma ConsumedOnce(steps: seq<Step>)
    ensures var s := Exec(EMPTY, steps);
      && (forall e, c, d :: ConsumedBy(s, c, e) && ConsumedBy(s, d, e) ==> c == d)
      && (forall e, c :: ConsumedBy(s, c, e) ==> c in s.handled && e in s.rows && s.rows[e] == c)
      && (forall c :: In(s, c, ReturnedFalse) ==>
            s.calls[c].event in s.rows && s.rows[s.calls[c].event] != c && s.rows[s.calls[c].event] in s.handled)
  {
    RunKeepsInv(EMPTY, steps);
    var s := Exec(EMPTY, steps);
    forall c | c in s.calls ensures CallInv(s, c, s.calls[c]) {}
  }

  lemma ExecOne(s: State, steps: seq<Step>, step: Step)
    ensures Exec(s, steps + [step]) == Apply(Exec(s, steps), step)
  {
    assert (steps + [step])[..|steps|] == steps;
  }

  /** A call that can only be told that its event was seen already. */
  ghost predicate Late(s: State, c: CallId) {
    && (c !in s.calls ==> c !in s.handled)
    && (c in s.calls ==> c !in s.handled && s.calls[c].event in s.rows
                         && s.calls[c].phase in {Looking, Seen, ReturnedFalse, Threw})
  }

  /** Once an event is committed no call that starts later, under whatever consumer name,
      ever runs its handler for it: the key is the event alone. */
  lemma {:induction false} OneConsumerPerEvent(s: State, steps: seq<Step>, c: CallId)
    requires Inv(s) && c !in s.calls
    requires forall i :: 0 <= i < |steps| && steps[i].Start? && steps[i].call == c ==> steps[i].event in s.rows
    ensures Late(Exec(s, steps), c)
  {
    if steps != [] {
      var before := steps[..|steps| - 1];
      OneConsumerPerEvent(s, before, c);
      RunKeepsInv(s, before);
      LateStep(Exec(s, before), steps[|steps| - 1], c);
    }
  }

  lemma LateStep(s: State, step: Step, c: CallId)
    requires Inv(s) && Late(s, c)
    requires step.Start? && step.call == c ==> step.event in s.rows
    ensures Late(Apply(s, step), c)
  {
    StepKeepsInv(s, step);
    if Enabled(s, step) && step.call != c && c in s.calls {
      assert Apply(s, step).calls[c] == s.calls[c];
    }
  }

  lemma BothLook()
    ensures Apply(Apply(Apply(Apply(EMPTY, Start(0, 7, "a")), Start(1, 7, "a")), Select(0)), Select(1))
            == State(map[0 := Call(7, "a", Handling), 1 := Call(7, "a", Handling)], map[], [])
  {
  }

  lemma BothHandle(s: State)
    requires s == State(map[0 := Call(7, "a", Handling), 1 := Call(7, "a", Handling)], map[], [])
    ensures var t := Apply(Apply(s, Handle(0)), Handle(1));
      t.handled == [0, 1] && t.calls == map[0 := Call(7, "a", Handled), 1 := Call(7, "a", Handled)]
  {
  }

  /** The handler itself may run twice: both calls look before either commits. */
  lemma HandlerMayRunTwice() returns (steps: seq<Step>)
    ensures Exec(EMPTY, steps).handled == [0, 1]
    ensures Exec(EMPTY, steps).calls.Keys == {0, 1}
    ensures forall c :: c in {0, 1} ==> Exec(EMPTY, steps).calls[c].event == 7
  {
    BothLook();
    BothHandle(State(map[0 := Call(7, "a", Handling), 1 := Call(7, "a", Handling)], map[], []));
    assert Exec(EMPTY, []) == EMPTY;
    hide Exec, Apply;
    var one := [] + [Start(0, 7, "a")];
    var two := one + [Start(1, 7, "a")];
    ExecOne(EMPTY, [], Start(0, 7, "a"));
    ExecOne(EMPTY, one, Start(1, 7, "a"));
    ExecOne(EMPTY, two, Select(0));
    ExecOne(EMPTY, two + [Select(0)], Select(1));
    ExecOne(EMPTY, two + [Select(0)] + [Select(1)], Handle(0));
    ExecOne(EMPTY, two + [Select(0)] + [Select(1)] + [Handle(0)], Handle(1));
    steps := two + [Select(0)] + [Select(1)] + [Handle(0)] + [Handle(1)];
  }

  // ---- consumeInboxOnce ----

  lemma {:induction false} ExecAppend(s: State, a: seq<Step>, b: seq<Step>)
    ensures Exec(s, a + b) == Exec(Exec(s, a), b)
  {
    if b == [] {
      assert a + b == a;
    } else {
      ExecAppend(s, a, b[..|b| - 1]);
      assert (a + b)[..|a + b| - 1] == a + b[..|b| - 1];
    }
  }

  ghost predicate Leaves(c: CallId, steps: seq<Step>) {
    forall i :: 0 <= i < |steps| ==> steps[i].call != c
  }

  lemma {:induction false} OthersLeaveCall(s: State, c: CallId, steps: seq<Step>)
    requires c in s.calls && Leaves(c, steps)
    ensures c in Exec(s, steps).calls && Exec(s, steps).calls[c] == s.calls[c]
  {
    if steps != [] { OthersLeaveCall(s, c, steps[..|steps| - 1]); }
  }

  /** The database all consumers share. */
  class Database {
    var state: State
    ghost var schedule: seq<Step>  // every step taken so far

    ghost predicate Valid() reads this {
      state == Exec(EMPTY, schedule)
    }

    constructor ()
      ensures Valid() && state == EMPTY
    {
      state, schedule := EMPTY, [];
    }

    method Take(step: Step)
      requires Valid()
      modifies this
      ensures Valid() && state == Apply(old(state), step) && schedule == old(schedule) + [step]
    {
      ExecOne(EMPTY, schedule, step);
      state, schedule := Apply(state, step), schedule + [step];
    }

    /** Everybody else's steps while call c awaits. */
    method Await(c: CallId, others: seq<Step>)
      requires Valid() && c in state.calls && Leaves(c, others)
      modifies this
      ensures Valid() && c in state.calls && state.calls[c] == old(state.calls[c])
      ensures forall e :: e in old(state.rows) ==> e in state.rows
      ensures others == [] ==> state == old(state)
      ensures old(schedule) <= schedule
    {
      OthersLeaveCall(state, c, others);
      RunKeepsInv(EMPTY, schedule);
      RunKeepsInv(state, others);
      ExecAppend(EMPTY, schedule, others);
      state, schedule := Exec(state, others), schedule + others;
    }

    method Give(c: CallId) returns (outcome: Outcome)
      requires Valid() && c in state.calls && !Over(state.calls[c].phase)
      modifies this
      ensures Valid() && outcome == Thrown
      ensures c in state.calls && state.calls[c] == old(state.calls[c]).(phase := Threw)
      ensures state.rows == old(state.rows) && schedule == old(schedule) + [Fail(c)]
    {
      Take(Fail(c));
      outcome := Thrown;
    }
  }

  datatype Outcome = Returned(first: bool) | Thrown | StillWaiting

  /** What the handler and the commit do, and what everybody else does at the n-th await. */
  datatype Answers = Answers(handles: bool, commits: bool, answered: bool, others: nat -> seq<Step>)

  /** A call that has ended, or waits, as the protocol records. */
  ghost predicate Ends(s: State, c: CallId, event: Event, r: Outcome) {
    && c in s.calls
    && s.calls[c].event == event
    && s.calls[c].phase == match r
         case Returned(first) => if first then ReturnedTrue else ReturnedFalse
         case Thrown => Threw
         case StillWaiting => Handled
  }

  /** Nobody else takes a step while the call awaits. */
  ghost predicate Undisturbed(a: Answers) {
    forall n: nat :: a.others(n) == []
  }

  /** A state the run went through after its first steps. */
  ghost predicate PassedThrough(before: seq<Step>, schedule: seq<Step>, s: State) {
    exists n :: |before| <= n <= |schedule| && s == Exec(EMPTY, schedule[..n])
  }

  lemma PassedNow(before: seq<Step>, schedule: seq<Step>)
    requires before <= schedule
    ensures PassedThrough(before, schedule, Exec(EMPTY, schedule))
  {
    assert schedule[..|schedule|] == schedule;
  }

  lemma PassedStays(before: seq<Step>, schedule: seq<Step>, later: seq<Step>, s: State)
    requires PassedThrough(before, schedule, s) && schedule <= later
    ensures PassedThrough(before, later, s)
  {
    var n :| |before| <= n <= |schedule| && s == Exec(EMPTY, schedule[..n]);
    assert later[..n] == schedule[..n];
  }

  /** No other call holds the key in an open transaction. */
  ghost predicate KeyFree(s: State, c: CallId, event: Event) {
    forall d :: d != c && In(s, d, Inserted) ==> s.calls[d].event != event
  }

  /** One call under arbitrary interference, with the states in which it looks and in which it is
      about to insert. It returns false exactly when it finds the event committed and its own
      commit succeeds. It returns true exactly when its handler and its commit succeed and, as it
      inserts, the event is not committed and no other call holds the key. */
  method ConsumeInboxOnce(db: Database, c: CallId, event: Event, consumer: string, a: Answers)
    returns (r: Outcome, ghost looking: State, ghost inserting: State)
    requires db.Valid() && c !in db.state.calls && forall n: nat :: Leaves(c, a.others(n))
    modifies db
    ensures db.Valid() && Ends(db.state, c, event, r)
    ensures PassedThrough(old(db.schedule), db.schedule, looking) && In(looking, c, Looking)
    ensures PassedThrough(old(db.schedule), db.schedule, inserting)
    ensures r == Returned(false) <==> event in looking.rows && a.commits
    ensures r == Returned(true) <==>
      a.handles && a.commits && a.answered && event !in inserting.rows && KeyFree(inserting, c, event)
    ensures event !in looking.rows && a.handles ==> In(inserting, c, Handled)
    ensures event in looking.rows ==> inserting == looking
    ensures a.handles && a.commits && event !in inserting.rows && KeyFree(inserting, c, event) ==>
      event in db.state.rows && db.state.rows[event] == c
    ensures event in old(db.state.rows) ==> r == Returned(false) || r == Thrown
    ensures Undisturbed(a) ==> looking.rows == old(db.state.rows) && inserting.rows == old(db.state.rows)
    ensures Undisturbed(a) && KeyFree(old(db.state), c, event) ==> KeyFree(inserting, c, event)
  {
    hide Exec, PassedThrough, Apply, KeyFree, Blocked;
    StartStep(db.state, c, event, consumer);
    db.Take(Start(c, event, consumer));
    db.Await(c, a.others(0));
    looking, inserting := db.state, db.state;
    ghost var looked := db.schedule;
    PassedNow(old(db.schedule), looked);
    SelectStep(db.state, c);
    db.Take(Select(c));
    if db.state.calls[c].phase == Seen {
      r := FinishSeen(db, c, a);
    } else {
      r, inserting := ConsumeUnseen(db, c, a, old(db.schedule));
    }
    PassedStays(old(db.schedule), looked, db.schedule, looking);
  }

  method FinishSeen(db: Database, c: CallId, a: Answers) returns (r: Outcome)
    requires db.Valid() && In(db.state, c, Seen) && Leaves(c, a.others(1))
    modifies db
    ensures db.Valid() && Ends(db.state, c, old(db.state.calls[c].event), r) && old(db.schedule) <= db.schedule
    ensures r == if a.commits then Returned(false) else Thrown
  {
    db.Await(c, a.others(1));
    if a.commits {
      db.Take(Finish(c));
      r := Returned(false);
    } else {
      r := db.Give(c);
    }
  }

  method ConsumeUnseen(db: Database, c: CallId, a: Answers, ghost before: seq<Step>)
    returns (r: Outcome, ghost inserting: State)
    requires db.Valid() && In(db.state, c, Handling) && forall n: nat :: Leaves(c, a.others(n))
    requires before <= db.schedule
    modifies db
    ensures db.Valid() && Ends(db.state, c, old(db.state.calls[c].event), r) && old(db.schedule) <= db.schedule
    ensures PassedThrough(before, db.schedule, inserting)
    ensures r == Returned(true) <==>
      a.handles && a.commits && a.answered && old(db.state.calls[c].event) !in inserting.rows
      && KeyFree(inserting, c, old(db.state.calls[c].event))
    ensures a.handles ==> In(inserting, c, Handled)
    ensures var event := old(db.state.calls[c].event);
      a.handles && a.commits && event !in inserting.rows && KeyFree(inserting, c, event) ==>
        event in db.state.rows && db.state.rows[event] == c
    ensures r != Returned(false)
    ensures forall e :: e in old(db.state.rows) ==> e in inserting.rows
    ensures Undisturbed(a) ==> inserting.rows == old(db.state.rows)
    ensures Undisturbed(a) && KeyFree(old(db.state), c, old(db.state.calls[c].event)) ==>
      KeyFree(inserting, c, old(db.state.calls[c].event))
  {
    hide Exec, PassedThrough, Apply, KeyFree, Blocked;
    db.Await(c, a.others(1));
    inserting := db.state;
    PassedNow(before, db.schedule);
    ghost var handling := db.schedule;
    if !a.handles {
      r := db.Give(c);
      PassedStays(before, handling, db.schedule, inserting);
      return;
    }
    HandleStep(db.state, c);
    db.Take(Handle(c));
    db.Await(c, a.others(2));
    inserting := db.state;
    handling := db.schedule;
    PassedNow(before, handling);
    BlockedIs(db.state, c);
    if Blocked(db.state, c) { return StillWaiting, inserting; }
    InsertStep(db.state, c);
    db.Take(Insert(c));
    PassedStays(before, handling, db.schedule, inserting);
    if db.state.calls[c].phase == Threw { return Thrown, inserting; }
    r := FinishInserted(db, c, a);
    PassedStays(before, handling, db.schedule, inserting);
  }

  lemma HandleStep(s: State, c: CallId)
    requires In(s, c, Handling)
    ensures var t := Apply(s, Handle(c));
      && In(t, c, Handled) && t.calls[c].event == s.calls[c].event && t.rows == s.rows
      && KeyFree(t, c, s.calls[c].event) == KeyFree(s, c, s.calls[c].event)
  {
    var t := Apply(s, Handle(c));
    assert forall d | d != c :: In(t, d, Inserted) <==> In(s, d, Inserted);
    assert forall d | d != c && d in s.calls :: t.calls[d] == s.calls[d];
  }

  lemma InsertStep(s: State, c: CallId)
    requires In(s, c, Handled) && !Blocked(s, c)
    ensures var t := Apply(s, Insert(c));
      && c in t.calls && t.calls[c] == s.calls[c].(phase := if s.calls[c].event in s.rows then Threw else Inserted)
  {
  }

  lemma SelectStep(s: State, c: CallId)
    requires In(s, c, Looking)
    ensures var t := Apply(s, Select(c));
      && c in t.calls && t.calls[c] == s.calls[c].(phase := if s.calls[c].event in s.rows then Seen else Handling)
      && t.rows == s.rows && KeyFree(t, c, s.calls[c].event) == KeyFree(s, c, s.calls[c].event)
  {
    var t := Apply(s, Select(c));
    assert forall d | d != c :: In(t, d, Inserted) <==> In(s, d, Inserted);
    assert forall d | d != c && d in s.calls :: t.calls[d] == s.calls[d];
  }

  lemma StartStep(s: State, c: CallId, event: Event, consumer: string)
    requires c !in s.calls
    ensures var t := Apply(s, Start(c, event, consumer));
      && In(t, c, Looking) && t.calls[c].event == event && t.rows == s.rows
      && KeyFree(t, c, event) == KeyFree(s, c, event)
  {
    var t := Apply(s, Start(c, event, consumer));
    assert forall d | d != c :: In(t, d, Inserted) <==> In(s, d, Inserted);
    assert forall d | d != c && d in s.calls :: t.calls[d] == s.calls[d];
  }

  lemma BlockedIs(s: State, c: CallId)
    requires c in s.calls
    ensures Blocked(s, c) <==> !KeyFree(s, c, s.calls[c].event)
  {
  }

  lemma InsertedIsNew(steps: seq<Step>, c: CallId)
    ensures var s := Exec(EMPTY, steps); In(s, c, Inserted) ==> s.calls[c].event !in s.rows
  {
    RunKeepsInv(EMPTY, steps);
    var s := Exec(EMPTY, steps);
    if c in s.calls { assert CallInv(s, c, s.calls[c]); }
  }

  /** The commit of an inserted row. */
  method FinishInserted(db: Database, c: CallId, a: Answers) returns (r: Outcome)
    requires db.Valid() && In(db.state, c, Inserted) && Leaves(c, a.others(3))
    modifies db
    ensures db.Valid() && Ends(db.state, c, old(db.state.calls[c].event), r) && old(db.schedule) <= db.schedule
    ensures r == if a.commits && a.answered then Returned(true) else Thrown
    ensures var event := old(db.state.calls[c].event);
      if a.commits then event in db.state.rows && db.state.rows[event] == c else event !in db.state.rows
  {
    db.Await(c, a.others(3));
    InsertedIsNew(db.schedule, c);
    if !a.commits { r := db.Give(c); return; }
    db.Take(Commit(c, a.answered));
    r := if a.answered then Returned(true) else Thrown;
  }
}

/** From the business transaction through the bus to the consumer. */
module Delivery {
  import Outbox
  import Inbox

  datatype System = System(outbox: Outbox.State, inbox: Inbox.State)

  datatype Step = Send(send: Outbox.Step) | Receive(receive: Inbox.Step)

  ghost predicate OnBus(s: Outbox.State, e: Outbox.Event) {
    exists i :: 0 <= i < |s.bus| && s.bus[i].event == e
  }

  /** A consumer call starts when the bus delivers a copy, as often as it likes. */
  ghost function Apply(s: System, limit: nat, step: Step): System {
    match step
    case Send(x) => s.(outbox := Outbox.Apply(s.outbox, limit, x))
    case Receive(x) =>
      if x.Start? && !OnBus(s.outbox, x.event) then s else s.(inbox := Inbox.Apply(s.inbox, x))
  }

  ghost function Exec(limit: nat, steps: seq<Step>): System {
    if steps == [] then System(Outbox.EMPTY, Inbox.EMPTY)
    else Apply(Exec(limit, steps[..|steps| - 1]), limit, steps[|steps| - 1])
  }

  ghost predicate Inv(s: System) {
    && Outbox.Inv(s.outbox) && Inbox.Inv(s.inbox)
    && forall c :: c in s.inbox.calls ==> OnBus(s.outbox, s.inbox.calls[c].event)
  }

  lemma BusGrows(s: Outbox.State, t: Outbox.State)
    requires s.bus <= t.bus
    ensures forall e :: OnBus(s, e) ==> OnBus(t, e)
  {
    forall e | OnBus(s, e) ensures OnBus(t, e) {
      var i :| 0 <= i < |s.bus| && s.bus[i].event == e;
      assert t.bus[i].event == e;
    }
  }

  lemma NewCallsOnly(s: Inbox.State, x: Inbox.Step)
    ensures var t := Inbox.Apply(s, x);
      forall c :: c in t.calls ==>
        if c in s.calls then t.calls[c].event == s.calls[c].event else x.Start? && t.calls[c].event == x.event
  {
  }

  lemma StepKeepsInv(s: System, limit: nat, step: Step)
    requires Inv(s)
    ensures Inv(Apply(s, limit, step))
  {
    hide Outbox.Inv, Inbox.Inv, Outbox.Apply, Inbox.Apply;
    match step
    case Send(x) =>
      Outbox.StepKeepsInv(s.outbox, limit, x);
      Outbox.StepIsMonotone(s.outbox, limit, x, 0);
      BusGrows(s.outbox, Outbox.Apply(s.outbox, limit, x));
    case Receive(x) =>
      Inbox.StepKeepsInv(s.inbox, x);
      NewCallsOnly(s.inbox, x);
  }

  lemma {:induction false} RunKeepsInv(limit: nat, steps: seq<Step>)
    ensures Inv(Exec(limit, steps))
  {
    if steps != [] {
      RunKeepsInv(limit, steps[..|steps| - 1]);
      StepKeepsInv(Exec(limit, steps[..|steps| - 1]), limit, steps[|steps| - 1]);
    }
  }

  /** End to end, in every run: an event is consumed by at most one call; what is consumed
      was committed by its business transaction; and a committed event that has not been
      put on the bus yet is still waiting in the outbox. */
  lemma AtLeastOnceSentAtMostOnceConsumed(limit: nat, steps: seq<Step>, e: Outbox.Event)
    ensures var s := Exec(limit, steps);
      && (forall c, d :: Inbox.ConsumedBy(s.inbox, c, e) && Inbox.ConsumedBy(s.inbox, d, e) ==> c == d)
      && (e in s.inbox.rows ==> OnBus(s.outbox, e) && e in s.outbox.rows)
      && (e in s.outbox.rows && !OnBus(s.outbox, e) ==> Outbox.Held(s.outbox, e) || Outbox.Eligible(s.outbox, e))
  {
    RunKeepsInv(limit, steps);
    var s := Exec(limit, steps);
    forall c | c in s.inbox.calls ensures Inbox.CallInv(s.inbox, c, s.inbox.calls[c]) {}
    if OnBus(s.outbox, e) {
      var i :| 0 <= i < |s.outbox.bus| && s.outbox.bus[i].event == e;
      assert Outbox.WellFormed(s.outbox.rows, s.outbox.flushes[s.outbox.bus[i].flush]);
    } else if e in s.outbox.rows {
      Outbox.CommittedCopies(s.outbox, e);
      Outbox.NoCopies(s.outbox.bus, e, Outbox.FlushesIn(s.outbox, {Outbox.Committed}));
    }
  }
}
