/** The transactional outbox of adapters/postgres/src/outbox.ts: any number of publishers
    flushing the same table, each in its own transaction, with publish failures, failed
    commits and crashes.

    PostgreSQL is taken at its word: a row locked by an open transaction is skipped, a
    commit is atomic, and a rolled-back or broken transaction leaves no trace. */
module Outbox {
  import opened Prelude
  import opened Quotients
  import opened Collections

  type Event = nat
  type FlushId = nat

  datatype Row = Row(createdAt: int, published: bool, attempts: nat)

  /** Where a flush stands: about to publish batch[next] (or, past the end, to commit),
      about to mark it, about to roll back, or over. */
  datatype Phase = Publishing | Marking | Failed | Committed | RolledBack

  datatype Flush = Flush(batch: seq<Event>, next: nat, phase: Phase)

  datatype Copy = Copy(event: Event, flush: FlushId)

  datatype State = State(rows: map<Event, Row>, flushes: map<FlushId, Flush>, bus: seq<Copy>)

  /** A publish may fail before or after the bus has taken the event. */
  datatype Outcome = Delivered | Refused | DeliveredButFailed

  datatype Step =
    | Append(event: Event, createdAt: int)      // a business transaction commits its event
    | Begin(flush: FlushId, batch: seq<Event>)  // BEGIN and SELECT ... FOR UPDATE SKIP LOCKED
    | Publish(flush: FlushId, outcome: Outcome)
    | Mark(flush: FlushId, ok: bool)            // UPDATE ... SET published_at
    | Commit(flush: FlushId)
    | RollBack(flush: FlushId)                  // after an error, or a crash at any point

  const EMPTY := State(map[], map[], [])

  predicate Open(p: Phase) { p != Committed && p != RolledBack }

  ghost predicate HeldBy(s: State, f: FlushId, e: Event) {
    f in s.flushes && Open(s.flushes[f].phase) && e in s.flushes[f].batch
  }

  ghost predicate Held(s: State, e: Event) {
    exists f :: HeldBy(s, f, e)
  }

  ghost predicate Eligible(s: State, e: Event) {
    e in s.rows && !s.rows[e].published && !Held(s, e)
  }

  /** What the SELECT may return: eligible rows, oldest first, none older passed over. */
  ghost predicate Selects(s: State, limit: nat, batch: seq<Event>) {
    && |batch| <= limit
    && NoDuplicates(batch)
    && (forall i :: 0 <= i < |batch| ==> Eligible(s, batch[i]))
    && (forall i, j :: 0 <= i < j < |batch| ==> s.rows[batch[i]].createdAt <= s.rows[batch[j]].createdAt)
    && (forall e :: Eligible(s, e) && e !in batch ==>
          |batch| == limit && forall i :: 0 <= i < |batch| ==> s.rows[batch[i]].createdAt <= s.rows[e].createdAt)
  }

  ghost predicate Enabled(s: State, limit: nat, step: Step) {
    match step
    case Append(e, _) => e !in s.rows
    case Begin(f, batch) => f !in s.flushes && Selects(s, limit, batch)
    case Publish(f, _) => f in s.flushes && s.flushes[f].phase == Publishing && s.flushes[f].next < |s.flushes[f].batch|
    case Mark(f, _) => f in s.flushes && s.flushes[f].phase == Marking
    case Commit(f) => f in s.flushes && s.flushes[f].phase == Publishing && s.flushes[f].next == |s.flushes[f].batch|
    case RollBack(f) => f in s.flushes && Open(s.flushes[f].phase)
  }

  /** The rows after a flush of `batch` commits. */
  function Stamped(rows: map<Event, Row>, batch: seq<Event>): map<Event, Row> {
    map e | e in rows :: if e in batch then rows[e].(published := true, attempts := rows[e].attempts + 1) else rows[e]
  }

  /** One step; a step that cannot happen now leaves the state alone. */
  ghost function Apply(s: State, limit: nat, step: Step): State {
    if !Enabled(s, limit, step) then s else
    match step
    case Append(e, at) => s.(rows := s.rows[e := Row(at, false, 0)])
    case Begin(f, batch) => s.(flushes := s.flushes[f := Flush(batch, 0, Publishing)])
    case Publish(f, outcome) =>
      var fl := s.flushes[f];
      s.(flushes := s.flushes[f := fl.(phase := if outcome == Delivered then Marking else Failed)],
         bus := if outcome == Refused then s.bus else s.bus + [Copy(fl.batch[fl.next], f)])
    case Mark(f, ok) =>
      var fl := s.flushes[f];
      s.(flushes := s.flushes[f := if ok && fl.next < |fl.batch| then fl.(phase := Publishing, next := fl.next + 1)
                                   else fl.(phase := Failed)])
    case Commit(f) =>
      s.(rows := Stamped(s.rows, s.flushes[f].batch), flushes := s.flushes[f := s.flushes[f].(phase := Committed)])
    case RollBack(f) => s.(flushes := s.flushes[f := s.flushes[f].(phase := RolledBack)])
  }

  ghost function Exec(s: State, limit: nat, steps: seq<Step>): State {
    if steps == [] then s else Apply(Exec(s, limit, steps[..|steps| - 1]), limit, steps[|steps| - 1])
  }

  /** Copies of the event on the bus that the given flushes put there. */
  function Copies(bus: seq<Copy>, e: Event, fs: set<FlushId>): nat {
    if bus == [] then 0 else
    Copies(bus[..|bus| - 1], e, fs) + if bus[|bus| - 1].event == e && bus[|bus| - 1].flush in fs then 1 else 0
  }

  /** Copies of the event on the bus. */
  function CopiesOf(bus: seq<Copy>, e: Event): nat {
    if bus == [] then 0 else CopiesOf(bus[..|bus| - 1], e) + if bus[|bus| - 1].event == e then 1 else 0
  }

  // ---- Invariant ----

  ghost predicate NoDuplicates(b: seq<Event>) {
    forall i, j :: 0 <= i < j < |b| ==> b[i] != b[j]
  }

  ghost predicate WellFormed(rows: map<Event, Row>, fl: Flush) {
    && NoDuplicates(fl.batch)
    && fl.next <= |fl.batch|
    && (forall i :: 0 <= i < |fl.batch| ==> fl.batch[i] in rows)
    && (fl.phase == Committed ==> fl.next == |fl.batch|)
    && (fl.phase == Marking ==> fl.next < |fl.batch|)
  }

  ghost predicate Shapes(s: State) {
    forall f :: f in s.flushes ==> WellFormed(s.rows, s.flushes[f])
  }

  /** Held rows are unpublished, and no row is held by two open flushes. */
  ghost predicate Locks(s: State) {
    && (forall f, e :: HeldBy(s, f, e) ==> e in s.rows && !s.rows[e].published)
    && (forall f, g, e :: HeldBy(s, f, e) && HeldBy(s, g, e) ==> f == g)
  }

  ghost predicate CommittedBy(s: State, f: FlushId, e: Event) {
    f in s.flushes && s.flushes[f].phase == Committed && e in s.flushes[f].batch
  }

  /** A row is published exactly when one flush committed it, and no two did. */
  ghost predicate Stamps(s: State) {
    && (forall e :: e in s.rows && s.rows[e].published ==> exists f :: CommittedBy(s, f, e))
    && (forall f, e :: CommittedBy(s, f, e) ==> e in s.rows && s.rows[e].published)
    && (forall e, f, g :: CommittedBy(s, f, e) && CommittedBy(s, g, e) ==> f == g)
    && (forall e :: e in s.rows ==> s.rows[e].attempts == if s.rows[e].published then 1 else 0)
  }

  /** What a flush must have put on the bus for its i-th row. */
  ghost predicate Progress(fl: Flush, i: nat, copies: nat) {
    if i < fl.next then copies == 1
    else if i > fl.next then copies == 0
    else match fl.phase
      case Publishing => copies == 0
      case Marking => copies == 1
      case _ => copies <= 1
  }

  ghost predicate Counted(bus: seq<Copy>, f: FlushId, fl: Flush) {
    forall i :: 0 <= i < |fl.batch| ==> Progress(fl, i, Copies(bus, fl.batch[i], {f}))
  }

  ghost predicate Sourced(s: State) {
    forall i :: 0 <= i < |s.bus| ==>
      s.bus[i].flush in s.flushes && s.bus[i].event in s.flushes[s.bus[i].flush].batch
  }

  ghost predicate Ledger(s: State) {
    Sourced(s) && forall f :: f in s.flushes ==> Counted(s.bus, f, s.flushes[f])
  }

  ghost predicate Inv(s: State) {
    Shapes(s) && Locks(s) && Stamps(s) && Ledger(s)
  }

  lemma {:induction false} NoCopies(bus: seq<Copy>, e: Event, fs: set<FlushId>)
    requires forall i :: 0 <= i < |bus| ==> !(bus[i].event == e && bus[i].flush in fs)
    ensures Copies(bus, e, fs) == 0
  {
    if bus != [] { NoCopies(bus[..|bus| - 1], e, fs); }
  }

  lemma AppendKeepsInv(s: State, limit: nat, e: Event, at: int)
    requires Inv(s) && e !in s.rows
    ensures Inv(Apply(s, limit, Append(e, at)))
  {
    var t := Apply(s, limit, Append(e, at));
    assert forall f, d :: CommittedBy(t, f, d) <==> CommittedBy(s, f, d);
    assert forall f, d :: HeldBy(t, f, d) <==> HeldBy(s, f, d);
  }

  lemma BeginKeepsLocks(s: State, limit: nat, f: FlushId, batch: seq<Event>)
    requires Inv(s) && Enabled(s, limit, Begin(f, batch))
    ensures var t := Apply(s, limit, Begin(f, batch)); Shapes(t) && Locks(t) && Stamps(t)
  {
    var t := Apply(s, limit, Begin(f, batch));
    assert forall g, e :: CommittedBy(t, g, e) <==> CommittedBy(s, g, e);
    assert forall g, e :: HeldBy(t, g, e) <==> HeldBy(s, g, e) || (g == f && e in batch);
    forall e | e in batch ensures Eligible(s, e) {
      var i :| 0 <= i < |batch| && batch[i] == e;
    }
  }

  lemma BeginKeepsLedger(s: State, limit: nat, f: FlushId, batch: seq<Event>)
    requires Inv(s) && Enabled(s, limit, Begin(f, batch))
    ensures Ledger(Apply(s, limit, Begin(f, batch)))
  {
    var t := Apply(s, limit, Begin(f, batch));
    forall i | 0 <= i < |batch| ensures Copies(t.bus, batch[i], {f}) == 0 {
      NoCopies(s.bus, batch[i], {f});
    }
    assert Counted(t.bus, f, t.flushes[f]);
  }

  /** A step that moves flush f without committing it or touching the rows. */
  ghost predicate Moves(s: State, t: State, f: FlushId) {
    && f in s.flushes && f in t.flushes && Open(s.flushes[f].phase)
    && t.rows == s.rows && t.flushes == s.flushes[f := t.flushes[f]]
    && t.flushes[f].batch == s.flushes[f].batch && t.flushes[f].phase != Committed
    && WellFormed(t.rows, t.flushes[f])
  }

  lemma MoveKeepsLocks(s: State, t: State, f: FlushId)
    requires Inv(s) && Moves(s, t, f)
    ensures Shapes(t) && Locks(t) && Stamps(t)
  {
    assert forall g, e :: CommittedBy(t, g, e) <==> CommittedBy(s, g, e);
    assert forall g, e :: HeldBy(t, g, e) ==> HeldBy(s, g, e);
  }

  /** ... and leaves the bus alone or adds the copy of the row it stands at. */
  lemma MoveKeepsLedger(s: State, t: State, f: FlushId)
    requires Inv(s) && Moves(s, t, f)
    requires t.bus == s.bus || (s.flushes[f].phase == Publishing && s.flushes[f].next < |s.flushes[f].batch|
             && t.bus == s.bus + [Copy(s.flushes[f].batch[s.flushes[f].next], f)])
    requires forall i: nat, n: nat :: Progress(s.flushes[f], i, n) ==>
      Progress(t.flushes[f], i, if t.bus != s.bus && i == s.flushes[f].next then n + 1 else n)
    ensures Ledger(t)
  {
    if t.bus != s.bus { assert t.bus[..|t.bus| - 1] == s.bus; }
    forall g | g in t.flushes ensures Counted(t.bus, g, t.flushes[g]) {
      var fl := s.flushes[g];
      assert WellFormed(s.rows, fl) && Counted(s.bus, g, fl);
      forall i | 0 <= i < |fl.batch| ensures Progress(t.flushes[g], i, Copies(t.bus, fl.batch[i], {g})) {
        assert Progress(fl, i, Copies(s.bus, fl.batch[i], {g}));
      }
    }
  }

  lemma MoveKeepsInv(s: State, limit: nat, step: Step)
    requires Inv(s) && Enabled(s, limit, step) && (step.Publish? || step.Mark? || step.RollBack?)
    ensures Inv(Apply(s, limit, step))
  {
    var t := Apply(s, limit, step);
    assert WellFormed(s.rows, s.flushes[step.flush]);
    assert Moves(s, t, step.flush);
    MoveKeepsLocks(s, t, step.flush);
    MoveKeepsLedger(s, t, step.flush);
  }

  lemma CommitKeepsLedger(s: State, limit: nat, f: FlushId)
    requires Inv(s) && Enabled(s, limit, Commit(f))
    ensures Shapes(Apply(s, limit, Commit(f))) && Ledger(Apply(s, limit, Commit(f)))
  {
    var t := Apply(s, limit, Commit(f));
    var batch := s.flushes[f].batch;
    assert WellFormed(s.rows, s.flushes[f]) && Counted(s.bus, f, s.flushes[f]);
    assert Counted(t.bus, f, t.flushes[f]) by {
      forall i | 0 <= i < |batch| ensures Progress(t.flushes[f], i, Copies(t.bus, batch[i], {f})) {
        assert Progress(s.flushes[f], i, Copies(s.bus, batch[i], {f}));
      }
    }
  }

  lemma CommitKeepsLocks(s: State, limit: nat, f: FlushId)
    requires Inv(s) && Enabled(s, limit, Commit(f))
    ensures Locks(Apply(s, limit, Commit(f)))
  {
    hide Ledger, Shapes, Stamps;
    var t := Apply(s, limit, Commit(f));
    assert forall g, e :: HeldBy(t, g, e) <==> HeldBy(s, g, e) && g != f;
    forall e | e in s.flushes[f].batch ensures HeldBy(s, f, e) {}
    hide HeldBy;
  }

  lemma CommitKeepsStamps(s: State, limit: nat, f: FlushId)
    requires Inv(s) && Enabled(s, limit, Commit(f))
    ensures Stamps(Apply(s, limit, Commit(f)))
  {
    var t := Apply(s, limit, Commit(f));
    var batch := s.flushes[f].batch;
    hide Ledger, Shapes;
    assert forall g, e :: CommittedBy(t, g, e) <==> CommittedBy(s, g, e) || (g == f && e in batch);
    forall e | e in batch ensures HeldBy(s, f, e) && CommittedBy(t, f, e) {}
    hide CommittedBy, HeldBy;
    forall e | e in t.rows && t.rows[e].published ensures exists g :: CommittedBy(t, g, e) {
      if e !in batch {
        var g :| CommittedBy(s, g, e);
        assert CommittedBy(t, g, e);
      }
    }
  }

  lemma CommitKeepsInv(s: State, limit: nat, f: FlushId)
    requires Inv(s) && Enabled(s, limit, Commit(f))
    ensures Inv(Apply(s, limit, Commit(f)))
  {
    CommitKeepsLedger(s, limit, f);
    CommitKeepsLocks(s, limit, f);
    CommitKeepsStamps(s, limit, f);
    hide Apply, Ledger, Shapes, Locks, Stamps;
  }

  lemma StepKeepsInv(s: State, limit: nat, step: Step)
    requires Inv(s)
    ensures Inv(Apply(s, limit, step))
  {
    if Enabled(s, limit, step) {
      match step
      case Append(e, at) => AppendKeepsInv(s, limit, e, at);
      case Begin(f, batch) =>
        BeginKeepsLocks(s, limit, f, batch);
        BeginKeepsLedger(s, limit, f, batch);
      case Commit(f) => CommitKeepsInv(s, limit, f);
      case Publish(f, _) => MoveKeepsInv(s, limit, step);
      case Mark(f, _) => MoveKeepsInv(s, limit, step);
      case RollBack(f) => MoveKeepsInv(s, limit, step);
    }
  }

  lemma {:induction false} RunKeepsInv(s: State, limit: nat, steps: seq<Step>)
    requires Inv(s)
    ensures Inv(Exec(s, limit, steps))
  {
    if steps != [] {
      RunKeepsInv(s, limit, steps[..|steps| - 1]);
      StepKeepsInv(Exec(s, limit, steps[..|steps| - 1]), limit, steps[|steps| - 1]);
    }
  }

  // ---- Conservation ----

  function FlushesIn(s: State, phases: set<Phase>): set<FlushId> {
    set f | f in s.flushes && s.flushes[f].phase in phases
  }

  const OPEN: set<Phase> := {Publishing, Marking, Failed}

  lemma {:induction false} CopiesSplit(bus: seq<Copy>, e: Event, a: set<FlushId>, b: set<FlushId>)
    requires a !! b
    ensures Copies(bus, e, a + b) == Copies(bus, e, a) + Copies(bus, e, b)
  {
    if bus != [] { CopiesSplit(bus[..|bus| - 1], e, a, b); }
  }

  lemma {:induction false} CopiesSame(bus: seq<Copy>, e: Event, a: set<FlushId>, b: set<FlushId>)
    requires forall i :: 0 <= i < |bus| && bus[i].event == e ==> (bus[i].flush in a <==> bus[i].flush in b)
    ensures Copies(bus, e, a) == Copies(bus, e, b)
  {
    if bus != [] {
      CopiesSame(bus[..|bus| - 1], e, a, b);
    }
  }

  lemma {:induction false} CopiesOfAll(bus: seq<Copy>, e: Event, fs: set<FlushId>)
    requires forall i :: 0 <= i < |bus| ==> bus[i].flush in fs
    ensures CopiesOf(bus, e) == Copies(bus, e, fs)
  {
    if bus != [] { CopiesOfAll(bus[..|bus| - 1], e, fs); }
  }

  /** Copies from committed flushes: one if the row is marked published, else none. */
  lemma CommittedCopies(s: State, e: Event)
    requires Inv(s) && e in s.rows
    ensures Copies(s.bus, e, FlushesIn(s, {Committed})) == if s.rows[e].published then 1 else 0
  {
    assert forall f :: f in FlushesIn(s, {Committed}) && e in s.flushes[f].batch <==> CommittedBy(s, f, e);
    if s.rows[e].published {
      var f :| CommittedBy(s, f, e);
      CopiesSame(s.bus, e, FlushesIn(s, {Committed}), {f});
      OwnCopies(s, f, e);
    } else {
      NoCopies(s.bus, e, FlushesIn(s, {Committed}));
    }
  }

  lemma OwnCopies(s: State, f: FlushId, e: Event)
    requires Inv(s) && f in s.flushes && e in s.flushes[f].batch
    ensures Copies(s.bus, e, {f}) <= 1
    ensures s.flushes[f].phase == Committed ==> Copies(s.bus, e, {f}) == 1
  {
    var fl := s.flushes[f];
    var i :| 0 <= i < |fl.batch| && fl.batch[i] == e;
    assert WellFormed(s.rows, fl) && Counted(s.bus, f, fl);
    assert Progress(fl, i, Copies(s.bus, e, {f}));
  }

  /** Copies from open flushes: at most one. */
  lemma OpenCopies(s: State, e: Event)
    requires Inv(s)
    ensures Copies(s.bus, e, FlushesIn(s, OPEN)) <= 1
  {
    assert forall f :: f in FlushesIn(s, OPEN) && e in s.flushes[f].batch <==> HeldBy(s, f, e);
    if Held(s, e) {
      var f :| HeldBy(s, f, e);
      CopiesSame(s.bus, e, FlushesIn(s, OPEN), {f});
      OwnCopies(s, f, e);
    } else {
      NoCopies(s.bus, e, FlushesIn(s, OPEN));
    }
  }

  /** In every run of any number of concurrent publishers with failures and crashes: no row
      is held by two open flushes, and all the copies of a committed event on the bus are those
      of rolled-back flushes, plus those of open flushes, plus one if `published_at` is set. */
  lemma Conservation(limit: nat, steps: seq<Step>, e: Event)
    ensures var s := Exec(EMPTY, limit, steps);
      && (forall f, g :: HeldBy(s, f, e) && HeldBy(s, g, e) ==> f == g)
      && Copies(s.bus, e, FlushesIn(s, OPEN)) <= 1
      && (e in s.rows ==>
            CopiesOf(s.bus, e)
            == Copies(s.bus, e, FlushesIn(s, {RolledBack})) + Copies(s.bus, e, FlushesIn(s, OPEN))
               + (if s.rows[e].published then 1 else 0))
  {
    RunKeepsInv(EMPTY, limit, steps);
    var s := Exec(EMPTY, limit, steps);
    var r, o, c := FlushesIn(s, {RolledBack}), FlushesIn(s, OPEN), FlushesIn(s, {Committed});
    assert r + (o + c) == s.flushes.Keys;
    CopiesSplit(s.bus, e, r, o + c);
    CopiesSplit(s.bus, e, o, c);
    OpenCopies(s, e);
    if e in s.rows { CommittedCopies(s, e); }
    CopiesOfAll(s.bus, e, s.flushes.Keys);
  }

  lemma StepIsMonotone(s: State, limit: nat, step: Step, e: Event)
    requires Inv(s)
    ensures var t := Apply(s, limit, step);
      && s.bus <= t.bus
      && (e in s.rows ==> e in t.rows && (s.rows[e].published ==> t.rows[e].published))
  {
  }

  /** Nothing but a committed event ever reaches the bus. */
  lemma OnlyCommittedEventsPublished(limit: nat, steps: seq<Step>)
    ensures var s := Exec(EMPTY, limit, steps); forall i :: 0 <= i < |s.bus| ==> s.bus[i].event in s.rows
  {
    RunKeepsInv(EMPTY, limit, steps);
    var s := Exec(EMPTY, limit, steps);
    forall i | 0 <= i < |s.bus| ensures s.bus[i].event in s.rows {
      assert WellFormed(s.rows, s.flushes[s.bus[i].flush]);
    }
  }

  /** What is on the bus stays there, and a published row stays published. */
  lemma {:induction false} PublicationIsFinal(s: State, limit: nat, steps: seq<Step>, e: Event)
    requires Inv(s)
    ensures var t := Exec(s, limit, steps);
      && s.bus <= t.bus
      && (e in s.rows ==> e in t.rows && (s.rows[e].published ==> t.rows[e].published))
  {
    if steps != [] {
      PublicationIsFinal(s, limit, steps[..|steps| - 1], e);
      RunKeepsInv(s, limit, steps[..|steps| - 1]);
      StepIsMonotone(Exec(s, limit, steps[..|steps| - 1]), limit, steps[|steps| - 1], e);
    }
  }

  // ---- Progress ----

  ghost function EligibleSet(s: State): set<Event> {
    set e | e in s.rows && Eligible(s, e)
  }

  function Rows(batch: seq<Event>): set<Event> {
    set e | e in batch
  }

  predicate OnBus(s: State, e: Event) {
    exists i :: 0 <= i < |s.bus| && s.bus[i].event == e
  }

  predicate Sent(s: State, e: Event) {
    e in s.rows && s.rows[e].published && OnBus(s, e)
  }

  /** A flush of which everything is answered, up to its first n rows ... */
  function FlushSteps(f: FlushId, batch: seq<Event>, n: nat): seq<Step> {
    if n == 0 then [Begin(f, batch)] else FlushSteps(f, batch, n - 1) + [Publish(f, Delivered)] + [Mark(f, true)]
  }

  /** ... and with its commit. */
  function WholeFlush(f: FlushId, batch: seq<Event>): seq<Step> {
    FlushSteps(f, batch, |batch|) + [Commit(f)]
  }

  function CopiesFrom(f: FlushId, batch: seq<Event>, n: nat): seq<Copy>
    requires n <= |batch|
  {
    if n == 0 then [] else CopiesFrom(f, batch, n - 1) + [Copy(batch[n - 1], f)]
  }

  lemma {:induction false} CopiesLength(f: FlushId, batch: seq<Event>, n: nat)
    requires n <= |batch|
    ensures |CopiesFrom(f, batch, n)| == n
  {
    if n > 0 { CopiesLength(f, batch, n - 1); }
  }

  lemma {:induction false} CopiesFromAll(f: FlushId, batch: seq<Event>, n: nat, i: nat)
    requires i < n <= |batch|
    ensures |CopiesFrom(f, batch, n)| == n && CopiesFrom(f, batch, n)[i] == Copy(batch[i], f)
  {
    if i < n - 1 { CopiesFromAll(f, batch, n - 1, i); } else if n > 1 { CopiesFromAll(f, batch, n - 1, 0); }
  }

  /** Where such a flush has taken the state after n rows. */
  function Reached(s: State, f: FlushId, batch: seq<Event>, n: nat): State
    requires n <= |batch|
  {
    State(s.rows, s.flushes[f := Flush(batch, n, Publishing)], s.bus + CopiesFrom(f, batch, n))
  }

  lemma FlushBegins(s: State, limit: nat, f: FlushId, batch: seq<Event>)
    requires Enabled(s, limit, Begin(f, batch))
    ensures Exec(s, limit, [Begin(f, batch)]) == Reached(s, f, batch, 0)
  {
    ExecOne(s, limit, Begin(f, batch), []);
    assert [] + [Begin(f, batch)] == [Begin(f, batch)];
    assert s.bus + [] == s.bus;
  }

  lemma RowReached(s: State, limit: nat, f: FlushId, batch: seq<Event>, n: nat)
    requires n < |batch|
    ensures Apply(Apply(Reached(s, f, batch, n), limit, Publish(f, Delivered)), limit, Mark(f, true))
            == Reached(s, f, batch, n + 1)
  {
    RowIsSent(Reached(s, f, batch, n), limit, f);
    assert CopiesFrom(f, batch, n + 1) == CopiesFrom(f, batch, n) + [Copy(batch[n], f)];
    hide Apply, CopiesFrom;
    Regroup(s.bus, CopiesFrom(f, batch, n), [Copy(batch[n], f)]);
    assert s.flushes[f := Flush(batch, n, Publishing)][f := Flush(batch, n + 1, Publishing)]
           == s.flushes[f := Flush(batch, n + 1, Publishing)];
  }

  lemma {:induction false} FlushReaches(s: State, limit: nat, f: FlushId, batch: seq<Event>, n: nat)
    requires Enabled(s, limit, Begin(f, batch)) && n <= |batch|
    ensures Exec(s, limit, FlushSteps(f, batch, n)) == Reached(s, f, batch, n)
  {
    hide Exec, Enabled, Apply, Reached;
    if n == 0 {
      FlushBegins(s, limit, f, batch);
    } else {
      FlushReaches(s, limit, f, batch, n - 1);
      var before := FlushSteps(f, batch, n - 1);
      ExecOne(s, limit, Publish(f, Delivered), before);
      ExecOne(s, limit, Mark(f, true), before + [Publish(f, Delivered)]);
      RowReached(s, limit, f, batch, n - 1);
    }
  }

  lemma RowIsSent(s: State, limit: nat, f: FlushId)
    requires f in s.flushes && s.flushes[f].phase == Publishing && s.flushes[f].next < |s.flushes[f].batch|
    ensures var fl := s.flushes[f];
      Apply(Apply(s, limit, Publish(f, Delivered)), limit, Mark(f, true))
      == State(s.rows, s.flushes[f := fl.(next := fl.next + 1)], s.bus + [Copy(fl.batch[fl.next], f)])
  {
    var fl := s.flushes[f];
    var done := fl.(next := fl.next + 1);
    assert s.flushes[f := fl.(phase := Marking)][f := done] == s.flushes[f := done];
  }

  lemma WholeFlushIs(s: State, limit: nat, f: FlushId, batch: seq<Event>)
    requires Enabled(s, limit, Begin(f, batch))
    ensures Exec(s, limit, WholeFlush(f, batch))
            == State(Stamped(s.rows, batch), s.flushes[f := Flush(batch, |batch|, Committed)],
                     s.bus + CopiesFrom(f, batch, |batch|))
  {
    FlushReaches(s, limit, f, batch, |batch|);
    ExecOne(s, limit, Commit(f), FlushSteps(f, batch, |batch|));
    hide Exec, Enabled, Apply, Reached, FlushSteps;
    ReachedCommits(s, limit, f, batch);
  }

  lemma ReachedCommits(s: State, limit: nat, f: FlushId, batch: seq<Event>)
    ensures Apply(Reached(s, f, batch, |batch|), limit, Commit(f))
            == State(Stamped(s.rows, batch), s.flushes[f := Flush(batch, |batch|, Committed)],
                     s.bus + CopiesFrom(f, batch, |batch|))
  {
    hide Stamped, CopiesFrom;
    var done := Flush(batch, |batch|, Committed);
    assert s.flushes[f := Flush(batch, |batch|, Publishing)][f := done] == s.flushes[f := done];
  }

  lemma {:induction false} SizeOf(batch: seq<Event>)
    requires NoDuplicates(batch)
    ensures |Rows(batch)| == |batch|
  {
    if batch != [] {
      var front, last := batch[..|batch| - 1], batch[|batch| - 1];
      SizeOf(front);
      assert batch == front + [last];
      assert last !in front;
      assert Rows(batch) == Rows(front) + {last};
    }
  }

  lemma SelectsAsManyAsItCan(s: State, limit: nat, batch: seq<Event>)
    requires Selects(s, limit, batch)
    ensures Rows(batch) <= EligibleSet(s) && |batch| == Min(limit, |EligibleSet(s)|)
    ensures |EligibleSet(s) - Rows(batch)| == Max(0, |EligibleSet(s)| - limit)
  {
    var taken, all := Rows(batch), EligibleSet(s);
    SizeOf(batch);
    forall e | e in taken ensures e in all {
      var i :| 0 <= i < |batch| && batch[i] == e;
    }
    if all - taken != {} {
      var e :| e in all - taken;
      assert Eligible(s, e) && e !in batch;
    } else {
      forall e | e in all ensures e in taken { assert e !in all - taken; }
      assert all == taken;
    }
    assert |all| == |taken| + |all - taken| by {
      assert all == taken + (all - taken);
    }
  }

  lemma OthersStayEligible(s: State, f: FlushId, batch: seq<Event>, bus: seq<Copy>)
    requires f !in s.flushes && forall e :: e in batch ==> e in s.rows
    ensures var t := State(Stamped(s.rows, batch), s.flushes[f := Flush(batch, |batch|, Committed)], bus);
      EligibleSet(t) == EligibleSet(s) - Rows(batch)
  {
    var t := State(Stamped(s.rows, batch), s.flushes[f := Flush(batch, |batch|, Committed)], bus);
    assert forall g, e :: HeldBy(t, g, e) <==> HeldBy(s, g, e);
    hide HeldBy;
    forall e ensures Held(t, e) <==> Held(s, e) {
      if Held(s, e) { var g :| HeldBy(s, g, e); assert HeldBy(t, g, e); }
    }
    hide Held;
  }

  lemma BatchIsSent(s: State, f: FlushId, batch: seq<Event>, flushes: map<FlushId, Flush>)
    requires forall e :: e in batch ==> e in s.rows
    ensures var t := State(Stamped(s.rows, batch), flushes, s.bus + CopiesFrom(f, batch, |batch|));
      (forall e :: e in batch ==> Sent(t, e)) && (forall e :: Sent(s, e) ==> Sent(t, e))
  {
    var t := State(Stamped(s.rows, batch), flushes, s.bus + CopiesFrom(f, batch, |batch|));
    forall e | e in batch ensures Sent(t, e) {
      var i :| 0 <= i < |batch| && batch[i] == e;
      CopiesFromAll(f, batch, |batch|, i);
      assert t.bus[|s.bus| + i].event == e;
    }
    forall e | Sent(s, e) ensures Sent(t, e) {
      var i :| 0 <= i < |s.bus| && s.bus[i].event == e;
      assert t.bus[i].event == e;
    }
  }

  /** A flush of which everything is answered takes min(limit, eligible) rows: it sends them and
      leaves exactly the others eligible. */
  lemma FlushTakesItsBatch(s: State, limit: nat, f: FlushId, batch: seq<Event>)
    requires Enabled(s, limit, Begin(f, batch))
    ensures var t := Exec(s, limit, WholeFlush(f, batch));
      && |batch| == Min(limit, |EligibleSet(s)|)
      && EligibleSet(t) == EligibleSet(s) - Rows(batch)
      && |EligibleSet(t)| == Max(0, |EligibleSet(s)| - limit)
      && (forall e :: e in batch ==> Sent(t, e))
      && (forall e :: Sent(s, e) ==> Sent(t, e))
  {
    assert Selects(s, limit, batch) && f !in s.flushes;
    BatchHasRows(s, limit, batch);
    hide *;
    WholeFlushIs(s, limit, f, batch);
    SelectsAsManyAsItCan(s, limit, batch);
    OthersStayEligible(s, f, batch, s.bus + CopiesFrom(f, batch, |batch|));
    BatchIsSent(s, f, batch, s.flushes[f := Flush(batch, |batch|, Committed)]);
  }

  lemma BatchHasRows(s: State, limit: nat, batch: seq<Event>)
    requires Selects(s, limit, batch)
    ensures forall e :: e in batch ==> e in s.rows
  {
  }

  predicate NotYounger(rows: map<Event, Row>, d: Event, e: Event) {
    d in rows && e in rows && rows[d].createdAt <= rows[e].createdAt
  }

  lemma SelectsTheOldest(s: State, limit: nat, batch: seq<Event>)
    requires Selects(s, limit, batch)
    ensures forall i, j :: 0 <= i < j < |batch| ==> NotYounger(s.rows, batch[i], batch[j])
    ensures forall d, e :: d in batch && e in EligibleSet(s) - Rows(batch) ==> NotYounger(s.rows, d, e)
  {
    hide Eligible;
    BatchHasRows(s, limit, batch);
    forall d, e | d in batch && e in EligibleSet(s) - Rows(batch) ensures NotYounger(s.rows, d, e) {
      assert Eligible(s, e) && e !in batch;
      var i :| 0 <= i < |batch| && batch[i] == d;
    }
  }

  /** It sends the oldest rows, in the order of their creation: none that it leaves eligible was
      created before one that it takes. */
  lemma FlushTakesTheOldest(s: State, limit: nat, f: FlushId, batch: seq<Event>)
    requires Enabled(s, limit, Begin(f, batch))
    ensures var t := Exec(s, limit, WholeFlush(f, batch));
      && t.bus == s.bus + CopiesFrom(f, batch, |batch|) && |CopiesFrom(f, batch, |batch|)| == |batch|
      && (forall i :: 0 <= i < |batch| ==> CopiesFrom(f, batch, |batch|)[i] == Copy(batch[i], f))
      && (forall i, j :: 0 <= i < j < |batch| ==> NotYounger(s.rows, batch[i], batch[j]))
      && (forall d, e :: d in batch && e in EligibleSet(t) ==> NotYounger(s.rows, d, e))
  {
    assert Selects(s, limit, batch);
    hide *;
    WholeFlushIs(s, limit, f, batch);
    FlushTakesItsBatch(s, limit, f, batch);
    SelectsTheOldest(s, limit, batch);
    CopiesLength(f, batch, |batch|);
    forall i | 0 <= i < |batch| { CopiesFromAll(f, batch, |batch|, i); }
  }

  type Flushes = seq<(FlushId, seq<Event>)>

  /** Flushes one after the other, each of what it can select then. */
  ghost predicate Flushing(s: State, limit: nat, fs: Flushes)
    decreases |fs|
  {
    fs != [] ==>
      && Enabled(s, limit, Begin(fs[0].0, fs[0].1))
      && Flushing(Exec(s, limit, WholeFlush(fs[0].0, fs[0].1)), limit, fs[1..])
  }

  function AllFlushes(fs: Flushes): seq<Step> {
    if fs == [] then [] else WholeFlush(fs[0].0, fs[0].1) + AllFlushes(fs[1..])
  }

  /** All rows that were eligible and no longer are have been sent, and what was sent stays so. */
  ghost predicate SendsBetween(s: State, t: State) {
    && (forall e :: e in EligibleSet(s) && e !in EligibleSet(t) ==> Sent(t, e))
    && (forall e :: Sent(s, e) ==> Sent(t, e))
  }

  /** Every flush takes a limit's worth off the backlog, and sends what it takes. */
  lemma {:induction false} BacklogShrinks(s: State, limit: nat, fs: Flushes)
    requires Flushing(s, limit, fs)
    ensures var t := Exec(s, limit, AllFlushes(fs));
      |EligibleSet(t)| == Max(0, |EligibleSet(s)| - |fs| * limit) && SendsBetween(s, t)
    decreases |fs|
  {
    hide Exec, WholeFlush, Enabled, EligibleSet, Sent, AllFlushes, Flushing;
    var t := Exec(s, limit, AllFlushes(fs));
    if fs == [] {
      NoFlush(s, limit);
    } else {
      FirstFlush(s, limit, fs);
      var next, batch := Exec(s, limit, WholeFlush(fs[0].0, fs[0].1)), fs[0].1;
      hide SendsBetween;
      BacklogShrinks(next, limit, fs[1..]);
      FlushTakesItsBatch(s, limit, fs[0].0, batch);
      FlushThenMore(s, next, t, batch);
      TakeAway(|EligibleSet(s)|, |fs|, limit);
    }
  }

  lemma NoFlush(s: State, limit: nat)
    ensures Exec(s, limit, AllFlushes([])) == s
  {
  }

  lemma FirstFlush(s: State, limit: nat, fs: Flushes)
    requires Flushing(s, limit, fs) && fs != []
    ensures var next := Exec(s, limit, WholeFlush(fs[0].0, fs[0].1));
      && Enabled(s, limit, Begin(fs[0].0, fs[0].1)) && Flushing(next, limit, fs[1..])
      && Exec(s, limit, AllFlushes(fs)) == Exec(next, limit, AllFlushes(fs[1..]))
  {
    ExecAppend(s, limit, WholeFlush(fs[0].0, fs[0].1), AllFlushes(fs[1..]));
    hide Exec, WholeFlush, Enabled;
  }

  lemma FlushThenMore(s: State, next: State, t: State, batch: seq<Event>)
    requires EligibleSet(next) == EligibleSet(s) - Rows(batch) && SendsBetween(next, t)
    requires forall e :: e in batch || Sent(s, e) ==> Sent(next, e)
    ensures SendsBetween(s, t)
  {
    hide EligibleSet, Sent;
    assert forall e :: e in Rows(batch) ==> e in batch;
  }

  lemma TakeAway(n: nat, flushes: nat, limit: nat)
    requires flushes >= 1
    ensures Max(0, Max(0, n - limit) - (flushes - 1) * limit) == Max(0, n - flushes * limit)
  {
    assert flushes * limit == limit + (flushes - 1) * limit;
    TimesMonotone(0, flushes - 1, limit);
    assert (flushes - 1) * limit == limit * (flushes - 1);
  }

  lemma {:induction false} Oldest(s: State, es: set<Event>) returns (e: Event)
    requires es != {} && es <= s.rows.Keys
    ensures e in es && forall d :: d in es ==> s.rows[e].createdAt <= s.rows[d].createdAt
    decreases |es|
  {
    e :| e in es;
    if es != {e} {
      var d := Oldest(s, es - {e});
      if s.rows[d].createdAt < s.rows[e].createdAt { e := d; }
    }
  }

  /** The oldest of a set, in order and as many as the limit admits. */
  lemma {:induction false} OldestFirst(s: State, es: set<Event>, limit: nat) returns (batch: seq<Event>)
    requires es <= s.rows.Keys
    ensures NoDuplicates(batch) && |batch| <= limit && forall e :: e in batch ==> e in es
    ensures forall i, j :: 0 <= i < j < |batch| ==> s.rows[batch[i]].createdAt <= s.rows[batch[j]].createdAt
    ensures forall e :: e in es && e !in batch ==>
      |batch| == limit && forall i :: 0 <= i < |batch| ==> s.rows[batch[i]].createdAt <= s.rows[e].createdAt
    decreases |es|
  {
    if es == {} || limit == 0 {
      batch := [];
    } else {
      var e := Oldest(s, es);
      var rest := OldestFirst(s, es - {e}, limit - 1);
      batch := [e] + rest;
      assert forall i | 0 < i < |batch| :: batch[i] == rest[i - 1] && batch[i] in rest;
    }
  }

  lemma {:induction false} FreshId(ids: set<FlushId>) returns (f: FlushId)
    ensures f !in ids && forall g :: g in ids ==> g < f
    decreases |ids|
  {
    if ids == {} {
      f := 0;
    } else {
      var g :| g in ids;
      var h := FreshId(ids - {g});
      f := Max(g + 1, h);
      assert forall i | i in ids :: i == g || i in ids - {g};
    }
  }

  /** A publisher can always flush, any number of times. */
  lemma {:induction false} FlushesExist(s: State, limit: nat, n: nat) returns (fs: Flushes)
    ensures Flushing(s, limit, fs) && |fs| == n
    decreases n
  {
    if n == 0 {
      fs := [];
    } else {
      var f := FreshId(s.flushes.Keys);
      var batch := OldestFirst(s, EligibleSet(s), limit);
      assert Selects(s, limit, batch) by {
        assert forall i | 0 <= i < |batch| :: batch[i] in batch;
      }
      var rest := FlushesExist(Exec(s, limit, WholeFlush(f, batch)), limit, n - 1);
      fs := [(f, batch)] + rest;
      assert fs[1..] == rest;
    }
  }

  /** From every reached state, n flushes of which everything is answered leave nothing that was
      eligible unsent as soon as n times the limit reaches the backlog, and such flushes exist. */
  lemma BacklogDrains(limit: nat, steps: seq<Step>) returns (fs: Flushes)
    requires limit >= 1
    ensures var s := Exec(EMPTY, limit, steps); var t := Exec(s, limit, AllFlushes(fs));
      && Flushing(s, limit, fs)
      && |fs| == (|EligibleSet(s)| + limit - 1) / limit
      && EligibleSet(t) == {}
      && forall e :: e in s.rows && !Held(s, e) ==> Sent(t, e)
  {
    var s := Exec(EMPTY, limit, steps);
    var n := |EligibleSet(s)|;
    Division(n + limit - 1, limit);
    QuotientMonotone(0, n + limit - 1, limit);
    QuotientIs(0, limit, 0);
    fs := FlushesExist(s, limit, (n + limit - 1) / limit);
    assert |fs| * limit >= n;
    BacklogShrinks(s, limit, fs);
    forall e | e in s.rows && !Held(s, e) ensures Sent(Exec(s, limit, AllFlushes(fs)), e) {
      NothingLost(limit, steps, e);
    }
  }

  /** No event is lost. A committed event that is marked published is on the bus. If it is not,
      and a flush holds it, a rollback or crash of that flush makes it eligible again; if no
      flush holds it, it is sent by any flushes that, all answered, take as many rows as are
      eligible. And its row only ever counts the one attempt that was committed. */
  lemma NothingLost(limit: nat, steps: seq<Step>, e: Event)
    requires e in Exec(EMPTY, limit, steps).rows
    ensures var s := Exec(EMPTY, limit, steps);
      && (s.rows[e].published ==> OnBus(s, e))
      && (forall f :: HeldBy(s, f, e) ==> Eligible(Apply(s, limit, RollBack(f)), e))
      && (!Held(s, e) ==> forall fs :: Flushing(s, limit, fs) && |fs| * limit >= |EligibleSet(s)| ==>
            Sent(Exec(s, limit, AllFlushes(fs)), e))
      && s.rows[e].attempts == if s.rows[e].published then 1 else 0
  {
    RunKeepsInv(EMPTY, limit, steps);
    var s := Exec(EMPTY, limit, steps);
    CommittedCopies(s, e);
    if !OnBus(s, e) { NoCopies(s.bus, e, FlushesIn(s, {Committed})); }
    forall f | HeldBy(s, f, e) ensures Eligible(Apply(s, limit, RollBack(f)), e) {
      var t := Apply(s, limit, RollBack(f));
      assert forall g :: HeldBy(t, g, e) ==> HeldBy(s, g, e) && g != f;
    }
    if !Held(s, e) {
      forall fs | Flushing(s, limit, fs) && |fs| * limit >= |EligibleSet(s)|
        ensures Sent(Exec(s, limit, AllFlushes(fs)), e)
      {
        BacklogShrinks(s, limit, fs);
        assert e in EligibleSet(s) || Sent(s, e);
      }
    }
  }

  // ---- flushOnce ----

  ghost predicate Leaves(f: FlushId, steps: seq<Step>) {
    forall i :: 0 <= i < |steps| ==> !steps[i].Append? ==> steps[i].flush != f
  }

  lemma ExecOne(s: State, limit: nat, step: Step, steps: seq<Step>)
    ensures Exec(s, limit, steps + [step]) == Apply(Exec(s, limit, steps), limit, step)
  {
    assert (steps + [step])[..|steps|] == steps;
  }

  lemma {:induction false} ExecAppend(s: State, limit: nat, a: seq<Step>, b: seq<Step>)
    ensures Exec(s, limit, a + b) == Exec(Exec(s, limit, a), limit, b)
  {
    if b == [] {
      assert a + b == a;
    } else {
      ExecAppend(s, limit, a, b[..|b| - 1]);
      assert (a + b)[..|a + b| - 1] == a + b[..|b| - 1];
    }
  }

  /** What the others do leaves a flush where it stands. */
  lemma {:induction false} OthersLeaveFlush(s: State, limit: nat, f: FlushId, steps: seq<Step>)
    requires Leaves(f, steps)
    ensures f in s.flushes ==> f in Exec(s, limit, steps).flushes && Exec(s, limit, steps).flushes[f] == s.flushes[f]
    ensures f !in s.flushes ==> f !in Exec(s, limit, steps).flushes
  {
    if steps != [] { OthersLeaveFlush(s, limit, f, steps[..|steps| - 1]); }
  }

  /** The database and the bus, shared by all publishers. */
  class World {
    ghost var state: State
    ghost var schedule: seq<Step>  // every step taken so far
    ghost const limit: nat

    ghost predicate Valid() reads this {
      state == Exec(EMPTY, limit, schedule)
    }

    constructor (limit: nat)
      ensures Valid() && state == EMPTY && this.limit == limit
    {
      this.limit := limit;
      state, schedule := EMPTY, [];
    }

    /** Everybody else's steps while a flush awaits. */
    ghost method Interfere(others: seq<Step>)
      requires Valid()
      modifies this
      ensures Valid() && state == Exec(old(state), limit, others)
    {
      ExecAppend(EMPTY, limit, schedule, others);
      state, schedule := Exec(state, limit, others), schedule + others;
    }

    ghost method Take(step: Step)
      requires Valid()
      modifies this
      ensures Valid() && state == Apply(old(state), limit, step)
    {
      ExecOne(EMPTY, limit, step, schedule);
      state, schedule := Apply(state, limit, step), schedule + [step];
    }
  }

  /** What the outside world answers at the n-th await of a flush, and what everybody else
      does meanwhile. */
  datatype Answers = Answers(
    outcome: nat -> Outcome, marked: nat -> bool, commit: CommitAnswer, others: nat -> seq<Step>)

  /** A COMMIT may take effect with its answer lost. */
  datatype CommitAnswer = Answered | Lost | NotCommitted

  ghost predicate AllMarked(a: Answers, rows: nat) {
    forall i: nat :: i < rows ==> a.outcome(i) == Delivered && a.marked(i)
  }

  /** Nobody else takes a step while the flush awaits. */
  ghost predicate Undisturbed(a: Answers) {
    forall n: nat :: a.others(n) == []
  }

  ghost predicate OthersLeave(f: FlushId, a: Answers) {
    forall n: nat :: Leaves(f, a.others(n))
  }

  /** One flush under arbitrary interference. It returns the number of rows after marking
      all of them published. Otherwise it throws, with everything rolled back, or, if the
      answer to its COMMIT is lost, with all of them published. */
  method FlushOnce(world: World, f: FlushId, batch: seq<Event>, a: Answers) returns (count: Option<nat>)
    requires world.Valid() && OthersLeave(f, a)
    requires Enabled(world.state, world.limit, Begin(f, batch))
    modifies world
    ensures world.Valid() && f in world.state.flushes && world.state.flushes[f].batch == batch
    ensures count.Some? <==> AllMarked(a, |batch|) && a.commit == Answered
    ensures count.Some? ==> count.value == |batch|
    ensures world.state.flushes[f].phase
            == if AllMarked(a, |batch|) && a.commit != NotCommitted then Committed else RolledBack
    ensures world.state.flushes[f].phase == Committed ==> forall i :: 0 <= i < |batch| ==>
      batch[i] in world.state.rows && world.state.rows[batch[i]].published
    ensures Undisturbed(a) && count.Some? ==>
      world.state == Exec(old(world.state), world.limit, WholeFlush(f, batch))
  {
    hide Exec, Enabled, Selects, WholeFlush;
    ghost var start := world.state;
    FlushBegan(start, world.limit, f, batch);
    world.Take(Begin(f, batch));
    var ok := PublishRows(world, f, batch, a, start);
    if !ok { return None; }
    Await(world, f, a, 2 * |batch|);
    if a.commit == NotCommitted {
      RolledBackFlush(world.state, world.limit, f);
      world.Take(RollBack(f));
      return None;
    }
    CommittedFlush(start, world.state, world.limit, f, batch);
    world.Take(Commit(f));
    StampedByCommit(world.limit, world.schedule, f);
    // The ROLLBACK of the error path finds no transaction to undo.
    count := if a.commit == Answered then Some(|batch|) else None;
  }

  lemma FlushBegan(s: State, limit: nat, f: FlushId, batch: seq<Event>)
    requires Enabled(s, limit, Begin(f, batch))
    ensures Apply(s, limit, Begin(f, batch)) == Reached(s, f, batch, 0)
  {
    FlushBegins(s, limit, f, batch);
    assert [Begin(f, batch)] == [] + [Begin(f, batch)];
    ExecOne(s, limit, Begin(f, batch), []);
    hide Apply, Reached;
  }

  lemma RolledBackFlush(s: State, limit: nat, f: FlushId)
    requires f in s.flushes && Open(s.flushes[f].phase)
    ensures var t := Apply(s, limit, RollBack(f));
      f in t.flushes && t.flushes[f] == s.flushes[f].(phase := RolledBack)
  {
  }

  lemma CommittedFlush(start: State, s: State, limit: nat, f: FlushId, batch: seq<Event>)
    requires f in s.flushes && s.flushes[f] == Flush(batch, |batch|, Publishing)
    requires Enabled(start, limit, Begin(f, batch))
    ensures var t := Apply(s, limit, Commit(f));
      && f in t.flushes && t.flushes[f] == Flush(batch, |batch|, Committed)
      && (s == Reached(start, f, batch, |batch|) ==> t == Exec(start, limit, WholeFlush(f, batch)))
  {
    FlushReaches(start, limit, f, batch, |batch|);
    ExecOne(start, limit, Commit(f), FlushSteps(f, batch, |batch|));
    hide Exec, Reached, FlushSteps;
  }

  /** The loop over the rows; it goes on unless a row fails. */
  method PublishRows(world: World, f: FlushId, batch: seq<Event>, a: Answers, ghost start: State) returns (ok: bool)
    requires world.Valid() && OthersLeave(f, a) && world.state == Reached(start, f, batch, 0)
    modifies world
    ensures world.Valid() && f in world.state.flushes
    ensures ok <==> AllMarked(a, |batch|)
    ensures ok ==> world.state.flushes[f] == Flush(batch, |batch|, Publishing)
    ensures !ok ==> world.state.flushes[f].phase == RolledBack && world.state.flushes[f].batch == batch
    ensures Undisturbed(a) && ok ==> world.state == Reached(start, f, batch, |batch|)
  {
    hide Apply, Exec;
    var i := 0;
    while i < |batch|
      invariant 0 <= i <= |batch| && world.Valid()
      invariant f in world.state.flushes && world.state.flushes[f] == Flush(batch, i, Publishing)
      invariant AllMarked(a, i)
      invariant Undisturbed(a) ==> world.state == Reached(start, f, batch, i)
    {
      RowReached(start, world.limit, f, batch, i);
      ok := PublishRow(world, f, batch, i, a);
      if !ok { return; }
      i := i + 1;
    }
    ok := true;
  }

  lemma StampedByCommit(limit: nat, steps: seq<Step>, f: FlushId)
    requires f in Exec(EMPTY, limit, steps).flushes && Exec(EMPTY, limit, steps).flushes[f].phase == Committed
    ensures var s := Exec(EMPTY, limit, steps); var batch := s.flushes[f].batch;
      forall i :: 0 <= i < |batch| ==> batch[i] in s.rows && s.rows[batch[i]].published
  {
    RunKeepsInv(EMPTY, limit, steps);
    var s := Exec(EMPTY, limit, steps);
    var batch := s.flushes[f].batch;
    forall i | 0 <= i < |batch| ensures batch[i] in s.rows && s.rows[batch[i]].published {
      assert CommittedBy(s, f, batch[i]);
    }
  }

  /** One turn of the loop: publish a row, then mark it; any error rolls back. */
  method PublishRow(world: World, f: FlushId, batch: seq<Event>, i: nat, a: Answers) returns (ok: bool)
    requires world.Valid() && OthersLeave(f, a) && i < |batch|
    requires f in world.state.flushes && world.state.flushes[f] == Flush(batch, i, Publishing)
    modifies world
    ensures world.Valid() && f in world.state.flushes
    ensures ok <==> a.outcome(i) == Delivered && a.marked(i)
    ensures ok ==> world.state.flushes[f] == Flush(batch, i + 1, Publishing)
    ensures !ok ==> world.state.flushes[f].phase == RolledBack && world.state.flushes[f].batch == batch
    ensures Undisturbed(a) && ok ==>
      world.state == Apply(Apply(old(world.state), world.limit, Publish(f, Delivered)), world.limit, Mark(f, true))
  {
    Await(world, f, a, 2 * i);
    world.Take(Publish(f, a.outcome(i)));
    Await(world, f, a, 2 * i + 1);
    ok := a.outcome(i) == Delivered && a.marked(i);
    if a.outcome(i) == Delivered {
      world.Take(Mark(f, a.marked(i)));
    }
    if !ok {
      world.Take(RollBack(f));
    }
  }

  ghost method Await(world: World, f: FlushId, a: Answers, n: nat)
    requires world.Valid() && OthersLeave(f, a)
    modifies world
    ensures world.Valid()
    ensures f in old(world.state).flushes ==>
      f in world.state.flushes && world.state.flushes[f] == old(world.state).flushes[f]
    ensures Undisturbed(a) ==> world.state == old(world.state)
  {
    OthersLeaveFlush(world.state, world.limit, f, a.others(n));
    world.Interfere(a.others(n));
  }
}
