/** Idempotent creation, apps/api/src/idempotency.ts and its caller in apps/api/src/server.ts:
    look the key up, build a candidate, then commit it or read the winner. */
module Idempotency {
  import opened Prelude
  import opened Json

  type Key = string
  type Caller = nat

  datatype Response = Response(status: Number, body: string)

  predicate Finite(r: Response) {
    !r.status.Infinite?
  }

  // ---- Stored form ----

  /** JSON.stringify writes null for a status that is not finite. */
  function Encode(codec: Codec, r: Response): Text {
    codec.stringify(Obj(map["status" := if Finite(r) then Num(r.status) else Null, "body" := Str(r.body)]))
  }

  /** None stands for the IDEMPOTENCY_RECORD_CORRUPT error. */
  function Decode(codec: Codec, t: Text): Option<Response> {
    match codec.parse(t)
    case None => None
    case Some(v) =>
      var body, status := Get(v, "body"), Get(v, "status");
      if body.Some? && body.value.Str? && status.Some? && status.value.Num?
      then Some(Response(status.value.n, body.value.s)) else None
  }

  /** Decoding inverts encoding exactly for finite statuses; any other record is corrupt. */
  lemma DecodeInvertsEncode(codec: Codec, r: Response)
    requires Lawful(codec)
    ensures Decode(codec, Encode(codec, r)) == if Finite(r) then Some(r) else None
  {
    var v := Obj(map["status" := if Finite(r) then Num(r.status) else Null, "body" := Str(r.body)]);
    assert "status" != "body";
    assert Printable(v);
    assert codec.parse(codec.stringify(v)) == Some(v);
  }

  // ---- The memory port ----

  datatype Entry = Entry(value: Text, expiresAt: int)

  type Entries = map<Key, Entry>

  /** What a `get` at this time leaves, and what it finds. */
  function Swept(es: Entries, key: Key, now: int): Entries {
    if key in es && es[key].expiresAt <= now then es - {key} else es
  }

  function Found(es: Entries, key: Key, now: int): Option<Text> {
    if key in es && es[key].expiresAt > now then Some(es[key].value) else None
  }

  function ExpiryOf(ttlSeconds: int, now: int): int {
    now + Max(0, ttlSeconds) * 1000
  }

  function Put(es: Entries, key: Key, value: Text, ttlSeconds: int, now: int): Entries {
    if Found(es, key, now).Some? then es else es[key := Entry(value, ExpiryOf(ttlSeconds, now))]
  }

  // ---- Interleaved callers ----

  /** Where a caller stands; a loser remembers the epoch it lost to. */
  datatype Phase =
    | Looking | Building | Reading(lost: nat) | Responded(response: Response, epoch: nat) | Corrupt | Conflict

  datatype Request = Request(key: Key, candidate: Response, ttlSeconds: int, phase: Phase)

  /** A successful put: it opens an epoch of its key, from `at` until `expiresAt`. */
  datatype Epoch = Epoch(key: Key, winner: Response, at: int, expiresAt: int)

  /** `current` is the epoch of each stored entry; `given` the time of each response. */
  datatype State = State(
    now: int, entries: Entries, callers: map<Caller, Request>, epochs: seq<Epoch>,
    current: map<Key, nat>, given: map<Caller, int>)

  datatype Step =
    | Tick(ms: nat)
    | Arrive(c: Caller, key: Key, candidate: Response, ttlSeconds: int)
    | Look(c: Caller)    // get
    | Commit(c: Caller)  // putIfAbsent
    | Read(c: Caller)    // get, after losing

  const EMPTY := State(0, map[], map[], [], map[], map[])

  predicate Enabled(s: State, step: Step) {
    match step
    case Tick(_) => true
    case Arrive(c, _, _, _) => c !in s.callers
    case Look(c) => c in s.callers && s.callers[c].phase.Looking?
    case Commit(c) => c in s.callers && s.callers[c].phase.Building?
    case Read(c) => c in s.callers && s.callers[c].phase.Reading?
  }

  function To(s: State, c: Caller, p: Phase): State
    requires c in s.callers
  {
    s.(callers := s.callers[c := s.callers[c].(phase := p)])
  }

  function Epochs(s: State, key: Key): nat {
    if key in s.current then s.current[key] else 0
  }

  /** Answer with a stored record, or with the error it decodes to. */
  function Answer(codec: Codec, s: State, c: Caller, text: Text): State
    requires c in s.callers
  {
    match Decode(codec, text)
    case None => To(s, c, Corrupt)
    case Some(r) => To(s, c, Responded(r, Epochs(s, s.callers[c].key))).(given := s.given[c := s.now])
  }

  /** One step; a step that cannot happen now leaves the state alone. */
  function Apply(codec: Codec, s: State, step: Step): State {
    if !Enabled(s, step) then s else
    match step
    case Tick(ms) => s.(now := s.now + ms)
    case Arrive(c, k, r, ttl) => s.(callers := s.callers[c := Request(k, r, ttl, Looking)])
    case Look(c) =>
      var k := s.callers[c].key;
      var t := s.(entries := Swept(s.entries, k, s.now));
      (match Found(s.entries, k, s.now)
       case Some(text) => Answer(codec, t, c, text)
       case None => To(t, c, Building))
    case Commit(c) =>
      var q := s.callers[c];
      if Found(s.entries, q.key, s.now).Some? then To(s, c, Reading(Epochs(s, q.key)))
      else
        var e := |s.epochs|;
        To(s, c, Responded(q.candidate, e)).(
          entries := Put(s.entries, q.key, Encode(codec, q.candidate), q.ttlSeconds, s.now),
          epochs := s.epochs + [Epoch(q.key, q.candidate, s.now, ExpiryOf(q.ttlSeconds, s.now))],
          current := s.current[q.key := e],
          given := s.given[c := s.now])
    case Read(c) =>
      var k := s.callers[c].key;
      var t := s.(entries := Swept(s.entries, k, s.now));
      (match Found(s.entries, k, s.now)
       case Some(text) => Answer(codec, t, c, text)
       case None => To(t, c, Conflict))
  }

  function Exec(codec: Codec, steps: seq<Step>): State {
    if steps == [] then EMPTY else Apply(codec, Exec(codec, steps[..|steps| - 1]), steps[|steps| - 1])
  }

  // ---- Invariant ----

  ghost predicate FiniteCandidates(steps: seq<Step>) {
    forall i :: 0 <= i < |steps| && steps[i].Arrive? ==> Finite(steps[i].candidate)
  }

  /** Every entry is the winner of its key's current epoch. */
  ghost predicate EntriesInv(codec: Codec, s: State) {
    forall k :: k in s.entries ==>
      && k in s.current && s.current[k] < |s.epochs| && s.epochs[s.current[k]].key == k
      && s.entries[k] == Entry(Encode(codec, s.epochs[s.current[k]].winner), s.epochs[s.current[k]].expiresAt)
  }

  /** Epochs of a key follow one another; the current one is the last, and the others are over. */
  ghost predicate EpochsInv(s: State) {
    && (forall i :: 0 <= i < |s.epochs| ==>
          s.epochs[i].at <= s.now && s.epochs[i].at <= s.epochs[i].expiresAt && Finite(s.epochs[i].winner))
    && (forall i, j :: 0 <= i < j < |s.epochs| && s.epochs[i].key == s.epochs[j].key ==>
          s.epochs[i].expiresAt <= s.epochs[j].at)
    && (forall i :: 0 <= i < |s.epochs| ==>
          s.epochs[i].expiresAt <= s.now
          || (s.epochs[i].key in s.entries && s.epochs[i].key in s.current && s.current[s.epochs[i].key] == i))
  }

  /** A response was given in its epoch, or by its winner at the commit, and is the winner's. */
  ghost predicate RequestInv(s: State, c: Caller, q: Request) {
    match q.phase
    case Looking => Finite(q.candidate)
    case Building => Finite(q.candidate)
    case Reading(e) => Finite(q.candidate) && e < |s.epochs| && s.epochs[e].key == q.key
    case Responded(r, e) =>
      && e < |s.epochs| && s.epochs[e].key == q.key && r == s.epochs[e].winner
      && c in s.given && s.epochs[e].at <= s.given[c]
      && (s.given[c] < s.epochs[e].expiresAt || (s.given[c] == s.epochs[e].at && r == q.candidate))
    case Corrupt => false
    case Conflict => true
  }

  ghost predicate RequestsInv(s: State) {
    forall c :: c in s.callers ==> RequestInv(s, c, s.callers[c])
  }

  ghost predicate Inv(codec: Codec, s: State) {
    EntriesInv(codec, s) && EpochsInv(s) && RequestsInv(s)
  }

  lemma AnswerIsWinner(codec: Codec, s: State, c: Caller)
    requires Lawful(codec) && Inv(codec, s) && c in s.callers && Found(s.entries, s.callers[c].key, s.now).Some?
    ensures var k := s.callers[c].key;
      && Decode(codec, Found(s.entries, k, s.now).value) == Some(s.epochs[Epochs(s, k)].winner)
      && Epochs(s, k) < |s.epochs| && s.epochs[Epochs(s, k)].key == k
      && s.epochs[Epochs(s, k)].at <= s.now < s.epochs[Epochs(s, k)].expiresAt
  {
    DecodeInvertsEncode(codec, s.epochs[s.current[s.callers[c].key]].winner);
  }

  /** A request stands as long as no epoch goes away and its own response is as given. */
  lemma RequestStays(s: State, t: State, d: Caller, q: Request)
    requires RequestInv(s, d, q) && s.epochs <= t.epochs
    requires d in s.given ==> d in t.given && t.given[d] == s.given[d]
    ensures RequestInv(t, d, q)
  {
  }

  /** The requests after a step of caller c alone. */
  lemma OthersStay(s: State, t: State, c: Caller)
    requires RequestsInv(s) && s.epochs <= t.epochs && c in t.callers && RequestInv(t, c, t.callers[c])
    requires t.callers == s.callers[c := t.callers[c]]
    requires t.given == s.given || (c in t.given && t.given == s.given[c := t.given[c]])
    ensures RequestsInv(t)
  {
    hide RequestInv;
    forall d | d in t.callers ensures RequestInv(t, d, t.callers[d]) {
      if d != c { RequestStays(s, t, d, s.callers[d]); }
    }
  }

  /** Dropping an entry that has expired changes no epoch. */
  lemma SweepKeepsEpochs(codec: Codec, s: State, t: State, key: Key)
    requires EntriesInv(codec, s) && EpochsInv(s)
    requires t.entries == Swept(s.entries, key, s.now)
    requires t.now == s.now && t.epochs == s.epochs && t.current == s.current
    ensures EntriesInv(codec, t) && EpochsInv(t)
  {
    hide Encode;
  }

  lemma LookAnswers(codec: Codec, s: State, c: Caller, step: Step)
    requires Lawful(codec) && Inv(codec, s) && (step == Look(c) || step == Read(c)) && Enabled(s, step)
    ensures var t := Apply(codec, s, step);
      && t.entries == Swept(s.entries, s.callers[c].key, s.now)
      && t.now == s.now && t.epochs == s.epochs && t.current == s.current
      && c in t.callers && RequestInv(t, c, t.callers[c])
      && t.callers == s.callers[c := t.callers[c]]
      && (t.given == s.given || (c in t.given && t.given == s.given[c := t.given[c]]))
  {
    assert RequestInv(s, c, s.callers[c]);
    if Found(s.entries, s.callers[c].key, s.now).Some? { AnswerIsWinner(codec, s, c); }
    hide Lawful, Encode, Decode, EpochsInv, EntriesInv, RequestsInv, Swept;
  }

  lemma LookKeepsInv(codec: Codec, s: State, c: Caller, step: Step)
    requires Lawful(codec) && Inv(codec, s) && (step == Look(c) || step == Read(c)) && Enabled(s, step)
    ensures Inv(codec, Apply(codec, s, step))
  {
    LookAnswers(codec, s, c, step);
    hide Lawful, Apply, EntriesInv, EpochsInv, RequestInv, RequestsInv;
    SweepKeepsEpochs(codec, s, Apply(codec, s, step), s.callers[c].key);
    OthersStay(s, Apply(codec, s, step), c);
  }

  lemma CommitKeepsEntries(codec: Codec, s: State, c: Caller)
    requires Inv(codec, s) && Enabled(s, Commit(c))
    ensures EntriesInv(codec, Apply(codec, s, Commit(c)))
  {
    hide Encode, EpochsInv, RequestsInv;
  }

  lemma CommitKeepsEpochs(codec: Codec, s: State, c: Caller)
    requires Inv(codec, s) && Enabled(s, Commit(c))
    ensures EpochsInv(Apply(codec, s, Commit(c)))
  {
    assert RequestInv(s, c, s.callers[c]);
    hide Encode, RequestsInv;
    var t := Apply(codec, s, Commit(c));
    if t.epochs != s.epochs {
      forall i | 0 <= i < |s.epochs| && s.epochs[i].key == s.callers[c].key ensures s.epochs[i].expiresAt <= s.now {}
    }
  }

  lemma CommitKeepsInv(codec: Codec, s: State, c: Caller)
    requires Lawful(codec) && Inv(codec, s) && Enabled(s, Commit(c))
    ensures Inv(codec, Apply(codec, s, Commit(c)))
  {
    hide Lawful, Encode, Decode;
    var t := Apply(codec, s, Commit(c));
    CommitKeepsEntries(codec, s, c);
    CommitKeepsEpochs(codec, s, c);
    assert RequestInv(s, c, s.callers[c]);
    CommitAnswers(codec, s, c);
    hide Apply, EntriesInv, EpochsInv, RequestInv;
    OthersStay(s, t, c);
  }

  lemma CommitAnswers(codec: Codec, s: State, c: Caller)
    requires Inv(codec, s) && Enabled(s, Commit(c))
    ensures var t := Apply(codec, s, Commit(c));
      && s.epochs <= t.epochs && c in t.callers && RequestInv(t, c, t.callers[c])
      && t.callers == s.callers[c := t.callers[c]]
      && (t.given == s.given || (c in t.given && t.given == s.given[c := t.given[c]]))
  {
    hide Encode;
    assert RequestInv(s, c, s.callers[c]);
  }

  lemma TickOrArriveKeepsInv(codec: Codec, s: State, step: Step)
    requires Inv(codec, s) && (step.Tick? || step.Arrive?) && Enabled(s, step)
    requires step.Arrive? ==> Finite(step.candidate)
    ensures Inv(codec, Apply(codec, s, step))
  {
    hide Encode, Decode;
    var t := Apply(codec, s, step);
    forall d | d in t.callers ensures RequestInv(t, d, t.callers[d]) {
      if d in s.callers { assert RequestInv(s, d, s.callers[d]); }
    }
  }

  lemma {:induction false} RunKeepsInv(codec: Codec, steps: seq<Step>)
    requires Lawful(codec) && FiniteCandidates(steps)
    ensures Inv(codec, Exec(codec, steps))
  {
    hide Lawful, Inv, Apply;
    if steps == [] {
      EmptyInv(codec);
    } else {
      RunKeepsInv(codec, steps[..|steps| - 1]);
      StepKeepsInv(codec, Exec(codec, steps[..|steps| - 1]), steps[|steps| - 1]);
    }
  }

  lemma EmptyInv(codec: Codec)
    ensures Inv(codec, EMPTY)
  {
  }

  lemma StepKeepsInv(codec: Codec, s: State, step: Step)
    requires Lawful(codec) && Inv(codec, s) && (step.Arrive? ==> Finite(step.candidate))
    ensures Inv(codec, Apply(codec, s, step))
  {
    hide Lawful, Inv;
    if Enabled(s, step) {
      match step
      case Tick(_) => TickOrArriveKeepsInv(codec, s, step);
      case Arrive(_, _, _, _) => TickOrArriveKeepsInv(codec, s, step);
      case Look(c) => LookKeepsInv(codec, s, c, step);
      case Commit(c) => CommitKeepsInv(codec, s, c);
      case Read(c) => LookKeepsInv(codec, s, c, step);
    }
  }

  predicate Answered(s: State, c: Caller, key: Key, epoch: nat) {
    c in s.callers && s.callers[c].key == key && s.callers[c].phase.Responded? && s.callers[c].phase.epoch == epoch
  }

  /** However callers interleave, all responses of one epoch of a key are the response that
      its single winner committed; the epochs of a key do not overlap; each response is given
      within its epoch or by the winner at its commit; and no stored record is corrupt. */
  lemma OneWinnerPerEpoch(codec: Codec, steps: seq<Step>)
    requires Lawful(codec) && FiniteCandidates(steps)
    ensures var s := Exec(codec, steps);
      && (forall k, e: nat, c :: Answered(s, c, k, e) ==>
            && e < |s.epochs| && s.epochs[e].key == k && s.callers[c].phase.response == s.epochs[e].winner
            && c in s.given && s.epochs[e].at <= s.given[c]
            && (s.given[c] < s.epochs[e].expiresAt
                || (s.given[c] == s.epochs[e].at && s.callers[c].phase.response == s.callers[c].candidate)))
      && (forall i, j :: 0 <= i < j < |s.epochs| && s.epochs[i].key == s.epochs[j].key ==>
            s.epochs[i].expiresAt <= s.epochs[j].at)
      && (forall c :: c in s.callers ==> s.callers[c].phase != Corrupt)
  {
    hide Lawful;
    RunKeepsInv(codec, steps);
    var s := Exec(codec, steps);
    forall c | c in s.callers ensures RequestInv(s, c, s.callers[c]) {}
  }

  /** Two responses for a key given at times within one epoch are equal. */
  lemma SameEpochSameResponse(codec: Codec, steps: seq<Step>, c: Caller, d: Caller, e: nat)
    requires Lawful(codec) && FiniteCandidates(steps)
    requires var s := Exec(codec, steps);
      && c in s.callers && d in s.callers && s.callers[c].key == s.callers[d].key
      && s.callers[c].phase.Responded? && s.callers[d].phase.Responded? && c in s.given && d in s.given
      && e < |s.epochs| && s.epochs[e].key == s.callers[c].key
      && s.epochs[e].at <= s.given[c] < s.epochs[e].expiresAt && s.epochs[e].at <= s.given[d] < s.epochs[e].expiresAt
      && Lasting(s, c) && Lasting(s, d)
    ensures Exec(codec, steps).callers[c].phase == Exec(codec, steps).callers[d].phase
  {
    RunKeepsInv(codec, steps);
    hide Lawful, Exec, EntriesInv;
    var s := Exec(codec, steps);
    InThatEpoch(codec, s, c, e);
    InThatEpoch(codec, s, d, e);
  }

  /** The response is not one whose record expired as it was stored. */
  predicate Lasting(s: State, c: Caller) {
    c in s.callers && s.callers[c].phase.Responded? && s.callers[c].phase.epoch < |s.epochs|
    && s.epochs[s.callers[c].phase.epoch].at < s.epochs[s.callers[c].phase.epoch].expiresAt
  }

  lemma InThatEpoch(codec: Codec, s: State, c: Caller, e: nat)
    requires Inv(codec, s) && Lasting(s, c) && c in s.given && e < |s.epochs| && s.epochs[e].key == s.callers[c].key
    requires s.epochs[e].at <= s.given[c] < s.epochs[e].expiresAt
    ensures s.callers[c].phase == Responded(s.epochs[e].winner, e)
  {
    assert RequestInv(s, c, s.callers[c]);
  }

  // ---- How long a winner stands ----

  /** The run goes on from a state. */
  function Continue(codec: Codec, s: State, steps: seq<Step>): State {
    if steps == [] then s else Apply(codec, Continue(codec, s, steps[..|steps| - 1]), steps[|steps| - 1])
  }

  /** Caller c commits now and has its response at once. */
  predicate Wins(codec: Codec, s: State, c: Caller) {
    Enabled(s, Commit(c)) && Apply(codec, s, Commit(c)).callers[c].phase.Responded?
  }

  /** Whoever looks the key up now finds nothing and goes on to commit; whoever commits wins with
      its own candidate. */
  ghost predicate Opens(codec: Codec, s: State, k: Key) {
    forall d :: d in s.callers && s.callers[d].key == k ==>
      && (Enabled(s, Look(d)) ==> Enabled(Apply(codec, s, Look(d)), Commit(d)))
      && (Enabled(s, Commit(d)) ==>
            Wins(codec, s, d) && RespondedWith(Apply(codec, s, Commit(d)), d, s.callers[d].candidate))
  }

  /** The record is there until its time, and nothing else is stored under the key. */
  ghost predicate Stands(s: State, k: Key, record: Text, until: int) {
    (k in s.entries ==> s.entries[k] == Entry(record, until)) && (s.now < until ==> k in s.entries)
  }

  predicate Commits(s: State, step: Step, k: Key) {
    step.Commit? && Enabled(s, step) && s.callers[step.c].key == k
  }

  /** Whoever takes a step that asks for the key is given this response; a commit loses first and
      then reads it. */
  ghost predicate Serves(codec: Codec, s: State, k: Key, r: Response) {
    forall d :: d in s.callers && s.callers[d].key == k ==>
      && (Enabled(s, Look(d)) ==> RespondedWith(Apply(codec, s, Look(d)), d, r))
      && (Enabled(s, Commit(d)) ==>
            var t := Apply(codec, s, Commit(d));
            t.entries == s.entries && t.now == s.now
            && Enabled(t, Read(d)) && RespondedWith(Apply(codec, t, Read(d)), d, r))
      && (Enabled(s, Read(d)) ==> RespondedWith(Apply(codec, s, Read(d)), d, r))
  }

  predicate RespondedWith(s: State, d: Caller, r: Response) {
    d in s.callers && s.callers[d].phase.Responded? && s.callers[d].phase.response == r
  }

  lemma StepStands(codec: Codec, s: State, step: Step, k: Key, record: Text, until: int)
    requires Stands(s, k, record, until) && (Commits(s, step, k) ==> s.now < until)
    ensures Stands(Apply(codec, s, step), k, record, until) && s.now <= Apply(codec, s, step).now
  {
    hide Encode, Decode;
  }

  /** No caller commits the key at or after the time. */
  ghost predicate NoCommitFrom(codec: Codec, s: State, steps: seq<Step>, k: Key, time: int) {
    forall i :: 0 <= i < |steps| && Commits(Continue(codec, s, steps[..i]), steps[i], k) ==>
      Continue(codec, s, steps[..i]).now < time
  }

  lemma {:induction false} RunStands(codec: Codec, s: State, steps: seq<Step>, k: Key, record: Text, until: int)
    requires Stands(s, k, record, until) && NoCommitFrom(codec, s, steps, k, until)
    ensures Stands(Continue(codec, s, steps), k, record, until) && s.now <= Continue(codec, s, steps).now
  {
    if steps != [] {
      var n := |steps| - 1;
      hide Stands, Commits, Apply;
      assert forall i | 0 <= i < n :: steps[..n][..i] == steps[..i] && steps[..n][i] == steps[i];
      RunStands(codec, s, steps[..n], k, record, until);
      StepStands(codec, Continue(codec, s, steps[..n]), steps[n], k, record, until);
    }
  }

  lemma {:induction false} TimePasses(codec: Codec, s: State, steps: seq<Step>, i: nat)
    requires i <= |steps|
    ensures Continue(codec, s, steps[..i]).now <= Continue(codec, s, steps).now
    decreases |steps|
  {
    if i < |steps| {
      var n := |steps| - 1;
      assert steps[..n][..i] == steps[..i];
      TimePasses(codec, s, steps[..n], i);
      hide Encode, Decode;
    } else {
      assert steps[..i] == steps;
    }
  }

  lemma WinnerStands(codec: Codec, s: State, c: Caller)
    requires Wins(codec, s, c)
    ensures var q := s.callers[c]; var t := Apply(codec, s, Commit(c));
      && t.now == s.now && RespondedWith(t, c, q.candidate)
      && Stands(t, q.key, Encode(codec, q.candidate), if q.ttlSeconds > 0 then s.now + 1000 * q.ttlSeconds else s.now)
  {
    hide Encode;
  }

  lemma StandingServes(codec: Codec, s: State, k: Key, r: Response, until: int)
    requires Lawful(codec) && Finite(r) && Stands(s, k, Encode(codec, r), until) && s.now < until
    ensures Serves(codec, s, k, r)
  {
    DecodeInvertsEncode(codec, r);
    hide Lawful, Encode, Decode;
  }

  /** Once a commit of a key wins, everybody who looks the key up, commits or reads it in the next
      n seconds of its time to live is answered with the winner's response, however callers
      interleave. */
  lemma WinnerServesItsTime(codec: Codec, before: seq<Step>, c: Caller, after: seq<Step>)
    requires Lawful(codec) && FiniteCandidates(before)
    requires Wins(codec, Exec(codec, before), c)
    ensures var s := Exec(codec, before); var q := s.callers[c];
      var t := Apply(codec, s, Commit(c)); var later := Continue(codec, t, after);
      && RespondedWith(t, c, q.candidate)
      && (s.now <= later.now < s.now + 1000 * q.ttlSeconds ==> Serves(codec, later, q.key, q.candidate))
  {
    RunKeepsInv(codec, before);
    var s := Exec(codec, before);
    var q := s.callers[c];
    assert RequestInv(s, c, q);
    var t := Apply(codec, s, Commit(c));
    var until := s.now + 1000 * q.ttlSeconds;
    WinnerStands(codec, s, c);
    hide Lawful, Exec, Apply, Stands, Serves, Encode, Commits, Wins, Inv;
    if Continue(codec, t, after).now < until && q.ttlSeconds > 0 {
      forall i | 0 <= i < |after| ensures Continue(codec, t, after[..i]).now < until { TimePasses(codec, t, after, i); }
      RunStands(codec, t, after, q.key, Encode(codec, q.candidate), until);
      StandingServes(codec, Continue(codec, t, after), q.key, q.candidate, until);
    }
  }

  lemma LapsedOpens(codec: Codec, s: State, k: Key, record: Text, until: int)
    requires Stands(s, k, record, until) && s.now >= until
    ensures Opens(codec, s, k)
  {
    hide Encode, Decode;
  }

  /** ... and from then until the next commit of the key the key is open: that commit wins. */
  lemma NextCommitWins(codec: Codec, s: State, c: Caller, after: seq<Step>)
    requires Wins(codec, s, c)
    requires var until := s.now + 1000 * Max(0, s.callers[c].ttlSeconds); var t := Apply(codec, s, Commit(c));
      NoCommitFrom(codec, t, after, s.callers[c].key, until) && Continue(codec, t, after).now >= until
    ensures Opens(codec, Continue(codec, Apply(codec, s, Commit(c)), after), s.callers[c].key)
  {
    var q, t := s.callers[c], Apply(codec, s, Commit(c));
    var until := s.now + 1000 * Max(0, q.ttlSeconds);
    assert until == if q.ttlSeconds > 0 then s.now + 1000 * q.ttlSeconds else s.now;
    hide *;
    WinnerStands(codec, s, c);
    RunStands(codec, t, after, q.key, Encode(codec, q.candidate), until);
    LapsedOpens(codec, Continue(codec, t, after), q.key, Encode(codec, q.candidate), until);
  }

  /** Until the first commit of a key the key is open. */
  lemma {:induction false} FirstCommitWins(codec: Codec, before: seq<Step>, k: Key)
    requires forall i :: 0 <= i < |before| ==> !Commits(Exec(codec, before[..i]), before[i], k)
    ensures k !in Exec(codec, before).entries && Opens(codec, Exec(codec, before), k)
  {
    var s := Exec(codec, before);
    if before != [] {
      var n := |before| - 1;
      hide Commits, Apply, Opens;
      assert forall i | 0 <= i < n :: before[..n][..i] == before[..i] && before[..n][i] == before[i];
      FirstCommitWins(codec, before[..n], k);
      StepStoresNothing(codec, Exec(codec, before[..n]), before[n], k);
    }
    hide Exec;
    LapsedOpens(codec, s, k, [], s.now);
  }

  lemma StepStoresNothing(codec: Codec, s: State, step: Step, k: Key)
    requires k !in s.entries && !Commits(s, step, k)
    ensures k !in Apply(codec, s, step).entries
  {
    hide Encode, Decode;
  }

  // ---- The objects ----

  class MemoryIdempotencyPort {
    var entries: Entries

    constructor ()
      ensures entries == map[]
    {
      entries := map[];
    }

    method Get(key: Key, now: int) returns (value: Option<Text>)
      modifies this
      ensures value == Found(old(entries), key, now) && entries == Swept(old(entries), key, now)
    {
      if key !in entries { return None; }
      if entries[key].expiresAt <= now {
        entries := entries - {key};
        return None;
      }
      value := Some(entries[key].value);
    }

    method PutIfAbsent(key: Key, value: Text, ttlSeconds: int, now: int) returns (stored: bool)
      modifies this
      ensures stored == Found(old(entries), key, now).None?
      ensures stored ==> key in entries
                         && entries[key] == Entry(value, if ttlSeconds > 0 then now + 1000 * ttlSeconds else now)
      ensures entries == Put(old(entries), key, value, ttlSeconds, now)
    {
      if key in entries && entries[key].expiresAt > now { return false; }
      entries := entries[key := Entry(value, now + Max(0, ttlSeconds) * 1000)];
      stored := true;
    }
  }

  datatype StoreError = RecordCorrupt | ConflictingCommit

  class ApiIdempotencyStore {
    const port: MemoryIdempotencyPort
    const codec: Codec

    constructor (port: MemoryIdempotencyPort, codec: Codec)
      ensures this.port == port && this.codec == codec
    {
      this.port, this.codec := port, codec;
    }

    /** Undisturbed, a commit returns the candidate if the key is free, and otherwise the
        stored response, leaving it in place. */
    method CommitOrRead(key: Key, candidate: Response, ttlSeconds: int, now: int)
      returns (r: Result<Response, StoreError>)
      modifies port
      ensures port.entries == Put(old(port.entries), key, Encode(codec, candidate), ttlSeconds, now)
      ensures r == match Found(old(port.entries), key, now)
        case None => Ok(candidate)
        case Some(text) => match Decode(codec, text) case Some(w) => Ok(w) case None => Err(RecordCorrupt)
    {
      var stored := port.PutIfAbsent(key, Encode(codec, candidate), ttlSeconds, now);
      if stored { return Ok(candidate); }
      var winner := port.Get(key, now);
      if winner.None? { return Err(ConflictingCommit); }
      var decoded := Decode(codec, winner.value);
      r := if decoded.Some? then Ok(decoded.value) else Err(RecordCorrupt);
    }
  }
}
