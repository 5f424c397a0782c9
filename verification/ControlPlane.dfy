/** The control plane: the store of apps/platform-control-api/src/store.ts and the handlers of
    apps/platform-control-api/src/server.ts that create changes, move them through approval and
    write the desired state. A handler reads, decides and writes at different times, so handlers
    interleave and decide on versions that others have since replaced. */
module ControlPlane {
  import opened Prelude
  import opened Json
  import opened Validation
  import opened ChangeMachine

  // ---- The store as a history ----

  /** A saved change with the version it was made from, or a desired state with the version of
      the change it was written under. */
  datatype Event =
    | Saved(change: ChangeRequest, from: Option<ChangeRequest>)
    | Written(value: Json, actorId: string, under: Option<ChangeRequest>)
    | Recorded(changeId: string, actorId: string)

  type History = seq<Event>

  function Last(h: History): Event
    requires h != []
  {
    h[|h| - 1]
  }

  function Front(h: History): History
    requires h != []
  {
    h[..|h| - 1]
  }

  function Stored(h: History): (changes: map<string, ChangeRequest>)
    ensures forall id :: id in changes ==> changes[id].id == id
  {
    if h == [] then map[]
    else if Last(h).Saved? then Stored(Front(h))[Last(h).change.id := Last(h).change]
    else Stored(Front(h))
  }

  function Find(h: History, id: string): Option<ChangeRequest> {
    if id in Stored(h) then Some(Stored(h)[id]) else None
  }

  function Desired(h: History): Json {
    if h == [] then Obj(map[])
    else if Last(h).Written? then Last(h).value
    else Desired(Front(h))
  }

  function Version(h: History): nat {
    if h == [] then 1
    else Version(Front(h)) + if Last(h).Written? then 1 else 0
  }

  datatype AuditEntry =
    | ChangeSaved(changeId: string, actorId: string, state: ChangeState)
    | DesiredStateUpdated(actorId: string, configVersion: nat)
    | AppliedFromChange(changeId: string, actorId: string)

  function EntryFor(h: History): AuditEntry
    requires h != []
  {
    match Last(h)
    case Saved(c, _) => ChangeSaved(c.id, c.actorId, c.state)
    case Written(_, actorId, _) => DesiredStateUpdated(actorId, Version(h))
    case Recorded(id, actorId) => AppliedFromChange(id, actorId)
  }

  function AuditLog(h: History): seq<AuditEntry> {
    if h == [] then [] else AuditLog(Front(h)) + [EntryFor(h)]
  }

  class InMemoryControlStore {
    var desiredState: Json
    var configVersion: nat
    var changes: map<string, ChangeRequest>
    var audit: seq<AuditEntry>
    ghost var history: History

    ghost predicate Valid() reads this {
      && desiredState == Desired(history) && configVersion == Version(history)
      && changes == Stored(history) && audit == AuditLog(history)
    }

    constructor ()
      ensures Valid() && history == []
    {
      desiredState, configVersion, changes, audit, history := Obj(map[]), 1, map[], [], [];
    }

    method SaveChange(change: ChangeRequest, ghost from: Option<ChangeRequest>)
      requires Valid()
      modifies this
      ensures Valid() && history == old(history) + [Saved(change, from)]
    {
      changes := changes[change.id := change];
      RecordAudit(ChangeSaved(change.id, change.actorId, change.state), Saved(change, from));
    }

    method SetDesiredState(value: Json, actorId: string, ghost under: Option<ChangeRequest>)
      requires Valid()
      modifies this
      ensures Valid() && history == old(history) + [Written(value, actorId, under)]
    {
      desiredState := value;
      configVersion := configVersion + 1;
      RecordAudit(DesiredStateUpdated(actorId, configVersion), Written(value, actorId, under));
    }

    method RecordAudit(entry: AuditEntry, ghost event: Event)
      modifies this`audit, this`history
      ensures audit == old(audit) + [entry] && history == old(history) + [event]
    {
      audit, history := audit + [entry], history + [event];
      assert Front(history) == old(history);
    }

    method RecordApplied(changeId: string, actorId: string)
      requires Valid()
      modifies this
      ensures Valid() && history == old(history) + [Recorded(changeId, actorId)]
    {
      RecordAudit(AppliedFromChange(changeId, actorId), Recorded(changeId, actorId));
    }

    /** The calls of others that have these events. */
    method Follow(events: History)
      requires Valid()
      modifies this
      ensures Valid() && history == old(history) + events
    {
      hide Stored, Desired, Version, AuditLog;
      for i := 0 to |events|
        invariant Valid() && history == old(history) + events[..i]
      {
        match events[i] {
          case Saved(c, from) => SaveChange(c, from);
          case Written(value, actorId, under) => SetDesiredState(value, actorId, under);
          case Recorded(id, actorId) => RecordApplied(id, actorId);
        }
        assert events[..i + 1] == events[..i] + [events[i]];
      }
      assert events[..|events|] == events;
    }

    method GetChange(id: string) returns (r: Option<ChangeRequest>)
      requires Valid()
      ensures r == Find(history, id) && (r.Some? ==> r.value.id == id)
    {
      r := if id in changes then Some(changes[id]) else None;
    }
  }

  // ---- Handlers ----

  /** The environment the server is scoped to, the test for locked capabilities, and what
      validatePlatformState answers. */
  datatype Config = Config(environment: Environment, locked: string -> bool, valid: Option<Json> -> bool)

  ghost predicate Faithful(config: Config) {
    forall state :: config.valid(state) <==> Clean(state)
  }

  datatype Refusal =
    | InvalidDesiredState | ApprovedProductionChangeRequired | EnvironmentScopeMismatch
    | DestructiveActionRequiresOrchestrator | LockedProductionCapability | ChangeNotFound
    | ProductionApprovalStageRequired | SeparationOfDuties | InvalidChangeTransition

  datatype Request =
    | CreateRequest(environment: Option<Environment>, operation: Operation, capability: string, desired: Json)
    | TransitionRequest(id: string, next: ChangeState, note: Option<string>)
    | PutRequest(body: Option<Json>, changeId: Option<string>)

  /** Where a handler is: about to read the change it needs, about to decide on the version it
      read, about to save or write, about to record the write, or done. */
  datatype Handler =
    | Reading(request: Request, operator: string)
    | Deciding(request: Request, operator: string, snapshot: Option<ChangeRequest>)
    | Saving(change: ChangeRequest, from: Option<ChangeRequest>)
    | Writing(value: Json, operator: string, under: Option<ChangeRequest>)
    | Recording(changeId: string, operator: string)
    | Done(reply: Result<(), Refusal>)

  function DecideCreate(config: Config, r: Request, operator: string, id: string, now: int)
    : Result<ChangeRequest, Refusal>
    requires r.CreateRequest?
  {
    if r.environment.Some? && r.environment.value != config.environment then Err(EnvironmentScopeMismatch)
    else if r.operation.DestroyInfrastructure? then Err(DestructiveActionRequiresOrchestrator)
    else if config.environment == Production && (r.operation.DisableCapability? || r.operation.StopInfrastructure?)
            && config.locked(r.capability) then Err(LockedProductionCapability)
    else Ok(Create(config.environment, operator, r.operation, r.capability, r.desired, id, now))
  }

  function DecideTransition(c: Option<ChangeRequest>, r: Request, operator: string, now: int)
    : Result<ChangeRequest, Refusal>
    requires r.TransitionRequest?
  {
    if c.None? then Err(ChangeNotFound)
    else if c.value.environment == Production && c.value.state == ImpactAnalysis && r.next == Approved then
      Err(ProductionApprovalStageRequired)
    else if c.value.environment == Production && r.next == Approved && c.value.actorId == operator then
      Err(SeparationOfDuties)
    else match Transition(c.value, r.next, operator, r.note, now)
      case Err(_) => Err(InvalidChangeTransition)
      case Ok(next) => Ok(if r.next == Approved then next.(approvedBy := Some(operator)) else next)
  }

  /** An empty approver does not count. */
  predicate Authorises(c: Option<ChangeRequest>) {
    c.Some? && c.value.environment == Production && c.value.approvedBy.Some? && c.value.approvedBy.value != ""
    && MayMutate(c.value.state)
  }

  /** How a request starts: a creation is decided at once, a desired state is validated and,
      in production, waits for the change named by its header. */
  function Start(config: Config, request: Request, operator: string, id: string, now: int): Handler {
    match request
    case CreateRequest(_, _, _, _) =>
      (match DecideCreate(config, request, operator, id, now)
       case Err(e) => Done(Err(e))
       case Ok(c) => Saving(c, None))
    case TransitionRequest(_, _, _) => Reading(request, operator)
    case PutRequest(body, changeId) =>
      if !config.valid(body) || body.None? then Done(Err(InvalidDesiredState))
      else if config.environment == Production then Reading(request, operator)
      else Writing(body.value, operator, None)
  }

  /** No header, or an empty one, names no change. */
  predicate Named(changeId: Option<string>) {
    changeId.Some? && changeId.value != ""
  }

  function ReadFor(h: History, request: Request): Option<ChangeRequest> {
    match request
    case TransitionRequest(id, _, _) => Find(h, id)
    case PutRequest(_, changeId) => if Named(changeId) then Find(h, changeId.value) else None
    case CreateRequest(_, _, _, _) => None
  }

  function Decide(request: Request, operator: string, snapshot: Option<ChangeRequest>, now: int): Handler {
    match request
    case TransitionRequest(_, _, _) =>
      (match DecideTransition(snapshot, request, operator, now)
       case Err(e) => Done(Err(e))
       case Ok(c) => Saving(c, snapshot))
    case PutRequest(Some(value), _) =>
      if Authorises(snapshot) then Writing(value, operator, snapshot)
      else Done(Err(ApprovedProductionChangeRequired))
    case _ => Done(Err(InvalidDesiredState))
  }

  // ---- The protocol ----

  type HandlerId = nat

  datatype State = State(history: History, handlers: map<HandlerId, Handler>)

  const INITIAL := State([], map[])

  datatype Step =
    | Begin(h: HandlerId, request: Request, operator: string, id: string, now: int)
    | Continue(h: HandlerId, now: int)

  predicate CanStep(s: State, step: Step) {
    if step.Begin? then step.h !in s.handlers else step.h in s.handlers && !s.handlers[step.h].Done?
  }

  function NextHandler(config: Config, s: State, step: Step): Handler
    requires CanStep(s, step)
  {
    match step
    case Begin(_, request, operator, id, now) => Start(config, request, operator, id, now)
    case Continue(h, now) =>
      match s.handlers[h]
      case Reading(request, operator) => Deciding(request, operator, ReadFor(s.history, request))
      case Deciding(request, operator, snapshot) => Decide(request, operator, snapshot, now)
      case Saving(_, _) => Done(Ok(()))
      case Writing(_, operator, under) => if under.Some? then Recording(under.value.id, operator) else Done(Ok(()))
      case Recording(_, _) => Done(Ok(()))
      case Done(reply) => Done(reply)
  }

  /** What a step of a handler adds to the store. */
  function Effect(s: State, step: Step): History
    requires CanStep(s, step)
  {
    if step.Begin? then []
    else match s.handlers[step.h]
      case Saving(change, from) => [Saved(change, from)]
      case Writing(value, operator, under) => [Written(value, operator, under)]
      case Recording(id, operator) => [Recorded(id, operator)]
      case _ => []
  }

  function Apply(config: Config, s: State, step: Step): State {
    if !CanStep(s, step) then s
    else State(s.history + Effect(s, step), s.handlers[step.h := NextHandler(config, s, step)])
  }

  function Exec(config: Config, s: State, steps: seq<Step>): State
    decreases |steps|
  {
    if steps == [] then s
    else Apply(config, Exec(config, s, steps[..|steps| - 1]), steps[|steps| - 1])
  }

  // ---- What holds of every version of a change ----

  /** The i-th entry of the trail is a due approval. */
  predicate ApprovalAt(c: ChangeRequest, i: nat)
    requires i < |c.audit|
  {
    && c.audit[i].state == Approved && c.approvedBy == Some(c.audit[i].actorId)
    && (c.environment == Production ==>
          i > 0 && c.audit[i - 1].state == WaitingApproval && c.audit[i].actorId != c.actorId)
  }

  ghost predicate Sound(config: Config, c: ChangeRequest) {
    && c.environment == config.environment && !c.operation.DestroyInfrastructure?
    && (config.environment == Production && (c.operation.DisableCapability? || c.operation.StopInfrastructure?) ==>
          !config.locked(c.capability))
    && Path(c.audit) && c.audit[|c.audit| - 1].state == c.state && c.audit[0].actorId == c.actorId
    && (forall i :: 0 <= i < |c.audit| && c.audit[i].state == Approved ==> ApprovalAt(c, i))
    && (c.approvedBy.Some? ==> exists i :: 0 <= i < |c.audit| && c.audit[i].state == Approved)
  }

  lemma CreatedIsSound(config: Config, r: Request, operator: string, id: string, now: int)
    requires r.CreateRequest?
    ensures match DecideCreate(config, r, operator, id, now) case Err(_) => true case Ok(c) => Sound(config, c)
  {
  }

  lemma TransitionIsSound(config: Config, c: ChangeRequest, r: Request, operator: string, now: int)
    requires r.TransitionRequest? && Sound(config, c)
    ensures match DecideTransition(Some(c), r, operator, now)
      case Err(_) => true
      case Ok(next) => Sound(config, next) && next.id == c.id && Extends(next, c)
  {
    var decided := DecideTransition(Some(c), r, operator, now);
    if decided.Ok? {
      var next := decided.value;
      var n := |c.audit|;
      assert next.audit[..n] == c.audit && next.audit[n].state == r.next;
      TrailIsBounded(next.audit);
      forall i | 0 <= i < |next.audit| && next.audit[i].state == Approved ensures ApprovalAt(next, i) {
        assert i < n ==> next.audit[i] == c.audit[i];
      }
    }
  }

  /** One entry longer than the version it was made from. */
  predicate Extends(c: ChangeRequest, from: ChangeRequest) {
    |c.audit| == |from.audit| + 1 && c.audit[..|from.audit|] == from.audit
  }

  // ---- The invariant ----

  ghost predicate WasSaved(h: History, c: ChangeRequest) {
    exists i :: 0 <= i < |h| && h[i].Saved? && h[i].change == c
  }

  /** An event is due after a history: a saved change is sound and one step from a version
      saved before; a written state is valid and authorised by a version saved before. */
  ghost predicate Due(config: Config, h: History, e: Event) {
    match e
    case Saved(c, from) =>
      && Sound(config, c)
      && (from.None? ==> |c.audit| == 1)
      && (from.Some? ==> from.value.id == c.id && Extends(c, from.value) && WasSaved(h, from.value))
    case Written(value, _, under) =>
      && config.valid(Some(value))
      && (config.environment == Production ==> Authorises(under))
      && (under.Some? ==> WasSaved(h, under.value))
    case Recorded(_, _) => true
  }

  ghost predicate HistoryOk(config: Config, h: History) {
    forall i :: 0 <= i < |h| ==> Due(config, h[..i], h[i])
  }

  ghost predicate RequestOk(config: Config, r: Request) {
    !r.CreateRequest? && (r.PutRequest? ==> config.environment == Production && r.body.Some? && config.valid(r.body))
  }

  ghost predicate HandlerOk(config: Config, h: History, handler: Handler) {
    match handler
    case Reading(request, _) => RequestOk(config, request)
    case Deciding(request, _, snapshot) =>
      RequestOk(config, request) && (snapshot.Some? ==> WasSaved(h, snapshot.value))
    case Saving(c, from) => Due(config, h, Saved(c, from))
    case Writing(value, operator, under) => Due(config, h, Written(value, operator, under))
    case _ => true
  }

  ghost predicate HandlersOk(config: Config, s: State) {
    forall h :: h in s.handlers ==> HandlerOk(config, s.history, s.handlers[h])
  }

  lemma WasSavedStays(h: History, more: History, c: ChangeRequest)
    requires WasSaved(h, c)
    ensures WasSaved(h + more, c)
  {
    var i :| 0 <= i < |h| && h[i].Saved? && h[i].change == c;
    assert (h + more)[i] == h[i];
  }

  lemma SavedIsSound(config: Config, h: History, c: ChangeRequest)
    requires HistoryOk(config, h) && WasSaved(h, c)
    ensures Sound(config, c)
  {
    var i :| 0 <= i < |h| && h[i].Saved? && h[i].change == c;
    hide Sound;
    assert Due(config, h[..i], h[i]);
  }

  lemma {:induction false} StoredWasSaved(h: History, id: string)
    requires id in Stored(h)
    ensures WasSaved(h, Stored(h)[id])
  {
    assert Front(h) + [Last(h)] == h;
    if Last(h).Saved? && Last(h).change.id == id {
      assert h[|h| - 1].change == Stored(h)[id];
    } else {
      StoredWasSaved(Front(h), id);
      WasSavedStays(Front(h), [Last(h)], Stored(h)[id]);
    }
  }

  lemma HandlerOkStays(config: Config, h: History, more: History, handler: Handler)
    requires HandlerOk(config, h, handler)
    ensures HandlerOk(config, h + more, handler)
  {
    hide Sound;
    var needed := match handler
      case Deciding(_, _, snapshot) => snapshot
      case Saving(_, from) => from
      case Writing(_, _, under) => under
      case _ => None;
    if needed.Some? { WasSavedStays(h, more, needed.value); }
  }

  lemma StartIsOk(config: Config, h: History, request: Request, operator: string, id: string, now: int)
    ensures HandlerOk(config, h, Start(config, request, operator, id, now))
  {
    if request.CreateRequest? {
      CreatedIsSound(config, request, operator, id, now);
      hide Sound;
    }
  }

  lemma ReadIsOk(config: Config, h: History, request: Request)
    ensures ReadFor(h, request).Some? ==> WasSaved(h, ReadFor(h, request).value)
  {
    match request {
      case TransitionRequest(id, _, _) => if id in Stored(h) { StoredWasSaved(h, id); }
      case PutRequest(_, Some(id)) => if id in Stored(h) { StoredWasSaved(h, id); }
      case _ =>
    }
  }

  lemma DecideIsOk(config: Config, h: History, request: Request, operator: string,
                   snapshot: Option<ChangeRequest>, now: int)
    requires HistoryOk(config, h) && HandlerOk(config, h, Deciding(request, operator, snapshot))
    ensures HandlerOk(config, h, Decide(request, operator, snapshot, now))
  {
    hide Sound, HistoryOk, WasSaved;
    if request.TransitionRequest? && snapshot.Some? {
      SavedIsSound(config, h, snapshot.value);
      TransitionIsSound(config, snapshot.value, request, operator, now);
    }
  }

  lemma StepKeepsHistory(config: Config, s: State, step: Step)
    requires HistoryOk(config, s.history) && HandlersOk(config, s)
    ensures HistoryOk(config, Apply(config, s, step).history)
  {
    hide Sound, Authorises, WasSaved;
    if CanStep(s, step) {
      var more := Effect(s, step);
      var next := s.history + more;
      assert forall e :: e in more ==> Due(config, s.history, e);
      forall i | 0 <= i < |next| ensures Due(config, next[..i], next[i]) {
        if i < |s.history| {
          assert next[..i] == s.history[..i] && next[i] == s.history[i];
        } else {
          assert next[..i] == s.history && next[i] in more;
        }
      }
    }
  }

  lemma StepKeepsHandlers(config: Config, s: State, step: Step)
    requires HistoryOk(config, s.history) && HandlersOk(config, s)
    ensures HandlersOk(config, Apply(config, s, step))
  {
    if CanStep(s, step) {
      var more := Effect(s, step);
      var handler := NextHandler(config, s, step);
      assert HandlerOk(config, s.history, handler) by {
        match step {
          case Begin(_, request, operator, id, now) => StartIsOk(config, s.history, request, operator, id, now);
          case Continue(h, now) =>
            match s.handlers[h] {
              case Reading(request, _) => ReadIsOk(config, s.history, request);
              case Deciding(request, operator, snapshot) =>
                DecideIsOk(config, s.history, request, operator, snapshot, now);
              case _ =>
            }
        }
      }
      hide HandlerOk, NextHandler, Effect;
      var next := Apply(config, s, step);
      forall h | h in next.handlers ensures HandlerOk(config, next.history, next.handlers[h]) {
        HandlerOkStays(config, s.history, more, next.handlers[h]);
      }
    }
  }

  lemma {:induction false} RunKeepsInv(config: Config, steps: seq<Step>)
    ensures HistoryOk(config, Exec(config, INITIAL, steps).history)
    ensures HandlersOk(config, Exec(config, INITIAL, steps))
    decreases |steps|
  {
    if steps != [] {
      RunKeepsInv(config, steps[..|steps| - 1]);
      var before := Exec(config, INITIAL, steps[..|steps| - 1]);
      StepKeepsHistory(config, before, steps[|steps| - 1]);
      StepKeepsHandlers(config, before, steps[|steps| - 1]);
    }
  }

  // ---- Main results ----

  /** In every run, every stored change is scoped to its environment, its trail is a path of
      the forward relation from Draft to its state, at most 12 long. In production, if it may
      change the desired state, somebody other than its requestor approved it, directly after
      it was waiting for approval, and that is the recorded approver. */
  lemma StoredChangesAreApproved(config: Config, steps: seq<Step>, id: string)
    requires id in Stored(Exec(config, INITIAL, steps).history)
    ensures var c := Stored(Exec(config, INITIAL, steps).history)[id];
      && c.id == id && Sound(config, c) && |c.audit| <= 12
      && (MayMutate(c.state) ==> exists i :: 0 <= i < |c.audit| && ApprovalAt(c, i))
  {
    var h := Exec(config, INITIAL, steps).history;
    RunKeepsInv(config, steps);
    StoredWasSaved(h, id);
    SavedIsSound(config, h, Stored(h)[id]);
    ApprovedOnTheWay(config, Stored(h)[id]);
  }

  lemma ApprovedOnTheWay(config: Config, c: ChangeRequest)
    requires Sound(config, c)
    ensures |c.audit| <= 12
    ensures MayMutate(c.state) ==> exists i :: 0 <= i < |c.audit| && ApprovalAt(c, i)
  {
    TrailIsBounded(c.audit);
    if MayMutate(c.state) {
      var i := MutationWasApproved(c.audit);
      assert ApprovalAt(c, i);
    }
  }

  /** Approved directly after it was waiting, by a named operator other than its requestor, who
      is its recorded approver. */
  predicate ApprovedBetween(c: ChangeRequest, k: nat)
    requires 0 < k < |c.audit|
  {
    && c.audit[k - 1].state == WaitingApproval && c.audit[k].state == Approved
    && c.audit[k].actorId != c.actorId && c.audit[k].actorId != ""
    && c.approvedBy == Some(c.audit[k].actorId)
  }

  lemma AuthorisedIsApproved(config: Config, c: ChangeRequest)
    requires Sound(config, c) && Authorises(Some(c))
    ensures exists k :: 0 < k < |c.audit| && ApprovedBetween(c, k)
  {
    ApprovedOnTheWay(config, c);
    hide Sound;
    var k :| 0 <= k < |c.audit| && ApprovalAt(c, k);
    assert ApprovedBetween(c, k);
  }

  /** In every production run, whatever is written as the desired state passed validation, and
      was written under a version of a change that had been saved before, may change the
      desired state and was approved by a named operator other than its requestor. */
  lemma WritesAreApproved(config: Config, steps: seq<Step>, i: nat)
    requires config.environment == Production && Faithful(config)
    requires i < |Exec(config, INITIAL, steps).history| && Exec(config, INITIAL, steps).history[i].Written?
    ensures var h := Exec(config, INITIAL, steps).history; var e := h[i];
      && Clean(Some(e.value)) && DependenciesMet(Some(e.value)) && LockedMet(Some(e.value), Production)
      && e.under.Some? && WasSaved(h[..i], e.under.value) && MayMutate(e.under.value.state)
      && e.under.value.environment == Production
      && exists k :: 0 < k < |e.under.value.audit| && ApprovedBetween(e.under.value, k)
  {
    hide Exec, Sound, Clean, DependenciesMet, LockedMet, ApprovedBetween;
    var h := Exec(config, INITIAL, steps).history;
    RunKeepsInv(config, steps);
    assert Due(config, h[..i], h[i]);
    CleanMeetsDependencies(Some(h[i].value));
    var c := h[i].under.value;
    WasSavedStays(h[..i], h[i..], c);
    assert h[..i] + h[i..] == h;
    SavedIsSound(config, h, c);
    AuthorisedIsApproved(config, c);
  }

  lemma {:induction false} AuditFollowsHistory(h: History, i: nat)
    requires i < |h|
    ensures |AuditLog(h)| == |h| && AuditLog(h)[i] == EntryFor(h[..i + 1])
  {
    if i < |h| - 1 {
      AuditFollowsHistory(Front(h), i);
      assert Front(h)[..i + 1] == h[..i + 1];
    } else {
      assert h[..i + 1] == h;
      AuditLength(Front(h));
    }
  }

  /** The audit log of a production run shows, before every update of the desired state, the
      save of a change in a state that may change it, and the updates number the versions. */
  lemma AuditShowsAuthority(config: Config, steps: seq<Step>, i: nat)
    requires config.environment == Production && Faithful(config)
    requires i < |AuditLog(Exec(config, INITIAL, steps).history)|
    requires AuditLog(Exec(config, INITIAL, steps).history)[i].DesiredStateUpdated?
    ensures var h := Exec(config, INITIAL, steps).history; var log := AuditLog(h);
      && (exists j :: 0 <= j < i && log[j].ChangeSaved? && MayMutate(log[j].state))
      && |log| == |h| && log[i].configVersion == Version(h[..i]) + 1
  {
    hide Exec, Clean, DependenciesMet, LockedMet, Faithful, AuditLog, WasSaved, ApprovalAt;
    var h := Exec(config, INITIAL, steps).history;
    AuditLength(h);
    AuditFollowsHistory(h, i);
    assert h[..i + 1][i] == h[i] && Front(h[..i + 1]) == h[..i];
    hide Version;
    WritesAreApproved(config, steps, i);
    AuditShowsSave(h, i, h[i].under.value);
  }

  lemma AuditShowsSave(h: History, i: nat, c: ChangeRequest)
    requires i <= |h| && WasSaved(h[..i], c)
    ensures |AuditLog(h)| == |h|
    ensures exists j :: 0 <= j < i && AuditLog(h)[j] == ChangeSaved(c.id, c.actorId, c.state)
  {
    hide AuditLog;
    var j :| 0 <= j < i && h[..i][j].Saved? && h[..i][j].change == c;
    AuditFollowsHistory(h, j);
    assert h[..j + 1][j] == h[..i][j];
  }

  lemma {:induction false} AuditLength(h: History)
    ensures |AuditLog(h)| == |h|
  {
    if h != [] { AuditLength(Front(h)); }
  }

  lemma {:induction false} DesiredWasWritten(h: History) returns (i: nat)
    requires exists k :: 0 <= k < |h| && h[k].Written?
    ensures i < |h| && h[i].Written? && h[i].value == Desired(h)
    ensures forall k :: i < k < |h| ==> !h[k].Written?
  {
    if Last(h).Written? {
      i := |h| - 1;
    } else {
      var k :| 0 <= k < |h| && h[k].Written?;
      assert Front(h)[k] == h[k];
      i := DesiredWasWritten(Front(h));
      assert forall k | 0 <= k < |h| - 1 :: h[k] == Front(h)[k];
    }
  }

  lemma {:induction false} NothingWritten(h: History)
    requires forall k :: 0 <= k < |h| ==> !h[k].Written?
    ensures Desired(h) == Obj(map[])
  {
    if h != [] {
      assert forall k | 0 <= k < |h| - 1 :: h[k] == Front(h)[k];
      NothingWritten(Front(h));
    }
  }

  /** In every run the desired state is the empty one of the start, or one that the validator
      accepts, so that no dependency rule is broken and no locked capability is off. */
  lemma DesiredStateIsSafe(config: Config, steps: seq<Step>)
    requires Faithful(config)
    ensures var desired := Desired(Exec(config, INITIAL, steps).history);
      desired == Obj(map[])
      || (Clean(Some(desired)) && DependenciesMet(Some(desired)) && LockedMet(Some(desired), Production))
  {
    var h := Exec(config, INITIAL, steps).history;
    if exists k :: 0 <= k < |h| && h[k].Written? {
      var i := DesiredWasWritten(h);
      RunKeepsInv(config, steps);
      assert Due(config, h[..i], h[i]);
      CleanMeetsDependencies(Some(h[i].value));
    } else {
      NothingWritten(h);
    }
  }

  // ---- What is accepted ----

  /** A creation is accepted exactly when it names this environment or none, destroys nothing and,
      in production, neither disables nor stops a locked capability; it gives a draft of what was
      asked. */
  lemma CreationAcceptedExactly(config: Config, r: Request, operator: string, id: string, now: int)
    requires r.CreateRequest?
    ensures var decided := DecideCreate(config, r, operator, id, now);
      && (decided.Ok? <==>
            && (r.environment == None || r.environment == Some(config.environment))
            && r.operation != DestroyInfrastructure
            && !(config.environment == Production && r.operation in {DisableCapability, StopInfrastructure}
                 && config.locked(r.capability)))
      && (decided.Ok? ==>
            && decided.value.id == id && decided.value.environment == config.environment
            && decided.value.actorId == operator && decided.value.operation == r.operation
            && decided.value.capability == r.capability && decided.value.desired == r.desired
            && decided.value.state == Draft && decided.value.approvedBy == None
            && decided.value.audit == [Entry(Draft, now, operator, None)])
  {
  }

  /** A transition is accepted exactly when the change exists, the target is forward of its state
      and, in production, an approval comes after the wait for it and from somebody else; it
      moves the change, names an approver exactly for an approval and leaves the rest. */
  lemma TransitionAcceptedExactly(c: Option<ChangeRequest>, r: Request, operator: string, now: int)
    requires r.TransitionRequest?
    ensures var decided := DecideTransition(c, r, operator, now);
      && (decided.Ok? <==>
            && c.Some? && r.next in Forward(c.value.state)
            && (c.value.environment == Production && r.next == Approved ==>
                  c.value.state == WaitingApproval && c.value.actorId != operator))
      && (decided.Ok? ==>
            var next := decided.value;
            && next.state == r.next && next.updatedAt == now
            && next.approvedBy == (if r.next == Approved then Some(operator) else c.value.approvedBy)
            && next.audit == c.value.audit + [Entry(r.next, now, operator, r.note)]
            && next == c.value.(state := next.state, approvedBy := next.approvedBy, updatedAt := now,
                                audit := next.audit))
  {
  }

  lemma AuthorisesExactly(c: Option<ChangeRequest>)
    ensures Authorises(c) <==>
      && c.Some? && c.value.environment == Production && c.value.approvedBy.Some? && c.value.approvedBy.value != ""
      && c.value.state in {Approved, Provisioning, Deploying, Verifying, Stabilizing, Completed}
  {
  }

  /** Continue handler h n times. */
  function Continues(h: HandlerId, now: int, n: nat): seq<Step> {
    if n == 0 then [] else Continues(h, now, n - 1) + [Continue(h, now)]
  }

  /** The handler of a request, undisturbed, with n steps after its start. */
  function Alone(h: HandlerId, r: Request, operator: string, id: string, now: int, n: nat): seq<Step> {
    [Begin(h, r, operator, id, now)] + Continues(h, now, n)
  }

  /** Where the handler is when everything else is as it was. */
  predicate AloneAt(config: Config, s: State, h: HandlerId, steps: seq<Step>, added: History, handler: Handler) {
    Exec(config, s, steps) == State(s.history + added, s.handlers[h := handler])
  }

  lemma AloneBegins(config: Config, s: State, h: HandlerId, r: Request, operator: string, id: string, now: int)
    requires h !in s.handlers
    ensures AloneAt(config, s, h, Alone(h, r, operator, id, now, 0), [], Start(config, r, operator, id, now))
  {
    ExecNext(config, s, [], Begin(h, r, operator, id, now));
    assert Alone(h, r, operator, id, now, 0) == [] + [Begin(h, r, operator, id, now)];
  }

  lemma AloneGoesOn(config: Config, s: State, h: HandlerId, r: Request, operator: string, id: string, now: int, n: nat,
                    added: History, handler: Handler)
    requires AloneAt(config, s, h, Alone(h, r, operator, id, now, n), added, handler) && !handler.Done?
    ensures var t := State(s.history + added, s.handlers[h := handler]);
      AloneAt(config, s, h, Alone(h, r, operator, id, now, n + 1), added + Effect(t, Continue(h, now)),
              NextHandler(config, t, Continue(h, now)))
  {
    var t := State(s.history + added, s.handlers[h := handler]);
    var steps := Alone(h, r, operator, id, now, n);
    ExecNext(config, s, steps, Continue(h, now));
    assert Alone(h, r, operator, id, now, n + 1) == steps + [Continue(h, now)];
    hide Exec, NextHandler, Effect;
    assert (s.history + added) + Effect(t, Continue(h, now)) == s.history + (added + Effect(t, Continue(h, now)));
    var next := NextHandler(config, t, Continue(h, now));
    assert s.handlers[h := handler][h := next] == s.handlers[h := next];
  }

  lemma LastWritten(h: History, value: Json, actorId: string, under: Option<ChangeRequest>, id: string)
    ensures Desired(h + [Written(value, actorId, under)] + [Recorded(id, actorId)]) == value
    ensures Version(h + [Written(value, actorId, under)] + [Recorded(id, actorId)]) == Version(h) + 1
  {
    var one := h + [Written(value, actorId, under)];
    assert Front(one) == h && Front(one + [Recorded(id, actorId)]) == one;
  }

  lemma PutGoesAhead(config: Config, history: History, body: Json, id: string, operator: string, now: int)
    requires config.environment == Production && Faithful(config) && Clean(Some(body))
    requires id != "" && id in Stored(history)
    requires var c := Stored(history)[id];
      && c.environment == Production && c.approvedBy.Some? && c.approvedBy.value != ""
      && c.state in {Approved, Provisioning, Deploying, Verifying, Stabilizing, Completed}
    ensures var r := PutRequest(Some(body), Some(id)); var c := Some(Stored(history)[id]);
      && Start(config, r, operator, "", now) == Reading(r, operator)
      && ReadFor(history, r) == c && c.value.id == id
      && Decide(r, operator, c, now) == Writing(body, operator, c)
  {
    hide Clean;
  }

  /** In production a state that the validator accepts is written by an undisturbed request that
      names a stored production change with a named approver, in any of the six states. */
  lemma ApprovedChangeIsApplied(config: Config, s: State, h: HandlerId, body: Json, id: string, operator: string,
                                now: int)
    requires config.environment == Production && Faithful(config) && h !in s.handlers
    requires Clean(Some(body)) && id != "" && id in Stored(s.history)
    requires var c := Stored(s.history)[id];
      && c.environment == Production && c.approvedBy.Some? && c.approvedBy.value != ""
      && c.state in {Approved, Provisioning, Deploying, Verifying, Stabilizing, Completed}
    ensures var t := Exec(config, s, Alone(h, PutRequest(Some(body), Some(id)), operator, "", now, 4));
      && Desired(t.history) == body && Version(t.history) == Version(s.history) + 1
      && t.handlers == s.handlers[h := Done(Ok(()))]
  {
    var r := PutRequest(Some(body), Some(id));
    var c := Some(Stored(s.history)[id]);
    var written, recorded := Written(body, operator, c), Recorded(id, operator);
    PutGoesAhead(config, s.history, body, id, operator, now);
    hide *;
    AloneBegins(config, s, h, r, operator, "", now);
    AloneReads(config, s, h, r, operator, now);
    AloneDecides(config, s, h, r, operator, now, c);
    AloneWrites(config, s, h, r, operator, now, body, c);
    AloneRecords(config, s, h, r, operator, now, written, id);
    LastWritten(s.history, body, operator, c, id);
    AloneIs(config, s, h, Alone(h, r, operator, "", now, 4), [written] + [recorded], Done(Ok(())));
    assert s.history + ([written] + [recorded]) == s.history + [written] + [recorded];
  }

  lemma AloneReads(config: Config, s: State, h: HandlerId, r: Request, operator: string, now: int)
    requires AloneAt(config, s, h, Alone(h, r, operator, "", now, 0), [], Reading(r, operator))
    ensures AloneAt(config, s, h, Alone(h, r, operator, "", now, 1), [], Deciding(r, operator, ReadFor(s.history, r)))
  {
    AloneGoesOn(config, s, h, r, operator, "", now, 0, [], Reading(r, operator));
    var none: History := [];
    assert s.history + none == s.history && none + none == none;
    hide AloneAt, Alone, ReadFor;
  }

  lemma AloneDecides(config: Config, s: State, h: HandlerId, r: Request, operator: string, now: int,
                     c: Option<ChangeRequest>)
    requires AloneAt(config, s, h, Alone(h, r, operator, "", now, 1), [], Deciding(r, operator, c))
    ensures AloneAt(config, s, h, Alone(h, r, operator, "", now, 2), [], Decide(r, operator, c, now))
  {
    AloneGoesOn(config, s, h, r, operator, "", now, 1, [], Deciding(r, operator, c));
    var none: History := [];
    assert none + none == none;
    hide AloneAt, Alone, Decide;
  }

  lemma AloneWrites(config: Config, s: State, h: HandlerId, r: Request, operator: string, now: int, value: Json,
                    c: Option<ChangeRequest>)
    requires c.Some?
    requires AloneAt(config, s, h, Alone(h, r, operator, "", now, 2), [], Writing(value, operator, c))
    ensures AloneAt(config, s, h, Alone(h, r, operator, "", now, 3), [Written(value, operator, c)],
                    Recording(c.value.id, operator))
  {
    AloneGoesOn(config, s, h, r, operator, "", now, 2, [], Writing(value, operator, c));
    assert [] + [Written(value, operator, c)] == [Written(value, operator, c)];
    hide AloneAt, Alone;
  }

  lemma AloneRecords(config: Config, s: State, h: HandlerId, r: Request, operator: string, now: int, written: Event,
                     id: string)
    requires AloneAt(config, s, h, Alone(h, r, operator, "", now, 3), [written], Recording(id, operator))
    ensures AloneAt(config, s, h, Alone(h, r, operator, "", now, 4), [written] + [Recorded(id, operator)], Done(Ok(())))
  {
    AloneGoesOn(config, s, h, r, operator, "", now, 3, [written], Recording(id, operator));
    hide AloneAt, Alone;
  }

  lemma AloneSaves(config: Config, s: State, h: HandlerId, r: Request, operator: string, now: int,
                   next: ChangeRequest, c: Option<ChangeRequest>)
    requires AloneAt(config, s, h, Alone(h, r, operator, "", now, 2), [], Saving(next, c))
    ensures AloneAt(config, s, h, Alone(h, r, operator, "", now, 3), [Saved(next, c)], Done(Ok(())))
  {
    AloneGoesOn(config, s, h, r, operator, "", now, 2, [], Saving(next, c));
    assert [] + [Saved(next, c)] == [Saved(next, c)];
    hide AloneAt, Alone;
  }

  lemma AloneIs(config: Config, s: State, h: HandlerId, steps: seq<Step>, added: History, handler: Handler)
    requires AloneAt(config, s, h, steps, added, handler)
    ensures Exec(config, s, steps) == State(s.history + added, s.handlers[h := handler])
  {
  }

  /** An undisturbed request for a transition that is accepted leaves the next version stored. */
  lemma AcceptedTransitionIsStored(config: Config, s: State, h: HandlerId, r: Request, operator: string, now: int)
    requires r.TransitionRequest? && h !in s.handlers
    requires DecideTransition(Find(s.history, r.id), r, operator, now).Ok?
    ensures var t := Exec(config, s, Alone(h, r, operator, "", now, 3));
      var next := DecideTransition(Find(s.history, r.id), r, operator, now).value;
      && t.history == s.history + [Saved(next, Find(s.history, r.id))] && Find(t.history, r.id) == Some(next)
      && t.handlers == s.handlers[h := Done(Ok(()))]
  {
    var c := Find(s.history, r.id);
    var next := DecideTransition(c, r, operator, now).value;
    assert c.Some? && next.id == r.id;
    assert Front(s.history + [Saved(next, c)]) == s.history;
    assert Find(s.history + [Saved(next, c)], r.id) == Some(next);
    assert Start(config, r, operator, "", now) == Reading(r, operator) && ReadFor(s.history, r) == c;
    assert Decide(r, operator, c, now) == Saving(next, c);
    hide *;
    AloneBegins(config, s, h, r, operator, "", now);
    AloneReads(config, s, h, r, operator, now);
    AloneDecides(config, s, h, r, operator, now, c);
    AloneSaves(config, s, h, r, operator, now, next, c);
    AloneIs(config, s, h, Alone(h, r, operator, "", now, 3), [Saved(next, c)], Done(Ok(())));
  }

  // ---- Lost updates ----

  function Saves(h: History, id: string): nat {
    if h == [] then 0
    else Saves(Front(h), id) + if Last(h).Saved? && Last(h).change.id == id then 1 else 0
  }

  /** Every save of the change was made from the version stored at that moment. */
  predicate AlwaysCurrent(h: History, id: string) {
    h == []
    || (AlwaysCurrent(Front(h), id)
        && (Last(h).Saved? && Last(h).change.id == id ==> Last(h).from == Find(Front(h), id)))
  }

  lemma {:induction false} NotSavedYet(h: History, id: string)
    ensures Saves(h, id) == 0 <==> id !in Stored(h)
  {
    if h != [] { NotSavedYet(Front(h), id); }
  }

  /** A version saved earlier is no longer than the saves so far, and shorter than that if it
      has been replaced. */
  lemma {:induction false} VersionsAreShort(config: Config, h: History, c: ChangeRequest)
    requires HistoryOk(config, h) && WasSaved(h, c)
    ensures |c.audit| <= Saves(h, c.id)
    ensures c.id in Stored(h)
    ensures Stored(h)[c.id] != c ==> |c.audit| < Saves(h, c.id)
  {
    hide Sound, Authorises;
    var front, last := Front(h), Last(h);
    FrontIsOk(config, h);
    hide HistoryOk;
    if last.Saved? && last.change == c {
      if last.from.Some? {
        VersionsAreShort(config, front, last.from.value);
      }
    } else {
      SavedBefore(h, c);
      VersionsAreShort(config, front, c);
    }
  }

  lemma SavedBefore(h: History, c: ChangeRequest)
    requires WasSaved(h, c) && !(Last(h).Saved? && Last(h).change == c)
    ensures WasSaved(Front(h), c)
  {
    var i :| 0 <= i < |h| && h[i].Saved? && h[i].change == c;
    assert Front(h)[i] == h[i];
  }

  lemma FrontIsOk(config: Config, h: History)
    requires HistoryOk(config, h) && h != []
    ensures HistoryOk(config, Front(h)) && Due(config, Front(h), Last(h))
  {
    forall i | 0 <= i < |h| - 1 ensures Due(config, Front(h)[..i], Front(h)[i]) {
      assert h[..i] == Front(h)[..i];
      assert Due(config, h[..i], h[i]);
    }
  }

  /** No save of a change was lost, its trail has an entry for each, exactly when every save
      was made from the version stored at that moment. The handlers do not ensure it. */
  lemma {:induction false} NoLostUpdate(config: Config, h: History, id: string)
    requires HistoryOk(config, h) && id in Stored(h)
    ensures |Stored(h)[id].audit| <= Saves(h, id)
    ensures |Stored(h)[id].audit| == Saves(h, id) <==> AlwaysCurrent(h, id)
  {
    var front, last := Front(h), Last(h);
    FrontIsOk(config, h);
    NotSavedYet(front, id);
    StoredWasSaved(h, id);
    VersionsAreShort(config, h, Stored(h)[id]);
    if id in Stored(front) { NoLostUpdate(config, front, id); }
    if last.Saved? && last.change.id == id {
      if last.from.Some? { VersionsAreShort(config, front, last.from.value); }
    } else {
      assert id in Stored(front);
    }
    if id !in Stored(front) { NeverSaved(front, id); }
  }

  lemma {:induction false} NeverSaved(h: History, id: string)
    requires id !in Stored(h)
    ensures AlwaysCurrent(h, id)
  {
    if h != [] { NeverSaved(Front(h), id); }
  }

  lemma NoUpdateLostInRun(config: Config, steps: seq<Step>, id: string)
    requires id in Stored(Exec(config, INITIAL, steps).history)
    ensures var h := Exec(config, INITIAL, steps).history;
      && |Stored(h)[id].audit| <= Saves(h, id)
      && (|Stored(h)[id].audit| == Saves(h, id) <==> AlwaysCurrent(h, id))
  {
    RunKeepsInv(config, steps);
    NoLostUpdate(config, Exec(config, INITIAL, steps).history, id);
  }

  lemma ExecNext(config: Config, s: State, steps: seq<Step>, step: Step)
    ensures Exec(config, s, steps + [step]) == Apply(config, Exec(config, s, steps), step)
  {
    assert (steps + [step])[..|steps|] == steps;
  }

  /** Whenever two transitions of the same version are allowed, a schedule exists in which both
      are saved and only the second remains, whatever the first was, a refusal included. */
  lemma SecondSaveWins(config: Config, s: State, h: HandlerId, k: HandlerId, p: string, q: string,
                       r: Request, t: Request, now: int) returns (steps: seq<Step>)
    requires h != k && h !in s.handlers && k !in s.handlers
    requires r.TransitionRequest? && t.TransitionRequest? && r.id == t.id && r.id in Stored(s.history)
    requires DecideTransition(Find(s.history, r.id), r, p, now).Ok?
    requires DecideTransition(Find(s.history, r.id), t, q, now).Ok?
    ensures var c := Find(s.history, r.id); var after := Exec(config, s, steps).history;
      var first, second := DecideTransition(c, r, p, now).value, DecideTransition(c, t, q, now).value;
      && after == s.history + [Saved(first, c), Saved(second, c)]
      && Find(after, r.id) == Some(second) && second.audit == c.value.audit + [Entry(t.next, now, q, t.note)]
  {
    var c := Find(s.history, r.id);
    var first, second := DecideTransition(c, r, p, now).value, DecideTransition(c, t, q, now).value;
    var schedule := [Begin(h, r, p, "", now), Begin(k, t, q, "", now), Continue(h, now), Continue(k, now),
                     Continue(h, now), Continue(k, now)];
    steps := [];
    var current := s;
    for i := 0 to 6
      invariant Exec(config, s, steps) == current && current.history == s.history
      invariant h in current.handlers <==> i >= 1
      invariant k in current.handlers <==> i >= 2
      invariant 1 <= i <= 2 ==> current.handlers[h] == Reading(r, p)
      invariant 2 <= i <= 3 ==> current.handlers[k] == Reading(t, q)
      invariant 3 <= i <= 4 ==> current.handlers[h] == Deciding(r, p, c)
      invariant 4 <= i <= 5 ==> current.handlers[k] == Deciding(t, q, c)
      invariant i >= 5 ==> current.handlers[h] == Saving(first, c)
      invariant i >= 6 ==> current.handlers[k] == Saving(second, c)
    {
      ExecNext(config, s, steps, schedule[i]);
      hide Exec, DecideTransition, Find, Stored;
      current := Apply(config, current, schedule[i]);
      steps := steps + [schedule[i]];
    }
    ExecNext(config, s, steps, Continue(h, now));
    ExecNext(config, s, steps + [Continue(h, now)], Continue(k, now));
    steps := steps + [Continue(h, now)] + [Continue(k, now)];
    assert Front(s.history + [Saved(first, c)] + [Saved(second, c)]) == s.history + [Saved(first, c)];
    assert Front(s.history + [Saved(first, c)]) == s.history;
  }

  // ---- The handlers as they run ----

  lemma {:induction false} ExecAppend(config: Config, s: State, a: seq<Step>, b: seq<Step>)
    ensures Exec(config, s, a + b) == Exec(config, Exec(config, s, a), b)
    decreases |b|
  {
    if b == [] {
      assert a + b == a;
    } else {
      ExecAppend(config, s, a, b[..|b| - 1]);
      assert a + b == (a + b[..|b| - 1]) + [b[|b| - 1]];
      ExecNext(config, s, a + b[..|b| - 1], b[|b| - 1]);
    }
  }

  ghost predicate Leaves(h: HandlerId, steps: seq<Step>) {
    forall i :: 0 <= i < |steps| ==> steps[i].h != h
  }

  lemma {:induction false} OthersLeaveHandler(config: Config, s: State, h: HandlerId, steps: seq<Step>)
    requires Leaves(h, steps)
    ensures var after := Exec(config, s, steps);
      && s.history <= after.history && (h in after.handlers <==> h in s.handlers)
      && (h in s.handlers ==> after.handlers[h] == s.handlers[h])
    decreases |steps|
  {
    if steps != [] { OthersLeaveHandler(config, s, h, steps[..|steps| - 1]); }
  }

  /** The process: its store, and where every handler is. */
  class Server {
    const config: Config
    const store: InMemoryControlStore
    var state: State
    ghost var schedule: seq<Step>  // every step taken so far

    ghost predicate Valid() reads this, store {
      store.Valid() && store.history == state.history && state == Exec(config, INITIAL, schedule)
    }

    constructor (config: Config)
      ensures Valid() && this.config == config && state == INITIAL && fresh(store)
    {
      this.config := config;
      store := new InMemoryControlStore();
      state, schedule := INITIAL, [];
    }

    /** Note a step whose effect the store has had. */
    method Note(step: Step)
      requires CanStep(state, step) && store.Valid() && state == Exec(config, INITIAL, schedule)
      requires store.history == state.history + Effect(state, step)
      modifies this
      ensures Valid() && state == Apply(config, old(state), step)
    {
      ExecNext(config, INITIAL, schedule, step);
      state, schedule := Apply(config, state, step), schedule + [step];
    }

    /** Everybody else's steps while handler h awaits. */
    method Await(h: HandlerId, others: seq<Step>)
      requires Valid() && Leaves(h, others)
      modifies this, store
      ensures Valid() && old(state.history) <= state.history && (h in state.handlers <==> h in old(state.handlers))
      ensures h in state.handlers ==> state.handlers[h] == old(state.handlers[h])
    {
      OthersLeaveHandler(config, state, h, others);
      ExecAppend(config, INITIAL, schedule, others);
      var events := Exec(config, state, others).history[|state.history|..];
      state, schedule := Exec(config, state, others), schedule + others;
      hide Exec, Stored, Desired, Version, AuditLog;
      store.Follow(events);
    }
  }

  /** A request to create a change is decided at once; if it is accepted, the new change has
      been saved when the reply is sent. */
  method CreateChange(server: Server, h: HandlerId, r: Request, operator: string, id: string, now: int,
                      others: seq<Step>)
    returns (reply: Result<ChangeRequest, Refusal>)
    requires server.Valid() && h !in server.state.handlers && r.CreateRequest? && Leaves(h, others)
    modifies server, server.store
    ensures server.Valid() && old(server.state.history) <= server.state.history
    ensures reply == DecideCreate(server.config, r, operator, id, now)
    ensures reply.Ok? ==>
      server.state.history != [] && Last(server.state.history) == Saved(reply.value, None)
    ensures reply.Err? ==> server.state.history == old(server.state.history)
  {
    server.Note(Begin(h, r, operator, id, now));
    if r.environment.Some? && r.environment.value != server.config.environment {
      return Err(EnvironmentScopeMismatch);
    }
    if r.operation.DestroyInfrastructure? {
      return Err(DestructiveActionRequiresOrchestrator);
    }
    if server.config.environment == Production && (r.operation.DisableCapability? || r.operation.StopInfrastructure?)
       && server.config.locked(r.capability)
    {
      return Err(LockedProductionCapability);
    }
    var change := Create(server.config.environment, operator, r.operation, r.capability, r.desired, id, now);
    server.Await(h, others);
    server.store.SaveChange(change, None);
    server.Note(Continue(h, now));
    reply := Ok(change);
  }

  /** The version is one that was stored at some moment since the history was `before`. */
  ghost predicate StoredSince(before: History, h: History, id: string, version: Option<ChangeRequest>) {
    exists n :: |before| <= n <= |h| && version == Find(h[..n], id)
  }

  lemma StoredNow(before: History, h: History, id: string)
    requires |before| <= |h|
    ensures StoredSince(before, h, id, Find(h, id))
  {
    assert h[..|h|] == h;
  }

  lemma StoredSinceStays(before: History, h: History, later: History, id: string, version: Option<ChangeRequest>)
    requires StoredSince(before, h, id, version) && h <= later
    ensures StoredSince(before, later, id, version)
  {
    var n :| |before| <= n <= |h| && version == Find(h[..n], id);
    assert later[..n] == h[..n];
  }

  predicate Wants(r: Request, id: string) {
    match r
    case TransitionRequest(wanted, _, _) => wanted == id
    case PutRequest(_, changeId) => Named(changeId) && changeId.value == id
    case CreateRequest(_, _, _, _) => false
  }

  /** Read the change that a waiting request needs, and wait again before deciding. */
  method ReadChange(server: Server, h: HandlerId, id: string, now: int, others: nat -> seq<Step>)
    returns (version: Option<ChangeRequest>)
    requires server.Valid() && h in server.state.handlers && forall n: nat :: Leaves(h, others(n))
    requires server.state.handlers[h].Reading? && Wants(server.state.handlers[h].request, id)
    modifies server, server.store
    ensures server.Valid() && old(server.state.history) <= server.state.history && h in server.state.handlers
    ensures version.Some? ==> version.value.id == id
    ensures StoredSince(old(server.state.history), server.state.history, id, version)
    ensures var was := old(server.state.handlers[h]);
      server.state.handlers[h] == Deciding(was.request, was.operator, version)
  {
    hide Stored, Desired, Version, AuditLog, Exec, Find, StoredSince;
    ghost var before := server.state.history;
    server.Await(h, others(0));
    version := server.store.GetChange(id);
    ghost var read := server.state.history;
    StoredNow(before, read, id);
    server.Note(Continue(h, now));
    server.Await(h, others(1));
    StoredSinceStays(before, read, server.state.history, id, version);
  }

  /** A request for a transition is decided on one version that was stored while the request
      was served; if it is accepted, the next version has been saved when the reply is sent. */
  method TransitionChange(server: Server, h: HandlerId, r: Request, operator: string, now: int,
                          others: nat -> seq<Step>)
    returns (reply: Result<ChangeRequest, Refusal>, ghost version: Option<ChangeRequest>)
    requires server.Valid() && h !in server.state.handlers && r.TransitionRequest?
    requires forall n: nat :: Leaves(h, others(n))
    modifies server, server.store
    ensures server.Valid() && old(server.state.history) <= server.state.history
    ensures StoredSince(old(server.state.history), server.state.history, r.id, version)
    ensures reply == DecideTransition(version, r, operator, now)
    ensures reply.Ok? ==>
      server.state.history != [] && Last(server.state.history) == Saved(reply.value, version)
  {
    hide Stored, Desired, Version, AuditLog, Exec, Find, StoredSince;
    ghost var before := server.state.history;
    server.Note(Begin(h, r, operator, "", now));
    var current := ReadChange(server, h, r.id, now, others);
    version := current;
    ghost var decided := server.state.history;
    server.Note(Continue(h, now));
    if current.None? { return Err(ChangeNotFound), version; }
    var c := current.value;
    if c.environment == Production && c.state == ImpactAnalysis && r.next == Approved {
      return Err(ProductionApprovalStageRequired), version;
    }
    if c.environment == Production && r.next == Approved && c.actorId == operator {
      return Err(SeparationOfDuties), version;
    }
    var moved := Transition(c, r.next, operator, r.note, now);
    if moved.Err? { return Err(InvalidChangeTransition), version; }
    var next := moved.value;
    if r.next == Approved { next := next.(approvedBy := Some(operator)); }
    server.Await(h, others(2));
    server.store.SaveChange(next, current);
    server.Note(Continue(h, now));
    StoredSinceStays(before, decided, server.state.history, r.id, version);
    reply := Ok(next);
  }

  /** The write of a handler that is about to write, and the record of the change it names. */
  method WriteDesiredState(server: Server, h: HandlerId, value: Json, operator: string, version: Option<ChangeRequest>,
                           now: int, others: nat -> seq<Step>)
    returns (ghost writtenAt: nat)
    requires server.Valid() && h in server.state.handlers && forall n: nat :: Leaves(h, others(n))
    requires server.state.handlers[h] == Writing(value, operator, version)
    modifies server, server.store
    ensures server.Valid() && old(server.state.history) <= server.state.history
    ensures |old(server.state.history)| <= writtenAt < |server.state.history|
    ensures server.state.history[writtenAt] == Written(value, operator, version)
  {
    hide Stored, Desired, Version, AuditLog, Exec;
    server.Await(h, others(2));
    writtenAt := |server.state.history|;
    server.store.SetDesiredState(value, operator, version);
    server.Note(Continue(h, now));
    if version.Some? {
      server.Await(h, others(3));
      server.store.RecordApplied(version.value.id, operator);
      server.Note(Continue(h, now));
    }
  }

  /** A desired state is written exactly when the validator accepts it and, in production, the
      change that the header names authorises it in a version stored while it was served. */
  method PutDesiredState(server: Server, h: HandlerId, body: Option<Json>, changeId: Option<string>, operator: string,
                         now: int, others: nat -> seq<Step>)
    returns (reply: Result<(), Refusal>, ghost version: Option<ChangeRequest>, ghost writtenAt: nat)
    requires server.Valid() && h !in server.state.handlers && Faithful(server.config)
    requires forall n: nat :: Leaves(h, others(n))
    modifies server, server.store
    ensures server.Valid() && old(server.state.history) <= server.state.history
    ensures reply.Ok? <==>
      Clean(body)
      && (server.config.environment == Production ==>
            && version.Some? && version.value.environment == Production
            && version.value.approvedBy.Some? && version.value.approvedBy.value != ""
            && version.value.state in {Approved, Provisioning, Deploying, Verifying, Stabilizing, Completed})
    ensures reply == Err(InvalidDesiredState) <==> !Clean(body)
    ensures server.config.environment == Production && Clean(body) ==>
      if Named(changeId) then StoredSince(old(server.state.history), server.state.history, changeId.value, version)
      else version == None
    ensures reply.Ok? ==>
      |old(server.state.history)| <= writtenAt < |server.state.history|
      && body.Some? && server.state.history[writtenAt] == Written(body.value, operator, version)
  {
    hide Stored, Desired, Version, AuditLog, Exec, Find, Clean, StoredSince, Reported, LockedMet, Authorises;
    forall v { AuthorisesExactly(v); }
    ghost var before := server.state.history;
    version, writtenAt := None, 0;
    var valid, _, _ := ValidatePlatformState(body, server.config.environment);
    CleanIsSomething(body);
    server.Note(Begin(h, PutRequest(body, changeId), operator, "", now));
    if !valid { return Err(InvalidDesiredState), None, 0; }
    var change: Option<ChangeRequest> := None;
    if server.config.environment == Production {
      if Named(changeId) {
        change := ReadChange(server, h, changeId.value, now, others);
      } else {
        server.Note(Continue(h, now));
      }
      version := change;
      server.Note(Continue(h, now));
      if !Authorises(change) { return Err(ApprovedProductionChangeRequired), version, 0; }
    }
    ghost var decided := server.state.history;
    writtenAt := WriteDesiredState(server, h, body.value, operator, change, now, others);
    if server.config.environment == Production && Named(changeId) {
      StoredSinceStays(before, decided, server.state.history, changeId.value, version);
    }
    reply := Ok(());
  }

  lemma CleanIsSomething(state: Option<Json>)
    ensures Clean(state) ==> state.Some?
  {
    assert !HasShape(state) ==> Reported(state, Issue([], InvalidShape));
  }
}
