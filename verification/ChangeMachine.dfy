/** Change requests and their states, apps/platform-control-api/src/change-machine.ts. */
module ChangeMachine {
  import opened Prelude
  import opened Json
  import opened Validation

  datatype ChangeState =
    | Draft | Validating | ImpactAnalysis | WaitingApproval | Approved | Provisioning | Deploying
    | Verifying | Stabilizing | Completed | Failed | RollingBack | RolledBack

  datatype Operation =
    | DisableCapability | StopInfrastructure | DestroyInfrastructure | ChangeProvider | ComputeMigration

  datatype Entry = Entry(state: ChangeState, time: int, actorId: string, note: Option<string>)

  datatype ChangeRequest = ChangeRequest(
    id: string, environment: Environment, actorId: string, operation: Operation, capability: string,
    desired: Json, state: ChangeState, approvedBy: Option<string>, createdAt: int, updatedAt: int,
    audit: seq<Entry>)

  function Forward(s: ChangeState): set<ChangeState> {
    match s
    case Draft => {Validating}
    case Validating => {ImpactAnalysis, Failed}
    case ImpactAnalysis => {WaitingApproval, Approved, Failed}
    case WaitingApproval => {Approved, Failed}
    case Approved => {Provisioning, Deploying, Failed}
    case Provisioning => {Deploying, Failed}
    case Deploying => {Verifying, Failed}
    case Verifying => {Stabilizing, Failed}
    case Stabilizing => {Completed, Failed}
    case Failed => {RollingBack}
    case RollingBack => {RolledBack}
    case Completed => {}
    case RolledBack => {}
  }

  function Create(environment: Environment, actorId: string, operation: Operation, capability: string,
                  desired: Json, id: string, now: int): ChangeRequest {
    ChangeRequest(id, environment, actorId, operation, capability, desired, Draft, None, now, now,
                  [Entry(Draft, now, actorId, None)])
  }

  datatype MachineError = InvalidTransition(from: ChangeState, to: ChangeState)

  function Transition(c: ChangeRequest, next: ChangeState, actorId: string, note: Option<string>, now: int)
    : Result<ChangeRequest, MachineError>
  {
    if next !in Forward(c.state) then Err(InvalidTransition(c.state, next))
    else Ok(c.(state := next, updatedAt := now, audit := c.audit + [Entry(next, now, actorId, note)]))
  }

  // ---- The edges ----

  /** The i-th stage of a change that goes well. */
  function Stage(i: nat): ChangeState
    requires i <= 9
  {
    match i
    case 0 => Draft
    case 1 => Validating
    case 2 => ImpactAnalysis
    case 3 => WaitingApproval
    case 4 => Approved
    case 5 => Provisioning
    case 6 => Deploying
    case 7 => Verifying
    case 8 => Stabilizing
    case _ => Completed
  }

  predicate Consecutive(s: ChangeState, n: ChangeState) {
    exists i :: 0 <= i < 9 && s == Stage(i) && n == Stage(i + 1)
  }

  predicate BetweenFirstAndLast(s: ChangeState) {
    exists i :: 1 <= i < 9 && s == Stage(i)
  }

  lemma RankOfStage(i: nat)
    requires i <= 9
    ensures Stage(i) !in {Failed, RollingBack, RolledBack} && Rank(Stage(i)) == i
  {
  }

  lemma StageOfRank(s: ChangeState)
    requires s !in {Failed, RollingBack, RolledBack}
    ensures Rank(s) <= 9 && Stage(Rank(s)) == s && (s == Draft <==> Rank(s) == 0) && (s == Completed <==> Rank(s) == 9)
  {
  }

  lemma StagesAre(s: ChangeState, n: ChangeState)
    ensures Consecutive(s, n) <==> s !in {Completed, Failed, RollingBack, RolledBack} && n == Stage(Rank(s) + 1)
    ensures BetweenFirstAndLast(s) <==> s !in {Draft, Completed, Failed, RollingBack, RolledBack}
  {
    forall i: nat | i <= 9 { RankOfStage(i); }
    if s !in {Failed, RollingBack, RolledBack} { StageOfRank(s); }
    hide Stage, Rank;
  }

  /** A change moves on exactly to the next stage; or past one, from the impact analysis to the
      approval and from there to the deployment; or, from any stage between the first and the last,
      to failure, from which it is only rolled back. */
  lemma EdgesExactly(s: ChangeState, n: ChangeState)
    ensures n in Forward(s) <==>
      || Consecutive(s, n)
      || (s == ImpactAnalysis && n == Approved) || (s == Approved && n == Deploying)
      || (BetweenFirstAndLast(s) && n == Failed)
      || (s == Failed && n == RollingBack) || (s == RollingBack && n == RolledBack)
  {
    StagesAre(s, n);
    hide Consecutive, BetweenFirstAndLast;
  }

  // ---- Paths ----

  /** The states from which a change may write the production desired state. */
  predicate MayMutate(s: ChangeState) {
    s in {Approved, Provisioning, Deploying, Verifying, Stabilizing, Completed}
  }

  /** The trail runs from Draft along the forward relation. */
  ghost predicate Path(audit: seq<Entry>) {
    && audit != [] && audit[0].state == Draft
    && forall i :: 0 < i < |audit| ==> audit[i].state in Forward(audit[i - 1].state)
  }

  function Rank(s: ChangeState): nat {
    match s
    case Draft => 0
    case Validating => 1
    case ImpactAnalysis => 2
    case WaitingApproval => 3
    case Approved => 4
    case Provisioning => 5
    case Deploying => 6
    case Verifying => 7
    case Stabilizing => 8
    case Completed => 9
    case Failed => 9
    case RollingBack => 10
    case RolledBack => 11
  }

  lemma {:induction false} RanksClimb(audit: seq<Entry>, i: nat, j: nat)
    requires Path(audit) && i <= j < |audit|
    ensures Rank(audit[i].state) + j - i <= Rank(audit[j].state)
    decreases j - i
  {
    if i < j {
      assert audit[i + 1].state in Forward(audit[i].state);
      RanksClimb(audit, i + 1, j);
    }
  }

  /** No trail is longer than 12, and no state comes twice. */
  lemma TrailIsBounded(audit: seq<Entry>)
    requires Path(audit)
    ensures |audit| <= 12
    ensures forall i, j :: 0 <= i < j < |audit| ==> audit[i].state != audit[j].state
  {
    RanksClimb(audit, 0, |audit| - 1);
    forall i, j | 0 <= i < j < |audit| ensures audit[i].state != audit[j].state {
      RanksClimb(audit, i, j);
    }
  }

  /** A change that may write the desired state went through Approved. */
  lemma {:induction false} MutationWasApproved(audit: seq<Entry>) returns (i: nat)
    requires Path(audit) && MayMutate(audit[|audit| - 1].state)
    ensures i < |audit| && audit[i].state == Approved
    ensures i > 0 && audit[i - 1].state in {WaitingApproval, ImpactAnalysis}
  {
    i := |audit| - 1;
    while audit[i].state != Approved
      invariant i < |audit| && MayMutate(audit[i].state)
      decreases i
    {
      assert audit[i].state in Forward(audit[i - 1].state);
      i := i - 1;
    }
    assert audit[i].state in Forward(audit[i - 1].state);
  }

  /** A trail of 12 exists: the bound is exact. */
  lemma LongestTrail() returns (audit: seq<Entry>)
    ensures Path(audit) && |audit| == 12
  {
    var states := [Draft, Validating, ImpactAnalysis, WaitingApproval, Approved, Provisioning, Deploying,
                   Verifying, Stabilizing, Failed, RollingBack, RolledBack];
    audit := seq(12, i requires 0 <= i < 12 => Entry(states[i], 0, "", None));
  }
}
