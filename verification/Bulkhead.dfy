/** The Bulkhead semaphore of packages/platform-sdk/src/resilience.ts.

    `run` is cut at its awaits into three atomic segments: the arrival up to the
    first await, the resumption of a waiter whose promise has been resolved, and the
    `finally` block. A schedule is any sequence of segments of any callers. */
module Bulkhead {
  import opened Prelude

  type Caller = nat

  datatype State = State(
    limit: int,
    active: int,
    waiters: seq<Caller>,
    woken: set<Caller>,     // resolved, but their continuation has not run yet
    running: set<Caller>,   // inside fn
    arrived: set<Caller>,
    queued: seq<Caller>,    // every caller that ever had to wait, in arrival order
    awakened: seq<Caller>)  // every caller ever taken off the queue, in that order

  datatype Step = Arrive(c: Caller) | Resume(c: Caller) | Finish(c: Caller)

  function Init(limit: int): State {
    State(limit, 0, [], {}, {}, {}, [], [])
  }

  predicate Enabled(s: State, step: Step) {
    match step
    case Arrive(c) => c !in s.arrived
    case Resume(c) => c in s.woken
    case Finish(c) => c in s.running
  }

  /** One segment; a segment that cannot run now leaves the state alone. */
  function Apply(s: State, step: Step): State {
    if !Enabled(s, step) then s else
    match step
    case Arrive(c) =>
      var t := s.(arrived := s.arrived + {c});
      if s.active >= s.limit then t.(waiters := s.waiters + [c], queued := s.queued + [c])
      else t.(active := s.active + 1, running := s.running + {c})
    case Resume(c) =>
      s.(woken := s.woken - {c}, active := s.active + 1, running := s.running + {c})
    case Finish(c) =>
      var t := s.(active := s.active - 1, running := s.running - {c});
      if s.waiters == [] then t
      else t.(waiters := s.waiters[1..], woken := s.woken + {s.waiters[0]},
              awakened := s.awakened + [s.waiters[0]])
  }

  function Exec(s: State, steps: seq<Step>): State
    decreases steps
  {
    if steps == [] then s else Exec(Apply(s, steps[0]), steps[1..])
  }

  /** Nobody queues twice, or queues and is served; the queue is what has not been woken. */
  ghost predicate QueueInv(s: State) {
    && s.queued == s.awakened + s.waiters
    && (forall i, j :: 0 <= i < j < |s.waiters| ==> s.waiters[i] != s.waiters[j])
    && (forall i :: 0 <= i < |s.waiters| ==>
          s.waiters[i] in s.arrived && s.waiters[i] !in s.woken && s.waiters[i] !in s.running)
  }

  ghost predicate SlotsInv(s: State) {
    && s.active == |s.running|
    && s.woken !! s.running
    && s.woken + s.running <= s.arrived
    // No lost wake-up: while somebody queues, the slots are taken or handed over.
    && (s.waiters != [] ==> s.active + |s.woken| >= s.limit)
  }

  ghost predicate Inv(s: State) {
    QueueInv(s) && SlotsInv(s)
  }

  lemma ArriveKeepsQueue(s: State, c: Caller)
    requires Inv(s) && Enabled(s, Arrive(c))
    ensures QueueInv(Apply(s, Arrive(c)))
  {
    var t := Apply(s, Arrive(c));
    if t.waiters != s.waiters {
      assert t.queued == t.awakened + t.waiters by {
        assert s.queued + [c] == s.awakened + (s.waiters + [c]);
      }
    }
  }

  lemma FinishKeepsQueue(s: State, c: Caller)
    requires Inv(s) && Enabled(s, Finish(c)) && s.waiters != []
    ensures QueueInv(Apply(s, Finish(c)))
  {
    var t, w := Apply(s, Finish(c)), s.waiters[0];
    assert t.queued == t.awakened + t.waiters by {
      assert s.waiters == [w] + s.waiters[1..];
    }
    forall i | 0 <= i < |t.waiters|
      ensures t.waiters[i] == s.waiters[i + 1] && t.waiters[i] != w
    {
    }
  }

  lemma FinishKeepsSlots(s: State, c: Caller)
    requires Inv(s) && Enabled(s, Finish(c))
    ensures SlotsInv(Apply(s, Finish(c)))
  {
    assert |s.running - {c}| == |s.running| - 1;
    if s.waiters != [] {
      var w := s.waiters[0];
      assert w !in s.woken && w !in s.running && w in s.arrived;
      hide QueueInv;
      assert |s.woken + {w}| == |s.woken| + 1;
    }
  }

  lemma StepKeepsSlots(s: State, step: Step)
    requires Inv(s) && Enabled(s, step)
    ensures SlotsInv(Apply(s, step)) && Apply(s, step).limit == s.limit
  {
    hide QueueInv;
    if step.Finish? { FinishKeepsSlots(s, step.c); }
  }

  lemma StepKeepsInv(s: State, step: Step)
    requires Inv(s)
    ensures Inv(Apply(s, step)) && Apply(s, step).limit == s.limit
  {
    if Enabled(s, step) {
      StepKeepsSlots(s, step);
      hide SlotsInv;
      match step
      case Arrive(c) => ArriveKeepsQueue(s, c);
      case Resume(c) =>
      case Finish(c) => if s.waiters != [] { FinishKeepsQueue(s, c); }
    }
  }

  lemma {:induction false} RunKeepsInv(s: State, steps: seq<Step>)
    requires Inv(s)
    ensures Inv(Exec(s, steps)) && Exec(s, steps).limit == s.limit
    decreases steps
  {
    hide Inv, Apply;
    if steps != [] {
      StepKeepsInv(s, steps[0]);
      RunKeepsInv(Apply(s, steps[0]), steps[1..]);
    }
  }

  /** In every schedule a nonempty queue means the slots are taken or handed over, and
      callers leave the queue in the order in which they joined it. */
  lemma NoLostWakeup(limit: int, steps: seq<Step>)
    ensures var t := Exec(Init(limit), steps);
      && (t.waiters != [] ==> t.active + |t.woken| >= limit)
      && t.active == |t.running|
      && t.queued == t.awakened + t.waiters
  {
    RunKeepsInv(Init(limit), steps);
  }

  function Unserved(s: State): set<Caller> {
    (set c | c in s.waiters) + s.woken + s.running
  }

  /** Segments still owed to the callers that have arrived. */
  function Work(s: State): nat {
    3 * |s.waiters| + 2 * |s.woken| + |s.running|
  }

  /** Nobody is stranded: while some caller is unserved a Resume or Finish can run, ... */
  lemma SomebodyCanMove(s: State) returns (step: Step)
    requires Inv(s) && s.limit >= 1 && Unserved(s) != {}
    ensures !step.Arrive? && Enabled(s, step)
  {
    if s.running != {} {
      var c :| c in s.running;
      step := Finish(c);
    } else {
      var c :| c in Unserved(s);
      assert s.active == 0;
      assert s.woken != {} by {
        assert c in s.waiters || c in s.woken;
      }
      var w :| w in s.woken;
      step := Resume(w);
    }
  }

  /** ... and every such step uses up some of the outstanding work. */
  lemma WorkDecreases(s: State, step: Step)
    requires Inv(s) && !step.Arrive? && Enabled(s, step)
    ensures Work(Apply(s, step)) < Work(s)
  {
  }

  ghost predicate Drains(s: State, steps: seq<Step>)
    decreases steps
  {
    steps != [] ==> !steps[0].Arrive? && Enabled(s, steps[0]) && Drains(Apply(s, steps[0]), steps[1..])
  }

  lemma {:induction false} DrainsFrom(s: State, steps: seq<Step>)
    requires Inv(s) && s.limit >= 1 && Drains(s, steps)
    ensures |steps| <= Work(s)
    ensures (forall step: Step :: !step.Arrive? ==> !Enabled(Exec(s, steps), step))
            ==> Unserved(Exec(s, steps)) == {}
    decreases steps
  {
    if steps == [] {
      if Unserved(s) != {} {
        var step := SomebodyCanMove(s);
      }
    } else {
      StepKeepsInv(s, steps[0]);
      WorkDecreases(s, steps[0]);
      DrainsFrom(Apply(s, steps[0]), steps[1..]);
    }
  }

  /** Once arrivals stop, every schedule of enabled segments is at most Work long, and
      one that cannot be extended has served every caller: nobody is stranded. */
  lemma EveryScheduleDrains(limit: int, before: seq<Step>, after: seq<Step>)
    requires limit >= 1 && Drains(Exec(Init(limit), before), after)
    ensures var s := Exec(Init(limit), before); var t := Exec(s, after);
      && |after| <= Work(s)
      && ((forall step: Step :: !step.Arrive? ==> !Enabled(t, step)) ==> Unserved(t) == {})
  {
    RunKeepsInv(Init(limit), before);
    hide Inv, Drains, Exec, Work, Unserved, Enabled;
    DrainsFrom(Exec(Init(limit), before), after);
  }

  /** Slots in use and handed over. */
  function Slots(s: State): int {
    s.active + |s.woken|
  }

  /** An arrival that slips into the gap between a wake-up and its resumption: `active` is
      below the limit, but only because a slot is on its way to a woken caller. */
  predicate GapArrival(s: State, step: Step) {
    step.Arrive? && Enabled(s, step) && s.active < s.limit && Slots(s) == s.limit
  }

  /** A segment keeps the slots within the limit exactly when it is not an arrival in the gap. */
  lemma HandOverKeepsCapacity(s: State, step: Step)
    requires Inv(s) && Slots(s) <= s.limit
    ensures Slots(Apply(s, step)) <= s.limit <==> !GapArrival(s, step)
  {
  }

  ghost predicate GapFree(s: State, steps: seq<Step>)
    decreases steps
  {
    steps != [] ==> !GapArrival(s, steps[0]) && GapFree(Apply(s, steps[0]), steps[1..])
  }

  ghost predicate OnlyResumes(steps: seq<Step>) {
    forall i :: 0 <= i < |steps| ==> steps[i].Resume?
  }

  /** `active` stays within the limit whenever woken callers resume, now ... */
  ghost predicate WithinNow(s: State) {
    forall resumes :: OnlyResumes(resumes) ==> Exec(s, resumes).active <= s.limit
  }

  /** ... and after every prefix of the schedule. */
  ghost predicate NeverOver(s: State, steps: seq<Step>)
    decreases steps
  {
    WithinNow(s) && (steps != [] ==> NeverOver(Apply(s, steps[0]), steps[1..]))
  }

  lemma {:induction false} ResumesKeepSlots(s: State, resumes: seq<Step>)
    requires Inv(s) && OnlyResumes(resumes)
    ensures Exec(s, resumes).active <= Slots(s)
    decreases resumes
  {
    if resumes != [] {
      StepKeepsInv(s, resumes[0]);
      ResumesKeepSlots(Apply(s, resumes[0]), resumes[1..]);
    }
  }

  /** Once every woken caller has resumed, all slots are in use. */
  lemma {:induction false} AllResume(s: State) returns (resumes: seq<Step>)
    requires Inv(s)
    ensures OnlyResumes(resumes) && Exec(s, resumes).active == Slots(s)
    decreases |s.woken|
  {
    if s.woken == {} {
      resumes := [];
    } else {
      var c :| c in s.woken;
      StepKeepsInv(s, Resume(c));
      var rest := AllResume(Apply(s, Resume(c)));
      resumes := [Resume(c)] + rest;
      assert resumes[1..] == rest;
    }
  }

  lemma WithinExactly(s: State)
    requires Inv(s)
    ensures WithinNow(s) <==> Slots(s) <= s.limit
  {
    if Slots(s) <= s.limit {
      forall resumes | OnlyResumes(resumes) ensures Exec(s, resumes).active <= s.limit {
        ResumesKeepSlots(s, resumes);
      }
    } else {
      var resumes := AllResume(s);
    }
  }

  lemma {:induction false} CapacityExactlyFrom(s: State, steps: seq<Step>)
    requires Inv(s) && Slots(s) <= s.limit
    ensures NeverOver(s, steps) <==> GapFree(s, steps)
    decreases steps
  {
    hide Inv, Apply, WithinNow, GapArrival;
    WithinExactly(s);
    if steps != [] {
      var t := Apply(s, steps[0]);
      StepKeepsInv(s, steps[0]);
      HandOverKeepsCapacity(s, steps[0]);
      WithinExactly(t);
      if Slots(t) <= s.limit { CapacityExactlyFrom(t, steps[1..]); }
    }
  }

  /** However woken callers resume, `active` stays within the limit throughout a schedule
      exactly when no arrival slips into the gap. */
  lemma CapacityExactly(limit: int, steps: seq<Step>)
    requires limit >= 1
    ensures NeverOver(Init(limit), steps) <==> GapFree(Init(limit), steps)
  {
    CapacityExactlyFrom(Init(limit), steps);
  }

  /** No arrival while a woken caller has not resumed. */
  ghost predicate HandsOver(s: State, steps: seq<Step>)
    decreases steps
  {
    steps != [] ==> (steps[0].Arrive? ==> s.woken == {}) && HandsOver(Apply(s, steps[0]), steps[1..])
  }

  lemma {:induction false} HandingOverIsGapFree(s: State, steps: seq<Step>)
    requires HandsOver(s, steps)
    ensures GapFree(s, steps)
    decreases steps
  {
    if steps != [] { HandingOverIsGapFree(Apply(s, steps[0]), steps[1..]); }
  }

  lemma {:induction false} EndIsWithin(s: State, steps: seq<Step>)
    requires NeverOver(s, steps)
    ensures Exec(s, steps).active <= Exec(s, steps).limit
    decreases steps
  {
    if steps == [] {
      assert OnlyResumes([]) && Exec(s, []) == s;
    } else {
      EndIsWithin(Apply(s, steps[0]), steps[1..]);
    }
  }

  /** In schedules that hand over, `active` never exceeds the limit. */
  lemma CapacityUnderHandOver(limit: int, steps: seq<Step>)
    requires limit >= 1 && HandsOver(Init(limit), steps)
    ensures Exec(Init(limit), steps).active <= limit
  {
    HandingOverIsGapFree(Init(limit), steps);
    CapacityExactly(limit, steps);
    EndIsWithin(Init(limit), steps);
    RunKeepsInv(Init(limit), steps);
  }

  /** Without it the limit can be exceeded: limit 1, yet two callers inside fn. */
  lemma GapOverrun()
    ensures Exec(Init(1), [Arrive(0), Arrive(1), Finish(0), Arrive(2), Resume(1)]).active == 2
  {
    var s1 := Apply(Init(1), Arrive(0));
    var s2 := Apply(s1, Arrive(1));
    var s3 := Apply(s2, Finish(0));
    var s4 := Apply(s3, Arrive(2));
    var s5 := Apply(s4, Resume(1));
    assert s5.active == 2;
    assert Exec(s4, [Resume(1)]) == s5;
    assert Exec(s3, [Arrive(2), Resume(1)]) == s5;
    assert Exec(s2, [Finish(0), Arrive(2), Resume(1)]) == s5;
    assert Exec(s1, [Arrive(1), Finish(0), Arrive(2), Resume(1)]) == s5;
  }

  /** The object itself: `active` and `waiters` as in the source, and the scheduling
      around it (who runs, who has been woken) as ghost fields. */
  class Bulkhead {
    const limit: int
    var active: int
    var waiters: seq<Caller>
    ghost var woken: set<Caller>
    ghost var running: set<Caller>
    ghost var arrived: set<Caller>
    ghost var queued: seq<Caller>
    ghost var awakened: seq<Caller>

    ghost function View(): State reads this {
      State(limit, active, waiters, woken, running, arrived, queued, awakened)
    }

    constructor (limit: int)
      requires limit >= 1
      ensures View() == Init(limit) && Inv(View())
    {
      this.limit := limit;
      active, waiters := 0, [];
      woken, running, arrived, queued, awakened := {}, {}, {}, [], [];
    }

    /** A limit below 1 is rejected. */
    static method Create(limit: int) returns (r: Option<Bulkhead>)
      ensures r.None? <==> limit < 1
      ensures r.Some? ==> fresh(r.value) && r.value.View() == Init(limit)
    {
      if limit < 1 { return None; }
      var b := new Bulkhead(limit);
      r := Some(b);
    }

    /** Up to the first await: enter fn, or join the queue. */
    method Enter(c: Caller) returns (entered: bool)
      requires c !in arrived
      modifies this
      ensures entered == (old(active) < limit)
      ensures View() == Apply(old(View()), Arrive(c))
    {
      arrived := arrived + {c};
      if active >= limit {
        waiters := waiters + [c];
        queued := queued + [c];
        return false;
      }
      active := active + 1;
      running := running + {c};
      return true;
    }

    /** A woken waiter continues; it does not look at the limit again. */
    method ContinueWoken(c: Caller)
      requires c in woken
      modifies this
      ensures View() == Apply(old(View()), Resume(c))
    {
      woken := woken - {c};
      active := active + 1;
      running := running + {c};
    }

    /** The finally block: give the slot back and wake the oldest waiter. */
    method Leave(c: Caller) returns (next: Option<Caller>)
      requires c in running
      modifies this
      ensures View() == Apply(old(View()), Finish(c))
      ensures next == if old(waiters) == [] then None else Some(old(waiters)[0])
    {
      active := active - 1;
      running := running - {c};
      next := None;
      if waiters != [] {
        next := Some(waiters[0]);
        woken := woken + {waiters[0]};
        awakened := awakened + [waiters[0]];
        waiters := waiters[1..];
      }
    }
  }
}
