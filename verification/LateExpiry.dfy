/** Prepares that resolve twice.  A request that is drained from the queue stays
    in it until the drain ends, so the timer job can expire it although it was
    sent: it begins an ABORT while the coroutine of the same prepare still awaits
    the answer, or already has it. */
module LateExpiry {
  import opened Coordinator

  /** The coordinator and the timer's own broadcasts, by the prepare they are
      about.  A timer is never awaited: it is Aborting, Telling or NoDone. */
  datatype Late = Late(co: Coord, timers: map<(int, bool), Task>)

  datatype LateStep =
    | Own(step: CoordStep)           // a step of the coordinator itself
    | Expire(id: int, side: bool)    // a prepare that was sent expires in the queue
    | Tell(id: int, side: bool)      // the timer's ABORT broadcast is over
    | End(id: int, side: bool)       // and the counter becomes -1

  predicate LateEnabled(x: Late, step: LateStep) {
    match step
    case Own(s) => StepEnabled(x.co, s)
    case Expire(id, side) => id in x.co.replies && (id, side) !in x.timers
    case Tell(id, side) => (id, side) in x.timers && x.timers[(id, side)].Aborting?
    case End(id, side) => (id, side) in x.timers && x.timers[(id, side)].Telling?
  }

  function LateApply(x: Late, step: LateStep): Late
    requires LateEnabled(x, step)
  {
    match step
    case Own(s) => x.(co := CoordApply(x.co, s))
    case Expire(id, side) =>
      if x.co.replies[id] == -1 then x.(timers := x.timers[(id, side) := NoDone])
      else Late(x.co.(aborts := x.co.aborts + {id}), x.timers[(id, side) := Aborting])
    case Tell(id, side) =>
      Late(x.co.(toldAborted := x.co.toldAborted + {id}), x.timers[(id, side) := Telling])
    case End(id, side) =>
      Late(x.co.(replies := x.co.replies[id := -1]), x.timers[(id, side) := NoDone])
  }

  ghost predicate IsLatePath(states: seq<Late>, steps: seq<LateStep>) {
    && |states| == |steps| + 1
    && forall k :: 0 <= k < |steps| ==>
         LateEnabled(states[k], steps[k]) && states[k + 1] == LateApply(states[k], steps[k])
  }

  /** A run from the idle coordinator, with any number of late expiries. */
  ghost predicate IsLateRun(states: seq<Late>, steps: seq<LateStep>) {
    IsLatePath(states, steps) && states[0] == Late(IDLE, map[])
  }

  // ---- The invariant ------------------------------------------------------

  ghost predicate LateIdOk(x: Late, id: int) {
    && 1 <= id <= x.co.lastId && id in x.co.replies && (id, true) in x.co.tasks && (id, false) in x.co.tasks
    && -1 <= x.co.replies[id] <= Yeses(x.co, id)
    && (x.co.replies[id] == -1 ==> id in x.co.aborts)
    && (x.co.replies[id] == 2 ==> id in x.co.commits)
    && (id in x.co.commits ==> Yeses(x.co, id) == 2)
    && (SomeNo(x.co, id) ==> id in x.co.aborts)
    && (forall side :: (id, side) in x.timers && !x.timers[(id, side)].NoDone? ==> id in x.co.aborts)
  }

  ghost predicate LateInv(x: Late) {
    && (forall id :: id in x.co.txs ==> LateIdOk(x, id))
    && x.co.replies.Keys == x.co.txs.Keys
    && (forall k :: k in x.co.tasks || k in x.timers ==> k.0 in x.co.txs)
    && x.co.commits <= x.co.txs.Keys && x.co.aborts <= x.co.txs.Keys
  }

  lemma LateKeys(x: Late, step: LateStep)
    requires LateInv(x) && LateEnabled(x, step)
    ensures var x' := LateApply(x, step);
            && x'.co.txs.Keys == x.co.txs.Keys + (if step.Own? && step.step.BeginCross? then {x.co.lastId + 1} else {})
            && x'.co.replies.Keys == x'.co.txs.Keys
            && (forall k :: k in x'.co.tasks || k in x'.timers ==> k.0 in x'.co.txs)
            && x'.co.commits <= x'.co.txs.Keys && x'.co.aborts <= x'.co.txs.Keys
  {
    hide LateIdOk, StepEnabled, CoordApply;
    if step.Own? { OwnKeys(x, step.step); }
  }

  lemma OwnKeys(x: Late, step: CoordStep)
    requires LateInv(x) && StepEnabled(x.co, step)
    ensures var co := CoordApply(x.co, step);
            && co.txs.Keys == x.co.txs.Keys + (if step.BeginCross? then {x.co.lastId + 1} else {})
            && co.replies.Keys == co.txs.Keys
            && (forall k :: k in co.tasks || k in x.timers ==> k.0 in co.txs)
            && co.commits <= co.txs.Keys && co.aborts <= co.txs.Keys
  {
    hide LateIdOk;
  }

  /** The transaction that a step is about. */
  function LateSubject(x: Late, step: LateStep): int {
    if step.Own? then Subject(x.co, step.step) else step.id
  }

  lemma OthersStay(x: Late, step: LateStep, id: int)
    requires LateEnabled(x, step) && id != LateSubject(x, step) && LateIdOk(x, id)
    ensures LateIdOk(LateApply(x, step), id)
  {
    hide StepEnabled, CoordApply;
    if step.Own? { OwnOthersStay(x, step.step, id); }
  }

  lemma OwnOthersStay(x: Late, step: CoordStep, id: int)
    requires StepEnabled(x.co, step) && id != Subject(x.co, step) && LateIdOk(x, id)
    ensures LateIdOk(x.(co := CoordApply(x.co, step)), id)
  {
  }

  lemma OwnStays(x: Late, step: CoordStep)
    requires StepEnabled(x.co, step) && !step.BeginCross? && !step.BeginIntra? && LateIdOk(x, step.id)
    ensures LateIdOk(x.(co := CoordApply(x.co, step)), step.id)
  {
  }

  lemma TimerStays(x: Late, step: LateStep)
    requires LateEnabled(x, step) && !step.Own? && LateIdOk(x, step.id)
    ensures LateIdOk(LateApply(x, step), step.id)
  {
  }

  lemma NewStays(x: Late, tx: Tx)
    requires LateInv(x)
    ensures LateIdOk(x.(co := Begin(x.co, tx)), x.co.lastId + 1)
  {
    assert x.co.lastId + 1 in x.co.txs ==> LateIdOk(x, x.co.lastId + 1);
  }

  lemma LateKeeps(x: Late, step: LateStep)
    requires LateInv(x) && LateEnabled(x, step)
    ensures LateInv(LateApply(x, step))
  {
    LateKeys(x, step);
    var x' := LateApply(x, step);
    forall id | id in x'.co.txs ensures LateIdOk(x', id) {
      if id !in x.co.txs {
        NewStays(x, step.step.tx);
      } else {
        assert LateIdOk(x, id);
        IdStays(x, step, id);
      }
    }
    hide LateIdOk, LateApply, LateEnabled;
  }

  lemma IdStays(x: Late, step: LateStep, id: int)
    requires LateEnabled(x, step) && LateIdOk(x, id)
    ensures LateIdOk(LateApply(x, step), id)
  {
    assert 1 <= id <= x.co.lastId;
    hide LateIdOk, CoordApply, StepEnabled;
    if id != LateSubject(x, step) {
      OthersStay(x, step, id);
    } else if step.Own? {
      OwnStays(x, step.step);
    } else {
      TimerStays(x, step);
    }
  }

  lemma LateRunKeeps(states: seq<Late>, steps: seq<LateStep>, k: nat)
    requires IsLateRun(states, steps) && k < |states|
    ensures LateInv(states[k])
  {
    hide LateInv, LateEnabled, LateApply;
    if k == 0 {
      assert LateInv(Late(IDLE, map[])) by { IdleOk(); }
    } else {
      LateRunKeeps(states, steps, k - 1);
      LateKeeps(states[k - 1], steps[k - 1]);
    }
  }

  lemma IdleOk()
    ensures LateInv(Late(IDLE, map[]))
  {
  }

  // ---- Exactly when an expiry does harm -----------------------------------

  predicate Harmed(co: Coord, id: int) { id in co.commits && id in co.aborts }

  /** Some continuation gives the id both a COMMIT and an ABORT. */
  ghost predicate CanBeHarmed(x: Late, id: int) {
    exists states: seq<Late>, steps: seq<LateStep> ::
      IsLatePath(states, steps) && states[0] == x && Harmed(states[|steps|].co, id)
  }

  function AwaitedSides(co: Coord, id: int): nat {
    (if TaskIs(co, id, true, Awaiting) then 1 else 0) + (if TaskIs(co, id, false, Awaiting) then 1 else 0)
  }

  /** The id was committed, or will be if every answer that is awaited is YES. */
  predicate MayCommit(co: Coord, id: int)
    requires id in co.replies
  {
    id in co.commits || co.replies[id] + AwaitedSides(co, id) >= 2
  }

  /** The id never commits. */
  predicate OutOfReach(co: Coord, id: int) {
    id <= co.lastId && id in co.replies && -1 <= co.replies[id] && !MayCommit(co, id)
  }

  lemma StaysOutOfReach(x: Late, step: LateStep, id: int)
    requires OutOfReach(x.co, id) && LateEnabled(x, step) && (step.End? ==> step.id in x.co.replies)
    ensures OutOfReach(LateApply(x, step).co, id)
  {
    hide CoordApply, StepEnabled;
    if step.Own? { OwnOutOfReach(x.co, step.step, id); }
  }

  lemma OwnOutOfReach(co: Coord, step: CoordStep, id: int)
    requires OutOfReach(co, id) && StepEnabled(co, step)
    ensures OutOfReach(CoordApply(co, step), id)
  {
    match step
    case Yes(_, _) =>
    case Negative(_, _) =>
    case _ =>
  }

  lemma PathOutOfReach(states: seq<Late>, steps: seq<LateStep>, id: int, k: nat)
    requires IsLatePath(states, steps) && LateInv(states[0]) && OutOfReach(states[0].co, id) && k < |states|
    ensures OutOfReach(states[k].co, id) && LateInv(states[k])
  {
    hide OutOfReach, LateApply, LateEnabled, LateInv;
    if k > 0 {
      PathOutOfReach(states, steps, id, k - 1);
      LateKeeps(states[k - 1], steps[k - 1]);
      TimersHaveIds(states[k - 1], steps[k - 1]);
      StaysOutOfReach(states[k - 1], steps[k - 1], id);
    }
  }

  lemma TimersHaveIds(x: Late, step: LateStep)
    requires LateInv(x) && LateEnabled(x, step)
    ensures step.End? ==> step.id in x.co.replies
  {
  }

  lemma NeverHarmed(x: Late, id: int)
    requires LateInv(x) && OutOfReach(x.co, id)
    ensures !CanBeHarmed(x, id)
  {
    forall states: seq<Late>, steps: seq<LateStep> | IsLatePath(states, steps) && states[0] == x
      ensures !Harmed(states[|steps|].co, id) {
      PathOutOfReach(states, steps, id, |steps|);
    }
  }

  /** One answer YES away from harm. */
  lemma YesHarms(x: Late, id: int, side: bool)
    requires id in x.co.replies && x.co.replies[id] == 1 && TaskIs(x.co, id, side, Awaiting) && id in x.co.aborts
    ensures CanBeHarmed(x, id)
  {
    var step := Own(CoordStep.Yes(id, side));
    var states, steps := [x, LateApply(x, step)], [step];
    assert IsLatePath(states, steps) && Harmed(states[|steps|].co, id);
  }

  lemma TwoYesHarm(x: Late, id: int)
    requires id in x.co.replies && x.co.replies[id] == 0 && id in x.co.aborts
    requires TaskIs(x.co, id, true, Awaiting) && TaskIs(x.co, id, false, Awaiting)
    ensures CanBeHarmed(x, id)
  {
    var first, second := Own(CoordStep.Yes(id, true)), Own(CoordStep.Yes(id, false));
    var x1 := LateApply(x, first);
    var states, steps := [x, x1, LateApply(x1, second)], [first, second];
    assert IsLatePath(states, steps) && Harmed(states[|steps|].co, id);
  }

  lemma AlreadyHarmed(x: Late, id: int)
    requires Harmed(x.co, id)
    ensures CanBeHarmed(x, id)
  {
    var steps: seq<LateStep> := [];
    assert IsLatePath([x], steps) && Harmed([x][|steps|].co, id);
  }

  /** At any moment of any run, also after other late expiries: when a prepare
      that was sent expires in the queue, some continuation leaves its id with a
      COMMIT and an ABORT exactly when the id was committed, or the counter and
      the answers that are awaited, this prepare's own among them, can make two. */
  lemma LateExpiryHarmsExactly(x: Late, id: int, side: bool)
    requires LateInv(x) && LateEnabled(x, Expire(id, side))
    ensures CanBeHarmed(LateApply(x, Expire(id, side)), id) <==> MayCommit(x.co, id)
  {
    var r := LateApply(x, Expire(id, side));
    assert LateIdOk(x, id);
    LateKeeps(x, Expire(id, side));
    if !MayCommit(x.co, id) {
      NeverHarmed(r, id);
    } else if id in x.co.commits {
      AlreadyHarmed(r, id);
    } else if x.co.replies[id] == 1 {
      YesHarms(r, id, TaskIs(x.co, id, true, Awaiting));
    } else {
      TwoYesHarm(r, id);
    }
  }

  // ---- Runs with late expiries --------------------------------------------

  /** No late expiry of the run comes when its id may commit. */
  ghost predicate ExpiriesHarmless(states: seq<Late>, steps: seq<LateStep>)
    requires |states| == |steps| + 1
  {
    forall k :: 0 <= k < |steps| && steps[k].Expire? && steps[k].id in states[k].co.replies ==>
      !MayCommit(states[k].co, steps[k].id)
  }

  /** An id with an ABORT never commits. */
  ghost predicate Decided(x: Late) {
    forall id :: id in x.co.aborts ==> OutOfReach(x.co, id)
  }

  lemma DecidedStep(x: Late, step: LateStep, id: int)
    requires LateInv(x) && Decided(x) && LateEnabled(x, step)
    requires step.Expire? ==> !MayCommit(x.co, step.id)
    requires id in LateApply(x, step).co.aborts
    ensures OutOfReach(LateApply(x, step).co, id)
  {
    if id in x.co.aborts {
      TimersHaveIds(x, step);
      hide LateInv, LateApply, LateEnabled, OutOfReach;
      StaysOutOfReach(x, step, id);
    } else {
      NewlyAborted(x, step, id);
    }
  }

  lemma NewlyAborted(x: Late, step: LateStep, id: int)
    requires LateInv(x) && LateEnabled(x, step) && (step.Expire? ==> !MayCommit(x.co, step.id))
    requires id in LateApply(x, step).co.aborts && id !in x.co.aborts
    ensures OutOfReach(LateApply(x, step).co, id)
  {
    assert id in x.co.replies && LateIdOk(x, id);
  }

  lemma DecidedRun(states: seq<Late>, steps: seq<LateStep>, k: nat)
    requires IsLateRun(states, steps) && ExpiriesHarmless(states, steps) && k < |states|
    ensures Decided(states[k])
  {
    hide LateInv, LateEnabled, LateApply, MayCommit, OutOfReach;
    if k > 0 {
      var x, step := states[k - 1], steps[k - 1];
      DecidedRun(states, steps, k - 1);
      LateRunKeeps(states, steps, k - 1);
      assert step.Expire? ==> step.id in x.co.replies by { ExpiryEnabled(x, step); }
      forall id | id in states[k].co.aborts ensures OutOfReach(states[k].co, id) {
        DecidedStep(x, step, id);
      }
    }
  }

  lemma ExpiryEnabled(x: Late, step: LateStep)
    requires LateEnabled(x, step)
    ensures step.Expire? ==> step.id in x.co.replies
  {
  }

  lemma LateGrows(states: seq<Late>, steps: seq<LateStep>, j: nat, k: nat)
    requires IsLatePath(states, steps) && j <= k < |states|
    ensures states[j].co.commits <= states[k].co.commits && states[j].co.aborts <= states[k].co.aborts
  {
    if j < k {
      LateGrows(states, steps, j, k - 1);
      GrowsStep(states[k - 1], steps[k - 1]);
    }
  }

  lemma GrowsStep(x: Late, step: LateStep)
    requires LateEnabled(x, step)
    ensures var x' := LateApply(x, step); x.co.commits <= x'.co.commits && x.co.aborts <= x'.co.aborts
  {
  }

  /** Over every interleaving with any number of late expiries: if each comes when
      its id can no longer commit, then no id ever gets both a COMMIT and an
      ABORT. */
  lemma LateDecisionConsistency(states: seq<Late>, steps: seq<LateStep>, j: nat, k: nat, id: int)
    requires IsLateRun(states, steps) && ExpiriesHarmless(states, steps) && j < |states| && k < |states|
    ensures !(id in states[j].co.commits && id in states[k].co.aborts)
  {
    hide LateInv, LateEnabled, LateApply;
    var last := |steps|;
    DecidedRun(states, steps, last);
    LateGrows(states, steps, j, last);
    LateGrows(states, steps, k, last);
  }

  /** The receiver's prepare was drained and sent, and expires while its answer is
      under way; the YES that arrives during the ABORT broadcast is the second
      one, and COMMIT is broadcast as well. */
  lemma TwoResolutionsBreakIt(tx: Tx) returns (states: seq<Late>, steps: seq<LateStep>)
    ensures IsLateRun(states, steps) && |steps| == 4 && Harmed(states[4].co, 1)
  {
    var begin, yes, expire := Own(BeginCross(tx)), Own(CoordStep.Yes(1, true)), Expire(1, false);
    var x0 := Late(IDLE, map[]);
    var x1 := LateApply(x0, begin);
    var x2 := LateApply(x1, yes);
    var x3 := LateApply(x2, expire);
    steps := [begin, yes, expire, Own(CoordStep.Yes(1, false))];
    states := [x0, x1, x2, x3, LateApply(x3, steps[3])];
  }

  /** The timer's three steps change the coordinator as its own negative outcome
      does, but for the task of the prepare, which goes on by itself. */
  lemma TimerLikeNegative(x: Late, id: int, side: bool)
    requires LateEnabled(x, Expire(id, side)) && TaskIs(x.co, id, side, Awaiting)
    ensures var x1 := LateApply(x, Expire(id, side)); var own1 := OnNegative(x.co, id, side);
            && x1.co == own1.(tasks := x.co.tasks) && x1.timers[(id, side)] == own1.tasks[(id, side)]
            && (x.co.replies[id] != -1 ==>
                  var x2 := LateApply(x1, Tell(id, side)); var own2 := CoordApply(own1, TellAborted(id, side));
                  && x2.co == own2.(tasks := x.co.tasks) && x2.timers[(id, side)] == own2.tasks[(id, side)]
                  && var x3 := LateApply(x2, End(id, side)); var own3 := CoordApply(own2, GiveUp(id, side));
                     x3.co == own3.(tasks := x.co.tasks) && x3.timers[(id, side)] == own3.tasks[(id, side)])
  {
  }
}
