/** How often the client of a cross-shard transfer is answered. */
module Answers {
  import opened Coordinator

  /** What the client of a transaction was told by the first k steps: true for
      success, false for an abort. */
  function AnswersTo(steps: seq<CoordStep>, k: nat, id: int): seq<bool>
    requires k <= |steps|
  {
    if k == 0 then []
    else
      match steps[k - 1]
      case TellSuccess(i, _) => AnswersTo(steps, k - 1, id) + (if i == id then [true] else [])
      case TellAborted(i, _) => AnswersTo(steps, k - 1, id) + (if i == id then [false] else [])
      case _ => AnswersTo(steps, k - 1, id)
  }

  /** The step is a negative outcome that comes while the other side's ABORT is
      being broadcast, or before the counter says that it is over. */
  predicate Overlaps(co: Coord, step: CoordStep, id: int) {
    step.Negative? && step.id == id && (TaskIs(co, id, !step.side, Aborting) || TaskIs(co, id, !step.side, Telling))
  }

  predicate Overlapped(states: seq<Coord>, steps: seq<CoordStep>, k: nat, id: int)
    requires |states| == |steps| + 1 && k <= |steps|
  {
    exists i :: 0 <= i < k && Overlaps(states[i], steps[i], id)
  }

  /** Both sides of the transaction are done. */
  predicate Finished(co: Coord, id: int) {
    && (TaskIs(co, id, true, YesDone) || TaskIs(co, id, true, NoDone))
    && (TaskIs(co, id, false, YesDone) || TaskIs(co, id, false, NoDone))
  }

  predicate Tells(co: Coord, id: int, side: bool) {
    TaskIs(co, id, side, Committing) || TaskIs(co, id, side, Aborting)
  }

  /** The broadcasts whose end the client has yet to be told. */
  function Untold(co: Coord, id: int): nat {
    (if Tells(co, id, true) then 1 else 0) + (if Tells(co, id, false) then 1 else 0)
  }

  /** The broadcasts that were begun for the id. */
  function Begun(co: Coord, id: int, overlapped: bool): nat {
    if overlapped then 2 else if id in co.commits || id in co.aborts then 1 else 0
  }

  predicate BothSaidNo(co: Coord, id: int) {
    && (id, true) in co.tasks && co.tasks[(id, true)].SaidNo()
    && (id, false) in co.tasks && co.tasks[(id, false)].SaidNo()
  }

  /** The client of the id is told something. */
  predicate Answers(step: CoordStep, id: int) { (step.TellSuccess? || step.TellAborted?) && step.id == id }

  /** A step begins as many broadcasts as it leaves untold, and its answer is
      that of a broadcast begun before. */
  ghost predicate Balanced(co: Coord, co': Coord, step: CoordStep, id: int, overlapped: bool) {
    var now := overlapped || Overlaps(co, step, id);
    && (now ==> BothSaidNo(co', id))
    && Begun(co', id, now) - Untold(co', id) ==
         Begun(co, id, overlapped) - Untold(co, id) + (if Answers(step, id) then 1 else 0)
  }

  lemma NegativeBalanced(co: Coord, id: int, side: bool, overlapped: bool)
    requires IdOk(co, id) && TaskIs(co, id, side, Awaiting) && (overlapped ==> BothSaidNo(co, id))
    ensures Balanced(co, OnNegative(co, id, side), Negative(id, side), id, overlapped)
  {
  }

  lemma YesBalanced(co: Coord, id: int, side: bool, overlapped: bool)
    requires IdOk(co, id) && TaskIs(co, id, side, Awaiting) && (overlapped ==> BothSaidNo(co, id))
    ensures Balanced(co, OnYes(co, id, side), CoordStep.Yes(id, side), id, overlapped)
  {
  }

  lemma EndBalanced(co: Coord, step: CoordStep, id: int, overlapped: bool)
    requires IdOk(co, id) && StepEnabled(co, step) && (overlapped ==> BothSaidNo(co, id))
    requires (step.TellSuccess? || step.TellAborted? || step.GiveUp?) && step.id == id
    ensures Balanced(co, CoordApply(co, step), step, id, overlapped)
  {
  }

  /** The id has no task yet, or the step is about another transaction. */
  lemma OtherBalanced(co: Coord, step: CoordStep, id: int, overlapped: bool)
    requires StepEnabled(co, step) && Subject(co, step) != id && (overlapped ==> BothSaidNo(co, id))
    ensures Balanced(co, CoordApply(co, step), step, id, overlapped)
  {
  }

  lemma NewBalanced(co: Coord, step: CoordStep, overlapped: bool)
    requires CoordInv(co) && (step.BeginCross? || step.BeginIntra?)
    requires overlapped ==> BothSaidNo(co, co.lastId + 1)
    ensures Balanced(co, CoordApply(co, step), step, co.lastId + 1, overlapped)
  {
    assert co.lastId + 1 !in co.txs by { assert co.lastId + 1 in co.txs ==> IdOk(co, co.lastId + 1); }
  }

  lemma StepBalanced(co: Coord, step: CoordStep, id: int, overlapped: bool)
    requires CoordInv(co) && StepEnabled(co, step) && (overlapped ==> BothSaidNo(co, id))
    ensures Balanced(co, CoordApply(co, step), step, id, overlapped)
  {
    hide Balanced, BothSaidNo, IdOk, OnYes, OnNegative;
    if Subject(co, step) != id {
      OtherBalanced(co, step, id, overlapped);
    } else if step.BeginCross? || step.BeginIntra? {
      NewBalanced(co, step, overlapped);
    } else {
      assert IdOk(co, id);
      match step
      case Yes(_, side) => YesBalanced(co, id, side, overlapped);
      case Negative(_, side) => NegativeBalanced(co, id, side, overlapped);
      case _ => EndBalanced(co, step, id, overlapped);
    }
  }

  lemma {:induction false} AnswersCount(states: seq<Coord>, steps: seq<CoordStep>, k: nat, id: int)
    requires IsCoordRun(states, steps) && k <= |steps|
    ensures Overlapped(states, steps, k, id) ==> BothSaidNo(states[k], id)
    ensures |AnswersTo(steps, k, id)| ==
            Begun(states[k], id, Overlapped(states, steps, k, id)) - Untold(states[k], id)
  {
    hide CoordApply, StepEnabled, CoordInv, Begun, Untold, Overlaps, BothSaidNo;
    if k == 0 {
      NothingBegun(id);
    } else {
      AnswersCount(states, steps, k - 1, id);
      CoordRun(states, steps, k - 1, k - 1);
      StepBalanced(states[k - 1], steps[k - 1], id, Overlapped(states, steps, k - 1, id));
      assert Overlapped(states, steps, k, id) <==>
             Overlapped(states, steps, k - 1, id) || Overlaps(states[k - 1], steps[k - 1], id);
    }
  }

  lemma NothingBegun(id: int)
    ensures Begun(IDLE, id, false) == 0 == Untold(IDLE, id)
  {
  }

  /** Every answer is what the id's decision at that time, and ever after, says. */
  lemma {:induction false} AnswersTrue(states: seq<Coord>, steps: seq<CoordStep>, j: nat, k: nat, id: int, i: nat)
    requires IsCoordRun(states, steps) && j <= k <= |steps| && i < |AnswersTo(steps, j, id)|
    ensures AnswersTo(steps, j, id)[i] <==> id in states[k].commits
  {
    CoordRun(states, steps, j, k);
    if i < |AnswersTo(steps, j - 1, id)| {
      AnswersTrue(states, steps, j - 1, k, id, i);
    } else {
      CoordRun(states, steps, j - 1, j - 1);
      CoordRun(states, steps, k, k);
      assert IdOk(states[j - 1], id) && IdOk(states[k], id);
    }
  }

  /** The client is told the decision and nothing else.  When both sides are done
      it was told exactly once, unless a second negative outcome came while the
      first one's ABORT was under way: then ABORT was broadcast twice, and the
      second answer went to a connection that was closed. */
  lemma OneFinalAnswer(states: seq<Coord>, steps: seq<CoordStep>, k: nat, id: int)
    requires IsCoordRun(states, steps) && k <= |steps|
    ensures var told := AnswersTo(steps, k, id);
            && (forall i :: 0 <= i < |told| ==> (told[i] <==> id in states[k].commits))
            && |told| <= (if Overlapped(states, steps, k, id) then 2 else 1)
            && (Finished(states[k], id) ==> |told| == if Overlapped(states, steps, k, id) then 2 else 1)
  {
    AnswersCount(states, steps, k, id);
    forall i | 0 <= i < |AnswersTo(steps, k, id)|
      ensures AnswersTo(steps, k, id)[i] <==> id in states[k].commits
    {
      AnswersTrue(states, steps, k, k, id, i);
    }
    CoordRun(states, steps, k, k);
    assert Finished(states[k], id) ==> IdOk(states[k], id);
  }

  /** Both prepares are answered NO before the first ABORT is over: the client is
      answered twice. */
  lemma TwoFinalAnswers(tx: Tx) returns (states: seq<Coord>, steps: seq<CoordStep>)
    ensures IsCoordRun(states, steps) && AnswersTo(steps, |steps|, 1) == [false, false]
  {
    var c1 := Begin(IDLE, tx);
    var c2 := OnNegative(c1, 1, true);
    var c3 := OnNegative(c2, 1, false);
    var c4 := CoordApply(c3, TellAborted(1, true));
    var c5 := CoordApply(c4, TellAborted(1, false));
    steps := [BeginCross(tx), Negative(1, true), Negative(1, false), TellAborted(1, true), TellAborted(1, false)];
    states := [IDLE, c1, c2, c3, c4, c5];
    assert AnswersTo(steps, 1, 1) == [];
    assert AnswersTo(steps, 3, 1) == AnswersTo(steps, 2, 1) == [];
    assert AnswersTo(steps, 4, 1) == [false];
  }

  /** What is remembered of the answers is exactly what was told. */
  lemma {:induction false} ToldExactly(states: seq<Coord>, steps: seq<CoordStep>, k: nat, id: int)
    requires IsCoordRun(states, steps) && k <= |steps|
    ensures id in states[k].toldSuccess <==> true in AnswersTo(steps, k, id)
    ensures id in states[k].toldAborted <==> false in AnswersTo(steps, k, id)
  {
    if k > 0 { ToldExactly(states, steps, k - 1, id); }
  }
}
