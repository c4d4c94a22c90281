/** The ids that the routing service gives to requests. */
module Numbering {
  import opened Types
  import opened Coordinator

  /** The request that a step numbers, with the id it should have: the prepare that
      both sides of a transaction get, or an intra-shard request. */
  function Numbered(step: CoordStep, id: int): seq<Request> {
    match step
    case BeginCross(tx) => [RequestOf(tx, PreparePhase, id)]
    case BeginIntra(c, s, r, a) => [IntraReq(c, s, r, a, id)]
    case _ => []
  }

  /** The requests numbered before moment k: the n-th of them has id n. */
  function NumberedBefore(states: seq<Coord>, steps: seq<CoordStep>, k: nat): seq<Request>
    requires |states| == |steps| + 1 && k <= |steps|
  {
    if k == 0 then []
    else NumberedBefore(states, steps, k - 1) + Numbered(steps[k - 1], states[k].lastId)
  }

  lemma {:induction false} IdsCount(states: seq<Coord>, steps: seq<CoordStep>, k: nat)
    requires IsCoordRun(states, steps) && k <= |steps|
    ensures var all := NumberedBefore(states, steps, k);
            states[k].lastId == |all| && forall i :: 0 <= i < |all| ==> all[i].id == i + 1
  {
    if k > 0 {
      IdsCount(states, steps, k - 1);
      LastIdStep(states[k - 1], steps[k - 1]);
    }
  }

  lemma LastIdStep(co: Coord, step: CoordStep)
    requires StepEnabled(co, step)
    ensures CoordApply(co, step).lastId == co.lastId + (if step.BeginCross? || step.BeginIntra? then 1 else 0)
  {
  }

  /** Over every run the requests are numbered 1, 2, 3 and so on in the order in
      which they came: no two of them ever carry the same id. */
  lemma IdsUnique(states: seq<Coord>, steps: seq<CoordStep>, k: nat, i: nat, j: nat)
    requires IsCoordRun(states, steps) && k <= |steps|
    requires i < |NumberedBefore(states, steps, k)| && j < |NumberedBefore(states, steps, k)|
    ensures NumberedBefore(states, steps, k)[i].id == i + 1
    ensures NumberedBefore(states, steps, k)[i].id == NumberedBefore(states, steps, k)[j].id <==> i == j
  {
    IdsCount(states, steps, k);
  }

  /** And what is recorded of a transaction under its id, now and ever after, is
      the transfer that was asked for. */
  lemma TransferRecorded(states: seq<Coord>, steps: seq<CoordStep>, j: nat, k: nat)
    requires IsCoordRun(states, steps) && j < k < |states| && steps[j].BeginCross?
    ensures var id := |NumberedBefore(states, steps, j)| + 1;
            id in states[k].txs && states[k].txs[id] == steps[j].tx
  {
    IdsCount(states, steps, j);
    CoordRun(states, steps, j + 1, k);
    assert states[j + 1].txs[states[j].lastId + 1] == steps[j].tx;
  }
}
