/** The two-phase-commit coordinator of the routing service, one atomic segment
    between two awaits at a time, for any number of transactions at once. */
module Coordinator {
  import opened Types

  datatype Tx = Tx(senderCluster: int, receiverCluster: int, sender: int, receiver: int, amount: int)

  /** The request that the coordinator sends for a transaction. */
  function RequestOf(tx: Tx, phase: Phase, id: int): Request {
    CrossReq(phase, tx.senderCluster, tx.receiverCluster, tx.sender, tx.receiver, tx.amount, id)
  }

  /** Where the coroutine stands that awaits one cluster's prepare.  A prepare
      resolves once: by a response, by a timeout, or by expiring in the queue. */
  datatype Task =
    | Awaiting       // queued, or sent and not answered
    | YesDone
    | Committing     // COMMIT is being broadcast, the client is not yet told
    | Aborting       // ABORT is being broadcast, the client is not yet told
    | Telling        // the client was told, the counter is not yet -1
    | NoDone
  {
    predicate SaidYes() { YesDone? || Committing? }
    predicate SaidNo() { Aborting? || Telling? || NoDone? }
  }

  /** The sender's side of a transaction is `true`, the receiver's `false`. */
  datatype Coord = Coord(
    lastId: nat, replies: map<int, int>, txs: map<int, Tx>, tasks: map<(int, bool), Task>,
    commits: set<int>, aborts: set<int>, toldSuccess: set<int>, toldAborted: set<int>)

  const IDLE: Coord := Coord(0, map[], map[], map[], {}, {}, {}, {})

  datatype CoordStep =
    | BeginCross(tx: Tx)
    | BeginIntra(cluster: int, sender: int, receiver: int, amount: int)
    | Yes(id: int, side: bool)
    | Negative(id: int, side: bool)   // NO, timeout or expiry
    | TellSuccess(id: int, side: bool)
    | TellAborted(id: int, side: bool)
    | GiveUp(id: int, side: bool)

  function Begin(co: Coord, tx: Tx): Coord {
    var id := co.lastId + 1;
    co.(lastId := id, replies := co.replies[id := 0], txs := co.txs[id := tx],
        tasks := co.tasks[(id, true) := Awaiting][(id, false) := Awaiting])
  }

  /** A YES counts; the second one starts the COMMIT broadcast. */
  function OnYes(co: Coord, id: int, side: bool): Coord
    requires id in co.replies
  {
    var n := co.replies[id] + 1;
    var co1 := co.(replies := co.replies[id := n]);
    if n == 2 then co1.(commits := co.commits + {id}, tasks := co.tasks[(id, side) := Committing])
    else co1.(tasks := co.tasks[(id, side) := YesDone])
  }

  /** A negative outcome starts the ABORT broadcast unless the counter says that
      an abort is over. */
  function OnNegative(co: Coord, id: int, side: bool): Coord
    requires id in co.replies
  {
    if co.replies[id] != -1 then co.(aborts := co.aborts + {id}, tasks := co.tasks[(id, side) := Aborting])
    else co.(tasks := co.tasks[(id, side) := NoDone])
  }

  predicate TaskIs(co: Coord, id: int, side: bool, t: Task) {
    (id, side) in co.tasks && co.tasks[(id, side)] == t
  }

  predicate StepEnabled(co: Coord, step: CoordStep) {
    match step
    case BeginCross(_) => true
    case BeginIntra(_, _, _, _) => true
    case Yes(id, side) => id in co.replies && TaskIs(co, id, side, Awaiting)
    case Negative(id, side) => id in co.replies && TaskIs(co, id, side, Awaiting)
    case TellSuccess(id, side) => TaskIs(co, id, side, Committing)
    case TellAborted(id, side) => TaskIs(co, id, side, Aborting)
    case GiveUp(id, side) => TaskIs(co, id, side, Telling)
  }

  function CoordApply(co: Coord, step: CoordStep): Coord
    requires StepEnabled(co, step)
  {
    match step
    case BeginCross(tx) => Begin(co, tx)
    case BeginIntra(_, _, _, _) => co.(lastId := co.lastId + 1)
    case Yes(id, side) => OnYes(co, id, side)
    case Negative(id, side) => OnNegative(co, id, side)
    case TellSuccess(id, side) =>
      co.(toldSuccess := co.toldSuccess + {id}, tasks := co.tasks[(id, side) := YesDone])
    case TellAborted(id, side) =>
      co.(toldAborted := co.toldAborted + {id}, tasks := co.tasks[(id, side) := Telling])
    case GiveUp(id, side) =>
      co.(replies := co.replies[id := -1], tasks := co.tasks[(id, side) := NoDone])
  }

  // ---- Decision consistency -----------------------------------------------

  function Yeses(co: Coord, id: int): int
    requires (id, true) in co.tasks && (id, false) in co.tasks
  {
    (if co.tasks[(id, true)].SaidYes() then 1 else 0) + (if co.tasks[(id, false)].SaidYes() then 1 else 0)
  }

  predicate SomeNo(co: Coord, id: int)
    requires (id, true) in co.tasks && (id, false) in co.tasks
  {
    co.tasks[(id, true)].SaidNo() || co.tasks[(id, false)].SaidNo()
  }

  /** While one side is awaited and the other said NO, the counter tells whether
      that one's ABORT is over. */
  predicate WaitsForNo(co: Coord, id: int, side: bool)
    requires id in co.replies && (id, true) in co.tasks && (id, false) in co.tasks
  {
    co.tasks[(id, side)].Awaiting? && co.tasks[(id, !side)].SaidNo() ==>
      co.replies[id] == if co.tasks[(id, !side)].NoDone? then -1 else 0
  }

  ghost predicate IdOk(co: Coord, id: int) {
    && 1 <= id <= co.lastId && id in co.replies && (id, true) in co.tasks && (id, false) in co.tasks
    && -1 <= co.replies[id] <= Yeses(co, id)
    && (!SomeNo(co, id) ==> co.replies[id] == Yeses(co, id))
    && (id in co.commits <==> Yeses(co, id) == 2)
    && (id in co.aborts <==> SomeNo(co, id))
    && (id in co.toldSuccess ==> id in co.commits)
    && (id in co.toldAborted ==> id in co.aborts)
    && WaitsForNo(co, id, true) && WaitsForNo(co, id, false)
    && (co.tasks[(id, true)].Committing? || co.tasks[(id, false)].Committing? ==> id in co.commits)
  }

  ghost predicate CoordInv(co: Coord) {
    && (forall id :: id in co.txs ==> IdOk(co, id))
    && (forall k :: k in co.tasks ==> k.0 in co.txs)
    && co.replies.Keys == co.txs.Keys
    && co.commits <= co.txs.Keys && co.aborts <= co.txs.Keys
    && co.toldSuccess <= co.txs.Keys && co.toldAborted <= co.txs.Keys
  }

  /** Decisions and transactions are never taken back. */
  ghost predicate Onward(co: Coord, co': Coord) {
    && co.lastId <= co'.lastId
    && co.commits <= co'.commits && co.aborts <= co'.aborts
    && co.toldSuccess <= co'.toldSuccess && co.toldAborted <= co'.toldAborted
    && forall id :: id in co.txs ==> id in co'.txs && co'.txs[id] == co.txs[id]
  }

  /** The transaction that a step is about. */
  function Subject(co: Coord, step: CoordStep): int {
    if step.BeginCross? || step.BeginIntra? then co.lastId + 1 else step.id
  }

  /** A step concerns one transaction only. */
  lemma OthersKept(co: Coord, step: CoordStep, id: int)
    requires StepEnabled(co, step) && id != Subject(co, step) && IdOk(co, id)
    ensures IdOk(CoordApply(co, step), id)
  {
  }

  lemma YesKeeps(co: Coord, id: int, side: bool)
    requires IdOk(co, id) && TaskIs(co, id, side, Awaiting)
    ensures IdOk(OnYes(co, id, side), id)
  {
  }

  lemma SubjectKept(co: Coord, step: CoordStep)
    requires StepEnabled(co, step) && !step.BeginCross? && !step.BeginIntra? && IdOk(co, Subject(co, step))
    ensures IdOk(CoordApply(co, step), Subject(co, step))
  {
    if step.Yes? {
      hide IdOk, OnYes;
      YesKeeps(co, step.id, step.side);
    }
  }

  lemma IdStep(co: Coord, step: CoordStep, id: int)
    requires CoordInv(co) && StepEnabled(co, step) && id in CoordApply(co, step).txs
    ensures IdOk(CoordApply(co, step), id)
  {
    if step.BeginCross? && id == co.lastId + 1 {
      assert id !in co.commits && id !in co.aborts by { assert id in co.txs ==> IdOk(co, id); }
    } else {
      StepKeys(co, step);
      hide CoordApply;
      assert IdOk(co, id);
      hide IdOk, StepEnabled;
      if id == Subject(co, step) { SubjectKept(co, step); } else { OthersKept(co, step, id); }
    }
  }

  /** Only a new cross-shard request adds a transaction. */
  lemma StepKeys(co: Coord, step: CoordStep)
    requires CoordInv(co) && StepEnabled(co, step)
    ensures var co' := CoordApply(co, step);
            && co'.txs.Keys == co.txs.Keys + (if step.BeginCross? then {co.lastId + 1} else {})
            && (forall k :: k in co'.tasks ==> k.0 in co'.txs)
            && co'.replies.Keys == co'.txs.Keys
            && co'.commits <= co'.txs.Keys && co'.aborts <= co'.txs.Keys
            && co'.toldSuccess <= co'.txs.Keys && co'.toldAborted <= co'.txs.Keys
  {
    hide IdOk;
  }

  lemma StepOnward(co: Coord, step: CoordStep)
    requires CoordInv(co) && StepEnabled(co, step)
    ensures Onward(co, CoordApply(co, step))
  {
    assert co.lastId + 1 !in co.txs by { assert co.lastId + 1 in co.txs ==> IdOk(co, co.lastId + 1); }
    hide CoordInv;
  }

  lemma CoordKeeps(co: Coord, step: CoordStep)
    requires CoordInv(co) && StepEnabled(co, step)
    ensures CoordInv(CoordApply(co, step))
    ensures Onward(co, CoordApply(co, step))
  {
    StepKeys(co, step);
    StepOnward(co, step);
    forall id | id in CoordApply(co, step).txs ensures IdOk(CoordApply(co, step), id) {
      IdStep(co, step, id);
    }
    hide CoordApply, StepEnabled, IdOk, Onward;
  }

  lemma OnwardTwice(a: Coord, b: Coord, c: Coord)
    requires Onward(a, b) && Onward(b, c)
    ensures Onward(a, c)
  {
  }

  ghost predicate IsCoordRun(states: seq<Coord>, steps: seq<CoordStep>) {
    && |states| == |steps| + 1 && states[0] == IDLE
    && forall k :: 0 <= k < |steps| ==>
         StepEnabled(states[k], steps[k]) && states[k + 1] == CoordApply(states[k], steps[k])
  }

  lemma CoordRun(states: seq<Coord>, steps: seq<CoordStep>, j: nat, k: nat)
    requires IsCoordRun(states, steps) && j <= k < |states|
    ensures CoordInv(states[k]) && Onward(states[j], states[k])
  {
    if k > 0 {
      if j < k { CoordRun(states, steps, j, k - 1); } else { CoordRun(states, steps, k - 1, k - 1); }
      CoordKeeps(states[k - 1], steps[k - 1]);
    }
  }

  /** Over every interleaving of any number of transactions: COMMIT is broadcast
      exactly for the ids with two YES, no id ever gets both a COMMIT and an
      ABORT, and the client is told success only for a committed id. */
  lemma DecisionConsistency(states: seq<Coord>, steps: seq<CoordStep>, j: nat, k: nat, id: int)
    requires IsCoordRun(states, steps) && j < |states| && k < |states|
    ensures !(id in states[j].commits && id in states[k].aborts)
    ensures id in states[k].txs ==>
              IdOk(states[k], id) && (id in states[k].commits <==> Yeses(states[k], id) == 2)
    ensures id in states[k].toldSuccess ==> id in states[k].commits
    ensures !(id in states[j].toldSuccess && id in states[k].toldAborted)
  {
    var last := |states| - 1;
    CoordRun(states, steps, j, last);
    CoordRun(states, steps, k, last);
    CoordRun(states, steps, k, k);
    assert id in states[last].txs ==> IdOk(states[last], id);
    assert id in states[k].txs ==> IdOk(states[k], id);
  }
}
