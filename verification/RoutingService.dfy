/** The routing service as the object it is in the program: counters and sets
    updated between awaits, and the timer job that expires queued requests. */
module RoutingObject {
  import opened Types
  import C = Coordinator

  /** A request that waits for its cluster to have a leader. */
  datatype Queued = Queued(req: Request, side: bool, since: int)

  const EXPIRY_SECONDS := 3

  predicate Expires(q: Queued, now: int) { now - q.since >= EXPIRY_SECONDS }

  /** The requests that stay queued, in order. */
  function StillQueued(queue: seq<Queued>, now: int): seq<Queued> {
    if queue == [] then []
    else
      var n := |queue| - 1;
      StillQueued(queue[..n], now) + (if Expires(queue[n], now) then [] else [queue[n]])
  }

  /** The requests that stay are those that came less than three seconds ago, in
      the order in which they came: the x-th is at place idx[x] of the queue. */
  lemma {:induction false} KeptInOrder(queue: seq<Queued>, now: int) returns (idx: seq<nat>)
    ensures |idx| == |StillQueued(queue, now)|
    ensures forall x :: 0 <= x < |idx| ==> idx[x] < |queue| && StillQueued(queue, now)[x] == queue[idx[x]]
    ensures forall x, y :: 0 <= x < y < |idx| ==> idx[x] < idx[y]
    ensures forall i: nat :: i < |queue| ==> (i in idx <==> now < queue[i].since + 3)
  {
    if queue == [] {
      idx := [];
    } else {
      var n := |queue| - 1;
      var before := KeptInOrder(queue[..n], now);
      var last := if Expires(queue[n], now) then [] else [n];
      idx := before + last;
      assert StillQueued(queue, now) ==
             StillQueued(queue[..n], now) + (if Expires(queue[n], now) then [] else [queue[n]]);
      hide StillQueued;
      forall i: nat | i < |queue| ensures i in idx <==> now < queue[i].since + 3 {
        assert i in idx <==> i in before || i in last;
        assert i < n ==> queue[..n][i] == queue[i];
      }
    }
  }

  /** Expiry of one cross-shard prepare, from the negative outcome to its end. */
  function ExpireOne(co: C.Coord, id: int, side: bool): C.Coord
    requires id in co.replies
  {
    var co1 := C.OnNegative(co, id, side);
    if co.replies[id] == -1 then co1
    else C.CoordApply(C.CoordApply(co1, C.TellAborted(id, side)), C.GiveUp(id, side))
  }

  /** The queued cross-shard requests are numbered. */
  predicate Numbered(co: C.Coord, queue: seq<Queued>) {
    forall i :: 0 <= i < |queue| && queue[i].req.CrossReq? ==> queue[i].req.id in co.replies
  }

  /** The coordinator after the timer job went over the queue. */
  function ExpireAll(co: C.Coord, queue: seq<Queued>, now: int): (r: C.Coord)
    requires Numbered(co, queue)
    ensures r.replies.Keys == co.replies.Keys
  {
    if queue == [] then co
    else
      var n := |queue| - 1;
      var co1 := ExpireAll(co, queue[..n], now);
      if Expires(queue[n], now) && queue[n].req.CrossReq? then ExpireOne(co1, queue[n].req.id, queue[n].side) else co1
  }

  /** Queued prepares are awaited, and no prepare is queued twice. */
  ghost predicate QueueOk(co: C.Coord, queue: seq<Queued>) {
    && (forall i :: 0 <= i < |queue| && queue[i].req.CrossReq? ==>
          queue[i].req.id in co.replies && C.TaskIs(co, queue[i].req.id, queue[i].side, C.Awaiting))
    && (forall i, j :: 0 <= i < j < |queue| && queue[i].req.CrossReq? && queue[j].req.CrossReq? ==>
          (queue[i].req.id, queue[i].side) != (queue[j].req.id, queue[j].side))
  }

  /** One prepare is resolved negatively, the client told unless it was before, and
      everything else is as it was. */
  ghost predicate OneSwept(co: C.Coord, r: C.Coord, id: int, side: bool)
    requires id in co.replies
  {
    && r.replies == co.replies[id := -1] && r.tasks == co.tasks[(id, side) := C.NoDone]
    && r.toldAborted == (if co.replies[id] == -1 then co.toldAborted else co.toldAborted + {id})
    && r.toldSuccess == co.toldSuccess && r.txs == co.txs && r.lastId == co.lastId
  }

  lemma ExpireOneKeeps(co: C.Coord, id: int, side: bool)
    requires C.CoordInv(co) && id in co.replies && C.TaskIs(co, id, side, C.Awaiting)
    ensures var r := ExpireOne(co, id, side);
            && C.CoordInv(r) && C.Onward(co, r) && id in r.aborts && r.commits == co.commits
            && OneSwept(co, r, id, side)
  {
    hide C.CoordInv, C.Onward;
    C.CoordKeeps(co, C.Negative(id, side));
    var co1 := C.OnNegative(co, id, side);
    if co.replies[id] != -1 {
      var co2 := C.CoordApply(co1, C.TellAborted(id, side));
      C.CoordKeeps(co1, C.TellAborted(id, side));
      C.CoordKeeps(co2, C.GiveUp(id, side));
      C.OnwardTwice(co, co1, co2);
      C.OnwardTwice(co, co2, ExpireOne(co, id, side));
    } else {
      AbortIsOver(co, id);
    }
  }

  /** The counter is -1 only after an abort. */
  lemma AbortIsOver(co: C.Coord, id: int)
    requires C.CoordInv(co) && id in co.replies && co.replies[id] == -1
    ensures id in co.aborts
  {
    assert C.IdOk(co, id);
  }

  /** The prepares that expired are resolved negatively, and the others are awaited
      as before. */
  ghost predicate TasksSwept(co: C.Coord, r: C.Coord, queue: seq<Queued>, now: int) {
    forall k :: k in co.tasks ==>
      k in r.tasks && r.tasks[k] == if ExpiredTask(queue, now, k) then C.NoDone else co.tasks[k]
  }

  /** A counter changes only to -1, and then the client was told of the abort. */
  ghost predicate CountersSwept(co: C.Coord, r: C.Coord) {
    forall id :: id in co.replies ==>
      id in r.replies && (r.replies[id] == co.replies[id] || (r.replies[id] == -1 && id in r.toldAborted))
  }

  /** The transactions of the prepares that expired are aborted, and that is over. */
  ghost predicate AbortsSwept(r: C.Coord, queue: seq<Queued>, now: int) {
    forall k :: ExpiredTask(queue, now, k) ==> k.0 in r.aborts && k.0 in r.replies && r.replies[k.0] == -1
  }

  /** What going over the queue achieves: every decision stands, every expired
      cross-shard request is aborted, nothing is committed, and the prepares
      that stay are still awaited. */
  ghost predicate Swept(co: C.Coord, r: C.Coord, queue: seq<Queued>, now: int) {
    && C.CoordInv(r) && C.Onward(co, r) && r.commits == co.commits
    && r.toldSuccess == co.toldSuccess && r.txs == co.txs && r.lastId == co.lastId
    && TasksSwept(co, r, queue, now) && CountersSwept(co, r) && AbortsSwept(r, queue, now)
  }

  /** The timer job is a sequence of coordinator steps. */
  lemma {:induction false} ExpiryKeeps(co: C.Coord, queue: seq<Queued>, now: int)
    requires C.CoordInv(co) && QueueOk(co, queue)
    ensures Swept(co, ExpireAll(co, queue, now), queue, now)
  {
    hide C.CoordInv, C.Onward, ExpireOne;
    if queue == [] {
      OnwardSame(co);
    } else {
      var n := |queue| - 1;
      var q := queue[n];
      ExpiryKeeps(co, queue[..n], now);
      var co1 := ExpireAll(co, queue[..n], now);
      QueueSplits(queue, now);
      hide ExpiredTask, CountersSwept;
      if Expires(q, now) && q.req.CrossReq? {
        StillAwaited(co, co1, queue, now);
        ExpireOneKeeps(co1, q.req.id, q.side);
        SweptOne(co, co1, ExpireOne(co1, q.req.id, q.side), queue, now);
      }
    }
  }

  lemma StillAwaited(co: C.Coord, co1: C.Coord, queue: seq<Queued>, now: int)
    requires queue != [] && queue[|queue| - 1].req.CrossReq? && QueueOk(co, queue)
    requires TasksSwept(co, co1, queue[..|queue| - 1], now)
    ensures var q := queue[|queue| - 1]; C.TaskIs(co1, q.req.id, q.side, C.Awaiting)
  {
    QueueSplits(queue, now);
    hide ExpiredTask;
  }

  lemma SweptOne(co: C.Coord, co1: C.Coord, r: C.Coord, queue: seq<Queued>, now: int)
    requires queue != [] && QueueOk(co, queue) && Swept(co, co1, queue[..|queue| - 1], now)
    requires var q := queue[|queue| - 1];
             && q.req.CrossReq? && Expires(q, now) && q.req.id in r.aborts
             && C.CoordInv(r) && C.Onward(co1, r) && r.commits == co1.commits
             && q.req.id in co1.replies && OneSwept(co1, r, q.req.id, q.side)
    ensures Swept(co, r, queue, now)
  {
    hide C.CoordInv, C.Onward;
    QueueSplits(queue, now);
    hide ExpiredTask;
    C.OnwardTwice(co, co1, r);
    AbortsStay(co1, r);
    CountersOnce(co, co1, r, queue[|queue| - 1].req.id, queue[|queue| - 1].side);
  }

  lemma CountersOnce(co: C.Coord, co1: C.Coord, r: C.Coord, id: int, side: bool)
    requires CountersSwept(co, co1) && id in co1.replies && OneSwept(co1, r, id, side)
    ensures CountersSwept(co, r)
  {
  }

  /** Going through a queue one request further. */
  lemma QueueSplits(queue: seq<Queued>, now: int)
    requires queue != []
    ensures var n := |queue| - 1; var q := queue[n];
            forall k :: ExpiredTask(queue, now, k) <==>
              ExpiredTask(queue[..n], now, k) || (q.req.CrossReq? && Expires(q, now) && k == (q.req.id, q.side))
    ensures var n := |queue| - 1; var q := queue[n];
            (q.req.CrossReq? && forall i :: 0 <= i < n && queue[i].req.CrossReq? ==>
               (queue[i].req.id, queue[i].side) != (q.req.id, q.side)) ==>
              !ExpiredTask(queue[..n], now, (q.req.id, q.side))
  {
    var n := |queue| - 1;
    forall k | ExpiredTask(queue[..n], now, k) ensures ExpiredTask(queue, now, k) {
      var i :| 0 <= i < n && queue[..n][i].req.CrossReq? && Expires(queue[..n][i], now)
               && k == (queue[..n][i].req.id, queue[..n][i].side);
      assert queue[i] == queue[..n][i];
    }
    forall k | ExpiredTask(queue, now, k)
      ensures ExpiredTask(queue[..n], now, k)
              || (queue[n].req.CrossReq? && Expires(queue[n], now) && k == (queue[n].req.id, queue[n].side))
    {
      var i :| 0 <= i <= n && queue[i].req.CrossReq? && Expires(queue[i], now) && k == (queue[i].req.id, queue[i].side);
      if i < n { assert queue[..n][i] == queue[i]; }
    }
  }

  lemma OnwardSame(co: C.Coord)
    ensures C.Onward(co, co)
  {
  }

  lemma AbortsStay(co: C.Coord, r: C.Coord)
    requires C.Onward(co, r)
    ensures co.aborts <= r.aborts
  {
  }

  ghost predicate ExpiredTask(queue: seq<Queued>, now: int, k: (int, bool)) {
    exists i :: 0 <= i < |queue| && queue[i].req.CrossReq? && Expires(queue[i], now)
                && k == (queue[i].req.id, queue[i].side)
  }

  /** The request is the last of its cluster's queue; the others are as they were. */
  function Enqueued(queues: seq<seq<Queued>>, k: nat, q: Queued): (r: seq<seq<Queued>>)
    requires k < |queues|
    ensures |r| == |queues| && |r[k]| == |queues[k]| + 1 && r[k][|queues[k]|] == q && queues[k] <= r[k]
    ensures forall i :: 0 <= i < |queues| && i != k ==> r[i] == queues[i]
  {
    queues[k := queues[k] + [q]]
  }

  /** All queues one after the other. */
  function Flat(queues: seq<seq<Queued>>): seq<Queued> {
    if queues == [] then [] else Flat(queues[..|queues| - 1]) + queues[|queues| - 1]
  }

  class RoutingService {
    var lastId: nat
    var replies: map<int, int>
    var txs: map<int, C.Tx>
    var tasks: map<(int, bool), C.Task>
    var commits: set<int>
    var aborts: set<int>
    var toldSuccess: set<int>
    var toldAborted: set<int>
    /** For each cluster the requests that wait for it to have a leader. */
    var queues: seq<seq<Queued>>

    ghost function State(): C.Coord
      reads this
    {
      C.Coord(lastId, replies, txs, tasks, commits, aborts, toldSuccess, toldAborted)
    }

    constructor (clusters: nat)
      ensures State() == C.IDLE && queues == seq(clusters, _ => [])
    {
      lastId, replies, txs, tasks := 0, map[], map[], map[];
      commits, aborts, toldSuccess, toldAborted, queues := {}, {}, {}, {}, seq(clusters, _ => []);
    }

    /** A new cross-shard request gets the next id.  Its prepare is sent to the
        sender's cluster, or queued for it when it has no leader. */
    method HandleCross(tx: C.Tx, hasLeader: bool, now: int) returns (id: int, sent: seq<Request>)
      requires 0 <= tx.senderCluster < |queues|
      modifies this
      ensures State() == C.Begin(old(State()), tx) && id == old(lastId) + 1
      ensures var prepare, k := C.RequestOf(tx, PreparePhase, id), tx.senderCluster;
              if hasLeader then sent == [prepare] && queues == old(queues)
              else sent == [] && queues == Enqueued(old(queues), k, Queued(prepare, true, now))
    {
      lastId := lastId + 1;
      id := lastId;
      replies, txs := replies[id := 0], txs[id := tx];
      tasks := tasks[(id, true) := C.Awaiting][(id, false) := C.Awaiting];
      sent := SendOrQueue(tx.senderCluster, C.RequestOf(tx, PreparePhase, id), true, hasLeader, now);
    }

    /** Then, after the sender's prepare was queued or is resolved, the same for
        the receiver's cluster. */
    method HandleReceiver(id: int, hasLeader: bool, now: int) returns (sent: seq<Request>)
      requires id in txs && 0 <= txs[id].receiverCluster < |queues|
      modifies `queues
      ensures var prepare, k := C.RequestOf(txs[id], PreparePhase, id), txs[id].receiverCluster;
              if hasLeader then sent == [prepare] && queues == old(queues)
              else sent == [] && queues == Enqueued(old(queues), k, Queued(prepare, false, now))
    {
      sent := SendOrQueue(txs[id].receiverCluster, C.RequestOf(txs[id], PreparePhase, id), false, hasLeader, now);
    }

    /** An intra-shard request also gets the next id. */
    method HandleIntra(req: Request, hasLeader: bool, now: int) returns (sent: seq<Request>)
      requires req.IntraReq? && 0 <= req.cluster < |queues|
      modifies this
      ensures State() == C.CoordApply(old(State()), C.BeginIntra(req.cluster, req.sender, req.receiver, req.amount))
      ensures var numbered := IntraReq(req.cluster, req.sender, req.receiver, req.amount, old(lastId) + 1);
              if hasLeader then sent == [numbered] && queues == old(queues)
              else sent == [] && queues == Enqueued(old(queues), req.cluster, Queued(numbered, true, now))
    {
      lastId := lastId + 1;
      var numbered := IntraReq(req.cluster, req.sender, req.receiver, req.amount, lastId);
      sent := SendOrQueue(req.cluster, numbered, true, hasLeader, now);
    }

    method SendOrQueue(k: nat, req: Request, side: bool, hasLeader: bool, now: int) returns (sent: seq<Request>)
      requires k < |queues|
      modifies `queues
      ensures if hasLeader then sent == [req] && queues == old(queues)
              else sent == [] && queues == Enqueued(old(queues), k, Queued(req, side, now))
    {
      if hasLeader {
        sent := [req];
      } else {
        sent := [];
        queues := queues[k := queues[k] + [Queued(req, side, now)]];
      }
    }

    /** The segment after a YES arrived; true when it starts the COMMIT broadcast. */
    method OnYes(id: int, side: bool) returns (broadcast: bool)
      requires id in replies
      modifies this
      ensures State() == C.OnYes(old(State()), id, side) && queues == old(queues)
      ensures broadcast <==> old(replies)[id] == 1
    {
      replies := replies[id := replies[id] + 1];
      broadcast := replies[id] == 2;
      if broadcast {
        commits, tasks := commits + {id}, tasks[(id, side) := C.Committing];
      } else {
        tasks := tasks[(id, side) := C.YesDone];
      }
    }

    /** The segment after a NO, a timeout or an expiry, up to the broadcast. */
    method OnNegative(id: int, side: bool) returns (broadcast: bool)
      requires id in replies
      modifies this
      ensures State() == C.OnNegative(old(State()), id, side) && queues == old(queues)
      ensures broadcast <==> old(replies)[id] != -1
    {
      broadcast := replies[id] != -1;
      if broadcast {
        aborts, tasks := aborts + {id}, tasks[(id, side) := C.Aborting];
      } else {
        tasks := tasks[(id, side) := C.NoDone];
      }
    }

    /** The segment after the COMMIT broadcast. */
    method TellSuccess(id: int, side: bool)
      requires C.TaskIs(State(), id, side, C.Committing)
      modifies this
      ensures State() == C.CoordApply(old(State()), C.TellSuccess(id, side)) && queues == old(queues)
    {
      toldSuccess, tasks := toldSuccess + {id}, tasks[(id, side) := C.YesDone];
    }

    /** The segment after the ABORT broadcast, up to closing the connection. */
    method TellAborted(id: int, side: bool)
      requires C.TaskIs(State(), id, side, C.Aborting)
      modifies this
      ensures State() == C.CoordApply(old(State()), C.TellAborted(id, side)) && queues == old(queues)
    {
      toldAborted, tasks := toldAborted + {id}, tasks[(id, side) := C.Telling];
    }

    /** The segment after that: no later outcome of the id aborts it again. */
    method GiveUp(id: int, side: bool)
      requires C.TaskIs(State(), id, side, C.Telling)
      modifies this
      ensures State() == C.CoordApply(old(State()), C.GiveUp(id, side)) && queues == old(queues)
    {
      replies, tasks := replies[id := -1], tasks[(id, side) := C.NoDone];
    }

    /** Expiry of one queued prepare. */
    method Expire(id: int, side: bool)
      requires id in replies
      modifies this
      ensures State() == ExpireOne(old(State()), id, side) && queues == old(queues)
    {
      var broadcast := OnNegative(id, side);
      if broadcast {
        TellAborted(id, side);
        GiveUp(id, side);
      }
    }

    /** The timer job on one cluster's queue. */
    method ProcessQueue(k: nat, now: int)
      requires k < |queues| && Numbered(State(), queues[k])
      modifies this
      ensures queues == old(queues)[k := StillQueued(old(queues[k]), now)]
      ensures State() == ExpireAll(old(State()), old(queues[k]), now)
    {
      hide StillQueued, ExpireAll, ExpireOne;
      ghost var co := State();
      var pending, kept := queues[k], [];
      NoneYet(co, now);
      for i := 0 to |pending|
        invariant queues == old(queues)
        invariant kept == StillQueued(pending[..i], now)
        invariant State() == ExpireAll(co, pending[..i], now)
      {
        OneMore(co, pending, i, now);
        var q := pending[i];
        if now - q.since < EXPIRY_SECONDS {
          kept := kept + [q];
        } else if q.req.CrossReq? {
          Expire(q.req.id, q.side);
        }
      }
      assert pending[..|pending|] == pending;
      queues := queues[k := kept];
    }

    /** The timer job on every cluster's queue in turn. */
    method ProcessQueues(now: int)
      requires Numbered(State(), Flat(queues))
      modifies this
      ensures |queues| == |old(queues)|
      ensures forall k :: 0 <= k < |queues| ==> queues[k] == StillQueued(old(queues)[k], now)
      ensures State() == ExpireAll(old(State()), Flat(old(queues)), now)
    {
      hide StillQueued, ExpireAll;
      ghost var co := State();
      NoneYet(co, now);
      for k := 0 to |queues|
        invariant |queues| == |old(queues)|
        invariant forall i :: 0 <= i < k ==> queues[i] == StillQueued(old(queues)[i], now)
        invariant forall i :: k <= i < |queues| ==> queues[i] == old(queues)[i]
        invariant Numbered(co, Flat(old(queues)[..k]))
        invariant State() == ExpireAll(co, Flat(old(queues)[..k]), now)
      {
        OneMoreQueue(co, old(queues), k, now);
        ProcessQueue(k, now);
      }
      assert old(queues)[..|queues|] == old(queues);
    }
  }

  lemma NoneYet(co: C.Coord, now: int)
    ensures StillQueued([], now) == [] && ExpireAll(co, [], now) == co
  {
  }

  lemma OneMore(co: C.Coord, queue: seq<Queued>, i: nat, now: int)
    requires i < |queue| && Numbered(co, queue)
    ensures StillQueued(queue[..i + 1], now) ==
            StillQueued(queue[..i], now) + (if Expires(queue[i], now) then [] else [queue[i]])
    ensures queue[i].req.CrossReq? ==> queue[i].req.id in ExpireAll(co, queue[..i], now).replies
    ensures ExpireAll(co, queue[..i + 1], now) ==
            var co1 := ExpireAll(co, queue[..i], now);
            if Expires(queue[i], now) && queue[i].req.CrossReq? then ExpireOne(co1, queue[i].req.id, queue[i].side)
            else co1
  {
    assert queue[..i + 1][..i] == queue[..i];
  }

  lemma {:induction false} ExpireConcat(co: C.Coord, a: seq<Queued>, b: seq<Queued>, now: int)
    requires Numbered(co, a) && Numbered(co, b)
    ensures Numbered(co, a + b) && Numbered(ExpireAll(co, a, now), b)
    ensures ExpireAll(co, a + b, now) == ExpireAll(ExpireAll(co, a, now), b, now)
  {
    if b == [] {
      assert a + b == a;
    } else {
      var n := |b| - 1;
      assert (a + b)[..|a + b| - 1] == a + b[..n];
      ExpireConcat(co, a, b[..n], now);
    }
  }

  lemma {:induction false} FlatHas(queues: seq<seq<Queued>>, k: nat, q: Queued)
    requires k < |queues| && q in queues[k]
    ensures q in Flat(queues)
  {
    if k < |queues| - 1 { FlatHas(queues[..|queues| - 1], k, q); }
  }

  lemma {:induction false} FlatPrefix(queues: seq<seq<Queued>>, k: nat, q: Queued)
    requires k <= |queues| && q in Flat(queues[..k])
    ensures q in Flat(queues)
  {
    if k == |queues| {
      assert queues[..k] == queues;
    } else {
      assert queues[..|queues| - 1][..k] == queues[..k];
      FlatPrefix(queues[..|queues| - 1], k, q);
    }
  }

  lemma OneMoreQueue(co: C.Coord, queues: seq<seq<Queued>>, k: nat, now: int)
    requires k < |queues| && Numbered(co, Flat(queues))
    ensures Numbered(co, Flat(queues[..k])) && Numbered(co, queues[k]) && Numbered(co, Flat(queues[..k + 1]))
    ensures Numbered(ExpireAll(co, Flat(queues[..k]), now), queues[k])
    ensures ExpireAll(co, Flat(queues[..k + 1]), now) ==
            ExpireAll(ExpireAll(co, Flat(queues[..k]), now), queues[k], now)
  {
    var before, all := Flat(queues[..k]), Flat(queues);
    forall i | 0 <= i < |before| ensures before[i] in all {
      FlatPrefix(queues, k, before[i]);
    }
    forall i | 0 <= i < |queues[k]| ensures queues[k][i] in all {
      FlatHas(queues, k, queues[k][i]);
    }
    assert forall q :: q in all && q.req.CrossReq? ==> q.req.id in co.replies;
    assert queues[..k + 1][..k] == queues[..k];
    ExpireConcat(co, Flat(queues[..k]), queues[k], now);
  }
}
