/** The whole bank: any number of clusters, each under a stable leader, and the
    two-phase-commit coordinator between them. */
module World {
  import opened Types
  import opened Handlers
  import opened Cluster
  import opened LogSafety
  import opened Leader
  import opened Requests
  import opened Replies
  import opened Epoch
  import opened ReignRuns
  import opened Coordinator

  datatype Bank = Bank(clusters: seq<Sys>, coord: Coord)

  /** Who leads each cluster, and the balances it started from. */
  datatype Setup = Setup(reigns: seq<Reign>, inits: seq<map<int, int>>)

  datatype BankStep =
    | Inside(k: nat, step: EpochStep)                         // a cluster's own step
    | Coordinate(cstep: CoordStep)                            // a coordinator's own step
    | SendPrepare(k: nat, id: int, fd: int)                   // PREPARE reaches a leader
    | SendDecision(k: nat, at: ServerId, id: int, fd: int, commit: bool) // COMMIT or ABORT reaches a server

  predicate Involves(tx: Tx, k: int) { tx.senderCluster == k || tx.receiverCluster == k }

  function SideCluster(tx: Tx, side: bool): int { if side then tx.senderCluster else tx.receiverCluster }

  /** The cluster's leader has answered YES for the id. */
  ghost predicate SaidYesFor(s: Sys, id: int) {
    exists r :: 0 <= r < |s.replies| && s.replies[r].id == id && s.replies[r].result == Result.Yes
  }

  ghost predicate TxOk(tx: Tx, n: nat) {
    && 0 <= tx.senderCluster < n && 0 <= tx.receiverCluster < n && tx.senderCluster != tx.receiverCluster
    && WellFormed(RequestOf(tx, PreparePhase, 0))
  }

  function AskOf(b: Bank, u: Setup, step: BankStep): EpochStep
    requires step.SendPrepare? || step.SendDecision?
    requires step.k < |u.reigns| && step.id in b.coord.txs
  {
    var tx := b.coord.txs[step.id];
    match step
    case SendPrepare(k, id, fd) => Ask(u.reigns[k].leader, RequestOf(tx, PreparePhase, id), fd)
    case SendDecision(k, at, id, fd, commit) =>
      Ask(at, RequestOf(tx, if commit then CommitPhase else AbortPhase, id), fd)
  }

  ghost predicate BankEnabled(b: Bank, u: Setup, step: BankStep) {
    && |u.reigns| == |u.inits| == |b.clusters|
    && match step
       case Inside(k, e) =>
         k < |b.clusters| && (e.Ask? ==> e.req.IntraReq?) && CanStep(u.reigns[k], b.clusters[k], e)
       case Coordinate(c) =>
         && StepEnabled(b.coord, c)
         && (c.BeginCross? ==> TxOk(c.tx, |b.clusters|))
         && (c.Yes? ==> c.id in b.coord.txs
                        && var k := SideCluster(b.coord.txs[c.id], c.side);
                           0 <= k < |b.clusters| && SaidYesFor(b.clusters[k], c.id))
       case SendPrepare(k, id, _) =>
         && k < |b.clusters| && id in b.coord.txs && Involves(b.coord.txs[id], k)
         && CanStep(u.reigns[k], b.clusters[k], AskOf(b, u, step))
       case SendDecision(k, _, id, _, commit) =>
         && k < |b.clusters| && id in b.coord.txs && Involves(b.coord.txs[id], k)
         && (if commit then id in b.coord.commits else id in b.coord.aborts)
         && CanStep(u.reigns[k], b.clusters[k], AskOf(b, u, step))
  }

  ghost function BankApply(b: Bank, u: Setup, step: BankStep): Bank
    requires BankEnabled(b, u, step)
  {
    match step
    case Inside(k, e) => b.(clusters := b.clusters[k := EpochApply(u.reigns[k], b.clusters[k], e)])
    case Coordinate(c) => b.(coord := CoordApply(b.coord, c))
    case SendPrepare(k, _, _) =>
      b.(clusters := b.clusters[k := EpochApply(u.reigns[k], b.clusters[k], AskOf(b, u, step))])
    case SendDecision(k, _, _, _, _) =>
      b.(clusters := b.clusters[k := EpochApply(u.reigns[k], b.clusters[k], AskOf(b, u, step))])
  }

  // ---- The invariant ------------------------------------------------------

  function CommandOf(tx: Tx, e: Entry): Command {
    match e.command
    case Intra(_, _, _) => e.command
    case Prepare(_, _, _) => Prepare(tx.sender, tx.receiver, tx.amount)
    case Commit(_, _, _) => Commit(tx.sender, tx.receiver, tx.amount)
    case Abort(_, _, _) => Abort(tx.sender, tx.receiver, tx.amount)
  }

  /** A cross-shard entry in cluster k stems from a transaction of that cluster,
      and a COMMIT or ABORT from the coordinator's decision. */
  ghost predicate EntryOk(co: Coord, k: int, e: Entry) {
    !e.command.Intra? ==>
      && e.id in co.txs && Involves(co.txs[e.id], k) && e.command == CommandOf(co.txs[e.id], e)
      && (e.command.Commit? ==> e.id in co.commits)
      && (e.command.Abort? ==> e.id in co.aborts)
  }

  ghost predicate LogFromCoord(co: Coord, k: int, log: seq<Entry>) {
    forall i :: 0 <= i < |log| ==> EntryOk(co, k, log[i])
  }

  ghost predicate TxsOk(co: Coord, n: nat) { forall id :: id in co.txs ==> TxOk(co.txs[id], n) }

  /** A prepare counted as YES was answered YES by that cluster's leader. */
  ghost predicate VotesOk(b: Bank) {
    forall id, side :: id in b.coord.txs && (id, side) in b.coord.tasks && b.coord.tasks[(id, side)].SaidYes() ==>
      var k := SideCluster(b.coord.txs[id], side); 0 <= k < |b.clusters| && SaidYesFor(b.clusters[k], id)
  }

  ghost predicate ClusterOk(u: Setup, co: Coord, k: nat, s: Sys)
    requires k < |u.reigns| == |u.inits|
  {
    && s.cluster == k && FullInv(u.reigns[k], u.inits[k], s)
    && LogFromCoord(co, k, s.servers[u.reigns[k].leader].log)
  }

  ghost predicate BankInv(b: Bank, u: Setup) {
    && |u.reigns| == |u.inits| == |b.clusters|
    && (forall k: nat :: k < |b.clusters| ==> ClusterOk(u, b.coord, k, b.clusters[k]))
    && CoordInv(b.coord) && TxsOk(b.coord, |b.clusters|) && VotesOk(b)
  }

  // ---- Steps --------------------------------------------------------------

  lemma LogOnward(co: Coord, co': Coord, k: int, log: seq<Entry>)
    requires LogFromCoord(co, k, log) && Onward(co, co')
    ensures LogFromCoord(co', k, log)
  {
    assert forall i :: 0 <= i < |log| ==> EntryOk(co, k, log[i]);
  }

  /** The leader's log after a step of its cluster: as before, or with the entry
      of the request that was asked of it. */
  lemma LeaderLogStep(c: Reign, init: map<int, int>, s: Sys, e: EpochStep)
    requires FullInv(c, init, s) && CanStep(c, s, e)
    ensures var l, l' := s.servers[c.leader], EpochApply(c, s, e).servers[c.leader];
            l'.log == l.log || (e.Ask? && e.at == c.leader && l' == OnClient(l, s.cluster, e.req, e.fd).server)
  {
    hide OnAppendReq, OnAppendRsp, OnClient, LeaderInv, AnsweredOnce, RepliesTrue, FollowerOk, Durable;
    var l := s.servers[c.leader];
    match e
    case Beat =>
    case Ask(_, _, _) =>
    case Hear(m) =>
      assert InRound(c, l, s.servers[Peer(m)], m);
      if m.AppendRsp? { ResponseMoves(l, m); }
  }

  lemma RepliesGrow(c: Reign, s: Sys, e: EpochStep)
    requires EpochEnabled(c, s, e)
    ensures s.replies <= EpochApply(c, s, e).replies
  {
  }

  lemma StillSaidYes(s: Sys, s': Sys, id: int)
    requires s.replies <= s'.replies && SaidYesFor(s, id)
    ensures SaidYesFor(s', id)
  {
    var r :| 0 <= r < |s.replies| && s.replies[r].id == id && s.replies[r].result == Result.Yes;
    assert s'.replies[r] == s.replies[r];
  }

  lemma LogExtended(co: Coord, k: int, log: seq<Entry>, log': seq<Entry>)
    requires LogFromCoord(co, k, log)
    requires log' == log || (exists e :: EntryOk(co, k, e) && log' == log + [e])
    ensures LogFromCoord(co, k, log')
  {
  }

  /** Requests that a cluster may be asked without harm to the log invariant. */
  ghost predicate Allowed(co: Coord, k: int, req: Request) {
    req.IntraReq? ||
      (&& req.id in co.txs && Involves(co.txs[req.id], k)
       && req == RequestOf(co.txs[req.id], req.phase, req.id)
       && (req.phase.CommitPhase? ==> req.id in co.commits)
       && (req.phase.AbortPhase? ==> req.id in co.aborts))
  }

  lemma AllowedLog(co: Coord, k: int, sv: Server, req: Request, fd: int)
    requires LogFromCoord(co, k, sv.log) && Allowed(co, k, req)
    ensures LogFromCoord(co, k, OnClient(sv, k, req, fd).server.log)
  {
    hide OnClient, LogFromCoord;
    ClientGrows(sv, k, req, fd);
    LogExtended(co, k, sv.log, OnClient(sv, k, req, fd).server.log);
  }

  lemma ClusterStep(u: Setup, co: Coord, k: nat, s: Sys, e: EpochStep)
    requires k < |u.reigns| == |u.inits| && ClusterOk(u, co, k, s)
    requires CanStep(u.reigns[k], s, e) && (e.Ask? ==> Allowed(co, k, e.req))
    ensures ClusterOk(u, co, k, EpochApply(u.reigns[k], s, e))
  {
    hide FullInv, CanStep, EpochEnabled, EpochApply, OnClient, LogFromCoord, Allowed;
    var c, init := u.reigns[k], u.inits[k];
    CanStepEnabled(c, s, e);
    FullStep(c, init, s, e);
    LeaderLogStep(c, init, s, e);
    if e.Ask? { AllowedLog(co, k, s.servers[c.leader], e.req, e.fd); }
  }

  /** A step of one cluster, seen from the bank. */
  lemma BankClusterStep(b: Bank, b': Bank, u: Setup, k: nat, e: EpochStep)
    requires BankInv(b, u) && k < |b.clusters| && CanStep(u.reigns[k], b.clusters[k], e)
    requires e.Ask? ==> Allowed(b.coord, k, e.req)
    requires b' == b.(clusters := b.clusters[k := EpochApply(u.reigns[k], b.clusters[k], e)])
    ensures BankInv(b', u)
  {
    hide ClusterOk, CanStep, EpochEnabled, EpochApply, Allowed, SaidYesFor;
    CanStepEnabled(u.reigns[k], b.clusters[k], e);
    ClusterStep(u, b.coord, k, b.clusters[k], e);
    RepliesGrow(u.reigns[k], b.clusters[k], e);
    forall id, side | id in b'.coord.txs && (id, side) in b'.coord.tasks && b'.coord.tasks[(id, side)].SaidYes()
      ensures var j := SideCluster(b'.coord.txs[id], side); 0 <= j < |b'.clusters| && SaidYesFor(b'.clusters[j], id)
    {
      var j := SideCluster(b.coord.txs[id], side);
      if j == k { StillSaidYes(b.clusters[k], b'.clusters[k], id); }
    }
  }

  /** A step of the coordinator, seen from the bank. */
  lemma BankCoordStep(b: Bank, b': Bank, u: Setup, c: CoordStep)
    requires BankInv(b, u) && BankEnabled(b, u, Coordinate(c)) && b' == b.(coord := CoordApply(b.coord, c))
    ensures BankInv(b', u) && Onward(b.coord, b'.coord)
  {
    hide FullInv, CoordInv, Onward, LogFromCoord, SaidYesFor, TxOk;
    CoordKeeps(b.coord, c);
    forall k: nat | k < |b'.clusters| ensures ClusterOk(u, b'.coord, k, b'.clusters[k]) {
      assert ClusterOk(u, b.coord, k, b.clusters[k]);
      LogOnward(b.coord, b'.coord, k, b.clusters[k].servers[u.reigns[k].leader].log);
    }
    CoordVotes(b, b', u, c);
  }

  lemma CoordVotes(b: Bank, b': Bank, u: Setup, c: CoordStep)
    requires BankInv(b, u) && BankEnabled(b, u, Coordinate(c)) && b' == b.(coord := CoordApply(b.coord, c))
    ensures VotesOk(b') && TxsOk(b'.coord, |b'.clusters|)
  {
    hide FullInv, ClusterOk, SaidYesFor, TxOk, CoordInv;
    StepOnward(b.coord, c);
    StepKeys(b.coord, c);
    assert TxsOk(b'.coord, |b.clusters|) by {
      FreshId(b.coord);
      assert c.BeginCross? ==> b'.coord.txs[b.coord.lastId + 1] == c.tx;
    }
    assert StepEnabled(b.coord, c);
    hide CoordApply, StepEnabled;
    forall id, side | id in b'.coord.txs && (id, side) in b'.coord.tasks && b'.coord.tasks[(id, side)].SaidYes()
      ensures var k := SideCluster(b'.coord.txs[id], side); 0 <= k < |b'.clusters| && SaidYesFor(b'.clusters[k], id)
    {
      NewYes(b.coord, c, id, side);
      assert id in b.coord.txs by { TasksHaveTx(b.coord, id, side); }
    }
  }

  lemma TasksHaveTx(co: Coord, id: int, side: bool)
    requires CoordInv(co) && (id, side) in co.tasks
    ensures id in co.txs
  {
  }

  /** Only a YES makes a prepare count as YES. */
  lemma NewYes(co: Coord, c: CoordStep, id: int, side: bool)
    requires StepEnabled(co, c) && (id, side) in CoordApply(co, c).tasks
             && CoordApply(co, c).tasks[(id, side)].SaidYes()
    ensures (id, side) in co.tasks && (co.tasks[(id, side)].SaidYes() || c == CoordStep.Yes(id, side))
  {
  }

  lemma FreshId(co: Coord)
    requires CoordInv(co)
    ensures co.lastId + 1 !in co.txs
  {
    assert forall id :: id in co.txs ==> IdOk(co, id);
  }

  lemma BankKeeps(b: Bank, u: Setup, step: BankStep)
    requires BankInv(b, u) && BankEnabled(b, u, step)
    ensures BankInv(BankApply(b, u, step), u)
    ensures Onward(b.coord, BankApply(b, u, step).coord)
  {
    hide BankInv, CanStep, EpochEnabled, EpochApply, CoordApply, StepEnabled;
    var b' := BankApply(b, u, step);
    match step
    case Inside(k, e) => BankClusterStep(b, b', u, k, e);
    case Coordinate(c) => BankCoordStep(b, b', u, c);
    case SendPrepare(k, _, _) => BankClusterStep(b, b', u, k, AskOf(b, u, step));
    case SendDecision(k, _, _, _, _) => BankClusterStep(b, b', u, k, AskOf(b, u, step));
  }
}
