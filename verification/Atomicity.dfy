/** What the whole bank promises: cross-shard transfers are atomic, and no money
    is made or lost. */
module Atomicity {
  import opened Types
  import opened Handlers
  import opened Cluster
  import opened Money
  import opened Leader
  import opened Replies
  import opened Epoch
  import opened ReignRuns
  import opened Bounds
  import opened Coordinator
  import opened World
  import opened Bridge

  // ---- Atomicity ----------------------------------------------------------

  /** The leader of cluster k. */
  function LeaderOf(b: Bank, u: Setup, k: int): Server
    requires 0 <= k < |b.clusters| == |u.reigns|
  {
    b.clusters[k].servers[u.reigns[k].leader]
  }

  /** The server holds a Raft-committed PREPARE of exactly this transaction. */
  ghost predicate PreparedIn(sv: Server, id: int, tx: Tx) {
    exists i :: 0 <= i <= sv.commit && i < |sv.log| && sv.log[i].id == id
                && sv.log[i].command == Prepare(tx.sender, tx.receiver, tx.amount)
  }

  lemma YesMeansPrepared(b: Bank, u: Setup, k: nat, id: int)
    requires BankInv(b, u) && k < |b.clusters| && id in b.coord.txs && SaidYesFor(b.clusters[k], id)
    ensures PreparedIn(LeaderOf(b, u, k), id, b.coord.txs[id])
  {
    hide EpochInv, LeaderInv, AnsweredOnce, CoordInv, VotesOk;
    var s, l := b.clusters[k], LeaderOf(b, u, k);
    assert ClusterOk(u, b.coord, k, s);
    var r :| 0 <= r < |s.replies| && s.replies[r].id == id && s.replies[r].result == Result.Yes;
    var i :| Backed(l, i, id, Result.Yes);
    assert EntryOk(b.coord, k, l.log[i]);
  }

  /** A decision to commit: both leaders hold the PREPARE Raft-committed, and no
      ABORT was broadcast. */
  lemma CommitMeansPrepared(b: Bank, u: Setup, id: int)
    requires BankInv(b, u) && id in b.coord.commits
    ensures id in b.coord.txs && TxOk(b.coord.txs[id], |b.clusters|) && id !in b.coord.aborts
    ensures var tx := b.coord.txs[id];
            PreparedIn(LeaderOf(b, u, tx.senderCluster), id, tx)
            && PreparedIn(LeaderOf(b, u, tx.receiverCluster), id, tx)
  {
    hide ClusterOk, SaidYesFor, PreparedIn;
    assert IdOk(b.coord, id);
    var tx := b.coord.txs[id];
    assert SaidYesFor(b.clusters[SideCluster(tx, true)], id);
    assert SaidYesFor(b.clusters[SideCluster(tx, false)], id);
    YesMeansPrepared(b, u, tx.senderCluster, id);
    YesMeansPrepared(b, u, tx.receiverCluster, id);
  }

  /** Clusters under their leaders, with intra-shard entries only, and a
      coordinator that has seen no transaction. */
  ghost predicate BankStart(b: Bank, u: Setup) {
    && b.coord == IDLE && |u.reigns| == |u.inits| == |b.clusters|
    && forall k: nat :: k < |b.clusters| ==>
         && b.clusters[k].cluster == k && FullInv(u.reigns[k], u.inits[k], b.clusters[k])
         && forall i :: 0 <= i < |LeaderOf(b, u, k).log| ==> LeaderOf(b, u, k).log[i].command.Intra?
  }

  ghost predicate IsBankRun(states: seq<Bank>, steps: seq<BankStep>, u: Setup) {
    && |states| == |steps| + 1 && BankStart(states[0], u)
    && forall k :: 0 <= k < |steps| ==>
         BankEnabled(states[k], u, steps[k]) && states[k + 1] == BankApply(states[k], u, steps[k])
  }

  /** The bank after the first election of every cluster. */
  function Opened(inits: seq<map<int, int>>): (Bank, Setup) {
    (Bank(seq(|inits|, k requires 0 <= k < |inits| =>
              System(k, [Elected(inits[k]), Voter(inits[k]), Boot(inits[k])], {}, [])), IDLE),
     Setup(seq(|inits|, _ => Reign(0, 1)), inits))
  }

  /** That is a start, for any number of clusters and any initial balances. */
  lemma OpenedStarts(inits: seq<map<int, int>>)
    ensures var (b, u) := Opened(inits); BankStart(b, u)
  {
    hide FullInv, Elected, Voter;
    var (b, u) := Opened(inits);
    forall k: nat | k < |b.clusters|
      ensures b.clusters[k].cluster == k && FullInv(u.reigns[k], u.inits[k], b.clusters[k])
          && LeaderOf(b, u, k).log == []
    {
      FirstReign(k, inits[k], b.clusters[k]);
      ElectedLog(inits[k]);
    }
  }

  lemma ElectedLog(init: map<int, int>)
    ensures Elected(init).log == []
  {
  }

  lemma StartKeeps(b: Bank, u: Setup)
    requires BankStart(b, u)
    ensures BankInv(b, u)
  {
    hide FullInv;
    forall k: nat | k < |b.clusters| ensures ClusterOk(u, b.coord, k, b.clusters[k]) {
      assert LeaderOf(b, u, k) == b.clusters[k].servers[u.reigns[k].leader];
    }
  }

  lemma BankRun(states: seq<Bank>, steps: seq<BankStep>, u: Setup, j: nat, k: nat)
    requires IsBankRun(states, steps, u) && j <= k < |states|
    ensures BankInv(states[k], u) && Onward(states[j].coord, states[k].coord)
  {
    hide BankInv, BankStart, BankEnabled, BankApply;
    if k == 0 {
      StartKeeps(states[0], u);
    } else {
      if j < k { BankRun(states, steps, u, j, k - 1); } else { BankRun(states, steps, u, k - 1, k - 1); }
      BankKeeps(states[k - 1], u, steps[k - 1]);
    }
  }

  /** Two-phase commit is atomic end to end.  Once the leader of any cluster has
      executed the COMMIT of an id, the leaders of both its clusters hold the
      PREPARE of the same transfer Raft-committed; and neither before nor after
      is an ABORT of that id broadcast, or logged by a leader (here that of
      cluster n). */
  lemma AtomicCommit(states: seq<Bank>, steps: seq<BankStep>, u: Setup, j: nat, m: nat, k: nat, n: nat, id: int)
    requires IsBankRun(states, steps, u) && j < |states| && m < |states| && n < |states[m].clusters| == |u.reigns|
    requires k < |states[j].clusters| == |u.reigns| && HasCommit(LeaderOf(states[j], u, k).log, id)
    ensures BankInv(states[j], u) && id in states[j].coord.txs && TxOk(states[j].coord.txs[id], |states[j].clusters|)
    ensures var tx := states[j].coord.txs[id];
            && PreparedIn(LeaderOf(states[j], u, tx.senderCluster), id, tx)
            && PreparedIn(LeaderOf(states[j], u, tx.receiverCluster), id, tx)
    ensures id !in states[m].coord.aborts && !HasAbort(LeaderOf(states[m], u, n).log, id)
  {
    var last := |states| - 1;
    BankRun(states, steps, u, j, j);
    CommitLogged(states[j], u, k, id);
    CommitMeansPrepared(states[j], u, id);
    BankRun(states, steps, u, j, last);
    BankRun(states, steps, u, m, last);
    CommitMeansPrepared(states[last], u, id);
    BankRun(states, steps, u, m, m);
    if HasAbort(LeaderOf(states[m], u, n).log, id) { AbortLogged(states[m], u, n, id); }
  }

  lemma AbortLogged(b: Bank, u: Setup, k: nat, id: int)
    requires BankInv(b, u) && k < |b.clusters| && HasAbort(LeaderOf(b, u, k).log, id)
    ensures id in b.coord.aborts
  {
    hide FullInv, CoordInv;
    assert ClusterOk(u, b.coord, k, b.clusters[k]);
    var log := LeaderOf(b, u, k).log;
    var i :| 0 <= i < |log| && log[i].id == id && log[i].command.Abort?;
    assert EntryOk(b.coord, k, log[i]);
  }

  lemma CommitLogged(b: Bank, u: Setup, k: nat, id: int)
    requires BankInv(b, u) && k < |b.clusters| && HasCommit(LeaderOf(b, u, k).log, id)
    ensures id in b.coord.commits && id in b.coord.txs && Involves(b.coord.txs[id], k)
  {
    hide FullInv, CoordInv;
    assert ClusterOk(u, b.coord, k, b.clusters[k]);
    var log := LeaderOf(b, u, k).log;
    var i :| 0 <= i < |log| && log[i].id == id && log[i].command.Commit?;
    assert EntryOk(b.coord, k, log[i]);
  }

  // ---- Conservation -------------------------------------------------------

  /** What a transaction brings to cluster k. */
  function TxNet(tx: Tx, k: int): int {
    (if tx.receiverCluster == k then tx.amount else 0) - (if tx.senderCluster == k then tx.amount else 0)
  }

  /** The same over the ids 1 .. n of a set. */
  function NetOf(co: Coord, ids: set<int>, k: int, n: nat): int {
    if n == 0 then 0
    else NetOf(co, ids, k, n - 1) + (if n in ids && n in co.txs then TxNet(co.txs[n], k) else 0)
  }

  function CommitIds(log: seq<Entry>): set<int> {
    set i | 0 <= i < |log| && log[i].command.Commit? :: log[i].id
  }

  lemma {:induction false} NetOfInsert(co: Coord, ids: set<int>, id: int, k: int, n: nat)
    requires id !in ids && id in co.txs && 1 <= id
    ensures NetOf(co, ids + {id}, k, n) == NetOf(co, ids, k, n) + (if id <= n then TxNet(co.txs[id], k) else 0)
  {
    if n > 0 { NetOfInsert(co, ids, id, k, n - 1); }
  }

  /** The COMMIT entries of a log bring in what their transactions say. */
  lemma {:induction false} LogNet(co: Coord, k: int, log: seq<Entry>, clusters: nat)
    requires LogFromCoord(co, k, log) && TxsOk(co, clusters) && CoordInv(co) && IdsOrdered(log)
    ensures CrossTotal(k, log) == NetOf(co, CommitIds(log), k, co.lastId)
  {
    if log == [] {
      assert CommitIds(log) == {};
      NetOfEmpty(co, k, co.lastId);
    } else {
      var n := |log| - 1;
      var e := log[n];
      PrefixOrdered(log, n);
      LogNet(co, k, log[..n], clusters);
      assert EntryOk(co, k, e);
      if e.command.Commit? {
        assert CommitIds(log) == CommitIds(log[..n]) + {e.id};
        assert e.id !in CommitIds(log[..n]) by {
          if e.id in CommitIds(log[..n]) {
            var i :| 0 <= i < n && log[..n][i].command.Commit? && log[..n][i].id == e.id;
            assert Excludes(log[i].command, log[n].command);
          }
        }
        assert IdOk(co, e.id);
        NetOfInsert(co, CommitIds(log[..n]), e.id, k, co.lastId);
        EntryNet(co.txs[e.id], k, clusters);
      } else {
        assert CommitIds(log) == CommitIds(log[..n]);
      }
    }
  }

  lemma PrefixOrdered(log: seq<Entry>, n: nat)
    requires IdsOrdered(log) && n <= |log|
    ensures IdsOrdered(log[..n])
  {
  }

  lemma EntryNet(tx: Tx, k: int, clusters: nat)
    requires TxOk(tx, clusters)
    ensures CrossNet(k, Commit(tx.sender, tx.receiver, tx.amount)) == TxNet(tx, k)
  {
  }

  lemma {:induction false} NetOfEmpty(co: Coord, k: int, n: nat)
    ensures NetOf(co, {}, k, n) == 0
  {
    if n > 0 { NetOfEmpty(co, k, n - 1); }
  }

  /** What the clusters' logs bring in together; logged[k] are the ids whose
      COMMIT is in the log of cluster k's leader. */
  function NetOverClusters(co: Coord, logged: seq<set<int>>, n: nat, clusters: nat): int
    requires clusters <= |logged|
  {
    if clusters == 0 then 0
    else NetOverClusters(co, logged, n, clusters - 1) + NetOf(co, logged[clusters - 1], clusters - 1, n)
  }

  /** What one transaction brings to the clusters that logged its COMMIT. */
  function TxOverClusters(tx: Tx, id: int, logged: seq<set<int>>, clusters: nat): int
    requires clusters <= |logged|
  {
    if clusters == 0 then 0
    else
      TxOverClusters(tx, id, logged, clusters - 1)
      + (if id in logged[clusters - 1] then TxNet(tx, clusters - 1) else 0)
  }

  predicate LoggedAt(logged: seq<set<int>>, k: int, id: int) { 0 <= k < |logged| && id in logged[k] }

  /** The money of a transaction that is under way: debited and not credited, or
      the other way round. */
  function Gap(tx: Tx, id: int, logged: seq<set<int>>): int {
    (if LoggedAt(logged, tx.receiverCluster, id) then tx.amount else 0)
    - (if LoggedAt(logged, tx.senderCluster, id) then tx.amount else 0)
  }

  /** The same over the transactions 1 .. n. */
  function Gaps(co: Coord, logged: seq<set<int>>, n: nat): int {
    if n == 0 then 0 else Gaps(co, logged, n - 1) + (if n in co.txs then Gap(co.txs[n], n, logged) else 0)
  }

  lemma {:induction false} TxIsGap(tx: Tx, id: int, logged: seq<set<int>>, clusters: nat)
    requires clusters <= |logged|
    ensures TxOverClusters(tx, id, logged, clusters) ==
            (if tx.receiverCluster < clusters && LoggedAt(logged, tx.receiverCluster, id) then tx.amount else 0)
            - (if tx.senderCluster < clusters && LoggedAt(logged, tx.senderCluster, id) then tx.amount else 0)
  {
    if clusters > 0 { TxIsGap(tx, id, logged, clusters - 1); }
  }

  lemma {:induction false} NetSplits(co: Coord, logged: seq<set<int>>, n: nat, clusters: nat)
    requires n > 0 && clusters <= |logged|
    ensures NetOverClusters(co, logged, n, clusters) ==
            NetOverClusters(co, logged, n - 1, clusters)
            + (if n in co.txs then TxOverClusters(co.txs[n], n, logged, clusters) else 0)
  {
    if clusters > 0 { NetSplits(co, logged, n, clusters - 1); }
  }

  lemma {:induction false} NetIsGaps(co: Coord, logged: seq<set<int>>, n: nat)
    ensures NetOverClusters(co, logged, n, |logged|) == Gaps(co, logged, n)
  {
    if n == 0 {
      NothingYet(co, logged, |logged|);
    } else {
      NetSplits(co, logged, n, |logged|);
      NetIsGaps(co, logged, n - 1);
      if n in co.txs { TxIsGap(co.txs[n], n, logged, |logged|); }
    }
  }

  lemma {:induction false} NothingYet(co: Coord, logged: seq<set<int>>, clusters: nat)
    requires clusters <= |logged|
    ensures NetOverClusters(co, logged, 0, clusters) == 0
  {
    if clusters > 0 { NothingYet(co, logged, clusters - 1); }
  }

  /** The money of the first n clusters, as their leaders see it. */
  function BankTotal(b: Bank, u: Setup, n: nat): int
    requires n <= |b.clusters| == |u.reigns|
  {
    if n == 0 then 0 else BankTotal(b, u, n - 1) + Total(LeaderOf(b, u, n - 1).bal, n - 1)
  }

  function InitialTotal(u: Setup, n: nat): int
    requires n <= |u.inits|
  {
    if n == 0 then 0 else InitialTotal(u, n - 1) + Total(u.inits[n - 1], n - 1)
  }

  /** The ids whose COMMIT each cluster's leader has logged. */
  function Logged(b: Bank, u: Setup): (r: seq<set<int>>)
    requires |b.clusters| == |u.reigns|
    ensures |r| == |b.clusters|
  {
    seq(|b.clusters|, k requires 0 <= k < |b.clusters| => CommitIds(LeaderOf(b, u, k).log))
  }

  lemma ClusterTotal(b: Bank, u: Setup, k: nat)
    requires BankInv(b, u) && k < |b.clusters|
    ensures var l := LeaderOf(b, u, k);
            Total(l.bal, k) == Total(u.inits[k], k) + NetOf(b.coord, CommitIds(l.log), k, b.coord.lastId)
  {
    hide EpochInv, AnsweredOnce, RepliesTrue, LocksExact, PendingDisjoint, BalancesFollowLog, IdsOrdered, LocalLog,
         CoordInv, TxOk;
    var co, l := b.coord, LeaderOf(b, u, k);
    assert ClusterOk(u, co, k, b.clusters[k]);
    TotalFollowsLog(k, u.inits[k], l);
    LogNet(co, k, l.log, |b.clusters|);
  }

  lemma {:induction false} TotalsAdd(b: Bank, u: Setup, n: nat)
    requires BankInv(b, u) && n <= |b.clusters| == |u.reigns| == |u.inits|
    ensures BankTotal(b, u, n) == InitialTotal(u, n) + NetOverClusters(b.coord, Logged(b, u), b.coord.lastId, n)
  {
    hide BankInv, LeaderOf, CommitIds;
    if n > 0 {
      TotalsAdd(b, u, n - 1);
      ClusterTotal(b, u, n - 1);
    }
  }

  lemma BankShape(b: Bank, u: Setup)
    requires BankInv(b, u)
    ensures |b.clusters| == |u.reigns| == |u.inits|
  {
  }

  /** At every moment of every run of the bank, the money of all shards together
      is the initial amount, less what left a sender's shard and has not arrived,
      plus what arrived before it left. */
  lemma MoneyAccounted(states: seq<Bank>, steps: seq<BankStep>, u: Setup, j: nat)
    requires IsBankRun(states, steps, u) && j < |states|
    ensures var b := states[j];
            && |b.clusters| == |u.reigns| == |u.inits|
            && BankTotal(b, u, |b.clusters|) ==
                 InitialTotal(u, |b.clusters|) + Gaps(b.coord, Logged(b, u), b.coord.lastId)
  {
    hide BankInv, IsBankRun;
    BankRun(states, steps, u, j, j);
    var b := states[j];
    BankShape(b, u);
    TotalsAdd(b, u, |b.clusters|);
    NetIsGaps(b.coord, Logged(b, u), b.coord.lastId);
  }

  /** For every transaction both leaders have logged its COMMIT, or neither. */
  predicate SameCommits(b: Bank, u: Setup)
    requires |b.clusters| == |u.reigns|
  {
    forall id :: id in b.coord.txs ==>
      (LoggedAt(Logged(b, u), b.coord.txs[id].senderCluster, id)
       <==> LoggedAt(Logged(b, u), b.coord.txs[id].receiverCluster, id))
  }

  lemma {:induction false} NoGaps(co: Coord, logged: seq<set<int>>, n: nat)
    requires forall id :: id in co.txs ==>
               (LoggedAt(logged, co.txs[id].senderCluster, id) <==> LoggedAt(logged, co.txs[id].receiverCluster, id))
    ensures Gaps(co, logged, n) == 0
  {
    if n > 0 { NoGaps(co, logged, n - 1); }
  }

  /** Whenever both leaders of each transaction have logged the same COMMITs, the
      money of all shards together is the initial amount. */
  lemma MoneyConserved(states: seq<Bank>, steps: seq<BankStep>, u: Setup, j: nat)
    requires IsBankRun(states, steps, u) && j < |states| && |states[j].clusters| == |u.reigns|
    requires SameCommits(states[j], u)
    ensures |u.inits| == |u.reigns| && BankTotal(states[j], u, |u.reigns|) == InitialTotal(u, |u.inits|)
  {
    hide BankInv, IsBankRun;
    MoneyAccounted(states, steps, u, j);
    NoGaps(states[j].coord, Logged(states[j], u), states[j].coord.lastId);
  }
}
