/** No overdraft at a stable leader: no balance falls below zero exactly as long
    as every COMMIT that debits the shard leaves the pending transfers covered. */
module Solvency {
  import opened Types
  import opened Handlers
  import opened Money
  import opened Leader
  import opened LogSafety
  import opened Requests

  ghost predicate NonNegative(cluster: int, t: map<int, int>) {
    forall a :: Local(cluster, a) ==> 0 <= Get(t, a)
  }

  /** A transfer that its sender can pay; one to the same account costs nothing. */
  predicate CanPay(t: map<int, int>, c: Command) {
    0 <= c.amount && (c.sender != c.receiver ==> c.amount <= Get(t, c.sender))
  }

  /** Every pending transfer is covered by its sender's balance. */
  ghost predicate Covered(sv: Server, t: map<int, int>, from: int) {
    forall i :: Pending(sv, i) && from <= i && sv.log[i].command.Intra? ==> CanPay(t, sv.log[i].command)
  }

  ghost predicate Solvent(cluster: int, sv: Server) {
    NonNegative(cluster, sv.bal) && Covered(sv, sv.bal, 0)
  }

  lemma DeltaTouches(cluster: int, e: Entry, a: int)
    requires LocalEntry(cluster, e) && IntraDelta(e.command, a) != 0
    ensures Touches(cluster, e.command, a)
  {
  }

  /** Committing the pending entries before k moves account a by the one of
      them that touches it, if any. */
  lemma BatchMoves(cluster: int, sv: Server, k: int, a: int)
    requires PendingDisjoint(cluster, sv) && LocalLog(cluster, sv.log)
    requires sv.commit < k <= |sv.log|
    ensures var t := Fold(sv.bal, sv.log[sv.commit + 1..k]);
            || (Get(t, a) == Get(sv.bal, a))
            || (exists i :: Pending(sv, i) && i < k && Touches(cluster, sv.log[i].command, a)
                 && Get(t, a) == Get(sv.bal, a) + IntraDelta(sv.log[i].command, a))
  {
    var lo := sv.commit + 1;
    var batch := sv.log[lo..k];
    FoldIsSum(sv.bal, batch, a);
    if j :| 0 <= j < |batch| && IntraDelta(batch[j].command, a) != 0 {
      DeltaTouches(cluster, sv.log[lo + j], a);
      assert Pending(sv, lo + j);
      forall q | 0 <= q < |batch| && q != j ensures IntraDelta(batch[q].command, a) == 0 {
        assert Pending(sv, lo + q) && batch[q] == sv.log[lo + q];
        if IntraDelta(batch[q].command, a) != 0 { DeltaTouches(cluster, sv.log[lo + q], a); }
      }
      IntraSumSingle(batch, a, j);
    } else {
      IntraSumSingle(batch, a, -1);
    }
  }

  /** At every moment of the commit loop: after the entries before k, no
      account is negative and what is left is still covered. */
  lemma BatchSolvent(cluster: int, sv: Server, k: int)
    requires PendingDisjoint(cluster, sv) && LocalLog(cluster, sv.log) && Solvent(cluster, sv)
    requires sv.commit < k <= |sv.log|
    ensures var t := Fold(sv.bal, sv.log[sv.commit + 1..k]);
            NonNegative(cluster, t) && Covered(sv, t, k)
  {
    var t := Fold(sv.bal, sv.log[sv.commit + 1..k]);
    forall a | Local(cluster, a) ensures 0 <= Get(t, a) {
      BatchMoves(cluster, sv, k, a);
    }
    forall i | Pending(sv, i) && k <= i && sv.log[i].command.Intra?
      ensures Get(t, sv.log[i].command.sender) == Get(sv.bal, sv.log[i].command.sender)
    {
      assert LocalEntry(cluster, sv.log[i]);
      BatchMoves(cluster, sv, k, sv.log[i].command.sender);
    }
  }

  lemma AppendRspSolvent(cluster: int, init: map<int, int>, sv: Server, m: Msg)
    requires m.AppendRsp? && LeaderInv(cluster, init, sv) && sv.commit <= sv.coming < |sv.log|
    requires Solvent(cluster, sv)
    ensures Solvent(cluster, OnAppendRsp(sv, m).server)
  {
    hide OnAppendRsp, PendingDisjoint, LocalLog, Fold;
    ResponseMoves(sv, m);
    BatchSolvent(cluster, sv, sv.coming + 1);
    CommitSolvent(cluster, sv, OnAppendRsp(sv, m).server);
  }

  lemma CommitSolvent(cluster: int, sv: Server, sv': Server)
    requires Solvent(cluster, sv) && sv'.log == sv.log && sv.commit <= sv'.commit < |sv.log|
    requires sv'.bal == sv.bal || (NonNegative(cluster, sv'.bal) && Covered(sv, sv'.bal, sv'.commit + 1))
    ensures Solvent(cluster, sv')
  {
    assert forall i :: Pending(sv', i) ==> Pending(sv, i);
  }

  /** A COMMIT takes money out of this shard. */
  predicate Debits(cluster: int, req: Request) {
    req.CrossReq? && req.phase.CommitPhase? && req.senderCluster == cluster
  }

  lemma AppendSolvent(cluster: int, sv: Server, sv': Server, e: Entry)
    requires Solvent(cluster, sv) && sv'.log == sv.log + [e] && sv'.commit == sv.commit
    requires forall a :: Get(sv.bal, a) <= Get(sv'.bal, a)
    requires e.command.Intra? ==> 0 <= e.command.amount <= Get(sv.bal, e.command.sender)
    ensures Solvent(cluster, sv')
  {
    forall i | Pending(sv', i) && sv'.log[i].command.Intra? ensures CanPay(sv'.bal, sv'.log[i].command) {
      if i < |sv.log| { assert Pending(sv, i) && CanPay(sv.bal, sv.log[i].command); }
    }
  }

  lemma CreditSolvent(cluster: int, sv: Server, req: Request, fd: int)
    requires WellFormed(req) && Solvent(cluster, sv) && !Debits(cluster, req)
    ensures Solvent(cluster, OnClient(sv, cluster, req, fd).server)
  {
    hide OnClient, Solvent;
    ClientGrows(sv, cluster, req, fd);
    ClientBalances(cluster, sv, req, fd);
    var sv' := OnClient(sv, cluster, req, fd).server;
    if sv' != sv {
      if req.IntraReq? { IntraAdmitted(cluster, sv, req, fd); }
      AppendSolvent(cluster, sv, sv', EntryFor(sv, req));
    }
  }

  lemma IntraAdmitted(cluster: int, sv: Server, req: Request, fd: int)
    requires req.IntraReq? && OnClient(sv, cluster, req, fd).server != sv
    ensures req.amount <= Get(sv.bal, req.sender)
  {
  }

  // ---- Debits -------------------------------------------------------------

  /** What the leader can look at before it executes a COMMIT: it did so before,
      or the COMMIT debits no local account, or pays an account to itself; or the
      sender has the money, also after the pending transfer to another account
      that it may have. */
  ghost predicate DebitCovered(cluster: int, sv: Server, req: Request)
    requires req.CrossReq?
  {
    || HasCommit(sv.log, req.id)
    || req.senderCluster != cluster
    || (req.receiverCluster == cluster && req.sender == req.receiver)
    || (req.amount <= Get(sv.bal, req.sender) && forall i :: PaysFrom(sv, i, req.sender) ==>
          req.amount + sv.log[i].command.amount <= Get(sv.bal, req.sender))
  }

  /** Entry i is a pending transfer from the account to another one. */
  predicate PaysFrom(sv: Server, i: int, a: int) {
    && Pending(sv, i) && sv.log[i].command.Intra?
    && sv.log[i].command.sender == a && sv.log[i].command.receiver != a
  }

  /** Nor is any balance negative after committing the pending entries before k. */
  ghost predicate SafeUpTo(cluster: int, sv: Server, k: int) {
    sv.commit < k <= |sv.log| ==> NonNegative(cluster, Fold(sv.bal, sv.log[sv.commit + 1..k]))
  }

  /** However far the pending entries are committed, no balance is negative. */
  ghost predicate SafeAhead(cluster: int, sv: Server) {
    sv.commit < |sv.log| && forall k :: SafeUpTo(cluster, sv, k)
  }

  lemma SolventSafe(cluster: int, init: map<int, int>, sv: Server)
    requires LeaderInv(cluster, init, sv) && Solvent(cluster, sv)
    ensures SafeAhead(cluster, sv)
  {
    hide Solvent, Fold, PendingDisjoint, LocalLog;
    forall k ensures SafeUpTo(cluster, sv, k) {
      if sv.commit < k <= |sv.log| { BatchSolvent(cluster, sv, k); }
    }
  }

  /** Committing up to a pending transfer debits its sender by it. */
  lemma BatchDebits(cluster: int, init: map<int, int>, sv: Server, i: int, a: int)
    requires LeaderInv(cluster, init, sv) && PaysFrom(sv, i, a)
    ensures Get(Fold(sv.bal, sv.log[sv.commit + 1..i + 1]), a) == Get(sv.bal, a) - sv.log[i].command.amount
  {
    hide LocksExact, BalancesFollowLog, IdsOrdered, Fold;
    var lo := sv.commit + 1;
    var batch := sv.log[lo..i + 1];
    FoldIsSum(sv.bal, batch, a);
    assert LocalEntry(cluster, sv.log[i]) && batch[i - lo] == sv.log[i];
    forall q | 0 <= q < |batch| && q != i - lo ensures IntraDelta(batch[q].command, a) == 0 {
      assert Pending(sv, lo + q) && batch[q] == sv.log[lo + q] && LocalEntry(cluster, sv.log[lo + q]);
      if IntraDelta(batch[q].command, a) != 0 { DeltaTouches(cluster, sv.log[lo + q], a); }
    }
    IntraSumSingle(batch, a, i - lo);
  }

  lemma CoveredDebitSolvent(cluster: int, sv: Server, req: Request, fd: int)
    requires req.CrossReq? && WellFormed(req) && Solvent(cluster, sv) && DebitCovered(cluster, sv, req)
    ensures Solvent(cluster, OnCommit(sv, cluster, req, fd).server)
  {
    hide HasCommit;
    var sv' := OnCommit(sv, cluster, req, fd).server;
    if sv'.log != sv.log {
      forall i | Pending(sv', i) && sv'.log[i].command.Intra? ensures CanPay(sv'.bal, sv'.log[i].command) {
        assert Pending(sv, i) && sv'.log[i] == sv.log[i] && CanPay(sv.bal, sv.log[i].command);
        assert PaysFrom(sv, i, req.sender) || sv.log[i].command.sender != req.sender
               || sv.log[i].command.sender == sv.log[i].command.receiver;
      }
    }
  }

  lemma DebitMoves(cluster: int, sv: Server, req: Request, fd: int)
    requires req.CrossReq? && WellFormed(req) && !DebitCovered(cluster, sv, req)
    ensures var l := OnCommit(sv, cluster, req, fd).server;
            && |l.log| == |sv.log| + 1 && sv.log <= l.log && l.commit == sv.commit
            && Get(l.bal, req.sender) == Get(sv.bal, req.sender) - req.amount && Local(cluster, req.sender)
  {
    hide HasCommit;
  }

  lemma NegativeNow(cluster: int, l: Server, a: int)
    requires l.commit < |l.log| && Local(cluster, a) && Get(l.bal, a) < 0
    ensures !SafeUpTo(cluster, l, l.commit + 1)
  {
    assert Fold(l.bal, l.log[l.commit + 1..l.commit + 1]) == l.bal;
  }

  lemma NegativeLater(cluster: int, init: map<int, int>, l: Server, i: int, a: int)
    requires LeaderInv(cluster, init, l) && Local(cluster, a) && PaysFrom(l, i, a)
    requires Get(l.bal, a) < l.log[i].command.amount
    ensures !SafeUpTo(cluster, l, i + 1)
  {
    hide LeaderInv, Fold, Get;
    BatchDebits(cluster, init, l, i, a);
  }

  lemma UncoveredDebitOverdraws(cluster: int, init: map<int, int>, sv: Server, req: Request, fd: int) returns (k: int)
    requires req.CrossReq? && req.phase.CommitPhase? && WellFormed(req) && LeaderInv(cluster, init, sv)
    requires !DebitCovered(cluster, sv, req)
    ensures !SafeUpTo(cluster, OnCommit(sv, cluster, req, fd).server, k)
  {
    assert sv.commit < |sv.log|;
    hide OnCommit, LeaderInv, HasCommit, Get, SafeUpTo;
    CommitKeeps(cluster, init, sv, req, fd);
    DebitMoves(cluster, sv, req, fd);
    var l, a := OnCommit(sv, cluster, req, fd).server, req.sender;
    if Get(sv.bal, a) < req.amount {
      k := l.commit + 1;
      NegativeNow(cluster, l, a);
    } else {
      var i :| PaysFrom(sv, i, a) && Get(sv.bal, a) < req.amount + sv.log[i].command.amount;
      k := i + 1;
      NegativeLater(cluster, init, l, i, a);
    }
  }

  /** Exactly when a COMMIT at a leader without overdraft leads to none, then or
      when the entries logged so far are committed up to any point. */
  lemma CommitOverdrawsExactly(cluster: int, init: map<int, int>, sv: Server, req: Request, fd: int)
    requires req.CrossReq? && req.phase.CommitPhase? && WellFormed(req)
    requires LeaderInv(cluster, init, sv) && Solvent(cluster, sv)
    ensures SafeAhead(cluster, OnCommit(sv, cluster, req, fd).server) <==> DebitCovered(cluster, sv, req)
    ensures DebitCovered(cluster, sv, req) ==> Solvent(cluster, OnCommit(sv, cluster, req, fd).server)
  {
    var l := OnCommit(sv, cluster, req, fd).server;
    CommitKeeps(cluster, init, sv, req, fd);
    hide OnCommit, Solvent, DebitCovered, LeaderInv;
    if DebitCovered(cluster, sv, req) {
      CoveredDebitSolvent(cluster, sv, req, fd);
      SolventSafe(cluster, init, l);
    } else {
      var k := UncoveredDebitOverdraws(cluster, init, sv, req, fd);
    }
  }

  /** Any request that is no debit, or a covered one. */
  lemma ClientSolvent(cluster: int, sv: Server, req: Request, fd: int)
    requires WellFormed(req) && Solvent(cluster, sv) && (Debits(cluster, req) ==> DebitCovered(cluster, sv, req))
    ensures Solvent(cluster, OnClient(sv, cluster, req, fd).server)
  {
    hide Solvent, DebitCovered, OnCommit;
    if Debits(cluster, req) {
      CoveredDebitSolvent(cluster, sv, req, fd);
    } else {
      CreditSolvent(cluster, sv, req, fd);
    }
  }

  lemma {:induction false} SumBounds(t: map<int, int>, lo: int, hi: int, a: int)
    requires forall b :: lo <= b < hi ==> 0 <= Get(t, b)
    ensures 0 <= Sum(t, lo, hi)
    ensures lo <= a < hi ==> Get(t, a) <= Sum(t, lo, hi)
    decreases hi - lo
  {
    if lo < hi { SumBounds(t, lo, hi - 1, a); }
  }

  /** During every commit of a solvent leader each local balance lies between
      zero and the shard total, which the commit does not change. */
  lemma BalanceBounds(cluster: int, init: map<int, int>, sv: Server, k: int, a: int)
    requires LeaderInv(cluster, init, sv) && Solvent(cluster, sv)
    requires sv.commit < k <= |sv.log| && Local(cluster, a)
    ensures 0 <= Get(Fold(sv.bal, sv.log[sv.commit + 1..k]), a) <= Total(sv.bal, cluster)
  {
    var batch := sv.log[sv.commit + 1..k];
    BatchSolvent(cluster, sv, k);
    SumBounds(Fold(sv.bal, batch), 1000 * cluster + 1, 1000 * cluster + 1001, a);
    FoldTotal(sv.bal, cluster, batch);
  }
}
