/** Exactly which requests a server takes, what it logs and what it answers: told
    by the pending entries, the balances that follow from the log, and the ids in
    it. */
module Admission {
  import opened Types
  import opened Handlers
  import opened Requests
  import opened Leader

  /** No entry that is yet to be Raft-committed needs the account. */
  ghost predicate Free(cluster: int, sv: Server, a: int) {
    forall i :: Pending(sv, i) ==> !Touches(cluster, sv.log[i].command, a)
  }

  /** The server with one more entry and its connection. */
  function With(sv: Server, term: int, command: Command, id: int, fd: int): Server {
    sv.(log := sv.log + [Entry(term, |sv.log|, command, id)], fds := sv.fds + [fd])
  }

  lemma LockedOrFree(cluster: int, init: map<int, int>, sv: Server, a: int)
    requires LeaderInv(cluster, init, sv) && Local(cluster, a)
    ensures Held(sv.lock, a) <==> !Free(cluster, sv, a)
    ensures sv.commit < |sv.log| && Get(sv.bal, a) == BalanceOf(cluster, init, sv.log, sv.commit + 1, a)
  {
    hide BalanceOf, PendingDisjoint, IdsOrdered;
  }

  /** An intra-shard transfer is logged exactly when both accounts are free, the
      sender's balance covers it, and its id is new; otherwise it fails. */
  lemma IntraExactly(cluster: int, init: map<int, int>, sv: Server, req: Request, fd: int)
    requires req.IntraReq? && WellFormed(req) && req.cluster == cluster && LeaderInv(cluster, init, sv)
    ensures var o := OnClient(sv, cluster, req, fd);
            var takes := && Free(cluster, sv, req.sender) && Free(cluster, sv, req.receiver)
                         && req.amount <= BalanceOf(cluster, init, sv.log, sv.commit + 1, req.sender)
                         && (forall i :: 0 <= i < |sv.log| ==> sv.log[i].id != req.id);
            && (!takes ==> o == Outcome(sv, {}, [Reply(fd, req.id, Fail)]))
            && (takes ==>
                  && o.msgs == {} && o.replies == []
                  && o.server == With(sv, sv.term, Intra(req.sender, req.receiver, req.amount), req.id, fd)
                                   .(lock := o.server.lock)
                  && forall a :: Held(o.server.lock, a) <==> Held(sv.lock, a) || a == req.sender || a == req.receiver)
  {
    LockedOrFree(cluster, init, sv, req.sender);
    LockedOrFree(cluster, init, sv, req.receiver);
    hide Free, LeaderInv, BalanceOf, Get;
  }

  /** A PREPARE is logged exactly when its accounts of this shard are free, a
      sender of this shard can pay, and its id was neither prepared nor aborted;
      otherwise the answer is NO.  The receiver's balance does not matter. */
  lemma PrepareExactly(cluster: int, init: map<int, int>, sv: Server, req: Request, fd: int)
    requires req.CrossReq? && req.phase.PreparePhase? && WellFormed(req) && Concerns(req, cluster)
    requires LeaderInv(cluster, init, sv)
    ensures var o := OnClient(sv, cluster, req, fd);
            var pays, gets := req.senderCluster == cluster, req.receiverCluster == cluster;
            var takes := && (pays ==> Free(cluster, sv, req.sender)) && (gets ==> Free(cluster, sv, req.receiver))
                         && (pays ==> req.amount <= BalanceOf(cluster, init, sv.log, sv.commit + 1, req.sender))
                         && (forall i :: 0 <= i < |sv.log| && sv.log[i].id == req.id ==>
                               !sv.log[i].command.Prepare? && !sv.log[i].command.Abort?);
            && (!takes ==> o == Outcome(sv, {}, [Reply(fd, req.id, No)]))
            && (takes ==>
                  && o.msgs == {} && o.replies == []
                  && o.server == With(sv, sv.term, Prepare(req.sender, req.receiver, req.amount), req.id, fd)
                                   .(lock := o.server.lock)
                  && forall a :: Held(o.server.lock, a) <==>
                       Held(sv.lock, a) || (pays && a == req.sender) || (gets && a == req.receiver))
  {
    if req.senderCluster == cluster { LockedOrFree(cluster, init, sv, req.sender); }
    if req.receiverCluster == cluster { LockedOrFree(cluster, init, sv, req.receiver); }
    hide Free, LeaderInv, BalanceOf, Get;
  }

  /** A COMMIT is acknowledged by any server.  It is logged exactly when the log
      has none of its id, and then moves each account of the shard by it; nobody
      waits for it. */
  lemma CommitExactly(cluster: int, sv: Server, req: Request, fd: int)
    requires req.CrossReq? && req.phase.CommitPhase? && WellFormed(req) && Concerns(req, cluster)
    ensures var o := OnClient(sv, cluster, req, fd); var c := Commit(req.sender, req.receiver, req.amount);
            var isNew := forall i :: 0 <= i < |sv.log| && sv.log[i].id == req.id ==> !sv.log[i].command.Commit?;
            && o.msgs == {} && o.replies == [Reply(fd, req.id, Ack)]
            && (!isNew ==> o.server == sv)
            && (isNew ==>
                  && o.server == With(sv, if sv.role.Leader? then sv.term else -1, c, req.id, -1).(bal := o.server.bal)
                  && forall a :: Get(o.server.bal, a) == Get(sv.bal, a) + CrossDelta(cluster, c, a))
  {
  }

  /** An ABORT is acknowledged too, and logged exactly when the log has none of
      its id; it moves no money and frees no account. */
  lemma AbortExactly(cluster: int, sv: Server, req: Request, fd: int)
    requires req.CrossReq? && req.phase.AbortPhase? && Concerns(req, cluster)
    ensures var o := OnClient(sv, cluster, req, fd); var c := Abort(req.sender, req.receiver, req.amount);
            var isNew := forall i :: 0 <= i < |sv.log| && sv.log[i].id == req.id ==> !sv.log[i].command.Abort?;
            && o.msgs == {} && o.replies == [Reply(fd, req.id, Ack)]
            && o.server == if isNew then With(sv, if sv.role.Leader? then sv.term else -1, c, req.id, -1) else sv
  {
  }

  /** Requests of other clusters leave no trace. */
  lemma ForeignDropped(cluster: int, sv: Server, req: Request, fd: int)
    requires !Concerns(req, cluster)
    ensures OnClient(sv, cluster, req, fd) == Outcome(sv, {}, [])
  {
  }
}
