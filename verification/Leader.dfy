/** What a stable leader keeps while it admits requests and Raft-commits its
    log: locks are exactly the accounts of pending entries, balances are a
    function of the log, no id is used twice in a phase, and every waiting
    client is answered at most once. */
module Leader {
  import opened Types
  import opened Handlers
  import opened Money
  import opened Requests

  // ---- Reference definitions ----------------------------------------------

  /** Entry i is logged and not yet Raft-committed. */
  predicate Pending(sv: Server, i: int) { sv.commit < i < |sv.log| }

  /** The command needs the given account of this shard for itself. */
  predicate Touches(cluster: int, c: Command, a: int) {
    c.Holds() && Local(cluster, a) && (a == c.sender || a == c.receiver)
  }

  function IntraDelta(c: Command, a: int): int {
    if c.Intra? then (if a == c.receiver then c.amount else 0) - (if a == c.sender then c.amount else 0) else 0
  }

  function CrossDelta(cluster: int, c: Command, a: int): int {
    if c.Commit? && Local(cluster, a) then
      (if a == c.receiver then c.amount else 0) - (if a == c.sender then c.amount else 0)
    else 0
  }

  function IntraSum(entries: seq<Entry>, a: int): int {
    if entries == [] then 0
    else IntraSum(entries[..|entries| - 1], a) + IntraDelta(entries[|entries| - 1].command, a)
  }

  function CrossSum(cluster: int, entries: seq<Entry>, a: int): int {
    if entries == [] then 0
    else CrossSum(cluster, entries[..|entries| - 1], a) + CrossDelta(cluster, entries[|entries| - 1].command, a)
  }

  lemma {:induction false} FoldIsSum(t: map<int, int>, entries: seq<Entry>, a: int)
    ensures Get(Fold(t, entries), a) == Get(t, a) + IntraSum(entries, a)
  {
    if entries != [] { FoldIsSum(t, entries[..|entries| - 1], a); }
  }

  lemma {:induction false} IntraSumConcat(x: seq<Entry>, y: seq<Entry>, a: int)
    ensures IntraSum(x + y, a) == IntraSum(x, a) + IntraSum(y, a)
  {
    if y == [] {
      assert x + y == x;
    } else {
      assert (x + y)[..|x + y| - 1] == x + y[..|y| - 1];
      IntraSumConcat(x, y[..|y| - 1], a);
    }
  }

  /** Only entry k of the sequence concerns account a. */
  lemma {:induction false} IntraSumSingle(entries: seq<Entry>, a: int, k: int)
    requires forall j :: 0 <= j < |entries| && j != k ==> IntraDelta(entries[j].command, a) == 0
    ensures IntraSum(entries, a) == if 0 <= k < |entries| then IntraDelta(entries[k].command, a) else 0
  {
    if entries != [] {
      var n := |entries| - 1;
      IntraSumSingle(entries[..n], a, k);
    }
  }

  lemma {:induction false} ReleaseHeld(l: map<int, bool>, entries: seq<Entry>, a: int)
    ensures Held(Release(l, entries), a) <==>
            Held(l, a) && forall i :: 0 <= i < |entries| && entries[i].command.Holds() ==>
                             a != entries[i].command.sender && a != entries[i].command.receiver
  {
    if entries != [] {
      var n := |entries| - 1;
      ReleaseHeld(l, entries[..n], a);
      assert entries[n] in entries;
    }
  }

  // ---- The invariant ------------------------------------------------------

  /** An account is locked exactly when a pending entry touches it. */
  ghost predicate LocksExact(cluster: int, sv: Server) {
    forall a :: Local(cluster, a) ==>
      (Held(sv.lock, a) <==> exists i :: Pending(sv, i) && Touches(cluster, sv.log[i].command, a))
  }

  /** No two pending entries touch the same account. */
  ghost predicate PendingDisjoint(cluster: int, sv: Server) {
    forall i, j, a ::
      (&& Pending(sv, i) && Touches(cluster, sv.log[i].command, a)
       && Pending(sv, j) && Touches(cluster, sv.log[j].command, a)) ==> i == j
  }

  function BalanceOf(cluster: int, init: map<int, int>, log: seq<Entry>, committed: nat, a: int): int
    requires committed <= |log|
  {
    Get(init, a) + IntraSum(log[..committed], a) + CrossSum(cluster, log, a)
  }

  ghost predicate BalancesFollowLog(cluster: int, init: map<int, int>, sv: Server) {
    sv.commit < |sv.log| && forall a :: Get(sv.bal, a) == BalanceOf(cluster, init, sv.log, sv.commit + 1, a)
  }

  /** What an entry rules out for the later entries of the same id. */
  predicate Excludes(c: Command, d: Command) {
    || d.Intra?
    || (d.Prepare? && (c.Prepare? || c.Abort?))
    || (d.Commit? && c.Commit?)
    || (d.Abort? && c.Abort?)
  }

  /** Per id at most one entry of each phase, no PREPARE after an ABORT, and no
      intra-shard entry with a used id. */
  ghost predicate IdsOrdered(log: seq<Entry>) {
    forall i, j :: 0 <= i < j < |log| && Excludes(log[i].command, log[j].command) ==> log[i].id != log[j].id
  }

  ghost predicate LeaderInv(cluster: int, init: map<int, int>, sv: Server) {
    && LocksExact(cluster, sv)
    && PendingDisjoint(cluster, sv)
    && BalancesFollowLog(cluster, init, sv)
    && IdsOrdered(sv.log)
    && LocalLog(cluster, sv.log)
  }

  // ---- Admission ----------------------------------------------------------

  lemma AppendLocks(cluster: int, sv: Server, sv': Server, e: Entry)
    requires LocksExact(cluster, sv) && PendingDisjoint(cluster, sv) && sv.commit < |sv.log|
    requires sv'.log == sv.log + [e] && sv'.commit == sv.commit
    requires forall a :: Local(cluster, a) ==>
               (Held(sv'.lock, a) <==> Held(sv.lock, a) || Touches(cluster, e.command, a))
    requires forall a :: Touches(cluster, e.command, a) ==> !Held(sv.lock, a)
    ensures LocksExact(cluster, sv') && PendingDisjoint(cluster, sv')
  {
    var n := |sv.log|;
    assert forall i :: Pending(sv', i) <==> Pending(sv, i) || i == n;
    forall a | Local(cluster, a)
      ensures Held(sv'.lock, a) <==> exists i :: Pending(sv', i) && Touches(cluster, sv'.log[i].command, a)
    {
      if Held(sv.lock, a) {
        var i :| Pending(sv, i) && Touches(cluster, sv.log[i].command, a);
        assert Pending(sv', i) && Touches(cluster, sv'.log[i].command, a);
      } else if Touches(cluster, e.command, a) {
        assert Pending(sv', n) && Touches(cluster, sv'.log[n].command, a);
      } else {
        forall i | Pending(sv', i) ensures !Touches(cluster, sv'.log[i].command, a) {
          assert Pending(sv, i) ==> sv'.log[i] == sv.log[i];
        }
      }
    }
    forall i, j, a | Pending(sv', i) && Pending(sv', j) && Touches(cluster, sv'.log[i].command, a)
                     && Touches(cluster, sv'.log[j].command, a)
      ensures i == j
    {
      assert Pending(sv, i) ==> sv'.log[i] == sv.log[i];
      assert Pending(sv, j) ==> sv'.log[j] == sv.log[j];
    }
  }

  lemma AppendBalances(cluster: int, init: map<int, int>, sv: Server, sv': Server, e: Entry)
    requires BalancesFollowLog(cluster, init, sv)
    requires sv'.log == sv.log + [e] && sv'.commit == sv.commit
    requires forall a :: Get(sv'.bal, a) == Get(sv.bal, a) + CrossDelta(cluster, e.command, a)
    ensures BalancesFollowLog(cluster, init, sv')
  {
    forall a ensures Get(sv'.bal, a) == BalanceOf(cluster, init, sv'.log, sv'.commit + 1, a) {
      assert sv'.log[..sv'.commit + 1] == sv.log[..sv.commit + 1];
      assert sv'.log[..|sv'.log| - 1] == sv.log;
    }
  }

  /** An admitted request: its entry clashes with nothing that is locked or logged. */
  ghost predicate Admitted(cluster: int, sv: Server, sv': Server, e: Entry) {
    && sv'.log == sv.log + [e] && sv'.commit == sv.commit && LocalEntry(cluster, e)
    && (forall a :: Local(cluster, a) ==> (Held(sv'.lock, a) <==> Held(sv.lock, a) || Touches(cluster, e.command, a)))
    && (forall a :: Touches(cluster, e.command, a) ==> !Held(sv.lock, a))
    && (forall a :: Get(sv'.bal, a) == Get(sv.bal, a) + CrossDelta(cluster, e.command, a))
    && (forall i :: 0 <= i < |sv.log| && Excludes(sv.log[i].command, e.command) ==> sv.log[i].id != e.id)
  }

  lemma AdmittedKeeps(cluster: int, init: map<int, int>, sv: Server, sv': Server, e: Entry)
    requires LeaderInv(cluster, init, sv) && Admitted(cluster, sv, sv', e)
    ensures LeaderInv(cluster, init, sv')
  {
    AppendLocks(cluster, sv, sv', e);
    AppendBalances(cluster, init, sv, sv', e);
    hide LocksExact, PendingDisjoint, BalancesFollowLog;
  }

  lemma IntraKeeps(cluster: int, init: map<int, int>, sv: Server, req: Request, fd: int)
    requires req.IntraReq? && WellFormed(req) && req.cluster == cluster && LeaderInv(cluster, init, sv)
    ensures LeaderInv(cluster, init, OnIntra(sv, req, fd).server)
  {
    hide LeaderInv;
    var sv' := OnIntra(sv, req, fd).server;
    if sv' != sv { AdmittedKeeps(cluster, init, sv, sv', EntryFor(sv, req)); }
  }

  lemma PrepareKeeps(cluster: int, init: map<int, int>, sv: Server, req: Request, fd: int)
    requires req.CrossReq? && req.phase.PreparePhase? && WellFormed(req) && LeaderInv(cluster, init, sv)
    ensures LeaderInv(cluster, init, OnPrepare(sv, cluster, req, fd).server)
    ensures forall a :: !Local(cluster, a) ==> Held(OnPrepare(sv, cluster, req, fd).server.lock, a) == Held(sv.lock, a)
  {
    hide LeaderInv;
    if !Refuses(sv, cluster, req) {
      AdmittedKeeps(cluster, init, sv, OnPrepare(sv, cluster, req, fd).server, EntryFor(sv, req));
    }
  }

  lemma CommitKeeps(cluster: int, init: map<int, int>, sv: Server, req: Request, fd: int)
    requires req.CrossReq? && req.phase.CommitPhase? && WellFormed(req) && LeaderInv(cluster, init, sv)
    ensures LeaderInv(cluster, init, OnCommit(sv, cluster, req, fd).server)
  {
    hide LeaderInv;
    if !HasCommit(sv.log, req.id) {
      AdmittedKeeps(cluster, init, sv, OnCommit(sv, cluster, req, fd).server, EntryFor(sv, req));
    }
  }

  lemma AbortKeeps(cluster: int, init: map<int, int>, sv: Server, req: Request, fd: int)
    requires req.CrossReq? && req.phase.AbortPhase? && WellFormed(req) && LeaderInv(cluster, init, sv)
    ensures LeaderInv(cluster, init, OnAbort(sv, req, fd).server)
  {
    hide LeaderInv;
    if !HasAbort(sv.log, req.id) {
      AdmittedKeeps(cluster, init, sv, OnAbort(sv, req, fd).server, EntryFor(sv, req));
    }
  }

  lemma ClientKeeps(cluster: int, init: map<int, int>, sv: Server, req: Request, fd: int)
    requires WellFormed(req) && LeaderInv(cluster, init, sv)
    ensures LeaderInv(cluster, init, OnClient(sv, cluster, req, fd).server)
  {
    match req
    case IntraReq(c, _, _, _, _) =>
      if c == cluster { IntraKeeps(cluster, init, sv, req, fd); }
    case CrossReq(phase, _, _, _, _, _, _) =>
      match phase
      case PreparePhase => PrepareKeeps(cluster, init, sv, req, fd);
      case CommitPhase => CommitKeeps(cluster, init, sv, req, fd);
      case AbortPhase => AbortKeeps(cluster, init, sv, req, fd);
  }

  /** A request moves money only as the entry that it logs, if that is a COMMIT. */
  lemma ClientBalances(cluster: int, sv: Server, req: Request, fd: int)
    requires WellFormed(req)
    ensures var sv' := OnClient(sv, cluster, req, fd).server;
            forall a :: Get(sv'.bal, a) ==
              Get(sv.bal, a) + (if sv'.log == sv.log then 0 else CrossDelta(cluster, CommandFor(req), a))
  {
    hide Refuses, HasId, HasAbort, OnCommit, Get;
    if req.CrossReq? && req.phase.CommitPhase? { CommitBalances(cluster, sv, req, fd); }
  }

  lemma CommitBalances(cluster: int, sv: Server, req: Request, fd: int)
    requires WellFormed(req) && req.CrossReq? && req.phase.CommitPhase?
    ensures var sv' := OnCommit(sv, cluster, req, fd).server;
            forall a :: Get(sv'.bal, a) ==
              Get(sv.bal, a) + (if sv'.log == sv.log then 0 else CrossDelta(cluster, CommandFor(req), a))
  {
    hide HasCommit;
  }

  // ---- Raft-committing ----------------------------------------------------

  lemma CommitComingLocks(cluster: int, sv: Server)
    requires LocksExact(cluster, sv) && PendingDisjoint(cluster, sv)
    requires sv.commit <= sv.coming < |sv.log|
    ensures var sv' := CommitComing(sv).server; LocksExact(cluster, sv') && PendingDisjoint(cluster, sv')
  {
    var sv' := CommitComing(sv).server;
    var batch := sv.log[sv.commit + 1..sv.coming + 1];
    forall a | Local(cluster, a)
      ensures Held(sv'.lock, a) <==> exists i :: Pending(sv', i) && Touches(cluster, sv'.log[i].command, a)
    {
      ReleaseHeld(sv.lock, batch, a);
      if i :| Pending(sv, i) && Touches(cluster, sv.log[i].command, a) {
        if i <= sv.coming {
          assert batch[i - (sv.commit + 1)] == sv.log[i];
        } else {
          assert Pending(sv', i) && Touches(cluster, sv'.log[i].command, a);
          forall j | 0 <= j < |batch| ensures !Touches(cluster, batch[j].command, a) {
            assert Pending(sv, sv.commit + 1 + j);
          }
        }
      }
      assert forall i :: Pending(sv', i) ==> Pending(sv, i);
    }
  }

  lemma CommittedBalance(cluster: int, init: map<int, int>, t: map<int, int>, log: seq<Entry>, lo: nat, hi: nat, a: int)
    requires lo <= hi <= |log| && Get(t, a) == BalanceOf(cluster, init, log, lo, a)
    ensures Get(Fold(t, log[lo..hi]), a) == BalanceOf(cluster, init, log, hi, a)
  {
    hide Fold, IntraSum, CrossSum;
    FoldIsSum(t, log[lo..hi], a);
    IntraSumConcat(log[..lo], log[lo..hi], a);
    assert log[..hi] == log[..lo] + log[lo..hi];
  }

  lemma CommitComingBalances(cluster: int, init: map<int, int>, sv: Server)
    requires BalancesFollowLog(cluster, init, sv) && sv.commit <= sv.coming < |sv.log|
    ensures BalancesFollowLog(cluster, init, CommitComing(sv).server)
  {
    hide Fold, Release, Answers, Cleared, BalanceOf;
    var sv' := CommitComing(sv).server;
    forall a ensures Get(sv'.bal, a) == BalanceOf(cluster, init, sv'.log, sv'.commit + 1, a) {
      CommittedBalance(cluster, init, sv.bal, sv.log, sv.commit + 1, sv.coming + 1, a);
    }
  }

  /** The invariant reads only the log, the commit index and the two tables. */
  lemma SameView(cluster: int, init: map<int, int>, sv: Server, sv': Server)
    requires LeaderInv(cluster, init, sv)
    requires sv'.log == sv.log && sv'.commit == sv.commit && sv'.bal == sv.bal && sv'.lock == sv.lock
    ensures LeaderInv(cluster, init, sv')
  {
    assert forall i :: Pending(sv', i) <==> Pending(sv, i);
  }

  lemma CommitComingKeeps(cluster: int, init: map<int, int>, sv: Server)
    requires LeaderInv(cluster, init, sv) && sv.commit <= sv.coming < |sv.log|
    ensures LeaderInv(cluster, init, CommitComing(sv).server)
  {
    CommitComingLocks(cluster, sv);
    CommitComingBalances(cluster, init, sv);
  }

  lemma AppendRspKeeps(cluster: int, init: map<int, int>, sv: Server, m: Msg)
    requires m.AppendRsp? && LeaderInv(cluster, init, sv) && sv.commit <= sv.coming < |sv.log|
    ensures LeaderInv(cluster, init, OnAppendRsp(sv, m).server)
  {
    var sv' := OnAppendRsp(sv, m).server;
    var sv1 := sv.(granted := sv.granted + 1);
    if sv.role.Leader? && m.term == sv.term && m.success && MayCommit(sv1) {
      SameView(cluster, init, sv, sv1);
      CommitComingKeeps(cluster, init, sv1);
      SameView(cluster, init, CommitComing(sv1).server, sv');
    } else {
      SameView(cluster, init, sv, sv');
    }
  }
}
