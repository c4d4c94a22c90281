/** How a reign comes out of an asynchronous run. */
module Bridge {
  import opened Types
  import opened Handlers
  import opened Cluster
  import opened Election
  import opened LogSafety
  import opened LogMatching
  import opened Requests
  import opened Leader
  import opened Replies
  import opened Solvency
  import opened Epoch
  import opened ReignRuns

  lemma LeaderView(h: History, seen: set<seq<Entry>>, lv: Server, fv: Server)
    requires SeenOk(h, seen) && LogOk(h, seen, lv) && LogOk(h, seen, fv) && lv.role.Leader?
    ensures Agree(fv.log, lv.log)
    ensures forall i :: 0 <= i < |fv.log| && fv.log[i].term == lv.term ==> i < |lv.log|
  {
    forall i | 0 <= i < |fv.log| && fv.log[i].term == lv.term ensures i < |lv.log| {
      assert AnchoredAt(fv.log, h.logs, i);
    }
  }

  /** Whoever is elected in an asynchronous run meets the log part of the reign
      invariant with every other server, whatever their logs went through, if the
      decisions that reached other servers than leaders fit; and if there were
      none, also that its log holds no entry of term -1. */
  lemma ReignBegins(states: seq<Sys>, steps: seq<Step>, init: map<int, int>, k: nat, l: ServerId, f: ServerId)
    requires IsRun(states, steps, init) && Routed(states, steps) && DecisionsFit(states, steps) && k < |states|
    requires states[k].servers[l].role.Leader?
    ensures var lv, fv := states[k].servers[l], states[k].servers[f];
            && InRange(lv) && InRange(fv) && Agree(fv.log, lv.log)
            && (forall i :: 0 <= i < |fv.log| && fv.log[i].term == lv.term ==> i < |lv.log|)
            && (LeaderOnly(states, steps) ==> NoForeign(lv.log))
  {
    hide Routed, DecisionsFit, LeaderOnly, HistoryAt, InRange, Agree, NoForeign, SeenOk, LogOk;
    LogRun(states, steps, init, k);
    IndexSafety(states, steps, init, k);
    LeaderView(HistoryAt(states, steps, k), SeenLogs(states, k), states[k].servers[l], states[k].servers[f]);
    if LeaderOnly(states, steps) {
      NoForeignRun(states, steps, init, k);
      SeenHas(states, k, k, l);
    }
  }

  // ---- Locks of a new leader ----------------------------------------------

  lemma VoteKeepsLock(s: Sys, step: Step)
    requires Enabled(s, step) && (step.Timeout? || (step.Deliver? && (step.msg.VoteReq? || step.msg.VoteRsp?)))
    ensures Act(s, step).server.lock == s.servers[Actor(step)].lock
  {
    hide OnAppendReq, OnAppendRsp, OnClient, AppendReqTo, VoteReqTo;
  }

  /** Only leaders lock and unlock. */
  lemma OffLeaderKeepsLock(s: Sys, step: Step)
    requires Enabled(s, step) && !s.servers[Actor(step)].role.Leader? && (step.Client? ==> !ForLeader(step.req))
    ensures Act(s, step).server.lock == s.servers[Actor(step)].lock
  {
    hide OnTimeout, OnVoteReq, OnVoteRsp, Merge, MergeFds, Fold, Slice, HasCommit, HasAbort;
    if step.Timeout? || (step.Deliver? && (step.msg.VoteReq? || step.msg.VoteRsp?)) { VoteKeepsLock(s, step); }
  }

  lemma {:induction false} NeverLedNoLocks(states: seq<Sys>, steps: seq<Step>, init: map<int, int>, k: nat, l: ServerId)
    requires IsRun(states, steps, init) && Routed(states, steps) && k < |states|
    requires forall j :: 0 <= j < k ==> !states[j].servers[l].role.Leader?
    ensures states[k].servers[l].lock == map[]
  {
    if k > 0 {
      NeverLedNoLocks(states, steps, init, k - 1, l);
      hide Act, Enabled;
      if Actor(steps[k - 1]) == l { OffLeaderKeepsLock(states[k - 1], steps[k - 1]); }
    }
  }

  /** A server that leads for the first time has exact locks exactly when no entry
      it has yet to commit touches an account of the shard: it inherits pending
      entries without their locks. */
  lemma NewLeaderLocks(states: seq<Sys>, steps: seq<Step>, init: map<int, int>, k: nat, l: ServerId)
    requires IsRun(states, steps, init) && Routed(states, steps) && k < |states|
    requires forall j :: 0 <= j < k ==> !states[j].servers[l].role.Leader?
    ensures var sv, cluster := states[k].servers[l], states[k].cluster;
            LocksExact(cluster, sv) <==> forall i, a :: Pending(sv, i) ==> !Touches(cluster, sv.log[i].command, a)
  {
    NeverLedNoLocks(states, steps, init, k, l);
    hide IsRun, Routed;
    var sv, cluster := states[k].servers[l], states[k].cluster;
    assert forall a :: !Held(sv.lock, a);
  }

  // ---- The first reign ----------------------------------------------------

  function Start(cluster: int, init: map<int, int>): Sys {
    System(cluster, [Boot(init), Boot(init), Boot(init)], {}, [])
  }

  /** Server 0 as the winner of the first election. */
  function Elected(init: map<int, int>): Server {
    Boot(init).(term := 1, votedFor := 0, role := Leader, votes := 2, matched := [0, 0, 0])
  }

  function Voter(init: map<int, int>): Server { Boot(init).(term := 1, votedFor := 0, heard := true) }

  function Standing(init: map<int, int>): Server {
    Boot(init).(term := 1, votedFor := 0, role := Candidate, votes := 1)
  }

  lemma StandStep(init: map<int, int>, s: Sys)
    requires s.servers == [Boot(init), Boot(init), Boot(init)]
    ensures Enabled(s, Timeout(0))
    ensures var s' := Apply(s, Timeout(0));
            && s'.servers == [Standing(init), Boot(init), Boot(init)] && VoteReq(0, 1, 1, -1, -1) in s'.sent
            && s'.replies == s.replies && s'.cluster == s.cluster
  {
    assert s.replies + [] == s.replies;
  }

  lemma VoteStep(init: map<int, int>, s: Sys)
    requires s.servers == [Standing(init), Boot(init), Boot(init)] && VoteReq(0, 1, 1, -1, -1) in s.sent
    ensures Enabled(s, Deliver(VoteReq(0, 1, 1, -1, -1)))
    ensures var s' := Apply(s, Deliver(VoteReq(0, 1, 1, -1, -1)));
            && s'.servers == [Standing(init), Voter(init), Boot(init)] && VoteRsp(1, 0, 1, true) in s'.sent
            && s'.replies == s.replies && s'.cluster == s.cluster
  {
    assert s.replies + [] == s.replies;
  }

  lemma WinStep(init: map<int, int>, s: Sys)
    requires s.servers == [Standing(init), Voter(init), Boot(init)] && VoteRsp(1, 0, 1, true) in s.sent
    ensures Enabled(s, Deliver(VoteRsp(1, 0, 1, true)))
    ensures var s' := Apply(s, Deliver(VoteRsp(1, 0, 1, true)));
            && s'.servers == [Elected(init), Voter(init), Boot(init)]
            && AppendReq(0, 1, 1, -1, -1, [], -1) in s'.sent && AppendReq(0, 2, 1, -1, -1, [], -1) in s'.sent
            && s'.replies == s.replies && s'.cluster == s.cluster
  {
    assert s.replies + [] == s.replies;
    var l := CountVote(Standing(init), VoteRsp(1, 0, 1, true));
    assert l == Elected(init);
    assert Heartbeat(l, 0).server == Elected(init);
  }

  lemma ExtendRun(states: seq<Sys>, steps: seq<Step>, init: map<int, int>, step: Step)
    requires IsRun(states, steps, init) && Enabled(states[|steps|], step)
    ensures IsRun(states + [Apply(states[|steps|], step)], steps + [step], init)
  {
    hide Apply, Enabled, Init;
  }

  lemma FirstElection(cluster: int, init: map<int, int>) returns (states: seq<Sys>, steps: seq<Step>)
    ensures IsRun(states, steps, init) && |states| == 4 && |steps| == 3 && states[0] == Start(cluster, init)
    ensures forall k :: 0 <= k < |steps| ==> !steps[k].Client?
    ensures states[3].servers == [Elected(init), Voter(init), Boot(init)]
    ensures states[3].replies == [] && states[3].cluster == cluster
    ensures AppendReq(0, 1, 1, -1, -1, [], -1) in states[3].sent && AppendReq(0, 2, 1, -1, -1, [], -1) in states[3].sent
  {
    hide Apply, Enabled;
    var s0 := Start(cluster, init);
    states, steps := [s0], [];
    StandStep(init, s0);
    ExtendRun(states, steps, init, Timeout(0));
    var s1 := Apply(s0, Timeout(0));
    states, steps := [s0, s1], [Timeout(0)];
    VoteStep(init, s1);
    ExtendRun(states, steps, init, Deliver(VoteReq(0, 1, 1, -1, -1)));
    var s2 := Apply(s1, Deliver(VoteReq(0, 1, 1, -1, -1)));
    states, steps := states + [s2], steps + [Deliver(VoteReq(0, 1, 1, -1, -1))];
    WinStep(init, s2);
    ExtendRun(states, steps, init, Deliver(VoteRsp(1, 0, 1, true)));
    var s3 := Apply(s2, Deliver(VoteRsp(1, 0, 1, true)));
    states, steps := states + [s3], steps + [Deliver(VoteRsp(1, 0, 1, true))];
  }

  /** The first elected leader starts a reign: with the messages so far lost,
      every invariant of the reign holds. */
  lemma FirstReign(cluster: int, init: map<int, int>, s: Sys)
    requires s == System(cluster, [Elected(init), Voter(init), Boot(init)], {}, [])
    ensures FullInv(Reign(0, 1), init, s)
    ensures Books(Reign(0, 1), init, s, [[], [], []])
    ensures NonNegative(cluster, init) ==> Solvent(cluster, s.servers[0])
    ensures forall f: ServerId :: s.servers[f].commit == s.servers[0].commit
  {
    FirstBooks(cluster, init);
    FirstEpoch(cluster, init, s);
    NothingWaits(Elected(init));
    hide EpochInv, LeaderInv, FollowerBooks, AnsweredOnce, RepliesTrue;
  }

  lemma FirstEpoch(cluster: int, init: map<int, int>, s: Sys)
    requires s == System(cluster, [Elected(init), Voter(init), Boot(init)], {}, [])
    ensures EpochInv(Reign(0, 1), s)
  {
  }

  lemma NothingWaits(sv: Server)
    requires sv.log == []
    ensures AnsweredOnce(sv, []) && RepliesTrue(sv, [])
  {
  }

  lemma FirstBooks(cluster: int, init: map<int, int>)
    ensures LeaderInv(cluster, init, Elected(init))
    ensures forall f: Server :: f.log == [] && f.commit == -1 && f.bal == init ==> FollowerBooks(cluster, init, f, [])
  {
  }

  // ---- Decisions in different order ---------------------------------------

  const COMMIT_ONE := CrossReq(CommitPhase, 0, 1, 1, 1001, 5, 1)
  const COMMIT_TWO := CrossReq(CommitPhase, 0, 1, 2, 1002, 5, 2)

  /** A COMMIT that reaches a server which is not leader. */
  lemma CommitStep(s: Sys, at: ServerId, req: Request, fd: int)
    requires s.cluster == 0 && !s.servers[at].role.Leader? && (req == COMMIT_ONE || req == COMMIT_TWO)
    requires !HasCommit(s.servers[at].log, req.id)
    ensures Enabled(s, Client(at, req, fd))
    ensures var s' := Apply(s, Client(at, req, fd)); var log := s.servers[at].log;
            && s'.servers[at].log == log + [Entry(-1, |log|, CommandFor(req), req.id)] && !s'.servers[at].role.Leader?
            && (forall i: ServerId :: i != at ==> s'.servers[i] == s.servers[i]) && s'.cluster == 0
  {
    hide OnClient;
    DecisionLogs(s.servers[at], 0, req, fd);
    ClientGrows(s.servers[at], 0, req, fd);
  }

  /** Log Matching fails when two COMMITs, broadcast to all servers of a cluster
      with a leader, arrive in different order at its two followers: the entries
      have term -1 and match by term, and differ in content. */
  lemma FollowerAppendsBreakLogMatching(init: map<int, int>) returns (states: seq<Sys>, steps: seq<Step>)
    ensures IsRun(states, steps, init) && Routed(states, steps) && |states| == 8
    ensures states[7].servers[0].role.Leader? && !Agree(states[7].servers[1].log, states[7].servers[2].log)
  {
    hide Apply, Enabled, IsRun, CommandFor;
    states, steps := FirstElection(0, init);
    var s3 := states[3];
    CommitStep(s3, 1, COMMIT_ONE, 7);
    ExtendRun(states, steps, init, Client(1, COMMIT_ONE, 7));
    var s4 := Apply(s3, Client(1, COMMIT_ONE, 7));
    states, steps := states + [s4], steps + [Client(1, COMMIT_ONE, 7)];
    CommitStep(s4, 2, COMMIT_TWO, 8);
    ExtendRun(states, steps, init, Client(2, COMMIT_TWO, 8));
    var s5 := Apply(s4, Client(2, COMMIT_TWO, 8));
    states, steps := states + [s5], steps + [Client(2, COMMIT_TWO, 8)];
    CommitStep(s5, 1, COMMIT_TWO, 9);
    ExtendRun(states, steps, init, Client(1, COMMIT_TWO, 9));
    var s6 := Apply(s5, Client(1, COMMIT_TWO, 9));
    states, steps := states + [s6], steps + [Client(1, COMMIT_TWO, 9)];
    CommitStep(s6, 2, COMMIT_ONE, 10);
    ExtendRun(states, steps, init, Client(2, COMMIT_ONE, 10));
    var s7 := Apply(s6, Client(2, COMMIT_ONE, 10));
    states, steps := states + [s7], steps + [Client(2, COMMIT_ONE, 10)];
    OrdersDiffer(s7.servers[1].log, s7.servers[2].log);
  }

  lemma OrdersDiffer(a: seq<Entry>, b: seq<Entry>)
    requires |a| > 0 && |b| > 0 && a[0] == Entry(-1, 0, CommandFor(COMMIT_ONE), 1)
    requires b[0] == Entry(-1, 0, CommandFor(COMMIT_TWO), 2)
    ensures !Agree(a, b)
  {
    assert a[..1][0] != b[..1][0];
  }
}
