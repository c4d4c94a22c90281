/** What every asynchronous run keeps about log positions: every index that a
    server reads its log with stays in range. */
module LogSafety {
  import opened Types
  import opened Handlers
  import opened Cluster
  import opened Requests

  // ---- Index safety -----------------------------------------------------

  ghost predicate Numbered(entries: seq<Entry>, base: int) {
    forall i :: 0 <= i < |entries| ==> entries[i].index == base + i
  }

  /** The indices a server reads its log with are in range. */
  ghost predicate InRange(sv: Server) {
    && Numbered(sv.log, 0)
    && sv.commit < |sv.log|
    && (sv.role.Leader? ==>
          && sv.commit <= sv.coming < |sv.log|
          && forall p: ServerId :: sv.matched[p] <= |sv.log|)
  }

  ghost predicate MsgInRange(m: Msg) {
    m.AppendReq? ==>
      && Numbered(m.entries, m.prevIndex + 1)
      && m.commitIndex <= m.prevIndex + |m.entries|
  }

  ghost predicate IndexInv(s: Sys) {
    && (forall i: ServerId :: InRange(s.servers[i]))
    && (forall m :: m in s.sent ==> MsgInRange(m))
  }

  ghost predicate MsgsInRange(msgs: set<Msg>) { forall m :: m in msgs ==> MsgInRange(m) }

  lemma HeartbeatInRange(sv: Server, i: ServerId)
    requires Numbered(sv.log, 0) && sv.commit < |sv.log| && CanBroadcast(sv, i)
    requires forall p: ServerId :: sv.matched[p] <= |sv.log|
    ensures InRange(Heartbeat(sv, i).server)
    ensures MsgsInRange(Heartbeat(sv, i).msgs)
  {
    hide AppendReqTo;
    var sv' := sv.(coming := |sv.log| - 1);
    SentInRange(sv', i, FirstPeer(i));
    SentInRange(sv', i, SecondPeer(i));
  }

  lemma SentInRange(sv: Server, i: ServerId, p: ServerId)
    requires Numbered(sv.log, 0) && sv.commit < |sv.log| && |sv.matched| == 3 && 0 <= sv.matched[p] <= |sv.log|
    ensures MsgInRange(AppendReqTo(sv, i, p))
  {
  }

  /** What an append request does to the variables that the proofs are about. */
  lemma RequestMoves(f: Server, m: Msg)
    requires m.AppendReq?
    ensures var o := OnAppendReq(f, m); var f' := o.server;
            var ok := f.term <= m.term && Accepts(f.log, m.prevIndex, m.prevTerm);
            && (if f.term <= m.term then f'.term == m.term && f'.role.Follower? else f' == f)
            && (if ok then f'.log == Merge(f.log, m.prevIndex + 1, m.entries) && f'.commit == m.commitIndex
                else f'.log == f.log && f'.commit == f.commit && f'.bal == f.bal)
            && (ok ==> f'.bal == Fold(f.bal, Slice(f'.log, f.commit + 1, f'.commit + 1)))
            && o.msgs == {AppendRsp(m.dst, m.src, f'.term, ok)} && o.replies == []
  {
    hide Merge, MergeFds, Fold, Slice, FirstMismatch;
  }

  predicate Counts(l: Server, m: Msg)
    requires m.AppendRsp?
  {
    l.role.Leader? && m.term == l.term
  }

  /** The same for a response; it counts only in the leader's own term. */
  lemma ResponseMoves(l: Server, m: Msg)
    requires m.AppendRsp?
    ensures var o := OnAppendRsp(l, m); var l' := o.server;
            && l'.log == l.log && l'.coming == l.coming && o.msgs == {}
            && (|| (l'.commit == l.commit && l'.bal == l.bal)
                || (&& Counts(l, m) && m.success && l'.commit == l.coming
                    && l'.bal == Fold(l.bal, Slice(l.log, l.commit + 1, l.coming + 1))))
            && (if Counts(l, m)
                then l'.role == l.role && l'.term == l.term
                     && l'.matched == l.matched[m.src := if m.success then l.coming + 1 else l.matched[m.src] - 1]
                else l' == l || (l'.role.Follower? && l.term < l'.term))
  {
    hide Fold, Release, Answers, Cleared, Slice;
  }

  /** Timeouts and votes touch neither log nor balances. */
  lemma ElectionKeeps(s: Sys, step: Step)
    requires Enabled(s, step) && (step.Timeout? || (step.Deliver? && (step.msg.VoteReq? || step.msg.VoteRsp?)))
    ensures var sv, sv' := s.servers[Actor(step)], Act(s, step).server; sv'.log == sv.log && sv'.bal == sv.bal
  {
    hide OnAppendReq, OnAppendRsp, OnClient, OnTimeout, OnVoteReq, OnVoteRsp;
    var sv := s.servers[Actor(step)];
    match step
    case Timeout(i) => TimeoutKeeps(sv, i);
    case Deliver(m) => if m.VoteReq? { VoteReqKeeps(sv, m); } else { VoteRspKeeps(sv, m); }
  }

  lemma TimeoutKeeps(sv: Server, i: ServerId)
    requires sv.role.Leader? ==> CanBroadcast(sv, i)
    ensures var sv' := OnTimeout(sv, i).server; sv'.log == sv.log && sv'.bal == sv.bal
  {
  }

  lemma VoteReqKeeps(sv: Server, m: Msg)
    requires m.VoteReq?
    ensures var sv' := OnVoteReq(sv, m).server; sv'.log == sv.log && sv'.bal == sv.bal
  {
  }

  lemma VoteRspKeeps(sv: Server, m: Msg)
    requires m.VoteRsp? && (CountVote(sv, m).role.Leader? ==> CanBroadcast(CountVote(sv, m), m.dst))
    ensures var sv' := OnVoteRsp(sv, m).server; sv'.log == sv.log && sv'.bal == sv.bal
  {
  }

  lemma AppendReqInRange(sv: Server, m: Msg)
    requires m.AppendReq? && InRange(sv) && MsgInRange(m)
    ensures InRange(OnAppendReq(sv, m).server) && MsgsInRange(OnAppendReq(sv, m).msgs)
  {
    hide OnAppendReq;
    RequestMoves(sv, m);
  }

  lemma AppendRspInRange(sv: Server, m: Msg)
    requires m.AppendRsp? && InRange(sv)
    ensures InRange(OnAppendRsp(sv, m).server) && MsgsInRange(OnAppendRsp(sv, m).msgs)
  {
    hide OnAppendRsp;
    ResponseMoves(sv, m);
  }

  lemma ClientInRange(sv: Server, cluster: int, req: Request, fd: int)
    requires InRange(sv)
    ensures InRange(OnClient(sv, cluster, req, fd).server) && MsgsInRange(OnClient(sv, cluster, req, fd).msgs)
  {
    hide OnClient;
    ClientGrows(sv, cluster, req, fd);
  }

  lemma TimeoutInRange(sv: Server, i: ServerId)
    requires InRange(sv) && (sv.role.Leader? ==> CanBroadcast(sv, i))
    ensures InRange(OnTimeout(sv, i).server) && MsgsInRange(OnTimeout(sv, i).msgs)
  {
    if sv.role.Leader? { HeartbeatInRange(sv, i); }
  }

  lemma VoteReqInRange(sv: Server, m: Msg)
    requires m.VoteReq? && InRange(sv)
    ensures InRange(OnVoteReq(sv, m).server) && MsgsInRange(OnVoteReq(sv, m).msgs)
  {
  }

  lemma VoteRspInRange(sv: Server, m: Msg)
    requires m.VoteRsp? && InRange(sv)
    requires CountVote(sv, m).role.Leader? ==> CanBroadcast(CountVote(sv, m), m.dst)
    ensures InRange(OnVoteRsp(sv, m).server) && MsgsInRange(OnVoteRsp(sv, m).msgs)
  {
    if CountVote(sv, m).role.Leader? { HeartbeatInRange(CountVote(sv, m), m.dst); }
  }

  lemma ActInRange(s: Sys, step: Step)
    requires Enabled(s, step) && InRange(s.servers[Actor(step)])
    requires step.Deliver? ==> MsgInRange(step.msg)
    ensures InRange(Act(s, step).server) && MsgsInRange(Act(s, step).msgs)
  {
    hide OnTimeout, OnVoteReq, OnVoteRsp, OnAppendReq, OnAppendRsp, OnClient, InRange;
    var sv := s.servers[Actor(step)];
    match step
    case Timeout(i) => TimeoutInRange(sv, i);
    case Client(_, req, fd) => ClientInRange(sv, s.cluster, req, fd);
    case Deliver(m) =>
      match m
      case VoteReq(_, _, _, _, _) => VoteReqInRange(sv, m);
      case VoteRsp(_, _, _, _) => VoteRspInRange(sv, m);
      case AppendReq(_, _, _, _, _, _, _) => AppendReqInRange(sv, m);
      case AppendRsp(_, _, _, _) => AppendRspInRange(sv, m);
  }

  lemma DeliveredWasSent(s: Sys, step: Step)
    requires IndexInv(s) && Enabled(s, step)
    ensures step.Deliver? ==> MsgInRange(step.msg)
  {
  }

  lemma IndexStep(s: Sys, step: Step)
    requires IndexInv(s) && Enabled(s, step)
    ensures IndexInv(Apply(s, step))
  {
    hide Act, Enabled, InRange, MsgInRange;
    assert step.Deliver? ==> MsgInRange(step.msg) by { DeliveredWasSent(s, step); }
    ActInRange(s, step);
  }

  lemma StartInRange(s: Sys, init: map<int, int>)
    requires Init(s, init)
    ensures IndexInv(s)
  {
  }

  /** In every run, with any client requests at any server: every entry sits at
      the position its index names, the commit index is below the log size even
      after a truncation (which also bounds the datastore printout), and a
      leader's coming commit index and matched sizes are in range. */
  lemma IndexSafety(states: seq<Sys>, steps: seq<Step>, init: map<int, int>, k: nat)
    requires IsRun(states, steps, init) && k < |states|
    ensures IndexInv(states[k])
  {
    hide IndexInv, Enabled, Apply;
    if k == 0 {
      StartInRange(states[0], init);
    } else {
      IndexSafety(states, steps, init, k - 1);
      IndexStep(states[k - 1], steps[k - 1]);
    }
  }

  /** A leader's commit index does not fall as long as it stays leader. */
  lemma ReignCommitGrows(s: Sys, step: Step, i: ServerId)
    requires IndexInv(s) && Enabled(s, step)
    requires s.servers[i].role.Leader? && Apply(s, step).servers[i].role.Leader?
    ensures s.servers[i].commit <= Apply(s, step).servers[i].commit
    ensures s.servers[i].term == Apply(s, step).servers[i].term
    ensures s.servers[i].log <= Apply(s, step).servers[i].log
  {
    assert InRange(s.servers[i]);
    if i == Actor(step) {
      hide OnAppendReq, OnAppendRsp, OnClient;
      match step
      case Timeout(_) =>
      case Client(_, req, fd) => ClientGrows(s.servers[i], s.cluster, req, fd);
      case Deliver(m) =>
        if m.AppendReq? { RequestMoves(s.servers[i], m); }
        if m.AppendRsp? { ResponseMoves(s.servers[i], m); }
    }
  }
}
