/** Arithmetic of balance tables: what folding committed entries does to the
    money of a shard. */
module Money {
  import opened Types
  import opened Handlers
  import opened Cluster
  import opened LogSafety
  import opened Requests

  lemma {:induction false} FoldConcat(t: map<int, int>, a: seq<Entry>, b: seq<Entry>)
    ensures Fold(t, a + b) == Fold(Fold(t, a), b)
  {
    if b == [] {
      assert a + b == a;
    } else {
      var n := |b| - 1;
      assert (a + b)[..|a + b| - 1] == a + b[..n];
      FoldConcat(t, a, b[..n]);
    }
  }

  lemma {:induction false} SumAdd(t: map<int, int>, a: int, d: int, lo: int, hi: int)
    ensures Sum(Add(t, a, d), lo, hi) == Sum(t, lo, hi) + (if lo <= a < hi then d else 0)
    decreases hi - lo
  {
    if lo < hi { SumAdd(t, a, d, lo, hi - 1); }
  }

  /** A shard with no accounts in its file has no money. */
  lemma {:induction false} NoMoney(lo: int, hi: int)
    ensures Sum(map[], lo, hi) == 0
    decreases hi - lo
  {
    if lo < hi { NoMoney(lo, hi - 1); }
  }

  /** An account that is not in the table has nothing, and after its first credit
      exactly that; nor is it locked. */
  lemma MissingAccount(t: map<int, int>, l: map<int, bool>, a: int, d: int)
    requires a !in t && a !in l
    ensures Get(t, a) == 0 && Get(Add(t, a, d), a) == d && !Held(l, a)
  {
  }

  ghost predicate LocalEntry(cluster: int, e: Entry) {
    e.command.Intra? ==> Local(cluster, e.command.sender) && Local(cluster, e.command.receiver)
  }

  ghost predicate LocalLog(cluster: int, log: seq<Entry>) {
    forall i :: 0 <= i < |log| ==> LocalEntry(cluster, log[i])
  }

  lemma ApplyEntryTotal(t: map<int, int>, cluster: int, e: Entry)
    requires LocalEntry(cluster, e)
    ensures Total(ApplyEntry(t, e), cluster) == Total(t, cluster)
  {
    if e.command.Intra? {
      var lo, hi := 1000 * cluster + 1, 1000 * cluster + 1001;
      SumAdd(t, e.command.sender, -e.command.amount, lo, hi);
      SumAdd(Add(t, e.command.sender, -e.command.amount), e.command.receiver, e.command.amount, lo, hi);
    }
  }

  lemma {:induction false} FoldTotal(t: map<int, int>, cluster: int, log: seq<Entry>)
    requires LocalLog(cluster, log)
    ensures Total(Fold(t, log), cluster) == Total(t, cluster)
  {
    if log != [] {
      var n := |log| - 1;
      FoldTotal(t, cluster, log[..n]);
      ApplyEntryTotal(Fold(t, log[..n]), cluster, log[n]);
    }
  }

  lemma SliceTotal(t: map<int, int>, cluster: int, log: seq<Entry>, lo: int, hi: int)
    requires LocalLog(cluster, log)
    ensures Total(Fold(t, Slice(log, lo, hi)), cluster) == Total(t, cluster)
  {
    hide Total, Fold;
    FoldTotal(t, cluster, Slice(log, lo, hi));
  }

  // ---- Conservation on every server in every run --------------------------

  /** What a step adds to the shard total of server i: only a COMMIT that is
      executed there moves money across the shard's border. */
  function CrossIncome(s: Sys, step: Step, i: ServerId): int {
    if step.Client? && step.at == i && step.req.CrossReq? && step.req.phase.CommitPhase?
       && !HasCommit(s.servers[i].log, step.req.id) then
      (if step.req.receiverCluster == s.cluster then step.req.amount else 0)
      - (if step.req.senderCluster == s.cluster then step.req.amount else 0)
    else 0
  }

  function CrossIncomes(states: seq<Sys>, steps: seq<Step>, i: ServerId, k: nat): int
    requires |states| == |steps| + 1 && k <= |steps|
  {
    if k == 0 then 0 else CrossIncomes(states, steps, i, k - 1) + CrossIncome(states[k - 1], steps[k - 1], i)
  }

  ghost predicate LocalMsgs(cluster: int, msgs: set<Msg>) {
    forall m :: m in msgs && m.AppendReq? ==> LocalLog(cluster, m.entries)
  }

  ghost predicate LocalInv(s: Sys) {
    (forall i: ServerId :: LocalLog(s.cluster, s.servers[i].log)) && LocalMsgs(s.cluster, s.sent)
  }

  ghost predicate StepWellFormed(step: Step) { step.Client? ==> WellFormed(step.req) }

  lemma LocalClient(sv: Server, cluster: int, req: Request, fd: int)
    requires WellFormed(req) && LocalLog(cluster, sv.log)
    ensures LocalLog(cluster, OnClient(sv, cluster, req, fd).server.log)
  {
    hide OnClient;
    ClientGrows(sv, cluster, req, fd);
  }

  lemma LocalMerge(cluster: int, log: seq<Entry>, base: nat, entries: seq<Entry>)
    requires LocalLog(cluster, log) && LocalLog(cluster, entries) && base <= |log|
    ensures LocalLog(cluster, Merge(log, base, entries))
  {
  }

  lemma LocalDeliver(s: Sys, m: Msg)
    requires LocalInv(s) && Enabled(s, Deliver(m))
    ensures LocalLog(s.cluster, Act(s, Deliver(m)).server.log)
  {
    var sv := s.servers[m.dst];
    assert LocalLog(s.cluster, sv.log);
    hide OnAppendReq, OnAppendRsp, LocalLog;
    if m.AppendReq? {
      RequestMoves(sv, m);
      if Accepts(sv.log, m.prevIndex, m.prevTerm) { LocalMerge(s.cluster, sv.log, m.prevIndex + 1, m.entries); }
    }
    if m.AppendRsp? { ResponseMoves(sv, m); }
  }

  lemma LocalHeartbeat(sv: Server, i: ServerId, cluster: int)
    requires CanBroadcast(sv, i) && LocalLog(cluster, sv.log)
    ensures LocalMsgs(cluster, Heartbeat(sv, i).msgs)
  {
  }

  lemma LocalSends(s: Sys, step: Step)
    requires LocalLog(s.cluster, s.servers[Actor(step)].log) && Enabled(s, step)
    ensures LocalMsgs(s.cluster, Act(s, step).msgs)
  {
    hide OnAppendReq, OnAppendRsp, OnClient;
    var i := Actor(step);
    var sv := s.servers[i];
    match step
    case Timeout(_) => if sv.role.Leader? { LocalHeartbeat(sv, i, s.cluster); }
    case Client(_, req, fd) => ClientGrows(sv, s.cluster, req, fd);
    case Deliver(m) =>
      if m.AppendReq? { RequestMoves(sv, m); }
      if m.AppendRsp? { ResponseMoves(sv, m); }
      if m.VoteRsp? && CountVote(sv, m).role.Leader? { LocalHeartbeat(CountVote(sv, m), i, s.cluster); }
  }

  lemma LocalAct(s: Sys, step: Step)
    requires LocalInv(s) && Enabled(s, step) && StepWellFormed(step)
    ensures LocalLog(s.cluster, Act(s, step).server.log)
    ensures LocalMsgs(s.cluster, Act(s, step).msgs)
  {
    assert LocalLog(s.cluster, s.servers[Actor(step)].log);
    LocalSends(s, step);
    match step
    case Timeout(_) =>
    case Deliver(m) => LocalDeliver(s, m);
    case Client(i, req, fd) => LocalClient(s.servers[i], s.cluster, req, fd);
  }

  lemma LocalStep(s: Sys, step: Step)
    requires LocalInv(s) && Enabled(s, step) && StepWellFormed(step)
    ensures LocalInv(Apply(s, step))
  {
    LocalAct(s, step);
  }

  lemma CommitTotal(sv: Server, cluster: int, req: Request, fd: int)
    requires req.CrossReq? && WellFormed(req) && !HasCommit(sv.log, req.id)
    ensures Total(OnCommit(sv, cluster, req, fd).server.bal, cluster) ==
            Total(sv.bal, cluster)
            + (if req.receiverCluster == cluster then req.amount else 0)
            - (if req.senderCluster == cluster then req.amount else 0)
  {
    var lo, hi := 1000 * cluster + 1, 1000 * cluster + 1001;
    var t1 := if req.senderCluster == cluster then Add(sv.bal, req.sender, -req.amount) else sv.bal;
    SumAdd(sv.bal, req.sender, -req.amount, lo, hi);
    SumAdd(t1, req.receiver, req.amount, lo, hi);
  }

  lemma ClientTotal(s: Sys, step: Step)
    requires step.Client? && WellFormed(step.req)
    ensures Total(Act(s, step).server.bal, s.cluster) ==
            Total(s.servers[step.at].bal, s.cluster) + CrossIncome(s, step, step.at)
  {
    var req := step.req;
    if req.CrossReq? && req.phase.CommitPhase? && !HasCommit(s.servers[step.at].log, req.id) {
      CommitTotal(s.servers[step.at], s.cluster, req, step.fd);
    }
  }

  lemma TotalStep(s: Sys, step: Step, i: ServerId)
    requires LocalInv(s) && Enabled(s, step) && StepWellFormed(step)
    ensures Total(Apply(s, step).servers[i].bal, s.cluster) ==
            Total(s.servers[i].bal, s.cluster) + CrossIncome(s, step, i)
  {
    hide OnAppendReq, OnAppendRsp, OnClient, OnTimeout, OnVoteReq, OnVoteRsp, Fold, Total;
    if i == Actor(step) {
      if step.Client? {
        ClientTotal(s, step);
      } else if step.Deliver? && (step.msg.AppendReq? || step.msg.AppendRsp?) {
        DeliverTotal(s, step.msg);
      } else {
        ElectionKeeps(s, step);
      }
    }
  }

  lemma RequestTotal(sv: Server, cluster: int, m: Msg)
    requires m.AppendReq? && LocalLog(cluster, OnAppendReq(sv, m).server.log)
    ensures Total(OnAppendReq(sv, m).server.bal, cluster) == Total(sv.bal, cluster)
  {
    hide OnAppendReq, Total, LocalLog, Slice, Fold, Merge, Accepts;
    RequestMoves(sv, m);
    var sv' := OnAppendReq(sv, m).server;
    SliceTotal(sv.bal, cluster, sv'.log, sv.commit + 1, sv'.commit + 1);
  }

  lemma ResponseTotal(sv: Server, cluster: int, m: Msg)
    requires m.AppendRsp? && LocalLog(cluster, sv.log)
    ensures Total(OnAppendRsp(sv, m).server.bal, cluster) == Total(sv.bal, cluster)
  {
    hide OnAppendRsp, Total, LocalLog, Slice, Fold;
    ResponseMoves(sv, m);
    SliceTotal(sv.bal, cluster, sv.log, sv.commit + 1, sv.coming + 1);
  }

  lemma DeliverTotal(s: Sys, m: Msg)
    requires LocalInv(s) && Enabled(s, Deliver(m)) && (m.AppendReq? || m.AppendRsp?)
    ensures Total(Act(s, Deliver(m)).server.bal, s.cluster) == Total(s.servers[m.dst].bal, s.cluster)
  {
    hide OnAppendReq, OnAppendRsp, OnVoteReq, OnVoteRsp, CountVote, Total, LocalLog;
    LocalDeliver(s, m);
    if m.AppendReq? {
      RequestTotal(s.servers[m.dst], s.cluster, m);
    } else {
      ResponseTotal(s.servers[m.dst], s.cluster, m);
    }
  }

  lemma StartLocal(s: Sys, init: map<int, int>)
    requires Init(s, init)
    ensures LocalInv(s)
  {
  }

  lemma SameShard(s: Sys, step: Step)
    requires Enabled(s, step)
    ensures Apply(s, step).cluster == s.cluster
  {
  }

  /** On every server, in every run with any leader changes: the shard total is
      the initial one plus what executed COMMITs carried across the border.
      Raft-committing transfers, even twice after a commit index fell, never
      makes or loses money. */
  lemma Conservation(states: seq<Sys>, steps: seq<Step>, init: map<int, int>, i: ServerId, k: nat)
    requires IsRun(states, steps, init) && k < |states|
    requires forall j :: 0 <= j < |steps| ==> StepWellFormed(steps[j])
    ensures LocalInv(states[k]) && states[k].cluster == states[0].cluster
    ensures Total(states[k].servers[i].bal, states[0].cluster) ==
            Total(init, states[0].cluster) + CrossIncomes(states, steps, i, k)
  {
    hide Enabled, Apply, Total, LocalInv, StepWellFormed;
    if k == 0 {
      assert LocalInv(states[0]) by { StartLocal(states[0], init); }
    } else {
      SameShard(states[k - 1], steps[k - 1]);
      Conservation(states, steps, init, i, k - 1);
      LocalStep(states[k - 1], steps[k - 1]);
      TotalStep(states[k - 1], steps[k - 1], i);
    }
  }
}
