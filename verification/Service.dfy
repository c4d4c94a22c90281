/** What becomes of a request at a stable leader: its client waits until the entry
    is Raft-committed, and then has its answer. */
module Service {
  import opened Types
  import opened Handlers
  import opened Cluster
  import opened LogSafety
  import opened Requests
  import opened Leader
  import opened Replies
  import opened Replication
  import opened Epoch
  import opened ReignRuns

  /** Entry n is in the log; its client waits, or has its YES or SUCCESS. */
  ghost predicate Served(sv: Server, replies: seq<Reply>, n: nat, e: Entry, fd: int) {
    && n < |sv.log| && sv.log[n] == e
    && if n <= sv.commit then ReplyFor(e, fd) in replies else sv.fds[n] == fd
  }

  /** A commit answers the client, or leaves it waiting. */
  lemma ResponseServes(l: Server, m: Msg, replies: seq<Reply>, n: nat, e: Entry, fd: int)
    requires m.AppendRsp? && InRange(l) && l.role.Leader? && m.term == l.term
    requires Served(l, replies, n, e, fd) && fd != -1 && e.command.Holds()
    ensures var o := OnAppendRsp(l, m); Served(o.server, replies + o.replies, n, e, fd)
  {
    hide Frees, Pays, CommitComing;
    ResponseExactly(l, m);
    if m.success && Commits(l) && l.commit < n <= l.coming {
      var l1 := l.(granted := l.granted + 1);
      CommitAnswersAll(l1, n);
      CommitReplies(l, m);
    }
  }

  lemma CommitReplies(l: Server, m: Msg)
    requires m.AppendRsp? && InRange(l) && l.role.Leader? && m.term == l.term && m.success && Commits(l)
    ensures OnAppendRsp(l, m).replies == CommitComing(l.(granted := l.granted + 1)).replies
  {
    hide Answers, Fold, Release, Cleared, Slice;
  }

  lemma ClientServes(l: Server, cluster: int, req: Request, c: int, replies: seq<Reply>, n: nat, e: Entry, fd: int)
    requires Served(l, replies, n, e, fd)
    ensures var o := OnClient(l, cluster, req, c); Served(o.server, replies + o.replies, n, e, fd)
  {
    hide OnClient, EntryFor;
    ClientHasShape(l, cluster, req, c);
  }

  lemma ServedStep(c: Reign, s: Sys, step: EpochStep, n: nat, e: Entry, fd: int)
    requires EpochInv(c, s) && EpochEnabled(c, s, step) && fd != -1 && e.command.Holds()
    requires Served(s.servers[c.leader], s.replies, n, e, fd)
    ensures var s' := EpochApply(c, s, step); Served(s'.servers[c.leader], s'.replies, n, e, fd)
  {
    hide OnAppendReq, OnAppendRsp, OnClient, FollowerOk, Durable, InRange;
    var l := s.servers[c.leader];
    match step
    case Beat =>
    case Hear(m) =>
      assert InRound(c, l, s.servers[Peer(m)], m);
      if m.AppendRsp? { ResponseServes(l, m, s.replies, n, e, fd); }
    case Ask(at, req, d) =>
      if at == c.leader { ClientServes(l, s.cluster, req, d, s.replies, n, e, fd); }
  }

  lemma {:induction false} ServedRun(c: Reign, init: map<int, int>, states: seq<Sys>, steps: seq<EpochStep>,
                                     j: nat, k: nat, n: nat, e: Entry, fd: int)
    requires IsReign(c, init, states, steps) && j <= k < |states| && fd != -1 && e.command.Holds()
    requires Served(states[j].servers[c.leader], states[j].replies, n, e, fd)
    ensures Served(states[k].servers[c.leader], states[k].replies, n, e, fd)
    decreases k - j
  {
    hide IsReign, EpochInv, EpochEnabled, EpochApply, LeaderInv, Served;
    if j < k {
      assert |states| == |steps| + 1 by { ReignStart(c, init, states, steps); }
      ServedRun(c, init, states, steps, j, k - 1, n, e, fd);
      ReignAt(c, init, states, steps, k - 1);
      ServedStep(c, states[k - 1], steps[k - 1], n, e, fd);
    }
  }

  /** The leader logged the request and answers it later. */
  predicate Admits(sv: Server, cluster: int, req: Request, fd: int) {
    var o := OnClient(sv, cluster, req, fd); o.server != sv && o.replies == []
  }

  /** Throughout a reign every admitted request is served: its entry stays at its
      place, its client waits as long as that is not Raft-committed, and has been
      answered YES or SUCCESS as soon as it is. */
  lemma AdmittedServed(c: Reign, init: map<int, int>, states: seq<Sys>, steps: seq<EpochStep>, j: nat, k: nat)
    requires IsReign(c, init, states, steps) && j < k < |states| && steps[j].Ask? && steps[j].at == c.leader
    requires Admits(states[j].servers[c.leader], states[j].cluster, steps[j].req, steps[j].fd)
    ensures var l, req := states[j].servers[c.leader], steps[j].req;
            Served(states[k].servers[c.leader], states[k].replies, |l.log|,
                   Entry(l.term, |l.log|, CommandFor(req), req.id), steps[j].fd)
  {
    var l, req, fd := states[j].servers[c.leader], steps[j].req, steps[j].fd;
    var e := Entry(l.term, |l.log|, CommandFor(req), req.id);
    AdmittedNow(c, init, states, steps, j);
    hide IsReign, Admits, Served, CommandFor;
    ServedRun(c, init, states, steps, j + 1, k, |l.log|, e, fd);
  }

  lemma AdmittedNow(c: Reign, init: map<int, int>, states: seq<Sys>, steps: seq<EpochStep>, j: nat)
    requires IsReign(c, init, states, steps) && j < |steps| && steps[j].Ask? && steps[j].at == c.leader
    requires Admits(states[j].servers[c.leader], states[j].cluster, steps[j].req, steps[j].fd)
    ensures var l, req := states[j].servers[c.leader], steps[j].req;
            var e := Entry(l.term, |l.log|, CommandFor(req), req.id);
            && e.command.Holds() && steps[j].fd != -1
            && Served(states[j + 1].servers[c.leader], states[j + 1].replies, |l.log|, e, steps[j].fd)
  {
    hide OnClient, FollowerOk, RoundOk, Durable, LeaderInv, AnsweredOnce, RepliesTrue;
    ReignKeeps(c, init, states, steps, j);
    var l := states[j].servers[c.leader];
    assert InRange(l);
    ClientHasShape(l, states[j].cluster, steps[j].req, steps[j].fd);
  }
}
