/** Election Safety (section 5.2 of the extended Raft paper) over every
    asynchronous run of a cluster. */
module Election {
  import opened Types
  import opened Handlers
  import opened Cluster
  import opened Requests

  /** What a run has shown so far: for each server and term the candidate it
      stood by, for each term its leader and that leader's log. */
  datatype History = History(ballots: map<(ServerId, nat), int>, leaders: map<nat, ServerId>,
    logs: map<nat, seq<Entry>>)

  function Record(h: History, i: ServerId, sv: Server): History {
    var h1 := if sv.votedFor == -1 then h else h.(ballots := h.ballots[(i, sv.term) := sv.votedFor]);
    if sv.role.Leader? then h1.(leaders := h1.leaders[sv.term := i], logs := h1.logs[sv.term := sv.log]) else h1
  }

  function HistoryAt(states: seq<Sys>, steps: seq<Step>, k: nat): History
    requires |states| == |steps| + 1 && k <= |steps|
  {
    if k == 0 then History(map[], map[], map[])
    else
      var i := Actor(steps[k - 1]);
      Record(HistoryAt(states, steps, k - 1), i, states[k].servers[i])
  }

  /** Server v stood by candidate c in term t. */
  ghost predicate Backs(h: History, v: ServerId, t: nat, c: ServerId) {
    (v, t) in h.ballots && h.ballots[(v, t)] == c
  }

  ghost predicate ServerOk(h: History, i: ServerId, sv: Server) {
    && (sv.votedFor != -1 ==> (i, sv.term) in h.ballots && h.ballots[(i, sv.term)] == sv.votedFor)
    && (!sv.role.Follower? ==> sv.votedFor == i)
    && (sv.role.Candidate? ==> sv.votes == 1)
    && (sv.role.Leader? ==> sv.term in h.leaders && h.leaders[sv.term] == i)
    && (sv.role.Candidate? && sv.term in h.leaders ==> h.leaders[sv.term] != i)
    && (forall t :: (i, t) in h.ballots ==> t <= sv.term)
    && ((i, sv.term) in h.ballots ==> h.ballots[(i, sv.term)] == sv.votedFor != -1)
  }

  ghost predicate MsgOk(h: History, m: Msg) {
    && m.src != m.dst
    && (m.VoteRsp? && m.granted ==> Backs(h, m.src, m.term, m.dst))
  }

  /** Every leader had its own vote and that of another server. */
  ghost predicate LeadersOk(h: History) {
    forall t :: t in h.leaders ==>
      var c := h.leaders[t];
      Backs(h, c, t, c) && exists v: ServerId :: v != c && Backs(h, v, t, c)
  }

  ghost predicate ElectionInv(s: Sys, h: History) {
    && (forall i: ServerId :: ServerOk(h, i, s.servers[i]))
    && (forall m :: m in s.sent ==> MsgOk(h, m))
    && LeadersOk(h)
  }

  /** Two majorities of three share a server, and no server votes twice. */
  lemma OneWinner(h: History, t: nat, c: ServerId, d: ServerId, v: ServerId, w: ServerId)
    requires Backs(h, c, t, c) && v != c && Backs(h, v, t, c)
    requires Backs(h, d, t, d) && w != d && Backs(h, w, t, d)
    ensures c == d
  {
  }

  ghost predicate Extends(h: History, h': History) {
    && (forall k :: k in h.ballots ==> k in h'.ballots && h'.ballots[k] == h.ballots[k])
    && (forall t :: t in h.leaders ==> t in h'.leaders && h'.leaders[t] == h.leaders[t])
  }

  /** What the election proof needs of one server's step. */
  ghost predicate StepOk(h: History, i: ServerId, sv: Server, sv': Server) {
    && sv.term <= sv'.term
    && (sv'.term == sv.term && sv.votedFor != -1 ==> sv'.votedFor == sv.votedFor)
    && (!sv'.role.Follower? ==> sv'.votedFor == i)
    && (sv'.role.Candidate? ==> sv'.votes == 1)
    && (sv'.role.Candidate? ==> (sv'.term == sv.term && sv.role.Candidate?) || sv'.term > sv.term)
    && (sv'.role.Leader? ==> sv'.term == sv.term && (sv.role.Leader? || Won(h, i, sv)))
  }

  ghost predicate Won(h: History, i: ServerId, sv: Server) {
    sv.role.Candidate? && exists v: ServerId :: v != i && Backs(h, v, sv.term, i)
  }

  ghost predicate SendsOk(i: ServerId, sv': Server, msgs: set<Msg>) {
    forall m :: m in msgs ==>
      && m.src == i && m.dst != i
      && (m.VoteRsp? && m.granted ==> m.term == sv'.term && m.dst == sv'.votedFor)
  }

  lemma TimeoutOk(h: History, i: ServerId, sv: Server)
    requires ServerOk(h, i, sv) && (sv.role.Leader? ==> CanBroadcast(sv, i))
    ensures StepOk(h, i, sv, OnTimeout(sv, i).server)
    ensures SendsOk(i, OnTimeout(sv, i).server, OnTimeout(sv, i).msgs)
  {
  }

  lemma VoteRspOk(h: History, sv: Server, m: Msg)
    requires m.VoteRsp? && ServerOk(h, m.dst, sv) && MsgOk(h, m)
    requires CountVote(sv, m).role.Leader? ==> CanBroadcast(CountVote(sv, m), m.dst)
    ensures StepOk(h, m.dst, sv, OnVoteRsp(sv, m).server)
    ensures SendsOk(m.dst, OnVoteRsp(sv, m).server, OnVoteRsp(sv, m).msgs)
  {
    if sv.role.Candidate? && m.term == sv.term && m.granted {
      assert Backs(h, m.src, sv.term, m.dst);
    }
  }

  lemma VoteReqOk(h: History, sv: Server, m: Msg)
    requires m.VoteReq? && ServerOk(h, m.dst, sv) && MsgOk(h, m)
    ensures StepOk(h, m.dst, sv, OnVoteReq(sv, m).server)
    ensures SendsOk(m.dst, OnVoteReq(sv, m).server, OnVoteReq(sv, m).msgs)
  {
  }

  lemma AppendReqOk(h: History, sv: Server, m: Msg)
    requires m.AppendReq? && ServerOk(h, m.dst, sv) && MsgOk(h, m)
    ensures StepOk(h, m.dst, sv, OnAppendReq(sv, m).server)
    ensures SendsOk(m.dst, OnAppendReq(sv, m).server, OnAppendReq(sv, m).msgs)
  {
    hide Merge, MergeFds, Fold;
  }

  lemma AppendRspOk(h: History, sv: Server, m: Msg)
    requires m.AppendRsp? && ServerOk(h, m.dst, sv) && MsgOk(h, m)
    ensures StepOk(h, m.dst, sv, OnAppendRsp(sv, m).server)
    ensures SendsOk(m.dst, OnAppendRsp(sv, m).server, OnAppendRsp(sv, m).msgs)
  {
    hide Fold, Release, Answers, Cleared;
  }

  lemma SendsNothing(i: ServerId, sv: Server)
    ensures SendsOk(i, sv, {})
  {
  }

  lemma ClientOk(h: History, i: ServerId, sv: Server, cluster: int, req: Request, fd: int)
    requires ServerOk(h, i, sv)
    ensures StepOk(h, i, sv, OnClient(sv, cluster, req, fd).server)
    ensures OnClient(sv, cluster, req, fd).msgs == {}
  {
    hide OnClient;
    ClientGrows(sv, cluster, req, fd);
  }

  lemma ActOk(s: Sys, step: Step, h: History)
    requires ElectionInv(s, h) && Enabled(s, step)
    ensures var i, o := Actor(step), Act(s, step);
            StepOk(h, i, s.servers[i], o.server) && SendsOk(i, o.server, o.msgs)
  {
    hide ServerOk, MsgOk, StepOk, SendsOk, OnTimeout, OnVoteReq, OnVoteRsp, OnAppendReq, OnAppendRsp, OnClient;
    var i := Actor(step);
    assert ServerOk(h, i, s.servers[i]);
    match step
    case Timeout(_) => TimeoutOk(h, i, s.servers[i]);
    case Client(_, req, fd) =>
      ClientOk(h, i, s.servers[i], s.cluster, req, fd);
      SendsNothing(i, OnClient(s.servers[i], s.cluster, req, fd).server);
    case Deliver(m) =>
      assert MsgOk(h, m);
      match m
      case VoteReq(_, _, _, _, _) => VoteReqOk(h, s.servers[i], m);
      case VoteRsp(_, _, _, _) => VoteRspOk(h, s.servers[i], m);
      case AppendReq(_, _, _, _, _, _, _) => AppendReqOk(h, s.servers[i], m);
      case AppendRsp(_, _, _, _) => AppendRspOk(h, s.servers[i], m);
  }

  /** Writing down the step of one server overwrites nothing. */
  lemma RecordExtends(h: History, i: ServerId, sv: Server, sv': Server)
    requires LeadersOk(h) && ServerOk(h, i, sv) && StepOk(h, i, sv, sv')
    ensures Extends(h, Record(h, i, sv'))
  {
    if sv'.role.Leader? && sv.term in h.leaders && sv.role.Candidate? {
      var c := h.leaders[sv.term];
      var w: ServerId :| w != c && Backs(h, w, sv.term, c);
      var v: ServerId :| v != i && Backs(h, v, sv.term, i);
      OneWinner(h, sv.term, i, c, v, w);
    }
  }

  lemma RecordLeaders(h: History, i: ServerId, sv: Server, sv': Server)
    requires LeadersOk(h) && ServerOk(h, i, sv) && StepOk(h, i, sv, sv')
    requires Extends(h, Record(h, i, sv'))
    ensures LeadersOk(Record(h, i, sv'))
  {
    var h' := Record(h, i, sv');
    forall t | t in h'.leaders
      ensures var c := h'.leaders[t]; Backs(h', c, t, c) && exists v: ServerId :: v != c && Backs(h', v, t, c)
    {
      var c := h'.leaders[t];
      var v: ServerId :| v != c && Backs(h, v, t, c);
      assert Backs(h', v, t, c);
    }
  }

  lemma ElectionStep(s: Sys, step: Step, h: History)
    requires ElectionInv(s, h) && Enabled(s, step)
    ensures var s' := Apply(s, step); var h' := Record(h, Actor(step), s'.servers[Actor(step)]);
            ElectionInv(s', h') && Extends(h, h')
  {
    hide ElectionInv, Act, Enabled, StepOk, SendsOk, Extends;
    ActOk(s, step, h);
    Recorded(s, Apply(s, step), Actor(step), Act(s, step), h);
  }

  lemma RecordActor(h: History, i: ServerId, sv: Server, sv': Server)
    requires LeadersOk(h) && ServerOk(h, i, sv) && StepOk(h, i, sv, sv')
    ensures ServerOk(Record(h, i, sv'), i, sv')
  {
    assert forall t :: t in h.leaders ==> Backs(h, h.leaders[t], t, h.leaders[t]);
  }

  lemma RecordOther(h: History, i: ServerId, sv': Server, j: ServerId, other: Server)
    requires ServerOk(h, j, other) && i != j && Extends(h, Record(h, i, sv'))
    ensures ServerOk(Record(h, i, sv'), j, other)
  {
  }

  lemma RecordMsg(h: History, i: ServerId, sv': Server, m: Msg)
    requires Extends(h, Record(h, i, sv')) && (MsgOk(h, m) || (exists msgs :: m in msgs && SendsOk(i, sv', msgs)))
    ensures MsgOk(Record(h, i, sv'), m)
  {
  }

  lemma Recorded(s: Sys, s': Sys, i: ServerId, o: Outcome, h: History)
    requires ElectionInv(s, h) && s'.servers == s.servers[i := o.server] && s'.sent == s.sent + o.msgs
    requires StepOk(h, i, s.servers[i], o.server) && SendsOk(i, o.server, o.msgs)
    ensures ElectionInv(s', Record(h, i, o.server)) && Extends(h, Record(h, i, o.server))
  {
    hide LeadersOk, Record, ServerOk, StepOk, SendsOk, MsgOk, Extends;
    var sv := s.servers[i];
    var h' := Record(h, i, o.server);
    RecordExtends(h, i, sv, o.server);
    RecordLeaders(h, i, sv, o.server);
    forall j: ServerId ensures ServerOk(h', j, s'.servers[j]) {
      if j == i { RecordActor(h, i, sv, o.server); } else { RecordOther(h, i, o.server, j, s.servers[j]); }
    }
    forall m | m in s'.sent ensures MsgOk(h', m) {
      RecordMsg(h, i, o.server, m);
    }
  }

  lemma StartOk(s: Sys, init: map<int, int>)
    requires Init(s, init)
    ensures ElectionInv(s, History(map[], map[], map[]))
  {
  }

  lemma ExtendsSelf(h: History)
    ensures Extends(h, h)
  {
  }

  lemma ExtendsTwice(a: History, b: History, c: History)
    requires Extends(a, b) && Extends(b, c)
    ensures Extends(a, c)
  {
  }

  lemma ElectionRun(states: seq<Sys>, steps: seq<Step>, init: map<int, int>, k: nat)
    requires IsRun(states, steps, init) && k <= |steps|
    ensures ElectionInv(states[k], HistoryAt(states, steps, k))
    ensures forall j :: 0 <= j <= k ==> Extends(HistoryAt(states, steps, j), HistoryAt(states, steps, k))
  {
    hide ElectionInv, Enabled, Apply, Record, Extends;
    if k == 0 {
      StartOk(states[0], init);
    } else {
      ElectionRun(states, steps, init, k - 1);
      var h := HistoryAt(states, steps, k - 1);
      ElectionStep(states[k - 1], steps[k - 1], h);
      forall j | 0 <= j < k ensures Extends(HistoryAt(states, steps, j), HistoryAt(states, steps, k)) {
        ExtendsTwice(HistoryAt(states, steps, j), h, HistoryAt(states, steps, k));
      }
    }
    ExtendsSelf(HistoryAt(states, steps, k));
  }

  /** At most one server is ever leader in a term: whenever in a run server a
      leads term t and whenever server b does, they are the same server. */
  lemma ElectionSafety(states: seq<Sys>, steps: seq<Step>, init: map<int, int>,
                       j: nat, k: nat, a: ServerId, b: ServerId)
    requires IsRun(states, steps, init) && j < |states| && k < |states|
    requires states[j].servers[a].role.Leader? && states[k].servers[b].role.Leader?
    requires states[j].servers[a].term == states[k].servers[b].term
    ensures a == b
  {
    ElectionRun(states, steps, init, j);
    ElectionRun(states, steps, init, k);
    assert ServerOk(HistoryAt(states, steps, j), a, states[j].servers[a]);
    assert ServerOk(HistoryAt(states, steps, k), b, states[k].servers[b]);
  }
}
