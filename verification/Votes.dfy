/** What elections say and do, in terms of the logs themselves: what vote requests
    and heartbeats tell, exactly when a vote is granted, and the state in which a
    leader starts. */
module Votes {
  import opened Types
  import opened Handlers
  import opened Cluster
  import opened LogSafety
  import opened Requests

  /** The term of the entry before position n of a log, -1 before the first. */
  function TermBefore(log: seq<Entry>, n: nat): int
    requires n <= |log|
  {
    if n == 0 then -1 else log[n - 1].term
  }

  lemma LastEntry(log: seq<Entry>)
    requires Numbered(log, 0)
    ensures LastIndex(log) == |log| - 1 && LastTerm(log) == TermBefore(log, |log|)
  {
  }

  // ---- Standing for election ----------------------------------------------

  /** The vote request of a server: its position of last entry and that entry's
      term. */
  function AskFor(sv: Server, i: ServerId, p: ServerId): Msg {
    VoteReq(i, p, sv.term, |sv.log| - 1, TermBefore(sv.log, |sv.log|))
  }

  /** The two other servers of a cluster. */
  function Next(i: ServerId): ServerId { (i + 1) % 3 }
  function AfterNext(i: ServerId): ServerId { (i + 2) % 3 }

  lemma PeersAre(i: ServerId)
    ensures (FirstPeer(i) == Next(i) && SecondPeer(i) == AfterNext(i))
            || (FirstPeer(i) == AfterNext(i) && SecondPeer(i) == Next(i))
  {
  }

  /** A timeout off the leader: a follower that was heard from waits once more;
      any other server asks both others, in a new term, for their votes. */
  lemma TimeoutExactly(sv: Server, i: ServerId)
    requires !sv.role.Leader? && Numbered(sv.log, 0)
    ensures var o := OnTimeout(sv, i); var waits := sv.role.Follower? && sv.heard;
            && o.replies == []
            && (waits ==> o.server == sv.(heard := false) && o.msgs == {})
            && (!waits ==>
                  && o.server == sv.(role := Candidate, term := sv.term + 1, votedFor := i, votes := 1,
                                     heard := sv.heard && sv.role.Candidate?)
                  && o.msgs == {AskFor(o.server, i, Next(i)), AskFor(o.server, i, AfterNext(i))})
  {
    LastEntry(sv.log);
    PeersAre(i);
  }

  // ---- Voting -------------------------------------------------------------

  /** The vote is the candidate's: its term is higher, or, in the voter's own
      term, nobody has the vote yet and the candidate's log is longer. */
  predicate Grants(sv: Server, m: Msg)
    requires m.VoteReq?
  {
    m.term > sv.term || (m.term == sv.term && sv.votedFor == -1 && m.lastIndex >= |sv.log|)
  }

  /** Exactly when a vote is granted, and what it changes; a refusal changes
      nothing. */
  lemma VoteExactly(sv: Server, m: Msg)
    requires m.VoteReq? && Numbered(sv.log, 0)
    ensures var o := OnVoteReq(sv, m);
            && o.msgs == {VoteRsp(m.dst, m.src, o.server.term, Grants(sv, m))} && o.replies == []
            && o.server == if Grants(sv, m) then sv.(term := m.term, votedFor := m.src, role := Follower, heard := true)
                           else sv
  {
    LastEntry(sv.log);
  }

  // ---- Heartbeats ---------------------------------------------------------

  /** The message quotes the log from the matched size of its receiver to the end
      and tells the commit index. */
  ghost predicate Tells(m: Msg, sv: Server, i: ServerId) {
    && m.AppendReq? && m.src == i && m.dst != i && m.term == sv.term && m.commitIndex == sv.commit
    && |sv.matched| == 3 && 0 <= sv.matched[m.dst] <= |sv.log| && m.prevIndex == sv.matched[m.dst] - 1
    && m.prevTerm == TermBefore(sv.log, sv.matched[m.dst])
    && |m.entries| == |sv.log| - sv.matched[m.dst]
    && forall j :: 0 <= j < |m.entries| ==> m.entries[j] == sv.log[sv.matched[m.dst] + j]
  }

  /** Both other servers are told, and nobody else. */
  ghost predicate TellsBoth(msgs: set<Msg>, sv: Server, i: ServerId) {
    exists a, b :: msgs == {a, b} && Tells(a, sv, i) && Tells(b, sv, i) && a.dst == Next(i) && b.dst == AfterNext(i)
  }

  lemma RequestTells(sv: Server, i: ServerId, p: ServerId)
    requires |sv.matched| == 3 && 0 <= sv.matched[p] <= |sv.log| && p != i
    ensures Tells(AppendReqTo(sv, i, p), sv, i)
  {
  }

  lemma HeartbeatExactly(sv: Server, i: ServerId)
    requires CanBroadcast(sv, i) && forall p: ServerId :: sv.matched[p] <= |sv.log|
    ensures var o := Heartbeat(sv, i);
            o.server == sv.(coming := |sv.log| - 1) && o.replies == [] && TellsBoth(o.msgs, o.server, i)
  {
    var sv' := sv.(coming := |sv.log| - 1);
    PeersAre(i);
    RequestTells(sv', i, FirstPeer(i));
    RequestTells(sv', i, SecondPeer(i));
    var a, b := AppendReqTo(sv', i, FirstPeer(i)), AppendReqTo(sv', i, SecondPeer(i));
    assert Heartbeat(sv, i).msgs == {a, b} == {b, a} && a.dst == FirstPeer(i) && b.dst == SecondPeer(i);
    hide AppendReqTo, Tells;
  }

  // ---- Counting votes -----------------------------------------------------

  /** The response brings a candidate its second vote. */
  predicate Wins(sv: Server, m: Msg)
    requires m.VoteRsp?
  {
    sv.role.Candidate? && m.term == sv.term && m.granted && sv.votes >= 1
  }

  /** What a vote response does.  A candidate with a second vote leads, takes the
      followers' logs to be as long as its own, and broadcasts at once; any
      response also makes a leader broadcast, and a higher term deposes. */
  lemma VoteRspExactly(sv: Server, m: Msg)
    requires m.VoteRsp? && InRange(sv) && (sv.role.Leader? ==> CanBroadcast(sv, m.dst))
    ensures CountVote(sv, m).role.Leader? ==> CanBroadcast(CountVote(sv, m), m.dst)
    ensures var o := OnVoteRsp(sv, m); var n := |sv.log|;
            && o.replies == []
            && (if Wins(sv, m) then
                  && o.server == sv.(votes := sv.votes + 1, role := Leader, matched := [n, n, n], coming := n - 1)
                  && TellsBoth(o.msgs, o.server, m.dst)
                else if m.term > sv.term then
                  o.server == sv.(term := m.term, role := Follower) && o.msgs == {}
                else if sv.role.Leader? then
                  o.server == sv.(coming := n - 1) && TellsBoth(o.msgs, o.server, m.dst)
                else
                  && o.msgs == {}
                  && o.server == if sv.role.Candidate? && m.term == sv.term && m.granted
                                 then sv.(votes := sv.votes + 1) else sv)
  {
    hide AppendReqTo, TellsBoth;
    var sv1 := CountVote(sv, m);
    if sv1.role.Leader? {
      assert forall p: ServerId :: sv1.matched[p] <= |sv1.log|;
      HeartbeatExactly(sv1, m.dst);
    }
  }

  // ---- Whole runs ---------------------------------------------------------

  /** The server of a vote request or heartbeat, as it was when it sent it. */
  ghost predicate SentTruly(m: Msg, sv: Server) {
    && (m.VoteReq? ==> m == AskFor(sv, m.src, m.dst) && m.dst != m.src && sv.role.Candidate?)
    && (m.AppendReq? ==> sv.role.Leader? && Tells(m, sv, m.src))
  }

  lemma ClientSendsNothing(s: Sys, step: Step)
    requires Enabled(s, step) && step.Client?
    ensures Act(s, step).msgs == {}
  {
    hide OnClient;
    ClientGrows(s.servers[step.at], s.cluster, step.req, step.fd);
  }

  lemma ActSendsTruly(s: Sys, step: Step)
    requires Enabled(s, step) && InRange(s.servers[Actor(step)])
    ensures forall m :: m in Act(s, step).msgs && (m.VoteReq? || m.AppendReq?) ==>
              m.src == Actor(step) && SentTruly(m, Act(s, step).server)
  {
    hide OnClient, OnAppendReq, OnAppendRsp, OnVoteReq, OnVoteRsp, OnTimeout, Tells;
    var i := Actor(step);
    var sv := s.servers[i];
    match step
    case Timeout(_) => TimeoutSendsTruly(sv, i);
    case Client(_, _, _) => ClientSendsNothing(s, step);
    case Deliver(m) =>
      match m
      case VoteReq(_, _, _, _, _) => VoteExactly(sv, m);
      case VoteRsp(_, _, _, _) => WinnerSendsTruly(s, m);
      case AppendReq(_, _, _, _, _, _, _) => RequestMoves(sv, m);
      case AppendRsp(_, _, _, _) => ResponseMoves(sv, m);
  }

  lemma TimeoutSendsTruly(sv: Server, i: ServerId)
    requires InRange(sv) && (sv.role.Leader? ==> CanBroadcast(sv, i))
    ensures forall m :: m in OnTimeout(sv, i).msgs && (m.VoteReq? || m.AppendReq?) ==>
              m.src == i && SentTruly(m, OnTimeout(sv, i).server)
  {
    hide Tells, Heartbeat;
    if sv.role.Leader? {
      HeartbeatExactly(sv, i);
      assert forall m :: m in Heartbeat(sv, i).msgs ==> m.AppendReq? && m.src == i by { TellsAre(sv, i); }
    } else {
      TimeoutExactly(sv, i);
    }
  }

  lemma TellsAre(sv: Server, i: ServerId)
    requires CanBroadcast(sv, i)
    ensures forall m :: m in Heartbeat(sv, i).msgs ==> m.AppendReq? && m.src == i
  {
  }

  lemma WinnerSendsTruly(s: Sys, m: Msg)
    requires m.VoteRsp? && Enabled(s, Deliver(m)) && InRange(s.servers[m.dst])
    ensures var o := OnVoteRsp(s.servers[m.dst], m);
            forall x :: x in o.msgs && (x.VoteReq? || x.AppendReq?) ==> x.src == m.dst && SentTruly(x, o.server)
  {
    var sv1 := CountVote(s.servers[m.dst], m);
    if sv1.role.Leader? {
      assert forall p: ServerId :: sv1.matched[p] <= |sv1.log|;
      HeartbeatExactly(sv1, m.dst);
      TellsAre(sv1, m.dst);
      hide Heartbeat, Tells;
    }
  }

  /** In every run each vote request and each heartbeat was true of its sender
      when it was sent: of the length of its log, the terms in it, the stretch
      that it quotes, and the commit index. */
  lemma {:induction false} MessagesTrue(states: seq<Sys>, steps: seq<Step>, init: map<int, int>, k: nat, m: Msg)
    returns (j: nat)
    requires IsRun(states, steps, init) && k < |states| && m in states[k].sent && (m.VoteReq? || m.AppendReq?)
    ensures j <= k && SentTruly(m, states[j].servers[m.src])
  {
    hide SentTruly, Act, Enabled;
    if m in (if k == 0 then {} else states[k - 1].sent) {
      j := MessagesTrue(states, steps, init, k - 1, m);
    } else {
      j := k;
      IndexSafety(states, steps, init, k - 1);
      ActSendsTruly(states[k - 1], steps[k - 1]);
    }
  }

  /** Where a granted vote came from: a request that was delivered at moment j. */
  ghost predicate VotedAt(states: seq<Sys>, steps: seq<Step>, j: nat, m: Msg, r: Msg)
    requires m.VoteRsp? && j < |steps| && |states| == |steps| + 1
  {
    && steps[j] == Deliver(r) && r in states[j].sent && r.VoteReq?
    && r.src == m.dst && r.dst == m.src && r.term == m.term
    && Grants(states[j].servers[m.src], r)
  }

  lemma ActVotes(s: Sys, step: Step, m: Msg)
    requires Enabled(s, step) && InRange(s.servers[Actor(step)]) && m in Act(s, step).msgs && m.VoteRsp? && m.granted
    ensures step.Deliver? && step.msg.VoteReq? && step.msg.src == m.dst && step.msg.dst == m.src
    ensures step.msg.term == m.term && Grants(s.servers[m.src], step.msg)
  {
    hide OnClient, OnAppendReq, OnAppendRsp, OnVoteReq, Heartbeat, AppendReqTo, Grants;
    var sv := s.servers[Actor(step)];
    match step
    case Timeout(i) => if sv.role.Leader? { TellsAre(sv, i); }
    case Client(_, _, _) => ClientSendsNothing(s, step);
    case Deliver(x) =>
      match x
      case VoteReq(_, _, _, _, _) =>
        VoteExactly(sv, x);
        assert Grants(sv, x) ==> OnVoteReq(sv, x).server.term == x.term;
      case VoteRsp(_, _, _, _) => if CountVote(sv, x).role.Leader? { TellsAre(CountVote(sv, x), x.dst); }
      case AppendReq(_, _, _, _, _, _, _) => RequestMoves(sv, x);
      case AppendRsp(_, _, _, _) => ResponseMoves(sv, x);
  }

  /** In every run, a granted vote answers a request of its term; and if the voter
      was in that term already, the candidate's log was longer than its own when
      the candidate stood. */
  lemma {:induction false} VotesForLonger(states: seq<Sys>, steps: seq<Step>, init: map<int, int>, k: nat, m: Msg)
    returns (j: nat, r: Msg, i: nat)
    requires IsRun(states, steps, init) && k < |states| && m in states[k].sent && m.VoteRsp? && m.granted
    ensures i <= j < k && VotedAt(states, steps, j, m, r)
    ensures states[i].servers[m.dst].term == m.term && states[i].servers[m.dst].role.Candidate?
    ensures states[j].servers[m.src].term < m.term
            || |states[i].servers[m.dst].log| > |states[j].servers[m.src].log|
  {
    hide Act, Enabled, Tells;
    if m in (if k == 0 then {} else states[k - 1].sent) {
      j, r, i := VotesForLonger(states, steps, init, k - 1, m);
    } else {
      j := k - 1;
      IndexSafety(states, steps, init, j);
      ActVotes(states[j], steps[j], m);
      r := steps[j].msg;
      assert r in states[j].sent by { DeliveredSent(states[j], r); }
      i := MessagesTrue(states, steps, init, j, r);
    }
  }

  lemma DeliveredSent(s: Sys, m: Msg)
    requires Enabled(s, Deliver(m))
    ensures m in s.sent
  {
  }

  /** A server starts to lead in the term in which it stood, by a granted vote of
      that term, with its log and commit index as they were, taking both others'
      logs to be as long as its own; and it tells them so at once. */
  lemma LeaderStarts(s: Sys, step: Step, i: ServerId)
    requires Enabled(s, step) && InRange(s.servers[i])
    requires !s.servers[i].role.Leader? && Apply(s, step).servers[i].role.Leader?
    ensures step.Deliver? && step.msg.VoteRsp? && step.msg.granted && step.msg.dst == i
    ensures var sv, sv', n := s.servers[i], Apply(s, step).servers[i], |s.servers[i].log|;
            && sv.role.Candidate? && step.msg.term == sv.term && sv.votes + 1 >= 2
            && sv' == sv.(votes := sv.votes + 1, role := Leader, matched := [n, n, n], coming := n - 1)
            && TellsBoth(Act(s, step).msgs, sv', i)
  {
    hide OnClient, OnAppendReq, OnAppendRsp, OnVoteReq, OnVoteRsp, OnTimeout, TellsBoth;
    var sv := s.servers[i];
    match step
    case Timeout(_) => if Actor(step) == i { TimeoutExactly(sv, i); }
    case Client(_, req, fd) => if Actor(step) == i { ClientGrows(sv, s.cluster, req, fd); }
    case Deliver(m) =>
      if Actor(step) == i {
        match m
        case VoteReq(_, _, _, _, _) => VoteExactly(sv, m);
        case VoteRsp(_, _, _, _) => VoteRspExactly(sv, m);
        case AppendReq(_, _, _, _, _, _, _) => RequestMoves(sv, m);
        case AppendRsp(_, _, _, _) => ResponseMoves(sv, m);
      }
  }
}
