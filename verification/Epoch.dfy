/** The reign of one stable leader.  The heartbeat rounds do not overlap: a
    round's messages are delivered once or lost before the next broadcast, for
    responses carry neither a round nor an index.  COMMIT and ABORT requests may
    reach any server, all others only the leader. */
module Epoch {
  import opened Types
  import opened Handlers
  import opened Cluster
  import opened LogSafety
  import opened LogMatching
  import opened Requests

  datatype Reign = Reign(leader: ServerId, term: nat)

  datatype EpochStep =
    | Beat
    | Hear(msg: Msg)
    | Ask(at: ServerId, req: Request, fd: int)

  predicate EpochEnabled(c: Reign, s: Sys, step: EpochStep) {
    match step
    case Beat => s.servers[c.leader].role.Leader? && CanBroadcast(s.servers[c.leader], c.leader)
    case Hear(m) => m in s.sent && (m.AppendReq? || m.AppendRsp?)
    case Ask(at, req, _) => WellFormed(req) && (ForLeader(req) ==> at == c.leader)
  }

  /** The cluster's own step; a broadcast ends the previous round and a
      delivered message is used up. */
  function EpochApply(c: Reign, s: Sys, step: EpochStep): Sys
    requires EpochEnabled(c, s, step)
  {
    match step
    case Beat => Apply(s.(sent := {}), Timeout(c.leader))
    case Hear(m) => var s' := Apply(s, Deliver(m)); s'.(sent := s'.sent - {m})
    case Ask(at, req, fd) => Apply(s, Client(at, req, fd))
  }

  // ---- The invariant ------------------------------------------------------

  ghost predicate HasPrefix(log: seq<Entry>, llog: seq<Entry>, n: int) {
    0 <= n <= |log| && n <= |llog| && log[..n] == llog[..n]
  }

  ghost predicate LeaderOk(c: Reign, l: Server) {
    && l.role.Leader? && l.term == c.term && InRange(l)
    && NoForeign(l.log)
    && (forall p: ServerId :: 0 <= l.matched[p])
  }

  /** A follower's log agrees with the leader's, its entries of this term are
      the leader's, and what it committed is a prefix of what the leader did. */
  ghost predicate FollowerOk(c: Reign, l: Server, f: Server) {
    && !f.role.Leader? && f.term <= c.term && InRange(f)
    && Agree(f.log, l.log)
    && (forall i :: 0 <= i < |f.log| && f.log[i].term == c.term ==> i < |l.log|)
    && f.commit <= l.commit
    && HasPrefix(f.log, l.log, f.commit + 1)
  }

  /** The follower at the other end of a message of the round. */
  function Peer(m: Msg): ServerId { if m.AppendReq? then m.dst else m.src }

  ghost predicate InRound(c: Reign, l: Server, f: Server, m: Msg)
    requires |l.matched| == 3
  {
    && m.term == c.term
    && (m.AppendReq? || m.AppendRsp?)
    && (m.AppendReq? ==>
          && m.src == c.leader && m.dst != c.leader
          && m.prevIndex + 1 == l.matched[m.dst]
          && m.prevIndex + 1 + |m.entries| == l.coming + 1
          && Quotes(m, l.log)
          && f.commit <= m.commitIndex <= l.commit
          && m.commitIndex <= m.prevIndex + |m.entries|
          && Numbered(m.entries, m.prevIndex + 1))
    && (m.AppendRsp? ==>
          && m.src != c.leader && m.dst == c.leader
          && (m.success ==> HasPrefix(f.log, l.log, l.coming + 1))
          && (!m.success ==> 1 <= l.matched[m.src]))
  }

  ghost predicate RoundOk(c: Reign, s: Sys) {
    && |s.servers[c.leader].matched| == 3
    && (forall m :: m in s.sent ==> InRound(c, s.servers[c.leader], s.servers[Peer(m)], m))
    && (forall m, n :: m in s.sent && n in s.sent && Peer(m) == Peer(n) ==> m == n)
  }

  /** What the leader committed is also in some follower's log. */
  ghost predicate Durable(c: Reign, s: Sys, n: int) {
    n > 0 ==> exists f: ServerId :: f != c.leader && HasPrefix(s.servers[f].log, s.servers[c.leader].log, n)
  }

  ghost predicate EpochInv(c: Reign, s: Sys) {
    && LeaderOk(c, s.servers[c.leader])
    && (forall f: ServerId :: f != c.leader ==> FollowerOk(c, s.servers[c.leader], s.servers[f]))
    && RoundOk(c, s)
    && Durable(c, s, s.servers[c.leader].commit + 1)
  }

  // ---- The leader's steps -------------------------------------------------

  /** The follower part depends only on the leader's log and commit index. */
  lemma SameLeaderLog(c: Reign, l: Server, l': Server, f: Server)
    requires FollowerOk(c, l, f) && l'.log == l.log && l.commit <= l'.commit
    ensures FollowerOk(c, l', f)
  {
  }

  lemma BeatMsg(c: Reign, l: Server, f: Server, p: ServerId)
    requires LeaderOk(c, l) && FollowerOk(c, l, f) && p != c.leader
    ensures var l' := l.(coming := |l.log| - 1); InRound(c, l', f, AppendReqTo(l', c.leader, p))
  {
  }

  lemma BeatRound(c: Reign, l: Server, l': Server, s': Sys)
    requires LeaderOk(c, l) && l' == l.(coming := |l.log| - 1) && s'.servers[c.leader] == l'
    requires forall f: ServerId :: f != c.leader ==> FollowerOk(c, l, s'.servers[f])
    requires s'.sent == {AppendReqTo(l', c.leader, FirstPeer(c.leader)),
                         AppendReqTo(l', c.leader, SecondPeer(c.leader))}
    ensures RoundOk(c, s')
  {
    BeatMsg(c, l, s'.servers[FirstPeer(c.leader)], FirstPeer(c.leader));
    BeatMsg(c, l, s'.servers[SecondPeer(c.leader)], SecondPeer(c.leader));
  }

  /** The followers and the durable prefix when only the leader steps and
      keeps its log. */
  lemma LeaderMoves(c: Reign, s: Sys, s': Sys, l: Server, l': Server)
    requires EpochInv(c, s) && l == s.servers[c.leader] && s'.servers == s.servers[c.leader := l']
    requires l'.log == l.log && l.commit <= l'.commit
    ensures forall f: ServerId :: f != c.leader ==> FollowerOk(c, l', s'.servers[f])
    ensures l'.commit == l.commit ==> Durable(c, s', l'.commit + 1)
  {
    forall f: ServerId | f != c.leader ensures FollowerOk(c, l', s'.servers[f]) {
      SameLeaderLog(c, l, l', s.servers[f]);
    }
    if l'.commit == l.commit && l'.commit + 1 > 0 {
      var f: ServerId :| f != c.leader && HasPrefix(s.servers[f].log, l.log, l.commit + 1);
      assert HasPrefix(s'.servers[f].log, l'.log, l'.commit + 1);
    }
  }

  lemma BeatLeader(c: Reign, l: Server)
    requires LeaderOk(c, l) && CanBroadcast(l, c.leader)
    ensures LeaderOk(c, Heartbeat(l, c.leader).server)
  {
    HeartbeatInRange(l, c.leader);
  }

  lemma BeatKeeps(c: Reign, s: Sys, s': Sys)
    requires EpochInv(c, s) && EpochEnabled(c, s, Beat)
    requires var o := Heartbeat(s.servers[c.leader], c.leader);
             s'.servers == s.servers[c.leader := o.server] && s'.sent == o.msgs
    ensures EpochInv(c, s')
  {
    hide FollowerOk, RoundOk, Durable, AppendReqTo, InRange;
    var l, l' := s.servers[c.leader], s'.servers[c.leader];
    BeatLeader(c, l);
    LeaderMoves(c, s, s', l, l');
    BeatRound(c, l, l', s');
  }

  /** What a response does to the leader: it may commit up to the coming
      index, and it moves the matched size of its sender. */
  ghost predicate RspEffect(c: Reign, l: Server, l': Server, f: Server, from: ServerId) {
    && LeaderOk(c, l') && l'.log == l.log && l'.coming == l.coming && l.commit <= l'.commit
    && (l'.commit != l.commit ==> HasPrefix(f.log, l'.log, l'.commit + 1))
    && (|l.matched| == 3 && forall p: ServerId :: p != from ==> l'.matched[p] == l.matched[p])
  }

  /** A response counts for the round it belongs to: a success shows that its
      sender holds everything the leader is about to commit. */
  lemma HearRspLeader(c: Reign, l: Server, f: Server, m: Msg)
    requires LeaderOk(c, l) && m.AppendRsp? && InRound(c, l, f, m)
    ensures RspEffect(c, l, OnAppendRsp(l, m).server, f, m.src)
  {
    AppendRspInRange(l, m);
    hide OnAppendRsp;
    ResponseMoves(l, m);
  }

  lemma HearRspRound(c: Reign, s: Sys, s': Sys, m: Msg)
    requires RoundOk(c, s) && m in s.sent && m.AppendRsp?
    requires s'.servers == s.servers[c.leader := s'.servers[c.leader]] && s'.sent == s.sent - {m}
    requires RspEffect(c, s.servers[c.leader], s'.servers[c.leader], s.servers[m.src], m.src)
    ensures RoundOk(c, s')
  {
    var l := s.servers[c.leader];
    forall x | x in s'.sent ensures InRound(c, s'.servers[c.leader], s'.servers[Peer(x)], x) {
      assert InRound(c, l, s.servers[Peer(x)], x) && Peer(x) != Peer(m);
    }
  }

  lemma HearRspKeeps(c: Reign, s: Sys, s': Sys, m: Msg)
    requires EpochInv(c, s) && m in s.sent && m.AppendRsp?
    requires s'.servers == s.servers[c.leader := s'.servers[c.leader]] && s'.sent == s.sent - {m}
    requires m.src != c.leader && RspEffect(c, s.servers[c.leader], s'.servers[c.leader], s.servers[m.src], m.src)
    ensures EpochInv(c, s')
  {
    HearRspRound(c, s, s', m);
    LeaderMoves(c, s, s', s.servers[c.leader], s'.servers[c.leader]);
    assert s'.servers[m.src] == s.servers[m.src];
  }

  /** Growing the leader's log by an entry of its term harms no follower. */
  lemma LeaderAppends(c: Reign, l: Server, l': Server, f: Server, e: Entry)
    requires FollowerOk(c, l, f) && l'.log == l.log + [e] && e.term == c.term && l'.commit == l.commit
    ensures FollowerOk(c, l', f)
    ensures forall n :: HasPrefix(f.log, l.log, n) ==> HasPrefix(f.log, l'.log, n)
  {
    forall i | 0 <= i < |f.log| && i < |l'.log| && f.log[i].term == l'.log[i].term
      ensures f.log[..i + 1] == l'.log[..i + 1]
    {
      assert i < |l.log|;
      assert l'.log[..i + 1] == l.log[..i + 1];
    }
    forall n | HasPrefix(f.log, l.log, n) ensures HasPrefix(f.log, l'.log, n) {
      assert l'.log[..n] == l.log[..n];
    }
  }

  lemma AskLeaderRound(c: Reign, s: Sys, s': Sys, l: Server, l': Server, e: Entry)
    requires RoundOk(c, s) && s'.sent == s.sent && s'.servers == s.servers[c.leader := l'] && l == s.servers[c.leader]
    requires forall f: ServerId :: f != c.leader ==> FollowerOk(c, l, s.servers[f])
    requires l'.log == l.log + [e] && e.term == c.term
    requires l'.commit == l.commit && l'.coming == l.coming && l'.matched == l.matched
    ensures RoundOk(c, s')
  {
    forall x | x in s'.sent ensures InRound(c, l', s'.servers[Peer(x)], x) {
      assert InRound(c, l, s.servers[Peer(x)], x);
      LeaderAppends(c, l, l', s.servers[Peer(x)], e);
    }
  }

  lemma GrownLeader(c: Reign, l: Server, l': Server, e: Entry)
    requires LeaderOk(c, l) && Grew(l, l', e) && e.term == c.term && e.index == |l.log|
    ensures LeaderOk(c, l')
  {
  }

  lemma LeaderGrows(c: Reign, s: Sys, s': Sys, l: Server, l': Server, e: Entry)
    requires EpochInv(c, s) && s'.sent == s.sent && s'.servers == s.servers[c.leader := l'] && l == s.servers[c.leader]
    requires Grew(l, l', e) && l'.log == l.log + [e] && e.term == c.term && e.index == |l.log|
    ensures EpochInv(c, s')
  {
    hide LeaderOk, FollowerOk, RoundOk, HasPrefix;
    AskLeaderRound(c, s, s', l, l', e);
    GrownLeader(c, l, l', e);
    forall f: ServerId | f != c.leader
      ensures FollowerOk(c, l', s'.servers[f])
      ensures HasPrefix(s.servers[f].log, l.log, l.commit + 1) ==> HasPrefix(s'.servers[f].log, l'.log, l'.commit + 1)
    {
      LeaderAppends(c, l, l', s.servers[f], e);
    }
  }

  lemma AskLeaderKeeps(c: Reign, s: Sys, s': Sys, e: Entry)
    requires EpochInv(c, s) && s'.sent == s.sent && s'.servers == s.servers[c.leader := s'.servers[c.leader]]
    requires Grew(s.servers[c.leader], s'.servers[c.leader], e)
    requires e.term == c.term && e.index == |s.servers[c.leader].log|
    ensures EpochInv(c, s')
  {
    var l, l' := s.servers[c.leader], s'.servers[c.leader];
    if l'.log == l.log {
      hide Agree, HasPrefix, Quotes;
      LeaderMoves(c, s, s', l, l');
      forall x | x in s'.sent ensures InRound(c, l', s'.servers[Peer(x)], x) {
        assert InRound(c, l, s.servers[Peer(x)], x);
      }
    } else {
      LeaderGrows(c, s, s', l, l', e);
    }
  }

  // ---- The followers' steps -----------------------------------------------

  /** A server's step keeps every prefix it shares with the leader's log. */
  ghost predicate KeepsPrefixes(l: Server, f: Server, f': Server) {
    forall n :: HasPrefix(f.log, l.log, n) ==> HasPrefix(f'.log, l.log, n)
  }

  /** A log that is replaced had, from the first conflict on, nothing of the
      leader's. */
  lemma AdoptedPrefix(log: seq<Entry>, llog: seq<Entry>, base: nat, n: nat, k: int)
    requires base <= n <= |llog| && base <= |log| && HasPrefix(log, llog, k)
    requires var r := Merge(log, base, llog[base..n]); r != log && r == llog[..n]
    ensures HasPrefix(Merge(log, base, llog[base..n]), llog, k)
  {
    var entries := llog[base..n];
    var x := FirstMismatch(log, base, entries, 0);
    assert entries[x] == llog[base + x];
    assert forall j :: 0 <= j < k ==> log[j] == log[..k][j] && llog[j] == llog[..k][j];
    assert llog[..n][..k] == llog[..k];
  }

  lemma MergePrefixes(l: Server, f: Server, f': Server, base: nat, n: nat)
    requires Agree(f.log, l.log) && base <= n <= |l.log| && base <= |f.log|
    requires base > 0 ==> f.log[base - 1].term == l.log[base - 1].term
    requires f'.log == Merge(f.log, base, l.log[base..n])
    ensures KeepsPrefixes(l, f, f') && HasPrefix(f'.log, l.log, n) && (f'.log == f.log || f'.log == l.log[..n])
  {
    MergeAgrees(f.log, l.log, base, n);
    forall k | HasPrefix(f.log, l.log, k) ensures HasPrefix(f'.log, l.log, k) {
      if f'.log != f.log { AdoptedPrefix(f.log, l.log, base, n, k); }
    }
  }

  lemma PrefixShorter(log: seq<Entry>, llog: seq<Entry>, n: int, k: int)
    requires HasPrefix(log, llog, n) && 0 <= k <= n
    ensures HasPrefix(log, llog, k)
  {
    assert log[..k] == log[..n][..k];
    assert llog[..k] == llog[..n][..k];
  }

  /** What an append request of the round does to a follower.  Rejected, it
      shows that the leader's matched size can go down; accepted, it brings the
      follower's log up to the leader's as of the broadcast. */
  ghost predicate ReqEffect(c: Reign, l: Server, f: Server, f': Server, m: Msg)
    requires m.AppendReq?
  {
    && FollowerOk(c, l, f') && f.commit <= f'.commit && KeepsPrefixes(l, f, f')
    && (if Accepts(f.log, m.prevIndex, m.prevTerm)
        then HasPrefix(f'.log, l.log, l.coming + 1) && f'.commit == m.commitIndex
        else |l.matched| == 3 && 1 <= l.matched[m.dst] && f'.log == f.log && f'.commit == f.commit)
  }

  lemma AdoptedFollower(c: Reign, l: Server, f: Server, f': Server, n: nat)
    requires FollowerOk(c, l, f) && n <= |l.log| && (f'.log == f.log || f'.log == l.log[..n])
    requires f'.role.Follower? && f'.term == c.term && InRange(f')
    requires f'.commit <= l.commit && HasPrefix(f'.log, l.log, f'.commit + 1)
    ensures FollowerOk(c, l, f')
  {
    if f'.log != f.log {
      forall i | 0 <= i < |f'.log| && f'.log[i].term == l.log[i].term ensures f'.log[..i + 1] == l.log[..i + 1] {
        assert l.log[..n][..i + 1] == l.log[..i + 1];
      }
    }
  }

  lemma AcceptedReq(c: Reign, l: Server, f: Server, f': Server, m: Msg)
    requires LeaderOk(c, l) && FollowerOk(c, l, f) && m.AppendReq? && InRound(c, l, f, m)
    requires Accepts(f.log, m.prevIndex, m.prevTerm) && InRange(f') && f'.term == m.term && f'.role.Follower?
    requires f'.log == Merge(f.log, m.prevIndex + 1, m.entries) && f'.commit == m.commitIndex
    ensures ReqEffect(c, l, f, f', m)
  {
    var base, n := m.prevIndex + 1, l.coming + 1;
    assert m.entries == l.log[base..n] && (base > 0 ==> f.log[base - 1].term == l.log[base - 1].term);
    hide Merge, Agree, Quotes, Numbered, NoForeign;
    MergePrefixes(l, f, f', base, n);
    hide KeepsPrefixes;
    PrefixShorter(f'.log, l.log, n, f'.commit + 1);
    AdoptedFollower(c, l, f, f', n);
  }

  lemma HearReqFollower(c: Reign, l: Server, f: Server, m: Msg)
    requires LeaderOk(c, l) && FollowerOk(c, l, f) && m.AppendReq? && InRound(c, l, f, m)
    ensures ReqEffect(c, l, f, OnAppendReq(f, m).server, m)
  {
    AppendReqInRange(f, m);
    hide OnAppendReq, Merge;
    RequestMoves(f, m);
    if Accepts(f.log, m.prevIndex, m.prevTerm) { AcceptedReq(c, l, f, OnAppendReq(f, m).server, m); }
  }

  lemma HearReqRound(c: Reign, s: Sys, s': Sys, m: Msg, ok: bool)
    requires RoundOk(c, s) && m in s.sent && m.AppendReq? && m.dst != c.leader
    requires s'.servers == s.servers[m.dst := s'.servers[m.dst]]
    requires s'.sent == s.sent + {AppendRsp(m.dst, c.leader, c.term, ok)} - {m}
    requires ok == Accepts(s.servers[m.dst].log, m.prevIndex, m.prevTerm)
    requires ReqEffect(c, s.servers[c.leader], s.servers[m.dst], s'.servers[m.dst], m)
    ensures RoundOk(c, s')
  {
    var l := s.servers[c.leader];
    forall x | x in s'.sent
      ensures InRound(c, s'.servers[c.leader], s'.servers[Peer(x)], x)
      ensures Peer(x) == m.dst ==> x == AppendRsp(m.dst, c.leader, c.term, ok)
    {
      if x in s.sent { assert InRound(c, l, s.servers[Peer(x)], x); }
    }
  }

  /** When one follower steps and keeps its prefixes of the leader's log. */
  lemma FollowerMoves(c: Reign, s: Sys, s': Sys, i: ServerId)
    requires EpochInv(c, s) && i != c.leader && s'.servers == s.servers[i := s'.servers[i]]
    requires KeepsPrefixes(s.servers[c.leader], s.servers[i], s'.servers[i])
    ensures Durable(c, s', s'.servers[c.leader].commit + 1)
  {
    hide HasPrefix, LeaderOk, FollowerOk, RoundOk;
    var l := s.servers[c.leader];
    if l.commit + 1 > 0 {
      var f: ServerId :| f != c.leader && HasPrefix(s.servers[f].log, l.log, l.commit + 1);
      assert HasPrefix(s'.servers[f].log, l.log, l.commit + 1);
    }
  }

  lemma HearReqKeeps(c: Reign, s: Sys, s': Sys, m: Msg, ok: bool)
    requires EpochInv(c, s) && m in s.sent && m.AppendReq? && m.dst != c.leader
    requires s'.servers == s.servers[m.dst := s'.servers[m.dst]]
    requires s'.sent == s.sent + {AppendRsp(m.dst, c.leader, c.term, ok)} - {m}
    requires ok == Accepts(s.servers[m.dst].log, m.prevIndex, m.prevTerm)
    requires ReqEffect(c, s.servers[c.leader], s.servers[m.dst], s'.servers[m.dst], m)
    ensures EpochInv(c, s')
  {
    HearReqRound(c, s, s', m, ok);
    FollowerMoves(c, s, s', m.dst);
  }

  /** A COMMIT or ABORT that reaches a follower adds at most an entry of term -1. */
  lemma FollowerGrows(c: Reign, l: Server, f: Server, f': Server, e: Entry)
    requires LeaderOk(c, l) && FollowerOk(c, l, f) && Grew(f, f', e) && e.term == -1 && e.index == |f.log|
    ensures FollowerOk(c, l, f') && KeepsPrefixes(l, f, f')
  {
    assert forall n :: 0 <= n <= |f.log| ==> f'.log[..n] == f.log[..n];
  }

  lemma AskFollowerKeeps(c: Reign, s: Sys, s': Sys, i: ServerId, e: Entry)
    requires EpochInv(c, s) && i != c.leader && s'.sent == s.sent && s'.servers == s.servers[i := s'.servers[i]]
    requires Grew(s.servers[i], s'.servers[i], e) && e.term == -1 && e.index == |s.servers[i].log|
    ensures EpochInv(c, s')
  {
    var l, f := s.servers[c.leader], s.servers[i];
    FollowerGrows(c, l, f, s'.servers[i], e);
    FollowerMoves(c, s, s', i);
    forall x | x in s'.sent ensures InRound(c, l, s'.servers[Peer(x)], x) {
      assert InRound(c, l, s.servers[Peer(x)], x);
    }
  }

  // ---- Every step ---------------------------------------------------------

  lemma HearKeeps(c: Reign, s: Sys, m: Msg)
    requires EpochInv(c, s) && EpochEnabled(c, s, Hear(m))
    ensures EpochInv(c, EpochApply(c, s, Hear(m)))
  {
    hide OnAppendReq, OnAppendRsp, ReqEffect, RspEffect, Durable, HasPrefix, Agree, InRange, Merge;
    var s' := EpochApply(c, s, Hear(m));
    var l, f := s.servers[c.leader], s.servers[Peer(m)];
    assert InRound(c, l, f, m);
    if m.AppendReq? {
      RequestMoves(f, m);
      HearReqFollower(c, l, f, m);
      HearReqKeeps(c, s, s', m, Accepts(f.log, m.prevIndex, m.prevTerm));
    } else {
      ResponseMoves(l, m);
      HearRspLeader(c, l, f, m);
      HearRspKeeps(c, s, s', m);
    }
  }

  lemma AskKeeps(c: Reign, s: Sys, at: ServerId, req: Request, fd: int)
    requires EpochInv(c, s) && EpochEnabled(c, s, Ask(at, req, fd))
    ensures EpochInv(c, EpochApply(c, s, Ask(at, req, fd)))
  {
    hide OnClient, Grew, RoundOk, Durable, InRange, Agree, HasPrefix;
    var s', e := EpochApply(c, s, Ask(at, req, fd)), EntryFor(s.servers[at], req);
    ClientGrows(s.servers[at], s.cluster, req, fd);
    if at == c.leader { AskLeaderKeeps(c, s, s', e); } else { AskFollowerKeeps(c, s, s', at, e); }
  }

  lemma EpochKeeps(c: Reign, s: Sys, step: EpochStep)
    requires EpochInv(c, s) && EpochEnabled(c, s, step)
    ensures EpochInv(c, EpochApply(c, s, step))
  {
    match step
    case Beat =>
      hide EpochInv, Heartbeat;
      BeatKeeps(c, s, EpochApply(c, s, step));
    case Hear(m) => HearKeeps(c, s, m);
    case Ask(at, req, fd) =>
      AskKeeps(c, s, at, req, fd);
  }
}
