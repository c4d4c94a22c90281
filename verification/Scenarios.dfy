/** Runs that go wrong where an assumption fails, each from the boot of a cluster
    through its first election. */
module Scenarios {
  import opened Types
  import opened Handlers
  import opened Cluster
  import opened LogSafety
  import opened Leader
  import opened Bridge

  /** Some run of the cluster comes to this state. */
  ghost predicate Reached(s: Sys, init: map<int, int>) {
    exists states, steps :: IsRun(states, steps, init) && states[|steps|] == s
  }

  lemma Reach(s: Sys, init: map<int, int>, step: Step)
    requires Reached(s, init) && Enabled(s, step)
    ensures Reached(Apply(s, step), init)
  {
    var states, steps :| IsRun(states, steps, init) && states[|steps|] == s;
    hide IsRun, Apply, Enabled;
    assert |states| == |steps| + 1 by { RunLength(states, steps, init); }
    ExtendRun(states, steps, init, step);
    assert (states + [Apply(s, step)])[|steps + [step]|] == Apply(s, step);
  }

  lemma RunLength(states: seq<Sys>, steps: seq<Step>, init: map<int, int>)
    requires IsRun(states, steps, init)
    ensures |states| == |steps| + 1
  {
  }

  /** After the first election of cluster 0. */
  lemma ReachElected(init: map<int, int>) returns (s: Sys)
    ensures Reached(s, init) && s.cluster == 0 && s.servers == [Elected(init), Voter(init), Boot(init)]
    ensures AppendReq(0, 1, 1, -1, -1, [], -1) in s.sent && AppendReq(0, 2, 1, -1, -1, [], -1) in s.sent
  {
    hide IsRun;
    var states, steps := FirstElection(0, init);
    s := states[3];
  }

  /** Server i has become sv, and nothing that was sent is lost. */
  ghost predicate Becomes(s: Sys, s': Sys, i: ServerId, sv: Server) {
    s'.servers == s.servers[i := sv] && s.sent <= s'.sent && s'.cluster == s.cluster
  }

  // ---- One step of a run --------------------------------------------------

  lemma Ask(s: Sys, init: map<int, int>, at: ServerId, req: Request, fd: int) returns (s': Sys)
    requires Reached(s, init)
    ensures Reached(s', init) && Becomes(s, s', at, OnClient(s.servers[at], s.cluster, req, fd).server)
  {
    hide Reached, OnClient;
    s' := Apply(s, Client(at, req, fd));
    Reach(s, init, Client(at, req, fd));
  }

  lemma Beat(s: Sys, init: map<int, int>) returns (s': Sys)
    requires Reached(s, init) && s.servers[0].role.Leader? && CanBroadcast(s.servers[0], 0)
    ensures var l' := s.servers[0].(coming := |s.servers[0].log| - 1);
            && Reached(s', init) && Becomes(s, s', 0, l')
            && AppendReqTo(l', 0, 1) in s'.sent && AppendReqTo(l', 0, 2) in s'.sent
  {
    hide Reached, AppendReqTo;
    s' := Apply(s, Timeout(0));
    Reach(s, init, Timeout(0));
  }

  lemma Hear(s: Sys, init: map<int, int>, m: Msg) returns (s': Sys)
    requires Reached(s, init) && m in s.sent && m.AppendReq? && s.servers[m.dst].term <= m.term
    requires Accepts(s.servers[m.dst].log, m.prevIndex, m.prevTerm)
    ensures Reached(s', init) && Becomes(s, s', m.dst, OnAppendReq(s.servers[m.dst], m).server)
    ensures AppendRsp(m.dst, m.src, m.term, true) in s'.sent
  {
    hide Reached, OnAppendReq;
    s' := Apply(s, Deliver(m));
    Reach(s, init, Deliver(m));
    RequestMoves(s.servers[m.dst], m);
  }

  lemma HearBack(s: Sys, init: map<int, int>, m: Msg) returns (s': Sys)
    requires Reached(s, init) && m in s.sent && m.AppendRsp?
    ensures Reached(s', init) && Becomes(s, s', m.dst, OnAppendRsp(s.servers[m.dst], m).server)
  {
    hide Reached, OnAppendRsp;
    s' := Apply(s, Deliver(m));
    Reach(s, init, Deliver(m));
  }

  /** A success at the leader. */
  lemma Success(l: Server, m: Msg)
    requires m.AppendRsp? && m.success && Counts(l, m)
    ensures var l' := OnAppendRsp(l, m).server; var batch := Slice(l.log, l.commit + 1, l.coming + 1);
            && l'.role == l.role && l'.term == l.term && l'.log == l.log && l'.coming == l.coming
            && l'.granted == l.granted + 1 && l'.matched == l.matched[m.src := l.coming + 1]
            && (if MayCommit(l.(granted := l.granted + 1))
                then l'.commit == l.coming && l'.bal == Fold(l.bal, batch) && l'.lock == Release(l.lock, batch)
                else l'.commit == l.commit && l'.bal == l.bal && l'.lock == l.lock)
  {
    hide Fold, Release, Answers, Cleared, Slice;
  }

  lemma OneEntry(t: map<int, int>, e: Entry)
    ensures Merge([], 0, [e]) == [e] && Merge([e], 0, [e]) == [e] && Merge([e], 1, []) == [e]
    ensures Slice([e], 0, 1) == [e] && Slice([e], 1, 0) == [] && Slice([e], 1, 1) == Slice([e], 0, 0) == []
    ensures Fold(t, [e]) == ApplyEntry(t, e) && Fold(t, []) == t
  {
    assert [e][..0] == [];
  }

  // ---- A transfer ---------------------------------------------------------

  const TRANSFER := IntraReq(0, 1, 2, 5, 1)
  const PAID := Entry(1, 0, Intra(1, 2, 5), 1)

  /** A leader of term 1 with one entry. */
  ghost predicate OneLogged(l: Server, e: Entry, commit: int, coming: int, granted: int, matched: seq<int>) {
    && l.role.Leader? && l.term == 1 && l.log == [e] && l.commit == commit && l.coming == coming
    && l.granted == granted && l.matched == matched
  }

  /** The elected leader logs its first request. */
  lemma TakesTransfer(init: map<int, int>)
    requires Get(init, 1) >= 5
    ensures var l := OnClient(Elected(init), 0, TRANSFER, 7).server;
            OneLogged(l, PAID, -1, -1, 0, [0, 0, 0]) && l.bal == init
  {
  }

  lemma TakesPrepare(init: map<int, int>)
    requires Get(init, 1) == 10
    ensures var l := OnClient(Elected(init), 0, PREPARE, 7).server;
            OneLogged(l, PREPARED, -1, -1, 0, [0, 0, 0]) && l.bal == init && l.lock == map[1 := true]
  {
  }

  // ---- Overlapping rounds -------------------------------------------------

  lemma NoEntry(t: map<int, int>)
    ensures Merge([], 0, []) == [] && Slice<Entry>([], 0, 0) == [] && Fold(t, []) == t
  {
  }

  /** Without the round discipline a leader can Raft-commit an entry that no
      other server has: responses name neither a round nor an index, so those of
      an earlier round count for the entry broadcast since. */
  lemma OverlappingRoundsCommitAlone(init: map<int, int>) returns (s: Sys)
    requires Get(init, 1) >= 5
    ensures Reached(s, init) && s.servers[0].role.Leader? && s.servers[0].commit == 0 && s.servers[0].log == [PAID]
    ensures s.servers[1].log == [] && s.servers[2].log == []
  {
    hide Reached, OnAppendReq, OnAppendRsp, OnClient, Merge, Slice, Fold, Release, AppendReqTo;
    NoEntry(init);
    TakesTransfer(init);
    var s0 := ReachElected(init);
    var to1, to2 := AppendReq(0, 1, 1, -1, -1, [], -1), AppendReq(0, 2, 1, -1, -1, [], -1);
    RequestMoves(s0.servers[1], to1);
    var s1 := Hear(s0, init, to1);
    RequestMoves(s1.servers[2], to2);
    var s2 := Hear(s1, init, to2);
    var s3 := Ask(s2, init, 0, TRANSFER, 7);
    var s4 := Beat(s3, init);
    Success(s4.servers[0], AppendRsp(1, 0, 1, true));
    var s5 := HearBack(s4, init, AppendRsp(1, 0, 1, true));
    Success(s5.servers[0], AppendRsp(2, 0, 1, true));
    s := HearBack(s5, init, AppendRsp(2, 0, 1, true));
  }

  // ---- A late request -----------------------------------------------------

  /** The leader logs an entry that is broadcast once, and both followers answer. */
  lemma FirstRound(s: Sys, init: map<int, int>, e: Entry) returns (s': Sys)
    requires Reached(s, init) && s.cluster == 0 && e.term == 1 && OneLogged(s.servers[0], e, -1, -1, 0, [0, 0, 0])
    requires s.servers[0].bal == init
    requires forall p: ServerId :: p != 0 ==>
               s.servers[p].log == [] && s.servers[p].term <= 1 && s.servers[p].commit == -1
    requires s.servers[1].bal == init
    ensures Reached(s', init) && s'.cluster == 0 && OneLogged(s'.servers[0], e, 0, 0, 2, [0, 1, 1])
    ensures s'.servers[0].bal == Fold(init, [e]) && s'.servers[0].lock == Release(s.servers[0].lock, [e])
    ensures var f := s'.servers[1]; f.log == [e] && f.term == 1 && f.commit == -1 && f.bal == init
    ensures AppendReq(0, 1, 1, -1, -1, [e], -1) in s'.sent
  {
    hide Reached, OnAppendReq, OnAppendRsp, Merge, Fold, Slice, Release;
    OneEntry(init, e);
    var to1, to2 := AppendReq(0, 1, 1, -1, -1, [e], -1), AppendReq(0, 2, 1, -1, -1, [e], -1);
    var s1 := Beat(s, init);
    assert to1 in s1.sent && to2 in s1.sent;
    RequestMoves(s1.servers[2], to2);
    var s2 := Hear(s1, init, to2);
    Success(s2.servers[0], AppendRsp(2, 0, 1, true));
    var s3 := HearBack(s2, init, AppendRsp(2, 0, 1, true));
    assert OneLogged(s3.servers[0], e, -1, 0, 1, [0, 0, 1]);
    RequestMoves(s3.servers[1], to1);
    var s4 := Hear(s3, init, to1);
    Success(s4.servers[0], AppendRsp(1, 0, 1, true));
    s' := HearBack(s4, init, AppendRsp(1, 0, 1, true));
  }

  /** An append request that arrives late lowers the follower's commit index, and
      the next one pays the same transfer a second time. */
  lemma LateRequestPaysTwice(init: map<int, int>) returns (s: Sys)
    requires Get(init, 1) >= 5
    ensures Reached(s, init) && s.servers[0].log == s.servers[1].log == [PAID]
    ensures s.servers[0].commit == s.servers[1].commit == 0
    ensures Get(s.servers[0].bal, 1) == Get(init, 1) - 5 && Get(s.servers[1].bal, 1) == Get(init, 1) - 10
  {
    hide Reached, OnClient, Fold;
    TakesTransfer(init);
    var s0 := ReachElected(init);
    var s1 := Ask(s0, init, 0, TRANSFER, 7);
    var s2 := FirstRound(s1, init, PAID);
    s := LateRound(s2, init);
    OneEntry(init, PAID);
    OneEntry(ApplyEntry(init, PAID), PAID);
  }

  /** The next request, the late one, and the next one once more. */
  lemma LateRound(s: Sys, init: map<int, int>) returns (s': Sys)
    requires Reached(s, init) && OneLogged(s.servers[0], PAID, 0, 0, 2, [0, 1, 1])
    requires AppendReq(0, 1, 1, -1, -1, [PAID], -1) in s.sent
    requires var f := s.servers[1]; f.log == [PAID] && f.term == 1 && f.commit == -1 && f.bal == init
    ensures Reached(s', init) && s'.servers[0] == s.servers[0]
    ensures var f := s'.servers[1]; f.log == [PAID] && f.commit == 0 && f.bal == Fold(Fold(init, [PAID]), [PAID])
  {
    hide Reached, OnAppendReq, Merge, Fold, Slice;
    var late, next := AppendReq(0, 1, 1, -1, -1, [PAID], -1), AppendReq(0, 1, 1, 0, 1, [], 0);
    OneEntry(Fold(init, [PAID]), PAID);
    var s3 := Beat(s, init);
    assert next == AppendReqTo(s.servers[0], 0, 1);
    hide AppendReqTo, Accepts, OneLogged;
    AcceptsFirst(PAID);
    RequestMoves(s3.servers[1], next);
    var s4 := Hear(s3, init, next);
    RequestMoves(s4.servers[1], late);
    var s5 := Hear(s4, init, late);
    RequestMoves(s5.servers[1], next);
    s' := Hear(s5, init, next);
  }

  // ---- A later leader -----------------------------------------------------

  /** Server 1 stands for election, twice unheard. */
  lemma Stand(s: Sys, init: map<int, int>) returns (s': Sys)
    requires Reached(s, init) && s.servers[1].role.Follower? && s.servers[1].heard && s.servers[1].term == 1
    requires s.servers[1].log == [PAID]
    ensures var sv := s.servers[1].(role := Candidate, term := 2, votedFor := 1, votes := 1, heard := false);
            Reached(s', init) && Becomes(s, s', 1, sv) && VoteReq(1, 2, 2, 0, 1) in s'.sent
  {
    hide Reached;
    var s1 := Apply(s, Timeout(1));
    Reach(s, init, Timeout(1));
    s' := Apply(s1, Timeout(1));
    Reach(s1, init, Timeout(1));
  }

  /** Server 2 votes for it, and it wins. */
  lemma Win(s: Sys, init: map<int, int>) returns (s': Sys)
    requires Reached(s, init) && VoteReq(1, 2, 2, 0, 1) in s.sent && s.servers[2].term == 0
    requires s.servers[1].role.Candidate? && s.servers[1].term == 2 && s.servers[1].votes == 1
    ensures Reached(s', init) && s'.servers[1].role.Leader? && s'.servers[1].term == 2
    ensures s'.servers[1].log == s.servers[1].log && s'.servers[1].lock == s.servers[1].lock
    ensures s'.servers[1].commit == s.servers[1].commit
  {
    hide Reached, AppendReqTo;
    var ask, vote := VoteReq(1, 2, 2, 0, 1), VoteRsp(2, 1, 2, true);
    var s1 := Apply(s, Deliver(ask));
    Reach(s, init, Deliver(ask));
    assert vote in s1.sent && s1.servers[1] == s.servers[1];
    s' := Apply(s1, Deliver(vote));
    Reach(s1, init, Deliver(vote));
  }

  /** A follower that takes over a pending transfer locks nothing, and does not
      lock it either when it is elected: lock exactness is lost. */
  lemma LaterLeaderHasNoLocks(init: map<int, int>) returns (s: Sys)
    requires Get(init, 1) >= 5
    ensures Reached(s, init) && s.servers[1].role.Leader? && s.servers[1].term == 2
    ensures Pending(s.servers[1], 0) && Touches(0, s.servers[1].log[0].command, 1) && !Held(s.servers[1].lock, 1)
    ensures !LocksExact(0, s.servers[1])
  {
    hide Reached, OnAppendReq, OnClient, Merge, Slice;
    TakesTransfer(init);
    var s0 := ReachElected(init);
    var s1 := Ask(s0, init, 0, TRANSFER, 7);
    var s2 := Beat(s1, init);
    OneEntry(init, PAID);
    var m := AppendReq(0, 1, 1, -1, -1, [PAID], -1);
    assert m == AppendReqTo(s2.servers[0], 0, 1);
    HeardState(s2.servers[1], m);
    var s3 := Hear(s2, init, m);
    var s4 := Stand(s3, init);
    s := Win(s4, init);
  }

  lemma HeardState(f: Server, m: Msg)
    requires m.AppendReq? && f.term <= m.term && Accepts(f.log, m.prevIndex, m.prevTerm)
    ensures var f' := OnAppendReq(f, m).server;
            f'.heard && f'.role.Follower? && f'.term == m.term && f'.lock == f.lock
            && f'.commit == m.commitIndex && f'.log == Merge(f.log, m.prevIndex + 1, m.entries)
  {
    hide Merge, MergeFds, Fold, Slice;
  }

  // ---- A debit that is not covered ----------------------------------------

  const PREPARE := CrossReq(PreparePhase, 0, 1, 1, 1001, 10, 1)
  const SPEND := IntraReq(0, 1, 2, 10, 2)
  const DEBIT := CrossReq(CommitPhase, 0, 1, 1, 1001, 10, 1)

  const PREPARED := Entry(1, 0, Prepare(1, 1001, 10), 1)
  const SPENT := Entry(1, 1, Intra(1, 2, 10), 2)
  const DEBITED := Entry(1, 2, Commit(1, 1001, 10), 1)

  /** The sender's PREPARE is Raft-committed and its lock is gone. */
  lemma Prepares(init: map<int, int>) returns (s: Sys)
    requires Get(init, 1) == 10
    ensures Reached(s, init) && s.cluster == 0 && OneLogged(s.servers[0], PREPARED, 0, 0, 2, [0, 1, 1])
    ensures s.servers[0].bal == init && !Held(s.servers[0].lock, 1) && !Held(s.servers[0].lock, 2)
    ensures s.servers[1].log == [PREPARED] && s.servers[1].term == 1
  {
    hide Reached, Fold, OnClient, OneLogged, Release;
    TakesPrepare(init);
    var s0 := ReachElected(init);
    var s1 := Ask(s0, init, 0, PREPARE, 7);
    s := FirstRound(s1, init, PREPARED);
    OneEntry(init, PREPARED);
    OneReleased(s1.servers[0].lock, PREPARED);
  }

  lemma OneReleased(l: map<int, bool>, e: Entry)
    ensures Release(l, [e]) == ReleaseEntry(l, e)
  {
    assert Release(l, []) == l && [e][..0] == [];
  }

  lemma Fold2(t: map<int, int>, e: Entry, f: Entry)
    ensures Fold(t, [e, f]) == ApplyEntry(ApplyEntry(t, e), f)
  {
    assert [e, f][..1] == [e] && [e][..0] == [];
    assert Fold(t, []) == t;
  }

  /** PREPARE's lock drops when it is Raft-committed, so the sender's money can be
      promised again before the COMMIT arrives.  The COMMIT finds the balance
      still there and leaves nothing for the pending transfer, which then takes
      the account below zero. */
  lemma DebitCanOverdraw(init: map<int, int>) returns (s: Sys)
    requires Get(init, 1) == 10
    ensures WellFormed(PREPARE) && WellFormed(SPEND) && WellFormed(DEBIT)
    ensures Reached(s, init) && s.servers[0].role.Leader? && s.servers[0].commit == 2
    ensures s.servers[0].log == [PREPARED, SPENT, DEBITED] && Get(s.servers[0].bal, 1) == -10
  {
    hide Reached, OnClient, OneLogged;
    var s0 := Prepares(init);
    TakesBoth(s0.servers[0]);
    var s1 := Ask(s0, init, 0, SPEND, 8);
    var s2 := Ask(s1, init, 0, DEBIT, 9);
    s := SecondRound(s2, init);
  }

  /** The leader logs the transfer, then the COMMIT. */
  lemma TakesBoth(l: Server)
    requires OneLogged(l, PREPARED, 0, 0, 2, [0, 1, 1]) && Get(l.bal, 1) == 10
    requires !Held(l.lock, 1) && !Held(l.lock, 2)
    ensures BothLogged(OnClient(OnClient(l, 0, SPEND, 8).server, 0, DEBIT, 9).server)
  {
    var l1 := OnClient(l, 0, SPEND, 8).server;
    assert l1 == l.(log := [PREPARED, SPENT], fds := l1.fds, lock := l1.lock);
    hide Held, HasId;
    assert !HasCommit(l1.log, 1);
  }

  ghost predicate BothLogged(l: Server) {
    && l.role.Leader? && l.term == 1 && l.log == [PREPARED, SPENT, DEBITED] && l.commit == 0
    && l.granted == 2 && l.matched == [0, 1, 1] && Get(l.bal, 1) == 0
  }

  /** One more round commits both. */
  lemma SecondRound(s: Sys, init: map<int, int>) returns (s': Sys)
    requires Reached(s, init) && BothLogged(s.servers[0])
    requires s.servers[1].log == [PREPARED] && s.servers[1].term == 1
    ensures Reached(s', init) && s'.servers[0].role.Leader? && s'.servers[0].commit == 2
    ensures s'.servers[0].log == [PREPARED, SPENT, DEBITED] && Get(s'.servers[0].bal, 1) == -10
  {
    hide Reached, OnAppendReq, OnAppendRsp, Fold, Release, Merge, Accepts;
    var s3 := Beat(s, init);
    var l := s3.servers[0];
    var m := AppendReq(0, 1, 1, 0, 1, [SPENT, DEBITED], 0);
    assert m == AppendReqTo(l, 0, 1) && Slice(l.log, 1, 3) == [SPENT, DEBITED];
    hide AppendReqTo, Slice;
    AcceptsFirst(PREPARED);
    var s4 := Hear(s3, init, m);
    Success(s4.servers[0], AppendRsp(1, 0, 1, true));
    s' := HearBack(s4, init, AppendRsp(1, 0, 1, true));
    Fold2(l.bal, SPENT, DEBITED);
  }

  lemma AcceptsFirst(e: Entry)
    ensures Accepts([e], 0, e.term) && Accepts([e], -1, -1)
  {
  }
}
