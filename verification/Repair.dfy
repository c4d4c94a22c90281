/** How a leader repairs a follower's log, and what repeated or late append
    requests do. */
module Repair {
  import opened Types
  import opened Handlers
  import opened LogSafety
  import opened LogMatching
  import opened Leader
  import opened Epoch
  import opened ReignRuns

  /** One answered heartbeat round between leader `self` and follower p. */
  function Round(l: Server, self: ServerId, f: Server, p: ServerId): (Server, Server)
    requires CanBroadcast(l, self) && p != self
  {
    var l1 := Heartbeat(l, self).server;
    var m := AppendReqTo(l1, self, p);
    var f' := OnAppendReq(f, m).server;
    var rsp := AppendRsp(p, self, f'.term, f.term <= l.term && Accepts(f.log, m.prevIndex, m.prevTerm));
    (OnAppendRsp(l1, rsp).server, f')
  }

  function Rounds(l: Server, self: ServerId, f: Server, p: ServerId, n: nat): (Server, Server)
    requires p != self
    decreases n
  {
    if n == 0 || !CanBroadcast(l, self) then (l, f)
    else var (l', f') := Round(l, self, f, p); Rounds(l', self, f', p, n - 1)
  }

  /** A leader and a follower whose logs agree by terms. */
  ghost predicate Repairable(l: Server, self: ServerId, f: Server, p: ServerId) {
    && l.role.Leader? && p != self && f.term <= l.term && Agree(f.log, l.log)
    && CanBroadcast(l, self) && l.matched[p] <= |l.log|
  }

  /** The request reaches the follower's log or lowers the matched size by one. */
  lemma RoundProgress(l: Server, self: ServerId, f: Server, p: ServerId)
    requires Repairable(l, self, f, p)
    ensures var (l', f') := Round(l, self, f, p);
            && l'.log == l.log && l'.role.Leader? && l'.term == l.term && f'.term == l.term
            && (if Accepts(f.log, l.matched[p] - 1, PrevTerm(l, p))
                then l.log <= f'.log && l'.matched[p] == |l.log|
                else f'.log == f.log && f'.commit == f.commit && f'.bal == f.bal
                     && l'.commit == l.commit && l'.bal == l.bal
                     && 0 < l.matched[p] && l'.matched == l.matched[p := l.matched[p] - 1])
  {
    hide OnAppendReq, OnAppendRsp, Merge, Agree;
    var l1 := l.(coming := |l.log| - 1);
    var m := AppendReqTo(l1, self, p);
    var ok := Accepts(f.log, m.prevIndex, m.prevTerm);
    RequestMoves(f, m);
    ResponseMoves(l1, AppendRsp(p, self, l.term, ok));
    if ok { MergeAgrees(f.log, l.log, l.matched[p], |l.log|); }
  }

  /** Log repair terminates: within matched size + 1 answered rounds the
      follower's log begins with the leader's whole log. */
  lemma RepairTerminates(l: Server, self: ServerId, f: Server, p: ServerId) returns (n: nat)
    requires Repairable(l, self, f, p)
    ensures 1 <= n <= l.matched[p] + 1
    ensures var (l', f') := Rounds(l, self, f, p, n);
            l'.log == l.log && l.log <= f'.log && |l'.matched| == 3 && l'.matched[p] == |l.log|
    decreases l.matched[p]
  {
    hide Round, Agree, Accepts, PrevTerm;
    RoundProgress(l, self, f, p);
    var (l', f') := Round(l, self, f, p);
    if Accepts(f.log, l.matched[p] - 1, PrevTerm(l, p)) {
      n := 1;
      assert Rounds(l', self, f', p, 0) == (l', f');
    } else {
      var k := RepairTerminates(l', self, f', p);
      n := k + 1;
    }
  }

  /** Handling the same append request twice leaves the server as after once. */
  lemma AppendIdempotent(f: Server, m: Msg)
    requires m.AppendReq?
    ensures var f' := OnAppendReq(f, m).server; OnAppendReq(f', m).server == f'
  {
    hide Adopt, Accepts;
    if f.term <= m.term && Accepts(f.log, m.prevIndex, m.prevTerm) {
      AcceptsBelow(f.log, m.prevIndex, m.prevTerm);
      var f1 := f.(term := m.term, role := Follower, heard := true);
      AdoptTwice(f1, m);
      var f' := OnAppendReq(f, m).server;
      assert f' == Adopt(f1, m);
      assert f'.(term := m.term, role := Follower, heard := true) == f';
    }
  }

  lemma AcceptsBelow(log: seq<Entry>, prevIndex: Index, prevTerm: int)
    requires Accepts(log, prevIndex, prevTerm)
    ensures prevIndex < |log|
  {
  }

  lemma AdoptTwice(s: Server, m: Msg)
    requires m.AppendReq? && Accepts(s.log, m.prevIndex, m.prevTerm)
    ensures var s' := Adopt(s, m);
            && s'.term == s.term && s'.role == s.role && s'.heard == s.heard
            && Accepts(s'.log, m.prevIndex, m.prevTerm) && Adopt(s', m) == s'
  {
    hide Merge, MergeFds, FirstMismatch, Fold, Accepts;
    AcceptsBelow(s.log, m.prevIndex, m.prevTerm);
    var base, s' := m.prevIndex + 1, Adopt(s, m);
    MergeTwice(s.log, base, m.entries);
    AcceptsAgain(s.log, s'.log, m.prevIndex, m.prevTerm);
    FoldNothing(s'.bal);
    assert Slice(s'.log, s'.commit + 1, m.commitIndex + 1) == [];
  }

  lemma AcceptsAgain(log: seq<Entry>, log': seq<Entry>, prevIndex: Index, prevTerm: int)
    requires Accepts(log, prevIndex, prevTerm) && prevIndex < |log'| && log'[..prevIndex + 1] == log[..prevIndex + 1]
    ensures Accepts(log', prevIndex, prevTerm)
  {
    assert prevIndex >= 0 ==> log'[prevIndex] == log'[..prevIndex + 1][prevIndex];
  }

  lemma FoldNothing(t: map<int, int>)
    ensures Fold(t, []) == t
  {
  }

  lemma MergeTwice(log: seq<Entry>, base: nat, entries: seq<Entry>)
    requires base <= |log|
    ensures var r := Merge(log, base, entries);
            base <= |r| && r[..base] == log[..base]
            && Merge(r, base, entries) == r
            && forall fds: seq<int> :: |fds| == |r| ==> MergeFds(r, fds, base, entries) == fds
  {
    hide FirstMismatch;
    var k := FirstMismatch(log, base, entries, 0);
    var r := Merge(log, base, entries);
    assert forall j :: 0 <= j < |entries| ==> base + j < |r| && r[base + j].term == entries[j].term;
    var again := FirstMismatch(r, base, entries, 0);
  }

  /** A late, shorter request of the same leader takes away nothing that the
      follower shares with the leader's log; a log that is a prefix of the
      leader's does not get shorter. */
  lemma LateAppendKeeps(log: seq<Entry>, llog: seq<Entry>, base: nat, n: nat, k: nat)
    requires Agree(log, llog) && base <= n <= |llog| && base <= |log|
    requires base > 0 ==> log[base - 1].term == llog[base - 1].term
    requires k <= |log| && k <= |llog| && log[..k] == llog[..k]
    ensures var r := Merge(log, base, llog[base..n]);
            llog[..k] <= r && llog[..n] <= r && (log <= llog ==> log <= r)
  {
    MergeAgrees(log, llog, base, n);
    var r := Merge(log, base, llog[base..n]);
    if r != log {
      AdoptedPrefix(log, llog, base, n, k);
      if log <= llog { AdoptedPrefix(log, llog, base, n, |log|); }
    }
  }

  ghost predicate MovesNothing(entries: seq<Entry>) { forall a :: IntraSum(entries, a) == 0 }

  /** Exactly when a request of the reign's leader, however late, keeps what a
      follower paid in step with its log: it does not lower the commit index, or
      the entries it takes out of the committed prefix move no account. */
  lemma LateRequestHarmsExactly(c: Reign, init: map<int, int>, cluster: int, l: Server, f: Server, m: Msg,
                                paid: seq<Entry>)
    requires FollowerOk(c, l, f) && FollowerBooks(cluster, init, f, paid)
    requires m.AppendReq? && m.term == c.term && Quotes(m, l.log) && m.commitIndex <= m.prevIndex + |m.entries|
    requires Accepts(f.log, m.prevIndex, m.prevTerm)
    ensures FollowerBooks(cluster, init, OnAppendReq(f, m).server, paid) <==>
            f.commit <= m.commitIndex || MovesNothing(f.log[m.commitIndex + 1..f.commit + 1])
  {
    hide OnAppendReq, Fold, Merge, Slice, IntraSum, CrossSum, Adopt, InRange, Agree;
    var f', base := OnAppendReq(f, m).server, m.prevIndex + 1;
    RequestMoves(f, m);
    MergePrefixes(l, f, f', base, base + |m.entries|);
    assert HasPrefix(f'.log, l.log, f.commit + 1) && HasPrefix(f'.log, l.log, base + |m.entries|);
    assert f'.log[..f.commit + 1] == f.log[..f.commit + 1];
    hide KeepsPrefixes, Accepts;
    if f.commit <= f'.commit {
      AdvancedBooks(cluster, init, f, f', paid) by { SliceIs(f'.log, f.commit + 1, f'.commit + 1); }
    } else {
      PrefixShorter(f'.log, f.log, f.commit + 1, f'.commit + 1);
      BackwardPays(cluster, init, f, f', paid);
    }
  }

  lemma SliceIs<T>(s: seq<T>, lo: int, hi: int)
    requires 0 <= lo <= hi <= |s|
    ensures Slice(s, lo, hi) == s[lo..hi]
  {
  }

  lemma BackwardPays(cluster: int, init: map<int, int>, f: Server, f': Server, paid: seq<Entry>)
    requires FollowerBooks(cluster, init, f, paid) && f'.commit < f.commit && f'.commit < |f'.log|
    requires f'.log[..f'.commit + 1] == f.log[..f'.commit + 1]
    requires f'.bal == Fold(f.bal, Slice(f'.log, f.commit + 1, f'.commit + 1))
    ensures FollowerBooks(cluster, init, f', paid) <==>
            MovesNothing(f.log[f'.commit + 1..f.commit + 1])
  {
    var hi, lo := f'.commit + 1, f.commit + 1;
    FoldNothing(f.bal);
    hide Fold;
    forall a ensures IntraSum(f.log[..lo], a) == IntraSum(f.log[..hi], a) + IntraSum(f.log[hi..lo], a) {
      IntraSumConcat(f.log[..hi], f.log[hi..lo], a);
      assert f.log[..lo] == f.log[..hi] + f.log[hi..lo];
    }
    hide IntraSum, CrossSum, Slice;
    assert f'.log[..hi] == f.log[..hi];
    var back := f.log[hi..lo];
    forall a ensures Get(f'.bal, a) == Get(init, a) + IntraSum(f'.log[..hi], a) +
                     IntraSum(back, a) + CrossSum(cluster, paid, a) {
      assert Get(f.bal, a) == Get(init, a) + IntraSum(f.log[..lo], a) + CrossSum(cluster, paid, a);
    }
    if FollowerBooks(cluster, init, f', paid) {
      forall a ensures IntraSum(back, a) == 0 {
        assert Get(f'.bal, a) == Get(init, a) + IntraSum(f'.log[..hi], a) + CrossSum(cluster, paid, a);
      }
    }
  }
}
