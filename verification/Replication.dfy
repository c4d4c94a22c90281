/** What append requests and responses do to a server, in terms of log positions,
    accounts and connections. */
module Replication {
  import opened Types
  import opened Handlers
  import opened Cluster
  import opened LogSafety
  import opened Requests
  import opened Leader

  // ---- Requests -----------------------------------------------------------

  /** The server holds the entry before those of the request, with its term. */
  predicate Precedes(log: seq<Entry>, m: Msg)
    requires m.AppendReq?
  {
    m.prevIndex == -1 || (m.prevIndex < |log| && log[m.prevIndex].term == m.prevTerm)
  }

  /** The entries of the request before x are in the log, by their terms. */
  predicate MatchesBefore(log: seq<Entry>, m: Msg, x: nat)
    requires m.AppendReq? && x <= |m.entries|
  {
    forall j :: 0 <= j < x ==> m.prevIndex + 1 + j < |log| && m.entries[j].term == log[m.prevIndex + 1 + j].term
  }

  /** Entry x of the request is the first that the log lacks or holds with another
      term. */
  predicate ConflictAt(log: seq<Entry>, m: Msg, x: nat)
    requires m.AppendReq?
  {
    && x < |m.entries| && MatchesBefore(log, m, x)
    && (|log| <= m.prevIndex + 1 + x || log[m.prevIndex + 1 + x].term != m.entries[x].term)
  }

  /** The log is left alone if it holds all entries of the request; otherwise it
      is cut at the first conflict and continued with the request's entries, for
      which no client waits here. */
  ghost predicate Adopts(sv: Server, sv': Server, m: Msg)
    requires m.AppendReq?
  {
    var base := m.prevIndex + 1;
    || (MatchesBefore(sv.log, m, |m.entries|) && sv'.log == sv.log && sv'.fds == sv.fds)
    || (exists x: nat :: ConflictAt(sv.log, m, x) && base + x <= |sv.log|
          && sv'.log == sv.log[..base + x] + m.entries[x..]
          && sv'.fds == sv.fds[..base + x] + seq(|m.entries| - x, _ => -1))
  }

  lemma AdoptExactly(sv: Server, m: Msg)
    requires m.AppendReq? && m.prevIndex < |sv.log|
    ensures Adopts(sv, Adopt(sv, m), m)
  {
    hide Fold, Slice, FirstMismatch;
    var base := m.prevIndex + 1;
    var k := FirstMismatch(sv.log, base, m.entries, 0);
    assert MatchesBefore(sv.log, m, k);
    if k < |m.entries| { assert ConflictAt(sv.log, m, k); }
  }

  /** The balances after paying the entries from lo up to hi. */
  ghost predicate Pays(t: map<int, int>, t': map<int, int>, log: seq<Entry>, lo: int, hi: int)
    requires 0 <= lo && hi <= |log|
  {
    if lo <= hi then forall a :: Get(t', a) == Get(t, a) + IntraSum(log[lo..hi], a) else t' == t
  }

  lemma SlicePays(t: map<int, int>, log: seq<Entry>, lo: int, hi: int)
    requires 0 <= lo && hi <= |log|
    ensures Pays(t, Fold(t, Slice(log, lo, hi)), log, lo, hi)
  {
    if lo <= hi {
      forall a ensures Get(Fold(t, log[lo..hi]), a) == Get(t, a) + IntraSum(log[lo..hi], a) {
        FoldIsSum(t, log[lo..hi], a);
      }
    } else {
      assert Slice(log, lo, hi) == [] && Fold(t, []) == t;
    }
  }

  /** Exactly when an append request is answered with success, and the whole state
      that it leaves. */
  lemma RequestExactly(sv: Server, m: Msg)
    requires m.AppendReq? && InRange(sv) && MsgInRange(m)
    ensures var o := OnAppendReq(sv, m); var sv' := o.server;
            var current, ok := sv.term <= m.term, sv.term <= m.term && Precedes(sv.log, m);
            && o.replies == [] && o.msgs == {AppendRsp(m.dst, m.src, if current then m.term else sv.term, ok)}
            && (!current ==> sv' == sv)
            && (current && !ok ==> sv' == sv.(term := m.term, role := Follower, heard := true))
            && (ok ==>
                  && sv' == sv.(term := m.term, role := Follower, heard := true, commit := m.commitIndex,
                                log := sv'.log, fds := sv'.fds, bal := sv'.bal)
                  && Adopts(sv, sv', m) && m.commitIndex < |sv'.log|
                  && Pays(sv.bal, sv'.bal, sv'.log, sv.commit + 1, m.commitIndex + 1))
  {
    hide Fold, Slice, Merge, MergeFds, Pays, IntraSum;
    AppendReqInRange(sv, m);
    if sv.term <= m.term && Precedes(sv.log, m) {
      var sv1 := sv.(term := m.term, role := Follower, heard := true);
      AdoptExactly(sv1, m);
      AdoptsSame(sv, sv1, Adopt(sv1, m), m);
      SlicePays(sv.bal, Adopt(sv1, m).log, sv.commit + 1, m.commitIndex + 1);
    }
  }

  lemma AdoptsSame(sv: Server, sv1: Server, sv': Server, m: Msg)
    requires m.AppendReq? && Adopts(sv1, sv', m) && sv1.log == sv.log && sv1.fds == sv.fds
    ensures Adopts(sv, sv', m)
  {
  }

  // ---- Responses ----------------------------------------------------------

  /** A second success since boot, and the last entry of the broadcast is of the
      leader's own term. */
  predicate Commits(l: Server)
    requires l.role.Leader? && InRange(l)
  {
    l.granted + 1 >= 2 && 0 <= l.coming && l.log[l.coming].term == l.term
  }

  /** A commit frees the accounts that its entries held, and no others. */
  ghost predicate Frees(l: Server, l': Server) {
    forall a :: Held(l'.lock, a) <==>
      Held(l.lock, a) && forall i :: l.commit < i <= l.coming && i < |l.log| && l.log[i].command.Holds() ==>
        a != l.log[i].command.sender && a != l.log[i].command.receiver
  }

  /** And nobody waits on them any longer. */
  predicate Dismisses(l: Server, l': Server) {
    && |l'.fds| == |l.fds|
    && forall i :: 0 <= i < |l.fds| ==>
         l'.fds[i] == if l.commit < i <= l.coming && l.log[i].command.Holds() then -1 else l.fds[i]
  }

  lemma CommitFrees(l: Server)
    requires l.commit <= l.coming < |l.log|
    ensures Frees(l, CommitComing(l).server) && Dismisses(l, CommitComing(l).server)
    ensures Pays(l.bal, CommitComing(l).server.bal, l.log, l.commit + 1, l.coming + 1)
  {
    hide Fold, Release, Answers, Pays;
    var l' := CommitComing(l).server;
    var batch := l.log[l.commit + 1..l.coming + 1];
    SlicePays(l.bal, l.log, l.commit + 1, l.coming + 1);
    forall a
      ensures Held(l'.lock, a) <==>
                Held(l.lock, a) && forall i :: l.commit < i <= l.coming && i < |l.log| && l.log[i].command.Holds() ==>
                  a != l.log[i].command.sender && a != l.log[i].command.receiver
    {
      ReleaseHeld(l.lock, batch, a);
      assert forall i :: l.commit < i <= l.coming ==> l.log[i] == batch[i - (l.commit + 1)];
    }
  }

  /** Exactly when a response makes the leader commit, and the whole state that
      it leaves. */
  lemma ResponseExactly(l: Server, m: Msg)
    requires m.AppendRsp? && InRange(l)
    ensures var o := OnAppendRsp(l, m); var l' := o.server;
            && o.msgs == {}
            && (!(l.role.Leader? && m.term == l.term) ==>
                  o.replies == [] && l' == if m.term > l.term then l.(term := m.term, role := Follower) else l)
            && (l.role.Leader? && m.term == l.term && !m.success ==>
                  o.replies == [] && l' == l.(matched := l.matched[m.src := l.matched[m.src] - 1]))
            && (l.role.Leader? && m.term == l.term && m.success ==>
                  && l' == l.(granted := l.granted + 1, matched := l.matched[m.src := l.coming + 1],
                              commit := if Commits(l) then l.coming else l.commit,
                              bal := l'.bal, lock := l'.lock, fds := l'.fds)
                  && (if Commits(l)
                      then Frees(l, l') && Dismisses(l, l') && Pays(l.bal, l'.bal, l.log, l.commit + 1, l.coming + 1)
                      else o.replies == [] && l'.bal == l.bal && l'.lock == l.lock && l'.fds == l.fds))
  {
    hide Fold, Release, Answers, Cleared, Slice, Pays, Frees, Dismisses;
    if l.role.Leader? && m.term == l.term && m.success && Commits(l) {
      var l1 := l.(granted := l.granted + 1);
      CommitFrees(l1);
      SameCommit(l, l1, CommitComing(l1).server, OnAppendRsp(l, m).server);
    }
  }

  lemma SameCommit(l: Server, l1: Server, l2: Server, l': Server)
    requires Frees(l1, l2) && Dismisses(l1, l2)
    requires l1.log == l.log && l1.fds == l.fds && l1.commit == l.commit && l1.coming == l.coming && l1.lock == l.lock
    requires l'.lock == l2.lock && l'.fds == l2.fds
    ensures Frees(l, l') && Dismisses(l, l')
  {
  }

  // ---- Whole runs ---------------------------------------------------------

  lemma LeaderCommitStep(s: Sys, step: Step, i: ServerId)
    requires IndexInv(s) && Enabled(s, step)
    requires s.servers[i].role.Leader? && Apply(s, step).servers[i].role.Leader?
    requires Apply(s, step).servers[i].commit != s.servers[i].commit
    ensures var l, l' := s.servers[i], Apply(s, step).servers[i];
            && step.Deliver? && step.msg.AppendRsp? && step.msg.dst == i && step.msg.success
            && step.msg.term == l.term == l'.term && l'.granted == l.granted + 1 >= 2 && l'.log == l.log
            && l.commit < l'.commit == l.coming < |l.log| && l.log[l'.commit].term == l.term
  {
    var l := s.servers[i];
    assert InRange(l);
    if i == Actor(step) {
      hide OnAppendReq, OnAppendRsp, OnClient, Frees, Dismisses, Pays;
      match step
      case Timeout(_) =>
      case Client(_, req, fd) => ClientGrows(l, s.cluster, req, fd);
      case Deliver(m) =>
        if m.AppendReq? { RequestMoves(l, m); }
        if m.AppendRsp? { ResponseExactly(l, m); }
    }
  }

  /** In every run, whenever a leader's commit index moves, it moves forward to the
      last entry of the broadcast, by a counted success of its term, and the entry
      there is of its own term. */
  lemma CommitsOwnTerm(states: seq<Sys>, steps: seq<Step>, init: map<int, int>, k: nat, i: ServerId)
    requires IsRun(states, steps, init) && k < |steps|
    requires states[k].servers[i].role.Leader? && states[k + 1].servers[i].role.Leader?
    requires states[k + 1].servers[i].commit != states[k].servers[i].commit
    ensures var l, l' := states[k].servers[i], states[k + 1].servers[i];
            && steps[k].Deliver? && steps[k].msg.AppendRsp? && steps[k].msg.dst == i && steps[k].msg.success
            && l.commit < l'.commit == l.coming < |l'.log| && l'.log[l'.commit].term == l'.term
  {
    hide Act, Enabled, InRange;
    IndexSafety(states, steps, init, k);
    LeaderCommitStep(states[k], steps[k], i);
  }
}
