/** One server as the object it is in the program: its variables are updated in
    place, its handlers scan and rewrite the log step by step.  Each method is
    proved to do what the handler function of the same name says. */
module ServerObject {
  import opened Types
  import H = Handlers

  /** The messages of a broadcast loop after its first n rounds. */
  ghost function VotesBelow(s: Server, self: ServerId, n: nat): set<Msg>
    requires n <= 3
  {
    if n == 0 then {}
    else VotesBelow(s, self, n - 1) + (if n - 1 == self then {} else {H.VoteReqTo(s, self, n - 1)})
  }

  lemma AllVotes(s: Server, self: ServerId)
    ensures VotesBelow(s, self, 3) == {H.VoteReqTo(s, self, FirstPeer(self)), H.VoteReqTo(s, self, SecondPeer(self))}
  {
    assert VotesBelow(s, self, 1) == if 0 == self then {} else {H.VoteReqTo(s, self, 0)};
  }

  ghost function AppendsBelow(s: Server, self: ServerId, n: nat): set<Msg>
    requires n <= 3 && |s.matched| == 3 && forall p: ServerId :: 0 <= s.matched[p]
  {
    if n == 0 then {}
    else AppendsBelow(s, self, n - 1) + (if n - 1 == self then {} else {H.AppendReqTo(s, self, n - 1)})
  }

  lemma AllAppends(s: Server, self: ServerId)
    requires |s.matched| == 3 && forall p: ServerId :: 0 <= s.matched[p]
    ensures AppendsBelow(s, self, 3) ==
            {H.AppendReqTo(s, self, FirstPeer(self)), H.AppendReqTo(s, self, SecondPeer(self))}
  {
    assert AppendsBelow(s, self, 1) == if 0 == self then {} else {H.AppendReqTo(s, self, 0)};
  }

  /** One more entry of the commit loops. */
  lemma LoopStep(log: seq<Entry>, fds: seq<int>, t: map<int, int>, l: map<int, bool>, lo: nat, idx: nat)
    requires lo <= idx < |log| == |fds|
    ensures Fold(t, log[lo..idx + 1]) == ApplyEntry(Fold(t, log[lo..idx]), log[idx])
    ensures Release(l, log[lo..idx + 1]) == ReleaseEntry(Release(l, log[lo..idx]), log[idx])
    ensures H.Answers(log[lo..idx + 1], fds[lo..idx + 1]) ==
            H.Answers(log[lo..idx], fds[lo..idx]) + H.Answer(log[idx], fds[idx])
  {
    assert log[lo..idx + 1][..idx - lo] == log[lo..idx] && fds[lo..idx + 1][..idx - lo] == fds[lo..idx];
  }

  lemma ClearedStep(log: seq<Entry>, fds: seq<int>, lo: nat, idx: nat)
    requires lo <= idx < |log| == |fds|
    ensures var now, next := H.Cleared(log, fds, lo, idx), H.Cleared(log, fds, lo, idx + 1);
            now[idx] == fds[idx] && next == (if log[idx].command.Holds() then now[idx := -1] else now)
  {
  }

  lemma LoopStart(log: seq<Entry>, fds: seq<int>, t: map<int, int>, l: map<int, bool>, lo: nat)
    requires lo <= |log| == |fds|
    ensures Fold(t, log[lo..lo]) == t && Release(l, log[lo..lo]) == l
    ensures H.Answers(log[lo..lo], fds[lo..lo]) == [] && H.Cleared(log, fds, lo, lo) == fds
  {
  }

  lemma FoldNothing(t: map<int, int>)
    ensures Fold(t, []) == t
  {
  }

  lemma MergeLength(log: seq<Entry>, base: nat, entries: seq<Entry>)
    requires base <= |log|
    ensures base + |entries| <= |H.Merge(log, base, entries)|
  {
  }

  class RaftServer {
    const cluster: int
    const self: ServerId
    var heard: bool
    var term: nat
    var votedFor: int
    var role: Role
    var votes: int
    var log: seq<Entry>
    var fds: seq<int>
    var granted: int
    var coming: Index
    var commit: Index
    var matched: seq<int>
    var bal: map<int, int>
    var lock: map<int, bool>

    ghost predicate Valid()
      reads this
    {
      |fds| == |log| && (role.Leader? ==> |matched| == 3)
    }

    ghost function State(): Server
      requires Valid()
      reads this
    {
      ServerState(heard, term, votedFor, role, votes, log, fds, granted, coming, commit, matched, bal, lock)
    }

    constructor (cluster: int, self: ServerId, init: map<int, int>)
      ensures Valid() && State() == Boot(init) && this.cluster == cluster && this.self == self
    {
      this.cluster, this.self := cluster, self;
      heard, term, votedFor, role, votes := false, 0, -1, Follower, 0;
      log, fds, granted, coming, commit, matched := [], [], 0, -1, -1, [];
      bal, lock := init, map[];
    }

    method LastLog() returns (index: int, lastTerm: int)
      requires Valid()
      ensures index == H.LastIndex(log) && lastTerm == H.LastTerm(log)
    {
      index, lastTerm := -1, -1;
      if log != [] {
        index, lastTerm := log[|log| - 1].index, log[|log| - 1].term;
      }
    }

    method BroadcastVote() returns (out: set<Msg>)
      requires Valid()
      modifies this
      ensures Valid() && H.BroadcastVote(old(State()), self) == Outcome(State(), out, [])
    {
      hide H.LastIndex, H.LastTerm;
      role, term, votedFor, votes := Candidate, term + 1, self, 1;
      out := {};
      ghost var s := State();
      for idx := 0 to 3
        modifies {}
        invariant out == VotesBelow(s, self, idx) && s == State()
      {
        if idx != self {
          var index, lastTerm := LastLog();
          assert VoteReq(self, idx, term, index, lastTerm) == H.VoteReqTo(s, self, idx);
          out := out + {VoteReq(self, idx, term, index, lastTerm)};
        }
      }
      AllVotes(s, self);
      hide VotesBelow;
    }

    method OnVoteReq(m: Msg) returns (rsp: Msg)
      requires Valid() && m.VoteReq? && m.dst == self
      modifies this
      ensures Valid()
      ensures H.OnVoteReq(old(State()), m) == Outcome(State(), {rsp}, [])
    {
      var last, _ := LastLog();
      if m.term < term || (m.term == term && m.lastIndex <= last) {
        rsp := VoteRsp(self, m.src, term, false);
        return;
      }
      if m.term > term {
        term, votedFor := m.term, -1;
      }
      if votedFor == -1 {
        rsp := VoteRsp(self, m.src, term, true);
        votedFor, role, heard := m.src, Follower, true;
      } else {
        rsp := VoteRsp(self, m.src, term, false);
      }
    }

    method CountVote(m: Msg)
      requires Valid() && m.VoteRsp?
      modifies this
      ensures Valid() && State() == H.CountVote(old(State()), m)
    {
      if role.Candidate? && m.term == term && m.granted {
        votes := votes + 1;
        if votes >= 2 {
          matched := [|log|, |log|, |log|];
          role := Leader;
        }
      }
      if m.term > term {
        term, role := m.term, Follower;
      }
    }

    /** The heartbeat for one follower: the log from its matched size on. */
    method HeartbeatFor(p: ServerId) returns (m: Msg)
      requires Valid() && |matched| == 3 && 0 <= matched[p] <= |log|
      ensures m == H.AppendReqTo(State(), self, p)
    {
      var prevTerm := if matched[p] == 0 then -1 else log[matched[p] - 1].term;
      var entries := [];
      for i := matched[p] to |log|
        invariant entries == log[matched[p]..i]
      {
        entries := entries + [log[i]];
      }
      m := AppendReq(self, p, term, matched[p] - 1, prevTerm, entries, commit);
    }

    method Heartbeat() returns (out: set<Msg>)
      requires Valid() && |matched| == 3 && forall p: ServerId :: 0 <= matched[p] <= |log|
      modifies `coming
      ensures Valid() && H.Heartbeat(old(State()), self) == Outcome(State(), out, [])
    {
      coming := |log| - 1;
      out := {};
      for idx := 0 to 3
        modifies {}
        invariant out == AppendsBelow(State(), self, idx)
      {
        if idx != self {
          var m := HeartbeatFor(idx);
          out := out + {m};
        }
      }
      AllAppends(State(), self);
    }

    ghost predicate MatchedInRange()
      reads this
    {
      role.Leader? ==> |matched| == 3 && forall p: ServerId :: 0 <= matched[p] <= |log|
    }

    /** A vote response; a leader then broadcasts at once. */
    method OnVoteRsp(m: Msg) returns (out: set<Msg>)
      requires Valid() && m.VoteRsp? && m.dst == self && MatchedInRange()
      modifies this
      ensures Valid() && H.OnVoteRsp(old(State()), m) == Outcome(State(), out, [])
    {
      CountVote(m);
      out := {};
      if role.Leader? {
        out := Heartbeat();
      }
    }

    method OnTimeout() returns (out: set<Msg>)
      requires Valid() && MatchedInRange()
      modifies this
      ensures Valid() && H.OnTimeout(old(State()), self) == Outcome(State(), out, [])
    {
      out := {};
      match role
      case Follower =>
        if !heard {
          out := BroadcastVote();
        }
        heard := false;
      case Candidate => out := BroadcastVote();
      case Leader => out := Heartbeat();
    }

    method Truncate(n: nat)
      requires Valid() && n <= |log|
      modifies `log, `fds
      ensures Valid() && log == old(log)[..n] && fds == old(fds)[..n]
    {
      while |log| > n
        invariant n <= |log| <= |old(log)| && |fds| == |log|
        invariant log == old(log)[..|log|] && fds == old(fds)[..|log|]
        decreases |log|
      {
        log, fds := log[..|log| - 1], fds[..|log| - 1];
      }
    }

    method CopyEntries(entries: seq<Entry>)
      requires Valid()
      modifies `log, `fds
      ensures Valid() && log == old(log) + entries && fds == old(fds) + seq(|entries|, _ => -1)
    {
      for j := 0 to |entries|
        invariant log == old(log) + entries[..j] && fds == old(fds) + seq(j, _ => -1)
      {
        log, fds := log + [entries[j]], fds + [-1];
      }
    }

    /** Find the first received entry that is missing or conflicts, drop the log
        from there, and copy the rest. */
    method Replicate(base: nat, entries: seq<Entry>)
      requires Valid() && base <= |log|
      modifies `log, `fds
      ensures Valid()
      ensures log == H.Merge(old(log), base, entries) && fds == H.MergeFds(old(log), old(fds), base, entries)
    {
      var idx := 0;
      while idx < |entries|
        invariant idx <= |entries| && (idx > 0 ==> base + idx <= |log|)
        invariant log == old(log) && fds == old(fds)
        invariant H.FirstMismatch(log, base, entries, idx) == H.FirstMismatch(log, base, entries, 0)
      {
        if |log| <= base + idx || entries[idx].term != log[base + idx].term {
          Truncate(base + idx);
          break;
        }
        idx := idx + 1;
      }
      CopyEntries(entries[idx..]);
    }

    method OnAppendReq(m: Msg) returns (rsp: Msg)
      requires Valid() && m.AppendReq? && m.dst == self && m.commitIndex <= m.prevIndex + |m.entries|
      modifies this
      ensures Valid()
      ensures H.OnAppendReq(old(State()), m) == Outcome(State(), {rsp}, [])
    {
      hide H.Adopt;
      if m.term < term {
        rsp := AppendRsp(self, m.src, term, false);
        return;
      }
      if m.term > term {
        term := m.term;
      }
      role, heard := Follower, true;
      if |log| <= m.prevIndex || (m.prevIndex >= 0 && log[m.prevIndex].term != m.prevTerm) {
        rsp := AppendRsp(self, m.src, term, false);
        return;
      }
      Adopt(m);
      rsp := AppendRsp(self, m.src, term, true);
    }

    method Adopt(m: Msg)
      requires Valid() && m.AppendReq? && m.prevIndex < |log| && m.commitIndex <= m.prevIndex + |m.entries|
      modifies `log, `fds, `bal, `commit
      ensures Valid() && State() == H.Adopt(old(State()), m)
    {
      hide Fold, Slice, H.Merge, H.MergeFds, H.FirstMismatch;
      MergeLength(log, m.prevIndex + 1, m.entries);
      Replicate(m.prevIndex + 1, m.entries);
      CommitUpTo(m.commitIndex);
    }

    /** The follower's commit loop: pay the intra-shard transfers. */
    method CommitUpTo(index: Index)
      requires Valid() && index < |log|
      modifies `bal, `commit
      ensures bal == Fold(old(bal), Slice(log, old(commit) + 1, index + 1)) && commit == index
    {
      hide Fold, Release, H.Answers, H.Cleared;
      var lo := commit + 1;
      FoldNothing(bal);
      assert index < lo ==> Slice(log, lo, index + 1) == [];
      if lo <= index {
        LoopStart(log, fds, bal, lock, lo);
      }
      for idx := lo to if lo <= index then index + 1 else lo
        invariant lo <= index ==> bal == Fold(old(bal), log[lo..idx])
        invariant index < lo ==> bal == old(bal)
      {
        LoopStep(log, fds, old(bal), lock, lo, idx);
        if log[idx].command.Intra? {
          var c := log[idx].command;
          bal := bal[c.sender := Get(bal, c.sender) - c.amount];
          bal := bal[c.receiver := Get(bal, c.receiver) + c.amount];
        }
      }
      commit := index;
    }

    /** The leader's commit loop: unlock, pay, answer. */
    method CommitComing() returns (replies: seq<Reply>)
      requires Valid() && commit <= coming < |log|
      modifies `bal, `lock, `fds, `commit
      ensures Valid()
      ensures H.CommitComing(old(State())) == Outcome(State(), {}, replies)
    {
      hide Fold, Release, H.Answers, H.Cleared;
      replies := [];
      var lo := commit + 1;
      ghost var fds0 := fds;
      LoopStart(log, fds, bal, lock, lo);
      for idx := lo to coming + 1
        invariant Valid()
        invariant bal == Fold(old(bal), log[lo..idx]) && lock == Release(old(lock), log[lo..idx])
        invariant replies == H.Answers(log[lo..idx], fds0[lo..idx])
        invariant fds == H.Cleared(log, fds0, lo, idx)
      {
        LoopStep(log, fds0, old(bal), old(lock), lo, idx);
        ClearedStep(log, fds0, lo, idx);
        var answer := CommitOne(idx);
        replies := replies + answer;
      }
      commit := coming;
    }

    /** One turn of that loop. */
    method CommitOne(idx: nat) returns (answer: seq<Reply>)
      requires Valid() && idx < |log|
      modifies `bal, `lock, `fds
      ensures Valid()
      ensures bal == ApplyEntry(old(bal), log[idx]) && lock == ReleaseEntry(old(lock), log[idx])
      ensures fds == if log[idx].command.Holds() then old(fds)[idx := -1] else old(fds)
      ensures answer == H.Answer(log[idx], old(fds)[idx])
    {
      answer := [];
      var e := log[idx];
      var c := e.command;
      if c.Prepare? {
        lock := lock[c.sender := false][c.receiver := false];
        if fds[idx] != -1 {
          answer := [Reply(fds[idx], e.id, Yes)];
        }
        fds := fds[idx := -1];
      } else if c.Intra? {
        bal := bal[c.sender := Get(bal, c.sender) - c.amount];
        bal := bal[c.receiver := Get(bal, c.receiver) + c.amount];
        lock := lock[c.sender := false][c.receiver := false];
        if fds[idx] != -1 {
          answer := [Reply(fds[idx], e.id, Success)];
        }
        fds := fds[idx := -1];
      }
    }

    method OnAppendRsp(m: Msg) returns (replies: seq<Reply>)
      requires Valid() && m.AppendRsp? && (role.Leader? ==> commit <= coming < |log|)
      modifies this
      ensures Valid()
      ensures H.OnAppendRsp(old(State()), m) == Outcome(State(), {}, replies)
    {
      hide H.CommitComing;
      replies := [];
      if role.Leader? && m.term == term {
        if m.success {
          granted := granted + 1;
          if granted >= 2 && coming >= 0 && log[coming].term == term {
            replies := CommitComing();
          }
          matched := matched[m.src := coming + 1];
        } else {
          matched := matched[m.src := matched[m.src] - 1];
        }
      }
      if m.term > term {
        term, role := m.term, Follower;
      }
    }

    method Push(term: int, command: Command, id: int, fd: int)
      requires Valid()
      modifies `log, `fds
      ensures Valid() && State() == H.Append(old(State()), term, command, id, fd)
    {
      log, fds := log + [Entry(term, |log|, command, id)], fds + [fd];
    }

    method OnIntra(req: Request, fd: int) returns (replies: seq<Reply>)
      requires Valid() && req.IntraReq?
      modifies this
      ensures Valid()
      ensures H.OnIntra(old(State()), req, fd) == Outcome(State(), {}, replies)
    {
      replies := [];
      if Held(lock, req.sender) || Held(lock, req.receiver) || Get(bal, req.sender) < req.amount {
        replies := [Reply(fd, req.id, Fail)];
        return;
      }
      for i := 0 to |log|
        invariant forall j :: 0 <= j < i ==> log[j].id != req.id
      {
        if log[i].id == req.id {
          replies := [Reply(fd, req.id, Fail)];
          return;
        }
      }
      Push(term, Intra(req.sender, req.receiver, req.amount), req.id, fd);
      lock := lock[req.sender := true][req.receiver := true];
    }

    method OnPrepare(req: Request, fd: int) returns (replies: seq<Reply>)
      requires Valid() && req.CrossReq?
      modifies this
      ensures Valid()
      ensures H.OnPrepare(old(State()), cluster, req, fd) == Outcome(State(), {}, replies)
    {
      replies := [];
      if (req.senderCluster == cluster && (Held(lock, req.sender) || Get(bal, req.sender) < req.amount))
         || (req.receiverCluster == cluster && Held(lock, req.receiver)) {
        replies := [Reply(fd, req.id, No)];
        return;
      }
      for i := 0 to |log|
        invariant forall j :: 0 <= j < i && log[j].id == req.id ==> !log[j].command.Prepare? && !log[j].command.Abort?
      {
        if log[i].id == req.id && (log[i].command.Prepare? || log[i].command.Abort?) {
          replies := [Reply(fd, req.id, No)];
          return;
        }
      }
      Push(term, Prepare(req.sender, req.receiver, req.amount), req.id, fd);
      if req.senderCluster == cluster {
        lock := lock[req.sender := true];
      }
      if req.receiverCluster == cluster {
        lock := lock[req.receiver := true];
      }
    }

    method OnCommit(req: Request, fd: int) returns (replies: seq<Reply>)
      requires Valid() && req.CrossReq?
      modifies this
      ensures Valid()
      ensures H.OnCommit(old(State()), cluster, req, fd) == Outcome(State(), {}, replies)
    {
      replies := [Reply(fd, req.id, Ack)];
      for i := 0 to |log|
        invariant forall j :: 0 <= j < i && log[j].id == req.id ==> !log[j].command.Commit?
      {
        if log[i].id == req.id && log[i].command.Commit? {
          return;
        }
      }
      Push(if role.Leader? then term else -1, Commit(req.sender, req.receiver, req.amount), req.id, -1);
      if req.senderCluster == cluster {
        bal := bal[req.sender := Get(bal, req.sender) - req.amount];
      }
      if req.receiverCluster == cluster {
        bal := bal[req.receiver := Get(bal, req.receiver) + req.amount];
      }
    }

    method OnAbort(req: Request, fd: int) returns (replies: seq<Reply>)
      requires Valid() && req.CrossReq?
      modifies this
      ensures Valid()
      ensures H.OnAbort(old(State()), req, fd) == Outcome(State(), {}, replies)
    {
      replies := [Reply(fd, req.id, Ack)];
      for i := 0 to |log|
        invariant forall j :: 0 <= j < i && log[j].id == req.id ==> !log[j].command.Abort?
      {
        if log[i].id == req.id && log[i].command.Abort? {
          return;
        }
      }
      Push(if role.Leader? then term else -1, Abort(req.sender, req.receiver, req.amount), req.id, -1);
    }

    /** A client request; those for other clusters are dropped. */
    method OnClient(req: Request, fd: int) returns (replies: seq<Reply>)
      requires Valid()
      modifies this
      ensures Valid()
      ensures H.OnClient(old(State()), cluster, req, fd) == Outcome(State(), {}, replies)
    {
      hide H.OnIntra, H.OnPrepare, H.OnCommit, H.OnAbort;
      replies := [];
      match req
      case IntraReq(c, _, _, _, _) =>
        if c == cluster { replies := OnIntra(req, fd); }
      case CrossReq(phase, sc, rc, _, _, _, _) =>
        if sc == cluster || rc == cluster {
          match phase
          case PreparePhase => replies := OnPrepare(req, fd);
          case CommitPhase => replies := OnCommit(req, fd);
          case AbortPhase => replies := OnAbort(req, fd);
        }
    }
  }
}
