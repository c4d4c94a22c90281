/** The message handlers of one server, each as a function from the server's
    variables to its outcome.  Class RaftServer runs them in place. */
module Handlers {
  import opened Types

  function LastIndex(log: seq<Entry>): int { if log == [] then -1 else log[|log| - 1].index }

  function LastTerm(log: seq<Entry>): int { if log == [] then -1 else log[|log| - 1].term }

  // ---- Elections --------------------------------------------------------

  function BroadcastVote(s: Server, self: ServerId): Outcome {
    var s' := s.(role := Candidate, term := s.term + 1, votedFor := self, votes := 1);
    Outcome(s', {VoteReqTo(s', self, FirstPeer(self)), VoteReqTo(s', self, SecondPeer(self))}, [])
  }

  function VoteReqTo(s: Server, self: ServerId, p: ServerId): Msg {
    VoteReq(self, p, s.term, LastIndex(s.log), LastTerm(s.log))
  }

  function OnVoteReq(s: Server, m: Msg): Outcome
    requires m.VoteReq?
  {
    if m.term < s.term || (m.term == s.term && m.lastIndex <= LastIndex(s.log)) then
      Outcome(s, {VoteRsp(m.dst, m.src, s.term, false)}, [])
    else
      var s1 := if m.term > s.term then s.(term := m.term, votedFor := -1) else s;
      if s1.votedFor == -1 then
        Outcome(s1.(votedFor := m.src, role := Follower, heard := true),
                {VoteRsp(m.dst, m.src, s1.term, true)}, [])
      else
        Outcome(s1, {VoteRsp(m.dst, m.src, s1.term, false)}, [])
  }

  function CountVote(s: Server, m: Msg): Server
    requires m.VoteRsp?
  {
    var s1 :=
      if s.role.Candidate? && m.term == s.term && m.granted then
        var t := s.(votes := s.votes + 1);
        if t.votes >= 2 then t.(role := Leader, matched := [|t.log|, |t.log|, |t.log|]) else t
      else s;
    if m.term > s1.term then s1.(term := m.term, role := Follower) else s1
  }

  /** A vote response, then the heartbeat that `process` sends at once when the
      server is (or already was) the leader. */
  function OnVoteRsp(s: Server, m: Msg): Outcome
    requires m.VoteRsp?
    requires CountVote(s, m).role.Leader? ==> CanBroadcast(CountVote(s, m), m.dst)
  {
    var s1 := CountVote(s, m);
    if s1.role.Leader? then Heartbeat(s1, m.dst) else Outcome(s1, {}, [])
  }

  // ---- Replication ------------------------------------------------------

  /** The matched sizes that a broadcast reads are not negative. */
  predicate CanBroadcast(s: Server, self: ServerId) {
    |s.matched| == 3 && s.matched[FirstPeer(self)] >= 0 && s.matched[SecondPeer(self)] >= 0
  }

  function PrevTerm(s: Server, p: ServerId): int
    requires |s.matched| == 3
  {
    if 0 < s.matched[p] <= |s.log| then s.log[s.matched[p] - 1].term else -1
  }

  function AppendReqTo(s: Server, self: ServerId, p: ServerId): Msg
    requires |s.matched| == 3 && s.matched[p] >= 0
  {
    AppendReq(self, p, s.term, s.matched[p] - 1, PrevTerm(s, p),
              Slice(s.log, s.matched[p], |s.log|), s.commit)
  }

  function Heartbeat(s: Server, self: ServerId): Outcome
    requires CanBroadcast(s, self)
  {
    var s' := s.(coming := |s.log| - 1);
    Outcome(s', {AppendReqTo(s', self, FirstPeer(self)), AppendReqTo(s', self, SecondPeer(self))}, [])
  }

  function OnTimeout(s: Server, self: ServerId): Outcome
    requires s.role.Leader? ==> CanBroadcast(s, self)
  {
    match s.role
    case Follower =>
      if s.heard then Outcome(s.(heard := false), {}, [])
      else var o := BroadcastVote(s, self); o.(server := o.server.(heard := false))
    case Candidate => BroadcastVote(s, self)
    case Leader => Heartbeat(s, self)
  }

  /** The first entry, from `idx` on, that the log does not already hold at its
      place: past the end, or with another term. */
  function FirstMismatch(log: seq<Entry>, base: nat, entries: seq<Entry>, idx: nat): (r: nat)
    requires idx <= |entries|
    ensures idx <= r <= |entries|
    ensures idx < r ==> base + r <= |log|
    ensures forall j {:trigger entries[j]} :: idx <= j < r ==> entries[j].term == log[base + j].term
    ensures r < |entries| ==> |log| <= base + r || log[base + r].term != entries[r].term
    decreases |entries| - idx
  {
    if idx == |entries| || |log| <= base + idx || log[base + idx].term != entries[idx].term then idx
    else FirstMismatch(log, base, entries, idx + 1)
  }

  /** Drop what conflicts with the received entries, then copy the rest of them. */
  function Merge(log: seq<Entry>, base: nat, entries: seq<Entry>): seq<Entry>
    requires base <= |log|
  {
    var k := FirstMismatch(log, base, entries, 0);
    if k == |entries| then log else log[..base + k] + entries[k..]
  }

  function MergeFds(log: seq<Entry>, fds: seq<int>, base: nat, entries: seq<Entry>): (r: seq<int>)
    requires base <= |log| == |fds|
    ensures |r| == |Merge(log, base, entries)|
  {
    var k := FirstMismatch(log, base, entries, 0);
    if k == |entries| then fds else fds[..base + k] + seq(|entries| - k, _ => -1)
  }

  /** The consistency check on the entry before the new ones. */
  predicate Accepts(log: seq<Entry>, prevIndex: Index, prevTerm: int) {
    prevIndex < |log| && (prevIndex >= 0 ==> log[prevIndex].term == prevTerm)
  }

  /** Take over the entries, then pay the transfers up to the leader's commit index. */
  function Adopt(s: Server, m: Msg): Server
    requires m.AppendReq? && m.prevIndex < |s.log|
  {
    var log := Merge(s.log, m.prevIndex + 1, m.entries);
    s.(log := log,
       fds := MergeFds(s.log, s.fds, m.prevIndex + 1, m.entries),
       bal := Fold(s.bal, Slice(log, s.commit + 1, m.commitIndex + 1)),
       commit := m.commitIndex)
  }

  function OnAppendReq(s: Server, m: Msg): Outcome
    requires m.AppendReq?
  {
    if m.term < s.term then
      Outcome(s, {AppendRsp(m.dst, m.src, s.term, false)}, [])
    else
      var s1 := s.(term := m.term, role := Follower, heard := true);
      if !Accepts(s.log, m.prevIndex, m.prevTerm) then
        Outcome(s1, {AppendRsp(m.dst, m.src, s1.term, false)}, [])
      else
        Outcome(Adopt(s1, m), {AppendRsp(m.dst, m.src, s1.term, true)}, [])
  }

  /** The replies owed to the clients that wait on the given entries. */
  function Answers(entries: seq<Entry>, fds: seq<int>): seq<Reply>
    requires |entries| == |fds|
  {
    if entries == [] then []
    else
      var n := |entries| - 1;
      Answers(entries[..n], fds[..n]) + Answer(entries[n], fds[n])
  }

  function Answer(e: Entry, fd: int): seq<Reply> {
    if fd == -1 || !e.command.Holds() then []
    else [Reply(fd, e.id, if e.command.Prepare? then Yes else Success)]
  }

  function Cleared(log: seq<Entry>, fds: seq<int>, lo: int, hi: int): (r: seq<int>)
    requires |log| == |fds|
    ensures |r| == |fds|
  {
    seq(|fds|, i requires 0 <= i < |fds| => if lo <= i < hi && log[i].command.Holds() then -1 else fds[i])
  }

  /** Raft-commit everything up to the coming commit index. */
  function CommitComing(s: Server): Outcome {
    var lo, hi := s.commit + 1, s.coming + 1;
    var batch := Slice(s.log, lo, hi);
    Outcome(s.(bal := Fold(s.bal, batch), lock := Release(s.lock, batch),
               fds := Cleared(s.log, s.fds, lo, hi), commit := s.coming),
            {}, Answers(batch, Slice(s.fds, lo, hi)))
  }

  predicate MayCommit(s: Server) {
    s.granted >= 2 && 0 <= s.coming < |s.log| && s.log[s.coming].term == s.term
  }

  function OnAppendRsp(s: Server, m: Msg): Outcome
    requires m.AppendRsp?
  {
    if s.role.Leader? && m.term == s.term then
      if m.success then
        var s1 := s.(granted := s.granted + 1);
        var o := if MayCommit(s1) then CommitComing(s1) else Outcome(s1, {}, []);
        o.(server := o.server.(matched := s.matched[m.src := s.coming + 1]))
      else
        Outcome(s.(matched := s.matched[m.src := s.matched[m.src] - 1]), {}, [])
    else if m.term > s.term then
      Outcome(s.(term := m.term, role := Follower), {}, [])
    else
      Outcome(s, {}, [])
  }

  // ---- Client requests --------------------------------------------------

  predicate HasId(log: seq<Entry>, id: int) {
    exists i :: 0 <= i < |log| && log[i].id == id
  }

  predicate HasPrepare(log: seq<Entry>, id: int) {
    exists i :: 0 <= i < |log| && log[i].id == id && log[i].command.Prepare?
  }

  predicate HasCommit(log: seq<Entry>, id: int) {
    exists i :: 0 <= i < |log| && log[i].id == id && log[i].command.Commit?
  }

  predicate HasAbort(log: seq<Entry>, id: int) {
    exists i :: 0 <= i < |log| && log[i].id == id && log[i].command.Abort?
  }

  function Append(s: Server, term: int, command: Command, id: int, fd: int): Server {
    s.(log := s.log + [Entry(term, |s.log|, command, id)], fds := s.fds + [fd])
  }

  function OnIntra(s: Server, req: Request, fd: int): Outcome
    requires req.IntraReq?
  {
    if Held(s.lock, req.sender) || Held(s.lock, req.receiver) || Get(s.bal, req.sender) < req.amount
       || HasId(s.log, req.id) then
      Outcome(s, {}, [Reply(fd, req.id, Fail)])
    else
      var s1 := Append(s, s.term, Intra(req.sender, req.receiver, req.amount), req.id, fd);
      Outcome(s1.(lock := s.lock[req.sender := true][req.receiver := true]), {}, [])
  }

  /** Why a prepare is refused: a local account is locked, the local sender is
      short of money, or the id was already prepared or aborted. */
  predicate Refuses(s: Server, cluster: int, req: Request)
    requires req.CrossReq?
  {
    || (req.senderCluster == cluster && (Held(s.lock, req.sender) || Get(s.bal, req.sender) < req.amount))
    || (req.receiverCluster == cluster && Held(s.lock, req.receiver))
    || HasPrepare(s.log, req.id) || HasAbort(s.log, req.id)
  }

  function OnPrepare(s: Server, cluster: int, req: Request, fd: int): Outcome
    requires req.CrossReq?
  {
    if Refuses(s, cluster, req) then
      Outcome(s, {}, [Reply(fd, req.id, No)])
    else
      var s1 := Append(s, s.term, Prepare(req.sender, req.receiver, req.amount), req.id, fd);
      var l1 := if req.senderCluster == cluster then s.lock[req.sender := true] else s.lock;
      var l2 := if req.receiverCluster == cluster then l1[req.receiver := true] else l1;
      Outcome(s1.(lock := l2), {}, [])
  }

  function EntryTerm(s: Server): int { if s.role.Leader? then s.term else -1 }

  function CrossApply(t: map<int, int>, cluster: int, req: Request): map<int, int>
    requires req.CrossReq?
  {
    var t1 := if req.senderCluster == cluster then Add(t, req.sender, -req.amount) else t;
    if req.receiverCluster == cluster then Add(t1, req.receiver, req.amount) else t1
  }

  function OnCommit(s: Server, cluster: int, req: Request, fd: int): Outcome
    requires req.CrossReq?
  {
    var s' :=
      if HasCommit(s.log, req.id) then s
      else
        var s1 := Append(s, EntryTerm(s), Commit(req.sender, req.receiver, req.amount), req.id, -1);
        s1.(bal := CrossApply(s.bal, cluster, req));
    Outcome(s', {}, [Reply(fd, req.id, Ack)])
  }

  function OnAbort(s: Server, req: Request, fd: int): Outcome
    requires req.CrossReq?
  {
    var s' :=
      if HasAbort(s.log, req.id) then s
      else Append(s, EntryTerm(s), Abort(req.sender, req.receiver, req.amount), req.id, -1);
    Outcome(s', {}, [Reply(fd, req.id, Ack)])
  }

  /** Dispatch of a client request; requests for other clusters are dropped. */
  function OnClient(s: Server, cluster: int, req: Request, fd: int): Outcome {
    match req
    case IntraReq(c, _, _, _, _) =>
      if c == cluster then OnIntra(s, req, fd) else Outcome(s, {}, [])
    case CrossReq(phase, sc, rc, _, _, _, _) =>
      if sc != cluster && rc != cluster then Outcome(s, {}, [])
      else match phase
           case PreparePhase => OnPrepare(s, cluster, req, fd)
           case CommitPhase => OnCommit(s, cluster, req, fd)
           case AbortPhase => OnAbort(s, req, fd)
  }
}
