/** The data of the sharded bank: log entries, messages between the servers of
    one cluster, client requests and replies, and the balance and lock tables. */
module Types {

  /** A server is named by its position in its cluster (server_id % 3). */
  type ServerId = n: nat | n < 3

  /** A log position, or -1 for "none". */
  type Index = i: int | -1 <= i witness -1

  /** The two servers that a broadcast of `self` reaches. */
  function FirstPeer(self: ServerId): ServerId { if self == 0 then 1 else 0 }
  function SecondPeer(self: ServerId): ServerId { if self == 2 then 1 else 2 }

  /** What a log command says.  Module CommandText shows that the printed form
      carries exactly this. */
  datatype Command =
    | Intra(sender: int, receiver: int, amount: int)
    | Prepare(sender: int, receiver: int, amount: int)
    | Commit(sender: int, receiver: int, amount: int)
    | Abort(sender: int, receiver: int, amount: int)
  {
    /** Commands that hold locks and have a client waiting for them. */
    predicate Holds() { Intra? || Prepare? }
  }

  datatype Entry = Entry(term: int, index: int, command: Command, id: int)

  datatype Role = Follower | Candidate | Leader

  /** The variables of one server.  `fds` is the req_fd column of the log. */
  datatype ServerState = ServerState(
    heard: bool, term: nat, votedFor: int, role: Role, votes: int,
    log: seq<Entry>, fds: seq<int>,
    granted: int, coming: Index, commit: Index, matched: seq<int>,
    bal: map<int, int>, lock: map<int, bool>)

  type Server = s: ServerState | |s.fds| == |s.log| && (s.role.Leader? ==> |s.matched| == 3)
    witness ServerState(false, 0, -1, Follower, 0, [], [], 0, -1, -1, [], map[], map[])

  /** A server at boot, with the balances of its shard file. */
  function Boot(init: map<int, int>): Server {
    ServerState(false, 0, -1, Follower, 0, [], [], 0, -1, -1, [], init, map[])
  }

  datatype Msg =
    | VoteReq(src: ServerId, dst: ServerId, term: nat, lastIndex: int, lastTerm: int)
    | VoteRsp(src: ServerId, dst: ServerId, term: nat, granted: bool)
    | AppendReq(src: ServerId, dst: ServerId, term: nat, prevIndex: Index, prevTerm: int,
                entries: seq<Entry>, commitIndex: Index)
    | AppendRsp(src: ServerId, dst: ServerId, term: nat, success: bool)

  datatype Phase = PreparePhase | CommitPhase | AbortPhase

  datatype Request =
    | IntraReq(cluster: int, sender: int, receiver: int, amount: int, id: int)
    | CrossReq(phase: Phase, senderCluster: int, receiverCluster: int,
               sender: int, receiver: int, amount: int, id: int)

  datatype Result = Success | Fail | Yes | No | Ack

  datatype Reply = Reply(fd: int, id: int, result: Result)

  /** What a handler leaves behind: the new server, the messages it sends to its
      peers and the replies it sends to clients. */
  datatype Outcome = Outcome(server: Server, msgs: set<Msg>, replies: seq<Reply>)

  /** The accounts of a shard. */
  predicate Local(cluster: int, account: int) {
    1000 * cluster < account <= 1000 * cluster + 1000
  }

  /** An account belongs to one shard, of a thousand accounts each, counted from 1. */
  lemma LocalIsShard(cluster: int, account: int)
    ensures Local(cluster, account) <==> (account - 1) / 1000 == cluster
  {
  }

  /** Requests as the client builds them: accounts belong to the named clusters
      and no amount is negative. */
  predicate WellFormed(req: Request) {
    && 0 <= req.amount
    && match req
       case IntraReq(c, s, r, _, _) => Local(c, s) && Local(c, r)
       case CrossReq(_, sc, rc, s, r, _, _) => Local(sc, s) && Local(rc, r)
  }

  /** The same in terms of the accounts' shards. */
  lemma WellFormedExactly(req: Request)
    ensures req.IntraReq? ==>
              (WellFormed(req) <==>
                 0 <= req.amount && (req.sender - 1) / 1000 == req.cluster == (req.receiver - 1) / 1000)
    ensures req.CrossReq? ==>
              (WellFormed(req) <==>
                 && 0 <= req.amount
                 && (req.sender - 1) / 1000 == req.senderCluster && (req.receiver - 1) / 1000 == req.receiverCluster)
  {
  }

  // Tables: an absent key reads as 0, or as unlocked.

  function Get(t: map<int, int>, a: int): int { if a in t then t[a] else 0 }

  function Held(l: map<int, bool>, a: int): bool { a in l && l[a] }

  function Add(t: map<int, int>, a: int, d: int): map<int, int> { t[a := Get(t, a) + d] }

  function Transfer(t: map<int, int>, s: int, r: int, amount: int): map<int, int> {
    Add(Add(t, s, -amount), r, amount)
  }

  /** The effect on the table of Raft-committing one entry: only intra-shard
      transfers move money at that point. */
  function ApplyEntry(t: map<int, int>, e: Entry): map<int, int> {
    if e.command.Intra? then Transfer(t, e.command.sender, e.command.receiver, e.command.amount) else t
  }

  function Fold(t: map<int, int>, entries: seq<Entry>): map<int, int> {
    if entries == [] then t
    else ApplyEntry(Fold(t, entries[..|entries| - 1]), entries[|entries| - 1])
  }

  function ReleaseEntry(l: map<int, bool>, e: Entry): map<int, bool> {
    if e.command.Holds() then l[e.command.sender := false][e.command.receiver := false] else l
  }

  function Release(l: map<int, bool>, entries: seq<Entry>): map<int, bool> {
    if entries == [] then l
    else ReleaseEntry(Release(l, entries[..|entries| - 1]), entries[|entries| - 1])
  }

  /** The part of a sequence from lo up to hi; empty when the range is. */
  function Slice<T>(s: seq<T>, lo: int, hi: int): seq<T> {
    if 0 <= lo <= hi <= |s| then s[lo..hi] else []
  }

  /** The sum of the balances of the accounts lo, .., hi - 1. */
  function Sum(t: map<int, int>, lo: int, hi: int): int
    decreases hi - lo
  {
    if hi <= lo then 0 else Sum(t, lo, hi - 1) + Get(t, hi - 1)
  }

  /** The money of a shard. */
  function Total(t: map<int, int>, cluster: int): int {
    Sum(t, 1000 * cluster + 1, 1000 * cluster + 1001)
  }
}
