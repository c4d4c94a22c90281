/** One cluster of three servers and the network between them.  Every message
    ever sent stays available: it may be delivered late, repeatedly, in any
    order, or never.  A server that pretends to fail is one that takes no step. */
module Cluster {
  import opened Types
  import opened Handlers

  datatype System = System(cluster: int, servers: seq<Server>, sent: set<Msg>, replies: seq<Reply>)

  type Sys = s: System | |s.servers| == 3
    witness System(0, [Boot(map[]), Boot(map[]), Boot(map[])], {}, [])

  datatype Step =
    | Timeout(at: ServerId)
    | Deliver(msg: Msg)
    | Client(at: ServerId, req: Request, fd: int)

  function Actor(step: Step): ServerId {
    match step
    case Timeout(i) => i
    case Deliver(m) => m.dst
    case Client(i, _, _) => i
  }

  /** A step can be taken when its message was sent.  A leader's broadcast also
      needs matched sizes that are not negative: the C++ code would index its
      log before the start. */
  predicate Enabled(s: Sys, step: Step) {
    match step
    case Timeout(i) => s.servers[i].role.Leader? ==> CanBroadcast(s.servers[i], i)
    case Deliver(m) =>
      && m in s.sent
      && (m.VoteRsp? ==>
            var sv := CountVote(s.servers[m.dst], m);
            sv.role.Leader? ==> CanBroadcast(sv, m.dst))
    case Client(_, _, _) => true
  }

  function Act(s: Sys, step: Step): Outcome
    requires Enabled(s, step)
  {
    match step
    case Timeout(i) => OnTimeout(s.servers[i], i)
    case Deliver(m) =>
      (match m
       case VoteReq(_, i, _, _, _) => OnVoteReq(s.servers[i], m)
       case VoteRsp(_, i, _, _) => OnVoteRsp(s.servers[i], m)
       case AppendReq(_, i, _, _, _, _, _) => OnAppendReq(s.servers[i], m)
       case AppendRsp(_, i, _, _) => OnAppendRsp(s.servers[i], m))
    case Client(i, req, fd) => OnClient(s.servers[i], s.cluster, req, fd)
  }

  function Apply(s: Sys, step: Step): Sys
    requires Enabled(s, step)
  {
    var o := Act(s, step);
    s.(servers := s.servers[Actor(step) := o.server], sent := s.sent + o.msgs, replies := s.replies + o.replies)
  }

  predicate Init(s: Sys, init: map<int, int>) {
    s.servers == [Boot(init), Boot(init), Boot(init)] && s.sent == {} && s.replies == []
  }

  /** states[k] is the system before steps[k]. */
  ghost predicate IsRun(states: seq<Sys>, steps: seq<Step>, init: map<int, int>) {
    && |states| == |steps| + 1
    && Init(states[0], init)
    && forall k :: 0 <= k < |steps| ==> Enabled(states[k], steps[k]) && states[k + 1] == Apply(states[k], steps[k])
  }
}
