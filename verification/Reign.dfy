/** Whole runs of a stable leader: what replicas agree on, what is durable, and
    what the leader promises its clients. */
module ReignRuns {
  import opened Types
  import opened Handlers
  import opened Cluster
  import opened LogSafety
  import opened LogMatching
  import opened Leader
  import opened Requests
  import opened Replies
  import opened Epoch

  ghost predicate FullInv(c: Reign, init: map<int, int>, s: Sys) {
    && EpochInv(c, s)
    && LeaderInv(s.cluster, init, s.servers[c.leader])
    && AnsweredOnce(s.servers[c.leader], s.replies)
    && RepliesTrue(s.servers[c.leader], s.replies)
  }

  /** Every request comes on a connection of its own. */
  ghost predicate OwnConnection(c: Reign, s: Sys, step: EpochStep) {
    step.Ask? ==> Fresh(s.servers[c.leader], s.replies, step.fd)
  }

  ghost predicate CanStep(c: Reign, s: Sys, step: EpochStep) {
    EpochEnabled(c, s, step) && OwnConnection(c, s, step)
  }

  lemma CanStepEnabled(c: Reign, s: Sys, step: EpochStep)
    requires CanStep(c, s, step)
    ensures EpochEnabled(c, s, step)
  {
  }

  lemma LeaderStep(c: Reign, init: map<int, int>, s: Sys, step: EpochStep)
    requires FullInv(c, init, s) && CanStep(c, s, step)
    ensures LeaderInv(s.cluster, init, EpochApply(c, s, step).servers[c.leader])
  {
    hide OnAppendReq, OnAppendRsp, OnClient, AnsweredOnce, RepliesTrue, LeaderInv, FollowerOk, Durable;
    var l := s.servers[c.leader];
    match step
    case Beat => SameView(s.cluster, init, l, Heartbeat(l, c.leader).server);
    case Hear(m) =>
      assert InRound(c, l, s.servers[Peer(m)], m);
      if m.AppendRsp? { AppendRspKeeps(s.cluster, init, l, m); }
    case Ask(at, req, fd) =>
      if at == c.leader { ClientKeeps(s.cluster, init, l, req, fd); }
  }

  /** A COMMIT or ABORT at a follower is answered there at once. */
  lemma FollowerReplies(f: Server, cluster: int, req: Request, fd: int, l: Server, replies: seq<Reply>)
    requires !ForLeader(req) && AnsweredOnce(l, replies) && RepliesTrue(l, replies) && Fresh(l, replies, fd)
    ensures var all := replies + OnClient(f, cluster, req, fd).replies; AnsweredOnce(l, all) && RepliesTrue(l, all)
  {
    hide OnClient, AnsweredOnce, RepliesTrue, Appended;
    var o := OnClient(f, cluster, req, fd);
    ClientHasShape(f, cluster, req, fd);
    if o.replies == [] {
      assert replies + o.replies == replies;
    } else {
      ReplyFresh(l, replies, o.replies[0]);
      assert o.replies == [o.replies[0]];
    }
  }

  lemma ReplyStep(c: Reign, init: map<int, int>, s: Sys, step: EpochStep)
    requires FullInv(c, init, s) && CanStep(c, s, step)
    ensures var s' := EpochApply(c, s, step);
            AnsweredOnce(s'.servers[c.leader], s'.replies) && RepliesTrue(s'.servers[c.leader], s'.replies)
  {
    hide OnAppendReq, OnAppendRsp, OnClient, AnsweredOnce, RepliesTrue, LeaderInv, FollowerOk, Durable;
    var l := s.servers[c.leader];
    match step
    case Beat =>
      assert s.replies + [] == s.replies;
      SameReplies(l, Heartbeat(l, c.leader).server, s.replies);
    case Hear(m) =>
      assert InRound(c, l, s.servers[Peer(m)], m);
      if m.AppendRsp? {
        AppendRspReplies(l, m, s.replies);
      } else {
        RequestMoves(s.servers[m.dst], m);
        assert s.replies + [] == s.replies;
      }
    case Ask(at, req, fd) =>
      if at == c.leader {
        ClientReplies(l, s.cluster, req, fd, s.replies);
      } else {
        FollowerReplies(s.servers[at], s.cluster, req, fd, l, s.replies);
      }
  }

  lemma StepShard(c: Reign, s: Sys, step: EpochStep)
    requires EpochEnabled(c, s, step)
    ensures EpochApply(c, s, step).cluster == s.cluster
  {
  }

  lemma FullStep(c: Reign, init: map<int, int>, s: Sys, step: EpochStep)
    requires FullInv(c, init, s) && CanStep(c, s, step)
    ensures FullInv(c, init, EpochApply(c, s, step)) && EpochApply(c, s, step).cluster == s.cluster
  {
    assert EpochApply(c, s, step).cluster == s.cluster by { StepShard(c, s, step); }
    hide EpochEnabled, EpochApply, EpochInv, LeaderInv, AnsweredOnce, RepliesTrue;
    EpochKeeps(c, s, step);
    LeaderStep(c, init, s, step);
    ReplyStep(c, init, s, step);
  }

  /** Under the round discipline no matched size is ever negative, so the
      leader can always broadcast. */
  lemma BeatAlwaysPossible(c: Reign, s: Sys)
    requires EpochInv(c, s)
    ensures EpochEnabled(c, s, Beat)
  {
  }

  // ---- Runs ---------------------------------------------------------------

  ghost predicate IsReign(c: Reign, init: map<int, int>, states: seq<Sys>, steps: seq<EpochStep>) {
    && |states| == |steps| + 1
    && FullInv(c, init, states[0]) && states[0].sent == {}
    && forall k :: 0 <= k < |steps| ==>
         CanStep(c, states[k], steps[k]) && states[k + 1] == EpochApply(c, states[k], steps[k])
  }

  /** Throughout the reign: locks are exact, pending entries share no account,
      balances are a function of the log, ids are used once per phase, every
      connection is answered at most once and truthfully. */
  lemma ReignKeeps(c: Reign, init: map<int, int>, states: seq<Sys>, steps: seq<EpochStep>, k: nat)
    requires IsReign(c, init, states, steps) && k < |states|
    ensures FullInv(c, init, states[k]) && states[k].cluster == states[0].cluster
  {
    hide FullInv, CanStep, EpochEnabled, EpochApply;
    if k > 0 {
      ReignKeeps(c, init, states, steps, k - 1);
      FullStep(c, init, states[k - 1], steps[k - 1]);
    }
  }

  // ---- Majority durability ------------------------------------------------

  /** What only ever grows: the leader's log and commit index, and what each
      follower holds of that log. */
  ghost predicate Forward(c: Reign, s: Sys, s': Sys) {
    && s.servers[c.leader].log <= s'.servers[c.leader].log
    && s.servers[c.leader].commit <= s'.servers[c.leader].commit
    && forall f: ServerId, n: int :: f != c.leader && HasPrefix(s.servers[f].log, s.servers[c.leader].log, n) ==>
         HasPrefix(s'.servers[f].log, s'.servers[c.leader].log, n)
  }

  lemma LongerLeader(f: seq<Entry>, l: seq<Entry>, l': seq<Entry>)
    requires l <= l'
    ensures forall n :: HasPrefix(f, l, n) ==> HasPrefix(f, l', n)
  {
    forall n | HasPrefix(f, l, n) ensures HasPrefix(f, l', n) {
      assert l'[..n] == l[..n];
    }
  }

  /** The leader's part and the acting follower's part of a step. */
  lemma StepForward(c: Reign, s: Sys, step: EpochStep)
    requires EpochInv(c, s) && EpochEnabled(c, s, step)
    ensures Forward(c, s, EpochApply(c, s, step))
  {
    hide OnAppendReq, OnAppendRsp, OnClient, HasPrefix, InRange, Agree, Quotes;
    var s' := EpochApply(c, s, step);
    var l := s.servers[c.leader];
    match step {
      case Beat =>
      case Hear(m) =>
        var f := s.servers[Peer(m)];
        assert InRound(c, l, f, m);
        if m.AppendReq? { HearReqFollower(c, l, f, m); } else { HearRspLeader(c, l, f, m); }
      case Ask(at, req, fd) =>
        var sv := s.servers[at];
        ClientGrows(sv, s.cluster, req, fd);
        if at != c.leader { FollowerGrows(c, l, sv, s'.servers[at], EntryFor(sv, req)); }
    }
    PrefixesForward(c, s, s');
  }

  lemma PrefixesForward(c: Reign, s: Sys, s': Sys)
    requires s.servers[c.leader].log <= s'.servers[c.leader].log
    requires s.servers[c.leader].commit <= s'.servers[c.leader].commit
    requires forall f: ServerId :: f != c.leader ==>
               s'.servers[f].log == s.servers[f].log || KeepsPrefixes(s.servers[c.leader], s.servers[f], s'.servers[f])
    ensures Forward(c, s, s')
  {
    hide HasPrefix;
    var l, l' := s.servers[c.leader], s'.servers[c.leader];
    forall f: ServerId | f != c.leader
      ensures forall n :: HasPrefix(s.servers[f].log, l.log, n) ==> HasPrefix(s'.servers[f].log, l'.log, n)
    {
      LongerLeader(s'.servers[f].log, l.log, l'.log);
    }
  }

  lemma ForwardSelf(c: Reign, s: Sys)
    ensures Forward(c, s, s)
  {
  }

  lemma ForwardTwice(c: Reign, s: Sys, s1: Sys, s2: Sys)
    requires Forward(c, s, s1) && Forward(c, s1, s2)
    ensures Forward(c, s, s2)
  {
    hide HasPrefix;
  }

  lemma FullParts(c: Reign, init: map<int, int>, s: Sys)
    requires FullInv(c, init, s)
    ensures EpochInv(c, s) && LeaderInv(s.cluster, init, s.servers[c.leader])
  {
  }

  /** What the run lemmas need of one moment of a reign. */
  lemma ReignAt(c: Reign, init: map<int, int>, states: seq<Sys>, steps: seq<EpochStep>, k: nat)
    requires IsReign(c, init, states, steps) && k < |states|
    ensures EpochInv(c, states[k]) && LeaderInv(states[k].cluster, init, states[k].servers[c.leader])
    ensures states[k].cluster == states[0].cluster
    ensures k < |steps| ==> EpochEnabled(c, states[k], steps[k]) && states[k + 1] == EpochApply(c, states[k], steps[k])
  {
    hide FullInv, EpochEnabled, EpochApply, OwnConnection;
    ReignKeeps(c, init, states, steps, k);
    FullParts(c, init, states[k]);
  }

  lemma ReignStart(c: Reign, init: map<int, int>, states: seq<Sys>, steps: seq<EpochStep>)
    requires IsReign(c, init, states, steps)
    ensures |states| == |steps| + 1 && states[0].sent == {}
  {
    hide FullInv, EpochApply, CanStep;
  }

  lemma ReignForward(c: Reign, init: map<int, int>, states: seq<Sys>, steps: seq<EpochStep>, j: nat, k: nat)
    requires IsReign(c, init, states, steps) && j <= k < |states|
    ensures Forward(c, states[j], states[k])
    decreases k - j
  {
    hide IsReign, Forward, EpochInv, EpochEnabled, EpochApply, LeaderInv;
    if j < k {
      assert |states| == |steps| + 1 by { ReignStart(c, init, states, steps); }
      ReignForward(c, init, states, steps, j, k - 1);
      ReignAt(c, init, states, steps, k - 1);
      StepForward(c, states[k - 1], steps[k - 1]);
      ForwardTwice(c, states[j], states[k - 1], states[k]);
    } else {
      ForwardSelf(c, states[j]);
    }
  }

  /** From moment j on the log of server i begins with the given entries. */
  ghost predicate Kept(entries: seq<Entry>, states: seq<Sys>, j: nat, i: ServerId) {
    forall k :: j <= k < |states| ==> entries <= states[k].servers[i].log
  }

  /** Whatever the leader has Raft-committed at moment j begins, from then on,
      its log and that of one and the same follower: two of the three servers. */
  lemma MajorityDurability(c: Reign, init: map<int, int>, states: seq<Sys>, steps: seq<EpochStep>, j: nat)
    requires IsReign(c, init, states, steps) && j < |states|
    ensures var l := states[j].servers[c.leader]; var committed := Slice(l.log, 0, l.commit + 1);
            && |committed| == l.commit + 1
            && Kept(committed, states, j, c.leader)
            && (committed != [] ==> exists f: ServerId :: f != c.leader && Kept(committed, states, j, f))
  {
    hide IsReign, FollowerOk, RoundOk, LeaderInv, EpochEnabled, EpochApply;
    ReignAt(c, init, states, steps, j);
    var l := states[j].servers[c.leader];
    var n := l.commit + 1;
    var committed := l.log[..n];
    forall k | j <= k < |states| ensures committed <= states[k].servers[c.leader].log {
      ReignForward(c, init, states, steps, j, k);
    }
    if n > 0 {
      var f: ServerId :| f != c.leader && HasPrefix(states[j].servers[f].log, l.log, n);
      forall k | j <= k < |states| ensures committed <= states[k].servers[f].log {
        ReignForward(c, init, states, steps, j, k);
        assert HasPrefix(states[k].servers[f].log, states[k].servers[c.leader].log, n);
      }
      assert Kept(committed, states, j, f);
    }
  }

  // ---- Late prepares ------------------------------------------------------

  /** Once the leader logged the ABORT of an id, any later PREPARE of that id is
      answered NO and changes nothing. */
  lemma LatePrepareRefused(c: Reign, init: map<int, int>, states: seq<Sys>, steps: seq<EpochStep>,
                           j: nat, k: nat, req: Request, fd: int)
    requires IsReign(c, init, states, steps) && j <= k < |states|
    requires req.CrossReq? && req.phase.PreparePhase? && Concerns(req, states[k].cluster)
    requires HasAbort(states[j].servers[c.leader].log, req.id)
    ensures var l := states[k].servers[c.leader];
            OnClient(l, states[k].cluster, req, fd) == Outcome(l, {}, [Reply(fd, req.id, No)])
  {
    hide IsReign;
    ReignForward(c, init, states, steps, j, k);
    var early, log := states[j].servers[c.leader].log, states[k].servers[c.leader].log;
    var i :| 0 <= i < |early| && early[i].id == req.id && early[i].command.Abort?;
    assert log[i] == early[i];
  }

  // ---- Replica agreement --------------------------------------------------

  /** The COMMIT entries whose effect each follower took directly, in order,
      those before the reign included. */
  function PaidStep(c: Reign, s: Sys, step: EpochStep, s': Sys, paid: seq<seq<Entry>>): seq<seq<Entry>>
    requires |paid| == 3
  {
    if step.Ask? && |s.servers[step.at].log| < |s'.servers[step.at].log|
    then paid[step.at := paid[step.at] + [s'.servers[step.at].log[|s.servers[step.at].log|]]]
    else paid
  }

  function PaidAt(c: Reign, states: seq<Sys>, steps: seq<EpochStep>, paid0: seq<seq<Entry>>,
                  k: nat): (p: seq<seq<Entry>>)
    requires |states| == |steps| + 1 && k <= |steps| && |paid0| == 3
    ensures |p| == 3
  {
    if k == 0 then paid0
    else PaidStep(c, states[k - 1], steps[k - 1], states[k], PaidAt(c, states, steps, paid0, k - 1))
  }

  /** The intra-shard part of a replica's balances is what its committed
      prefix says; the rest is what it took directly from COMMITs. */
  ghost predicate FollowerBooks(cluster: int, init: map<int, int>, f: Server, paid: seq<Entry>) {
    && f.commit < |f.log|
    && forall a :: Get(f.bal, a) == Get(init, a) + IntraSum(f.log[..f.commit + 1], a) + CrossSum(cluster, paid, a)
  }

  ghost predicate Books(c: Reign, init: map<int, int>, s: Sys, paid: seq<seq<Entry>>) {
    |paid| == 3 && forall f: ServerId :: f != c.leader ==> FollowerBooks(s.cluster, init, s.servers[f], paid[f])
  }

  lemma AdvancedBooks(cluster: int, init: map<int, int>, f: Server, f': Server, paid: seq<Entry>)
    requires FollowerBooks(cluster, init, f, paid) && f.commit <= f'.commit < |f'.log|
    requires f'.log[..f.commit + 1] == f.log[..f.commit + 1]
    requires f'.bal == Fold(f.bal, f'.log[f.commit + 1..f'.commit + 1])
    ensures FollowerBooks(cluster, init, f', paid)
  {
    var lo, hi := f.commit + 1, f'.commit + 1;
    assert f'.log[..hi] == f.log[..lo] + f'.log[lo..hi];
    forall a ensures Get(f'.bal, a) == Get(init, a) + IntraSum(f'.log[..hi], a) + CrossSum(cluster, paid, a) {
      FoldIsSum(f.bal, f'.log[lo..hi], a);
      IntraSumConcat(f.log[..lo], f'.log[lo..hi], a);
    }
  }

  lemma AcceptedBooks(c: Reign, init: map<int, int>, cluster: int, l: Server,
                      f: Server, f': Server, m: Msg, paid: seq<Entry>)
    requires FollowerOk(c, l, f) && m.AppendReq? && ReqEffect(c, l, f, f', m)
    requires FollowerBooks(cluster, init, f, paid)
    requires if Accepts(f.log, m.prevIndex, m.prevTerm)
             then f'.bal == Fold(f.bal, Slice(f'.log, f.commit + 1, f'.commit + 1)) else f'.bal == f.bal
    ensures FollowerBooks(cluster, init, f', paid)
  {
    if Accepts(f.log, m.prevIndex, m.prevTerm) {
      PrefixShorter(f'.log, l.log, f'.commit + 1, f.commit + 1);
      AdvancedBooks(cluster, init, f, f', paid);
    }
  }

  lemma HearBooks(c: Reign, init: map<int, int>, cluster: int, l: Server, f: Server, m: Msg, paid: seq<Entry>)
    requires LeaderOk(c, l) && FollowerOk(c, l, f) && m.AppendReq? && InRound(c, l, f, m)
    requires FollowerBooks(cluster, init, f, paid) && f.term <= m.term
    ensures FollowerBooks(cluster, init, OnAppendReq(f, m).server, paid)
  {
    hide *;
    HearReqFollower(c, l, f, m);
    RequestMoves(f, m);
    AcceptedBooks(c, init, cluster, l, f, OnAppendReq(f, m).server, m, paid);
  }

  lemma AskedBooks(cluster: int, init: map<int, int>, f: Server, f': Server, e: Entry, paid: seq<Entry>)
    requires FollowerBooks(cluster, init, f, paid) && f'.log == f.log + [e] && f'.commit == f.commit
    requires forall a :: Get(f'.bal, a) == Get(f.bal, a) + CrossDelta(cluster, e.command, a)
    ensures FollowerBooks(cluster, init, f', paid + [e])
  {
    assert f'.log[..f'.commit + 1] == f.log[..f.commit + 1];
    assert (paid + [e])[..|paid + [e]| - 1] == paid;
  }

  lemma DecisionBooks(f: Server, cluster: int, init: map<int, int>, req: Request, fd: int, paid: seq<Entry>)
    requires WellFormed(req) && FollowerBooks(cluster, init, f, paid)
    ensures var f' := OnClient(f, cluster, req, fd).server;
            FollowerBooks(cluster, init, f', if |f.log| < |f'.log| then paid + [f'.log[|f.log|]] else paid)
  {
    hide OnClient, FollowerBooks;
    ClientGrows(f, cluster, req, fd);
    ClientBalances(cluster, f, req, fd);
    var f' := OnClient(f, cluster, req, fd).server;
    if f' != f { AskedBooks(cluster, init, f, f', EntryFor(f, req), paid); }
  }

  lemma BooksStep(c: Reign, init: map<int, int>, s: Sys, step: EpochStep, paid: seq<seq<Entry>>)
    requires EpochInv(c, s) && EpochEnabled(c, s, step) && Books(c, init, s, paid)
    ensures var s' := EpochApply(c, s, step); Books(c, init, s', PaidStep(c, s, step, s', paid))
  {
    hide OnAppendReq, OnAppendRsp, OnClient, FollowerBooks, Durable, HasPrefix, Agree, Quotes, InRange;
    var s' := EpochApply(c, s, step);
    var l := s.servers[c.leader];
    var paid' := PaidStep(c, s, step, s', paid);
    match step {
      case Beat =>
      case Hear(m) =>
        assert InRound(c, l, s.servers[Peer(m)], m);
        if m.AppendReq? { HearBooks(c, init, s.cluster, l, s.servers[m.dst], m, paid[m.dst]); }
      case Ask(at, req, fd) =>
        if at != c.leader { DecisionBooks(s.servers[at], s.cluster, init, req, fd, paid[at]); }
    }
    forall f: ServerId | f != c.leader ensures FollowerBooks(s'.cluster, init, s'.servers[f], paid'[f]) {
      assert FollowerBooks(s.cluster, init, s.servers[f], paid[f]);
    }
  }

  lemma ReignBooks(c: Reign, init: map<int, int>, states: seq<Sys>, steps: seq<EpochStep>,
                   paid0: seq<seq<Entry>>, k: nat)
    requires IsReign(c, init, states, steps) && k < |states|
    requires |paid0| == 3 && Books(c, init, states[0], paid0)
    ensures Books(c, init, states[k], PaidAt(c, states, steps, paid0, k))
  {
    assert |states| == |steps| + 1 by { ReignStart(c, init, states, steps); }
    hide IsReign, Books, EpochInv, EpochEnabled, EpochApply, LeaderInv, PaidStep;
    if k > 0 {
      ReignBooks(c, init, states, steps, paid0, k - 1);
      ReignAt(c, init, states, steps, k - 1);
      BooksStep(c, init, states[k - 1], steps[k - 1], PaidAt(c, states, steps, paid0, k - 1));
    }
  }

  /** The leader had this commit index at some moment so far. */
  ghost predicate Seen(c: Reign, states: seq<Sys>, k: nat, n: Index) {
    exists j :: 0 <= j <= k && j < |states| && states[j].servers[c.leader].commit == n
  }

  /** So is every commit index that a follower reaches in the reign. */
  ghost predicate AllSeen(c: Reign, states: seq<Sys>, k: nat)
    requires k < |states|
  {
    && (forall f: ServerId :: f != c.leader ==>
          states[k].servers[f].commit == states[0].servers[f].commit || Seen(c, states, k, states[k].servers[f].commit))
    && (forall m :: m in states[k].sent && m.AppendReq? ==> Seen(c, states, k, m.commitIndex))
  }

  /** New commit indices of followers were in requests, and those of requests
      were the leader's. */
  ghost predicate CommitsFrom(c: Reign, s: Sys, s': Sys) {
    && (forall m :: m in s'.sent && m.AppendReq? ==> m in s.sent || m.commitIndex == s'.servers[c.leader].commit)
    && (forall f: ServerId :: f != c.leader ==>
          s'.servers[f].commit == s.servers[f].commit
          || exists m :: m in s.sent && m.AppendReq? && s'.servers[f].commit == m.commitIndex)
  }

  lemma CommitsComeFromLeader(c: Reign, s: Sys, step: EpochStep)
    requires EpochInv(c, s) && EpochEnabled(c, s, step)
    ensures CommitsFrom(c, s, EpochApply(c, s, step))
  {
    hide OnAppendReq, OnAppendRsp, OnClient, FollowerOk, LeaderOk, Durable, Quotes, HasPrefix, Merge;
    match step
    case Beat =>
    case Hear(m) =>
      assert InRound(c, s.servers[c.leader], s.servers[Peer(m)], m);
      if m.AppendReq? { RequestMoves(s.servers[m.dst], m); } else { ResponseMoves(s.servers[c.leader], m); }
    case Ask(at, req, fd) =>
      ClientGrows(s.servers[at], s.cluster, req, fd);
  }

  lemma ReignSeen(c: Reign, init: map<int, int>, states: seq<Sys>, steps: seq<EpochStep>, k: nat)
    requires IsReign(c, init, states, steps) && k < |states|
    ensures AllSeen(c, states, k)
  {
    assert |states| == |steps| + 1 && states[0].sent == {} by { ReignStart(c, init, states, steps); }
    hide IsReign, EpochInv, EpochEnabled, EpochApply, LeaderInv;
    if k > 0 {
      ReignSeen(c, init, states, steps, k - 1);
      ReignAt(c, init, states, steps, k - 1);
      CommitsComeFromLeader(c, states[k - 1], steps[k - 1]);
      SeenStep(c, states, k);
    }
  }

  lemma SeenStep(c: Reign, states: seq<Sys>, k: nat)
    requires 0 < k < |states| && AllSeen(c, states, k - 1) && CommitsFrom(c, states[k - 1], states[k])
    ensures AllSeen(c, states, k)
  {
    assert forall n: Index :: Seen(c, states, k - 1, n) ==> Seen(c, states, k, n);
    assert Seen(c, states, k, states[k].servers[c.leader].commit);
  }

  /** The part of a replica's balances that did not come directly from COMMITs. */
  function IntraPart(sv: Server, cluster: int, paid: seq<Entry>, a: int): int {
    Get(sv.bal, a) - CrossSum(cluster, paid, a)
  }

  /** A replica's committed log, and the intra-shard part of its balances, are
      those of a leader's state. */
  ghost predicate IsSnapshot(sv: Server, paid: seq<Entry>, snap: Server, cluster: int) {
    && sv.commit == snap.commit
    && Slice(sv.log, 0, sv.commit + 1) == Slice(snap.log, 0, snap.commit + 1)
    && forall a :: IntraPart(sv, cluster, paid, a) == IntraPart(snap, cluster, snap.log, a)
  }

  /** A follower and an earlier leader with the same commit index. */
  lemma SnapshotAgrees(c: Reign, init: map<int, int>, cluster: int, l: Server, snap: Server,
                       f: Server, paid: seq<Entry>)
    requires FollowerOk(c, l, f) && FollowerBooks(cluster, init, f, paid)
    requires BalancesFollowLog(cluster, init, snap) && snap.log <= l.log && snap.commit == f.commit
    ensures IsSnapshot(f, paid, snap, cluster)
  {
    hide Agree, InRange;
    var n := f.commit + 1;
    assert f.log[..n] == l.log[..n] == snap.log[..n];
  }

  /** What the agreement lemmas need of follower f at moment k. */
  lemma FollowerAt(c: Reign, init: map<int, int>, states: seq<Sys>, steps: seq<EpochStep>,
                   paid0: seq<seq<Entry>>, k: nat, f: ServerId)
    requires IsReign(c, init, states, steps) && k < |states| && f != c.leader
    requires |paid0| == 3 && Books(c, init, states[0], paid0)
    ensures |states| == |steps| + 1
    ensures FollowerOk(c, states[k].servers[c.leader], states[k].servers[f])
    ensures FollowerBooks(states[0].cluster, init, states[k].servers[f], PaidAt(c, states, steps, paid0, k)[f])
  {
    assert |states| == |steps| + 1 by { ReignStart(c, init, states, steps); }
    hide IsReign, EpochEnabled, EpochApply, FollowerOk, FollowerBooks, LeaderInv, PaidAt;
    ReignAt(c, init, states, steps, k);
    ReignBooks(c, init, states, steps, paid0, k);
  }

  lemma LeaderAt(c: Reign, init: map<int, int>, states: seq<Sys>, steps: seq<EpochStep>, j: nat, k: nat)
    requires IsReign(c, init, states, steps) && j <= k < |states|
    ensures BalancesFollowLog(states[0].cluster, init, states[j].servers[c.leader])
    ensures states[j].servers[c.leader].log <= states[k].servers[c.leader].log
  {
    hide IsReign, EpochInv, EpochEnabled, EpochApply;
    ReignAt(c, init, states, steps, j);
    ReignForward(c, init, states, steps, j, k);
  }

  /** What a replica committed is a prefix of what its leader did, and the
      intra-shard part of its balances is what that prefix says. */
  ghost predicate InStep(init: map<int, int>, cluster: int, l: Server, sv: Server, paid: seq<Entry>) {
    var n := sv.commit + 1;
    && n <= |sv.log| && sv.commit <= l.commit < |l.log| && Slice(sv.log, 0, n) == Slice(l.log, 0, n)
    && forall a :: IntraPart(sv, cluster, paid, a) == Get(init, a) + IntraSum(Slice(sv.log, 0, n), a)
  }

  lemma FollowerInStep(c: Reign, init: map<int, int>, cluster: int, l: Server, f: Server, paid: seq<Entry>)
    requires FollowerOk(c, l, f) && FollowerBooks(cluster, init, f, paid) && LeaderOk(c, l)
    ensures InStep(init, cluster, l, f, paid)
  {
    hide Agree, NoForeign, IntraSum, CrossSum;
  }

  /** At every moment k of a reign, whatever the replicas did before it, each
      follower is in step with its leader; and as soon as it committed anything
      in the reign it is a snapshot of the leader as of some moment j. */
  lemma ReplicaAgreement(c: Reign, init: map<int, int>, states: seq<Sys>, steps: seq<EpochStep>,
                         paid0: seq<seq<Entry>>, k: nat, f: ServerId) returns (j: nat)
    requires IsReign(c, init, states, steps) && k < |states| && f != c.leader
    requires |paid0| == 3 && Books(c, init, states[0], paid0)
    ensures j <= k
    ensures var sv, paid, cluster := states[k].servers[f], PaidAt(c, states, steps, paid0, k)[f], states[0].cluster;
            && InStep(init, cluster, states[k].servers[c.leader], sv, paid)
            && (sv.commit == states[0].servers[f].commit || IsSnapshot(sv, paid, states[j].servers[c.leader], cluster))
  {
    FollowerAt(c, init, states, steps, paid0, k, f);
    ReignAt(c, init, states, steps, k);
    hide IsReign, Books, FollowerOk, LeaderOk, FollowerBooks, BalancesFollowLog, PaidAt, InStep, IsSnapshot;
    var l, sv, paid := states[k].servers[c.leader], states[k].servers[f], PaidAt(c, states, steps, paid0, k)[f];
    FollowerInStep(c, init, states[0].cluster, l, sv, paid);
    ReignSeen(c, init, states, steps, k);
    j := 0;
    if sv.commit != states[0].servers[f].commit {
      assert Seen(c, states, k, sv.commit);
      j :| 0 <= j <= k && j < |states| && states[j].servers[c.leader].commit == sv.commit;
      LeaderAt(c, init, states, steps, j, k);
      SnapshotAgrees(c, init, states[0].cluster, l, states[j].servers[c.leader], sv, paid);
    }
  }

  /** Two followers that ever hold the same commit index, even at different
      moments, have the same committed log and the same intra-shard balances. */
  lemma SameCommitAgrees(c: Reign, init: map<int, int>, states: seq<Sys>, steps: seq<EpochStep>,
                         paid0: seq<seq<Entry>>, j: nat, f: ServerId, k: nat, g: ServerId, a: int)
    requires IsReign(c, init, states, steps) && j <= k < |states| && f != c.leader && g != c.leader
    requires |paid0| == 3 && Books(c, init, states[0], paid0)
    requires states[j].servers[f].commit == states[k].servers[g].commit
    ensures |states| == |steps| + 1
    ensures var x, y, cluster := states[j].servers[f], states[k].servers[g], states[0].cluster;
            && Slice(x.log, 0, x.commit + 1) == Slice(y.log, 0, y.commit + 1)
            && |Slice(x.log, 0, x.commit + 1)| == x.commit + 1
            && IntraPart(x, cluster, PaidAt(c, states, steps, paid0, j)[f], a) ==
                  IntraPart(y, cluster, PaidAt(c, states, steps, paid0, k)[g], a)
  {
    FollowerAt(c, init, states, steps, paid0, j, f);
    FollowerAt(c, init, states, steps, paid0, k, g);
    LeaderAt(c, init, states, steps, j, k);
    hide IsReign, Books, BalancesFollowLog, PaidAt, IntraPart, FollowerOk, FollowerBooks;
    var cluster, l := states[0].cluster, states[k].servers[c.leader];
    FollowerView(c, init, cluster, states[j].servers[c.leader], l, states[j].servers[f],
                 PaidAt(c, states, steps, paid0, j)[f], a);
    FollowerView(c, init, cluster, l, l, states[k].servers[g], PaidAt(c, states, steps, paid0, k)[g], a);
  }

  /** A follower seen from the log that its leader has later. */
  lemma FollowerView(c: Reign, init: map<int, int>, cluster: int, l: Server, l': Server,
                     f: Server, paid: seq<Entry>, a: int)
    requires FollowerOk(c, l, f) && FollowerBooks(cluster, init, f, paid) && l.log <= l'.log
    ensures f.commit < |l'.log| && Slice(f.log, 0, f.commit + 1) == l'.log[..f.commit + 1]
    ensures IntraPart(f, cluster, paid, a) == Get(init, a) + IntraSum(l'.log[..f.commit + 1], a)
  {
    hide Agree, InRange;
    var n := f.commit + 1;
    assert f.log[..n] == l.log[..n] == l'.log[..n];
  }
}
