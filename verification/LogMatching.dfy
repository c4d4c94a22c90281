/** Log Matching (section 5.3 of the extended Raft paper): logs that hold the
    same term at the same index are identical up to there.  It holds in every
    asynchronous run whose client requests reach leaders only; when COMMIT and
    ABORT may reach any server, it holds exactly in the runs in which none of
    them logs an entry of term -1 where an earlier log holds another one. */
module LogMatching {
  import opened Types
  import opened Handlers
  import opened Cluster
  import opened Election
  import opened LogSafety
  import opened Requests

  /** Where two logs hold the same term they agree on everything before. */
  ghost predicate Agree(a: seq<Entry>, b: seq<Entry>) {
    forall i :: 0 <= i < |a| && i < |b| && a[i].term == b[i].term ==> a[..i + 1] == b[..i + 1]
  }

  /** Accepting the entries base .. n-1 of a log L that agrees with ours leaves
      our log as it was, or makes it L up to n; either way it starts with that. */
  lemma MergeAgrees(log: seq<Entry>, L: seq<Entry>, base: nat, n: nat)
    requires Agree(log, L) && base <= n <= |L| && base <= |log|
    requires base > 0 ==> log[base - 1].term == L[base - 1].term
    ensures var r := Merge(log, base, L[base..n]);
            n <= |r| && r[..n] == L[..n] && (r == log || r == L[..n])
  {
    hide FirstMismatch, Agree;
    MatchAgrees(log, L, base, n);
    var k := FirstMismatch(log, base, L[base..n], 0);
    if k < n - base { assert L[..n] == L[..base + k] + L[base..n][k..]; }
  }

  /** Up to the first mismatch the logs are equal. */
  lemma MatchAgrees(log: seq<Entry>, L: seq<Entry>, base: nat, n: nat)
    requires Agree(log, L) && base <= n <= |L| && base <= |log|
    requires base > 0 ==> log[base - 1].term == L[base - 1].term
    ensures var k := FirstMismatch(log, base, L[base..n], 0); base + k <= |log| && log[..base + k] == L[..base + k]
  {
    hide FirstMismatch, Agree;
    var entries := L[base..n];
    var k := FirstMismatch(log, base, entries, 0);
    if k > 0 { assert entries[k - 1].term == log[base + (k - 1)].term; }
    AgreeAt(log, L, base + k);
  }

  lemma AgreeAt(log: seq<Entry>, L: seq<Entry>, n: nat)
    requires Agree(log, L) && n <= |log| && n <= |L| && (n > 0 ==> log[n - 1].term == L[n - 1].term)
    ensures log[..n] == L[..n]
  {
    if n > 0 { assert log[..n - 1 + 1] == L[..n - 1 + 1]; }
  }

  /** The entry at i, and all before it, are those of the leader of its term. */
  ghost predicate AnchoredAt(log: seq<Entry>, logs: map<nat, seq<Entry>>, i: nat)
    requires i < |log|
  {
    var t := log[i].term;
    0 <= t && t in logs && i < |logs[t]| && log[..i + 1] == logs[t][..i + 1]
  }

  /** So are all entries, except those that a server logged off the leader. */
  ghost predicate Anchored(log: seq<Entry>, logs: map<nat, seq<Entry>>) {
    forall i: nat :: i < |log| && log[i].term != -1 ==> AnchoredAt(log, logs, i)
  }

  ghost predicate Grown(logs: map<nat, seq<Entry>>, logs': map<nat, seq<Entry>>) {
    forall t :: t in logs ==> t in logs' && logs[t] <= logs'[t]
  }

  lemma AnchoredGrows(log: seq<Entry>, logs: map<nat, seq<Entry>>, logs': map<nat, seq<Entry>>)
    requires Anchored(log, logs) && Grown(logs, logs')
    ensures Anchored(log, logs')
  {
    forall i: nat | i < |log| && log[i].term != -1 ensures AnchoredAt(log, logs', i) {
      assert AnchoredAt(log, logs, i);
    }
  }

  lemma AnchoredPrefix(log: seq<Entry>, logs: map<nat, seq<Entry>>, n: nat)
    requires Anchored(log, logs) && n <= |log|
    ensures Anchored(log[..n], logs)
  {
    forall i: nat | i < n && log[i].term != -1 ensures AnchoredAt(log[..n], logs, i) {
      assert AnchoredAt(log, logs, i);
      assert log[..n][..i + 1] == log[..i + 1];
    }
  }

  /** An append request carries a stretch of its leader's log. */
  ghost predicate Quotes(m: Msg, log: seq<Entry>)
    requires m.AppendReq?
  {
    var base := m.prevIndex + 1;
    && base + |m.entries| <= |log|
    && m.entries == log[base..base + |m.entries|]
    && m.prevTerm == (if base == 0 then -1 else log[base - 1].term)
  }

  ghost predicate RequestOk(h: History, m: Msg) {
    m.AppendReq? ==>
      m.term in h.logs && m.term in h.leaders && h.leaders[m.term] == m.src && Quotes(m, h.logs[m.term])
  }

  /** The logs seen so far: anchored, in agreement with each other, and among
      them every log that a leader was recorded with. */
  ghost predicate SeenOk(h: History, seen: set<seq<Entry>>) {
    && (forall y :: y in seen ==> Anchored(y, h.logs))
    && (forall y, z :: y in seen && z in seen ==> Agree(y, z))
    && (forall t :: t in h.logs ==> h.logs[t] in seen)
  }

  ghost predicate LogOk(h: History, seen: set<seq<Entry>>, sv: Server) {
    sv.log in seen && (sv.role.Leader? ==> sv.term in h.logs && h.logs[sv.term] == sv.log)
  }

  ghost predicate LogInv(s: Sys, h: History, seen: set<seq<Entry>>) {
    && h.logs.Keys == h.leaders.Keys && SeenOk(h, seen)
    && (forall i: ServerId :: LogOk(h, seen, s.servers[i]))
    && (forall m :: m in s.sent ==> RequestOk(h, m))
  }

  /** Logging e after a log clashes with nothing that y holds at that place. */
  predicate Fits(log: seq<Entry>, e: Entry, y: seq<Entry>) {
    |y| <= |log| || y[|log|].term != e.term || y[..|log| + 1] == log + [e]
  }

  ghost predicate FitsAll(log: seq<Entry>, e: Entry, seen: set<seq<Entry>>) {
    forall y :: y in seen ==> Fits(log, e, y)
  }

  /** What Raft does to a log: leave it, adopt a stretch of a log that was seen,
      or append an entry of the leader's term. */
  ghost predicate RaftStep(seen: set<seq<Entry>>, sv: Server, sv': Server) {
    || sv'.log == sv.log
    || (!sv'.role.Leader? && exists y: seq<Entry>, n: nat :: y in seen && n <= |y| && sv'.log == y[..n])
    || (sv.role.Leader? && sv'.role.Leader? && sv'.term == sv.term &&
        exists e: Entry :: e.term == sv.term && sv'.log == sv.log + [e])
  }

  /** What any step may do: the same, or append an entry of term -1 that fits. */
  ghost predicate LogStep(seen: set<seq<Entry>>, sv: Server, sv': Server) {
    || RaftStep(seen, sv, sv')
    || (!sv'.role.Leader? && exists e: Entry :: e.term == -1 && FitsAll(sv.log, e, seen) && sv'.log == sv.log + [e])
  }

  lemma AppendReqLog(h: History, seen: set<seq<Entry>>, sv: Server, m: Msg)
    requires m.AppendReq? && RequestOk(h, m) && SeenOk(h, seen) && LogOk(h, seen, sv)
    ensures RaftStep(seen, sv, OnAppendReq(sv, m).server)
  {
    hide OnAppendReq, Merge, Anchored, Agree;
    RequestMoves(sv, m);
    if m.term >= sv.term && Accepts(sv.log, m.prevIndex, m.prevTerm) {
      var L, base := h.logs[m.term], m.prevIndex + 1;
      MergeAgrees(sv.log, L, base, base + |m.entries|);
    }
  }

  /** A COMMIT or ABORT is for this cluster and was not logged before. */
  predicate WillLog(sv: Server, cluster: int, req: Request)
    requires !ForLeader(req)
  {
    Concerns(req, cluster) && !(if req.phase.CommitPhase? then HasCommit(sv.log, req.id) else HasAbort(sv.log, req.id))
  }

  lemma DecisionLogs(sv: Server, cluster: int, req: Request, fd: int)
    requires !ForLeader(req)
    ensures OnClient(sv, cluster, req, fd).server.log ==
            if WillLog(sv, cluster, req) then sv.log + [EntryFor(sv, req)] else sv.log
  {
    hide HasCommit, HasAbort, CrossApply;
  }

  /** A client request may be taken: a leader takes any; elsewhere only COMMIT and
      ABORT arrive, and what they log fits the logs seen so far. */
  ghost predicate Takes(sv: Server, cluster: int, req: Request, seen: set<seq<Entry>>) {
    sv.role.Leader? || (!ForLeader(req) && (WillLog(sv, cluster, req) ==> FitsAll(sv.log, EntryFor(sv, req), seen)))
  }

  lemma ClientLog(seen: set<seq<Entry>>, sv: Server, cluster: int, req: Request, fd: int)
    requires Takes(sv, cluster, req, seen)
    ensures LogStep(seen, sv, OnClient(sv, cluster, req, fd).server)
    ensures sv.role.Leader? ==> RaftStep(seen, sv, OnClient(sv, cluster, req, fd).server)
  {
    hide OnClient, FitsAll, WillLog;
    ClientGrows(sv, cluster, req, fd);
    if !sv.role.Leader? { DecisionLogs(sv, cluster, req, fd); }
  }

  lemma ActLog(s: Sys, step: Step, h: History, seen: set<seq<Entry>>)
    requires LogInv(s, h, seen) && Enabled(s, step)
    requires step.Client? ==> Takes(s.servers[step.at], s.cluster, step.req, seen)
    ensures LogStep(seen, s.servers[Actor(step)], Act(s, step).server)
    ensures (step.Client? ==> s.servers[step.at].role.Leader?) ==>
              RaftStep(seen, s.servers[Actor(step)], Act(s, step).server)
  {
    hide OnAppendReq, OnAppendRsp, OnClient, OnTimeout, OnVoteReq, OnVoteRsp, SeenOk, RequestOk, Takes;
    var sv := s.servers[Actor(step)];
    assert LogOk(h, seen, sv);
    if step.Client? {
      ClientLog(seen, sv, s.cluster, step.req, step.fd);
    } else if step.Deliver? && step.msg.AppendReq? {
      AppendReqLog(h, seen, sv, step.msg);
    } else if step.Deliver? && step.msg.AppendRsp? {
      ResponseMoves(sv, step.msg);
    } else {
      ElectionKeeps(s, step);
    }
  }

  /** A log that may join those seen. */
  ghost predicate Joins(logs: map<nat, seq<Entry>>, seen: set<seq<Entry>>, x: seq<Entry>) {
    Anchored(x, logs) && forall y :: y in seen ==> Agree(x, y)
  }

  lemma StretchJoins(logs: map<nat, seq<Entry>>, seen: set<seq<Entry>>, y: seq<Entry>, n: nat)
    requires Joins(logs, seen, y) && n <= |y|
    ensures Joins(logs, seen, y[..n])
  {
    AnchoredPrefix(y, logs, n);
    hide Anchored;
    forall z: seq<Entry> | z in seen ensures Agree(y[..n], z) {
      forall i | 0 <= i < n && i < |z| && y[i].term == z[i].term ensures y[..n][..i + 1] == z[..i + 1] {
        assert y[..n][..i + 1] == y[..i + 1];
      }
    }
  }

  lemma AppendAgrees(log: seq<Entry>, e: Entry, y: seq<Entry>)
    requires Agree(log, y)
    ensures Agree(log + [e], y) <==> Fits(log, e, y)
  {
    var log', n := log + [e], |log|;
    assert forall i :: 0 <= i < n ==> log'[i] == log[i] && log'[..i + 1] == log[..i + 1];
    assert log'[..n + 1] == log' && log'[n] == e;
  }

  lemma AppendAnchored(log: seq<Entry>, e: Entry, logs: map<nat, seq<Entry>>)
    requires Anchored(log, logs)
    requires e.term == -1 || (0 <= e.term && e.term in logs && logs[e.term] == log + [e])
    ensures Anchored(log + [e], logs)
  {
    var log' := log + [e];
    forall j: nat | j < |log'| && log'[j].term != -1 ensures AnchoredAt(log', logs, j) {
      if j < |log| {
        assert AnchoredAt(log, logs, j);
        assert log'[..j + 1] == log[..j + 1];
      }
    }
  }

  /** No log that was seen reaches beyond a leader's own in the leader's term. */
  lemma LeaderAppendJoins(logs: map<nat, seq<Entry>>, logs': map<nat, seq<Entry>>, seen: set<seq<Entry>>,
                          log: seq<Entry>, e: Entry)
    requires 0 <= e.term && e.term in logs && logs[e.term] == log && logs' == logs[e.term := log + [e]]
    requires Anchored(log, logs) && (forall y :: y in seen ==> Anchored(y, logs) && Agree(log, y))
    ensures Joins(logs', seen, log + [e])
  {
    AnchoredGrows(log, logs, logs');
    AppendAnchored(log, e, logs');
    forall y: seq<Entry> | y in seen ensures Agree(log + [e], y) {
      assert |y| > |log| && y[|log|].term == e.term ==> AnchoredAt(y, logs, |log|);
      AppendAgrees(log, e, y);
    }
  }

  lemma FittingAppendJoins(logs: map<nat, seq<Entry>>, seen: set<seq<Entry>>, log: seq<Entry>, e: Entry)
    requires e.term == -1 && FitsAll(log, e, seen) && Joins(logs, seen, log)
    ensures Joins(logs, seen, log + [e])
  {
    AppendAnchored(log, e, logs);
    forall y: seq<Entry> | y in seen ensures Agree(log + [e], y) {
      AppendAgrees(log, e, y);
    }
  }

  /** The leader's log is recorded under its term; nothing recorded is lost. */
  lemma RecordGrows(h: History, seen: set<seq<Entry>>, i: ServerId, sv: Server, sv': Server)
    requires LogOk(h, seen, sv) && LogStep(seen, sv, sv')
    requires sv'.role.Leader? ==> sv'.term == sv.term && (sv.role.Leader? || sv.term !in h.logs)
    ensures Grown(h.logs, Record(h, i, sv').logs)
  {
    hide FitsAll;
  }

  lemma RecordJoins(h: History, seen: set<seq<Entry>>, i: ServerId, sv: Server, sv': Server)
    requires SeenOk(h, seen) && LogOk(h, seen, sv) && LogStep(seen, sv, sv')
    requires Grown(h.logs, Record(h, i, sv').logs)
    ensures Joins(Record(h, i, sv').logs, seen, sv'.log)
  {
    hide Anchored, Grown, Agree, FitsAll;
    var logs' := Record(h, i, sv').logs;
    forall y: seq<Entry> | y in seen ensures Joins(logs', seen, y) {
      AnchoredGrows(y, h.logs, logs');
    }
    hide Joins;
    if sv'.log == sv.log {
    } else if y: seq<Entry>, n: nat :| !sv'.role.Leader? && y in seen && n <= |y| && sv'.log == y[..n] {
      StretchJoins(logs', seen, y, n);
    } else if e: Entry :| sv'.role.Leader? && sv.role.Leader? && sv'.term == sv.term && e.term == sv.term
                          && sv'.log == sv.log + [e] {
      LeaderAppendJoins(h.logs, logs', seen, sv.log, e);
    } else {
      var e: Entry :| e.term == -1 && FitsAll(sv.log, e, seen) && sv'.log == sv.log + [e];
      FittingAppendJoins(logs', seen, sv.log, e);
    }
  }

  lemma AgreeSwaps(a: seq<Entry>, b: seq<Entry>)
    ensures Agree(a, b) <==> Agree(b, a)
    ensures Agree(a, a)
  {
  }

  lemma RecordLogs(h: History, seen: set<seq<Entry>>, i: ServerId, sv: Server, sv': Server)
    requires SeenOk(h, seen) && LogOk(h, seen, sv) && LogStep(seen, sv, sv')
    requires sv'.role.Leader? ==> sv'.term == sv.term && (sv.role.Leader? || sv.term !in h.logs)
    ensures var h' := Record(h, i, sv');
            Grown(h.logs, h'.logs) && SeenOk(h', seen + {sv'.log}) && LogOk(h', seen + {sv'.log}, sv')
  {
    RecordGrows(h, seen, i, sv, sv');
    RecordJoins(h, seen, i, sv, sv');
    hide Anchored, Grown, Agree, LogStep, RaftStep;
    var h', x := Record(h, i, sv'), sv'.log;
    forall y | y in seen + {x} ensures Anchored(y, h'.logs) {
      if y in seen { AnchoredGrows(y, h.logs, h'.logs); }
    }
    forall y, z | y in seen + {x} && z in seen + {x} ensures Agree(y, z) {
      AgreeSwaps(y, z);
      if y == x == z { AgreeSwaps(x, x); }
    }
  }

  /** A server that becomes leader of a term is the first one recorded for it. */
  lemma NewReign(h: History, i: ServerId, sv: Server, sv': Server)
    requires h.logs.Keys == h.leaders.Keys
    requires ServerOk(h, i, sv) && StepOk(h, i, sv, sv') && Extends(h, Record(h, i, sv'))
    ensures sv'.role.Leader? ==> sv'.term == sv.term && (sv.role.Leader? || sv.term !in h.logs)
  {
  }

  lemma HeartbeatQuotes(sv: Server, i: ServerId, h: History)
    requires sv.role.Leader? && CanBroadcast(sv, i) && (forall p: ServerId :: sv.matched[p] <= |sv.log|)
    requires sv.term in h.logs && h.logs[sv.term] == sv.log && sv.term in h.leaders && h.leaders[sv.term] == i
    ensures forall m :: m in Heartbeat(sv, i).msgs ==> RequestOk(h, m)
  {
    hide AppendReqTo, RequestOk;
    var sv' := sv.(coming := |sv.log| - 1);
    SentQuotes(sv', i, FirstPeer(i), h);
    SentQuotes(sv', i, SecondPeer(i), h);
  }

  lemma SentQuotes(sv: Server, i: ServerId, p: ServerId, h: History)
    requires |sv.matched| == 3 && 0 <= sv.matched[p] <= |sv.log|
    requires sv.term in h.logs && h.logs[sv.term] == sv.log && sv.term in h.leaders && h.leaders[sv.term] == i
    ensures RequestOk(h, AppendReqTo(sv, i, p))
  {
  }

  lemma SendsQuote(s: Sys, step: Step, h': History)
    requires Enabled(s, step) && InRange(s.servers[Actor(step)])
    requires var sv := Act(s, step).server;
             sv.role.Leader? ==>
               sv.term in h'.logs && h'.logs[sv.term] == sv.log
               && sv.term in h'.leaders && h'.leaders[sv.term] == Actor(step)
    ensures forall m :: m in Act(s, step).msgs ==> RequestOk(h', m)
  {
    hide OnAppendReq, OnAppendRsp, OnClient, Quotes, AppendReqTo, Merge, Accepts;
    var i := Actor(step);
    var sv := s.servers[i];
    match step
    case Timeout(_) => if sv.role.Leader? { HeartbeatQuotes(sv, i, h'); }
    case Client(_, req, fd) => ClientGrows(sv, s.cluster, req, fd);
    case Deliver(m) =>
      match m
      case VoteReq(_, _, _, _, _) =>
      case VoteRsp(_, _, _, _) => if CountVote(sv, m).role.Leader? { HeartbeatQuotes(CountVote(sv, m), i, h'); }
      case AppendReq(_, _, _, _, _, _, _) => RequestMoves(sv, m);
      case AppendRsp(_, _, _, _) => ResponseMoves(sv, m);
  }

  /** The step's own facts, before looking at the rest of the system. */
  ghost predicate LogsKept(h: History, seen: set<seq<Entry>>, i: ServerId, o: Outcome) {
    var h', seen' := Record(h, i, o.server), seen + {o.server.log};
    && Extends(h, h') && Grown(h.logs, h'.logs) && SeenOk(h', seen') && LogOk(h', seen', o.server)
    && forall m :: m in o.msgs ==> RequestOk(h', m)
  }

  lemma ActKeepsLogs(s: Sys, step: Step, h: History, seen: set<seq<Entry>>)
    requires ElectionInv(s, h) && IndexInv(s) && LogInv(s, h, seen) && Enabled(s, step)
    requires step.Client? ==> Takes(s.servers[step.at], s.cluster, step.req, seen)
    ensures LogsKept(h, seen, Actor(step), Act(s, step))
  {
    hide Act, Enabled, LogStep, RaftStep, Grown, Extends, SeenOk, RequestOk, Takes;
    var i, o := Actor(step), Act(s, step);
    assert ServerOk(h, i, s.servers[i]) && LogOk(h, seen, s.servers[i]) && InRange(s.servers[i]);
    ActOk(s, step, h);
    RecordExtends(h, i, s.servers[i], o.server);
    ActLog(s, step, h, seen);
    NewReign(h, i, s.servers[i], o.server);
    RecordLogs(h, seen, i, s.servers[i], o.server);
    SendsQuote(s, step, Record(h, i, o.server));
  }

  lemma LogMatchingStep(s: Sys, step: Step, h: History, seen: set<seq<Entry>>)
    requires ElectionInv(s, h) && IndexInv(s) && LogInv(s, h, seen) && Enabled(s, step)
    requires step.Client? ==> Takes(s.servers[step.at], s.cluster, step.req, seen)
    ensures var s' := Apply(s, step); var sv' := s'.servers[Actor(step)]; var h' := Record(h, Actor(step), sv');
            LogInv(s', h', seen + {sv'.log}) && Grown(h.logs, h'.logs)
  {
    hide Act, Enabled, ElectionInv, IndexInv, LogInv, Extends, Grown, SeenOk, LogOk, RequestOk, Record, Takes;
    ActKeepsLogs(s, step, h, seen);
    LogsRecorded(s, Apply(s, step), Actor(step), Act(s, step), h, seen);
  }

  lemma LogsRecorded(s: Sys, s': Sys, i: ServerId, o: Outcome, h: History, seen: set<seq<Entry>>)
    requires ElectionInv(s, h) && LogInv(s, h, seen) && LogsKept(h, seen, i, o)
    requires s'.servers == s.servers[i := o.server] && s'.sent == s.sent + o.msgs
    ensures LogInv(s', Record(h, i, o.server), seen + {o.server.log})
  {
    hide LogOk, ServerOk, SeenOk, Quotes, LeadersOk, Extends, Grown, RequestOk;
    var h', seen' := Record(h, i, o.server), seen + {o.server.log};
    forall j: ServerId ensures LogOk(h', seen', s'.servers[j]) {
      if j != i {
        assert ServerOk(h, j, s.servers[j]) && LogOk(h, seen, s.servers[j]);
        OthersKeepLogs(h, h', seen, seen', i, j, o.server, s.servers[j]);
      }
    }
    forall m | m in s'.sent ensures RequestOk(h', m) {
      if m in s.sent { OldRequest(h, h', m); }
    }
  }

  lemma OldRequest(h: History, h': History, m: Msg)
    requires RequestOk(h, m) && Extends(h, h') && Grown(h.logs, h'.logs)
    ensures RequestOk(h', m)
  {
  }

  lemma OthersKeepLogs(h: History, h': History, seen: set<seq<Entry>>, seen': set<seq<Entry>>,
                       i: ServerId, j: ServerId, sv': Server, other: Server)
    requires h' == Record(h, i, sv') && Extends(h, h') && Grown(h.logs, h'.logs) && i != j && seen <= seen'
    requires ServerOk(h, j, other) && LogOk(h, seen, other)
    ensures LogOk(h', seen', other)
  {
  }

  // ---- Runs ---------------------------------------------------------------

  function LogsOf(s: Sys): set<seq<Entry>> { {s.servers[0].log, s.servers[1].log, s.servers[2].log} }

  /** Every log that some server had up to moment k. */
  function SeenLogs(states: seq<Sys>, k: nat): set<seq<Entry>>
    requires k < |states|
  {
    LogsOf(states[k]) + if k == 0 then {} else SeenLogs(states, k - 1)
  }

  /** Off the leaders only COMMIT and ABORT arrive. */
  ghost predicate Routed(states: seq<Sys>, steps: seq<Step>)
    requires |states| == |steps| + 1
  {
    forall k :: 0 <= k < |steps| && steps[k].Client? && ForLeader(steps[k].req) ==>
      states[k].servers[steps[k].at].role.Leader?
  }

  /** What they log there clashes with no log of the run so far. */
  ghost predicate DecisionsFit(states: seq<Sys>, steps: seq<Step>)
    requires |states| == |steps| + 1
  {
    forall k :: 0 <= k < |steps| && steps[k].Client? && !ForLeader(steps[k].req) ==> DecisionFits(states, steps[k], k)
  }

  ghost predicate DecisionFits(states: seq<Sys>, step: Step, k: nat)
    requires k < |states| && step.Client? && !ForLeader(step.req)
  {
    var sv := states[k].servers[step.at];
    !sv.role.Leader? && WillLog(sv, states[k].cluster, step.req) ==>
      FitsAll(sv.log, EntryFor(sv, step.req), SeenLogs(states, k))
  }

  lemma LogRun(states: seq<Sys>, steps: seq<Step>, init: map<int, int>, k: nat)
    requires IsRun(states, steps, init) && Routed(states, steps) && DecisionsFit(states, steps) && k < |states|
    ensures LogInv(states[k], HistoryAt(states, steps, k), SeenLogs(states, k))
  {
    hide LogInv, ElectionInv, IndexInv, Grown, Extends, Enabled, Apply, Record, FitsAll;
    if k == 0 {
      StartLogs(states[0], init);
      assert SeenLogs(states, 0) == LogsOf(states[0]);
    } else {
      LogRun(states, steps, init, k - 1);
      ElectionRun(states, steps, init, k - 1);
      IndexSafety(states, steps, init, k - 1);
      var s, step, seen := states[k - 1], steps[k - 1], SeenLogs(states, k - 1);
      assert step.Client? && !ForLeader(step.req) ==> DecisionFits(states, step, k - 1);
      LogMatchingStep(s, step, HistoryAt(states, steps, k - 1), seen);
      SeenGrows(s, step, HistoryAt(states, steps, k - 1), seen);
    }
  }

  lemma SeenGrows(s: Sys, step: Step, h: History, seen: set<seq<Entry>>)
    requires LogInv(s, h, seen) && Enabled(s, step)
    ensures LogsOf(Apply(s, step)) + seen == seen + {Apply(s, step).servers[Actor(step)].log}
  {
    hide Act, SeenOk, RequestOk;
    assert forall i: ServerId :: LogOk(h, seen, s.servers[i]) && s.servers[i].log in seen;
  }

  lemma StartLogs(s: Sys, init: map<int, int>)
    requires Init(s, init)
    ensures LogInv(s, History(map[], map[], map[]), LogsOf(s))
  {
  }

  lemma {:induction false} SeenHas(states: seq<Sys>, j: nat, k: nat, a: ServerId)
    requires j <= k < |states|
    ensures states[j].servers[a].log in SeenLogs(states, k)
  {
    if j < k { SeenHas(states, j, k - 1, a); }
  }

  lemma {:induction false} SeenSource(states: seq<Sys>, k: nat, y: seq<Entry>) returns (j: nat, a: ServerId)
    requires k < |states| && y in SeenLogs(states, k)
    ensures j <= k && states[j].servers[a].log == y
  {
    if a' : ServerId :| states[k].servers[a'].log == y {
      j, a := k, a';
    } else {
      j, a := SeenSource(states, k - 1, y);
    }
  }

  /** Any two logs of the run, also of different moments, match. */
  ghost predicate LogsMatch(states: seq<Sys>) {
    forall j: nat, a: ServerId, k: nat, b: ServerId :: j < |states| && k < |states| ==>
      Agree(states[j].servers[a].log, states[k].servers[b].log)
  }

  /** Log Matching with COMMIT and ABORT at any server: it holds over a whole run
      exactly when no such request logs an entry of term -1, off the leader, at a
      place where a log of the run so far holds another one. */
  lemma LogMatchingExactly(states: seq<Sys>, steps: seq<Step>, init: map<int, int>)
    requires IsRun(states, steps, init) && Routed(states, steps)
    ensures LogsMatch(states) <==> DecisionsFit(states, steps)
  {
    if DecisionsFit(states, steps) {
      FittingRunMatches(states, steps, init);
    } else {
      hide FitsAll;
      var k :| 0 <= k < |steps| && steps[k].Client? && !ForLeader(steps[k].req) && !DecisionFits(states, steps[k], k);
      MisfitShows(states, steps, init, k);
    }
  }

  lemma FittingRunMatches(states: seq<Sys>, steps: seq<Step>, init: map<int, int>)
    requires IsRun(states, steps, init) && Routed(states, steps) && DecisionsFit(states, steps)
    ensures LogsMatch(states)
  {
    hide Routed, DecisionsFit, HistoryAt, Enabled, Apply, Agree, Anchored;
    var last := |steps|;
    LogRun(states, steps, init, last);
    forall j: nat, a: ServerId, k: nat, b: ServerId | j < |states| && k < |states|
      ensures Agree(states[j].servers[a].log, states[k].servers[b].log)
    {
      SeenHas(states, j, last, a);
      SeenHas(states, k, last, b);
    }
  }

  lemma MisfitShows(states: seq<Sys>, steps: seq<Step>, init: map<int, int>, k: nat)
    requires IsRun(states, steps, init) && k < |steps| && steps[k].Client? && !ForLeader(steps[k].req)
    requires !DecisionFits(states, steps[k], k)
    ensures !LogsMatch(states)
  {
    hide OnClient, Agree;
    var i, req := steps[k].at, steps[k].req;
    var sv := states[k].servers[i];
    var e := EntryFor(sv, req);
    var y :| y in SeenLogs(states, k) && !Fits(sv.log, e, y);
    var j, a := SeenSource(states, k, y);
    DecisionLogs(sv, states[k].cluster, req, steps[k].fd);
    assert states[k + 1].servers[i].log == sv.log + [e];
    if LogsMatch(states) {
      assert Agree(sv.log, y) && Agree(sv.log + [e], y);
      AppendAgrees(sv.log, e, y);
    }
  }

  ghost predicate LeaderOnly(states: seq<Sys>, steps: seq<Step>)
    requires |states| == |steps| + 1
  {
    forall k :: 0 <= k < |steps| && steps[k].Client? ==> states[k].servers[steps[k].at].role.Leader?
  }

  /** With requests at leaders only: if two servers, even at different moments of
      a run, hold the same term at the same index then their logs are identical
      through that index. */
  lemma LogMatchingTheorem(states: seq<Sys>, steps: seq<Step>, init: map<int, int>,
                           j: nat, k: nat, a: ServerId, b: ServerId, i: nat)
    requires IsRun(states, steps, init) && LeaderOnly(states, steps) && j < |states| && k < |states|
    requires i < |states[j].servers[a].log| && i < |states[k].servers[b].log|
    requires states[j].servers[a].log[i].term == states[k].servers[b].log[i].term
    ensures states[j].servers[a].log[..i + 1] == states[k].servers[b].log[..i + 1]
  {
    hide Enabled, Apply, SeenLogs, WillLog;
    FittingRunMatches(states, steps, init);
    assert Agree(states[j].servers[a].log, states[k].servers[b].log);
  }

  ghost predicate NoForeign(log: seq<Entry>) { forall i :: 0 <= i < |log| ==> log[i].term != -1 }

  lemma {:induction false} NoForeignRun(states: seq<Sys>, steps: seq<Step>, init: map<int, int>, k: nat)
    requires IsRun(states, steps, init) && LeaderOnly(states, steps) && k < |states|
    ensures forall y :: y in SeenLogs(states, k) ==> NoForeign(y)
  {
    hide Enabled, Apply, WillLog, LogInv, NoForeign, HistoryAt, EntryFor;
    if k == 0 {
      assert NoForeign([]) by { NothingForeign(); }
    } else {
      var s, step, seen := states[k - 1], steps[k - 1], SeenLogs(states, k - 1);
      NoForeignRun(states, steps, init, k - 1);
      LogRun(states, steps, init, k - 1);
      SeenGrows(s, step, HistoryAt(states, steps, k - 1), seen);
      NoForeignStep(s, step, HistoryAt(states, steps, k - 1), seen);
    }
  }

  lemma NothingForeign()
    ensures NoForeign([])
  {
  }

  lemma NoForeignStep(s: Sys, step: Step, h: History, seen: set<seq<Entry>>)
    requires LogInv(s, h, seen) && Enabled(s, step) && (step.Client? ==> s.servers[step.at].role.Leader?)
    requires forall y :: y in seen ==> NoForeign(y)
    ensures NoForeign(Apply(s, step).servers[Actor(step)].log)
  {
    hide Act, SeenOk, RequestOk;
    ActLog(s, step, h, seen);
    assert LogOk(h, seen, s.servers[Actor(step)]);
  }

  /** Exactly when a COMMIT or ABORT at a server that is not leader keeps its log
      in agreement with another one: it is for another cluster or was logged
      before, or its entry fits the other log. */
  lemma FollowerAppendExactly(sv: Server, log: seq<Entry>, cluster: int, req: Request, fd: int)
    requires !ForLeader(req) && Agree(sv.log, log)
    ensures Agree(OnClient(sv, cluster, req, fd).server.log, log) <==>
            (WillLog(sv, cluster, req) ==> Fits(sv.log, EntryFor(sv, req), log))
  {
    hide OnClient, WillLog, Fits, Agree;
    DecisionLogs(sv, cluster, req, fd);
    AppendAgrees(sv.log, EntryFor(sv, req), log);
  }
}
