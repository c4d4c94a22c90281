/** Money bounds over whole reigns: no overdraft without debiting COMMITs, and
    why the restriction is there. */
module Bounds {
  import opened Types
  import opened Handlers
  import opened Cluster
  import opened Money
  import opened Leader
  import opened Solvency
  import opened Epoch
  import opened ReignRuns

  /** What the COMMIT entries of a log carried across the shard's border. */
  function CrossTotal(cluster: int, entries: seq<Entry>): int {
    if entries == [] then 0
    else CrossTotal(cluster, entries[..|entries| - 1]) + CrossNet(cluster, entries[|entries| - 1].command)
  }

  function CrossNet(cluster: int, c: Command): int {
    if c.Commit? then
      (if Local(cluster, c.receiver) then c.amount else 0) - (if Local(cluster, c.sender) then c.amount else 0)
    else 0
  }

  /** The table after taking the local effect of every COMMIT entry. */
  function CrossFold(t: map<int, int>, cluster: int, entries: seq<Entry>): map<int, int> {
    if entries == [] then t
    else
      var c := entries[|entries| - 1].command;
      var t0 := CrossFold(t, cluster, entries[..|entries| - 1]);
      var t1 := if c.Commit? && Local(cluster, c.sender) then Add(t0, c.sender, -c.amount) else t0;
      if c.Commit? && Local(cluster, c.receiver) then Add(t1, c.receiver, c.amount) else t1
  }

  lemma {:induction false} CrossFoldGet(t: map<int, int>, cluster: int, entries: seq<Entry>, a: int)
    ensures Get(CrossFold(t, cluster, entries), a) == Get(t, a) + CrossSum(cluster, entries, a)
  {
    if entries != [] { CrossFoldGet(t, cluster, entries[..|entries| - 1], a); }
  }

  lemma {:induction false} CrossFoldTotal(t: map<int, int>, cluster: int, entries: seq<Entry>)
    ensures Total(CrossFold(t, cluster, entries), cluster) == Total(t, cluster) + CrossTotal(cluster, entries)
  {
    if entries != [] {
      var n := |entries| - 1;
      CrossFoldTotal(t, cluster, entries[..n]);
      var c, t0 := entries[n].command, CrossFold(t, cluster, entries[..n]);
      var lo, hi := 1000 * cluster + 1, 1000 * cluster + 1001;
      var t1 := if c.Commit? && Local(cluster, c.sender) then Add(t0, c.sender, -c.amount) else t0;
      SumAdd(t0, c.sender, -c.amount, lo, hi);
      SumAdd(t1, c.receiver, c.amount, lo, hi);
    }
  }

  lemma {:induction false} SumEqual(t: map<int, int>, u: map<int, int>, lo: int, hi: int)
    requires forall a :: Get(t, a) == Get(u, a)
    ensures Sum(t, lo, hi) == Sum(u, lo, hi)
    decreases hi - lo
  {
    if lo < hi { SumEqual(t, u, lo, hi - 1); }
  }

  /** A leader's shard total is the initial one plus the net of its COMMITs. */
  lemma TotalFollowsLog(cluster: int, init: map<int, int>, sv: Server)
    requires BalancesFollowLog(cluster, init, sv) && LocalLog(cluster, sv.log)
    ensures Total(sv.bal, cluster) == Total(init, cluster) + CrossTotal(cluster, sv.log)
  {
    var prefix := sv.log[..sv.commit + 1];
    var t := Fold(init, prefix);
    FoldTotal(init, cluster, prefix);
    CrossFoldTotal(t, cluster, sv.log);
    forall a ensures Get(sv.bal, a) == Get(CrossFold(t, cluster, sv.log), a) {
      FoldIsSum(init, prefix, a);
      CrossFoldGet(t, cluster, sv.log, a);
    }
    SumEqual(sv.bal, CrossFold(t, cluster, sv.log), 1000 * cluster + 1, 1000 * cluster + 1001);
  }

  // ---- No overdraft -------------------------------------------------------

  /** A COMMIT that debits the leader's shard is covered. */
  ghost predicate StepCovered(c: Reign, cluster: int, s: Sys, step: EpochStep) {
    step.Ask? && step.at == c.leader && Debits(cluster, step.req) ==>
      DebitCovered(cluster, s.servers[c.leader], step.req)
  }

  ghost predicate DebitsCovered(c: Reign, states: seq<Sys>, steps: seq<EpochStep>)
    requires |states| == |steps| + 1
  {
    forall k :: 0 <= k < |steps| ==> StepCovered(c, states[0].cluster, states[k], steps[k])
  }

  lemma SolventStep(c: Reign, init: map<int, int>, s: Sys, step: EpochStep)
    requires FullInv(c, init, s) && CanStep(c, s, step) && Solvent(s.cluster, s.servers[c.leader])
    requires StepCovered(c, s.cluster, s, step)
    ensures Solvent(s.cluster, EpochApply(c, s, step).servers[c.leader])
  {
    hide OnAppendReq, OnAppendRsp, OnClient, FollowerOk, Durable, Solvent, DebitCovered, LocksExact,
         PendingDisjoint, BalancesFollowLog, IdsOrdered, LocalLog;
    var l := s.servers[c.leader];
    match step
    case Beat => SolventBeat(s.cluster, l, Heartbeat(l, c.leader).server);
    case Hear(m) =>
      assert InRound(c, l, s.servers[Peer(m)], m);
      if m.AppendRsp? { AppendRspSolvent(s.cluster, init, l, m); }
    case Ask(at, req, fd) =>
      if at == c.leader { ClientSolvent(s.cluster, l, req, fd); }
  }

  lemma SolventBeat(cluster: int, l: Server, l': Server)
    requires Solvent(cluster, l) && l'.log == l.log && l'.commit == l.commit && l'.bal == l.bal
    ensures Solvent(cluster, l')
  {
    assert forall i :: Pending(l', i) <==> Pending(l, i);
  }

  lemma ReignSolvent(c: Reign, init: map<int, int>, states: seq<Sys>, steps: seq<EpochStep>, k: nat)
    requires IsReign(c, init, states, steps) && k < |states|
    requires forall j :: 0 <= j < k ==> StepCovered(c, states[0].cluster, states[j], steps[j])
    requires Solvent(states[0].cluster, states[0].servers[c.leader])
    ensures Solvent(states[0].cluster, states[k].servers[c.leader])
  {
    hide FullInv, CanStep, EpochEnabled, EpochApply, Solvent, StepCovered;
    if k > 0 {
      CanStepEnabled(c, states[k - 1], steps[k - 1]);
      ReignSolvent(c, init, states, steps, k - 1);
      ReignKeeps(c, init, states, steps, k - 1);
      SolventStep(c, init, states[k - 1], steps[k - 1]);
    }
  }

  /** The leader's balances are and will stay non-negative at every moment. */
  ghost predicate NeverOverdrawn(c: Reign, states: seq<Sys>) {
    forall k :: 0 <= k < |states| ==>
      SafeAhead(states[0].cluster, states[k].servers[c.leader])
  }

  /** Over a whole reign no balance of the leader is ever negative, nor would be
      if the entries logged so far were committed up to any point, exactly when
      every COMMIT that debits the shard is covered when it arrives. */
  lemma NoOverdraftExactly(c: Reign, init: map<int, int>, states: seq<Sys>, steps: seq<EpochStep>)
    requires IsReign(c, init, states, steps) && Solvent(states[0].cluster, states[0].servers[c.leader])
    ensures NeverOverdrawn(c, states) <==> DebitsCovered(c, states, steps)
  {
    assert |states| == |steps| + 1 by { ReignStart(c, init, states, steps); }
    hide IsReign, Solvent, SafeAhead, StepCovered, EpochInv, LeaderInv;
    if DebitsCovered(c, states, steps) {
      forall k | 0 <= k < |states|
        ensures SafeAhead(states[0].cluster, states[k].servers[c.leader])
      {
        ReignSolvent(c, init, states, steps, k);
        SafeMoment(c, init, states, steps, k);
      }
    } else {
      var k :| 0 <= k < |steps| && !StepCovered(c, states[0].cluster, states[k], steps[k]);
      FirstUncovered(c, init, states, steps, k);
    }
  }

  lemma SafeMoment(c: Reign, init: map<int, int>, states: seq<Sys>, steps: seq<EpochStep>, k: nat)
    requires IsReign(c, init, states, steps) && k < |states|
    requires Solvent(states[0].cluster, states[k].servers[c.leader])
    ensures SafeAhead(states[0].cluster, states[k].servers[c.leader])
  {
    hide IsReign, Solvent, EpochInv;
    ReignAt(c, init, states, steps, k);
    SolventSafe(states[0].cluster, init, states[k].servers[c.leader]);
  }

  /** The first debit that is not covered shows. */
  lemma FirstUncovered(c: Reign, init: map<int, int>, states: seq<Sys>, steps: seq<EpochStep>, k: nat)
    requires IsReign(c, init, states, steps) && Solvent(states[0].cluster, states[0].servers[c.leader])
    requires k < |steps| && !StepCovered(c, states[0].cluster, states[k], steps[k])
    ensures !NeverOverdrawn(c, states)
  {
    hide IsReign, Solvent, StepCovered, SafeAhead, EpochInv, LeaderInv;
    assert |states| == |steps| + 1 by { ReignStart(c, init, states, steps); }
    if j :| 0 <= j < k && !StepCovered(c, states[0].cluster, states[j], steps[j]) {
      FirstUncovered(c, init, states, steps, j);
    } else {
      ReignSolvent(c, init, states, steps, k);
      UncoveredStep(c, init, states, steps, k);
    }
  }

  lemma UncoveredStep(c: Reign, init: map<int, int>, states: seq<Sys>, steps: seq<EpochStep>, k: nat)
    requires IsReign(c, init, states, steps) && k < |steps|
    requires Solvent(states[0].cluster, states[k].servers[c.leader])
    requires !StepCovered(c, states[0].cluster, states[k], steps[k])
    ensures !NeverOverdrawn(c, states)
  {
    assert |states| == |steps| + 1 by { ReignStart(c, init, states, steps); }
    ReignAt(c, init, states, steps, k);
    var l, step, cluster := states[k].servers[c.leader], steps[k], states[0].cluster;
    assert states[k + 1].servers[c.leader] == OnCommit(l, cluster, step.req, step.fd).server;
    hide IsReign, Solvent, DebitCovered, SafeAhead, EpochInv, LeaderInv, OnCommit;
    CommitOverdrawsExactly(cluster, init, l, step.req, step.fd);
  }

  /** In every reign in which each debiting COMMIT is covered, at every moment and
      also between any two entries of a commit, each balance of the leader is
      between zero and the shard total, which is the initial total plus what
      COMMITs brought in.  So 32-bit balances cannot overflow when it fits. */
  lemma NoOverdraft(c: Reign, init: map<int, int>, states: seq<Sys>, steps: seq<EpochStep>, k: nat, upto: int, a: int)
    requires IsReign(c, init, states, steps) && k < |states| && DebitsCovered(c, states, steps)
    requires Solvent(states[0].cluster, states[0].servers[c.leader])
    requires Local(states[0].cluster, a)
    requires states[k].servers[c.leader].commit < upto <= |states[k].servers[c.leader].log|
    ensures var l := states[k].servers[c.leader]; var cluster := states[0].cluster;
            && 0 <= Get(Fold(l.bal, l.log[l.commit + 1..upto]), a) <= Total(l.bal, cluster)
            && Total(l.bal, cluster) == Total(init, cluster) + CrossTotal(cluster, l.log)
  {
    ReignKeeps(c, init, states, steps, k);
    ReignSolvent(c, init, states, steps, k);
    FullParts(c, init, states[k]);
    hide FullInv, EpochInv, IsReign, DebitsCovered, Solvent, Fold, Total, CrossTotal, Local, LocksExact,
         PendingDisjoint, IdsOrdered;
    var l := states[k].servers[c.leader];
    BalanceBounds(states[0].cluster, init, l, upto, a);
    TotalFollowsLog(states[0].cluster, init, l);
  }
}
