/** Every run can be drained of its pools and queues; with both hypotheses the servers then agree. */
module Progress {
  import opened Commands
  import opened Traces
  import opened Node
  import opened Cluster
  import opened Guarantees

  function Last(run: Run): Cluster
    requires |run.states| > 0
  {
    run.states[|run.states| - 1]
  }

  /** A step of raft or of a worker. */
  predicate Internal(t: Step) {
    t.Append? || t.Deliver? || (t.At? && (t.a.TakeFast? || t.a.RemoveRecord?))
  }

  /** later goes on from run, with fast turns first if run has them first. */
  ghost predicate Continues(run: Run, later: Run) {
    && IsRun(run) && IsRun(later)
    && 0 < |run.states| && run.states <= later.states && run.steps <= later.steps
    && (FastBeforeSlow(run) ==> FastBeforeSlow(later))
  }

  /** later goes on from run by steps of raft and of the workers only. */
  ghost predicate GoesOn(run: Run, later: Run) {
    && Continues(run, later)
    && (forall k :: |run.steps| <= k < |later.steps| ==> Internal(later.steps[k]))
    && (LeaderAccepts(run) ==> LeaderAccepts(later))
  }

  lemma GoesOnTransitive(a: Run, b: Run, c: Run)
    requires GoesOn(a, b) && GoesOn(b, c)
    ensures GoesOn(a, c)
  {
    hide IsRun, FastBeforeSlow, LeaderAccepts;
    forall k | |a.steps| <= k < |c.steps| ensures Internal(c.steps[k]) {
      assert k < |b.steps| ==> c.steps[k] == b.steps[k];
    }
  }

  lemma AfterGoesOn(run: Run, later: Run)
    requires GoesOn(run, later)
    ensures IsRun(later) && 0 < |run.states| <= |later.states| && later.states[0] == run.states[0]
    ensures later.states[|run.states| - 1] == Last(run)
    ensures (FastBeforeSlow(run) ==> FastBeforeSlow(later)) && (LeaderAccepts(run) ==> LeaderAccepts(later))
  {
    hide IsRun, FastBeforeSlow, LeaderAccepts, Internal;
  }

  ghost function Extended(run: Run, t: Step): Run
    requires IsRun(run) && Last(run).leader < |Last(run).nodes| && Enabled(Last(run), t)
  {
    Run(run.states + [Apply(Last(run), t)], run.steps + [t])
  }

  lemma ExtendedIsRun(run: Run, t: Step)
    requires IsRun(run) && Last(run).leader < |Last(run).nodes| && Enabled(Last(run), t)
    ensures IsRun(Extended(run, t))
    ensures FastBeforeSlow(run) && StepFastFirst(Last(run), t) ==> FastBeforeSlow(Extended(run, t))
    ensures LeaderAccepts(run) && StepAccepts(Last(run), t) ==> LeaderAccepts(Extended(run, t))
  {
    hide Enabled, Apply, Performs, FastFirst, Accepts, Init;
    var all, n := Extended(run, t), |run.steps|;
    assert all.states[0] == run.states[0] && all.states[n] == Last(run) && all.steps[n] == t;
    assert forall k :: 0 <= k <= n ==> all.states[k] == run.states[k];
    assert forall k :: 0 <= k < n ==> all.steps[k] == run.steps[k];
  }

  lemma InternalAccepts(s: Cluster, t: Step)
    requires s.leader < |s.nodes| && Internal(t)
    ensures StepAccepts(s, t)
    ensures !t.Deliver? ==> StepFastFirst(s, t)
  {
  }

  /** One more internal step. */
  lemma GoOn(run: Run, t: Step) returns (later: Run)
    requires IsRun(run) && Last(run).leader < |Last(run).nodes| && Enabled(Last(run), t)
    requires Internal(t) && (FastBeforeSlow(run) ==> StepFastFirst(Last(run), t))
    ensures GoesOn(run, later) && Last(later) == Apply(Last(run), t)
  {
    later := Extended(run, t);
    hide Enabled, Apply, Performs, Init, FastBeforeSlow, LeaderAccepts, StepFastFirst;
    ExtendedIsRun(run, t);
    InternalAccepts(Last(run), t);
  }

  lemma LastHolds(run: Run)
    requires IsRun(run)
    ensures |run.states| == |run.steps| + 1
    ensures ClusterInv(Last(run)) && Last(run).leader < |Last(run).nodes|
    ensures FastBeforeSlow(run) ==> LeaderHolds(Last(run))
  {
    hide IsRun, FastBeforeSlow, ClusterInv, LeaderHolds;
    RunStarts(run);
    AlwaysInv(run, |run.states| - 1);
    RunHasLeader(run, |run.states| - 1);
    if FastBeforeSlow(run) {
      AlwaysLeader(run, |run.states| - 1);
    }
  }

  /** At most server i has moved. */
  ghost predicate OnlyAt(s: Cluster, s': Cluster, i: nat) {
    && s'.leader == s.leader && s'.log == s.log && s'.proposals == s.proposals && |s'.nodes| == |s.nodes|
    && forall j :: 0 <= j < |s.nodes| && j != i ==> s'.nodes[j] == s.nodes[j]
  }

  // ---------------------------------------------------------------- draining

  /** Everything proposed can be appended. */
  lemma {:induction false} AppendAll(run: Run) returns (later: Run)
    requires IsRun(run)
    ensures GoesOn(run, later) && Last(later).proposals == multiset{}
    decreases |Last(run).proposals|
  {
    hide IsRun, FastBeforeSlow, LeaderAccepts, StepFastFirst, ClusterInv, LeaderHolds;
    LastHolds(run);
    var s := Last(run);
    if s.proposals == multiset{} {
      later := run;
    } else {
      var c :| c in s.proposals;
      InternalAccepts(s, Append(c));
      var next := GoOn(run, Append(c));
      later := AppendAll(next);
      GoesOnTransitive(run, next, later);
    }
  }

  lemma AfterRemove(s: Cluster, i: nat)
    requires s.leader < |s.nodes| && i < |s.nodes| && s.nodes[i].r.committing.Some?
    ensures var t := At(i, RemoveRecord);
            && Enabled(s, t) && OnlyAt(s, Apply(s, t), i)
            && var n, n' := s.nodes[i], Apply(s, t).nodes[i];
               n'.r.committing.None? && n'.slow == n.slow && n'.r.fastPath == n.r.fastPath
  {
  }

  /** A worker can finish the slow turn it is in. */
  lemma Finish(run: Run, i: nat) returns (later: Run)
    requires IsRun(run) && i < |Last(run).nodes|
    ensures GoesOn(run, later) && OnlyAt(Last(run), Last(later), i)
    ensures var n, n' := Last(run).nodes[i], Last(later).nodes[i];
            n'.r.committing.None? && n'.slow == n.slow && n'.r.fastPath == n.r.fastPath
  {
    hide IsRun, FastBeforeSlow, LeaderAccepts, StepFastFirst, ClusterInv, LeaderHolds, Apply, Enabled;
    LastHolds(run);
    later := run;
    if Last(run).nodes[i].r.committing.Some? {
      AfterRemove(Last(run), i);
      InternalAccepts(Last(run), At(i, RemoveRecord));
      later := GoOn(run, At(i, RemoveRecord));
    }
  }

  lemma AfterFastStep(s: Cluster, i: nat, c: Command)
    requires s.leader < |s.nodes| && i < |s.nodes| && Enabled(s, At(i, TakeFast(c)))
    ensures var s' := Apply(s, At(i, TakeFast(c)));
            && OnlyAt(s, s', i) && c in s.nodes[i].r.fastPath
            && s'.nodes[i].r.fastPath == s.nodes[i].r.fastPath - multiset{c}
  {
  }

  /** The leader can execute everything in its fast pool. */
  lemma {:induction false} ExecuteAll(run: Run) returns (later: Run)
    requires IsRun(run) && Last(run).proposals == multiset{} && Last(run).leader < |Last(run).nodes|
    ensures GoesOn(run, later) && Last(later).proposals == multiset{}
    ensures Last(later).leader < |Last(later).nodes| && Leader(Last(later)).r.fastPath == multiset{}
    decreases |Leader(Last(run)).r.fastPath|
  {
    hide IsRun, FastBeforeSlow, LeaderAccepts, StepFastFirst, ClusterInv, LeaderHolds, Apply, Enabled;
    LastHolds(run);
    later := run;
    var l := Last(run).leader;
    if Leader(Last(run)).r.fastPath != multiset{} {
      var ready := Finish(run, l);
      LastHolds(ready);
      var c :| c in Leader(Last(run)).r.fastPath;
      FastEnabled(Last(ready), l, c);
      InternalAccepts(Last(ready), At(l, TakeFast(c)));
      var next := GoOn(ready, At(l, TakeFast(c)));
      AfterFastStep(Last(ready), l, c);
      later := ExecuteAll(next);
      GoesOnTransitive(run, ready, next);
      GoesOnTransitive(run, next, later);
    }
  }

  /** Nothing is on its way to raft or to the leader's fast turns. */
  ghost predicate PoolsEmpty(s: Cluster) {
    s.leader < |s.nodes| && s.proposals == multiset{} && Leader(s).r.fastPath == multiset{}
  }

  lemma AfterDeliver(s: Cluster, i: nat)
    requires s.leader < |s.nodes| && i < |s.nodes| && Enabled(s, Deliver(i))
    ensures var s' := Apply(s, Deliver(i));
            && OnlyAt(s, s', i) && |s'.nodes[i].slow| == |s.nodes[i].slow| + 1
            && s'.nodes[i].r.fastPath == s.nodes[i].r.fastPath
  {
  }

  /** With the fast pool empty, the whole log has been executed at the leader. */
  lemma DeliveryIsFastFirst(s: Cluster, i: nat)
    requires s.leader < |s.nodes| && LeaderHolds(s) && PoolsEmpty(s) && i < |s.nodes|
    ensures StepFastFirst(s, Deliver(i))
  {
    hide NodesInv, ClientsInv, SetIsUnsynced, ResultsInserted, BoardCalm;
    var n := Leader(s);
    forall c | c in s.log ensures c in n.executed {
      assert Known(s.issued, c) && c.id in n.queued;
    }
  }

  /** Server i has nothing left to do. */
  ghost predicate UpToDate(s: Cluster, i: nat) {
    i < |s.nodes| && s.nodes[i].slow == s.log && s.nodes[i].r.committing.None?
  }

  /** A server can catch up with the log. */
  lemma {:induction false} CatchUp(run: Run, i: nat) returns (later: Run)
    requires IsRun(run) && PoolsEmpty(Last(run)) && i < |Last(run).nodes|
    ensures GoesOn(run, later) && PoolsEmpty(Last(later)) && OnlyAt(Last(run), Last(later), i)
    ensures Last(later).nodes[i].slow == Last(later).log
    ensures UpToDate(Last(run), i) ==> Last(later).nodes[i] == Last(run).nodes[i]
    decreases |Last(run).log| - |Last(run).nodes[i].slow|
  {
    hide IsRun, FastBeforeSlow, LeaderAccepts, StepFastFirst, ClusterInv, LeaderHolds, Apply, Enabled;
    LastHolds(run);
    TakesPrefix(Last(run), i);
    later := run;
    if |Last(run).nodes[i].slow| < |Last(run).log| {
      var ready := Finish(run, i);
      LastHolds(ready);
      DeliverEnabled(Last(ready), i);
      if FastBeforeSlow(ready) {
        DeliveryIsFastFirst(Last(ready), i);
      }
      var next := GoOn(ready, Deliver(i));
      AfterDeliver(Last(ready), i);
      later := CatchUp(next, i);
      GoesOnTransitive(run, ready, next);
      GoesOnTransitive(run, next, later);
    }
  }

  lemma TakesPrefix(s: Cluster, i: nat)
    requires ClusterInv(s) && i < |s.nodes|
    ensures s.nodes[i].slow <= s.log
  {
    hide NodesInv, ClientsInv;
  }

  lemma {:induction false} AllCatchUp(run: Run, m: nat) returns (later: Run)
    requires IsRun(run) && PoolsEmpty(Last(run)) && m <= |Last(run).nodes|
    ensures GoesOn(run, later) && PoolsEmpty(Last(later)) && |Last(later).nodes| == |Last(run).nodes|
    ensures Last(later).log == Last(run).log && Last(later).leader == Last(run).leader
    ensures forall i :: 0 <= i < m ==> Last(later).nodes[i].slow == Last(later).log
    ensures forall i: nat :: UpToDate(Last(run), i) ==> Last(later).nodes[i] == Last(run).nodes[i]
    decreases m
  {
    hide FastBeforeSlow, LeaderAccepts, PoolsEmpty, Init, Apply, Enabled;
    later := run;
    if m > 0 {
      var before := AllCatchUp(run, m - 1);
      later := CatchUp(before, m - 1);
      GoesOnTransitive(run, before, later);
      forall i: nat | UpToDate(Last(run), i) ensures Last(later).nodes[i] == Last(run).nodes[i] {
        assert UpToDate(Last(before), i);
      }
    }
  }

  /** Every server's store is the log's, and the log holds every command the leader queued. */
  ghost predicate Agreement(s: Cluster) {
    && s.leader < |s.nodes|
    && (forall i :: 0 <= i < |s.nodes| ==> s.nodes[i].r.store == Replay(map[], s.log))
    && (forall id :: id in Leader(s).queued ==> id in s.issued && s.issued[id] in s.log)
  }

  /** Every run goes on, by steps of raft and the workers alone, to a drained state. */
  lemma CanDrain(run: Run) returns (later: Run)
    requires IsRun(run)
    ensures GoesOn(run, later) && Drained(Last(later)) && PoolsEmpty(Last(later))
  {
    hide FastBeforeSlow, LeaderAccepts, Init, Apply, Enabled;
    var appended := AppendAll(run);
    LastHolds(appended);
    var executed := ExecuteAll(appended);
    later := AllCatchUp(executed, |Last(executed).nodes|);
    GoesOnTransitive(run, appended, executed);
    GoesOnTransitive(run, executed, later);
  }

  lemma QueuedIsLogged(s: Cluster)
    requires OrderHolds(s) && Drained(s) && s.leader < |s.nodes|
    ensures forall id :: id in Leader(s).queued ==> id in s.issued && s.issued[id] in s.log
  {
    hide NodesInv, ClientsInv, LeaderInv, OrderInv;
  }

  lemma StoresAreLog(s: Cluster)
    requires OrderHolds(s) && Drained(s) && s.leader < |s.nodes|
    ensures forall i :: 0 <= i < |s.nodes| ==> s.nodes[i].r.store == Replay(map[], s.log)
  {
    hide *;
    forall i | 0 <= i < |s.nodes| ensures s.nodes[i].r.store == Replay(map[], s.log) {
      DrainedStores(s, i);
    }
  }

  lemma DrainedAgrees(s: Cluster)
    requires OrderHolds(s) && Drained(s) && s.leader < |s.nodes|
    ensures Agreement(s)
  {
    hide OrderHolds, Drained, Replay;
    QueuedIsLogged(s);
    StoresAreLog(s);
  }

  /** Every run with both hypotheses goes on to one in which all servers agree and nothing the leader queued is lost. */
  lemma CanConverge(run: Run)
    requires IsRun(run) && FastBeforeSlow(run) && LeaderAccepts(run)
    ensures exists later :: GoesOn(run, later) && Agreement(Last(later))
  {
    hide IsRun, FastBeforeSlow, LeaderAccepts, LeaderInv, OrderInv, LogInv, ClientsInv, Drained, Agreement;
    var later := CanDrain(run);
    LastHolds(later);
    RunStarts(later);
    AlwaysOrdered(later, |later.states| - 1);
    DrainedAgrees(Last(later));
  }
}
