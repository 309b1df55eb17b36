/** What every run of the cluster guarantees. */
module Guarantees {
  import opened Commands
  import opened Traces
  import opened Witness
  import opened Node
  import opened Cluster
  import B = Board
  import C = Client

  datatype Run = Run(states: seq<Cluster>, steps: seq<Step>)

  ghost predicate IsRun(run: Run) {
    && |run.states| == |run.steps| + 1
    && Init(run.states[0])
    && forall k :: 0 <= k < |run.steps| ==>
         && run.states[k].leader < |run.states[k].nodes|
         && Enabled(run.states[k], run.steps[k])
         && run.states[k + 1] == Apply(run.states[k], run.steps[k])
  }

  /** At the leader every command's fast turn comes before its slow turn. */
  ghost predicate FastBeforeSlow(run: Run)
    requires IsRun(run)
  {
    forall k, a :: 0 <= k < |run.steps| && Performs(run.states[k], run.steps[k], run.states[k].leader, a) ==>
      FastFirst(Leader(run.states[k]), a)
  }

  /** The leader's witness reports no conflict. */
  ghost predicate LeaderAccepts(run: Run)
    requires IsRun(run)
  {
    forall k, a :: 0 <= k < |run.steps| && Performs(run.states[k], run.steps[k], run.states[k].leader, a) ==>
      Accepts(Leader(run.states[k]), a)
  }

  lemma RunStarts(run: Run)
    requires IsRun(run)
    ensures |run.states| == |run.steps| + 1 && Init(run.states[0])
  {
    hide Init, Enabled, Apply;
  }

  lemma StepAt(run: Run, k: nat)
    requires IsRun(run) && k + 1 < |run.states|
    ensures k < |run.steps|
    ensures run.states[k].leader < |run.states[k].nodes|
    ensures Enabled(run.states[k], run.steps[k]) && run.states[k + 1] == Apply(run.states[k], run.steps[k])
    ensures FastBeforeSlow(run) ==> StepFastFirst(run.states[k], run.steps[k])
    ensures LeaderAccepts(run) ==> StepAccepts(run.states[k], run.steps[k])
  {
    hide Enabled, Apply, Performs, FastFirst, Accepts;
  }

  ghost predicate StepFastFirst(s: Cluster, t: Step)
    requires s.leader < |s.nodes|
  {
    forall a :: Performs(s, t, s.leader, a) ==> FastFirst(Leader(s), a)
  }

  ghost predicate StepAccepts(s: Cluster, t: Step)
    requires s.leader < |s.nodes|
  {
    forall a :: Performs(s, t, s.leader, a) ==> Accepts(Leader(s), a)
  }

  lemma StartInv(isLeader: bool)
    ensures WitnessInv(Start(isLeader), map[]) && LocalInv(Start(isLeader), map[]) && CleanInv(Start(isLeader), map[])
  {
  }

  lemma StartLeaderInv()
    ensures LeaderInv(Start(true), map[]) && OrderInv(Start(true))
  {
  }

  lemma InitInv(s: Cluster)
    requires Init(s)
    ensures ClusterInv(s) && (LeaderInv(Leader(s), s.issued) && OrderInv(Leader(s)))
  {
    hide WitnessInv, LocalInv, CleanInv, LeaderInv, OrderInv;
    StartInv(true);
    StartInv(false);
    StartLeaderInv();
  }

  /** Every state of every run satisfies the cluster invariant. */
  lemma {:induction false} AlwaysInv(run: Run, k: nat)
    requires IsRun(run) && k < |run.states|
    ensures ClusterInv(run.states[k])
    decreases k
  {
    hide *;
    if k == 0 {
      RunStarts(run);
      InitHolds(run.states[0]);
    } else {
      AlwaysInv(run, k - 1);
      StepAt(run, k - 1);
      InvKept(run.states[k - 1], run.steps[k - 1]);
    }
  }

  // ---------------------------------------------------------------- the leader along a run

  /** What a step does at server i. */
  ghost function ActionAt(s: Cluster, t: Step, i: nat): Option<Action>
    requires s.leader < |s.nodes| && i < |s.nodes|
  {
    match t
    case At(j, a) => if j == i then Some(a) else None
    case Deliver(j) =>
      if j == i && |s.nodes[i].slow| < |s.log| then Some(TakeSlow(s.log[|s.nodes[i].slow|])) else None
    case _ => None
  }

  lemma NodeEvolves(s: Cluster, t: Step, i: nat)
    requires s.leader < |s.nodes| && i < |s.nodes| && Enabled(s, t)
    ensures var s', o := Apply(s, t), ActionAt(s, t, i);
            && s'.leader == s.leader && |s'.nodes| == |s.nodes|
            && (o.Some? ==> Performs(s, t, i, o.value) && CanAct(s.nodes[i], o.value))
            && s'.nodes[i] == (if o.Some? then Act(s.nodes[i], o.value) else s.nodes[i])
            && s'.issued == (if t.Invoke? then s.issued[t.cmd.id := t.cmd] else s.issued)
            && (t.Invoke? ==> t.cmd.id !in s.issued && o.None?)
  {
    hide CanAct, Act, HasReturned, C.Decides, MayWait, AfterVote;
  }

  /** The leader's node satisfies its local invariants. */
  lemma LeaderLocal(s: Cluster)
    requires ClusterInv(s)
    ensures WitnessInv(Leader(s), s.issued) && LocalInv(Leader(s), s.issued) && Leader(s).r.isLeader
  {
    hide WitnessInv, LocalInv, CleanInv, LogInv, ClientsInv;
  }

  lemma LeaderStep(s: Cluster, t: Step)
    requires s.leader < |s.nodes| && ClusterInv(s) && Enabled(s, t)
    requires LeaderInv(Leader(s), s.issued) && StepFastFirst(s, t)
    ensures Apply(s, t).leader == s.leader < |Apply(s, t).nodes|
    ensures LeaderInv(Leader(Apply(s, t)), Apply(s, t).issued)
  {
    hide LeaderInv, WitnessInv, LocalInv, CleanInv, FastFirst, Act, CanAct, Apply, Enabled, Performs, LogInv;
    hide ClientsInv, NodesInv;
    NodeEvolves(s, t, s.leader);
    LeaderLocal(s);
    var n, o := Leader(s), ActionAt(s, t, s.leader);
    if t.Invoke? {
      LeaderRegistryGrows(n, s.issued, t.cmd);
    } else if o.Some? {
      StepIsAdmissible(s, t, s.leader, o.value);
      LeaderKept(n, s.issued, o.value);
    }
  }

  lemma OrderStep(s: Cluster, t: Step)
    requires s.leader < |s.nodes| && ClusterInv(s) && Enabled(s, t)
    requires LeaderInv(Leader(s), s.issued) && OrderInv(Leader(s))
    requires StepFastFirst(s, t) && StepAccepts(s, t)
    ensures Apply(s, t).leader == s.leader < |Apply(s, t).nodes|
    ensures OrderInv(Leader(Apply(s, t)))
  {
    hide LeaderInv, OrderInv, WitnessInv, LocalInv, CleanInv, FastFirst, Accepts, Act, CanAct, Apply, Enabled;
    hide Performs, LogInv, ClientsInv, NodesInv;
    NodeEvolves(s, t, s.leader);
    LeaderLocal(s);
    var o := ActionAt(s, t, s.leader);
    if o.Some? {
      StepIsAdmissible(s, t, s.leader, o.value);
      OrderKept(Leader(s), s.issued, o.value);
    }
  }

  ghost predicate LeaderHolds(s: Cluster) {
    ClusterInv(s) && LeaderInv(Leader(s), s.issued)
  }

  ghost predicate OrderHolds(s: Cluster) {
    LeaderHolds(s) && OrderInv(Leader(s))
  }

  lemma LeaderHoldsStep(s: Cluster, t: Step)
    requires s.leader < |s.nodes| && LeaderHolds(s) && Enabled(s, t) && StepFastFirst(s, t)
    ensures LeaderHolds(Apply(s, t))
  {
    hide ClusterInv, LeaderInv, Enabled, Apply, StepFastFirst;
    InvKept(s, t);
    LeaderStep(s, t);
  }

  lemma OrderHoldsStep(s: Cluster, t: Step)
    requires s.leader < |s.nodes| && OrderHolds(s) && Enabled(s, t) && StepFastFirst(s, t) && StepAccepts(s, t)
    ensures OrderHolds(Apply(s, t))
  {
    hide ClusterInv, LeaderInv, OrderInv, Enabled, Apply, StepFastFirst, StepAccepts;
    LeaderHoldsStep(s, t);
    OrderStep(s, t);
  }

  lemma InitHolds(s: Cluster)
    requires Init(s)
    ensures OrderHolds(s) && LeaderHolds(s) && ClusterInv(s)
  {
    hide ClusterInv, LeaderInv, OrderInv;
    InitInv(s);
  }

  lemma {:induction false} AlwaysLeader(run: Run, k: nat)
    requires IsRun(run) && FastBeforeSlow(run) && k < |run.states|
    ensures LeaderHolds(run.states[k])
    decreases k
  {
    hide *;
    if k == 0 {
      RunStarts(run);
      InitHolds(run.states[0]);
    } else {
      AlwaysLeader(run, k - 1);
      StepAt(run, k - 1);
      LeaderHoldsStep(run.states[k - 1], run.steps[k - 1]);
    }
  }

  lemma {:induction false} AlwaysOrdered(run: Run, k: nat)
    requires IsRun(run) && FastBeforeSlow(run) && LeaderAccepts(run) && k < |run.states|
    ensures OrderHolds(run.states[k])
    decreases k
  {
    hide *;
    if k == 0 {
      RunStarts(run);
      InitHolds(run.states[0]);
    } else {
      AlwaysOrdered(run, k - 1);
      StepAt(run, k - 1);
      OrderHoldsStep(run.states[k - 1], run.steps[k - 1]);
    }
  }

  // ---------------------------------------------------------------- speculation and convergence

  /**
   * In every state the leader's store is the log prefix it has synced, followed by its executed but unsynced commands
   * in any order; those commands are all in its witness and pairwise free of conflicts.
   */
  lemma SpeculationHolds(run: Run, k: nat, p: seq<Command>)
    requires IsRun(run) && FastBeforeSlow(run) && LeaderAccepts(run) && k < |run.states|
    requires run.states[k].leader < |run.states[k].nodes| && ListsUnsynced(p, Leader(run.states[k]))
    ensures var s := run.states[k];
            var n := Leader(s);
            && n.slow <= s.log
            && n.r.store == Replay(Replay(map[], n.slow), p)
            && SameOutcome(map[], n.executed, n.slow + p)
            && (forall c :: c in p ==> c.id in n.r.records && n.r.records[c.id] == c)
            && (forall c, d :: c in p && d in p && c != d ==> !Conflict(c, d))
  {
    hide IsRun, FastBeforeSlow, LeaderAccepts;
    AlwaysOrdered(run, k);
    hide LeaderInv, LocalInv, WitnessInv, CleanInv, OrderInv, ListsUnsynced, SameOutcome, Replay, ClientsInv;
    Speculation(Leader(run.states[k]), run.states[k].issued, p);
  }

  /** Nothing is on its way to raft, and every server has taken the whole log from its slow path. */
  ghost predicate Drained(s: Cluster) {
    s.proposals == multiset{} && forall i :: 0 <= i < |s.nodes| ==> s.nodes[i].slow == s.log
  }

  lemma DrainedExecutions(s: Cluster)
    requires s.leader < |s.nodes| && LogInv(s) && LeaderInv(Leader(s), s.issued) && Drained(s)
    ensures ListsUnsynced([], Leader(s))
    ensures SameCommands(Leader(s).executed, s.log) && Distinct(Leader(s).executed)
  {
    hide ResultsInserted, BoardCalm, SetIsUnsynced;
    var n := Leader(s);
    forall c | c in n.executed ensures c in s.log {
      assert Known(s.issued, c) && c.id in n.queued;
      assert c !in s.proposals;
    }
  }

  lemma FollowerStore(s: Cluster, i: nat)
    requires NodesInv(s) && i < |s.nodes| && i != s.leader
    ensures s.nodes[i].executed == s.nodes[i].slow
    ensures s.nodes[i].r.store == Replay(map[], s.nodes[i].slow)
  {
    hide WitnessInv, CleanInv;
    assert LocalInv(s.nodes[i], s.issued);
  }

  lemma DrainedStores(s: Cluster, i: nat)
    requires s.leader < |s.nodes| && OrderHolds(s) && Drained(s) && i < |s.nodes|
    ensures s.nodes[i].r.store == Leader(s).r.store == Replay(map[], s.log)
    ensures SameOutcome(map[], Leader(s).executed, s.log)
  {
    hide LeaderInv, OrderInv, WitnessInv, LocalInv, CleanInv, ClientsInv, LogInv, SameOutcome;
    LeaderLocal(s);
    DrainedExecutions(s);
    Speculation(Leader(s), s.issued, []);
    assert Leader(s).slow + [] == s.log;
    if i != s.leader {
      FollowerStore(s, i);
    }
  }

  /** Convergence: once drained, the leader's store, built in fast order, is every follower's, built in log order. */
  lemma Convergence(run: Run, k: nat, i: nat)
    requires IsRun(run) && FastBeforeSlow(run) && LeaderAccepts(run) && k < |run.states| && Drained(run.states[k])
    requires run.states[k].leader < |run.states[k].nodes| && i < |run.states[k].nodes|
    ensures run.states[k].nodes[i].r.store == Leader(run.states[k]).r.store == Replay(map[], run.states[k].log)
    ensures SameOutcome(map[], Leader(run.states[k]).executed, run.states[k].log)
  {
    hide *;
    AlwaysOrdered(run, k);
    DrainedStores(run.states[k], i);
  }

  /**
   * Without any assumption on conflicts: if the leader executed every conflicting pair in log order, the stores
   * agree.
   */
  lemma ConvergenceSameOrder(run: Run, k: nat, i: nat)
    requires IsRun(run) && FastBeforeSlow(run) && k < |run.states| && Drained(run.states[k])
    requires run.states[k].leader < |run.states[k].nodes| && i < |run.states[k].nodes|
    requires AgreeOnConflicts(Leader(run.states[k]).executed, run.states[k].log)
    ensures run.states[k].nodes[i].r.store == Leader(run.states[k]).r.store
    ensures SameOutcome(map[], Leader(run.states[k]).executed, run.states[k].log)
  {
    var s := run.states[k];
    hide IsRun, FastBeforeSlow;
    AlwaysLeader(run, k);
    DrainedExecutions(s);
    assert Distinct(s.log);
    TraceEquivalence(map[], Leader(s).executed, s.log);
    assert StoreInv(Leader(s)) by {
      assert LocalInv(Leader(s), s.issued);
    }
    hide LeaderInv, LocalInv, WitnessInv, CleanInv, ClientsInv, LogInv, AgreeOnConflicts, Replay, ResultAt;
    if i != s.leader {
      FollowerStore(s, i);
    }
  }

  /**
   * In every state of every run, whatever the order of turns and conflicts: the leader's store is a server's store
   * exactly when, at every key, the last write the leader executed left what the last write of the server's log
   * prefix left.
   */
  lemma StoresAgreeExactly(run: Run, k: nat, i: nat)
    requires IsRun(run) && k < |run.states|
    requires run.states[k].leader < |run.states[k].nodes| && i < |run.states[k].nodes| && i != run.states[k].leader
    ensures run.states[k].nodes[i].r.store == Leader(run.states[k]).r.store <==>
            forall key ::
              LeftAt(map[], Leader(run.states[k]).executed, key) == LeftAt(map[], run.states[k].nodes[i].slow, key)
  {
    var s := run.states[k];
    hide IsRun, LeftAt;
    AlwaysInv(run, k);
    FollowerStore(s, i);
    assert LocalInv(Leader(s), s.issued);
    SameStoreExactly(map[], Leader(s).executed, s.nodes[i].slow);
  }

  // ---------------------------------------------------------------- exactly once

  /** n has executed each id once, and its set holds the ids executed whose record is not removed. */
  ghost predicate ExecutesOnce(n: Node, reg: Registry) {
    && Distinct(n.executed)
    && (forall c :: c in n.slow ==> c in n.executed)
    && SetIsUnsynced(n, reg)
    && (n.r.committing.None? ==> Gone(n) == n.slow)
  }

  lemma LeaderInvExecutesOnce(n: Node, reg: Registry)
    requires LeaderInv(n, reg)
    ensures ExecutesOnce(n, reg)
  {
    hide ResultsInserted, BoardCalm;
    assert n.r.committing.None? ==> n.slow[..|n.slow|] == n.slow;
  }

  /**
   * The leader executes each id once; between turns its de-duplication set is the ids executed but not slow-applied.
   */
  lemma LeaderExecutesOnce(run: Run, k: nat)
    requires IsRun(run) && FastBeforeSlow(run) && k < |run.states|
    ensures run.states[k].leader < |run.states[k].nodes|
    ensures ExecutesOnce(Leader(run.states[k]), run.states[k].issued)
  {
    hide IsRun, FastBeforeSlow, LeaderInv, ExecutesOnce, LogInv, ClientsInv, WitnessInv, LocalInv, CleanInv;
    AlwaysLeader(run, k);
    LeaderInvExecutesOnce(Leader(run.states[k]), run.states[k].issued);
  }

  /**
   * In every run, a server that does not lead executes the log prefix it has taken, and its set is empty between
   * turns.
   */
  lemma FollowersExecuteLog(run: Run, k: nat, i: nat)
    requires IsRun(run) && k < |run.states|
    requires i < |run.states[k].nodes| && i != run.states[k].leader
    ensures var s := run.states[k];
            var n := s.nodes[i];
            && n.executed == n.slow <= s.log && Distinct(s.log)
            && n.r.store == Replay(map[], n.slow)
            && (n.r.committing.None? ==> n.r.commandSet == {})
  {
    hide IsRun;
    AlwaysInv(run, k);
    FollowerStore(run.states[k], i);
    hide ClientsInv, WitnessInv, CleanInv;
    assert LocalInv(run.states[k].nodes[i], run.states[k].issued);
  }

  /** In every run no worker is ever blocked: whatever is waiting for it, it can serve. */
  lemma WorkersNeverBlock(run: Run, k: nat, i: nat)
    requires IsRun(run) && k < |run.states| && run.states[k].leader < |run.states[k].nodes| && i < |run.states[k].nodes|
    ensures var s := run.states[k];
            var n := s.nodes[i];
            && (n.r.committing.Some? ==> Enabled(s, At(i, RemoveRecord)))
            && (n.r.committing.None? && |n.slow| < |s.log| ==> Enabled(s, Deliver(i)))
            && (forall c :: n.r.committing.None? && c in n.r.fastPath ==> Enabled(s, At(i, TakeFast(c))))
  {
    hide IsRun;
    AlwaysInv(run, k);
    ServerNeverBlocks(run.states[k], i);
  }

  lemma ServerNeverBlocks(s: Cluster, i: nat)
    requires ClusterInv(s) && s.leader < |s.nodes| && i < |s.nodes|
    ensures var n := s.nodes[i];
            && (n.r.committing.Some? ==> Enabled(s, At(i, RemoveRecord)))
            && (n.r.committing.None? && |n.slow| < |s.log| ==> Enabled(s, Deliver(i)))
            && (forall c :: n.r.committing.None? && c in n.r.fastPath ==> Enabled(s, At(i, TakeFast(c))))
  {
    var n := s.nodes[i];
    hide ClusterInv, Enabled;
    if n.r.committing.Some? {
      RemoveEnabled(s, i);
    } else {
      if |n.slow| < |s.log| {
        DeliverEnabled(s, i);
      }
      forall c | c in n.r.fastPath ensures Enabled(s, At(i, TakeFast(c))) {
        FastEnabled(s, i, c);
      }
    }
  }

  lemma RemoveEnabled(s: Cluster, i: nat)
    requires s.leader < |s.nodes| && i < |s.nodes| && s.nodes[i].r.committing.Some?
    ensures Enabled(s, At(i, RemoveRecord))
  {
  }

  lemma DeliverEnabled(s: Cluster, i: nat)
    requires ClusterInv(s) && s.leader < |s.nodes| && i < |s.nodes|
    requires s.nodes[i].r.committing.None? && |s.nodes[i].slow| < |s.log|
    ensures Enabled(s, Deliver(i))
  {
    hide WitnessInv, LocalInv, CleanInv, ClientsInv, CanAct;
    NextIsNew(s, i);
    WorkerCanServe(s.nodes[i], s.issued, TakeSlow(s.log[|s.nodes[i].slow|]));
  }

  lemma FastEnabled(s: Cluster, i: nat, c: Command)
    requires ClusterInv(s) && s.leader < |s.nodes| && i < |s.nodes|
    requires s.nodes[i].r.committing.None? && c in s.nodes[i].r.fastPath
    ensures Enabled(s, At(i, TakeFast(c)))
  {
    hide WitnessInv, LocalInv, CleanInv, ClientsInv, LogInv, CanAct;
    WorkerCanServe(s.nodes[i], s.issued, TakeFast(c));
  }

  /** At the leader a WaitSynced call whose command is synced can always go on, and returns the command's result. */
  lemma SyncCallsAnswered(run: Run, k: nat, id: ProposeId)
    requires IsRun(run) && FastBeforeSlow(run) && k < |run.states| && run.states[k].leader < |run.states[k].nodes|
    requires Call(id) in Leader(run.states[k]).board.asr
    requires id in run.states[k].issued && run.states[k].issued[id] in Leader(run.states[k]).slow
    ensures B.Answered(Leader(run.states[k]).board, Call(id))
  {
    hide *;
    AlwaysLeader(run, k);
    CallAnswered(run.states[k], id);
  }

  lemma CallAnswered(s: Cluster, id: ProposeId)
    requires s.leader < |s.nodes| && LeaderHolds(s) && Call(id) in Leader(s).board.asr
    requires id in s.issued && s.issued[id] in Leader(s).slow
    ensures B.Answered(Leader(s).board, Call(id))
  {
    assert LocalInv(Leader(s), s.issued);
    hide B.Sound, B.SyncChannels, B.Answers, B.Answered, LogInv, ClientsInv, NodesInv;
    B.NotifiedIsAnswered(Leader(s).board, Call(id));
  }

  // ---------------------------------------------------------------- linearizability

  /** Operations that had returned before another was invoked precede it in this order. */
  ghost predicate RespectsRealTime(s: Cluster, order: seq<Command>) {
    forall id, a :: id in s.ops && a in s.ops[id].before ==>
      && a in s.issued && s.issued[a] in order
      && (id in s.issued && s.issued[id] in order ==> Before(order, s.issued[a], s.issued[id]))
  }

  /** Each returned operation was told its command's result in this order. */
  ghost predicate ExplainsReturns(s: Cluster, order: seq<Command>) {
    forall id :: id in s.ops && s.ops[id].phase.Returned? ==>
      id in s.issued && IsResult(map[], order, s.issued[id], s.ops[id].phase.content)
  }

  /** order executes issued commands, each at most once, explains what clients were told, and respects real time. */
  ghost predicate Linearizes(s: Cluster, order: seq<Command>) {
    && Distinct(order) && (forall c :: c in order ==> Known(s.issued, c))
    && RespectsRealTime(s, order) && ExplainsReturns(s, order)
  }

  ghost predicate RealTime(s: Cluster)
    requires s.leader < |s.nodes|
  {
    RespectsRealTime(s, Leader(s).executed)
  }

  lemma ReturnedIsInserted(s: Cluster, id: ProposeId)
    requires s.leader < |s.nodes| && LeaderHolds(s) && id in s.ops && s.ops[id].phase.Returned?
    ensures B.WasInserted(Leader(s).board, id, s.ops[id].phase.content)
  {
    hide NodesInv, LogInv, Flow, SetIsUnsynced, ResultsInserted, B.SyncChannels;
    assert ReturnSound(s, id, s.ops[id].phase);
  }

  /** An inserted result is the command's result in this order of execution. */
  lemma ResultIsInOrder(b: B.System, order: seq<Command>, reg: Registry, id: ProposeId, r: string)
    requires ResultsOf(b.inserted, order, reg) && B.WasInserted(b, id, r) && WellKeyed(reg)
    ensures id in reg && reg[id] in order && IsResult(map[], order, reg[id], r)
  {
    hide ResultAt;
    var k :| 0 <= k < |order| && order[k] == reg[id];
  }

  /** A returned operation was executed by the leader, and returned its result in the leader's order of execution. */
  lemma ReturnedIsExecuted(s: Cluster, id: ProposeId)
    requires s.leader < |s.nodes| && LeaderHolds(s) && id in s.ops && s.ops[id].phase.Returned?
    ensures id in s.issued && s.issued[id] in Leader(s).executed
    ensures IsResult(map[], Leader(s).executed, s.issued[id], s.ops[id].phase.content)
  {
    ReturnedIsInserted(s, id);
    LeaderLocal(s);
    hide NodesInv, LogInv, ClientsInv, SetIsUnsynced, BoardCalm, ResultAt, ResultsOf, LocalInv, IsResult;
    hide RecordsAccepted, AcceptedIsHeld, Exclusion, SlowKnown;
    ResultIsInOrder(Leader(s).board, Leader(s).executed, s.issued, id, s.ops[id].phase.content);
  }

  lemma RealTimeAfterInvoke(s: Cluster, c: Command)
    requires s.leader < |s.nodes| && LeaderHolds(s) && RealTime(s) && Enabled(s, Invoke(c))
    ensures RealTime(Apply(s, Invoke(c)))
  {
    hide LeaderHolds;
    forall a | a in HasReturned(s) ensures a in s.issued && s.issued[a] in Leader(s).executed {
      ReturnedIsExecuted(s, a);
    }
    ExecutedIsIssued(s, c);
  }

  lemma ExecutedIsIssued(s: Cluster, c: Command)
    requires s.leader < |s.nodes| && LeaderHolds(s) && c.id !in s.issued
    ensures c !in Leader(s).executed
    ensures forall id :: id in s.ops ==> id in s.issued
  {
    hide NodesInv, LogInv, SetIsUnsynced, BoardCalm, ResultsInserted, ReplySound, ReturnSound;
  }

  /** With fast turns first, only a fast turn executes at the leader. */
  lemma ExecutedFrame(n: Node, reg: Registry, a: Action)
    requires LeaderInv(n, reg) && CanAct(n, a) && Admissible(n, reg, a) && FastFirst(n, a)
    ensures Act(n, a).executed == n.executed || (a.TakeFast? && Act(n, a).executed == n.executed + [a.cmd])
  {
    hide ResultsInserted, BoardCalm, B.Step;
    if a.TakeSlow? {
      FlowAfterSlow(n, reg, a.cmd);
    }
  }

  lemma RealTimeExtends(s: Cluster, s': Cluster, tail: seq<Command>)
    requires s.leader < |s.nodes| && s'.leader < |s'.nodes| && RealTime(s)
    requires s'.issued == s.issued && Leader(s').executed == Leader(s).executed + tail && |tail| <= 1
    requires forall id :: id in s'.ops ==> id in s.ops && s'.ops[id].before == s.ops[id].before
    ensures RealTime(s')
  {
    forall id, a | id in s'.ops && a in s'.ops[id].before
      ensures a in s'.issued && s'.issued[a] in Leader(s').executed
      ensures id in s'.issued && s'.issued[id] in Leader(s').executed ==>
                Before(Leader(s').executed, s'.issued[a], s'.issued[id])
    {
      if id in s'.issued {
        BeforeExtends(Leader(s).executed, tail, s.issued[a], s.issued[id]);
      }
    }
  }

  lemma OpsFrame(s: Cluster, t: Step)
    requires s.leader < |s.nodes| && Enabled(s, t) && !t.Invoke?
    ensures forall id :: id in Apply(s, t).ops ==> id in s.ops && Apply(s, t).ops[id].before == s.ops[id].before
    ensures forall id :: id in s.ops && s.ops[id].phase.Returned? ==>
              id in Apply(s, t).ops && Apply(s, t).ops[id].phase == s.ops[id].phase
  {
    hide Act, CanAct, C.Decides, AfterVote, ReplyOf, MayWait;
  }

  lemma RealTimeStep(s: Cluster, t: Step)
    requires s.leader < |s.nodes| && LeaderHolds(s) && RealTime(s) && Enabled(s, t) && StepFastFirst(s, t)
    ensures Apply(s, t).leader < |Apply(s, t).nodes| && RealTime(Apply(s, t))
  {
    hide Apply, Enabled, RealTime, Act, CanAct, Admissible, LeaderInv, NodesInv, LogInv, ClientsInv, Performs;
    hide FastFirst;
    NodeEvolves(s, t, s.leader);
    if t.Invoke? {
      RealTimeAfterInvoke(s, t.cmd);
    } else {
      var o, n, s' := ActionAt(s, t, s.leader), Leader(s), Apply(s, t);
      OpsFrame(s, t);
      if o.Some? {
        StepIsAdmissible(s, t, s.leader, o.value);
        ExecutedFrame(n, s.issued, o.value);
      }
      var tail := if Leader(s').executed == n.executed then [] else [o.value.cmd];
      assert Leader(s').executed == n.executed + tail;
      RealTimeExtends(s, s', tail);
    }
  }

  ghost predicate Linear(s: Cluster) {
    s.leader < |s.nodes| && RealTime(s)
  }

  lemma {:induction false} AlwaysLinear(run: Run, k: nat)
    requires IsRun(run) && FastBeforeSlow(run) && k < |run.states|
    ensures Linear(run.states[k])
    decreases k
  {
    hide *;
    if k == 0 {
      RunStarts(run);
      InitLinear(run.states[0]);
    } else {
      AlwaysLinear(run, k - 1);
      AlwaysLeader(run, k - 1);
      StepAt(run, k - 1);
      LinearStep(run.states[k - 1], run.steps[k - 1]);
    }
  }

  lemma InitLinear(s: Cluster)
    requires Init(s)
    ensures Linear(s)
  {
  }

  lemma LinearStep(s: Cluster, t: Step)
    requires s.leader < |s.nodes| && LeaderHolds(s) && Linear(s) && Enabled(s, t) && StepFastFirst(s, t)
    ensures Linear(Apply(s, t))
  {
    hide LeaderHolds, RealTime, Enabled, Apply, StepFastFirst;
    RealTimeStep(s, t);
  }

  lemma ExecutedAreIssued(s: Cluster)
    requires s.leader < |s.nodes| && LeaderHolds(s)
    ensures Distinct(Leader(s).executed) && forall c :: c in Leader(s).executed ==> Known(s.issued, c)
  {
    hide ClusterInv, SetIsUnsynced, ResultsInserted, BoardCalm;
  }

  lemma OrderExplains(s: Cluster)
    requires s.leader < |s.nodes| && LeaderHolds(s)
    ensures ExplainsReturns(s, Leader(s).executed)
  {
    hide LeaderHolds, IsResult;
    forall id | id in s.ops && s.ops[id].phase.Returned?
      ensures id in s.issued && IsResult(map[], Leader(s).executed, s.issued[id], s.ops[id].phase.content)
    {
      ReturnedIsExecuted(s, id);
    }
  }

  lemma OrderLinearizes(s: Cluster)
    requires s.leader < |s.nodes| && LeaderHolds(s) && Linear(s)
    ensures Linearizes(s, Leader(s).executed)
  {
    hide LeaderHolds, RespectsRealTime, ExplainsReturns, Distinct, Known;
    ExecutedAreIssued(s);
    OrderExplains(s);
  }

  /**
   * Linearizability, conflicts included: the leader's order of execution explains every returned content, and an
   * operation that had returned before another was invoked comes earlier in it.
   */
  lemma Linearizability(run: Run, k: nat)
    requires IsRun(run) && FastBeforeSlow(run) && k < |run.states|
    ensures run.states[k].leader < |run.states[k].nodes|
    ensures Linearizes(run.states[k], Leader(run.states[k]).executed)
  {
    hide *;
    RunHasLeader(run, k);
    AlwaysLeader(run, k);
    AlwaysLinear(run, k);
    OrderLinearizes(run.states[k]);
  }

  lemma LeaderOrderGrows(s: Cluster, t: Step)
    requires s.leader < |s.nodes| && Enabled(s, t)
    ensures Apply(s, t).leader < |Apply(s, t).nodes| && Leader(s).executed <= Leader(Apply(s, t)).executed
  {
    NodesGrow(s, t);
    hide Apply, Enabled;
  }

  /** The order of execution is one order: it only grows along the run. */
  lemma {:induction false} OneOrder(run: Run, k: nat, m: nat)
    requires IsRun(run) && k <= m < |run.states|
    ensures run.states[k].leader < |run.states[k].nodes| && run.states[m].leader < |run.states[m].nodes|
    ensures Leader(run.states[k]).executed <= Leader(run.states[m]).executed
    decreases m
  {
    hide *;
    RunHasLeader(run, m);
    if k < m {
      OneOrder(run, k, m - 1);
      StepAt(run, m - 1);
      LeaderOrderGrows(run.states[m - 1], run.steps[m - 1]);
    }
  }

  lemma RunHasLeader(run: Run, k: nat)
    requires IsRun(run) && k < |run.states|
    ensures run.states[k].leader < |run.states[k].nodes|
  {
    hide IsRun, LogInv, ClientsInv;
    AlwaysInv(run, k);
  }

  // ---------------------------------------------------------------- durability

  /** What a completed operation leaves behind. */
  ghost predicate Durable(s: Cluster, c: Command, means: Means) {
    && s.leader < |s.nodes|
    && match means
       case ByVote(votes) =>
         |votes| == C.SuperQuorum(|s.nodes|) && forall i :: i in votes ==> i < |s.nodes| && Held(s.nodes[i], c)
       case BySync => c in s.log && c in Leader(s).slow
  }

  lemma AgreeingServerHolds(s: Cluster, id: ProposeId, i: nat)
    requires ClusterInv(s) && i < |s.nodes| && Agrees(s.nodes[i], id)
    ensures id in s.issued && s.issued[id].id == id && Held(s.nodes[i], s.issued[id])
  {
    hide LocalInv, CleanInv, LogInv, ClientsInv, Exclusion, RecordsAccepted, SlowKnown, Held;
  }

  lemma SyncedIsLogged(s: Cluster, id: ProposeId)
    requires ClusterInv(s) && s.leader < |s.nodes|
    requires Call(id) in Leader(s).board.asr && Leader(s).board.asr[Call(id)].AsrGot?
    ensures id in s.issued && s.issued[id] in Leader(s).slow && s.issued[id] in s.log
  {
    assert Leader(s).slow <= s.log;
    LeaderLocal(s);
    hide WitnessInv, NodesInv, LogInv, ClientsInv, PoolInv, StoreInv, FollowerInv;
    assert id in Leader(s).board.notified;
  }

  lemma OpIsSound(s: Cluster, id: ProposeId)
    requires ClusterInv(s) && id in s.ops
    ensures s.leader < |s.nodes| && id in s.issued && ReturnSound(s, id, s.ops[id].phase)
  {
    hide ReplySound, ReturnSound, LogInv, WitnessInv, LocalInv, CleanInv;
  }

  lemma ReturnedIsDurable(s: Cluster, id: ProposeId)
    requires ClusterInv(s) && id in s.ops && s.ops[id].phase.Returned?
    ensures id in s.issued && Durable(s, s.issued[id], s.ops[id].phase.means)
  {
    var means := s.ops[id].phase.means;
    OpIsSound(s, id);
    hide ClusterInv, Held, Agrees;
    match means {
      case ByVote(votes) =>
        forall i | i in votes ensures i < |s.nodes| && Held(s.nodes[i], s.issued[id]) {
          AgreeingServerHolds(s, id, i);
        }
      case BySync => SyncedIsLogged(s, id);
    }
  }

  lemma ReturnKept(s: Cluster, t: Step, id: ProposeId)
    requires s.leader < |s.nodes| && Enabled(s, t) && id in s.ops && s.ops[id].phase.Returned?
    ensures id in Apply(s, t).ops && Apply(s, t).ops[id].phase == s.ops[id].phase
  {
    if !t.Invoke? {
      OpsFrame(s, t);
    }
    hide HasReturned;
  }

  lemma {:induction false} ReturnStays(run: Run, k: nat, m: nat, id: ProposeId)
    requires IsRun(run) && k <= m < |run.states|
    requires id in run.states[k].ops && run.states[k].ops[id].phase.Returned?
    ensures id in run.states[m].ops && run.states[m].ops[id].phase == run.states[k].ops[id].phase
    decreases m
  {
    hide *;
    if k < m {
      ReturnStays(run, k, m - 1, id);
      StepAt(run, m - 1);
      ReturnKept(run.states[m - 1], run.steps[m - 1], id);
    }
  }

  /**
   * Durability, in every run: once an operation has returned, in this and all later states either a super-quorum of
   * distinct servers each record its command or have slow-applied it, or the log holds it and the leader has applied
   * it.
   */
  lemma Durability(run: Run, k: nat, m: nat, id: ProposeId)
    requires IsRun(run) && k <= m < |run.states|
    requires id in run.states[k].ops && run.states[k].ops[id].phase.Returned?
    ensures id in run.states[m].issued
    ensures Durable(run.states[m], run.states[m].issued[id], run.states[k].ops[id].phase.means)
  {
    hide *;
    ReturnStays(run, k, m, id);
    AlwaysInv(run, m);
    ReturnedIsDurable(run.states[m], id);
  }

  // ---------------------------------------------------------------- quorums

  lemma SubsetSize(a: set<nat>, b: set<nat>)
    requires a <= b
    ensures |a| <= |b|
  {
    assert b == a + (b - a);
  }

  /** Two sets of servers share at least the excess of their sizes over the number of servers. */
  lemma Overlap(n: nat, a: set<nat>, b: set<nat>)
    requires a <= C.UpTo(n) && b <= C.UpTo(n)
    ensures |a * b| >= |a| + |b| - n
  {
    SubsetSize(a + b, C.UpTo(n));
    assert |a + b| == |a| + |b| - |a * b|;
  }

  /** votes is a super-quorum of servers that accepted id. */
  ghost predicate AcceptedBy(s: Cluster, id: ProposeId, votes: set<nat>) {
    && votes <= C.UpTo(|s.nodes|) && |votes| >= C.SuperQuorum(|s.nodes|)
    && forall i :: i in votes ==> i < |s.nodes| && Agrees(s.nodes[i], id)
  }

  /** At server i one command was slow-applied and its record removed before the other was accepted. */
  ghost predicate OneBeforeOther(n: Node, c: Command, d: Command) {
    && Agrees(n, c.id) && Agrees(n, d.id)
    && n.verdicts[c.id].after <= |n.slow| && n.verdicts[d.id].after <= |n.slow|
    && Excluded(n, c, d)
  }

  lemma BothAccepted(s: Cluster, i: nat, a: ProposeId, b: ProposeId)
    requires ClusterInv(s) && i < |s.nodes| && Agrees(s.nodes[i], a) && Agrees(s.nodes[i], b) && a != b
    requires a in s.issued && b in s.issued && Conflict(s.issued[a], s.issued[b])
    ensures OneBeforeOther(s.nodes[i], s.issued[a], s.issued[b])
  {
    assert WitnessInv(s.nodes[i], s.issued);
    hide LocalInv, CleanInv, LogInv, ClientsInv, RecordsAccepted, NodesInv;
  }

  lemma ExclusionIn(s: Cluster, f: nat, a: ProposeId, b: ProposeId, votesA: set<nat>, votesB: set<nat>)
    requires ClusterInv(s) && |s.nodes| == 2 * f + 1
    requires AcceptedBy(s, a, votesA) && AcceptedBy(s, b, votesB) && a != b
    requires a in s.issued && b in s.issued && Conflict(s.issued[a], s.issued[b])
    ensures |votesA * votesB| >= f + 1
    ensures forall i :: i in votesA * votesB ==> i < |s.nodes| && OneBeforeOther(s.nodes[i], s.issued[a], s.issued[b])
  {
    hide ClusterInv, OneBeforeOther, Agrees, Conflict;
    Overlap(2 * f + 1, votesA, votesB);
    forall i | i in votesA * votesB ensures i < |s.nodes| && OneBeforeOther(s.nodes[i], s.issued[a], s.issued[b]) {
      BothAccepted(s, i, a, b);
    }
  }

  /**
   * Fast-path exclusion: with 2f+1 servers, two conflicting commands each accepted by a super-quorum were both
   * accepted at f+1 servers or more, and at each of those one was applied and removed before the other was accepted.
   */
  lemma FastPathExclusion(run: Run, k: nat, f: nat, a: ProposeId, b: ProposeId, votesA: set<nat>, votesB: set<nat>)
    requires IsRun(run) && k < |run.states| && |run.states[k].nodes| == 2 * f + 1
    requires AcceptedBy(run.states[k], a, votesA) && AcceptedBy(run.states[k], b, votesB) && a != b
    requires a in run.states[k].issued && b in run.states[k].issued
    requires Conflict(run.states[k].issued[a], run.states[k].issued[b])
    ensures |votesA * votesB| >= f + 1
    ensures forall i :: i in votesA * votesB ==>
              && i < |run.states[k].nodes|
              && OneBeforeOther(run.states[k].nodes[i], run.states[k].issued[a], run.states[k].issued[b])
  {
    hide *;
    AlwaysInv(run, k);
    ExclusionIn(run.states[k], f, a, b, votesA, votesB);
  }

  /** The servers of rs whose witness holds a record for id. */
  function Holders(s: Cluster, rs: set<nat>, id: ProposeId): set<nat> {
    set i | i in rs && i < |s.nodes| && id in s.nodes[i].r.records
  }

  lemma RecordedUntilApplied(s: Cluster, i: nat, c: Command, d: Command)
    requires ClusterInv(s) && i < |s.nodes| && Agrees(s.nodes[i], c.id)
    requires Known(s.issued, c) && Known(s.issued, d) && c.id != d.id && Conflict(c, d) && c !in s.nodes[i].slow
    ensures c.id in s.nodes[i].r.records && d.id !in s.nodes[i].r.records
  {
    AgreeingServerHolds(s, c.id, i);
    assert WitnessInv(s.nodes[i], s.issued);
    hide LocalInv, CleanInv, LogInv, ClientsInv, NodesInv, Exclusion, AcceptedIsHeld;
  }

  /** votes is a super-quorum that accepted c and has not slow-applied it. */
  ghost predicate Pending(s: Cluster, c: Command, votes: set<nat>) {
    AcceptedBy(s, c.id, votes) && forall i :: i in votes ==> i < |s.nodes| && c !in s.nodes[i].slow
  }

  lemma PendingIsRecorded(s: Cluster, c: Command, d: Command, votes: set<nat>, rs: set<nat>)
    requires ClusterInv(s) && Pending(s, c, votes)
    requires Known(s.issued, c) && Known(s.issued, d) && c.id != d.id && Conflict(c, d)
    ensures votes * rs <= Holders(s, rs, c.id) && Holders(s, rs, d.id) <= rs - votes
  {
    hide ClusterInv, Conflict, Known, Agrees;
    forall i | i in votes ensures i < |s.nodes| && c.id in s.nodes[i].r.records && d.id !in s.nodes[i].r.records {
      RecordedUntilApplied(s, i, c, d);
    }
  }

  /** Of f+1 servers at least ceil(f/2)+1 are in a super-quorum of 2f+1. */
  lemma QuorumShare(f: nat, votes: set<nat>, rs: set<nat>, with: set<nat>, without: set<nat>)
    requires votes <= C.UpTo(2 * f + 1) && |votes| >= C.SuperQuorum(2 * f + 1)
    requires rs <= C.UpTo(2 * f + 1) && |rs| == f + 1
    requires votes * rs <= with && without <= rs - votes
    ensures |with| >= (f + 1) / 2 + 1 && |without| <= f / 2
  {
    Overlap(2 * f + 1, votes, rs);
    SubsetSize(votes * rs, with);
    SubsetSize(without, rs - votes);
    SplitSize(rs, votes);
    Halves(f);
    hide C.UpTo, C.SuperQuorum;
  }

  lemma SplitSize(a: set<nat>, b: set<nat>)
    ensures |a| == |a - b| + |b * a|
  {
    assert a == (a - b) + (b * a);
  }

  lemma Halves(f: nat)
    ensures C.SuperQuorum(2 * f + 1) == f + (f + 1) / 2 + 1 && f / 2 + (f + 1) / 2 == f
  {
  }

  /**
   * Recoverability: a command accepted by a super-quorum and not yet slow-applied there is held by ceil(f/2)+1
   * witnesses of any f+1 servers, and any conflicting command by floor(f/2) at most.
   */
  lemma Recoverability(run: Run, k: nat, f: nat, c: Command, d: Command, votes: set<nat>, rs: set<nat>)
    requires IsRun(run) && k < |run.states| && |run.states[k].nodes| == 2 * f + 1
    requires Known(run.states[k].issued, c) && Known(run.states[k].issued, d) && c.id != d.id && Conflict(c, d)
    requires Pending(run.states[k], c, votes)
    requires rs <= C.UpTo(2 * f + 1) && |rs| == f + 1
    ensures |Holders(run.states[k], rs, c.id)| >= (f + 1) / 2 + 1
    ensures |Holders(run.states[k], rs, d.id)| <= f / 2
  {
    var s := run.states[k];
    assert votes <= C.UpTo(2 * f + 1) && |votes| >= C.SuperQuorum(2 * f + 1);
    hide *;
    AlwaysInv(run, k);
    PendingIsRecorded(s, c, d, votes, rs);
    QuorumShare(f, votes, rs, Holders(s, rs, c.id), Holders(s, rs, d.id));
  }

  // ---------------------------------------------------------------- a proposal that arrives late

  /**
   * In every run: a server that accepted a command and has removed its record holds it again exactly when it accepted
   * the command after that removal; at the leader this never happens.
   */
  lemma StaleExactlyWhenLate(run: Run, k: nat, i: nat, c: Command)
    requires IsRun(run) && k < |run.states| && i < |run.states[k].nodes|
    requires Known(run.states[k].issued, c) && Agrees(run.states[k].nodes[i], c.id) && c in Gone(run.states[k].nodes[i])
    ensures c.id in run.states[k].nodes[i].r.records <==> AcceptedLate(run.states[k].nodes[i], c)
    ensures i == run.states[k].leader ==> c.id !in run.states[k].nodes[i].r.records
  {
    hide IsRun;
    AlwaysInv(run, k);
    hide WitnessInv, LocalInv, LogInv, ClientsInv, AcceptedLate;
    assert CleanInv(run.states[k].nodes[i], run.states[k].issued);
  }

  /** The witness at n holds a command whose record removal is already over. */
  ghost predicate Stale(n: Node, c: Command) {
    c.id in n.r.records && c in Gone(n)
  }

  lemma StaleAfterAct(n: Node, reg: Registry, a: Action, c: Command)
    requires WitnessInv(n, reg) && Admissible(n, reg, a) && Stale(n, c)
    ensures Stale(Act(n, a), c)
  {
    ActGrows(n, a);
    hide B.Step, B.CanStep, Exclusion, AcceptedIsHeld, Commuting, Grows;
    if CanAct(n, a) {
      match a {
        case TakeSlow(d) => assert Gone(Act(n, a)) == n.slow;
        case RemoveRecord =>
          var d := n.r.committing.value;
          assert n.slow == Gone(n) + [d];
          assert Gone(Act(n, a)) == n.slow;
          StaleIsOther(n, c);
        case _ => assert Gone(Act(n, a)) == Gone(n);
      }
    }
  }

  lemma StaleIsOther(n: Node, c: Command)
    requires n.r.committing.Some? && |n.slow| > 0 && Distinct(n.slow) && c in Gone(n)
    requires n.slow[|n.slow| - 1] == n.r.committing.value
    ensures c.id != n.r.committing.value.id
  {
    var j :| 0 <= j < |Gone(n)| && Gone(n)[j] == c;
    assert n.slow[j] == c;
  }

  /** A server entered late: its record is never removed. */
  ghost predicate StaleAt(s: Cluster, i: nat, c: Command) {
    i < |s.nodes| && Stale(s.nodes[i], c)
  }

  lemma StaleStep(s: Cluster, t: Step, i: nat, c: Command)
    requires ClusterInv(s) && s.leader < |s.nodes| && Enabled(s, t) && StaleAt(s, i, c)
    ensures StaleAt(Apply(s, t), i, c)
  {
    hide WitnessInv, LocalInv, CleanInv, LogInv, ClientsInv, Act, CanAct, Admissible, Stale, Apply, Enabled, Performs;
    NodeEvolves(s, t, i);
    var o := ActionAt(s, t, i);
    if o.Some? {
      StepIsAdmissible(s, t, i, o.value);
      StaleAfterAct(s.nodes[i], s.issued, o.value, c);
    }
  }

  lemma {:induction false} StaleForever(run: Run, k: nat, m: nat, i: nat, c: Command)
    requires IsRun(run) && k <= m < |run.states| && StaleAt(run.states[k], i, c)
    ensures StaleAt(run.states[m], i, c)
    decreases m
  {
    hide *;
    if k < m {
      StaleForever(run, k, m - 1, i, c);
      AlwaysInv(run, m - 1);
      StepAt(run, m - 1);
      StaleStep(run.states[m - 1], run.steps[m - 1], i, c);
    }
  }

  /**
   * A proposal accepted by a server that has already applied the command makes it refuse every conflicting proposal
   * for good.
   */
  lemma LateProposalBlocksItsKey(run: Run, k: nat, m: nat, i: nat, c: Command, d: Command)
    requires IsRun(run) && k < m < |run.states| && k < |run.steps|
    requires run.steps[k] == At(i, Enter(c)) && i < |run.states[k].nodes|
    requires c in Gone(run.states[k].nodes[i]) && !ConflictsWith(run.states[k].nodes[i].r.records, c)
    requires Conflict(c, d)
    ensures i < |run.states[m].nodes| && ConflictsWith(run.states[m].nodes[i].r.records, d)
  {
    StepAt(run, k);
    EnteredLate(run.states[k], i, c);
    hide IsRun, Stale, ConflictsWith, ClusterInv, Gone, Apply, Enabled;
    StaleForever(run, k + 1, m, i, c);
    AlwaysInv(run, m);
    StaleConflicts(run.states[m], i, c, d);
  }

  lemma EnteredLate(s: Cluster, i: nat, c: Command)
    requires s.leader < |s.nodes| && i < |s.nodes| && Enabled(s, At(i, Enter(c)))
    requires c in Gone(s.nodes[i]) && !ConflictsWith(s.nodes[i].r.records, c)
    ensures StaleAt(Apply(s, At(i, Enter(c))), i, c)
  {
    assert Gone(Entered(s.nodes[i], c)) == Gone(s.nodes[i]);
  }

  lemma StaleConflicts(s: Cluster, i: nat, c: Command, d: Command)
    requires ClusterInv(s) && StaleAt(s, i, c) && Conflict(c, d)
    ensures ConflictsWith(s.nodes[i].r.records, d)
  {
    var n := s.nodes[i];
    assert WitnessInv(n, s.issued);
    hide LocalInv, CleanInv, LogInv, ClientsInv, NodesInv, Exclusion, AcceptedIsHeld;
    assert c in n.slow;
    assert n.r.records[c.id] == c;
  }
}
