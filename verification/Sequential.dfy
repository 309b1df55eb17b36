/** One sequential order in every run whose repeated executions are undisturbed, fast turns first or not. */
module Sequential {
  import opened Commands
  import opened Traces
  import opened Node
  import opened Cluster
  import opened Guarantees
  import opened Contents
  import B = Board

  // ---------------------------------------------------------------- the last execution of a command

  ghost predicate WasFast(s: Cluster, id: ProposeId) {
    s.leader < |s.nodes| && id in Leader(s).board.inserted
  }

  /** The longer order goes on from the shorter without c. */
  ghost predicate GoesOnWithout(order: seq<Command>, longer: seq<Command>, c: Command) {
    order <= longer && c !in longer[|order|..]
  }

  /** What the leader has executed in s2 since s1 does not hold id's command. */
  ghost predicate NotAgain(s1: Cluster, s2: Cluster, id: ProposeId) {
    && s1.leader < |s1.nodes| && s2.leader < |s2.nodes| && id in s1.issued && id in s2.issued
    && s2.issued[id] == s1.issued[id]
    && GoesOnWithout(Leader(s1).executed, Leader(s2).executed, s1.issued[id])
  }

  lemma NodeNotAgain(n: Node, reg: Registry, a: Action, id: ProposeId)
    requires ContentsInv(n, reg) && LocalInv(n, reg) && WellKeyed(reg) && n.r.isLeader
    requires CanAct(n, a) && Admissible(n, reg, a) && id in n.board.inserted
    ensures id in Act(n, a).board.inserted && id in reg
    ensures GoesOnWithout(n.executed, Act(n, a).executed, reg[id])
  {
    ActGrows(n, a);
    assert PoolInv(n, reg) && SetSeen(n) && SetHolds(n, reg);
    hide Act, CanAct, Admissible, ContentsInv, LocalInv, PoolInv, SetSeen;
    var tail := NoMoreExecutions(n, reg, a, id);
    assert (n.executed + tail)[|n.executed|..] == tail;
  }

  lemma ActNotAgain(s: Cluster, t: Step, a: Action, id: ProposeId)
    requires s.leader < |s.nodes| && ContentsHold(s) && Enabled(s, t) && WasFast(s, id)
    requires Performs(s, t, s.leader, a)
    ensures var n, n' := Leader(s), Act(Leader(s), a);
            && id in n'.board.inserted && id in s.issued
            && GoesOnWithout(n.executed, n'.executed, s.issued[id])
  {
    LeaderLocal(s);
    assert WellKeyed(s.issued);
    hide Apply, Enabled, Act, CanAct, Admissible, LocalInv, WitnessInv, CleanInv, ClientsInv, ContentsInv, Performs;
    hide GoesOnWithout;
    StepIsAdmissible(s, t, s.leader, a);
    NodeNotAgain(Leader(s), s.issued, a, id);
  }

  lemma LeaderEvolves(s: Cluster, t: Step)
    requires s.leader < |s.nodes| && Enabled(s, t)
    ensures var s', o := Apply(s, t), ActionAt(s, t, s.leader);
            && s'.leader < |s'.nodes|
            && Leader(s') == (match o case None => Leader(s) case Some(a) => Act(Leader(s), a))
            && (o.Some? ==> Performs(s, t, s.leader, o.value))
            && (forall id :: id in s.issued ==> id in s'.issued && s'.issued[id] == s.issued[id])
  {
    hide Apply, Enabled, Act, CanAct, Performs, ActionAt;
    NodeEvolves(s, t, s.leader);
  }

  lemma NotAgainAs(s: Cluster, s': Cluster, id: ProposeId)
    requires s.leader < |s.nodes| && s'.leader < |s'.nodes|
    requires id in s.issued && id in s'.issued && s'.issued[id] == s.issued[id] && id in Leader(s').board.inserted
    requires GoesOnWithout(Leader(s).executed, Leader(s').executed, s.issued[id])
    ensures WasFast(s', id) && NotAgain(s, s', id)
  {
  }

  lemma NotAgainStep(s: Cluster, t: Step, id: ProposeId)
    requires s.leader < |s.nodes| && ContentsHold(s) && Enabled(s, t) && WasFast(s, id)
    ensures WasFast(Apply(s, t), id) && NotAgain(s, Apply(s, t), id)
  {
    hide *;
    LeaderEvolves(s, t);
    var o := ActionAt(s, t, s.leader);
    if o.Some? {
      ActNotAgain(s, t, o.value, id);
    } else {
      NotAgainYet(s, id);
    }
    NotAgainAs(s, Apply(s, t), id);
  }

  lemma NotAgainTransitive(s1: Cluster, s2: Cluster, s3: Cluster, id: ProposeId)
    requires NotAgain(s1, s2, id) && NotAgain(s2, s3, id)
    ensures NotAgain(s1, s3, id)
  {
    var x, y, z := Leader(s1).executed, Leader(s2).executed, Leader(s3).executed;
    assert z[|x|..] == y[|x|..] + z[|y|..];
  }

  lemma NotAgainYet(s: Cluster, id: ProposeId)
    requires s.leader < |s.nodes| && ContentsHold(s) && WasFast(s, id)
    ensures NotAgain(s, s, id) && id in s.issued && id in Leader(s).board.inserted
    ensures GoesOnWithout(Leader(s).executed, Leader(s).executed, s.issued[id])
  {
    hide ClusterInv, ResultsTrue, QueuedServed, B.SyncCalls, ExecutedIsKnown, SetSeen;
  }

  /** The fast turn of a command is its last execution. */
  lemma {:induction false} FastTurnIsLast(run: Run, k: nat, m: nat, id: ProposeId)
    requires IsRun(run) && k <= m < |run.states| && WasFast(run.states[k], id)
    ensures WasFast(run.states[m], id) && NotAgain(run.states[k], run.states[m], id)
    decreases m
  {
    hide *;
    AlwaysContents(run, m);
    if k == m {
      NotAgainYet(run.states[k], id);
    } else {
      FastTurnIsLast(run, k, m - 1, id);
      AlwaysContents(run, m - 1);
      StepAt(run, m - 1);
      NotAgainStep(run.states[m - 1], run.steps[m - 1], id);
      NotAgainTransitive(run.states[k], run.states[m - 1], run.states[m], id);
    }
  }

  // ---------------------------------------------------------------- invocations

  /** Step p invoked id. */
  ghost predicate InvokedIn(run: Run, p: nat, id: ProposeId)
    requires p < |run.steps| && p < |run.states|
  {
    run.steps[p].Invoke? && run.steps[p].cmd.id == id && id !in run.states[p].issued
  }

  lemma InvokeStep(s: Cluster, t: Step, id: ProposeId)
    requires s.leader < |s.nodes| && Enabled(s, t) && id in Apply(s, t).ops
    ensures if id in s.ops then Apply(s, t).ops[id].before == s.ops[id].before
            else t.Invoke? && t.cmd.id == id && id !in s.issued && Apply(s, t).ops[id].before == HasReturned(s)
  {
    if !t.Invoke? {
      OpsFrame(s, t);
    }
    hide HasReturned;
  }

  lemma {:induction false} WasInvoked(run: Run, k: nat, id: ProposeId) returns (p: nat)
    requires IsRun(run) && k < |run.states| && id in run.states[k].ops
    ensures p < k <= |run.steps| && InvokedIn(run, p, id)
    ensures run.states[k].ops[id].before == HasReturned(run.states[p])
    decreases k
  {
    hide *;
    RunStarts(run);
    if k == 0 {
      NoOpsAtStart(run.states[0], id);
    } else {
      StepAt(run, k - 1);
      InvokeStep(run.states[k - 1], run.steps[k - 1], id);
      if id in run.states[k - 1].ops {
        p := WasInvoked(run, k - 1, id);
      } else {
        p := k - 1;
        InvokedNow(run, p, id);
      }
    }
  }

  lemma NoOpsAtStart(s: Cluster, id: ProposeId)
    requires Init(s)
    ensures id !in s.ops
  {
  }

  lemma InvokedNow(run: Run, p: nat, id: ProposeId)
    requires p < |run.steps| && p < |run.states|
    requires run.steps[p].Invoke? && run.steps[p].cmd.id == id && id !in run.states[p].issued
    ensures InvokedIn(run, p, id)
  {
  }

  // ---------------------------------------------------------------- clients that are told a result

  ghost predicate FinishesEarly(run: Run, m: nat, id: ProposeId, content: string)
    requires m + 1 < |run.states| && |run.states| == |run.steps| + 1
  {
    Finishes(run.states[m], run.states[m + 1], id, content) && !FastTurned(run, m, id)
  }

  /** id's WaitForAsr call finished before the fast turn of its command. */
  ghost predicate ToldNothing(run: Run, k: nat, id: ProposeId)
    requires k < |run.states| && |run.states| == |run.steps| + 1
  {
    exists m, content :: 0 <= m < k && FinishesEarly(run, m, id, content)
  }

  /** id has returned with a result of its command, which has had its fast turn. */
  ghost predicate ToldResult(s: Cluster, id: ProposeId) {
    && WasFast(s, id) && id in s.ops && id in s.issued && s.ops[id].phase.Returned?
    && IsResult(map[], Leader(s).executed, s.issued[id], s.ops[id].phase.content)
  }

  lemma VoterIsFast(s: Cluster, id: ProposeId)
    requires ContentsHold(s) && id in s.ops && s.ops[id].phase.Returned? && s.ops[id].phase.means.ByVote?
    ensures WasFast(s, id)
  {
    OpIsSound(s, id);
    hide ClusterInv, ContentsInv;
  }

  lemma SyncerIsFast(run: Run, k: nat, id: ProposeId, content: string)
    requires IsRun(run) && k < |run.states| && |run.states| == |run.steps| + 1 && id in run.states[k].issued
    requires SyncTold(run, k, id, content) && !ToldNothing(run, k, id)
    ensures WasFast(run.states[k], id)
    ensures IsResult(map[], Leader(run.states[k]).executed, run.states[k].issued[id], content)
  {
    hide IsRun, IsResult, FastTurned, Finishes;
    var m :| 0 <= m < k && Finishes(run.states[m], run.states[m + 1], id, content) && ToldBy(run, m, id, content);
    assert !FinishesEarly(run, m, id, content);
    InsertedExactly(run, m, id);
    FastTurnIsLast(run, m, k, id);
    IsResultGrows(Leader(run.states[m]).executed, Leader(run.states[k]).executed, run.states[k].issued[id], content);
  }

  lemma TellsResult(run: Run, k: nat, id: ProposeId)
    requires IsRun(run) && k < |run.states| && |run.states| == |run.steps| + 1
    requires id in run.states[k].ops && run.states[k].ops[id].phase.Returned? && !ToldNothing(run, k, id)
    ensures ToldResult(run.states[k], id)
  {
    var s := run.states[k];
    hide IsRun, IsResult, ContentsHold, ToldNothing, SyncTold;
    AlwaysContents(run, k);
    ReturnedContent(run, k, id);
    match s.ops[id].phase.means {
      case ByVote(_) => VoterIsFast(s, id);
      case BySync => SyncerIsFast(run, k, id, s.ops[id].phase.content);
    }
  }

  lemma StillNotNothing(run: Run, p: nat, k: nat, id: ProposeId)
    requires p <= k < |run.states| && |run.states| == |run.steps| + 1 && ToldNothing(run, p, id)
    ensures ToldNothing(run, k, id)
  {
    hide FinishesEarly;
  }

  // ---------------------------------------------------------------- one sequential order

  /** With undisturbed repetitions, dropping all but the last execution of each command keeps store and results. */
  lemma OneExecutionEach(n: Node, reg: Registry)
    requires ExecutedIsKnown(n, reg) && StoreInv(n) && Undisturbed(n.executed)
    ensures Distinct(LastOnly(n.executed)) && SameCommands(n.executed, LastOnly(n.executed))
    ensures n.r.store == Replay(map[], LastOnly(n.executed)) && KeepsOutcome(map[], n.executed, LastOnly(n.executed))
  {
    hide Undisturbed, LastOnly;
    assert forall i :: 0 <= i < |n.executed| ==> Known(reg, n.executed[i]);
    LastOnlyIsDistinct(n.executed);
    RepetitionsAreHarmless(map[], n.executed);
  }

  /** x is executed before and not after, y after and not before. */
  lemma LastStaysBefore(before: seq<Command>, all: seq<Command>, x: Command, y: Command)
    requires GoesOnWithout(before, all, x) && x in before && y !in before
    requires forall i, j :: 0 <= i < j < |all| && all[i].id == all[j].id ==> all[i] == all[j]
    ensures x in all && (y in all ==> Before(LastOnly(all), x, y))
  {
    var after := all[|before|..];
    assert all == before + after;
    hide LastOnly, Before;
    if y in all {
      LastOnlyOrder(before, after, x, y);
    }
  }

  /** An operation that was told a result before another was invoked comes earlier in the order. */
  lemma ToldBeforeInvoked(run: Run, p: nat, k: nat, a: ProposeId, id: ProposeId)
    requires IsRun(run) && p < k < |run.states| && p < |run.steps|
    requires ToldResult(run.states[p], a) && InvokedIn(run, p, id)
    ensures run.states[k].leader < |run.states[k].nodes| && a in run.states[k].issued
    ensures run.states[k].issued[a] in Leader(run.states[k]).executed
    ensures id in run.states[k].issued && run.states[k].issued[id] in Leader(run.states[k]).executed ==>
              Before(LastOnly(Leader(run.states[k]).executed), run.states[k].issued[a], run.states[k].issued[id])
  {
    var s, s' := run.states[p], run.states[k];
    ResultIsExecuted(s, a);
    hide IsRun, ContentsHold, WasFast, ToldResult, LastOnly, Before, GoesOnWithout;
    AlwaysContents(run, p);
    AlwaysContents(run, k);
    FastTurnIsLast(run, p, k, a);
    ExecutedIds(s);
    ExecutedIds(s');
    if id in s'.issued && s'.issued[id] in Leader(s').executed {
      IssuedIsKeyed(s', id);
      assert s'.issued[id] !in Leader(s).executed;
      LastStaysBefore(Leader(s).executed, Leader(s').executed, s'.issued[a], s'.issued[id]);
    }
  }

  lemma ResultIsExecuted(s: Cluster, id: ProposeId)
    requires ToldResult(s, id)
    ensures WasFast(s, id) && id in s.issued && s.issued[id] in Leader(s).executed
  {
  }

  lemma IssuedIsKeyed(s: Cluster, id: ProposeId)
    requires ContentsHold(s) && id in s.issued
    ensures s.issued[id].id == id
  {
    hide NodesInv, ClientsInv, ContentsInv;
  }

  lemma ExecutedIds(s: Cluster)
    requires s.leader < |s.nodes| && ContentsHold(s)
    ensures forall c :: c in Leader(s).executed ==> Known(s.issued, c)
    ensures var e := Leader(s).executed; forall i, j :: 0 <= i < j < |e| && e[i].id == e[j].id ==> e[i] == e[j]
  {
    hide ClusterInv, ResultsTrue, QueuedServed, B.SyncCalls, SetHolds, SetSeen;
    var e := Leader(s).executed;
    assert forall i :: 0 <= i < |e| ==> Known(s.issued, e[i]);
  }

  lemma OrderRespectsRealTime(run: Run, k: nat)
    requires IsRun(run) && k < |run.states| && |run.states| == |run.steps| + 1
    requires run.states[k].leader < |run.states[k].nodes|
    requires forall id :: id in run.states[k].ops && run.states[k].ops[id].phase.Returned? ==> !ToldNothing(run, k, id)
    requires SameCommands(Leader(run.states[k]).executed, LastOnly(Leader(run.states[k]).executed))
    ensures RespectsRealTime(run.states[k], LastOnly(Leader(run.states[k]).executed))
  {
    var s := run.states[k];
    var order := LastOnly(Leader(s).executed);
    hide IsRun, ToldNothing, ToldResult, LastOnly, Before;
    forall id, a | id in s.ops && a in s.ops[id].before
      ensures a in s.issued && s.issued[a] in order
      ensures id in s.issued && s.issued[id] in order ==> Before(order, s.issued[a], s.issued[id])
    {
      var p := WasInvoked(run, k, id);
      ReturnStays(run, p, k, a);
      if ToldNothing(run, p, a) {
        StillNotNothing(run, p, k, a);
      }
      TellsResult(run, p, a);
      ToldBeforeInvoked(run, p, k, a, id);
    }
  }

  lemma OrderExplainsReturns(run: Run, k: nat)
    requires IsRun(run) && k < |run.states| && |run.states| == |run.steps| + 1
    requires run.states[k].leader < |run.states[k].nodes|
    requires forall id :: id in run.states[k].ops && run.states[k].ops[id].phase.Returned? ==> !ToldNothing(run, k, id)
    requires var e := Leader(run.states[k]).executed; KeepsOutcome(map[], e, LastOnly(e))
    ensures ExplainsReturns(run.states[k], LastOnly(Leader(run.states[k]).executed))
  {
    var s := run.states[k];
    var e := Leader(s).executed;
    hide IsRun, ToldNothing, LastOnly, ResultAt, Replay;
    forall id | id in s.ops && s.ops[id].phase.Returned?
      ensures id in s.issued && IsResult(map[], LastOnly(e), s.issued[id], s.ops[id].phase.content)
    {
      TellsResult(run, k, id);
      var j :| 0 <= j < |e| && e[j] == s.issued[id] && s.ops[id].phase.content == ResultAt(map[], e, j);
      assert IsResult(map[], LastOnly(e), e[j], ResultAt(map[], e, j));
    }
  }

  /**
   * In every run, fast turns first or not: if nothing that conflicts with a command runs between two executions of it,
   * and no call finished before its command's fast turn, then keeping only the last execution of each command gives one
   * sequential order with the leader's store, with what every client was told, and with real time respected.
   */
  lemma LinearizableWhenUndisturbed(run: Run, k: nat)
    requires IsRun(run) && k < |run.states| && |run.states| == |run.steps| + 1
    requires run.states[k].leader < |run.states[k].nodes| && Undisturbed(Leader(run.states[k]).executed)
    requires forall id :: id in run.states[k].ops && run.states[k].ops[id].phase.Returned? ==> !ToldNothing(run, k, id)
    ensures Linearizes(run.states[k], LastOnly(Leader(run.states[k]).executed))
    ensures Leader(run.states[k]).r.store == Replay(map[], LastOnly(Leader(run.states[k]).executed))
  {
    var s := run.states[k];
    AlwaysContents(run, k);
    ExecutedIds(s);
    LeaderLocal(s);
    assert StoreInv(Leader(s)) && ExecutedIsKnown(Leader(s), s.issued);
    hide IsRun, ToldNothing, LastOnly, Undisturbed, ContentsHold, LocalInv, WitnessInv, RespectsRealTime;
    hide ExplainsReturns, KeepsOutcome, Replay;
    OneExecutionEach(Leader(s), s.issued);
    OrderRespectsRealTime(run, k);
    OrderExplainsReturns(run, k);
  }
}
