/** What a client is told, in every run: no assumption on the order of turns or on conflicts. */
module Contents {
  import opened Commands
  import opened Traces
  import opened Replica
  import opened Node
  import opened Cluster
  import opened Guarantees
  import B = Board

  lemma IsResultGrows(order: seq<Command>, longer: seq<Command>, c: Command, r: string)
    requires order <= longer && IsResult(map[], order, c, r)
    ensures IsResult(map[], longer, c, r)
  {
    hide Replay;
    var j :| 0 <= j < |order| && order[j] == c && r == ResultAt(map[], order, j);
    assert longer[..j] == order[..j] && longer[j] == order[j];
  }

  lemma NewIsResult(order: seq<Command>, c: Command)
    ensures IsResult(map[], order + [c], c, SyncResult(Replay(map[], order), c))
  {
    hide Replay;
    var longer := order + [c];
    assert longer[..|order|] == order && longer[|order|] == c;
  }

  // ---------------------------------------------------------------- what one server keeps

  /** Every inserted result is the result of some execution of its command. */
  ghost predicate ResultsTrue(n: Node, reg: Registry) {
    forall id, r :: B.WasInserted(n.board, id, r) ==> id in reg && IsResult(map[], n.executed, reg[id], r)
  }

  /** The de-duplication set holds only ids with a result, and the id whose slow turn is under way. */
  ghost predicate SetSeen(n: Node) {
    forall id :: id in n.r.commandSet ==>
      id in n.board.inserted || (n.r.committing.Some? && n.r.committing.value.id == id)
  }

  /** A queued command waits for its fast turn or has a result. */
  ghost predicate QueuedServed(n: Node, reg: Registry) {
    forall id :: id in n.queued ==> id in reg && (reg[id] in n.r.fastPath || id in n.board.inserted)
  }

  /** After its fast turn a command stays in the set until its slow turn. */
  ghost predicate SetHolds(n: Node, reg: Registry) {
    forall id :: id in n.board.inserted ==> id in reg && (id in n.r.commandSet || reg[id] in n.slow)
  }

  ghost predicate ExecutedIsKnown(n: Node, reg: Registry) {
    forall c :: c in n.executed ==> Known(reg, c)
  }

  ghost predicate ContentsInv(n: Node, reg: Registry) {
    && ResultsTrue(n, reg) && SetSeen(n) && SetHolds(n, reg) && ExecutedIsKnown(n, reg)
    && QueuedServed(n, reg) && B.SyncCalls(n.board)
  }

  /** A fast turn always executes. */
  lemma FastTurnRuns(n: Node, reg: Registry, c: Command)
    requires SetSeen(n) && PoolInv(n, reg) && CanAct(n, TakeFast(c))
    ensures FastRuns(n.r, c) && Known(reg, c) && c.id !in n.board.inserted
  {
  }

  lemma BoardMoves(n: Node, reg: Registry, a: Action)
    requires SetSeen(n) && PoolInv(n, reg) && CanAct(n, a)
    ensures Act(n, a).board == match BoardEvent(n, a) case None => n.board case Some(e) => B.Step(n.board, e)
    ensures a.TakeFast? ==> BoardEvent(n, a) == Some(B.InsertEr(a.cmd.id, SyncResult(n.r.store, a.cmd)))
    ensures BoardEvent(n, a).Some? ==>
              B.CanStep(n.board, BoardEvent(n, a).value) && (BoardEvent(n, a).value.InsertEr? <==> a.TakeFast?)
    ensures n.executed <= Act(n, a).executed
  {
    BoardEvolves(n, a);
    if a.TakeFast? {
      FastTurnRuns(n, reg, a.cmd);
    }
    hide B.Step;
  }

  /** The ids with a result change only in a fast turn. */
  lemma InsertedMoves(n: Node, reg: Registry, a: Action)
    requires SetSeen(n) && PoolInv(n, reg) && CanAct(n, a)
    ensures Act(n, a).board.inserted ==
            if a.TakeFast? then n.board.inserted[a.cmd.id := {SyncResult(n.r.store, a.cmd)}] else n.board.inserted
    ensures a.TakeFast? ==> Act(n, a).executed == n.executed + [a.cmd]
  {
    BoardMoves(n, reg, a);
    if a.TakeFast? {
      FastTurnRuns(n, reg, a.cmd);
    }
    assert a.TakeFast? ==> Act(n, a).executed == n.executed + [a.cmd];
    hide Act, CanAct, B.Step, B.CanStep, SetSeen, PoolInv;
    if BoardEvent(n, a).Some? {
      B.HistoryFrame(n.board, BoardEvent(n, a).value);
    }
  }

  lemma ResultsTrueKept(n: Node, reg: Registry, a: Action)
    requires ResultsTrue(n, reg) && SetSeen(n) && PoolInv(n, reg) && StoreInv(n) && CanAct(n, a)
    ensures ResultsTrue(Act(n, a), reg)
  {
    InsertedMoves(n, reg, a);
    BoardMoves(n, reg, a);
    if a.TakeFast? {
      FastTurnRuns(n, reg, a.cmd);
      NewIsResult(n.executed, a.cmd);
    }
    var n' := Act(n, a);
    hide Act, CanAct, B.Step, B.CanStep, SetSeen, PoolInv, IsResult, Replay;
    forall id, r | B.WasInserted(n'.board, id, r) ensures id in reg && IsResult(map[], n'.executed, reg[id], r) {
      if B.WasInserted(n.board, id, r) {
        IsResultGrows(n.executed, n'.executed, reg[id], r);
      }
    }
  }

  lemma SetSeenKept(n: Node, reg: Registry, a: Action)
    requires SetSeen(n) && PoolInv(n, reg) && CanAct(n, a)
    ensures SetSeen(Act(n, a))
  {
    InsertedMoves(n, reg, a);
    hide B.Step, B.CanStep, PoolInv;
  }

  lemma QueuedServedKept(n: Node, reg: Registry, a: Action)
    requires QueuedServed(n, reg) && SetSeen(n) && PoolInv(n, reg) && CanAct(n, a) && Admissible(n, reg, a)
    requires WellKeyed(reg)
    ensures QueuedServed(Act(n, a), reg)
  {
    InsertedMoves(n, reg, a);
    hide B.Step, B.CanStep, PoolInv, SetSeen;
  }

  /** Only the end of a slow turn takes an id out of the set. */
  lemma SetMoves(n: Node, a: Action)
    requires CanAct(n, a)
    ensures forall id :: id in n.r.commandSet ==>
              id in Act(n, a).r.commandSet || (a.RemoveRecord? && id == n.r.committing.value.id)
    ensures a.TakeFast? ==> a.cmd.id in Act(n, a).r.commandSet
    ensures n.slow <= Act(n, a).slow && (a.RemoveRecord? ==> n.r.committing.Some?)
  {
    hide B.Step, B.CanStep;
  }

  lemma SetHoldsKept(n: Node, reg: Registry, a: Action)
    requires SetHolds(n, reg) && SetSeen(n) && PoolInv(n, reg) && SlowKnown(n, reg) && WellKeyed(reg)
    requires CanAct(n, a)
    ensures SetHolds(Act(n, a), reg)
  {
    InsertedMoves(n, reg, a);
    SetMoves(n, a);
    var n' := Act(n, a);
    if a.TakeFast? {
      FastTurnRuns(n, reg, a.cmd);
    }
    hide Act, CanAct, B.Step, B.CanStep, PoolInv, SetSeen, Distinct;
    forall id | id in n'.board.inserted ensures id in reg && (id in n'.r.commandSet || reg[id] in n'.slow) {
      if id in n.board.inserted && id in n.r.commandSet && id !in n'.r.commandSet {
        var c := n.r.committing.value;
        assert c in n.slow && c.id == id && reg[id] == c;
      }
    }
  }

  lemma ExecutedIsKnownKept(n: Node, reg: Registry, a: Action)
    requires ExecutedIsKnown(n, reg) && PoolInv(n, reg) && CanAct(n, a) && Admissible(n, reg, a)
    ensures ExecutedIsKnown(Act(n, a), reg)
  {
    hide B.Step, B.CanStep;
  }

  /** After its fast turn a command is not executed again. */
  lemma NoMoreExecutions(n: Node, reg: Registry, a: Action, id: ProposeId) returns (tail: seq<Command>)
    requires SetHolds(n, reg) && SetSeen(n) && PoolInv(n, reg) && n.r.isLeader && WellKeyed(reg)
    requires CanAct(n, a) && Admissible(n, reg, a) && id in n.board.inserted
    ensures Act(n, a).executed == n.executed + tail && reg[id] !in tail
  {
    hide B.Step;
    tail := Act(n, a).executed[|n.executed|..];
    assert Act(n, a).executed == n.executed + tail;
  }

  lemma SyncCallsStay(n: Node, reg: Registry, a: Action)
    requires SetSeen(n) && PoolInv(n, reg) && B.SyncCalls(n.board) && CanAct(n, a) && Admissible(n, reg, a)
    ensures B.SyncCalls(Act(n, a).board)
  {
    BoardMoves(n, reg, a);
    hide Act, CanAct, B.Step, B.CanStep, SetSeen, PoolInv, B.SyncCalls, B.FirstSend;
    if BoardEvent(n, a).Some? {
      B.SyncCallsKept(n.board, BoardEvent(n, a).value);
    }
  }

  lemma ContentsKept(n: Node, reg: Registry, a: Action)
    requires ContentsInv(n, reg) && LocalInv(n, reg) && WitnessInv(n, reg) && Admissible(n, reg, a)
    ensures ContentsInv(Act(n, a), reg)
  {
    if CanAct(n, a) {
      assert PoolInv(n, reg) && StoreInv(n) && SlowKnown(n, reg) && WellKeyed(reg);
      hide Act, CanAct, ResultsTrue, SetSeen, SetHolds, QueuedServed, ExecutedIsKnown, B.SyncCalls;
      hide LocalInv, WitnessInv, SlowKnown, Admissible, PoolInv, StoreInv;
      ResultsTrueKept(n, reg, a);
      SetSeenKept(n, reg, a);
      SetHoldsKept(n, reg, a);
      ExecutedIsKnownKept(n, reg, a);
      QueuedServedKept(n, reg, a);
      SyncCallsStay(n, reg, a);
    }
  }

  lemma ContentsRegistryGrows(n: Node, reg: Registry, c: Command)
    requires ContentsInv(n, reg) && c.id !in reg
    ensures ContentsInv(n, reg[c.id := c])
  {
    hide IsResult, B.SyncCalls;
  }

  // ---------------------------------------------------------------- along a run

  ghost predicate ContentsHold(s: Cluster) {
    ClusterInv(s) && ContentsInv(Leader(s), s.issued)
  }

  lemma ContentsStep(s: Cluster, t: Step)
    requires s.leader < |s.nodes| && ContentsHold(s) && Enabled(s, t)
    ensures ContentsHold(Apply(s, t))
  {
    LeaderLocal(s);
    hide Apply, Enabled, Act, CanAct, Admissible, ContentsInv, NodesInv, LogInv, ClientsInv, LocalInv;
    hide WitnessInv, Performs;
    InvKept(s, t);
    NodeEvolves(s, t, s.leader);
    var n, o := Leader(s), ActionAt(s, t, s.leader);
    if t.Invoke? {
      ContentsRegistryGrows(n, s.issued, t.cmd);
    } else if o.Some? {
      StepIsAdmissible(s, t, s.leader, o.value);
      ContentsKept(n, s.issued, o.value);
    }
  }

  lemma InitContents(s: Cluster)
    requires Init(s)
    ensures ContentsHold(s)
  {
    StartContents();
    hide ClusterInv, ContentsInv, LeaderInv, OrderInv;
    InitInv(s);
  }

  lemma StartContents()
    ensures ContentsInv(Start(true), map[])
  {
  }

  lemma {:induction false} AlwaysContents(run: Run, k: nat)
    requires IsRun(run) && k < |run.states|
    ensures ContentsHold(run.states[k]) && run.states[k].leader < |run.states[k].nodes|
    decreases k
  {
    hide *;
    RunHasLeader(run, k);
    if k == 0 {
      RunStarts(run);
      InitContents(run.states[0]);
    } else {
      AlwaysContents(run, k - 1);
      StepAt(run, k - 1);
      ContentsStep(run.states[k - 1], run.steps[k - 1]);
    }
  }

  /** A step is a fast turn of id at the leader. */
  predicate FastTurnOf(s: Cluster, t: Step, id: ProposeId) {
    t.At? && t.i == s.leader && t.a.TakeFast? && t.a.cmd.id == id
  }

  /** Before state m the leader's worker had a fast turn of id. */
  ghost predicate FastTurned(run: Run, m: nat, id: ProposeId)
    requires m <= |run.steps| && m < |run.states|
  {
    exists p :: 0 <= p < m && FastTurnOf(run.states[p], run.steps[p], id)
  }

  lemma InsertedAfter(s: Cluster, t: Step, id: ProposeId)
    requires s.leader < |s.nodes| && ContentsHold(s) && Enabled(s, t)
    ensures Apply(s, t).leader < |Apply(s, t).nodes|
    ensures id in Leader(Apply(s, t)).board.inserted <==> id in Leader(s).board.inserted || FastTurnOf(s, t, id)
  {
    NodeEvolves(s, t, s.leader);
    LeaderLocal(s);
    var n, o := Leader(s), ActionAt(s, t, s.leader);
    assert FastTurnOf(s, t, id) <==> o.Some? && o.value.TakeFast? && o.value.cmd.id == id;
    hide Apply, Enabled, Act, CanAct, Admissible, NodesInv, LogInv, ClientsInv, WitnessInv, Performs;
    hide ResultsTrue, B.SyncCalls;
    hide BoardInv, StoreInv, FollowerInv;
    if o.Some? {
      InsertedMoves(n, s.issued, o.value);
    }
  }

  /** The leader has a result for id exactly when its worker had a fast turn of it. */
  lemma {:induction false} InsertedExactly(run: Run, m: nat, id: ProposeId)
    requires IsRun(run) && m < |run.states|
    ensures m <= |run.steps| && run.states[m].leader < |run.states[m].nodes|
    ensures id in Leader(run.states[m]).board.inserted <==> FastTurned(run, m, id)
    decreases m
  {
    hide *;
    RunStarts(run);
    RunHasLeader(run, m);
    if m == 0 {
      NothingAtStart(run, id);
    } else {
      InsertedExactly(run, m - 1, id);
      AlwaysContents(run, m - 1);
      StepAt(run, m - 1);
      InsertedAfter(run.states[m - 1], run.steps[m - 1], id);
      FastTurnedStep(run, m - 1, id);
    }
  }

  lemma NothingAtStart(run: Run, id: ProposeId)
    requires |run.states| > 0 && Init(run.states[0])
    ensures id !in Leader(run.states[0]).board.inserted && !FastTurned(run, 0, id)
  {
  }

  lemma FastTurnedStep(run: Run, m: nat, id: ProposeId)
    requires m < |run.steps| && m + 1 < |run.states|
    ensures FastTurned(run, m + 1, id) <==> FastTurned(run, m, id) || FastTurnOf(run.states[m], run.steps[m], id)
  {
    hide FastTurnOf;
  }

  // ---------------------------------------------------------------- the content of a sync

  ghost predicate CallDone(s: Cluster, id: ProposeId, content: string) {
    s.leader < |s.nodes| && Call(id) in Leader(s).board.asr && Leader(s).board.asr[Call(id)] == B.AsrGot(content)
  }

  /** What a WaitForAsr call returns in the event that finishes it. */
  lemma FinishContent(b: B.System, e: B.Event, w: B.Waiter)
    requires B.Sound(b) && B.SyncCalls(b) && w in B.Step(b, e).asr && B.Step(b, e).asr[w].AsrGot?
    requires w in b.asr ==> !b.asr[w].AsrGot?
    ensures w.id in b.inserted ==> B.WasInserted(b, w.id, B.Step(b, e).asr[w].result)
    ensures w.id !in b.inserted ==> B.Step(b, e).asr[w].result == B.NOT_FOUND_IN_BUFFER
  {
    assert e == B.EnterAsr(w) || e == B.FinishAsr(w);
    if e == B.FinishAsr(w) {
      assert w.id !in b.synced;
    }
  }

  /** The step from s to s' finishes id's WaitForAsr call with this content. */
  ghost predicate Finishes(s: Cluster, s': Cluster, id: ProposeId, content: string) {
    CallDone(s', id, content) && !(exists x :: CallDone(s, id, x))
  }

  lemma FinishStep(s: Cluster, t: Step, id: ProposeId, content: string)
    requires s.leader < |s.nodes| && ContentsHold(s) && Enabled(s, t) && Finishes(s, Apply(s, t), id, content)
    ensures if id in Leader(s).board.inserted
            then id in s.issued && IsResult(map[], Leader(s).executed, s.issued[id], content)
            else content == B.NOT_FOUND_IN_BUFFER
  {
    NodeEvolves(s, t, s.leader);
    LeaderLocal(s);
    var n, o, w := Leader(s), ActionAt(s, t, s.leader), Call(id);
    assert w in n.board.asr && n.board.asr[w].AsrGot? ==> CallDone(s, id, n.board.asr[w].result);
    hide Apply, Enabled, Act, CanAct, Admissible, NodesInv, LogInv, ClientsInv, WitnessInv, Performs, IsResult;
    hide StoreInv, FollowerInv, B.Step, B.CanStep, B.Sound, B.SyncCalls, PoolInv, SetSeen;
    assert o.Some?;
    BoardMoves(n, s.issued, o.value);
    FinishContent(n.board, BoardEvent(n, o.value).value, w);
  }

  /** In every run, what id's WaitForAsr call returned depends on whether a fast turn of id came before it finished. */
  ghost predicate SyncTold(run: Run, k: nat, id: ProposeId, content: string)
    requires k < |run.states| && |run.states| == |run.steps| + 1
  {
    exists m :: 0 <= m < k && Finishes(run.states[m], run.states[m + 1], id, content) && ToldBy(run, m, id, content)
  }

  ghost predicate ToldBy(run: Run, m: nat, id: ProposeId, content: string)
    requires m < |run.states| && |run.states| == |run.steps| + 1
  {
    var s := run.states[m];
    s.leader < |s.nodes| &&
    if FastTurned(run, m, id) then id in s.issued && IsResult(map[], Leader(s).executed, s.issued[id], content)
    else content == B.NOT_FOUND_IN_BUFFER
  }

  lemma DoneStays(s: Cluster, t: Step, id: ProposeId, x: string, content: string)
    requires s.leader < |s.nodes| && Enabled(s, t) && CallDone(s, id, x) && CallDone(Apply(s, t), id, content)
    ensures x == content
  {
    NodesGrow(s, t);
    hide Apply, Enabled;
  }

  lemma InitNotDone(s: Cluster, id: ProposeId, content: string)
    requires Init(s)
    ensures !CallDone(s, id, content)
  {
  }

  lemma {:induction false} SyncContent(run: Run, k: nat, id: ProposeId, content: string)
    requires IsRun(run) && k < |run.states| && CallDone(run.states[k], id, content)
    ensures |run.states| == |run.steps| + 1 && SyncTold(run, k, id, content)
    decreases k
  {
    hide *;
    RunStarts(run);
    if k == 0 {
      InitNotDone(run.states[0], id, content);
    } else {
      StepAt(run, k - 1);
      var s, t := run.states[k - 1], run.steps[k - 1];
      if x :| CallDone(s, id, x) {
        DoneStays(s, t, id, x, content);
        SyncContent(run, k - 1, id, content);
        ToldBefore(run, k, id, content);
      } else {
        NowFinishes(s, run.states[k], id, content);
        AlwaysContents(run, k - 1);
        FinishStep(s, t, id, content);
        InsertedExactly(run, k - 1, id);
        Told(run, k - 1, id, content);
        ToldNow(run, k - 1, id, content);
      }
    }
  }

  lemma NowFinishes(s: Cluster, s': Cluster, id: ProposeId, content: string)
    requires CallDone(s', id, content) && !(exists x :: CallDone(s, id, x))
    ensures Finishes(s, s', id, content)
  {
    hide CallDone;
  }

  lemma ToldBefore(run: Run, k: nat, id: ProposeId, content: string)
    requires 0 < k < |run.states| && |run.states| == |run.steps| + 1 && SyncTold(run, k - 1, id, content)
    ensures SyncTold(run, k, id, content)
  {
    hide Finishes, ToldBy;
  }

  lemma ToldNow(run: Run, m: nat, id: ProposeId, content: string)
    requires m + 1 < |run.states| && |run.states| == |run.steps| + 1
    requires Finishes(run.states[m], run.states[m + 1], id, content) && ToldBy(run, m, id, content)
    ensures SyncTold(run, m + 1, id, content)
  {
    hide Finishes, ToldBy;
  }

  lemma Told(run: Run, m: nat, id: ProposeId, content: string)
    requires m < |run.states| && |run.states| == |run.steps| + 1 && run.states[m].leader < |run.states[m].nodes|
    requires id in Leader(run.states[m]).board.inserted <==> FastTurned(run, m, id)
    requires var s := run.states[m];
             if id in Leader(s).board.inserted
             then id in s.issued && IsResult(map[], Leader(s).executed, s.issued[id], content)
             else content == B.NOT_FOUND_IN_BUFFER
    ensures ToldBy(run, m, id, content)
  {
    hide IsResult, FastTurned;
  }

  // ---------------------------------------------------------------- the content of an operation

  lemma VotedContent(s: Cluster, id: ProposeId)
    requires ContentsHold(s) && id in s.ops && s.ops[id].phase.Returned? && s.ops[id].phase.means.ByVote?
    ensures s.leader < |s.nodes| && id in s.issued
    ensures IsResult(map[], Leader(s).executed, s.issued[id], s.ops[id].phase.content)
  {
    OpIsSound(s, id);
    hide NodesInv, LogInv, ClientsInv, IsResult, SetSeen, B.SyncCalls;
  }

  lemma SyncedContent(s: Cluster, id: ProposeId)
    requires ClusterInv(s) && id in s.ops && s.ops[id].phase.Returned? && s.ops[id].phase.means.BySync?
    ensures CallDone(s, id, s.ops[id].phase.content)
  {
    OpIsSound(s, id);
    hide NodesInv, LogInv, ClientsInv;
  }

  /**
   * In every run, whatever the order of turns: an operation that returned by vote was told the result of an execution
   * of its command at the leader. One that returned by sync was told such a result if a fast turn of its command came
   * before its WaitForAsr call finished, and the not-found text if not.
   */
  lemma ReturnedContent(run: Run, k: nat, id: ProposeId)
    requires IsRun(run) && k < |run.states|
    requires id in run.states[k].ops && run.states[k].ops[id].phase.Returned?
    ensures |run.states| == |run.steps| + 1 && run.states[k].leader < |run.states[k].nodes|
    ensures id in run.states[k].issued
    ensures var s := run.states[k];
            match s.ops[id].phase.means
            case ByVote(_) => IsResult(map[], Leader(s).executed, s.issued[id], s.ops[id].phase.content)
            case BySync => SyncTold(run, k, id, s.ops[id].phase.content)
  {
    var s := run.states[k];
    hide *;
    AlwaysContents(run, k);
    AlwaysInv(run, k);
    OpIsSound(s, id);
    RunStarts(run);
    match s.ops[id].phase.means {
      case ByVote(_) => VotedContent(s, id);
      case BySync =>
        SyncedContent(s, id);
        SyncContent(run, k, id, s.ops[id].phase.content);
    }
  }
}
