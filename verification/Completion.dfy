/** Which operations can still return: all that have not failed and are not stranded in their WaitForAsr call. */
module Completion {
  import opened Commands
  import opened Traces
  import opened Node
  import opened Cluster
  import opened Contents
  import opened Guarantees
  import opened Progress
  import B = Board
  import C = Client

  // ---------------------------------------------------------------- the leader's calls along a run

  /** Every call the leader's board has seen is its operation's one call; a late WaitForEr call came after the sync. */
  ghost predicate CallsTracked(b: B.System) {
    && (forall id :: id in b.waited ==> Call(id) in b.asr)
    && (forall id :: id in b.called ==> Call(id) in b.er)
    && (forall w :: w in b.er && b.er[w].ErBlocked? && b.er[w].late ==> w.id in b.synced)
  }

  predicate OwnCall(e: B.Event) {
    e.EnterEr? || e.EnterAsr? ==> e.w == Call(e.w.id)
  }

  lemma CallsTrackedKept(b: B.System, e: B.Event)
    requires CallsTracked(b) && OwnCall(e)
    ensures CallsTracked(B.Step(b, e))
  {
  }

  ghost predicate BoardTracked(b: B.System) {
    B.ResultChannels(b) && B.SyncTokens(b) && CallsTracked(b)
  }

  lemma BoardTrackedKept(b: B.System, e: B.Event)
    requires BoardTracked(b) && B.Sound(b) && B.SyncCalls(b)
    requires B.FirstOfItsKind(b, e) && B.FirstErCall(b, e) && OwnCall(e)
    ensures BoardTracked(B.Step(b, e))
  {
    hide B.ResultChannels, B.SyncTokens, B.SyncCalls, B.AsrProvenance, B.ErProvenance, B.Retention;
    hide B.FirstSend, B.FirstSyncCall, B.FirstErCall, CallsTracked, OwnCall, B.Step;
    B.ResultChannelsKept(b, e);
    B.SyncTokensKept(b, e);
    CallsTrackedKept(b, e);
  }

  /** Insertions and notifications come once per id. */
  lemma EventIsFirst(n: Node, reg: Registry, a: Action)
    requires LocalInv(n, reg) && Admissible(n, reg, a) && CanAct(n, a) && BoardEvent(n, a).Some?
    ensures B.FirstOfItsKind(n.board, BoardEvent(n, a).value)
  {
    hide B.Sound, Replay;
  }

  predicate InSlowRound(p: Phase) {
    p.Syncing? || (p.Returned? && p.means.BySync?)
  }

  /** An operation with a WaitForAsr call is in its slow round or has returned from it. */
  ghost predicate Tracked(s: Cluster) {
    && s.leader < |s.nodes|
    && BoardTracked(Leader(s).board)
    && forall id :: id in Leader(s).board.waited ==> id in s.ops && InSlowRound(s.ops[id].phase)
  }

  lemma CallsAreOwn(s: Cluster, t: Step)
    requires s.leader < |s.nodes| && Enabled(s, t) && ActionAt(s, t, s.leader).Some?
    ensures var o := BoardEvent(Leader(s), ActionAt(s, t, s.leader).value);
            o.Some? ==> B.FirstErCall(Leader(s).board, o.value) && OwnCall(o.value)
  {
    hide CanAct;
  }

  /** The event a step makes at the leader's board, if any. */
  ghost function LeaderEvent(s: Cluster, t: Step): Option<B.Event>
    requires s.leader < |s.nodes|
  {
    match ActionAt(s, t, s.leader)
    case None => None
    case Some(a) => BoardEvent(Leader(s), a)
  }

  /** The event is the first of its kind, and the call its operation's own. */
  lemma EventAtBoard(s: Cluster, t: Step, a: Action)
    requires s.leader < |s.nodes| && ContentsHold(s) && Enabled(s, t) && Performs(s, t, s.leader, a)
    requires BoardEvent(Leader(s), a).Some?
    ensures var b, e := Leader(s).board, BoardEvent(Leader(s), a).value;
            B.CanStep(b, e) && B.FirstOfItsKind(b, e) && Act(Leader(s), a).board == B.Step(b, e)
  {
    LeaderLocal(s);
    hide Apply, Enabled, Act, CanAct, Admissible, ResultsTrue, QueuedServed, NodesInv, LogInv, ClientsInv;
    hide WitnessInv, Performs, B.Step, B.CanStep, B.SyncCalls, B.FirstSend, B.FirstSyncCall, BoardEvent;
    StepIsAdmissible(s, t, s.leader, a);
    BoardMoves(Leader(s), s.issued, a);
    EventIsFirst(Leader(s), s.issued, a);
  }

  /** A step leaves the leader's board alone or makes one event there. */
  lemma LeaderBoardMoves(s: Cluster, t: Step)
    requires s.leader < |s.nodes| && ContentsHold(s) && Enabled(s, t)
    ensures Apply(s, t).leader == s.leader < |Apply(s, t).nodes|
    ensures var b, b', e := Leader(s).board, Leader(Apply(s, t)).board, LeaderEvent(s, t);
            if e.None? then b' == b
            else B.CanStep(b, e.value) && B.FirstOfItsKind(b, e.value) && b' == B.Step(b, e.value)
  {
    NodeEvolves(s, t, s.leader);
    var n, o := Leader(s), ActionAt(s, t, s.leader);
    hide Apply, Enabled, Act, CanAct, ContentsHold, B.Step, B.CanStep, Performs, BoardEvent, B.FirstSend, ActionAt;
    hide B.FirstSyncCall;
    if o.Some? {
      BoardEvolves(n, o.value);
      if BoardEvent(n, o.value).Some? {
        EventAtBoard(s, t, o.value);
      }
    }
  }

  lemma LeaderBoardTracked(s: Cluster, t: Step)
    requires s.leader < |s.nodes| && ContentsHold(s) && BoardTracked(Leader(s).board) && Enabled(s, t)
    ensures Apply(s, t).leader < |Apply(s, t).nodes| && BoardTracked(Leader(Apply(s, t)).board)
  {
    if LeaderEvent(s, t).Some? {
      CallsAreOwn(s, t);
    }
    hide Enabled, Apply, ContentsHold, BoardTracked, LeaderEvent, BoardInv;
    hide B.Step, B.CanStep, B.Sound, B.SyncCalls, B.FirstSend, B.FirstSyncCall, B.FirstErCall, OwnCall;
    SoundBoard(s);
    LeaderBoardMoves(s, t);
    if LeaderEvent(s, t).Some? {
      BoardTrackedKept(Leader(s).board, LeaderEvent(s, t).value);
    }
  }

  lemma SoundBoard(s: Cluster)
    requires ContentsHold(s)
    ensures s.leader < |s.nodes| && BoardInv(Leader(s), s.issued) && B.Sound(Leader(s).board)
    ensures B.SyncCalls(Leader(s).board)
  {
    LeaderLocal(s);
    hide B.Sound, B.SyncCalls, NodesInv, LogInv, ClientsInv;
  }

  lemma WaitedAfterEvent(b: B.System, e: B.Event)
    ensures B.Step(b, e).waited == if e.EnterAsr? && B.CanStep(b, e) then b.waited + {e.w.id} else b.waited
  {
  }

  lemma WaitedAfter(s: Cluster, t: Step, id: ProposeId)
    requires s.leader < |s.nodes| && Enabled(s, t)
    requires Apply(s, t).leader < |Apply(s, t).nodes| && id in Leader(Apply(s, t)).board.waited
    ensures id in Leader(s).board.waited || (t.At? && id in s.ops && s.ops[id].phase.Syncing?)
  {
    NodeEvolves(s, t, s.leader);
    var n, o := Leader(s), ActionAt(s, t, s.leader);
    hide Apply, Act, CanAct;
    if o.Some? {
      BoardEvolves(n, o.value);
      if BoardEvent(n, o.value).Some? {
        WaitedAfterEvent(n.board, BoardEvent(n, o.value).value);
      }
    }
    hide B.Step;
  }

  /** No operation leaves its slow round but by its return, and none recovers from a failure. */
  lemma PhaseAfter(s: Cluster, t: Step, id: ProposeId)
    requires s.leader < |s.nodes| && Enabled(s, t) && id in s.ops
    ensures id in Apply(s, t).ops
    ensures InSlowRound(s.ops[id].phase) ==> InSlowRound(Apply(s, t).ops[id].phase)
    ensures s.ops[id].phase.Failed? ==> Apply(s, t).ops[id].phase.Failed?
  {
    hide Act, CanAct, C.Decides, ReplyOf, MayWait, HasReturned;
  }

  lemma TrackedStep(s: Cluster, t: Step)
    requires s.leader < |s.nodes| && ContentsHold(s) && Tracked(s) && Enabled(s, t)
    ensures Tracked(Apply(s, t))
  {
    hide Enabled, Apply, ContentsHold, BoardTracked, InSlowRound;
    LeaderBoardTracked(s, t);
    var s' := Apply(s, t);
    forall id | id in Leader(s').board.waited ensures id in s'.ops && InSlowRound(s'.ops[id].phase) {
      WaitedAfter(s, t, id);
      SyncingIsSlow(s, id);
      PhaseAfter(s, t, id);
    }
  }

  lemma SyncingIsSlow(s: Cluster, id: ProposeId)
    ensures id in s.ops && s.ops[id].phase.Syncing? ==> InSlowRound(s.ops[id].phase)
  {
  }

  lemma InitTracked(s: Cluster)
    requires Init(s)
    ensures Tracked(s)
  {
  }

  lemma {:induction false} AlwaysTracked(run: Run, k: nat)
    requires IsRun(run) && k < |run.states|
    ensures Tracked(run.states[k])
    decreases k
  {
    hide *;
    if k == 0 {
      RunStarts(run);
      InitTracked(run.states[0]);
    } else {
      AlwaysTracked(run, k - 1);
      AlwaysContents(run, k - 1);
      StepAt(run, k - 1);
      TrackedStep(run.states[k - 1], run.steps[k - 1]);
    }
  }

  // ---------------------------------------------------------------- continuing a run

  lemma ContinuesTransitive(a: Run, b: Run, c: Run)
    requires Continues(a, b) && Continues(b, c)
    ensures Continues(a, c)
  {
    hide IsRun, FastBeforeSlow;
  }

  lemma AfterContinues(run: Run, later: Run)
    requires Continues(run, later)
    ensures IsRun(run) && IsRun(later) && |run.states| > 0 && |later.states| > 0
    ensures FastBeforeSlow(run) ==> FastBeforeSlow(later)
  {
    RunStarts(run);
    hide IsRun, FastBeforeSlow;
  }

  lemma StayContinues(run: Run)
    requires IsRun(run)
    ensures Continues(run, run)
  {
    RunStarts(run);
    hide IsRun, FastBeforeSlow;
  }

  ghost predicate Ready(s: Cluster) {
    s.leader < |s.nodes| && ContentsHold(s) && Tracked(s)
  }

  lemma StateReady(run: Run, k: nat)
    requires IsRun(run) && k < |run.states|
    ensures Ready(run.states[k]) && run.states[k].leader < |run.states[k].nodes|
  {
    hide IsRun, ContentsHold, Tracked;
    AlwaysContents(run, k);
    AlwaysTracked(run, k);
  }

  lemma LastReady(run: Run)
    requires IsRun(run)
    ensures |run.states| == |run.steps| + 1 && Ready(Last(run)) && Last(run).leader < |Last(run).nodes|
  {
    hide IsRun, Ready;
    RunStarts(run);
    StateReady(run, |run.states| - 1);
  }

  /** One more step, other than a delivery. */
  lemma Take(run: Run, t: Step) returns (later: Run)
    requires IsRun(run) && Last(run).leader < |Last(run).nodes| && Enabled(Last(run), t) && !t.Deliver?
    ensures Continues(run, later) && Last(later) == Apply(Last(run), t)
  {
    later := Extended(run, t);
    OnlyDeliveriesAreSlow(Last(run), t);
    hide Enabled, Apply, Init, FastBeforeSlow, LeaderAccepts, StepFastFirst;
    ExtendedIsRun(run, t);
  }

  lemma OnlyDeliveriesAreSlow(s: Cluster, t: Step)
    requires s.leader < |s.nodes| && Enabled(s, t) && !t.Deliver?
    ensures StepFastFirst(s, t)
  {
    hide CanAct;
  }

  // ---------------------------------------------------------------- the command gets into the log

  /** No WaitForAsr call has started, and none has blocked. */
  ghost predicate SameSyncCalls(b: B.System, b': B.System) {
    b'.asr.Keys == b.asr.Keys && forall w :: w in b'.asr && b'.asr[w].AsrBlocked? ==> b'.asr[w] == b.asr[w]
  }

  /** No WaitForAsr call has started, and no verdict, queued or applied command, or result was taken back. */
  ghost predicate ServerKeeps(n: Node, n': Node) {
    && n.verdicts.Keys <= n'.verdicts.Keys && n.queued <= n'.queued && n.slow <= n'.slow
    && n.board.inserted.Keys <= n'.board.inserted.Keys && SameSyncCalls(n.board, n'.board)
  }

  /** Clients are where they were, and servers have kept what they had. */
  ghost predicate Keeps(s: Cluster, s': Cluster) {
    && s'.leader == s.leader && |s'.nodes| == |s.nodes| && s'.issued == s.issued && s'.ops == s.ops
    && forall i :: 0 <= i < |s.nodes| ==> ServerKeeps(s.nodes[i], s'.nodes[i])
  }

  /** A step of raft or of a server that starts no WaitForAsr call. */
  predicate IsQuiet(t: Step) {
    t.Append? || t.Deliver? || (t.At? && !(t.a.Wait? && t.a.e.EnterAsr?))
  }

  lemma EventKeepsCalls(b: B.System, e: B.Event)
    requires !e.EnterAsr?
    ensures SameSyncCalls(b, B.Step(b, e))
  {
  }

  lemma ActKeepsCalls(n: Node, a: Action)
    requires !(a.Wait? && a.e.EnterAsr?)
    ensures SameSyncCalls(n.board, Act(n, a).board)
  {
    if CanAct(n, a) {
      BoardEvolves(n, a);
      if BoardEvent(n, a).Some? {
        EventKeepsCalls(n.board, BoardEvent(n, a).value);
      }
    }
    hide B.Step, CanAct, Act;
  }

  lemma StepKeepsCalls(s: Cluster, t: Step, i: nat)
    requires s.leader < |s.nodes| && i < |s.nodes| && Enabled(s, t) && IsQuiet(t)
    ensures i < |Apply(s, t).nodes| && SameSyncCalls(s.nodes[i].board, Apply(s, t).nodes[i].board)
  {
    NodeEvolves(s, t, i);
    var o := ActionAt(s, t, i);
    if o.Some? {
      ActKeepsCalls(s.nodes[i], o.value);
    }
    hide Act, CanAct, MayWait;
  }

  lemma GrowsKeeps(n: Node, n': Node)
    requires Grows(n, n') && SameSyncCalls(n.board, n'.board)
    ensures ServerKeeps(n, n')
  {
    hide SameSyncCalls;
  }

  lemma StepKeepsClients(s: Cluster, t: Step)
    requires s.leader < |s.nodes| && Enabled(s, t) && IsQuiet(t)
    ensures Apply(s, t).ops == s.ops && Apply(s, t).issued == s.issued
  {
    hide Act, CanAct, C.Decides, ReplyOf, AfterVote, Arrivals, MayWait, HasReturned;
  }

  lemma StepKeeps(s: Cluster, t: Step)
    requires s.leader < |s.nodes| && Enabled(s, t) && IsQuiet(t)
    ensures Keeps(s, Apply(s, t))
  {
    NodesGrow(s, t);
    StepKeepsClients(s, t);
    hide Apply, Enabled, Grows, ServerKeeps, SameSyncCalls;
    forall i | 0 <= i < |s.nodes| ensures ServerKeeps(s.nodes[i], Apply(s, t).nodes[i]) {
      StepKeepsCalls(s, t, i);
      GrowsKeeps(s.nodes[i], Apply(s, t).nodes[i]);
    }
  }

  lemma KeepsTransitive(a: Cluster, b: Cluster, c: Cluster)
    requires Keeps(a, b) && Keeps(b, c)
    ensures Keeps(a, c)
  {
  }

  lemma GoesOnFrom(run: Run, later: Run)
    requires GoesOn(run, later)
    ensures IsRun(run) && IsRun(later)
    ensures |run.states| == |run.steps| + 1 && |later.states| == |later.steps| + 1 && |run.steps| <= |later.steps|
    ensures later.states[|run.steps|] == Last(run) && Keeps(Last(run), Last(run))
    ensures forall k :: |run.steps| <= k < |later.steps| ==> IsQuiet(later.steps[k])
  {
    RunStarts(run);
    RunStarts(later);
    hide IsRun, FastBeforeSlow, LeaderAccepts;
    assert forall k :: |run.steps| <= k < |later.steps| ==> Internal(later.steps[k]);
  }

  lemma {:induction false} GoesOnKeeps(run: Run, later: Run, m: nat)
    requires GoesOn(run, later) && |run.steps| <= m < |later.states|
    ensures |run.states| == |run.steps| + 1 && Keeps(Last(run), later.states[m])
    decreases m
  {
    hide *;
    GoesOnFrom(run, later);
    if m > |run.steps| {
      GoesOnKeeps(run, later, m - 1);
      StepAt(later, m - 1);
      StepKeeps(later.states[m - 1], later.steps[m - 1]);
      KeepsTransitive(Last(run), later.states[m - 1], later.states[m]);
    }
  }

  /** id is issued under itself. */
  lemma OpIsKnown(s: Cluster, id: ProposeId)
    requires Ready(s) && id in s.ops
    ensures id in s.issued && s.issued[id].id == id && Leader(s).r.isLeader
  {
    hide Tracked, ContentsInv, WitnessInv, LocalInv, CleanInv, ReplySound, ReturnSound;
  }

  /** later goes on from run, and its clients are where they were. */
  ghost predicate Quietly(run: Run, later: Run) {
    Continues(run, later) && Keeps(Last(run), Last(later))
  }

  lemma QuietlyTransitive(a: Run, b: Run, c: Run)
    requires Quietly(a, b) && Quietly(b, c)
    ensures Quietly(a, c)
  {
    hide IsRun, FastBeforeSlow, Keeps;
    ContinuesTransitive(a, b, c);
    KeepsTransitive(Last(a), Last(b), Last(c));
  }

  lemma AfterQuietly(run: Run, later: Run)
    requires Quietly(run, later)
    ensures IsRun(later) && |run.states| > 0 && |later.states| > 0 && Continues(run, later) && Ready(Last(later))
    ensures var s, s' := Last(run), Last(later);
            && s'.ops == s.ops && s'.issued == s.issued && s'.leader == s.leader < |s'.nodes| == |s.nodes|
            && (forall i, id :: 0 <= i < |s.nodes| && id in s.nodes[i].verdicts ==> id in s'.nodes[i].verdicts)
  {
    LastReady(later);
    hide IsRun, FastBeforeSlow, ContentsHold, Tracked;
  }

  lemma StayQuiet(run: Run)
    requires IsRun(run)
    ensures Quietly(run, run)
  {
  }

  /** A step of a server or of raft disturbs no client. */
  lemma TakeQuietly(run: Run, t: Step) returns (later: Run)
    requires IsRun(run) && Last(run).leader < |Last(run).nodes| && Enabled(Last(run), t) && IsQuiet(t)
    requires !t.Deliver?
    ensures Quietly(run, later) && |later.states| > 0 && Last(later) == Apply(Last(run), t)
  {
    hide Enabled, Apply, IsRun, FastBeforeSlow, Keeps;
    later := Take(run, t);
    StepKeeps(Last(run), t);
  }

  lemma EnterEnabled(s: Cluster, i: nat, id: ProposeId)
    requires s.leader < |s.nodes| && i < |s.nodes|
    requires id in s.issued && s.issued[id].id == id && id !in s.nodes[i].verdicts
    ensures var t := At(i, Enter(s.issued[id]));
            IsQuiet(t) && Enabled(s, t) && i < |Apply(s, t).nodes| && id in Apply(s, t).nodes[i].verdicts
  {
  }

  /** Server i can give its verdict. */
  lemma Witnessed(run: Run, i: nat, id: ProposeId) returns (later: Run)
    requires IsRun(run) && id in Last(run).ops && i < |Last(run).nodes|
    ensures Quietly(run, later) && i < |Last(later).nodes| && id in Last(later).nodes[i].verdicts
  {
    hide *;
    LastReady(run);
    StayQuiet(run);
    later := run;
    var s := Last(run);
    OpIsKnown(s, id);
    if id !in s.nodes[i].verdicts {
      EnterEnabled(s, i, id);
      later := TakeQuietly(run, At(i, Enter(s.issued[id])));
    }
  }

  lemma QueueEnabled(s: Cluster, id: ProposeId)
    requires s.leader < |s.nodes| && Leader(s).r.isLeader
    requires id in s.issued && s.issued[id].id == id && id in s.nodes[s.leader].verdicts && id !in Leader(s).queued
    ensures var t := At(s.leader, Queue(s.issued[id]));
            && IsQuiet(t) && Enabled(s, t)
            && Apply(s, t).leader < |Apply(s, t).nodes| && id in Leader(Apply(s, t)).queued
  {
  }

  /** The leader can queue the command. */
  lemma Enqueued(run: Run, id: ProposeId) returns (later: Run)
    requires IsRun(run) && id in Last(run).ops && Last(run).leader < |Last(run).nodes|
    ensures Quietly(run, later) && Last(later).leader < |Last(later).nodes| && id in Leader(Last(later)).queued
  {
    hide *;
    LastReady(run);
    later := Witnessed(run, Last(run).leader, id);
    AfterQuietly(run, later);
    var s := Last(later);
    OpIsKnown(s, id);
    if id !in Leader(s).queued {
      QueueEnabled(s, id);
      var next := TakeQuietly(later, At(s.leader, Queue(s.issued[id])));
      QuietlyTransitive(run, later, next);
      later := next;
    }
  }

  /** The leader has had both turns of the command of id. */
  ghost predicate IsApplied(s: Cluster, id: ProposeId) {
    s.leader < |s.nodes| && id in s.issued && s.issued[id] in Leader(s).slow && id in Leader(s).board.inserted
  }

  lemma DrainedIsSynced(s: Cluster, id: ProposeId)
    requires Ready(s) && Drained(s) && PoolsEmpty(s) && id in Leader(s).queued
    ensures IsApplied(s, id)
  {
    hide Tracked, ResultsTrue, SetSeen, B.SyncCalls, NodesInv, ClientsInv;
  }

  /** The pools can be drained with the clients left alone. */
  lemma DrainQuietly(run: Run) returns (later: Run)
    requires IsRun(run)
    ensures Quietly(run, later) && |later.states| > 0 && Drained(Last(later)) && PoolsEmpty(Last(later))
  {
    later := CanDrain(run);
    RunStarts(later);
    GoesOnKeeps(run, later, |later.states| - 1);
    hide IsRun, FastBeforeSlow, Keeps, LeaderAccepts, Drained, PoolsEmpty;
  }

  /** Whatever the state, the leader can have both turns of an operation's command. */
  lemma Applied(run: Run, id: ProposeId) returns (later: Run)
    requires IsRun(run) && id in Last(run).ops && Last(run).leader < |Last(run).nodes|
    ensures Quietly(run, later) && IsApplied(Last(later), id)
  {
    hide *;
    LastReady(run);
    var queued := Enqueued(run, id);
    AfterQuietly(run, queued);
    later := DrainQuietly(queued);
    AfterQuietly(queued, later);
    QuietlyTransitive(run, queued, later);
    StaysQueued(queued, later, id);
    DrainedIsSynced(Last(later), id);
  }

  lemma StaysQueued(run: Run, later: Run, id: ProposeId)
    requires Quietly(run, later) && Last(run).leader < |Last(run).nodes| && id in Leader(Last(run)).queued
    ensures Last(later).leader < |Last(later).nodes| && id in Leader(Last(later)).queued
  {
    hide Continues;
  }

  // ---------------------------------------------------------------- calls that are stranded

  ghost predicate HasReturnedIn(s: Cluster, id: ProposeId) {
    id in s.ops && s.ops[id].phase.Returned?
  }

  ghost predicate HasSyncCall(s: Cluster, id: ProposeId) {
    s.leader < |s.nodes| && Call(id) in Leader(s).board.asr
  }

  /** The WaitForAsr call of id blocked after the only notification there will be. */
  ghost predicate Stranded(s: Cluster, id: ProposeId) {
    HasSyncCall(s, id) && Leader(s).board.asr[Call(id)] == B.AsrBlocked(true)
  }

  /** The leader has had the slow turn of id's command. */
  ghost predicate SlowTurned(s: Cluster, id: ProposeId) {
    s.leader < |s.nodes| && id in s.issued && s.issued[id] in Leader(s).slow
  }

  predicate StartsSyncCall(s: Cluster, t: Step, id: ProposeId) {
    t == At(s.leader, Wait(B.EnterAsr(Call(id))))
  }

  lemma LeaderBoard(s: Cluster)
    requires Ready(s)
    ensures s.leader < |s.nodes|
    ensures B.Sound(Leader(s).board) && B.SyncCalls(Leader(s).board) && BoardTracked(Leader(s).board)
  {
    SoundBoard(s);
    hide ContentsHold, BoardInv, B.Sound, B.SyncCalls, BoardTracked;
  }

  /** A WaitForAsr call belongs to an operation in its slow round, or returned from it. */
  lemma CallIsWaited(s: Cluster, id: ProposeId)
    requires Ready(s) && (HasSyncCall(s, id) || id in Leader(s).board.waited)
    ensures id in s.ops && InSlowRound(s.ops[id].phase)
  {
    LeaderBoard(s);
    hide ContentsHold, B.Sound, BoardTracked, InSlowRound;
  }

  /** The event that strands a call, and that nothing takes it back. */
  lemma StrandedByEvent(b: B.System, e: B.Event, w: B.Waiter)
    requires B.Sound(b) && B.SyncCalls(b) && B.SyncTokens(b) && B.CanStep(b, e) && B.FirstSyncCall(b, e)
    ensures var b' := B.Step(b, e);
            w in b'.asr && b'.asr[w] == B.AsrBlocked(true) <==>
            (w in b.asr && b.asr[w] == B.AsrBlocked(true))
            || (e == B.EnterAsr(w) && w.id in b.notified && w.id !in b.inserted)
  {
    if e == B.EnterAsr(w) && w.id in b.notified {
      assert B.Settled(b.tables, w.id) <==> w.id in b.inserted;
    }
  }

  /** The step starts id's call with the slow turn of its command over and no result inserted. */
  ghost predicate Strands(s: Cluster, t: Step, id: ProposeId) {
    StartsSyncCall(s, t, id) && SlowTurned(s, id) && id !in Leader(s).board.inserted
  }

  lemma StartsExactly(s: Cluster, t: Step, id: ProposeId)
    requires s.leader < |s.nodes|
    ensures LeaderEvent(s, t) == Some(B.EnterAsr(Call(id))) <==> StartsSyncCall(s, t, id)
  {
  }

  lemma StrandedAfter(s: Cluster, t: Step, id: ProposeId)
    requires Ready(s) && Enabled(s, t)
    ensures Stranded(Apply(s, t), id) <==> Stranded(s, id) || Strands(s, t, id)
  {
    SoundBoard(s);
    var b := Leader(s).board;
    assert BoardTracked(b) && (id in b.notified <==> SlowTurned(s, id));
    hide Apply, Enabled, ContentsHold, BoardInv, Tracked, SlowTurned, StartsSyncCall, LeaderEvent;
    hide B.Step, B.CanStep, B.Sound, B.SyncCalls, B.SyncTokens, B.ResultChannels, CallsTracked, B.FirstSend;
    StartsExactly(s, t, id);
    LeaderBoardMoves(s, t);
    if LeaderEvent(s, t).Some? {
      StrandedByEvent(b, LeaderEvent(s, t).value, Call(id));
    }
  }

  lemma {:induction false} StrandedStays(run: Run, k: nat, m: nat, id: ProposeId)
    requires IsRun(run) && k <= m < |run.states| && Stranded(run.states[k], id)
    ensures Stranded(run.states[m], id)
    decreases m
  {
    hide *;
    if k < m {
      StrandedStays(run, k, m - 1, id);
      StateReady(run, m - 1);
      StepAt(run, m - 1);
      StrandedAfter(run.states[m - 1], run.steps[m - 1], id);
    }
  }

  /** In step p id's call starts after the slow turn of its command and before the fast turn. */
  ghost predicate StartsBetween(run: Run, p: nat, id: ProposeId)
    requires p < |run.steps| && p < |run.states|
  {
    StartsSyncCall(run.states[p], run.steps[p], id) && SlowTurned(run.states[p], id) && !FastTurned(run, p, id)
  }

  ghost predicate StartedBetween(run: Run, m: nat, id: ProposeId)
    requires m <= |run.steps| && m < |run.states|
  {
    exists p :: 0 <= p < m && StartsBetween(run, p, id)
  }

  lemma StartedBetweenStep(run: Run, m: nat, id: ProposeId)
    requires m < |run.steps| && m + 1 < |run.states|
    ensures StartedBetween(run, m + 1, id) <==> StartedBetween(run, m, id) || StartsBetween(run, m, id)
  {
    hide StartsBetween;
  }

  lemma NothingStranded(run: Run, id: ProposeId)
    requires |run.states| > 0 && Init(run.states[0])
    ensures !Stranded(run.states[0], id) && !StartedBetween(run, 0, id)
  {
  }

  lemma StrandsBetween(run: Run, p: nat, id: ProposeId)
    requires p < |run.steps| && p < |run.states| && run.states[p].leader < |run.states[p].nodes|
    requires id in Leader(run.states[p]).board.inserted <==> FastTurned(run, p, id)
    ensures StartsBetween(run, p, id) <==> Strands(run.states[p], run.steps[p], id)
  {
    hide FastTurned;
  }

  /**
   * In every run a WaitForAsr call is stranded exactly when it started after the slow turn of its command and before
   * the fast turn.
   */
  lemma {:induction false} StrandedExactly(run: Run, m: nat, id: ProposeId)
    requires IsRun(run) && m < |run.states|
    ensures m <= |run.steps| && (Stranded(run.states[m], id) <==> StartedBetween(run, m, id))
    decreases m
  {
    hide *;
    RunStarts(run);
    if m == 0 {
      NothingStranded(run, id);
    } else {
      StrandedExactly(run, m - 1, id);
      StateReady(run, m - 1);
      StepAt(run, m - 1);
      StrandedAfter(run.states[m - 1], run.steps[m - 1], id);
      InsertedExactly(run, m - 1, id);
      StrandsBetween(run, m - 1, id);
      StartedBetweenStep(run, m - 1, id);
    }
  }

  lemma StrandedHasNotReturned(s: Cluster, id: ProposeId)
    requires Ready(s) && Stranded(s, id)
    ensures !HasReturnedIn(s, id)
  {
    hide Ready, ClusterInv, ReturnSound;
    CallIsWaited(s, id);
    if HasReturnedIn(s, id) {
      ReadyInv(s);
      OpIsSound(s, id);
      SyncedCallGot(s, id);
    }
  }

  lemma ReadyInv(s: Cluster)
    requires Ready(s)
    ensures ClusterInv(s)
  {
    hide ClusterInv, ContentsInv, Tracked;
  }

  lemma SyncedCallGot(s: Cluster, id: ProposeId)
    requires s.leader < |s.nodes| && id in s.ops && InSlowRound(s.ops[id].phase) && HasReturnedIn(s, id)
    requires ReturnSound(s, id, s.ops[id].phase)
    ensures !Stranded(s, id)
  {
  }

  /** With fast turns first no call is stranded. */
  lemma NoneStranded(run: Run, id: ProposeId)
    requires IsRun(run) && FastBeforeSlow(run)
    ensures |run.states| > 0 && !Stranded(Last(run), id)
  {
    LastHolds(run);
    hide IsRun, FastBeforeSlow, ClusterInv, Flow, SetIsUnsynced, ResultsInserted, B.SyncChannels;
  }

  // ---------------------------------------------------------------- the slow round can return

  /** A board call of the leader is a step of the cluster. */
  lemma WaitStep(s: Cluster, e: B.Event)
    requires s.leader < |s.nodes| && B.CanStep(Leader(s).board, e) && MayWait(s, s.leader, e)
    requires !e.InsertEr? && !e.NotifyAsr?
    ensures var t := At(s.leader, Wait(e));
            && Enabled(s, t) && Apply(s, t).leader == s.leader < |Apply(s, t).nodes|
            && Leader(Apply(s, t)).board == B.Step(Leader(s).board, e)
  {
    hide B.CanStep, B.Step;
  }

  ghost predicate IsSyncing(s: Cluster, id: ProposeId) {
    id in s.ops && s.ops[id].phase.Syncing? && IsApplied(s, id)
  }

  ghost predicate SyncCallDone(s: Cluster, id: ProposeId) {
    HasSyncCall(s, id) && Leader(s).board.asr[Call(id)].AsrGot?
  }

  /** e can happen at b and takes w's WaitForAsr call to a phase that is received or done. */
  ghost predicate Advances(b: B.System, e: B.Event, w: B.Waiter, done: bool) {
    B.CanStep(b, e) && w in B.Step(b, e).asr && B.Step(b, e).asr[w].AsrGot? == done && !B.Step(b, e).asr[w].AsrBlocked?
  }

  /** A notified call that is not stranded has nothing left to do, or its second section, or its receive and that. */
  lemma SyncCallGoesOn(b: B.System, w: B.Waiter)
    requires BoardTracked(b) && w in b.asr && w.id in b.notified && b.asr[w] != B.AsrBlocked(true)
    ensures b.asr[w].AsrBlocked? ==> Advances(b, B.ReceiveAsr(w), w, false)
    ensures b.asr[w].AsrReceived? ==> Advances(b, B.FinishAsr(w), w, true)
  {
    hide B.ResultChannels, CallsTracked;
  }

  /** A call that starts after both turns returns at once. */
  lemma SyncCallAtOnce(b: B.System, w: B.Waiter)
    requires B.Sound(b) && B.SyncCalls(b) && w.id !in b.waited && w.id in b.notified && w.id in b.inserted
    ensures Advances(b, B.EnterAsr(w), w, true)
  {
  }

  /** What happens next to a WaitForAsr call. */
  function NextForSync(b: B.System, w: B.Waiter): B.Event {
    if w !in b.asr then B.EnterAsr(w) else if b.asr[w].AsrBlocked? then B.ReceiveAsr(w) else B.FinishAsr(w)
  }

  ghost predicate IsReceived(s: Cluster, id: ProposeId) {
    HasSyncCall(s, id) && Leader(s).board.asr[Call(id)].AsrReceived?
  }

  lemma AppliedIsNotified(s: Cluster, id: ProposeId)
    requires Ready(s) && IsApplied(s, id)
    ensures id in Leader(s).board.notified
  {
    SoundBoard(s);
    hide ContentsHold, Tracked, B.Sound, B.SyncCalls;
  }

  lemma NoCallIsNotWaited(b: B.System, id: ProposeId)
    requires BoardTracked(b) && Call(id) !in b.asr
    ensures id !in b.waited
  {
    hide B.SyncTokens, B.ResultChannels;
  }

  lemma NextIsNear(b: B.System, w: B.Waiter)
    requires B.Sound(b) && B.SyncCalls(b) && BoardTracked(b) && w == Call(w.id)
    requires w.id in b.notified && w.id in b.inserted
    requires w in b.asr ==> b.asr[w] != B.AsrBlocked(true) && !b.asr[w].AsrGot?
    ensures Advances(b, NextForSync(b, w), w, w in b.asr ==> b.asr[w].AsrReceived?)
    ensures w !in b.asr ==> w.id !in b.waited
  {
    hide BoardTracked, B.Sound, B.SyncCalls, Advances;
    if w in b.asr {
      SyncCallGoesOn(b, w);
    } else {
      NoCallIsNotWaited(b, w.id);
      SyncCallAtOnce(b, w);
    }
  }

  lemma SyncMayWait(s: Cluster, id: ProposeId)
    requires IsSyncing(s, id) && (!HasSyncCall(s, id) ==> id !in Leader(s).board.waited)
    ensures MayWait(s, s.leader, NextForSync(Leader(s).board, Call(id)))
  {
  }

  lemma SyncIsNear(s: Cluster, id: ProposeId)
    requires Ready(s) && IsSyncing(s, id) && !Stranded(s, id) && !SyncCallDone(s, id)
    ensures var e := NextForSync(Leader(s).board, Call(id));
            && MayWait(s, s.leader, e)
            && Advances(Leader(s).board, e, Call(id), !HasSyncCall(s, id) || IsReceived(s, id))
  {
    LeaderBoard(s);
    AppliedIsNotified(s, id);
    hide Ready, BoardTracked, B.Sound, B.SyncCalls, Advances, MayWait, NextForSync;
    NextIsNear(Leader(s).board, Call(id));
    SyncMayWait(s, id);
  }

  /** One board step of a client in its slow round. */
  lemma SyncMoves(run: Run, id: ProposeId) returns (later: Run)
    requires IsRun(run) && IsSyncing(Last(run), id) && !Stranded(Last(run), id) && !SyncCallDone(Last(run), id)
    ensures Continues(run, later) && IsSyncing(Last(later), id)
    ensures if HasSyncCall(Last(run), id) && !IsReceived(Last(run), id) then IsReceived(Last(later), id)
            else SyncCallDone(Last(later), id)
  {
    LastReady(run);
    hide IsRun, FastBeforeSlow, ContentsHold, Tracked, MayWait, B.CanStep, B.Step, Enabled, Apply, Continues;
    var s := Last(run);
    SyncIsNear(s, id);
    var e := NextForSync(Leader(s).board, Call(id));
    WaitStep(s, e);
    later := Take(run, At(s.leader, Wait(e)));
    WaitKeepsSyncing(s, id, e);
    AfterContinues(run, later);
  }

  lemma WaitKeepsSyncing(s: Cluster, id: ProposeId, e: B.Event)
    requires s.leader < |s.nodes| && Enabled(s, At(s.leader, Wait(e))) && IsSyncing(s, id)
    ensures IsSyncing(Apply(s, At(s.leader, Wait(e))), id)
  {
    NodesGrow(s, At(s.leader, Wait(e)));
    hide B.Step, B.CanStep, MayWait;
  }

  lemma SyncEnabled(s: Cluster, id: ProposeId)
    requires IsSyncing(s, id) && SyncCallDone(s, id)
    ensures s.leader < |s.nodes| && Enabled(s, Sync(id)) && HasReturnedIn(Apply(s, Sync(id)), id)
  {
  }

  /** Bringing both turns about strands no call. */
  lemma BecomesSyncing(run: Run, later: Run, id: ProposeId)
    requires Quietly(run, later) && id in Last(run).ops && Last(run).ops[id].phase.Syncing?
    requires IsApplied(Last(later), id) && !Stranded(Last(run), id)
    ensures IsSyncing(Last(later), id) && !Stranded(Last(later), id)
  {
    hide IsRun, FastBeforeSlow, IsApplied;
    assert HasSyncCall(Last(later), id) ==>
        HasSyncCall(Last(run), id) && SameSyncCalls(Leader(Last(run)).board, Leader(Last(later)).board);
  }

  /** A client in its slow round can come to its return when its WaitForAsr call is not stranded. */
  lemma SlowRoundReturns(run: Run, id: ProposeId) returns (later: Run)
    requires IsRun(run) && id in Last(run).ops && Last(run).ops[id].phase.Syncing? && !Stranded(Last(run), id)
    ensures Continues(run, later) && HasReturnedIn(Last(later), id)
  {
    LastReady(run);
    hide IsRun, FastBeforeSlow, ContentsHold, Tracked, Continues, Quietly, IsApplied, Enabled, Apply, SyncCallDone;
    hide IsReceived, HasSyncCall;
    later := Applied(run, id);
    AfterQuietly(run, later);
    BecomesSyncing(run, later, id);
    hide IsSyncing;
    if !SyncCallDone(Last(later), id) {
      later := ThenMoves(run, later, id);
      if !SyncCallDone(Last(later), id) {
        ReceivedIsNotStranded(Last(later), id);
        later := ThenMoves(run, later, id);
      }
    }
    SyncEnabled(Last(later), id);
    var done := Take(later, Sync(id));
    ContinuesTransitive(run, later, done);
    later := done;
  }

  lemma ReceivedIsNotStranded(s: Cluster, id: ProposeId)
    requires IsReceived(s, id)
    ensures !Stranded(s, id)
  {
  }

  lemma ThenMoves(run: Run, so: Run, id: ProposeId) returns (later: Run)
    requires Continues(run, so) && IsRun(so) && |so.states| > 0
    requires IsSyncing(Last(so), id) && !Stranded(Last(so), id) && !SyncCallDone(Last(so), id)
    ensures Continues(run, later) && IsRun(later) && |later.states| > 0 && IsSyncing(Last(later), id)
    ensures if HasSyncCall(Last(so), id) && !IsReceived(Last(so), id) then IsReceived(Last(later), id)
            else SyncCallDone(Last(later), id)
  {
    hide *;
    later := SyncMoves(so, id);
    AfterContinues(so, later);
    ContinuesTransitive(run, so, later);
  }

  // ---------------------------------------------------------------- the vote can be decided

  ghost predicate IsVoting(s: Cluster, id: ProposeId) {
    s.leader < |s.nodes| && id in s.ops && s.ops[id].phase.Voting?
  }

  /** id is still voting, and has all the replies it had. */
  ghost predicate Collects(s: Cluster, s': Cluster, id: ProposeId) {
    && IsVoting(s, id) && IsVoting(s', id) && s'.leader == s.leader && |s'.nodes| == |s.nodes|
    && s.ops[id].replies.Keys <= s'.ops[id].replies.Keys
  }

  ghost predicate Gathers(run: Run, later: Run, id: ProposeId) {
    Continues(run, later) && Collects(Last(run), Last(later), id)
  }

  lemma GathersTransitive(a: Run, b: Run, c: Run, id: ProposeId)
    requires Gathers(a, b, id) && Gathers(b, c, id)
    ensures Gathers(a, c, id)
  {
    hide IsRun, FastBeforeSlow;
    ContinuesTransitive(a, b, c);
  }

  lemma QuietlyGathers(run: Run, later: Run, id: ProposeId)
    requires Quietly(run, later) && IsVoting(Last(run), id)
    ensures Gathers(run, later, id) && Last(later).ops == Last(run).ops
  {
    hide IsRun, FastBeforeSlow;
  }

  /** The leader's call for id has its result. */
  ghost predicate HasResult(s: Cluster, id: ProposeId) {
    && s.leader < |s.nodes| && id in Leader(s).verdicts
    && Call(id) in Leader(s).board.er && Leader(s).board.er[Call(id)].ErGot?
  }

  /** The leader has a result for id. */
  ghost predicate IsInserted(s: Cluster, id: ProposeId) {
    s.leader < |s.nodes| && id in Leader(s).board.inserted
  }

  lemma AppliedIsInserted(s: Cluster, id: ProposeId)
    requires IsApplied(s, id)
    ensures IsInserted(s, id)
  {
  }

  lemma InsertedIsQueued(s: Cluster, id: ProposeId)
    requires Ready(s) && IsInserted(s, id)
    ensures id in Leader(s).queued && id in Leader(s).verdicts
  {
    LeaderLocal(s);
    hide NodesInv, LogInv, ClientsInv, ContentsInv, Tracked, WitnessInv, B.Sound, StoreInv;
  }

  /**
   * A call for a result that is inserted and whose sync was not called for: it has it, can receive it, or can start
   * and get it.
   */
  lemma ResultCallGoesOn(b: B.System, id: ProposeId)
    requires BoardTracked(b) && B.Sound(b) && B.SyncCalls(b) && id in b.inserted && id !in b.waited
    ensures id in b.called ==> Call(id) in b.er
    ensures id in b.called && b.er[Call(id)].ErBlocked? ==> Delivers(b, B.ReceiveEr(Call(id)), Call(id))
    ensures id !in b.called ==> Delivers(b, B.EnterEr(Call(id)), Call(id))
  {
    assert id in b.tables.erBuffer;
  }

  /** e can happen at b and gives w its result. */
  ghost predicate Delivers(b: B.System, e: B.Event, w: B.Waiter) {
    B.CanStep(b, e) && w in B.Step(b, e).er && B.Step(b, e).er[w].ErGot?
  }

  lemma VotingIsNotWaited(s: Cluster, id: ProposeId)
    requires Ready(s) && IsVoting(s, id)
    ensures id !in Leader(s).board.waited && !Stranded(s, id)
  {
    hide Ready;
    if HasSyncCall(s, id) || id in Leader(s).board.waited {
      CallIsWaited(s, id);
    }
  }

  /** The event that gives the leader's call its result. */
  function NextForResult(b: B.System, id: ProposeId): B.Event {
    if id in b.called then B.ReceiveEr(Call(id)) else B.EnterEr(Call(id))
  }

  lemma ResultIsNear(s: Cluster, id: ProposeId)
    requires Ready(s) && IsVoting(s, id) && IsInserted(s, id)
    ensures id in Leader(s).verdicts
    ensures var e := NextForResult(Leader(s).board, id);
            !HasResult(s, id) ==> MayWait(s, s.leader, e) && Delivers(Leader(s).board, e, Call(id))
  {
    InsertedIsQueued(s, id);
    LeaderBoard(s);
    VotingIsNotWaited(s, id);
    hide Ready, BoardTracked, B.Sound, B.SyncCalls, Delivers;
    ResultCallGoesOn(Leader(s).board, id);
  }

  lemma ResultMoves(s: Cluster, id: ProposeId, e: B.Event)
    requires s.leader < |s.nodes| && id in Leader(s).verdicts && Delivers(Leader(s).board, e, Call(id))
    requires e == NextForResult(Leader(s).board, id) && MayWait(s, s.leader, e)
    ensures var t := At(s.leader, Wait(e));
            IsQuiet(t) && !t.Deliver? && Enabled(s, t) && HasResult(Apply(s, t), id)
  {
    hide B.Step, B.CanStep, MayWait;
  }

  lemma ResultStep(run: Run, id: ProposeId) returns (later: Run)
    requires IsRun(run) && |run.states| > 0 && IsVoting(Last(run), id) && IsInserted(Last(run), id)
    ensures Quietly(run, later) && HasResult(Last(later), id)
  {
    hide *;
    LastReady(run);
    ResultIsNear(Last(run), id);
    if HasResult(Last(run), id) {
      StayQuiet(run);
      later := run;
    } else {
      var e := NextForResult(Leader(Last(run)).board, id);
      ResultMoves(Last(run), id, e);
      later := TakeQuietly(run, At(Last(run).leader, Wait(e)));
    }
  }

  lemma VotesOn(run: Run, later: Run, id: ProposeId)
    requires Quietly(run, later) && IsVoting(Last(run), id)
    ensures IsVoting(Last(later), id)
  {
    hide IsRun, FastBeforeSlow;
  }

  /** The leader's Propose call can get its result. */
  lemma ResultArrives(run: Run, id: ProposeId) returns (later: Run)
    requires IsRun(run) && IsVoting(Last(run), id)
    ensures Quietly(run, later) && HasResult(Last(later), id)
  {
    LastReady(run);
    hide IsRun, FastBeforeSlow, Ready, Quietly, IsApplied, HasResult;
    var applied := Applied(run, id);
    AfterQuietly(run, applied);
    VotesOn(run, applied, id);
    AppliedIsInserted(Last(applied), id);
    later := ResultStep(applied, id);
    QuietlyTransitive(run, applied, later);
  }

  lemma AnswerEnabled(s: Cluster, i: nat, id: ProposeId)
    requires IsVoting(s, id) && i < |s.nodes| && i !in s.ops[id].replies && id in s.nodes[i].verdicts
    requires i == s.leader ==> HasResult(s, id)
    ensures Enabled(s, Answer(i, id))
    ensures Collects(s, Apply(s, Answer(i, id)), id) && i in Apply(s, Answer(i, id)).ops[id].replies
  {
  }

  /** Server i has replied to id. */
  ghost predicate HasReply(s: Cluster, i: nat, id: ProposeId) {
    id in s.ops && i in s.ops[id].replies
  }

  lemma TakeAnswer(run: Run, i: nat, id: ProposeId) returns (later: Run)
    requires IsRun(run) && IsVoting(Last(run), id) && i < |Last(run).nodes| && !HasReply(Last(run), i, id)
    requires id in Last(run).nodes[i].verdicts && (i == Last(run).leader ==> HasResult(Last(run), id))
    ensures Gathers(run, later, id) && HasReply(Last(later), i, id)
  {
    LastReady(run);
    hide IsRun, FastBeforeSlow, ContentsHold, Tracked, Enabled, Apply, Collects, HasResult;
    AnswerEnabled(Last(run), i, id);
    later := Take(run, Answer(i, id));
  }

  /** Server i can be brought to answer. */
  lemma ReplyArrives(run: Run, i: nat, id: ProposeId) returns (later: Run)
    requires IsRun(run) && IsVoting(Last(run), id) && i < |Last(run).nodes|
    ensures Gathers(run, later, id) && HasReply(Last(later), i, id)
  {
    LastReady(run);
    StayQuiet(run);
    hide IsRun, FastBeforeSlow, ContentsHold, Tracked, Quietly, Gathers, HasResult;
    later := run;
    if HasReply(Last(run), i, id) {
      QuietlyGathers(run, run, id);
    } else {
      var ready := run;
      if i == Last(run).leader {
        ready := ResultArrives(run, id);
      } else {
        ready := Witnessed(run, i, id);
      }
      AfterQuietly(run, ready);
      QuietlyGathers(run, ready, id);
      ResultHasVerdict(Last(ready), id);
      later := TakeAnswer(ready, i, id);
      GathersTransitive(run, ready, later, id);
    }
  }

  lemma ResultHasVerdict(s: Cluster, id: ProposeId)
    ensures HasResult(s, id) ==> s.leader < |s.nodes| && id in s.nodes[s.leader].verdicts
  {
  }

  lemma AfterGathers(run: Run, later: Run, id: ProposeId)
    requires Gathers(run, later, id)
    ensures IsRun(later) && |run.states| > 0 && |later.states| > 0 && Continues(run, later)
    ensures IsVoting(Last(later), id) && |Last(later).nodes| == |Last(run).nodes|
    ensures forall i :: HasReply(Last(run), i, id) ==> HasReply(Last(later), i, id)
  {
    hide IsRun, FastBeforeSlow;
  }

  /** The first m servers can be brought to answer. */
  lemma {:induction false} RepliesArrive(run: Run, m: nat, id: ProposeId) returns (later: Run)
    requires IsRun(run) && IsVoting(Last(run), id) && m <= |Last(run).nodes|
    ensures Gathers(run, later, id) && forall i :: 0 <= i < m ==> HasReply(Last(later), i, id)
    decreases m
  {
    hide *;
    LastReady(run);
    if m == 0 {
      later := run;
      StayQuiet(run);
      QuietlyGathers(run, run, id);
    } else {
      var before := RepliesArrive(run, m - 1, id);
      AfterGathers(run, before, id);
      later := ReplyArrives(before, m - 1, id);
      AfterGathers(before, later, id);
      GathersTransitive(run, before, later, id);
    }
  }

  // ---------------------------------------------------------------- the decision

  /** All servers, the leader first. */
  function LeaderFirst(n: nat, leader: nat): seq<nat> {
    seq(n, (k: nat) => if k == 0 then leader else if k <= leader then k - 1 else k)
  }

  /** With the leader's reply first and a reply from every server, the vote is refused or has the leader's slot. */
  lemma VoteDecided(n: nat, leader: nat, rs: seq<C.Arrival>) returns (o: C.Outcome)
    requires C.DistinctPeers(rs) && |rs| == n > 0 && rs[0].peer == leader
    ensures C.Decides(n, leader, rs, o) && (o.Refused? || (o.Quorum? && o.leaderSlot.Some?))
  {
    var q := C.SuperQuorum(n);
    C.SuperQuorumIsAllExactly(n);
    if C.AllAccept(rs, q) {
      o := C.Quorum(Some(rs[0].reply));
      C.PeersSize(rs, q);
      assert rs[0] == C.Arrival(leader, rs[0].reply);
    } else {
      var k := FirstRefusal(rs, q);
      o := C.Refused(rs[k].reply);
    }
  }

  lemma {:induction false} FirstRefusal(rs: seq<C.Arrival>, m: nat) returns (k: nat)
    requires m <= |rs| && !C.AllAccept(rs, m)
    ensures k < m && C.RefusedAt(rs, k, rs[k].reply)
    decreases m
  {
    if C.AllAccept(rs, m - 1) {
      k := m - 1;
    } else {
      k := FirstRefusal(rs, m - 1);
    }
  }

  ghost predicate ReturnedByVote(s: Cluster, id: ProposeId) {
    id in s.ops && s.ops[id].phase.Returned? && s.ops[id].phase.means.ByVote?
  }

  lemma VoteEnabled(s: Cluster, id: ProposeId) returns (t: Step)
    requires IsVoting(s, id) && forall i :: 0 <= i < |s.nodes| ==> HasReply(s, i, id)
    ensures t.Vote? && Enabled(s, t) && id in Apply(s, t).ops && Apply(s, t).nodes == s.nodes
    ensures Apply(s, t).ops[id].phase.Syncing? || ReturnedByVote(Apply(s, t), id)
    ensures Apply(s, t).ops[id].phase.Syncing? ==> WasRefused(Apply(s, t).ops[id])
  {
    var peers := LeaderFirst(|s.nodes|, s.leader);
    assert forall k :: 0 <= k < |peers| ==> HasReply(s, peers[k], id);
    var rs := Arrivals(s.ops[id], peers);
    assert C.DistinctPeers(rs);
    var o := VoteDecided(|s.nodes|, s.leader, rs);
    hide C.Decides, C.DistinctPeers;
    t := Vote(id, peers, o);
    VoteIsRound(s, id, peers, o);
  }

  /** A client in its fast round can always end it: it returns by vote, or was refused and goes on to its sync. */
  lemma FastRoundEnds(run: Run, id: ProposeId) returns (later: Run)
    requires IsRun(run) && IsVoting(Last(run), id)
    ensures Continues(run, later) && id in Last(later).ops && !Stranded(Last(later), id)
    ensures Last(later).ops[id].phase.Syncing? || ReturnedByVote(Last(later), id)
    ensures Last(later).ops[id].phase.Syncing? ==> WasRefused(Last(later).ops[id])
  {
    LastReady(run);
    hide IsRun, FastBeforeSlow, ContentsHold, Tracked, Gathers, HasReply, Enabled, Apply, Continues;
    var heard := RepliesArrive(run, |Last(run).nodes|, id);
    AfterGathers(run, heard, id);
    LastReady(heard);
    VotingIsNotWaited(Last(heard), id);
    var t := VoteEnabled(Last(heard), id);
    later := Take(heard, t);
    VoteStrandsNone(Last(heard), t, id);
    ContinuesTransitive(run, heard, later);
  }

  lemma VoteStrandsNone(s: Cluster, t: Step, id: ProposeId)
    requires s.leader < |s.nodes| && t.Vote? && Enabled(s, t) && !Stranded(s, id)
    ensures !Stranded(Apply(s, t), id)
  {
    hide AfterVote, Arrivals, C.Decides;
  }

  // ---------------------------------------------------------------- every operation

  /** An operation that has not failed and is not stranded can be brought to its return. */
  lemma CanReturn(run: Run, id: ProposeId) returns (later: Run)
    requires IsRun(run) && id in Last(run).ops && !Last(run).ops[id].phase.Failed? && !Stranded(Last(run), id)
    ensures Continues(run, later) && HasReturnedIn(Last(later), id)
  {
    LastReady(run);
    StayContinues(run);
    hide IsRun, FastBeforeSlow, ContentsHold, Tracked, Stranded, Continues;
    later := run;
    if Last(run).ops[id].phase.Voting? {
      later := FastRoundEnds(run, id);
      AfterContinues(run, later);
    }
    if Last(later).ops[id].phase.Syncing? {
      var done := SlowRoundReturns(later, id);
      ContinuesTransitive(run, later, done);
      AfterContinues(run, done);
      later := done;
    }
  }

  lemma {:induction false} FailedStays(run: Run, k: nat, m: nat, id: ProposeId)
    requires IsRun(run) && k <= m < |run.states|
    requires id in run.states[k].ops && run.states[k].ops[id].phase.Failed?
    ensures id in run.states[m].ops && run.states[m].ops[id].phase.Failed?
    decreases m
  {
    hide *;
    if k < m {
      FailedStays(run, k, m - 1, id);
      StepAt(run, m - 1);
      PhaseAfter(run.states[m - 1], run.steps[m - 1], id);
    }
  }

  lemma NeverReturns(run: Run, later: Run, id: ProposeId)
    requires Continues(run, later) && id in Last(run).ops
    requires Last(run).ops[id].phase.Failed? || Stranded(Last(run), id)
    ensures !HasReturnedIn(Last(later), id)
  {
    var k, m := |run.states| - 1, |later.states| - 1;
    assert later.states[k] == Last(run) && later.states[m] == Last(later);
    hide IsRun, FastBeforeSlow, Ready, Stranded;
    if Stranded(Last(run), id) {
      StrandedStays(later, k, m, id);
      StateReady(later, m);
      StrandedHasNotReturned(Last(later), id);
    } else {
      FailedStays(later, k, m, id);
    }
  }

  /**
   * From every state of every run, whatever the order of turns: an operation can still return exactly when it has not
   * timed out or met an empty leader slot, and its WaitForAsr call is not stranded.
   */
  lemma CanReturnExactly(run: Run, id: ProposeId)
    requires IsRun(run) && id in Last(run).ops
    ensures (exists later :: Continues(run, later) && HasReturnedIn(Last(later), id)) <==>
            !Last(run).ops[id].phase.Failed? && !Stranded(Last(run), id)
  {
    LastReady(run);
    hide IsRun, FastBeforeSlow, Stranded, HasReturnedIn, Ready;
    if Last(run).ops[id].phase.Failed? || Stranded(Last(run), id) {
      forall later | Continues(run, later) ensures |later.states| > 0 && !HasReturnedIn(Last(later), id) {
        AfterContinues(run, later);
        NeverReturns(run, later, id);
      }
    } else {
      var later := CanReturn(run, id);
    }
  }

  /** id has returned its command's result in the leader's order of execution. */
  ghost predicate ReturnsResult(s: Cluster, id: ProposeId) {
    && s.leader < |s.nodes| && HasReturnedIn(s, id) && id in s.issued
    && IsResult(map[], Leader(s).executed, s.issued[id], s.ops[id].phase.content)
  }

  lemma ReturnedHasResult(run: Run, id: ProposeId)
    requires IsRun(run) && FastBeforeSlow(run) && HasReturnedIn(Last(run), id)
    ensures ReturnsResult(Last(run), id)
  {
    LastHolds(run);
    hide IsRun, FastBeforeSlow, LeaderHolds, IsResult;
    ReturnedIsExecuted(Last(run), id);
  }

  /**
   * With fast turns first, an operation can still return, with its command's result in the leader's order of execution,
   * exactly when it has not timed out or met an empty leader slot.
   */
  lemma CanReturnResultExactly(run: Run, id: ProposeId)
    requires IsRun(run) && FastBeforeSlow(run) && id in Last(run).ops
    ensures (exists later :: Continues(run, later) && ReturnsResult(Last(later), id)) <==>
            !Last(run).ops[id].phase.Failed?
  {
    LastReady(run);
    hide IsRun, FastBeforeSlow, Stranded, HasReturnedIn, IsResult, Ready;
    CanReturnExactly(run, id);
    NoneStranded(run, id);
    if later :| Continues(run, later) && HasReturnedIn(Last(later), id) {
      AfterContinues(run, later);
      ReturnedHasResult(later, id);
    }
    forall later | Continues(run, later) && ReturnsResult(Last(later), id) ensures HasReturnedIn(Last(later), id) {
    }
  }
}
