/** Runs of the cluster that show the failures its conditions speak of: they do happen. */
module Reachable {
  import opened Commands
  import opened Witness
  import opened Node
  import opened Cluster
  import opened Guarantees
  import opened Progress
  import opened Completion
  import B = Board
  import C = Client

  /** One more step of a run. */
  lemma Go(run: Run, t: Step) returns (later: Run)
    requires IsRun(run) && Last(run).leader < |Last(run).nodes| && Enabled(Last(run), t)
    ensures IsRun(later) && later.steps == run.steps + [t] && later.states == run.states + [Apply(Last(run), t)]
    ensures FastBeforeSlow(run) && StepFastFirst(Last(run), t) ==> FastBeforeSlow(later)
    ensures LeaderAccepts(run) && StepAccepts(Last(run), t) ==> LeaderAccepts(later)
  {
    later := Extended(run, t);
    hide Enabled, Apply, Performs, Init, FastFirst, Accepts;
    ExtendedIsRun(run, t);
  }

  // ---------------------------------------------------------------- a proposal that arrives late

  /** Both hypotheses on runs hold. */
  ghost predicate Tame(run: Run) {
    IsRun(run) && FastBeforeSlow(run) && LeaderAccepts(run)
  }

  lemma Start0(s: Cluster) returns (run: Run)
    requires Init(s)
    ensures Tame(run) && run == Run([s], [])
  {
    run := Run([s], []);
  }

  lemma GoTame(run: Run, t: Step) returns (later: Run)
    requires Tame(run) && Last(run).leader < |Last(run).nodes| && Enabled(Last(run), t)
    requires StepFastFirst(Last(run), t) && StepAccepts(Last(run), t)
    ensures Tame(later) && later.steps == run.steps + [t] && later.states == run.states + [Apply(Last(run), t)]
    ensures Last(later) == Apply(Last(run), t)
  {
    hide Enabled, Apply, FastBeforeSlow, LeaderAccepts, StepFastFirst, StepAccepts, Init;
    later := Go(run, t);
  }

  /** c is invoked, and has reached no server. */
  ghost predicate Invoked(s: Cluster, c: Command) {
    && s.leader < |s.nodes| && s.issued == map[c.id := c] && s.proposals == multiset{} && s.log == []
    && forall j :: 0 <= j < |s.nodes| ==> s.nodes[j] == Start(j == s.leader)
  }

  lemma FirstInvoke(s: Cluster, c: Command)
    requires Init(s)
    ensures Enabled(s, Invoke(c)) && StepFastFirst(s, Invoke(c)) && StepAccepts(s, Invoke(c))
    ensures Invoked(Apply(s, Invoke(c)), c)
  {
  }

  /** Nothing but the leader has moved. */
  ghost predicate Elsewhere(s: Cluster, c: Command) {
    && s.leader < |s.nodes| && s.issued == map[c.id := c]
    && forall j :: 0 <= j < |s.nodes| && j != s.leader ==> s.nodes[j] == Start(false)
  }

  lemma LeaderEnters(s: Cluster, c: Command)
    requires Invoked(s, c)
    ensures var t := At(s.leader, Enter(c));
            && Enabled(s, t) && StepFastFirst(s, t) && StepAccepts(s, t)
            && var s' := Apply(s, t);
               && Elsewhere(s', c) && c.id in Leader(s').verdicts && c.id !in Leader(s').queued && Leader(s').r.isLeader
               && s'.proposals == multiset{} && s'.log == []
  {
  }

  lemma LeaderQueues(s: Cluster, c: Command)
    requires Elsewhere(s, c) && c.id in Leader(s).verdicts && c.id !in Leader(s).queued && Leader(s).r.isLeader
    requires s.log == []
    ensures var t := At(s.leader, Queue(c));
            && Enabled(s, t) && StepFastFirst(s, t) && StepAccepts(s, t)
            && Elsewhere(Apply(s, t), c) && c in Apply(s, t).proposals && Apply(s, t).log == []
  {
  }

  lemma RaftAppends(s: Cluster, c: Command)
    requires Elsewhere(s, c) && c in s.proposals && s.log == []
    ensures var t := Append(c);
            && Enabled(s, t) && StepFastFirst(s, t) && StepAccepts(s, t)
            && Elsewhere(Apply(s, t), c) && Apply(s, t).log == [c]
  {
  }

  /** A run with both hypotheses in which c is committed and no follower has heard of it. */
  lemma Committed(s: Cluster, c: Command) returns (run: Run)
    requires Init(s)
    ensures Tame(run) && run.states[0] == s && Elsewhere(Last(run), c) && Last(run).log == [c]
    ensures |Last(run).nodes| == |s.nodes| && Last(run).leader == s.leader
  {
    hide Enabled, StepFastFirst, StepAccepts, Tame, Invoked, Elsewhere;
    assert s.leader < |s.nodes|;
    hide Init;
    var r0 := Start0(s);
    FirstInvoke(s, c);
    var r1 := GoTame(r0, Invoke(c));
    LeaderEnters(Last(r1), c);
    var r2 := GoTame(r1, At(s.leader, Enter(c)));
    LeaderQueues(Last(r2), c);
    var r3 := GoTame(r2, At(s.leader, Queue(c)));
    RaftAppends(Last(r3), c);
    run := GoTame(r3, Append(c));
  }

  /** Server i has taken c from the log without having seen its proposal. */
  ghost predicate TookUnseen(s: Cluster, i: nat, c: Command) {
    && s.leader < |s.nodes| && i < |s.nodes| && i != s.leader && Known(s.issued, c)
    && s.nodes[i].slow == [c] && s.nodes[i].verdicts == map[] && s.nodes[i].r.records == map[]
  }

  lemma FollowerTakes(s: Cluster, i: nat, c: Command)
    requires Elsewhere(s, c) && s.log == [c] && i < |s.nodes| && i != s.leader
    ensures var t := Deliver(i);
            && Enabled(s, t) && StepFastFirst(s, t) && StepAccepts(s, t)
            && TookUnseen(Apply(s, t), i, c) && Apply(s, t).nodes[i].r.committing == Some(c)
  {
  }

  lemma FollowerRemoves(s: Cluster, i: nat, c: Command)
    requires TookUnseen(s, i, c) && s.nodes[i].r.committing == Some(c)
    ensures var t := At(i, RemoveRecord);
            && Enabled(s, t) && StepFastFirst(s, t) && StepAccepts(s, t)
            && TookUnseen(Apply(s, t), i, c) && c in Gone(Apply(s, t).nodes[i])
  {
    assert Gone(Apply(s, At(i, RemoveRecord)).nodes[i]) == [c];
  }

  lemma FollowerEntersLate(s: Cluster, i: nat, c: Command)
    requires TookUnseen(s, i, c) && c in Gone(s.nodes[i])
    ensures var t := At(i, Enter(c));
            && Enabled(s, t) && StepFastFirst(s, t) && StepAccepts(s, t)
            && !ConflictsWith(s.nodes[i].r.records, c)
  {
  }

  /** The follower takes the command from the log and forgets it, with its proposal still to come. */
  lemma Forgotten(s: Cluster, i: nat, c: Command) returns (run: Run)
    requires Init(s) && i < |s.nodes| && i != s.leader
    ensures Tame(run) && |run.states| == |run.steps| + 1 && run.states[0] == s
    ensures TookUnseen(Last(run), i, c) && c in Gone(Last(run).nodes[i])
  {
    assert s.leader < |s.nodes|;
    hide Enabled, StepFastFirst, StepAccepts, Tame, Elsewhere, Init, Apply, Gone;
    var r0 := Committed(s, c);
    TameShape(r0);
    FollowerTakes(Last(r0), i, c);
    var r1 := GoTame(r0, Deliver(i));
    FollowerRemoves(Last(r1), i, c);
    run := GoTame(r1, At(i, RemoveRecord));
    TameShape(run);
  }

  /**
   * From every start and for every follower and command, even with both hypotheses, a run in which the follower
   * accepts the command after it applied it and removed its record, so that the record stays.
   */
  lemma LateProposalHappens(s: Cluster, i: nat, c: Command) returns (run: Run)
    requires Init(s) && i < |s.nodes| && i != s.leader
    ensures Tame(run) && |run.states| == |run.steps| + 1 && |run.steps| > 0 && run.states[0] == s
    ensures var k := |run.steps| - 1;
            && run.steps[k] == At(i, Enter(c)) && i < |run.states[k].nodes|
            && c in Gone(run.states[k].nodes[i]) && !ConflictsWith(run.states[k].nodes[i].r.records, c)
            && StaleAt(Last(run), i, c)
  {
    hide Enabled, StepFastFirst, StepAccepts, Tame, Init, Apply, StaleAt, ConflictsWith, Gone;
    var before := Forgotten(s, i, c);
    FollowerEntersLate(Last(before), i, c);
    EnteredLate(Last(before), i, c);
    run := GoTame(before, At(i, Enter(c)));
    TameShape(run);
  }

  lemma TameShape(run: Run)
    requires Tame(run)
    ensures |run.states| == |run.steps| + 1
  {
  }

  // ---------------------------------------------------------------- a client that is told nothing was found

  /** The leader has done nothing yet, and nothing is on its way. */
  ghost predicate LeaderIdle(s: Cluster) {
    s.leader < |s.nodes| && Leader(s) == Start(true) && s.proposals == multiset{} && s.log == []
  }

  /** Server i has recorded d, and c was never heard of. */
  ghost predicate Recorded(s: Cluster, i: nat, c: Command, d: Command) {
    && LeaderIdle(s) && i < |s.nodes| && i != s.leader
    && c.id !in s.issued && c.id !in s.ops && c.id !in s.nodes[i].verdicts
    && d.id in s.nodes[i].r.records && s.nodes[i].r.records[d.id] == d
  }

  /** c is invoked, and server i has not seen it. */
  ghost predicate Asked(s: Cluster, i: nat, c: Command, d: Command) {
    && LeaderIdle(s) && i < |s.nodes| && i != s.leader && Known(s.issued, c)
    && c.id in s.ops && s.ops[c.id].phase.Voting? && s.ops[c.id].replies == map[]
    && c.id !in s.nodes[i].verdicts && d.id in s.nodes[i].r.records && s.nodes[i].r.records[d.id] == d
  }

  /** Server i found c in conflict. */
  ghost predicate Rejected(s: Cluster, i: nat, c: Command) {
    && LeaderIdle(s) && i < |s.nodes| && i != s.leader && Known(s.issued, c)
    && c.id in s.ops && s.ops[c.id].phase.Voting?
    && c.id in s.nodes[i].verdicts && s.nodes[i].verdicts[c.id] == Conflicted
  }

  /** c's client waits for its sync, and the leader's board is b. */
  ghost predicate Waiting(s: Cluster, c: Command, b: B.System) {
    && s.leader < |s.nodes| && Known(s.issued, c) && c.id in s.ops && s.ops[c.id].phase.Syncing?
    && Leader(s).board == b && Leader(s).slow == [] && Leader(s).r.isLeader && Leader(s).r.committing.None?
  }

  lemma InvokeFirst(s: Cluster, i: nat, c: Command, d: Command)
    requires Init(s) && i < |s.nodes| && i != s.leader && c.id != d.id
    ensures Enabled(s, Invoke(d))
    ensures var s1 := Apply(s, Invoke(d));
            && s1.leader < |s1.nodes| && i < |s1.nodes| && Enabled(s1, At(i, Enter(d)))
            && Recorded(Apply(s1, At(i, Enter(d))), i, c, d)
  {
  }

  lemma InvokeSecond(s: Cluster, i: nat, c: Command, d: Command)
    requires Recorded(s, i, c, d) && Conflict(d, c)
    ensures Enabled(s, Invoke(c)) && Asked(Apply(s, Invoke(c)), i, c, d)
  {
    hide HasReturned;
  }

  lemma FollowerRejects(s: Cluster, i: nat, c: Command, d: Command)
    requires Asked(s, i, c, d) && Conflict(d, c)
    ensures Enabled(s, At(i, Enter(c))) && Rejected(Apply(s, At(i, Enter(c))), i, c)
    ensures i !in Apply(s, At(i, Enter(c))).ops[c.id].replies
  {
    assert ConflictsWith(s.nodes[i].r.records, c);
  }

  lemma ClientRefused(s: Cluster, i: nat, c: Command)
    requires Rejected(s, i, c) && i !in s.ops[c.id].replies
    ensures Enabled(s, Answer(i, c.id))
    ensures var s1 := Apply(s, Answer(i, c.id));
            var t := Vote(c.id, [i], C.Refused(C.Reply(C.CONFLICT, "")));
            && s1.leader < |s1.nodes| && Enabled(s1, t) && Waiting(Apply(s1, t), c, B.Quiet)
            && Leader(Apply(s1, t)) == Start(true) && Apply(s1, t).log == []
  {
    var s1 := Apply(s, Answer(i, c.id));
    var rs := Arrivals(s1.ops[c.id], [i]);
    var r := C.Reply(C.CONFLICT, "");
    assert rs == [C.Arrival(i, r)] && C.RefusedAt(rs, 0, r);
  }

  lemma LeaderProposes(s: Cluster, c: Command)
    requires Waiting(s, c, B.Quiet) && Leader(s) == Start(true) && s.log == []
    ensures Enabled(s, At(s.leader, Enter(c)))
    ensures var s1 := Apply(s, At(s.leader, Enter(c)));
            && s1.leader < |s1.nodes| && Enabled(s1, At(s1.leader, Queue(c)))
            && var s2 := Apply(s1, At(s1.leader, Queue(c)));
               Waiting(s2, c, B.Quiet) && c in s2.proposals && s2.log == []
  {
  }

  lemma CallStarts(s: Cluster, c: Command)
    requires Waiting(s, c, B.Quiet) && c in s.proposals && s.log == []
    ensures var t := At(s.leader, Wait(B.EnterAsr(Call(c.id))));
            && Enabled(s, t) && Waiting(Apply(s, t), c, B.Step(B.Quiet, B.EnterAsr(Call(c.id))))
            && c in Apply(s, t).proposals && Apply(s, t).log == []
  {
  }

  lemma CommandCommits(s: Cluster, c: Command, b: B.System)
    requires Waiting(s, c, b) && c in s.proposals && s.log == []
    ensures Enabled(s, Append(c)) && Waiting(Apply(s, Append(c)), c, b) && Apply(s, Append(c)).log == [c]
  {
  }

  /** c's client waits for its sync; the leader has applied c, and its board is b. */
  ghost predicate Notified(s: Cluster, c: Command, b: B.System) {
    && s.leader < |s.nodes| && c.id in s.ops && s.ops[c.id].phase.Syncing? && Leader(s).board == b
  }

  lemma SlowTurnFirst(s: Cluster, c: Command, b: B.System)
    requires Waiting(s, c, b) && s.log == [c] && B.CanStep(b, B.NotifyAsr(c.id))
    ensures Enabled(s, Deliver(s.leader)) && Notified(Apply(s, Deliver(s.leader)), c, B.Step(b, B.NotifyAsr(c.id)))
  {
    hide B.Step;
  }

  lemma CallMoves(s: Cluster, c: Command, b: B.System, e: B.Event)
    requires Notified(s, c, b) && B.CanStep(b, e)
    requires e.ReceiveAsr? || e.FinishAsr? || (e == B.EnterAsr(Call(c.id)) && c.id !in b.waited)
    ensures Enabled(s, At(s.leader, Wait(e))) && Notified(Apply(s, At(s.leader, Wait(e))), c, B.Step(b, e))
  {
    hide B.Step, B.CanStep;
  }

  lemma ClientTold(s: Cluster, c: Command, b: B.System)
    requires Notified(s, c, b) && Call(c.id) in b.asr && b.asr[Call(c.id)] == B.AsrGot(B.NOT_FOUND_IN_BUFFER)
    ensures Enabled(s, Sync(c.id))
    ensures c.id in Apply(s, Sync(c.id)).ops
    ensures Apply(s, Sync(c.id)).ops[c.id].phase == Returned(B.NOT_FOUND_IN_BUFFER, BySync)
  {
  }

  lemma RefusedFirst(s: Cluster, i: nat, c: Command, d: Command) returns (run: Run)
    requires Init(s) && i < |s.nodes| && i != s.leader && c.id != d.id
    ensures IsRun(run) && |run.states| > 0 && run.states[0] == s && Recorded(Last(run), i, c, d)
  {
    assert s.leader < |s.nodes|;
    run := Run([s], []);
    assert IsRun(run);
    hide Enabled, Apply, Init, IsRun, FastBeforeSlow, LeaderAccepts, Recorded;
    InvokeFirst(s, i, c, d);
    run := Go(run, Invoke(d));
    run := Go(run, At(i, Enter(d)));
  }

  lemma RefusedSecond(before: Run, i: nat, c: Command, d: Command) returns (run: Run)
    requires IsRun(before) && |before.states| > 0 && Recorded(Last(before), i, c, d) && Conflict(d, c)
    ensures IsRun(run) && |run.states| > 0 && run.states[0] == before.states[0]
    ensures Rejected(Last(run), i, c) && i !in Last(run).ops[c.id].replies
  {
    hide Enabled, Apply, IsRun, FastBeforeSlow, LeaderAccepts, Conflict;
    InvokeSecond(Last(before), i, c, d);
    run := Go(before, Invoke(c));
    FollowerRejects(Last(run), i, c, d);
    run := Go(run, At(i, Enter(c)));
  }

  /** c's client is refused by a follower that has recorded d. */
  lemma RefusedVote(before: Run, i: nat, c: Command) returns (run: Run)
    requires IsRun(before) && |before.states| > 0
    requires Rejected(Last(before), i, c) && i !in Last(before).ops[c.id].replies
    ensures IsRun(run) && |run.states| > 0 && run.states[0] == before.states[0]
    ensures Waiting(Last(run), c, B.Quiet) && Leader(Last(run)) == Start(true) && Last(run).log == []
  {
    hide Enabled, Apply, IsRun, FastBeforeSlow, LeaderAccepts;
    ClientRefused(Last(before), i, c);
    run := Go(before, Answer(i, c.id));
    run := Go(run, Vote(c.id, [i], C.Refused(C.Reply(C.CONFLICT, ""))));
  }

  lemma Proposed(before: Run, c: Command) returns (run: Run)
    requires IsRun(before) && |before.states| > 0 && Waiting(Last(before), c, B.Quiet)
    requires Leader(Last(before)) == Start(true) && Last(before).log == []
    ensures IsRun(run) && |run.states| > 0 && run.states[0] == before.states[0]
    ensures Waiting(Last(run), c, B.Quiet) && c in Last(run).proposals && Last(run).log == []
  {
    hide Enabled, Apply, IsRun, FastBeforeSlow, LeaderAccepts;
    LeaderProposes(Last(before), c);
    run := Go(before, At(Last(before).leader, Enter(c)));
    run := Go(run, At(Last(run).leader, Queue(c)));
  }

  lemma Called(before: Run, c: Command) returns (run: Run)
    requires IsRun(before) && |before.states| > 0 && Waiting(Last(before), c, B.Quiet)
    requires c in Last(before).proposals && Last(before).log == []
    ensures IsRun(run) && |run.states| > 0 && run.states[0] == before.states[0]
    ensures Waiting(Last(run), c, B.Step(B.Quiet, B.EnterAsr(Call(c.id))))
    ensures c in Last(run).proposals && Last(run).log == []
  {
    hide Enabled, Apply, IsRun, FastBeforeSlow, LeaderAccepts, B.Step;
    CallStarts(Last(before), c);
    run := Go(before, At(Last(before).leader, Wait(B.EnterAsr(Call(c.id)))));
  }

  /** The command is committed, and the leader takes it from the log before its fast turn. */
  lemma SlowTurn(before: Run, c: Command, b: B.System) returns (run: Run)
    requires IsRun(before) && |before.states| > 0 && Waiting(Last(before), c, b)
    requires c in Last(before).proposals && Last(before).log == [] && B.CanStep(b, B.NotifyAsr(c.id))
    ensures IsRun(run) && |run.states| > 0 && run.states[0] == before.states[0]
    ensures Notified(Last(run), c, B.Step(b, B.NotifyAsr(c.id)))
  {
    hide Enabled, Apply, IsRun, FastBeforeSlow, LeaderAccepts, B.Step, B.CanStep;
    CommandCommits(Last(before), c, b);
    run := Go(before, Append(c));
    SlowTurnFirst(Last(run), c, b);
    run := Go(run, Deliver(Last(run).leader));
  }

  lemma CallStep(before: Run, c: Command, b: B.System, e: B.Event) returns (run: Run)
    requires IsRun(before) && |before.states| > 0 && Notified(Last(before), c, b)
    requires B.CanStep(b, e)
    requires e.ReceiveAsr? || e.FinishAsr? || (e == B.EnterAsr(Call(c.id)) && c.id !in b.waited)
    ensures IsRun(run) && |run.states| > 0 && run.states[0] == before.states[0]
    ensures Notified(Last(run), c, B.Step(b, e))
  {
    hide Enabled, Apply, IsRun, FastBeforeSlow, LeaderAccepts, B.Step, B.CanStep;
    CallMoves(Last(before), c, b, e);
    run := Go(before, At(Last(before).leader, Wait(e)));
  }

  lemma SyncStep(before: Run, c: Command, b: B.System) returns (run: Run)
    requires IsRun(before) && |before.states| > 0 && Notified(Last(before), c, b)
    requires Call(c.id) in b.asr && b.asr[Call(c.id)] == B.AsrGot(B.NOT_FOUND_IN_BUFFER)
    ensures IsRun(run) && |run.states| > 0 && run.states[0] == before.states[0] && c.id in Last(run).ops
    ensures Last(run).ops[c.id].phase == Returned(B.NOT_FOUND_IN_BUFFER, BySync)
  {
    hide Enabled, Apply, IsRun, FastBeforeSlow, LeaderAccepts;
    ClientTold(Last(before), c, b);
    run := Go(before, Sync(c.id));
  }

  /** c's client waits for its sync, and its command is queued and not committed. */
  lemma InSlowPath(s: Cluster, i: nat, c: Command, d: Command) returns (run: Run)
    requires Init(s) && i < |s.nodes| && i != s.leader && c.id != d.id && Conflict(d, c)
    ensures IsRun(run) && |run.states| > 0 && run.states[0] == s
    ensures Waiting(Last(run), c, B.Quiet) && c in Last(run).proposals && Last(run).log == []
  {
    hide *;
    run := RefusedFirst(s, i, c, d);
    run := RefusedSecond(run, i, c, d);
    run := RefusedVote(run, i, c);
    run := Proposed(run, c);
  }

  /**
   * Without fast turns first, a client can be told that nothing was found for a command it proposed: from every
   * start with a second server, for every pair of conflicting commands.
   */
  lemma NotFoundHappens(s: Cluster, i: nat, c: Command, d: Command) returns (run: Run)
    requires Init(s) && i < |s.nodes| && i != s.leader && c.id != d.id && Conflict(d, c)
    ensures IsRun(run) && |run.states| > 0 && run.states[0] == s && c.id in Last(run).ops
    ensures Last(run).ops[c.id].phase == Returned(B.NOT_FOUND_IN_BUFFER, BySync)
  {
    hide *;
    var w := B.Waiter(c.id, 0);
    var b1 := B.Step(B.Quiet, B.EnterAsr(w));
    var b2 := B.Step(b1, B.NotifyAsr(c.id));
    var b3 := B.Step(b2, B.ReceiveAsr(w));
    CallIs(c.id);
    B.WakeAndFinish(c.id, w, b2);
    run := InSlowPath(s, i, c, d);
    run := Called(run, c);
    run := SlowTurn(run, c, b1);
    run := CallStep(run, c, b2, B.ReceiveAsr(w));
    run := CallStep(run, c, b3, B.FinishAsr(w));
    run := SyncStep(run, c, B.Step(b3, B.FinishAsr(w)));
  }

  /** A call that starts with its id notified and nothing inserted. */
  lemma CallAfterNotify(id: ProposeId)
    ensures var b := B.Step(B.Quiet, B.NotifyAsr(id));
            && B.CanStep(B.Quiet, B.NotifyAsr(id)) && B.CanStep(b, B.EnterAsr(Call(id))) && id !in b.waited
            && var b' := B.Step(b, B.EnterAsr(Call(id)));
               Call(id) in b'.asr && b'.asr[Call(id)] == B.AsrBlocked(true)
  {
    assert B.Step(B.Quiet, B.NotifyAsr(id)).tables.erBuffer == map[];
  }

  lemma NotifiedIsStranded(s: Cluster, c: Command, b: B.System)
    requires Notified(s, c, b) && Call(c.id) in b.asr && b.asr[Call(c.id)] == B.AsrBlocked(true)
    ensures Stranded(s, c.id) && c.id in s.ops
  {
  }

  /**
   * Without fast turns first, a client can wait for good: from every start with a second server, for every pair of
   * conflicting commands, a run after which nothing is left to do and the client can never return.
   */
  lemma StrandedHappens(s: Cluster, i: nat, c: Command, d: Command) returns (run: Run)
    requires Init(s) && i < |s.nodes| && i != s.leader && c.id != d.id && Conflict(d, c)
    ensures IsRun(run) && |run.states| > 0 && run.states[0] == s && c.id in Last(run).ops
    ensures Drained(Last(run)) && PoolsEmpty(Last(run)) && Stranded(Last(run), c.id)
    ensures forall later :: Continues(run, later) ==> |later.states| > 0 && !HasReturnedIn(Last(later), c.id)
  {
    hide *;
    var b := B.Step(B.Quiet, B.NotifyAsr(c.id));
    CallAfterNotify(c.id);
    var waiting := InSlowPath(s, i, c, d);
    var notified := SlowTurn(waiting, c, B.Quiet);
    var stuck := CallStep(notified, c, b, B.EnterAsr(Call(c.id)));
    NotifiedIsStranded(Last(stuck), c, B.Step(b, B.EnterAsr(Call(c.id))));
    run := CanDrain(stuck);
    StrandedStillThere(stuck, run, c.id);
    NeverReturnsFrom(run, c.id);
  }

  lemma StrandedStillThere(run: Run, later: Run, id: ProposeId)
    requires |run.states| > 0 && GoesOn(run, later) && Stranded(Last(run), id) && id in Last(run).ops
    ensures IsRun(later) && |later.states| > 0 && later.states[0] == run.states[0]
    ensures Stranded(Last(later), id) && id in Last(later).ops
  {
    hide IsRun, FastBeforeSlow, LeaderAccepts, Stranded, GoesOn, Ready;
    AfterGoesOn(run, later);
    StrandedStays(later, |run.states| - 1, |later.states| - 1, id);
    StateReady(later, |later.states| - 1);
    StrandedHasOp(Last(later), id);
  }

  lemma StrandedHasOp(s: Cluster, id: ProposeId)
    requires Ready(s) && Stranded(s, id)
    ensures id in s.ops
  {
    hide Ready;
    CallIsWaited(s, id);
  }

  lemma NeverReturnsFrom(run: Run, id: ProposeId)
    requires |run.states| > 0 && id in Last(run).ops && Stranded(Last(run), id)
    ensures forall later :: Continues(run, later) ==> |later.states| > 0 && !HasReturnedIn(Last(later), id)
  {
    hide IsRun, FastBeforeSlow, Stranded, HasReturnedIn;
    forall later | Continues(run, later) ensures |later.states| > 0 && !HasReturnedIn(Last(later), id) {
      NeverReturns(run, later, id);
    }
  }

  lemma CallIs(id: ProposeId)
    ensures Call(id) == B.Waiter(id, 0)
  {
  }
}
