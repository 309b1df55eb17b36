/** Runs in which the leader's store leaves the log, or no sequential order explains what clients were told. */
module Divergence {
  import opened Commands
  import opened Traces
  import opened Witness
  import opened Replica
  import opened Node
  import opened Cluster
  import opened Guarantees
  import opened Contents
  import opened Progress
  import opened Completion
  import opened Reachable
  import B = Board
  import C = Client

  // ---------------------------------------------------------------- the leader and the log, step by step

  /** What these runs need to know of the leader, the log and the issued commands. */
  datatype Shape = Shape(
    r: Replica,
    executed: seq<Command>,
    slow: seq<Command>,
    seen: set<ProposeId>,
    queued: set<ProposeId>,
    results: map<ProposeId, set<string>>,
    waited: set<ProposeId>,
    proposals: multiset<Command>,
    log: seq<Command>,
    issued: Registry)

  const NothingYet := Shape(Fresh(true), [], [], {}, {}, map[], {}, multiset{}, [], map[])

  ghost predicate Shows(s: Cluster, v: Shape) {
    && s.leader < |s.nodes| && s.proposals == v.proposals && s.log == v.log && s.issued == v.issued
    && var n := Leader(s);
       && n.r == v.r && n.executed == v.executed && n.slow == v.slow
       && n.verdicts.Keys == v.seen && n.queued == v.queued
       && n.board.inserted == v.results && n.board.waited == v.waited
       && n.board.tables.erNotifiers == map[] && n.board.tables.asrNotifiers == map[]
  }

  /** Clients and the other servers are where they were. */
  ghost predicate OnlyLeader(s: Cluster, s': Cluster) {
    && s'.leader == s.leader && |s'.nodes| == |s.nodes| && s'.ops == s.ops
    && forall j :: 0 <= j < |s.nodes| && j != s.leader ==> s'.nodes[j] == s.nodes[j]
  }

  ghost function WithEntered(v: Shape, c: Command): Shape {
    v.(r := v.r.(records := Record(v.r.records, c)), seen := v.seen + {c.id})
  }

  function WithQueued(v: Shape, c: Command): Shape {
    v.(r := v.r.(fastPath := v.r.fastPath + multiset{c}), queued := v.queued + {c.id},
       proposals := v.proposals + multiset{c})
  }

  function WithFast(v: Shape, c: Command): Shape {
    v.(r := FastTaken(v.r, c), executed := v.executed + [c],
       results := v.results[c.id := {SyncResult(v.r.store, c)}])
  }

  function WithCommitted(v: Shape, c: Command): Shape {
    v.(proposals := v.proposals - multiset{c}, log := v.log + [c])
  }

  function WithSlow(v: Shape, c: Command): Shape {
    v.(r := RecordRemoved(SlowTaken(v.r, c), c.id), slow := v.slow + [c],
       executed := if SlowRuns(v.r, c) then v.executed + [c] else v.executed)
  }

  /** The step is possible, keeps to the hypotheses asked for, and leads to v. */
  ghost predicate Leads(s: Cluster, t: Step, v: Shape, fast: bool, accepts: bool) {
    && s.leader < |s.nodes| && Enabled(s, t) && Shows(Apply(s, t), v)
    && (fast ==> StepFastFirst(s, t)) && (accepts ==> StepAccepts(s, t))
  }

  lemma EnterLeads(s: Cluster, v: Shape, c: Command, fast: bool, accepts: bool)
    requires Shows(s, v) && Known(v.issued, c) && c.id !in v.seen
    requires accepts ==> !ConflictsWith(v.r.records, c)
    ensures var t := At(s.leader, Enter(c));
            Leads(s, t, WithEntered(v, c), fast, accepts) && OnlyLeader(s, Apply(s, t))
  {
  }

  lemma QueueLeads(s: Cluster, v: Shape, c: Command, fast: bool, accepts: bool)
    requires Shows(s, v) && Known(v.issued, c) && c.id in v.seen && c.id !in v.queued && v.r.isLeader
    ensures var t := At(s.leader, Queue(c));
            Leads(s, t, WithQueued(v, c), fast, accepts) && OnlyLeader(s, Apply(s, t))
  {
  }

  lemma FastLeads(s: Cluster, v: Shape, c: Command, fast: bool, accepts: bool)
    requires Shows(s, v) && v.r.committing.None? && c in v.r.fastPath && FastRuns(v.r, c) && c.id !in v.results
    ensures var t := At(s.leader, TakeFast(c));
            Leads(s, t, WithFast(v, c), fast, accepts) && OnlyLeader(s, Apply(s, t))
  {
    assert {} + {SyncResult(v.r.store, c)} == {SyncResult(v.r.store, c)};
  }

  lemma AppendLeads(s: Cluster, v: Shape, c: Command, fast: bool, accepts: bool)
    requires Shows(s, v) && c in v.proposals
    ensures Leads(s, Append(c), WithCommitted(v, c), fast, accepts) && OnlyLeader(s, Apply(s, Append(c)))
  {
  }

  lemma DeliverLeads(s: Cluster, v: Shape, c: Command, fast: bool, accepts: bool)
    requires Shows(s, v) && v.r.committing.None? && v.log == v.slow + [c] && (fast ==> c in v.executed)
    ensures var t := Deliver(s.leader);
            && Leads(s, t, WithSlow(v, c).(r := SlowTaken(v.r, c)), fast, accepts) && OnlyLeader(s, Apply(s, t))
  {
    assert v.log[|v.slow|] == c;
  }

  lemma RemoveLeads(s: Cluster, v: Shape, c: Command, fast: bool, accepts: bool)
    requires Shows(s, v) && v.r.committing == Some(c)
    ensures var t := At(s.leader, RemoveRecord);
            && Leads(s, t, v.(r := RecordRemoved(v.r, c.id)), fast, accepts) && OnlyLeader(s, Apply(s, t))
  {
  }

  // ---------------------------------------------------------------- runs of such steps

  /** A run from s0 that keeps to the hypotheses asked for and ends in a state that shows v. */
  ghost predicate Reaches(run: Run, s0: Cluster, v: Shape, fast: bool, accepts: bool) {
    && IsRun(run) && |run.states| > 0 && run.states[0] == s0 && Shows(Last(run), v)
    && (fast ==> FastBeforeSlow(run)) && (accepts ==> LeaderAccepts(run))
  }

  lemma Next(run: Run, s0: Cluster, v: Shape, t: Step, v': Shape, fast: bool, accepts: bool) returns (later: Run)
    requires Reaches(run, s0, v, fast, accepts) && Leads(Last(run), t, v', fast, accepts)
    ensures Reaches(later, s0, v', fast, accepts) && Last(later) == Apply(Last(run), t)
  {
    hide Enabled, Apply, IsRun, FastBeforeSlow, LeaderAccepts, StepFastFirst, StepAccepts, Shows;
    later := Go(run, t);
  }

  function WithIssued(v: Shape, c: Command): Shape {
    v.(issued := v.issued[c.id := c])
  }

  ghost predicate JustInvoked(s: Cluster, s': Cluster, id: ProposeId) {
    && s'.leader == s.leader && s'.nodes == s.nodes && id !in s.ops
    && s'.ops == s.ops[id := Op(HasReturned(s), map[], Voting)]
  }

  lemma InvokeLeads(s: Cluster, v: Shape, c: Command, fast: bool, accepts: bool)
    requires Shows(s, v) && c.id !in v.issued && c.id !in s.ops
    ensures Leads(s, Invoke(c), WithIssued(v, c), fast, accepts) && JustInvoked(s, Apply(s, Invoke(c)), c.id)
  {
    hide HasReturned;
  }

  lemma NoOpYet(run: Run, id: ProposeId)
    requires IsRun(run) && |run.states| > 0 && id !in Last(run).issued
    ensures id !in Last(run).ops
  {
    hide IsRun, NodesInv, LogInv, ReplySound, ReturnSound;
    AlwaysInv(run, |run.states| - 1);
  }

  lemma Invokes(run: Run, s0: Cluster, v: Shape, c: Command, fast: bool, accepts: bool) returns (later: Run)
    requires Reaches(run, s0, v, fast, accepts) && c.id !in v.issued
    ensures Reaches(later, s0, WithIssued(v, c), fast, accepts) && JustInvoked(Last(run), Last(later), c.id)
  {
    NoOpYet(run, c.id);
    hide Leads, IsRun, FastBeforeSlow, LeaderAccepts, Apply, Shows, JustInvoked;
    InvokeLeads(Last(run), v, c, fast, accepts);
    later := Next(run, s0, v, Invoke(c), WithIssued(v, c), fast, accepts);
  }

  lemma OnlyLeaderTransitive(a: Cluster, b: Cluster, c: Cluster)
    requires OnlyLeader(a, b) && OnlyLeader(b, c)
    ensures OnlyLeader(a, c)
  {
  }

  ghost function WithProposed(v: Shape, c: Command): Shape {
    WithQueued(WithEntered(v, c), c)
  }

  /** The leader takes a proposal. */
  lemma Proposes(run: Run, s0: Cluster, v: Shape, c: Command, fast: bool, accepts: bool) returns (later: Run)
    requires Reaches(run, s0, v, fast, accepts) && Known(v.issued, c) && c.id !in v.seen && c.id !in v.queued
    requires v.r.isLeader && (accepts ==> !ConflictsWith(v.r.records, c))
    ensures Reaches(later, s0, WithProposed(v, c), fast, accepts) && OnlyLeader(Last(run), Last(later))
  {
    var l, v1 := Last(run).leader, WithEntered(v, c);
    hide Leads, IsRun, FastBeforeSlow, LeaderAccepts, Apply, Shows, OnlyLeader, ConflictsWith, Record;
    EnterLeads(Last(run), v, c, fast, accepts);
    var entered := Next(run, s0, v, At(l, Enter(c)), v1, fast, accepts);
    LeaderStays(Last(run), Last(entered));
    QueueLeads(Last(entered), v1, c, fast, accepts);
    later := Next(entered, s0, v1, At(l, Queue(c)), WithQueued(v1, c), fast, accepts);
    OnlyLeaderTransitive(Last(run), Last(entered), Last(later));
  }

  lemma LeaderStays(s: Cluster, s': Cluster)
    requires OnlyLeader(s, s')
    ensures s'.leader == s.leader
  {
  }

  lemma FastTurn(run: Run, s0: Cluster, v: Shape, c: Command, fast: bool, accepts: bool) returns (later: Run)
    requires Reaches(run, s0, v, fast, accepts) && v.r.committing.None? && c in v.r.fastPath
    requires FastRuns(v.r, c) && c.id !in v.results
    ensures Reaches(later, s0, WithFast(v, c), fast, accepts) && OnlyLeader(Last(run), Last(later))
  {
    hide Leads, IsRun, FastBeforeSlow, LeaderAccepts, Apply, Shows, OnlyLeader, WithFast;
    FastLeads(Last(run), v, c, fast, accepts);
    later := Next(run, s0, v, At(Last(run).leader, TakeFast(c)), WithFast(v, c), fast, accepts);
  }

  function WithSynced(v: Shape, c: Command): Shape {
    WithSlow(WithCommitted(v, c), c)
  }

  /** The command is committed, and the leader has its slow turn. */
  lemma Syncs(run: Run, s0: Cluster, v: Shape, c: Command, fast: bool, accepts: bool) returns (later: Run)
    requires Reaches(run, s0, v, fast, accepts) && v.r.committing.None? && v.log == v.slow && c in v.proposals
    requires fast ==> c in v.executed
    ensures Reaches(later, s0, WithSynced(v, c), fast, accepts) && OnlyLeader(Last(run), Last(later))
  {
    var l, v1 := Last(run).leader, WithCommitted(v, c);
    var v2 := WithSlow(v1, c).(r := SlowTaken(v1.r, c));
    assert v2.(r := RecordRemoved(v2.r, c.id)) == WithSynced(v, c);
    hide Leads, IsRun, FastBeforeSlow, LeaderAccepts, Apply, Shows, OnlyLeader, WithSynced, WithSlow, Execute;
    AppendLeads(Last(run), v, c, fast, accepts);
    var committed := Next(run, s0, v, Append(c), v1, fast, accepts);
    LeaderStays(Last(run), Last(committed));
    DeliverLeads(Last(committed), v1, c, fast, accepts);
    var applied := Next(committed, s0, v1, Deliver(l), v2, fast, accepts);
    LeaderStays(Last(committed), Last(applied));
    RemoveLeads(Last(applied), v2, c, fast, accepts);
    later := Next(applied, s0, v2, At(l, RemoveRecord), WithSynced(v, c), fast, accepts);
    OnlyLeaderTransitive(Last(run), Last(committed), Last(applied));
    OnlyLeaderTransitive(Last(run), Last(applied), Last(later));
  }

  lemma StartsSo(s: Cluster) returns (run: Run)
    requires Init(s)
    ensures Reaches(run, s, NothingYet, true, true) && Last(run) == s
  {
    run := Start0(s);
  }

  /** Writes that leave different things at the same key. */
  predicate Overwrites(a: Command, b: Command) {
    IsWrite(a) && IsWrite(b) && a.key == b.key && a.id != b.id && Effect(a) != Effect(b)
  }

  // ---------------------------------------------------------------- stores that stay different

  /** Nothing is left to do, and the leader's store is not the one of the log, which every other server has. */
  ghost predicate Diverged(s: Cluster) {
    && s.leader < |s.nodes| && Drained(s) && PoolsEmpty(s) && Leader(s).r.store != Replay(map[], s.log)
    && forall j :: 0 <= j < |s.nodes| && j != s.leader ==> s.nodes[j].r.store == Replay(map[], s.log)
  }

  /** The leader is done with the log, and its last write to a key is not the log's. */
  ghost predicate Apart(v: Shape, key: string) {
    && v.r.committing.None? && v.r.fastPath == multiset{} && v.proposals == multiset{} && v.slow == v.log
    && LeftAt(map[], v.executed, key) != LeftAt(map[], v.log, key)
  }

  lemma LastInv(run: Run)
    requires IsRun(run)
    ensures |run.states| > 0 && ClusterInv(Last(run))
  {
    hide IsRun, ClusterInv;
    RunStarts(run);
    AlwaysInv(run, |run.states| - 1);
  }

  lemma ApartIsUpToDate(s: Cluster, v: Shape, key: string)
    requires Shows(s, v) && Apart(v, key)
    ensures PoolsEmpty(s) && UpToDate(s, s.leader)
    ensures LeftAt(map[], Leader(s).executed, key) != LeftAt(map[], s.log, key)
  {
  }

  lemma ApartDiverges(run: Run, s0: Cluster, v: Shape, key: string, fast: bool, accepts: bool) returns (later: Run)
    requires Reaches(run, s0, v, fast, accepts) && Apart(v, key)
    ensures IsRun(later) && |later.states| > 0 && later.states[0] == s0 && Diverged(Last(later))
    ensures (fast ==> FastBeforeSlow(later)) && (accepts ==> LeaderAccepts(later))
  {
    hide IsRun, FastBeforeSlow, LeaderAccepts, LeftAt, UpToDate, GoesOn, PoolsEmpty, Diverged, ClusterInv, Shows;
    ApartIsUpToDate(Last(run), v, key);
    later := AllCatchUp(run, |Last(run).nodes|);
    AfterGoesOn(run, later);
    LastInv(later);
    CaughtUpDiverges(Last(later), key);
  }

  lemma CaughtUpDiverges(s: Cluster, key: string)
    requires ClusterInv(s) && PoolsEmpty(s) && forall i :: 0 <= i < |s.nodes| ==> s.nodes[i].slow == s.log
    requires LeftAt(map[], Leader(s).executed, key) != LeftAt(map[], s.log, key)
    ensures Diverged(s)
  {
    LeaderLocal(s);
    assert StoreInv(Leader(s));
    hide ClusterInv, LocalInv, WitnessInv, LeftAt, Replay;
    SameStoreExactly(map[], Leader(s).executed, s.log);
    forall j | 0 <= j < |s.nodes| && j != s.leader ensures s.nodes[j].r.store == Replay(map[], s.log) {
      FollowerIsLog(s, j);
    }
  }

  lemma FollowerIsLog(s: Cluster, j: nat)
    requires ClusterInv(s) && s.leader < |s.nodes| && j < |s.nodes| && j != s.leader
    ensures s.nodes[j].r.store == Replay(map[], s.nodes[j].slow)
  {
    hide LogInv, ClientsInv;
    FollowerStore(s, j);
  }

  /** Which of two writes is last. */
  lemma LastOfThree(a: Command, b: Command)
    requires Overwrites(a, b)
    ensures LeftAt(map[], [a, b], a.key) == Effect(b)
    ensures LeftAt(map[], [b, a], a.key) == Effect(a) && LeftAt(map[], [a, b, a], a.key) == Effect(a)
  {
    assert LastWrite([a, b], a.key) == Some(b);
    assert LastWrite([b, a], a.key) == Some(a) && LastWrite([a, b, a], a.key) == Some(a);
  }

  /** Nothing is asked for that the run does not keep to. */
  lemma AsksLess(run: Run, s0: Cluster, v: Shape)
    requires Reaches(run, s0, v, true, true)
    ensures Reaches(run, s0, v, true, false) && Reaches(run, s0, v, false, true)
  {
    hide IsRun, FastBeforeSlow, LeaderAccepts, Shows;
  }

  /** The leader has two proposals queued and has executed neither. */
  lemma BothQueued(s: Cluster, a: Command, b: Command) returns (run: Run, v: Shape)
    requires Init(s) && a.id != b.id
    ensures Reaches(run, s, v, true, false) && v.r.committing.None? && v.executed == v.slow == v.log == []
    ensures v.r.fastPath == v.proposals == multiset{a, b} && v.r.commandSet == {} && v.results == map[] && v.r.isLeader
  {
    hide Init, Reaches, OnlyLeader, Record, ConflictsWith;
    run := StartsSo(s);
    AsksLess(run, s, NothingYet);
    v := NothingYet;
    run := Invokes(run, s, v, a, true, false);
    v := WithIssued(v, a);
    run := Invokes(run, s, v, b, true, false);
    v := WithIssued(v, b);
    run := Proposes(run, s, v, a, true, false);
    v := WithProposed(v, a);
    run := Proposes(run, s, v, b, true, false);
    v := WithProposed(v, b);
  }

  /** Both commands are executed, b first. */
  lemma BothExecuted(s: Cluster, a: Command, b: Command) returns (run: Run, v: Shape)
    requires Init(s) && a.id != b.id
    ensures Reaches(run, s, v, true, false) && v.r.committing.None? && v.executed == [b, a] && v.slow == v.log == []
    ensures v.r.fastPath == multiset{} && v.proposals == multiset{a, b} && v.r.commandSet == {a.id, b.id}
    ensures v.r.isLeader
  {
    hide Init, Reaches, OnlyLeader, Execute, SyncResult;
    run, v := BothQueued(s, a, b);
    run := FastTurn(run, s, v, b, true, false);
    v := WithFast(v, b);
    run := FastTurn(run, s, v, a, true, false);
    v := WithFast(v, a);
  }

  /** Both commands are then committed, a first. */
  lemma OppositeOrders(s: Cluster, a: Command, b: Command) returns (run: Run, v: Shape)
    requires Init(s) && a.id != b.id
    ensures Reaches(run, s, v, true, false) && v.executed == [b, a] && v.log == v.slow == [a, b]
    ensures v.r.committing.None? && v.r.fastPath == multiset{} && v.proposals == multiset{}
  {
    hide Init, Reaches, OnlyLeader, Execute, SyncResult;
    run, v := BothExecuted(s, a, b);
    run := Syncs(run, s, v, a, true, false);
    v := WithSynced(v, a);
    run := Syncs(run, s, v, b, true, false);
    v := WithSynced(v, b);
  }

  /**
   * With fast turns first but conflicts at the leader, its store can differ from the log's with nothing left to do:
   * from every start, for every two writes that leave different things at a key.
   */
  lemma ConflictDivergenceHappens(s: Cluster, a: Command, b: Command) returns (run: Run)
    requires Init(s) && Overwrites(a, b)
    ensures IsRun(run) && FastBeforeSlow(run) && |run.states| > 0 && run.states[0] == s && Diverged(Last(run))
  {
    var v: Shape;
    hide Init, Reaches, IsRun, FastBeforeSlow, LeftAt, Diverged;
    run, v := OppositeOrders(s, a, b);
    LastOfThree(a, b);
    run := ApartDiverges(run, s, v, a.key, true, false);
  }

  // ---------------------------------------------------------------- slow turns first

  /** The leader is at rest, and has had no turn of id. */
  ghost predicate AtRest(v: Shape, id: ProposeId) {
    && v.r.isLeader && v.r.records == map[] && v.r.committing.None? && v.proposals == multiset{} && v.slow == v.log
    && id !in v.seen && id !in v.queued && id !in v.results && id !in v.waited && id !in v.r.commandSet
  }

  /** The leader has had both turns of c, the fast turn first. */
  function WithBoth(v: Shape, c: Command): Shape {
    v.(r := v.r.(store := Execute(v.r.store, c)),
       executed := v.executed + [c], slow := v.slow + [c], log := v.log + [c],
       seen := v.seen + {c.id}, queued := v.queued + {c.id},
       results := v.results[c.id := {SyncResult(v.r.store, c)}])
  }

  /** The leader has had the fast turn of c, and c is on its way to raft. */
  function WithFirst(v: Shape, c: Command): Shape {
    v.(r := v.r.(store := Execute(v.r.store, c), records := map[c.id := c], commandSet := v.r.commandSet + {c.id}),
       executed := v.executed + [c], seen := v.seen + {c.id}, queued := v.queued + {c.id},
       results := v.results[c.id := {SyncResult(v.r.store, c)}], proposals := multiset{c})
  }

  lemma FirstTurn(v: Shape, c: Command)
    requires AtRest(v, c.id)
    ensures !ConflictsWith(v.r.records, c) && WithFast(WithProposed(v, c), c) == WithFirst(v, c)
  {
    hide Execute, SyncResult;
    var v1 := WithProposed(v, c);
    assert v1.r.records == map[c.id := c] && v1.r.fastPath - multiset{c} == v.r.fastPath;
  }

  lemma TurnsCancel(v: Shape, c: Command)
    requires AtRest(v, c.id)
    ensures WithSynced(WithFirst(v, c), c) == WithBoth(v, c)
  {
    hide Execute, SyncResult;
    var v1 := WithFirst(v, c);
    assert v1.r.commandSet - {c.id} == v.r.commandSet && v1.r.records - {c.id} == map[];
    assert v1.proposals - multiset{c} == multiset{};
  }

  /** The leader takes a proposal, executes it, and then takes it from the log. */
  lemma HasBothTurns(run: Run, s0: Cluster, v: Shape, c: Command) returns (later: Run)
    requires Reaches(run, s0, v, false, true) && Known(v.issued, c) && AtRest(v, c.id)
    ensures Reaches(later, s0, WithBoth(v, c), false, true) && OnlyLeader(Last(run), Last(later))
  {
    hide Reaches, OnlyLeader, Execute, SyncResult, ConflictsWith, Record;
    FirstTurn(v, c);
    TurnsCancel(v, c);
    var proposed := Proposes(run, s0, v, c, false, true);
    var fast := FastTurn(proposed, s0, WithProposed(v, c), c, false, true);
    later := Syncs(fast, s0, WithFirst(v, c), c, false, true);
    ReachedStates(run, s0, v);
    ReachedStates(proposed, s0, WithProposed(v, c));
    ReachedStates(fast, s0, WithFirst(v, c));
    ReachedStates(later, s0, WithBoth(v, c));
    OnlyLeaderTransitive(Last(run), Last(proposed), Last(fast));
    OnlyLeaderTransitive(Last(run), Last(fast), Last(later));
  }

  lemma ReachedStates(run: Run, s0: Cluster, v: Shape)
    requires Reaches(run, s0, v, false, true)
    ensures |run.states| > 0
  {
  }

  /** The leader has had the slow turn of c alone. */
  function WithLone(v: Shape, c: Command): Shape {
    v.(r := v.r.(store := Execute(v.r.store, c), fastPath := v.r.fastPath + multiset{c}),
       executed := v.executed + [c], slow := v.slow + [c], log := v.log + [c],
       seen := v.seen + {c.id}, queued := v.queued + {c.id})
  }

  lemma LoneTurn(v: Shape, c: Command)
    requires AtRest(v, c.id)
    ensures !ConflictsWith(v.r.records, c) && WithSynced(WithProposed(v, c), c) == WithLone(v, c)
  {
    hide Execute, SyncResult;
    var v1 := WithProposed(v, c);
    assert v1.r.records == map[c.id := c] && v1.proposals == multiset{c};
    assert map[c.id := c] - {c.id} == map[] && v.r.commandSet + {c.id} - {c.id} == v.r.commandSet;
    assert multiset{c} - multiset{c} == multiset{};
  }

  /** The leader takes a proposal, and takes it from the log before it executes it. */
  lemma HasSlowTurn(run: Run, s0: Cluster, v: Shape, c: Command) returns (later: Run)
    requires Reaches(run, s0, v, false, true) && Known(v.issued, c) && AtRest(v, c.id)
    ensures Reaches(later, s0, WithLone(v, c), false, true) && OnlyLeader(Last(run), Last(later))
  {
    hide Reaches, OnlyLeader, Execute, SyncResult, ConflictsWith, Record;
    LoneTurn(v, c);
    var proposed := Proposes(run, s0, v, c, false, true);
    later := Syncs(proposed, s0, WithProposed(v, c), c, false, true);
    ReachedStates(run, s0, v);
    ReachedStates(proposed, s0, WithProposed(v, c));
    ReachedStates(later, s0, WithLone(v, c));
    OnlyLeaderTransitive(Last(run), Last(proposed), Last(later));
  }

  lemma SecondExecution(s: Cluster, a: Command, b: Command) returns (run: Run, v: Shape)
    requires Init(s) && a.id != b.id
    ensures Reaches(run, s, v, false, true) && v.executed == [a, b, a] && v.log == v.slow == [a, b]
    ensures v.r.committing.None? && v.r.fastPath == multiset{} && v.proposals == multiset{}
  {
    hide Init, Reaches, OnlyLeader, Execute, SyncResult, JustInvoked;
    run := StartsSo(s);
    AsksLess(run, s, NothingYet);
    v := NothingYet;
    run := Invokes(run, s, v, a, false, true);
    v := WithIssued(v, a);
    run := HasSlowTurn(run, s, v, a);
    v := WithLone(v, a);
    run := Invokes(run, s, v, b, false, true);
    v := WithIssued(v, b);
    run := HasBothTurns(run, s, v, b);
    v := WithBoth(v, b);
    run := FastTurn(run, s, v, a, false, true);
    v := WithFast(v, a);
  }

  /**
   * With no conflict at the leader but a slow turn first, its store can differ from the log's with nothing left to do:
   * from every start, for every two writes that leave different things at a key.
   */
  lemma SlowFirstDivergenceHappens(s: Cluster, a: Command, b: Command) returns (run: Run)
    requires Init(s) && Overwrites(a, b)
    ensures IsRun(run) && LeaderAccepts(run) && |run.states| > 0 && run.states[0] == s && Diverged(Last(run))
  {
    var v: Shape;
    hide Init, Reaches, IsRun, LeaderAccepts, LeftAt, Diverged;
    run, v := SecondExecution(s, a, b);
    LastOfThree(a, b);
    run := ApartDiverges(run, s, v, a.key, false, true);
  }

  // ---------------------------------------------------------------- what clients are told

  /** What an operation was told. */
  datatype Told = Told(id: ProposeId, content: string)

  /** These operations returned by sync, with these contents, each before the next was invoked. */
  ghost predicate ToldInTurn(s: Cluster, told: seq<Told>) {
    forall j :: 0 <= j < |told| ==>
      && told[j].id in s.ops && s.ops[told[j].id].phase == Returned(told[j].content, BySync)
      && forall k :: 0 <= k < j ==> told[k].id in s.ops[told[j].id].before
  }

  /** Server i, not the leader, has recorded d. */
  ghost predicate HasRecorded(s: Cluster, i: nat, d: Command) {
    && s.leader < |s.nodes| && i < |s.nodes| && i != s.leader
    && d.id in s.nodes[i].r.records && s.nodes[i].r.records[d.id] == d
  }

  /** Server i has recorded d, told is what operations were told, and all of them were before id was invoked. */
  ghost predicate Turn(s: Cluster, i: nat, d: Command, told: seq<Told>, id: ProposeId, p: Phase) {
    && HasRecorded(s, i, d) && ToldInTurn(s, told)
    && id in s.ops && s.ops[id].phase == p && forall k :: 0 <= k < |told| ==> told[k].id in s.ops[id].before
  }

  lemma TurnStays(s: Cluster, s': Cluster, i: nat, d: Command, told: seq<Told>, id: ProposeId, p: Phase)
    requires Turn(s, i, d, told, id, p) && OnlyLeader(s, s')
    ensures Turn(s', i, d, told, id, p)
  {
  }

  lemma TurnBegins(s: Cluster, s': Cluster, i: nat, d: Command, told: seq<Told>, id: ProposeId)
    requires HasRecorded(s, i, d) && ToldInTurn(s, told) && JustInvoked(s, s', id)
    ensures Turn(s', i, d, told, id, Voting) && s'.ops[id].replies == map[]
  {
  }

  lemma NoVerdictYet(run: Run, i: nat, id: ProposeId)
    requires IsRun(run) && |run.states| > 0 && i < |Last(run).nodes| && id !in Last(run).issued
    ensures id !in Last(run).nodes[i].verdicts
  {
    hide IsRun, LogInv, ClientsInv, LocalInv, CleanInv, SlowKnown, RecordsAccepted, Exclusion, Held;
    AlwaysInv(run, |run.states| - 1);
    assert WitnessInv(Last(run).nodes[i], Last(run).issued);
  }

  lemma RejectLeads(s: Cluster, v: Shape, i: nat, d: Command, told: seq<Told>, c: Command)
    requires Shows(s, v) && Turn(s, i, d, told, c.id, Voting) && Known(v.issued, c) && Conflict(d, c)
    requires c.id !in s.nodes[i].verdicts
    ensures var t := At(i, Enter(c));
            && Leads(s, t, v, false, true) && Turn(Apply(s, t), i, d, told, c.id, Voting)
            && Apply(s, t).ops == s.ops && c.id in Apply(s, t).nodes[i].verdicts
            && Apply(s, t).nodes[i].verdicts[c.id] == Conflicted
  {
    assert ConflictsWith(s.nodes[i].r.records, c);
  }

  lemma AnswerLeads(s: Cluster, v: Shape, i: nat, d: Command, told: seq<Told>, id: ProposeId)
    requires Shows(s, v) && Turn(s, i, d, told, id, Voting) && s.ops[id].replies == map[]
    requires id in s.nodes[i].verdicts && s.nodes[i].verdicts[id] == Conflicted
    ensures var t := Answer(i, id);
            && Leads(s, t, v, false, true) && Turn(Apply(s, t), i, d, told, id, Voting)
            && Apply(s, t).ops[id].replies == map[i := C.Reply(C.CONFLICT, "")]
  {
  }

  lemma VoteLeads(s: Cluster, v: Shape, i: nat, d: Command, told: seq<Told>, id: ProposeId)
    requires Shows(s, v) && Turn(s, i, d, told, id, Voting)
    requires s.ops[id].replies == map[i := C.Reply(C.CONFLICT, "")]
    ensures var t := Vote(id, [i], C.Refused(C.Reply(C.CONFLICT, "")));
            Leads(s, t, v, false, true) && Turn(Apply(s, t), i, d, told, id, Syncing)
  {
    var rs, r := Arrivals(s.ops[id], [i]), C.Reply(C.CONFLICT, "");
    assert rs == [C.Arrival(i, r)] && C.RefusedAt(rs, 0, r);
  }

  /** c is invoked, and refused by server i. */
  lemma Refused(run: Run, s0: Cluster, v: Shape, i: nat, d: Command, told: seq<Told>, c: Command)
    returns (later: Run)
    requires Reaches(run, s0, v, false, true) && HasRecorded(Last(run), i, d) && ToldInTurn(Last(run), told)
    requires c.id !in v.issued && Conflict(d, c)
    ensures Reaches(later, s0, WithIssued(v, c), false, true) && Turn(Last(later), i, d, told, c.id, Syncing)
  {
    hide IsRun, FastBeforeSlow, LeaderAccepts, Leads, Turn, ToldInTurn, Apply, Conflict, JustInvoked;
    NoVerdictYet(run, i, c.id);
    var v' := WithIssued(v, c);
    var r1 := Invokes(run, s0, v, c, false, true);
    TurnBegins(Last(run), Last(r1), i, d, told, c.id);
    InvokedNodes(Last(run), Last(r1), c.id);
    hide Shows, Reaches, HasRecorded;
    later := RefusedBy(r1, s0, v', i, d, told, c);
  }

  lemma InvokedNodes(s: Cluster, s': Cluster, id: ProposeId)
    requires JustInvoked(s, s', id)
    ensures s'.nodes == s.nodes && s'.leader == s.leader
  {
  }

  lemma RefusedBy(run: Run, s0: Cluster, v: Shape, i: nat, d: Command, told: seq<Told>, c: Command)
    returns (later: Run)
    requires Reaches(run, s0, v, false, true) && Known(v.issued, c) && Conflict(d, c)
    requires Turn(Last(run), i, d, told, c.id, Voting) && Last(run).ops[c.id].replies == map[]
    requires i < |Last(run).nodes| && c.id !in Last(run).nodes[i].verdicts
    ensures Reaches(later, s0, v, false, true) && Turn(Last(later), i, d, told, c.id, Syncing)
  {
    hide IsRun, FastBeforeSlow, LeaderAccepts, Leads, ToldInTurn, Apply, Conflict, Shows, HasRecorded;
    RejectLeads(Last(run), v, i, d, told, c);
    var r1 := Next(run, s0, v, At(i, Enter(c)), v, false, true);
    AnswerLeads(Last(r1), v, i, d, told, c.id);
    var r2 := Next(r1, s0, v, Answer(i, c.id), v, false, true);
    VoteLeads(Last(r2), v, i, d, told, c.id);
    later := Next(r2, s0, v, Vote(c.id, [i], C.Refused(C.Reply(C.CONFLICT, ""))), v, false, true);
  }

  /** A WaitForAsr call that starts at b returns this content at once. */
  ghost predicate TellsAtOnce(b: B.System, w: B.Waiter, content: string) {
    && B.CanStep(b, B.EnterAsr(w))
    && var b' := B.Step(b, B.EnterAsr(w));
       && w in b'.asr && b'.asr[w] == B.AsrGot(content)
       && b'.inserted == b.inserted && b'.waited == b.waited + {w.id}
       && b'.tables.erNotifiers == b.tables.erNotifiers && b'.tables.asrNotifiers == b.tables.asrNotifiers
  }

  lemma BothTurnsTell(b: B.System, w: B.Waiter, content: string)
    requires B.Sound(b) && B.SyncCalls(b) && w.id !in b.waited && w.id in b.notified
    requires w.id in b.inserted && b.inserted[w.id] == {content}
    ensures TellsAtOnce(b, w, content)
  {
    assert B.Settled(b.tables, w.id) && B.WasInserted(b, w.id, b.tables.erBuffer[w.id]);
  }

  lemma CallTells(s: Cluster, v: Shape, c: Command, content: string)
    requires Ready(s) && Shows(s, v) && Known(v.issued, c) && c in v.slow && c.id !in v.waited
    requires c.id in v.results && v.results[c.id] == {content}
    ensures s.leader < |s.nodes| && TellsAtOnce(Leader(s).board, Call(c.id), content)
  {
    SoundBoard(s);
    hide ContentsHold, Tracked, B.Sound, B.SyncCalls, TellsAtOnce;
    BothTurnsTell(Leader(s).board, Call(c.id), content);
  }

  lemma CallLeads(s: Cluster, v: Shape, id: ProposeId, content: string)
    requires Shows(s, v) && id !in v.waited && TellsAtOnce(Leader(s).board, Call(id), content)
    requires id in s.ops && s.ops[id].phase.Syncing?
    ensures var t := At(s.leader, Wait(B.EnterAsr(Call(id))));
            && Leads(s, t, v.(waited := v.waited + {id}), false, true) && OnlyLeader(s, Apply(s, t))
            && CallDone(Apply(s, t), id, content)
  {
    hide B.Step, B.CanStep;
  }

  lemma SyncLeads(s: Cluster, v: Shape, i: nat, d: Command, told: seq<Told>, id: ProposeId, content: string)
    requires Shows(s, v) && Turn(s, i, d, told, id, Syncing) && CallDone(s, id, content)
    ensures Leads(s, Sync(id), v, false, true)
    ensures HasRecorded(Apply(s, Sync(id)), i, d) && ToldInTurn(Apply(s, Sync(id)), told + [Told(id, content)])
  {
  }

  /** One operation on the slow path, from its invocation to its return. */
  function WithOperation(v: Shape, c: Command): Shape {
    WithBoth(WithIssued(v, c), c).(waited := v.waited + {c.id})
  }

  lemma Returns(run: Run, s0: Cluster, v: Shape, i: nat, d: Command, told: seq<Told>, c: Command, content: string)
    returns (later: Run)
    requires Reaches(run, s0, v, false, true) && Turn(Last(run), i, d, told, c.id, Syncing)
    requires Known(v.issued, c) && c in v.slow && c.id !in v.waited && c.id in v.results && v.results[c.id] == {content}
    ensures Reaches(later, s0, v.(waited := v.waited + {c.id}), false, true)
    ensures HasRecorded(Last(later), i, d) && ToldInTurn(Last(later), told + [Told(c.id, content)])
  {
    LastReady(run);
    hide IsRun, FastBeforeSlow, LeaderAccepts, Leads, ToldInTurn, Apply, Shows, HasRecorded, Ready, CallDone;
    hide OnlyLeader, TellsAtOnce;
    var s, v' := Last(run), v.(waited := v.waited + {c.id});
    CallTells(s, v, c, content);
    CallLeads(s, v, c.id, content);
    var called := Next(run, s0, v, At(s.leader, Wait(B.EnterAsr(Call(c.id)))), v', false, true);
    TurnStays(s, Last(called), i, d, told, c.id, Syncing);
    SyncLeads(Last(called), v', i, d, told, c.id, content);
    later := Next(called, s0, v', Sync(c.id), v', false, true);
  }

  /** The run shows v, server i has recorded d, and told is what operations were told. */
  ghost predicate Stage(run: Run, s0: Cluster, v: Shape, i: nat, d: Command, told: seq<Told>) {
    Reaches(run, s0, v, false, true) && HasRecorded(Last(run), i, d) && ToldInTurn(Last(run), told)
  }

  /** An operation that the follower refuses, with no other under way: it returns the result of its fast turn. */
  lemma Operation(run: Run, s0: Cluster, v: Shape, i: nat, d: Command, told: seq<Told>, c: Command)
    returns (later: Run)
    requires Stage(run, s0, v, i, d, told) && AtRest(v, c.id) && c.id !in v.issued && Conflict(d, c)
    ensures Stage(later, s0, WithOperation(v, c), i, d, told + [Told(c.id, SyncResult(v.r.store, c))])
  {
    hide Reaches, Turn, ToldInTurn, HasRecorded, SyncResult, Execute, OnlyLeader, Conflict;
    var v1 := WithIssued(v, c);
    var refused := Refused(run, s0, v, i, d, told, c);
    var served := HasBothTurns(refused, s0, v1, c);
    ReachedStates(refused, s0, v1);
    ReachedStates(served, s0, WithBoth(v1, c));
    TurnStays(Last(refused), Last(served), i, d, told, c.id, Syncing);
    later := Returns(served, s0, WithBoth(v1, c), i, d, told, c, SyncResult(v.r.store, c));
  }

  // ---------------------------------------------------------------- what no order explains

  /** a, c and d write the key that b and e read, and only a writes what a writes. */
  ghost predicate Mixed(a: Command, b: Command, c: Command, d: Command, e: Command) {
    && a.op == c.op == d.op == PUT && b.op == e.op == GET
    && a.key == b.key == c.key == d.key == e.key && Distinct([a, b, c, d, e])
    && a.value != c.value && a.value != d.value && a.value != NOT_FOUND_IN_STATE
  }

  lemma MixedIds(a: Command, b: Command, c: Command, d: Command, e: Command)
    requires Mixed(a, b, c, d, e)
    ensures a.id != b.id && a.id != c.id && a.id != d.id && a.id != e.id && b.id != c.id && b.id != d.id && b.id != e.id
    ensures c.id != d.id && c.id != e.id && d.id != e.id && Conflict(d, b) && Conflict(d, c) && Conflict(d, e)
  {
    var all := [a, b, c, d, e];
    assert all[0] == a && all[1] == b && all[2] == c && all[3] == d && all[4] == e;
  }

  lemma RecordLeads(s: Cluster, v: Shape, i: nat, d: Command)
    requires Shows(s, v) && i < |s.nodes| && i != s.leader && s.nodes[i] == Start(false) && Known(v.issued, d)
    ensures var t := At(i, Enter(d));
            Leads(s, t, v, false, true) && HasRecorded(Apply(s, t), i, d) && Apply(s, t).ops == s.ops
  {
  }

  /** The follower has recorded d, and nothing else has happened. */
  lemma FollowerRecords(s: Cluster, i: nat, d: Command) returns (run: Run)
    requires Init(s) && i < |s.nodes| && i != s.leader
    ensures Stage(run, s, WithIssued(NothingYet, d), i, d, [])
  {
    var v := WithIssued(NothingYet, d);
    assert s.nodes[i] == Start(false);
    run := StartsSo(s);
    AsksLess(run, s, NothingYet);
    hide Init, IsRun, FastBeforeSlow, LeaderAccepts, Leads, Shows, Apply, JustInvoked;
    run := Invokes(run, s, NothingYet, d, false, true);
    InvokedNodes(s, Last(run), d.id);
    RecordLeads(Last(run), v, i, d);
    run := Next(run, s, v, At(i, Enter(d)), v, false, true);
  }

  lemma RestStays(s: Cluster, s': Cluster, i: nat, d: Command, told: seq<Told>, id: ProposeId)
    requires HasRecorded(s, i, d) && ToldInTurn(s, told) && (OnlyLeader(s, s') || JustInvoked(s, s', id))
    ensures HasRecorded(s', i, d) && ToldInTurn(s', told)
  {
  }

  /** a has had its slow turn and not its fast turn, and the leader is at rest otherwise. */
  ghost predicate Halfway(v: Shape, a: Command) {
    && a in v.r.fastPath && a.id !in v.results && a.id !in v.r.commandSet && v.r.committing.None?
    && a.id in v.issued
  }

  lemma Prelude(s: Cluster, i: nat, a: Command, d: Command) returns (run: Run, v: Shape)
    requires Init(s) && i < |s.nodes| && i != s.leader && a.id != d.id
    ensures Stage(run, s, v, i, d, []) && Halfway(v, a)
    ensures v.r.store == Execute(map[], a) && v.issued == map[a.id := a, d.id := d]
    ensures forall id :: id != a.id && id != d.id ==> AtRest(v, id)
  {
    hide Init, Reaches, OnlyLeader, Execute, JustInvoked, HasRecorded, ToldInTurn;
    var recorded := FollowerRecords(s, i, d);
    v := WithIssued(NothingYet, d);
    var invoked := Invokes(recorded, s, v, a, false, true);
    ReachedStates(recorded, s, v);
    v := WithIssued(v, a);
    ReachedStates(invoked, s, v);
    RestStays(Last(recorded), Last(invoked), i, d, [], a.id);
    run := HasSlowTurn(invoked, s, v, a);
    v := WithLone(v, a);
    ReachedStates(run, s, v);
    RestStays(Last(invoked), Last(run), i, d, [], a.id);
  }

  /** What an operation leaves as it was. */
  lemma OperationRests(v: Shape, c: Command, a: Command)
    requires AtRest(v, c.id) && Halfway(v, a) && a.id != c.id
    ensures Halfway(WithOperation(v, c), a) && WithOperation(v, c).issued == v.issued[c.id := c]
    ensures WithOperation(v, c).r.store == Execute(v.r.store, c)
    ensures forall id :: id != c.id && AtRest(v, id) ==> AtRest(WithOperation(v, c), id)
  {
    hide Execute, SyncResult;
  }

  lemma FastRests(v: Shape, a: Command)
    requires Halfway(v, a)
    ensures WithFast(v, a).r.store == Execute(v.r.store, a) && WithFast(v, a).issued == v.issued
    ensures forall id :: id != a.id && AtRest(v, id) ==> AtRest(WithFast(v, a), id)
  {
    hide Execute, SyncResult;
  }

  lemma ReadsWritten(st: Store, a: Command, b: Command)
    requires a.op == PUT && b.op == GET && a.key == b.key
    ensures SyncResult(Execute(st, a), b) == a.value
  {
  }

  /** b reads a's value, c overwrites it, and after the late fast turn of a, e reads a's value again. */
  lemma ReadsTwice(s: Cluster, i: nat, a: Command, b: Command, c: Command, d: Command, e: Command)
    returns (run: Run, v: Shape, content: string)
    requires Init(s) && i < |s.nodes| && i != s.leader && Mixed(a, b, c, d, e)
    ensures Stage(run, s, v, i, d, [Told(b.id, a.value)] + [Told(c.id, content)] + [Told(e.id, a.value)])
    ensures v.issued == map[a.id := a, d.id := d][b.id := b][c.id := c][e.id := e]
  {
    MixedIds(a, b, c, d, e);
    assert a.op == PUT && b.op == e.op == GET && a.key == b.key == e.key;
    hide *;
    var r1, v1 := Prelude(s, i, a, d);
    ReadsWritten(map[], a, b);
    OperationRests(v1, b, a);
    var r2 := Operation(r1, s, v1, i, d, [], b);
    var v2, told2 := WithOperation(v1, b), [Told(b.id, a.value)];
    assert [] + told2 == told2;
    run, v, content := ReadsAgain(r2, s, v2, i, a, b, c, d, e);
  }

  /** c overwrites, and then the late fast turn of a comes. */
  lemma Overwritten(before: Run, s: Cluster, u: Shape, i: nat, a: Command, c: Command, d: Command, told: seq<Told>)
    returns (run: Run, v: Shape, content: string)
    requires Stage(before, s, u, i, d, told)
    requires Halfway(u, a) && AtRest(u, c.id) && c.id !in u.issued && Conflict(d, c) && a.id != c.id && a.op == PUT
    ensures Stage(run, s, v, i, d, told + [Told(c.id, content)])
    ensures forall r: Command :: r.op == GET && r.key == a.key ==> SyncResult(v.r.store, r) == a.value
    ensures v.issued == u.issued[c.id := c]
    ensures forall id :: id != c.id && id != a.id && AtRest(u, id) ==> AtRest(v, id)
  {
    hide Reaches, OnlyLeader, Execute, SyncResult, Conflict, AtRest, WithOperation, HasRecorded, ToldInTurn, WithFast;
    content := SyncResult(u.r.store, c);
    OperationRests(u, c, a);
    var served := Operation(before, s, u, i, d, told, c);
    var w := WithOperation(u, c);
    FastRests(w, a);
    run := FastTurn(served, s, w, a, false, true);
    v := WithFast(w, a);
    ReachedStates(served, s, w);
    ReachedStates(run, s, v);
    RestStays(Last(served), Last(run), i, d, told + [Told(c.id, content)], a.id);
    forall r: Command | r.op == GET && r.key == a.key ensures SyncResult(v.r.store, r) == a.value {
      ReadsWritten(w.r.store, a, r);
    }
  }

  lemma ReadsAgain(before: Run, s: Cluster, u: Shape, i: nat,
        a: Command, b: Command, c: Command, d: Command, e: Command)
    returns (run: Run, v: Shape, content: string)
    requires Stage(before, s, u, i, d, [Told(b.id, a.value)]) && Mixed(a, b, c, d, e)
    requires Halfway(u, a) && AtRest(u, c.id) && AtRest(u, e.id) && c.id !in u.issued && e.id !in u.issued
    ensures Stage(run, s, v, i, d, [Told(b.id, a.value)] + [Told(c.id, content)] + [Told(e.id, a.value)])
    ensures v.issued == u.issued[c.id := c][e.id := e]
  {
    MixedIds(a, b, c, d, e);
    assert a.op == PUT && e.op == GET && a.key == e.key;
    hide *;
    var late, w: Shape;
    late, w, content := Overwritten(before, s, u, i, a, c, d, [Told(b.id, a.value)]);
    assert SyncResult(w.r.store, e) == a.value;
    var told := [Told(b.id, a.value)] + [Told(c.id, content)];
    run := Operation(late, s, w, i, d, told, e);
    v := WithOperation(w, e);
    OperationIssues(w, e);
  }

  lemma OperationIssues(v: Shape, c: Command)
    ensures WithOperation(v, c).issued == v.issued[c.id := c]
  {
  }

  /** a is executed before position q, and nothing in between writes its key. */
  ghost predicate ReadsFrom(order: seq<Command>, q: nat, a: Command) {
    q < |order| && exists p :: 0 <= p < q && order[p] == a && forall m :: p < m < q ==> !Writes(order[m], a.key)
  }

  /** A read of what only a writes comes after a, with no write in between. */
  lemma ReadOf(order: seq<Command>, a: Command, r: Command) returns (q: nat)
    requires r.op == GET && r.key == a.key && a.value != NOT_FOUND_IN_STATE && IsResult(map[], order, r, a.value)
    requires forall w :: w in order && w.op == PUT && w.key == a.key && w.value == a.value ==> w == a
    ensures q < |order| && order[q] == r && ReadsFrom(order, q, a)
  {
    q :| 0 <= q < |order| && order[q] == r && a.value == ResultAt(map[], order, q);
    ReadReturnsLastWrite(map[], order, q);
    assert LastWrite(order[..q], a.key).Some?;
    var p := LastWriteAt(order[..q], a.key);
    assert order[p] == order[..q][p] && order[p] in order;
    assert forall m :: 0 <= m < q ==> order[..q][m] == order[m];
  }

  /** Two reads of a's value with a write between them. */
  lemma OneWriteTwoReads(order: seq<Command>, a: Command, b: Command, c: Command, e: Command, q: nat, r: nat)
    requires Distinct(order) && Writes(c, a.key) && Before(order, b, c) && Before(order, c, e)
    requires q < |order| && order[q] == b && r < |order| && order[r] == e
    ensures !(ReadsFrom(order, q, a) && ReadsFrom(order, r, a))
  {
    var x, y :| 0 <= x < y < |order| && order[x] == b && order[y] == c;
    var z, t :| 0 <= z < t < |order| && order[z] == c && order[t] == e;
    assert x == q && y == z && t == r;
  }

  /** Each id names its command, and only a writes what a writes. */
  ghost predicate Names(reg: Registry, a: Command, b: Command, c: Command, e: Command) {
    && b.id in reg && c.id in reg && e.id in reg && reg[b.id] == b && reg[c.id] == c && reg[e.id] == e
    && forall w :: Known(reg, w) && w.op == PUT && w.key == a.key && w.value == a.value ==> w == a
  }

  lemma IssuedFive(reg: Registry, a: Command, b: Command, c: Command, d: Command, e: Command)
    requires Mixed(a, b, c, d, e) && reg == map[a.id := a, d.id := d][b.id := b][c.id := c][e.id := e]
    ensures Names(reg, a, b, c, e)
  {
    MixedIds(a, b, c, d, e);
  }

  lemma ReturnsInTurn(s: Cluster, order: seq<Command>, told: seq<Told>, k: nat, j: nat)
    requires Linearizes(s, order) && ToldInTurn(s, told) && k < j < |told|
    ensures told[k].id in s.issued && told[j].id in s.issued
    ensures IsResult(map[], order, s.issued[told[k].id], told[k].content)
    ensures IsResult(map[], order, s.issued[told[j].id], told[j].content)
    ensures Before(order, s.issued[told[k].id], s.issued[told[j].id])
  {
    hide ResultAt;
    assert s.ops[told[k].id].phase.Returned? && s.ops[told[j].id].phase.Returned?;
    assert s.issued[told[j].id] in order;
  }

  lemma TwoReadsExplained(s: Cluster, order: seq<Command>, content: string,
        a: Command, b: Command, c: Command, e: Command)
    requires Names(s.issued, a, b, c, e)
    requires ToldInTurn(s, [Told(b.id, a.value)] + [Told(c.id, content)] + [Told(e.id, a.value)])
    requires Writes(c, a.key) && b.op == e.op == GET && a.key == b.key == e.key && a.value != NOT_FOUND_IN_STATE
    ensures !Linearizes(s, order)
  {
    if Linearizes(s, order) {
      assert Distinct(order) && forall w :: w in order ==> Known(s.issued, w);
      hide Linearizes, ToldInTurn, ReadsFrom, IsResult, Known, Distinct, Before, Writes;
      var told := [Told(b.id, a.value)] + [Told(c.id, content)] + [Told(e.id, a.value)];
      ReturnsInTurn(s, order, told, 0, 1);
      ReturnsInTurn(s, order, told, 1, 2);
      var q := ReadOf(order, a, b);
      var r := ReadOf(order, a, e);
      OneWriteTwoReads(order, a, b, c, e, q, r);
    }
  }

  lemma NoOrderExplains(s: Cluster, order: seq<Command>, content: string,
        a: Command, b: Command, c: Command, d: Command, e: Command)
    requires Mixed(a, b, c, d, e) && s.issued == map[a.id := a, d.id := d][b.id := b][c.id := c][e.id := e]
    requires ToldInTurn(s, [Told(b.id, a.value)] + [Told(c.id, content)] + [Told(e.id, a.value)])
    ensures !Linearizes(s, order)
  {
    IssuedFive(s.issued, a, b, c, d, e);
    hide Linearizes, ToldInTurn, Distinct;
    TwoReadsExplained(s, order, content, a, b, c, e);
  }

  /**
   * With no conflict at the leader but a slow turn first, clients can be told contents that no order of the commands
   * explains: from every start with a second server, for all commands so mixed.
   */
  lemma UnexplainedHappens(s: Cluster, i: nat, a: Command, b: Command, c: Command, d: Command, e: Command)
    returns (run: Run)
    requires Init(s) && i < |s.nodes| && i != s.leader && Mixed(a, b, c, d, e)
    ensures IsRun(run) && LeaderAccepts(run) && |run.states| > 0 && run.states[0] == s
    ensures forall order :: !Linearizes(Last(run), order)
  {
    var v: Shape;
    var content: string;
    hide IsRun, LeaderAccepts, Init, Mixed, Linearizes, ToldInTurn;
    run, v, content := ReadsTwice(s, i, a, b, c, d, e);
    forall order ensures !Linearizes(Last(run), order) {
      NoOrderExplains(Last(run), order, content, a, b, c, d, e);
    }
  }
}
