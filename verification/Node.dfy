/** One server of the cluster as a state machine: replica, board, and the history of what it did. */
module Node {
  import opened Commands
  import opened Traces
  import opened Witness
  import opened Replica
  import B = Board

  /** The witness's answer to a proposal; after: how many records had been removed when it was accepted. */
  datatype Verdict = Conflicted | Accepted(after: nat)

  datatype Node = Node(
    r: Replica,
    board: B.System,
    verdicts: map<ProposeId, Verdict>,  // proposals that reached the witness
    queued: set<ProposeId>,             // proposals the leader has put into both pools
    slow: seq<Command>,                 // commands taken from the slow path
    executed: seq<Command>)             // executions, in order

  datatype Action =
    | Enter(cmd: Command)
    | Queue(cmd: Command)
    | TakeFast(cmd: Command)
    | TakeSlow(cmd: Command)
    | RemoveRecord
    | Wait(e: B.Event)

  function Start(isLeader: bool): Node {
    Node(Replica(isLeader, map[], {}, map[], multiset{}, None), B.Quiet, map[], {}, [], [])
  }

  /** How many slow commands have had their record removed. */
  function Removed(n: Node): nat {
    if n.r.committing.Some? && |n.slow| > 0 then |n.slow| - 1 else |n.slow|
  }

  function Gone(n: Node): seq<Command> {
    n.slow[..Removed(n)]
  }

  ghost predicate CanAct(n: Node, a: Action) {
    match a
    case Enter(c) => c.id !in n.verdicts
    case Queue(c) => n.r.isLeader && c.id in n.verdicts && c.id !in n.queued
    case TakeFast(c) =>
      && n.r.committing.None? && c in n.r.fastPath
      && (FastRuns(n.r, c) ==> B.ErRoom(n.board.tables, c.id))
    case TakeSlow(c) => n.r.committing.None? && B.AsrRoom(n.board.tables, c.id)
    case RemoveRecord => n.r.committing.Some?
    case Wait(e) => !e.InsertEr? && !e.NotifyAsr? && B.CanStep(n.board, e)
  }

  ghost function Entered(n: Node, c: Command): Node {
    n.(r := n.r.(records := Record(n.r.records, c)),
       verdicts := n.verdicts[c.id := if ConflictsWith(n.r.records, c) then Conflicted else Accepted(Removed(n))])
  }

  function Queued(n: Node, c: Command): Node {
    n.(r := n.r.(fastPath := n.r.fastPath + multiset{c}), queued := n.queued + {c.id})
  }

  function FastDone(n: Node, c: Command): Node {
    if FastRuns(n.r, c) then
      n.(r := FastTaken(n.r, c),
         executed := n.executed + [c],
         board := B.Step(n.board, B.InsertEr(c.id, SyncResult(n.r.store, c))))
    else
      n.(r := FastTaken(n.r, c))
  }

  function SlowDone(n: Node, c: Command): Node {
    n.(r := SlowTaken(n.r, c),
       executed := if SlowRuns(n.r, c) then n.executed + [c] else n.executed,
       slow := n.slow + [c],
       board := B.Step(n.board, B.NotifyAsr(c.id)))
  }

  function RecordGone(n: Node): Node
    requires n.r.committing.Some?
  {
    n.(r := RecordRemoved(n.r, n.r.committing.value.id))
  }

  /** The next state; an action that cannot happen changes nothing. */
  ghost function Act(n: Node, a: Action): Node {
    if !CanAct(n, a) then n else
    match a
    case Enter(c) => Entered(n, c)
    case Queue(c) => Queued(n, c)
    case TakeFast(c) => FastDone(n, c)
    case TakeSlow(c) => SlowDone(n, c)
    case RemoveRecord => RecordGone(n)
    case Wait(e) => n.(board := B.Step(n.board, e))
  }

  // ---------------------------------------------------------------- what the cluster guarantees a node

  type Registry = map<ProposeId, Command>

  /** c is the command issued under its id. */
  predicate Known(reg: Registry, c: Command) {
    c.id in reg && reg[c.id] == c
  }

  predicate WellKeyed(reg: Registry) {
    forall id :: id in reg ==> reg[id].id == id
  }

  /** Unique ids; one WaitSynced per id; the log delivers a command once, and at the leader only after it was queued. */
  ghost predicate Admissible(n: Node, reg: Registry, a: Action) {
    match a
    case Enter(c) => Known(reg, c)
    case Queue(c) => Known(reg, c)
    case TakeFast(c) => true
    case TakeSlow(c) => Known(reg, c) && c !in n.slow && (n.r.isLeader ==> c.id in n.queued)
    case RemoveRecord => true
    case Wait(e) => B.FirstOfItsKind(n.board, e)
  }

  /** Verdicts, queued ids, applied commands, executions and results are never taken back. */
  ghost predicate Grows(n: Node, m: Node) {
    && (forall id :: id in n.verdicts ==> id in m.verdicts && m.verdicts[id] == n.verdicts[id])
    && n.queued <= m.queued && n.slow <= m.slow && n.executed <= m.executed
    && B.Grows(n.board, m.board)
    && m.r.isLeader == n.r.isLeader
  }

  lemma ActGrows(n: Node, a: Action)
    ensures Grows(n, Act(n, a))
  {
    if CanAct(n, a) {
      match a
      case TakeFast(c) => B.StepGrows(n.board, B.InsertEr(c.id, SyncResult(n.r.store, c)));
      case TakeSlow(c) => B.StepGrows(n.board, B.NotifyAsr(c.id));
      case Wait(e) => B.StepGrows(n.board, e);
      case _ =>
    }
    hide B.Step, Record;
  }

  /** Which action changes the queued ids and the slow-applied commands. */
  lemma ActFrame(n: Node, a: Action)
    requires CanAct(n, a)
    ensures Act(n, a).slow == if a.TakeSlow? then n.slow + [a.cmd] else n.slow
    ensures Act(n, a).queued == if a.Queue? then n.queued + {a.cmd.id} else n.queued
    ensures a.Queue? ==> n.r.isLeader && a.cmd.id !in n.queued
    ensures a.Wait? ==> !a.e.InsertEr? && !a.e.NotifyAsr?
  {
  }

  /** The event an action makes at its server's board, if any. */
  function BoardEvent(n: Node, a: Action): Option<B.Event> {
    match a
    case TakeFast(c) => if FastRuns(n.r, c) then Some(B.InsertEr(c.id, SyncResult(n.r.store, c))) else None
    case TakeSlow(c) => Some(B.NotifyAsr(c.id))
    case Wait(e) => Some(e)
    case _ => None
  }

  lemma BoardEvolves(n: Node, a: Action)
    requires CanAct(n, a)
    ensures Act(n, a).board == match BoardEvent(n, a) case None => n.board case Some(e) => B.Step(n.board, e)
  {
    hide B.Step, B.CanStep;
  }

  /** n as the worker and its board, between turns. */
  function AsWorker(n: Node): Worker {
    Worker(n.r, n.board.tables, false)
  }

  /** The two queue actions are the worker's turns, board included. */
  lemma TurnsAreWork(n: Node, c: Command)
    ensures CanAct(n, TakeFast(c)) ==> Work(AsWorker(n), Fast(c)) == AsWorker(Act(n, TakeFast(c)))
    ensures CanAct(n, TakeSlow(c)) ==>
              var m := Act(n, TakeSlow(c));
              CanAct(m, RemoveRecord) && Work(AsWorker(n), Slow(c)) == AsWorker(Act(m, RemoveRecord))
    ensures n.r.committing.None? && c in n.r.fastPath ==>
              (CanAct(n, TakeFast(c)) <==> !Work(AsWorker(n), Fast(c)).stuck)
    ensures n.r.committing.None? ==> (CanAct(n, TakeSlow(c)) <==> !Work(AsWorker(n), Slow(c)).stuck)
  {
  }

  // ---------------------------------------------------------------- the witness over a whole run

  ghost predicate SlowKnown(n: Node, reg: Registry) {
    && (forall c :: c in n.slow ==> Known(reg, c))
    && (n.r.committing.Some? ==> |n.slow| > 0 && n.slow[|n.slow| - 1] == n.r.committing.value)
    && Distinct(n.slow)
  }

  /** Records commute, and each was accepted. */
  ghost predicate RecordsAccepted(n: Node, reg: Registry) {
    && Commuting(n.r.records)
    && (forall id :: id in n.r.records ==> Known(reg, n.r.records[id]) && id in n.verdicts && n.verdicts[id].Accepted?)
  }

  /** c is recorded at n, or n has slow-applied it and removed its record. */
  ghost predicate Held(n: Node, c: Command) {
    c.id in n.r.records || c in Gone(n)
  }

  /** An accepted command is held from then on. */
  ghost predicate AcceptedIsHeld(n: Node, reg: Registry) {
    forall id :: id in n.verdicts ==>
      && id in reg
      && (n.verdicts[id].Accepted? ==> n.verdicts[id].after <= Removed(n) && Held(n, reg[id]))
  }

  /** Of two conflicting commands accepted here, one was applied and removed before the other was accepted. */
  ghost predicate Excluded(n: Node, c: Command, d: Command)
    requires c.id in n.verdicts && n.verdicts[c.id].Accepted? && n.verdicts[c.id].after <= |n.slow|
    requires d.id in n.verdicts && n.verdicts[d.id].Accepted? && n.verdicts[d.id].after <= |n.slow|
  {
    c in n.slow[..n.verdicts[d.id].after] || d in n.slow[..n.verdicts[c.id].after]
  }

  ghost predicate Exclusion(n: Node, reg: Registry)
    requires AcceptedIsHeld(n, reg)
  {
    forall a, b :: a in n.verdicts && b in n.verdicts && a != b
                   && n.verdicts[a].Accepted? && n.verdicts[b].Accepted?
                   && reg[a].id == a && reg[b].id == b && Conflict(reg[a], reg[b])
                   ==> Excluded(n, reg[a], reg[b])
  }

  ghost predicate WitnessInv(n: Node, reg: Registry) {
    && WellKeyed(reg)
    && SlowKnown(n, reg) && RecordsAccepted(n, reg) && AcceptedIsHeld(n, reg) && Exclusion(n, reg)
  }

  lemma WitnessAfterEnter(n: Node, reg: Registry, c: Command)
    requires WitnessInv(n, reg) && Known(reg, c) && c.id !in n.verdicts
    ensures WitnessInv(Entered(n, c), reg)
  {
    RecordsAfterEnter(n, reg, c);
    ExclusionAfterEnter(n, reg, c);
    hide RecordsAccepted, AcceptedIsHeld, Exclusion;
  }

  lemma RecordsAfterEnter(n: Node, reg: Registry, c: Command)
    requires RecordsAccepted(n, reg) && AcceptedIsHeld(n, reg) && Known(reg, c) && c.id !in n.verdicts
    ensures RecordsAccepted(Entered(n, c), reg) && AcceptedIsHeld(Entered(n, c), reg)
  {
    RecordKeepsCommuting(n.r.records, c);
    hide Commuting, ConflictsWith;
    assert Gone(Entered(n, c)) == Gone(n);
  }

  lemma ConflictIsGone(n: Node, reg: Registry, c: Command, a: ProposeId)
    requires WitnessInv(n, reg)
    requires a in n.verdicts && n.verdicts[a].Accepted? && Conflict(reg[a], c)
    ensures ConflictsWith(n.r.records, c) || reg[a] in Gone(n)
  {
    assert Held(n, reg[a]);
    assert a in n.r.records ==> n.r.records[a] == reg[a];
  }

  lemma ExclusionAfterEnter(n: Node, reg: Registry, c: Command)
    requires WitnessInv(n, reg) && Known(reg, c) && c.id !in n.verdicts
    requires AcceptedIsHeld(Entered(n, c), reg)
    ensures Exclusion(Entered(n, c), reg)
  {
    if !ConflictsWith(n.r.records, c) {
      forall a | a in n.verdicts && n.verdicts[a].Accepted? && Conflict(reg[a], c) ensures reg[a] in Gone(n) {
        ConflictIsGone(n, reg, c, a);
      }
      assert n.slow[..Removed(n)] == Gone(n);
    }
  }

  lemma WitnessAfterSlow(n: Node, reg: Registry, c: Command)
    requires WitnessInv(n, reg) && Known(reg, c) && c !in n.slow && n.r.committing.None?
    ensures WitnessInv(SlowDone(n, c), reg)
  {
    var n' := SlowDone(n, c);
    assert Gone(n') == n.slow == Gone(n);
    assert forall k :: 0 <= k <= |n.slow| ==> n'.slow[..k] == n.slow[..k];
    forall i | 0 <= i < |n.slow| ensures n.slow[i].id != c.id {
      assert n.slow[i] in n.slow;
    }
  }

  lemma WitnessAfterRemove(n: Node, reg: Registry)
    requires WitnessInv(n, reg) && n.r.committing.Some?
    ensures WitnessInv(RecordGone(n), reg)
  {
    var n', c := RecordGone(n), n.r.committing.value;
    assert n.slow == Gone(n) + [c];
    assert Gone(n') == n.slow;
    forall id | id in n.verdicts && n.verdicts[id].Accepted? ensures Held(n', reg[id]) {
      assert Held(n, reg[id]);
      assert c in n.slow && Known(reg, c);
    }
  }

  lemma WitnessAfterFast(n: Node, reg: Registry, c: Command)
    requires WitnessInv(n, reg)
    ensures WitnessInv(FastDone(n, c), reg)
  {
    assert Gone(FastDone(n, c)) == Gone(n);
  }

  /** Every admissible action keeps the witness invariant. */
  lemma WitnessKept(n: Node, reg: Registry, a: Action)
    requires WitnessInv(n, reg) && Admissible(n, reg, a)
    ensures WitnessInv(Act(n, a), reg)
  {
    if CanAct(n, a) {
      match a
      case Enter(c) => WitnessAfterEnter(n, reg, c);
      case TakeFast(c) => WitnessAfterFast(n, reg, c);
      case TakeSlow(c) => WitnessAfterSlow(n, reg, c);
      case RemoveRecord => WitnessAfterRemove(n, reg);
      case _ =>
        assert Gone(Act(n, a)) == Gone(n);
    }
  }

  /** c was accepted here only after its own record removal was over. */
  ghost predicate AcceptedLate(n: Node, c: Command) {
    && c.id in n.verdicts && n.verdicts[c.id].Accepted?
    && n.verdicts[c.id].after <= |n.slow| && c in n.slow[..n.verdicts[c.id].after]
  }

  /**
   * An accepted command is recorded until its removal, or for good when it was accepted late; a leader accepts
   * nothing late.
   */
  ghost predicate CleanInv(n: Node, reg: Registry) {
    && (forall id :: id in n.verdicts && n.verdicts[id].Accepted? ==>
          id in reg && (id in n.r.records <==> reg[id] !in Gone(n) || AcceptedLate(n, reg[id])))
    && (n.r.isLeader ==>
          && (forall id :: id in n.queued ==> id in n.verdicts)
          && (forall c :: c in n.slow ==> c.id in n.verdicts && !AcceptedLate(n, c)))
  }

  lemma CleanAfterEnter(n: Node, reg: Registry, c: Command)
    requires CleanInv(n, reg) && WitnessInv(n, reg) && Known(reg, c) && c.id !in n.verdicts
    ensures CleanInv(Entered(n, c), reg)
  {
    hide Commuting, Exclusion;
    var n' := Entered(n, c);
    assert Gone(n') == Gone(n) == n.slow[..Removed(n)];
    assert n.r.isLeader ==> c !in n.slow;
  }

  /** A new slow turn does not change who was accepted late. */
  lemma LateAfterSlow(n: Node, reg: Registry, c: Command, d: Command)
    requires AcceptedIsHeld(n, reg) && n.r.committing.None?
    ensures AcceptedLate(SlowDone(n, c), d) <==> AcceptedLate(n, d)
    ensures AcceptedLate(n, d) ==> d in n.slow
  {
    hide B.Step, Held;
    var n' := SlowDone(n, c);
    assert forall k :: 0 <= k <= |n.slow| ==> n'.slow[..k] == n.slow[..k];
  }

  lemma CleanAfterSlow(n: Node, reg: Registry, c: Command)
    requires CleanInv(n, reg) && WitnessInv(n, reg) && Known(reg, c) && c !in n.slow && n.r.committing.None?
    requires n.r.isLeader ==> c.id in n.queued
    ensures CleanInv(SlowDone(n, c), reg)
  {
    var n' := SlowDone(n, c);
    assert AcceptedIsHeld(n, reg);
    assert Gone(n') == n.slow == Gone(n);
    assert n'.verdicts == n.verdicts && n'.queued == n.queued && n'.r.records == n.r.records;
    assert n'.r.isLeader == n.r.isLeader;
    assert forall d :: d in n'.slow <==> d in n.slow || d == c;
    hide WitnessInv, SlowDone, AcceptedLate, AcceptedIsHeld, Gone;
    forall d ensures AcceptedLate(n', d) <==> AcceptedLate(n, d) {
      LateAfterSlow(n, reg, c, d);
    }
    LateAfterSlow(n, reg, c, c);
  }

  /** The command whose record is being removed was not accepted late. */
  lemma CommittingNotLate(n: Node, reg: Registry)
    requires SlowKnown(n, reg) && AcceptedIsHeld(n, reg) && n.r.committing.Some?
    ensures !AcceptedLate(n, n.r.committing.value)
  {
    hide Held;
    var c := n.r.committing.value;
    if c.id in n.verdicts && n.verdicts[c.id].Accepted? {
      var k := n.verdicts[c.id].after;
      assert k <= |n.slow| - 1;
      assert forall j :: 0 <= j < k ==> n.slow[j].id != c.id;
      assert c !in n.slow[..k];
    }
  }

  lemma CleanAfterRemove(n: Node, reg: Registry)
    requires CleanInv(n, reg) && WitnessInv(n, reg) && n.r.committing.Some?
    ensures CleanInv(RecordGone(n), reg)
  {
    var n', c := RecordGone(n), n.r.committing.value;
    CommittingNotLate(n, reg);
    assert n.slow == Gone(n) + [c] && Gone(n') == n.slow;
    assert forall d :: d in Gone(n') <==> d in Gone(n) || d == c;
    assert n'.verdicts == n.verdicts && n'.slow == n.slow && n'.queued == n.queued;
    assert n'.r.records == n.r.records - {c.id} && n'.r.isLeader == n.r.isLeader;
    assert forall d :: AcceptedLate(n', d) <==> AcceptedLate(n, d);
    assert c in n.slow && Known(reg, c) && WellKeyed(reg);
    hide WitnessInv, RecordGone, AcceptedLate, Gone;
  }

  /** What an action that neither proposes nor removes leaves as it was. */
  lemma OtherFrame(n: Node, a: Action)
    requires CanAct(n, a) && (a.Queue? || a.TakeFast? || a.Wait?)
    ensures var n' := Act(n, a);
            && n'.verdicts == n.verdicts && n'.slow == n.slow && Gone(n') == Gone(n)
            && n'.r.records == n.r.records && n'.r.isLeader == n.r.isLeader
            && forall id :: id in n'.queued ==> id in n.queued || id in n.verdicts
  {
    hide B.Step, B.CanStep;
  }

  lemma CleanAfterOther(n: Node, reg: Registry, a: Action)
    requires CleanInv(n, reg) && CanAct(n, a) && (a.Queue? || a.TakeFast? || a.Wait?)
    ensures CleanInv(Act(n, a), reg)
  {
    hide Act, CanAct, Gone;
    OtherFrame(n, a);
  }

  lemma CleanKept(n: Node, reg: Registry, a: Action)
    requires CleanInv(n, reg) && WitnessInv(n, reg) && Admissible(n, reg, a)
    ensures CleanInv(Act(n, a), reg)
  {
    if CanAct(n, a) {
      hide CleanInv, WitnessInv;
      match a
      case Enter(c) => CleanAfterEnter(n, reg, c);
      case TakeSlow(c) => CleanAfterSlow(n, reg, c);
      case RemoveRecord => CleanAfterRemove(n, reg);
      case _ => CleanAfterOther(n, reg, a);
    }
  }

  // ---------------------------------------------------------------- the store, the board and the followers

  /** The board has notified exactly the slow-applied commands. */
  ghost predicate BoardInv(n: Node, reg: Registry) {
    && B.Sound(n.board)
    && (forall id :: id in n.board.notified <==> id in reg && reg[id] in n.slow)
    && (forall id :: id in n.board.inserted ==> id in n.queued)
  }

  /** The fast pool: each queued command at most once, and none whose result was already inserted. */
  ghost predicate PoolInv(n: Node, reg: Registry) {
    && (forall c :: c in n.r.fastPath ==>
          n.r.fastPath[c] == 1 && Known(reg, c) && c.id in n.queued && c.id !in n.board.inserted)
    && (forall id :: id in n.queued ==> id in n.verdicts)
  }

  ghost predicate StoreInv(n: Node) {
    n.r.store == Replay(map[], n.executed)
  }

  /** A server that does not lead executes exactly what the slow path brings. */
  ghost predicate FollowerInv(n: Node) {
    !n.r.isLeader ==>
      && n.r.fastPath == multiset{}
      && n.executed == n.slow
      && n.r.commandSet == match n.r.committing case None => {} case Some(c) => {c.id}
  }

  ghost predicate LocalInv(n: Node, reg: Registry) {
    BoardInv(n, reg) && PoolInv(n, reg) && StoreInv(n) && FollowerInv(n)
  }

  lemma BoardAfterFast(n: Node, reg: Registry, c: Command)
    requires BoardInv(n, reg) && PoolInv(n, reg) && CanAct(n, TakeFast(c))
    ensures BoardInv(FastDone(n, c), reg)
    ensures FastDone(n, c).board.inserted.Keys <= n.board.inserted.Keys + {c.id}
  {
    var e := B.InsertEr(c.id, SyncResult(n.r.store, c));
    B.SoundKept(n.board, e);
    if FastRuns(n.r, c) {
      assert B.CanStep(n.board, e);
      hide B.Sound, B.Step, B.CanStep;
      B.HistoryFrame(n.board, e);
    }
  }

  lemma PoolAfterFast(n: Node, reg: Registry, c: Command)
    requires PoolInv(n, reg) && c in n.r.fastPath
    requires FastDone(n, c).board.inserted.Keys <= n.board.inserted.Keys + {c.id}
    ensures PoolInv(FastDone(n, c), reg)
  {
    hide B.Step;
    var pool := FastDone(n, c).r.fastPath;
    assert pool == n.r.fastPath - multiset{c} && pool[c] == 0;
  }

  lemma LocalAfterFast(n: Node, reg: Registry, c: Command)
    requires LocalInv(n, reg) && CanAct(n, TakeFast(c))
    ensures LocalInv(FastDone(n, c), reg)
  {
    BoardAfterFast(n, reg, c);
    PoolAfterFast(n, reg, c);
    hide B.Step, BoardInv, PoolInv;
    ReplayStep(map[], n.executed, c);
  }

  lemma BoardAfterSlow(n: Node, reg: Registry, c: Command)
    requires BoardInv(n, reg) && CanAct(n, TakeSlow(c)) && Known(reg, c) && WellKeyed(reg)
    ensures BoardInv(SlowDone(n, c), reg)
    ensures SlowDone(n, c).board.inserted == n.board.inserted
  {
    var n', e := SlowDone(n, c), B.NotifyAsr(c.id);
    B.SoundKept(n.board, e);
    assert B.CanStep(n.board, e);
    hide B.Sound, B.Step, B.CanStep;
    B.HistoryFrame(n.board, e);
    assert forall d :: d in n'.slow <==> d in n.slow || d == c;
  }

  lemma StoreAfterSlow(n: Node, c: Command)
    requires StoreInv(n) && FollowerInv(n) && n.r.committing.None?
    ensures StoreInv(SlowDone(n, c)) && FollowerInv(SlowDone(n, c))
  {
    hide B.Step;
    ReplayStep(map[], n.executed, c);
  }

  lemma LocalAfterSlow(n: Node, reg: Registry, c: Command)
    requires LocalInv(n, reg) && CanAct(n, TakeSlow(c)) && Known(reg, c) && WellKeyed(reg)
    ensures LocalInv(SlowDone(n, c), reg)
  {
    BoardAfterSlow(n, reg, c);
    StoreAfterSlow(n, c);
    hide B.Step, BoardInv, StoreInv, FollowerInv;
  }

  lemma LocalAfterWait(n: Node, reg: Registry, e: B.Event)
    requires LocalInv(n, reg) && !e.InsertEr? && !e.NotifyAsr? && B.CanStep(n.board, e)
    ensures LocalInv(n.(board := B.Step(n.board, e)), reg)
  {
    hide B.Sound, B.Step, B.CanStep;
    B.SoundKept(n.board, e);
    B.HistoryFrame(n.board, e);
  }

  lemma LocalAfterOther(n: Node, reg: Registry, a: Action)
    requires LocalInv(n, reg) && Admissible(n, reg, a) && CanAct(n, a)
    requires a.Enter? || a.Queue? || a.RemoveRecord?
    ensures LocalInv(Act(n, a), reg)
  {
    hide B.Sound, B.Step, B.CanStep, Replay, Record;
  }

  lemma LocalKept(n: Node, reg: Registry, a: Action)
    requires LocalInv(n, reg) && Admissible(n, reg, a) && WellKeyed(reg)
    ensures LocalInv(Act(n, a), reg)
  {
    if CanAct(n, a) {
      hide LocalInv;
      match a
      case TakeFast(c) => LocalAfterFast(n, reg, c);
      case TakeSlow(c) => LocalAfterSlow(n, reg, c);
      case Wait(e) => LocalAfterWait(n, reg, e);
      case _ => LocalAfterOther(n, reg, a);
    }
  }

  /** The worker is never blocked by the board: whatever it receives next, it can serve. */
  lemma WorkerCanServe(n: Node, reg: Registry, a: Action)
    requires LocalInv(n, reg) && Admissible(n, reg, a)
    requires n.r.committing.None?
    requires (a.TakeFast? && a.cmd in n.r.fastPath) || a.TakeSlow?
    ensures CanAct(n, a)
  {
    match a
    case TakeFast(c) => B.SendsNeverBlock(n.board, B.InsertEr(c.id, SyncResult(n.r.store, c)));
    case TakeSlow(c) => B.SendsNeverBlock(n.board, B.NotifyAsr(c.id));
  }

  // ---------------------------------------------------------------- the leader, when fast turns come before slow turns

  /** At the leader a command's slow turn comes after its fast turn. */
  ghost predicate FastFirst(n: Node, a: Action) {
    a.TakeSlow? && n.r.isLeader ==> a.cmd in n.executed
  }

  /** Queued commands are in the fast pool or executed, each once; slow commands were executed. */
  ghost predicate Flow(n: Node, reg: Registry) {
    && Distinct(n.executed)
    && (forall c :: c in n.executed ==> Known(reg, c) && c.id in n.queued && c !in n.r.fastPath)
    && (forall id :: id in n.queued ==> id in reg && (reg[id] in n.r.fastPath || reg[id] in n.executed))
    && (forall c :: c in n.slow ==> c in n.executed)
  }

  /** The de-duplication set holds the ids executed whose record is not removed yet. */
  ghost predicate SetIsUnsynced(n: Node, reg: Registry) {
    forall id :: id in n.r.commandSet <==> id in reg && reg[id] in n.executed && reg[id] !in Gone(n)
  }

  /** Each executed command has exactly its result in this order of execution, and nothing else has one. */
  ghost predicate ResultsOf(inserted: map<ProposeId, set<string>>, order: seq<Command>, reg: Registry) {
    && (forall k :: 0 <= k < |order| ==>
          order[k].id in inserted && inserted[order[k].id] == {ResultAt(map[], order, k)})
    && (forall id :: id in inserted ==> id in reg && reg[id] in order)
  }

  /** The board holds each executed command's result in the leader's own order of execution. */
  ghost predicate ResultsInserted(n: Node, reg: Registry) {
    ResultsOf(n.board.inserted, n.executed, reg)
  }

  ghost predicate BoardCalm(n: Node) {
    B.SyncChannels(n.board) && B.Answers(n.board)
  }

  ghost predicate LeaderInv(n: Node, reg: Registry) {
    n.r.isLeader && Flow(n, reg) && SetIsUnsynced(n, reg) && ResultsInserted(n, reg) && BoardCalm(n)
  }

  lemma BoardCalmKept(n: Node, e: B.Event)
    requires B.Sound(n.board) && BoardCalm(n) && B.FirstOfItsKind(n.board, e) && B.InOrder(n.board, e)
    ensures B.SyncChannels(B.Step(n.board, e)) && B.Answers(B.Step(n.board, e))
  {
    hide B.Sound, B.SyncChannels, B.Answers, B.FirstSend, B.FirstSyncCall, B.InOrder, B.Step;
    B.SyncChannelsKept(n.board, e);
    B.AnswersKept(n.board, e);
  }

  lemma FlowAfterFast(n: Node, reg: Registry, c: Command)
    requires Flow(n, reg) && PoolInv(n, reg) && c in n.r.fastPath && FastRuns(n.r, c)
    ensures Flow(FastDone(n, c), reg)
  {
    hide B.Step;
    var n' := FastDone(n, c);
    assert n'.r.fastPath[c] == 0;
    assert forall d :: d in n'.executed <==> d in n.executed || d == c;
    forall i | 0 <= i < |n.executed| ensures n.executed[i].id != c.id {
      assert n.executed[i] in n.executed;
    }
  }

  lemma SetAfterFast(n: Node, reg: Registry, c: Command)
    requires Flow(n, reg) && SetIsUnsynced(n, reg) && Known(reg, c) && WellKeyed(reg)
    requires c in n.r.fastPath && n.r.committing.None?
    ensures FastRuns(n.r, c) && SetIsUnsynced(FastDone(n, c), reg)
  {
    hide B.Step, Distinct;
    assert FastRuns(n.r, c);
    var n' := FastDone(n, c);
    assert forall d :: d in n'.executed <==> d in n.executed || d == c;
    assert Gone(n') == Gone(n) == n.slow;
  }

  lemma ResultsExtend(inserted: map<ProposeId, set<string>>, order: seq<Command>, reg: Registry, c: Command)
    requires ResultsOf(inserted, order, reg) && Known(reg, c) && c.id !in inserted
    ensures ResultsOf(inserted[c.id := {SyncResult(Replay(map[], order), c)}], order + [c], reg)
  {
    hide Replay, ResultAt;
    var order' := order + [c];
    var inserted' := inserted[c.id := {SyncResult(Replay(map[], order), c)}];
    forall k | 0 <= k < |order'|
      ensures order'[k].id in inserted' && inserted'[order'[k].id] == {ResultAt(map[], order', k)}
    {
      ResultsStep(map[], order, c, k);
    }
    assert forall d :: d in order' <==> d in order || d == c;
  }

  lemma ResultsAfterFast(n: Node, reg: Registry, c: Command)
    requires ResultsInserted(n, reg) && StoreInv(n)
    requires Known(reg, c) && c.id !in n.board.inserted && FastRuns(n.r, c) && CanAct(n, TakeFast(c))
    ensures ResultsInserted(FastDone(n, c), reg)
  {
    var e := B.InsertEr(c.id, SyncResult(n.r.store, c));
    assert B.CanStep(n.board, e);
    hide B.Step, B.CanStep, ResultsOf, Replay;
    B.HistoryFrame(n.board, e);
    ResultsExtend(n.board.inserted, n.executed, reg, c);
  }

  lemma LeaderAfterFast(n: Node, reg: Registry, c: Command)
    requires LeaderInv(n, reg) && LocalInv(n, reg) && WellKeyed(reg) && CanAct(n, TakeFast(c))
    ensures LeaderInv(FastDone(n, c), reg)
  {
    hide B.Sound, B.Step, B.SyncChannels, B.Answers, Replay, ResultsOf;
    SetAfterFast(n, reg, c);
    FlowAfterFast(n, reg, c);
    ResultsAfterFast(n, reg, c);
    BoardCalmKept(n, B.InsertEr(c.id, SyncResult(n.r.store, c)));
  }

  lemma FlowAfterSlow(n: Node, reg: Registry, c: Command)
    requires n.r.isLeader && Flow(n, reg) && SetIsUnsynced(n, reg) && Known(reg, c)
    requires c in n.executed && c !in n.slow && n.r.committing.None?
    ensures !SlowRuns(n.r, c)
    ensures Flow(SlowDone(n, c), reg) && SetIsUnsynced(SlowDone(n, c), reg)
  {
    hide B.Step;
    var n' := SlowDone(n, c);
    assert Gone(n) == n.slow;
    assert !SlowRuns(n.r, c);
    assert Gone(n') == n.slow;
  }

  lemma NotifyInOrder(n: Node, reg: Registry, c: Command)
    requires ResultsInserted(n, reg) && BoardInv(n, reg) && CanAct(n, TakeSlow(c)) && Known(reg, c)
    requires c in n.executed && c !in n.slow
    ensures var e := B.NotifyAsr(c.id); B.CanStep(n.board, e) && B.FirstOfItsKind(n.board, e) && B.InOrder(n.board, e)
  {
    hide B.Sound, ResultAt;
  }

  lemma LeaderAfterSlow(n: Node, reg: Registry, c: Command)
    requires LeaderInv(n, reg) && LocalInv(n, reg) && CanAct(n, TakeSlow(c))
    requires Known(reg, c) && c in n.executed && c !in n.slow
    ensures LeaderInv(SlowDone(n, c), reg)
  {
    var e := B.NotifyAsr(c.id);
    NotifyInOrder(n, reg, c);
    FlowAfterSlow(n, reg, c);
    hide B.Sound, B.Step, B.CanStep, B.FirstSend, B.FirstSyncCall, B.InOrder, B.SyncChannels, B.Answers;
    hide ResultsOf, Flow, SetIsUnsynced, PoolInv, StoreInv, FollowerInv;
    B.HistoryFrame(n.board, e);
    BoardCalmKept(n, e);
  }

  lemma LeaderAfterRemove(n: Node, reg: Registry)
    requires LeaderInv(n, reg) && SlowKnown(n, reg) && n.r.committing.Some? && WellKeyed(reg)
    ensures LeaderInv(RecordGone(n), reg)
  {
    hide ResultsOf, B.SyncChannels, B.Answers;
    var n', c := RecordGone(n), n.r.committing.value;
    assert n.slow == Gone(n) + [c];
    assert Gone(n') == n.slow;
    assert forall d :: d in Gone(n') <==> d in Gone(n) || d == c;
    assert c in n.slow;
  }

  lemma LeaderAfterWait(n: Node, reg: Registry, e: B.Event)
    requires LeaderInv(n, reg) && B.Sound(n.board) && B.FirstOfItsKind(n.board, e)
    requires !e.InsertEr? && !e.NotifyAsr? && B.CanStep(n.board, e)
    ensures LeaderInv(n.(board := B.Step(n.board, e)), reg)
  {
    hide B.Sound, B.Step, B.CanStep, B.SyncChannels, B.Answers, B.FirstSend, B.FirstSyncCall, ResultsOf;
    B.HistoryFrame(n.board, e);
    BoardCalmKept(n, e);
    assert Gone(n.(board := B.Step(n.board, e))) == Gone(n);
  }

  lemma LeaderAfterPropose(n: Node, reg: Registry, a: Action)
    requires LeaderInv(n, reg) && CanAct(n, a) && Admissible(n, reg, a) && (a.Enter? || a.Queue?)
    ensures LeaderInv(Act(n, a), reg)
  {
    hide ResultsOf, B.SyncChannels, B.Answers, Record;
    assert Gone(Act(n, a)) == Gone(n);
  }

  /** Every admissible action that keeps fast turns first keeps the leader invariant. */
  lemma LeaderKept(n: Node, reg: Registry, a: Action)
    requires LeaderInv(n, reg) && LocalInv(n, reg) && WitnessInv(n, reg)
    requires Admissible(n, reg, a) && FastFirst(n, a)
    ensures LeaderInv(Act(n, a), reg)
  {
    if CanAct(n, a) {
      assert n.r.isLeader && B.Sound(n.board);
      hide LeaderInv, LocalInv, B.Sound, B.CanStep, B.Step;
      match a
      case TakeFast(c) => LeaderAfterFast(n, reg, c);
      case TakeSlow(c) => LeaderAfterSlow(n, reg, c);
      case RemoveRecord => LeaderAfterRemove(n, reg);
      case Wait(e) => LeaderAfterWait(n, reg, e);
      case _ => LeaderAfterPropose(n, reg, a);
    }
  }

  // ---------------------------------------------------------------- speculation, when the leader accepts everything

  ghost predicate Accepts(n: Node, a: Action) {
    a.Enter? && n.r.isLeader ==> !ConflictsWith(n.r.records, a.cmd)
  }

  /** Of two conflicting executions the earlier is already slow-applied, and the log keeps their order. */
  ghost predicate Ordered(executed: seq<Command>, slow: seq<Command>) {
    forall i, j :: 0 <= i < j < |executed| && Conflict(executed[i], executed[j]) ==>
      executed[i] in slow && (executed[j] in slow ==> Before(slow, executed[i], executed[j]))
  }

  ghost predicate OrderInv(n: Node) {
    (forall id :: id in n.verdicts ==> n.verdicts[id].Accepted?) && Ordered(n.executed, n.slow)
  }

  lemma OrderedSnoc(executed: seq<Command>, slow: seq<Command>, c: Command)
    requires Ordered(executed, slow) && c !in slow
    requires forall i :: 0 <= i < |executed| && Conflict(executed[i], c) ==> executed[i] in slow
    ensures Ordered(executed + [c], slow)
  {
    hide Conflict, Before;
  }

  /** An executed command that is not slow-applied sits in the witness. */
  lemma UnsyncedIsRecorded(n: Node, reg: Registry, c: Command)
    requires WitnessInv(n, reg) && OrderInv(n) && Known(reg, c) && c.id in n.verdicts && c !in n.slow
    ensures c.id in n.r.records && n.r.records[c.id] == c
  {
    assert Held(n, reg[c.id]);
  }

  lemma ConflictIsApplied(n: Node, reg: Registry, c: Command, d: Command)
    requires WitnessInv(n, reg) && OrderInv(n)
    requires Known(reg, c) && c.id in n.verdicts && c !in n.slow
    requires Known(reg, d) && d.id in n.verdicts && d != c && Conflict(d, c)
    ensures d in n.slow
  {
    UnsyncedIsRecorded(n, reg, c);
    if d !in n.slow {
      UnsyncedIsRecorded(n, reg, d);
    }
  }

  lemma ConflictsAreApplied(n: Node, reg: Registry, c: Command)
    requires WitnessInv(n, reg) && OrderInv(n) && Flow(n, reg) && PoolInv(n, reg) && c in n.r.fastPath
    ensures c !in n.slow
    ensures forall i :: 0 <= i < |n.executed| && Conflict(n.executed[i], c) ==> n.executed[i] in n.slow
  {
    forall i | 0 <= i < |n.executed| && Conflict(n.executed[i], c) ensures n.executed[i] in n.slow {
      assert n.executed[i] in n.executed;
      hide WitnessInv, OrderInv;
      ConflictIsApplied(n, reg, c, n.executed[i]);
    }
  }

  lemma OrderAfterFast(n: Node, reg: Registry, c: Command)
    requires WitnessInv(n, reg) && OrderInv(n) && Flow(n, reg) && PoolInv(n, reg) && c in n.r.fastPath
    ensures OrderInv(FastDone(n, c))
  {
    var n' := FastDone(n, c);
    assert n'.slow == n.slow && n'.verdicts == n.verdicts;
    assert n'.executed == n.executed || n'.executed == n.executed + [c];
    hide FastDone, WitnessInv, Flow, PoolInv, Conflict, Ordered;
    ConflictsAreApplied(n, reg, c);
    OrderedSnoc(n.executed, n.slow, c);
  }

  lemma BeforeExtends(s: seq<Command>, t: seq<Command>, x: Command, y: Command)
    ensures Before(s, x, y) ==> Before(s + t, x, y)
    ensures x in s && y in t ==> Before(s + t, x, y)
  {
    var all := s + t;
    if Before(s, x, y) {
      var a, b :| 0 <= a < b < |s| && s[a] == x && s[b] == y;
      assert all[a] == x && all[b] == y;
    }
    if x in s && y in t {
      var a, b :| 0 <= a < |s| && 0 <= b < |t| && s[a] == x && t[b] == y;
      assert all[a] == x && all[|s| + b] == y;
    }
  }

  lemma OrderAfterSlow(n: Node, reg: Registry, c: Command)
    requires OrderInv(n) && Flow(n, reg) && c in n.executed && c !in n.slow && !SlowRuns(n.r, c)
    ensures OrderInv(SlowDone(n, c))
  {
    var n' := SlowDone(n, c);
    forall i, j | 0 <= i < j < |n.executed| && Conflict(n.executed[i], n.executed[j])
      ensures n.executed[i] in n'.slow
      ensures n.executed[j] in n'.slow ==> Before(n'.slow, n.executed[i], n.executed[j])
    {
      BeforeExtends(n.slow, [c], n.executed[i], n.executed[j]);
    }
    hide B.Step;
  }

  /** Every admissible action with fast turns first and no conflict at the leader keeps the order invariant. */
  lemma OrderKept(n: Node, reg: Registry, a: Action)
    requires LeaderInv(n, reg) && LocalInv(n, reg) && WitnessInv(n, reg) && OrderInv(n)
    requires Admissible(n, reg, a) && FastFirst(n, a) && Accepts(n, a)
    ensures OrderInv(Act(n, a))
  {
    if CanAct(n, a) {
      match a
      case TakeFast(c) => OrderAfterFast(n, reg, c);
      case TakeSlow(c) =>
        FlowAfterSlow(n, reg, c);
        OrderAfterSlow(n, reg, c);
      case _ => OrderAfterOther(n, a);
    }
  }

  lemma OrderAfterOther(n: Node, a: Action)
    requires OrderInv(n) && CanAct(n, a) && n.r.isLeader && Accepts(n, a) && !a.TakeFast? && !a.TakeSlow?
    ensures OrderInv(Act(n, a))
  {
    hide B.Step, B.CanStep;
  }

  /** p lists the executed commands that are not slow-applied, in any order. */
  ghost predicate ListsUnsynced(p: seq<Command>, n: Node) {
    Distinct(p) && forall c :: c in p <==> c in n.executed && c !in n.slow
  }

  lemma SpeculativeOrderAgrees(n: Node, reg: Registry, p: seq<Command>)
    requires LeaderInv(n, reg) && SlowKnown(n, reg) && OrderInv(n) && ListsUnsynced(p, n)
    ensures Distinct(n.slow + p) && SameCommands(n.executed, n.slow + p)
    ensures AgreeOnConflicts(n.executed, n.slow + p)
  {
    hide BoardCalm, ResultsInserted, SetIsUnsynced;
    var t := n.slow + p;
    forall i, j | 0 <= i < j < |t| ensures t[i].id != t[j].id {
      assert i < |n.slow| <= j ==> t[i] in n.slow && t[j] in p;
    }
    forall i, j | 0 <= i < j < |n.executed| && Conflict(n.executed[i], n.executed[j])
      ensures Before(t, n.executed[i], n.executed[j])
    {
      BeforeExtends(n.slow, p, n.executed[i], n.executed[j]);
    }
  }

  /**
   * Speculation: the leader's store is the slow-applied prefix followed by the executed but unsynced commands in any
   * order, every result is as in that order, and the unsynced commands are recorded and pairwise free of conflicts.
   */
  lemma Speculation(n: Node, reg: Registry, p: seq<Command>)
    requires LeaderInv(n, reg) && LocalInv(n, reg) && WitnessInv(n, reg) && OrderInv(n) && ListsUnsynced(p, n)
    ensures n.r.store == Replay(Replay(map[], n.slow), p)
    ensures SameOutcome(map[], n.executed, n.slow + p)
    ensures forall c :: c in p ==> c.id in n.r.records && n.r.records[c.id] == c
    ensures forall c, d :: c in p && d in p && c != d ==> !Conflict(c, d)
  {
    SpeculativeOrderAgrees(n, reg, p);
    TraceEquivalence(map[], n.executed, n.slow + p);
    ReplayConcat(map[], n.slow, p);
    hide BoardCalm, ResultsInserted, SetIsUnsynced, BoardInv, Replay, ResultAt, AgreeOnConflicts;
    forall c | c in p ensures c.id in n.r.records && n.r.records[c.id] == c {
      UnsyncedIsRecorded(n, reg, c);
    }
  }

  // ---------------------------------------------------------------- a new command is issued

  lemma RegistryGrows(n: Node, reg: Registry, c: Command)
    requires WitnessInv(n, reg) && LocalInv(n, reg) && CleanInv(n, reg) && c.id !in reg
    ensures WitnessInv(n, reg[c.id := c]) && LocalInv(n, reg[c.id := c]) && CleanInv(n, reg[c.id := c])
  {
    hide B.Sound, Replay, Commuting, AcceptedLate;
    var reg' := reg[c.id := c];
    assert forall d :: Known(reg, d) ==> Known(reg', d);
    assert forall id :: id in n.verdicts ==> reg'[id] == reg[id];
    assert c !in n.slow;
  }

  lemma LeaderRegistryGrows(n: Node, reg: Registry, c: Command)
    requires LeaderInv(n, reg) && c.id !in reg
    ensures LeaderInv(n, reg[c.id := c])
  {
    hide ResultAt, BoardCalm;
    var reg' := reg[c.id := c];
    assert forall d :: Known(reg, d) ==> Known(reg', d);
    assert c !in n.executed;
  }
}
