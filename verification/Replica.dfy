/** One replica: the proposal path and the command worker. */
module Replica {
  import opened Commands
  import opened Traces
  import opened Witness
  import B = Board
  import C = Client
  import M = MemStore

  /** The replica's state. committing: the slow command whose record is still to be removed. */
  datatype Replica = Replica(
    isLeader: bool,
    store: Store,
    commandSet: set<ProposeId>,
    records: Records,
    fastPath: multiset<Command>,
    committing: Option<Command>)

  /** The fast path executes a command the de-duplication set does not hold. */
  predicate FastRuns(r: Replica, c: Command) {
    c.id !in r.commandSet
  }

  /** The slow path executes unless this is the leader and the set holds the command. */
  predicate SlowRuns(r: Replica, c: Command) {
    !(c.id in r.commandSet && r.isLeader)
  }

  function Executed(r: Replica, c: Command): Replica {
    r.(commandSet := r.commandSet + {c.id}, store := Execute(r.store, c))
  }

  function FastTaken(r: Replica, c: Command): Replica {
    var r' := r.(fastPath := r.fastPath - multiset{c});
    if FastRuns(r, c) then Executed(r', c) else r'
  }

  function SlowTaken(r: Replica, c: Command): Replica {
    (if SlowRuns(r, c) then Executed(r, c) else r).(committing := Some(c))
  }

  function RecordRemoved(r: Replica, id: ProposeId): Replica {
    r.(records := r.records - {id}, commandSet := r.commandSet - {id}, committing := None)
  }

  // ---------------------------------------------------------------- the worker

  /** What one turn of the worker's select receives. */
  datatype Received = Fast(cmd: Command) | Slow(cmd: Command)

  /** The replica and its board; stuck: the worker blocks in a channel send, holding the board's lock. */
  datatype Worker = Worker(r: Replica, tables: B.Tables, stuck: bool)

  function Work(w: Worker, x: Received): Worker {
    if w.stuck then w else
    match x
    case Fast(c) =>
      var r' := FastTaken(w.r, c);
      if !FastRuns(w.r, c) then w.(r := r')
      else
        var result := SyncResult(w.r.store, c);
        if B.ErRoom(w.tables, c.id) then Worker(r', B.Insert(w.tables, c.id, result), false)
        else Worker(r', w.tables.(erBuffer := w.tables.erBuffer[c.id := result]), true)
    case Slow(c) =>
      var r' := SlowTaken(w.r, c);
      if B.AsrRoom(w.tables, c.id) then Worker(RecordRemoved(r', c.id), B.Notify(w.tables, c.id), false)
      else Worker(r', w.tables.(asrBuffer := w.tables.asrBuffer + {c.id}), true)
  }

  function WorkAll(w: Worker, script: seq<Received>): Worker {
    if script == [] then w else Work(WorkAll(w, script[..|script| - 1]), script[|script| - 1])
  }

  /** One more turn of the script; a stuck worker serves none. */
  lemma WorkAllSnoc(w: Worker, script: seq<Received>, i: nat)
    requires i < |script|
    ensures WorkAll(w, script[..i + 1]) == Work(WorkAll(w, script[..i]), script[i])
    ensures WorkAll(w, script[..i]).stuck ==> WorkAll(w, script[..i + 1]) == WorkAll(w, script[..i])
  {
    assert script[..i + 1][..i] == script[..i];
  }

  class StateMachine {
    const KVStore: M.MemStore
    const commandBoard: B.CommandBoard
    const recorder: Witness
    var isLeader: bool
    var commandSet: set<ProposeId>
    var fastPath: multiset<Command>   // the pending sends to fastPath, in no order
    var proposals: multiset<Command>  // the pending sends to proposeC, in no order
    var committing: Option<Command>

    ghost predicate Valid()
      reads this, recorder
    {
      recorder.Valid()
    }

    function View(): Replica
      reads this, KVStore, recorder
    {
      Replica(isLeader, KVStore.kv, commandSet, recorder.commandMap, fastPath, committing)
    }

    ghost function WorkerView(stuck: bool): Worker
      reads this, KVStore, recorder, commandBoard
    {
      Worker(View(), commandBoard.View(), stuck)
    }

    constructor ()
      ensures Valid() && fresh(KVStore) && fresh(commandBoard) && fresh(recorder)
      ensures View() == Replica(false, map[], {}, map[], multiset{}, None)
      ensures commandBoard.View() == B.NoTables && proposals == multiset{}
    {
      KVStore := new M.MemStore();
      commandBoard := new B.CommandBoard();
      recorder := new Witness();
      isLeader, commandSet, fastPath, proposals, committing := false, {}, multiset{}, multiset{}, None;
    }

    /** Propose, first section: the witness. */
    method EnterWitness(cmd: Command) returns (conflict: bool)
      requires Valid()
      modifies recorder
      ensures Valid()
      ensures conflict <==> ConflictsWith(old(recorder.commandMap), cmd)
      ensures View() == old(View()).(records := Record(old(recorder.commandMap), cmd))
    {
      conflict := recorder.InsertIfNotConflict(cmd);
    }

    /**
     * Propose, second section: a follower answers at once; the leader queues the command twice and waits for its
     * result.
     */
    method QueueOrAnswer(cmd: Command, conflict: bool) returns (reply: Option<C.Reply>)
      modifies this
      ensures !isLeader ==> reply == Some(C.Reply(if conflict then C.CONFLICT else C.ACCEPTED, ""))
      ensures !isLeader ==> View() == old(View()) && proposals == old(proposals)
      ensures isLeader ==> reply == None && proposals == old(proposals) + multiset{cmd}
      ensures isLeader ==> View() == old(View()).(fastPath := old(fastPath) + multiset{cmd})
      ensures isLeader == old(isLeader)
    {
      if !isLeader {
        return Some(C.Reply(if conflict then C.CONFLICT else C.ACCEPTED, ""));
      }
      fastPath := fastPath + multiset{cmd};
      proposals := proposals + multiset{cmd};
      return None;
    }

    method ExecuteSync(cmd: Command) returns (result: string)
      modifies KVStore
      ensures KVStore.kv == Execute(old(KVStore.kv), cmd)
      ensures result == SyncResult(old(KVStore.kv), cmd)
    {
      if cmd.op == PUT {
        KVStore.Put(cmd.key, cmd.value);
      } else if cmd.op == DELETE {
        KVStore.Delete(cmd.key);
      } else if cmd.op == GET {
        var v, found := KVStore.Get(cmd.key);
        return if found then v else NOT_FOUND_IN_STATE;
      }
      return "";
    }

    method ExecuteAsync(cmd: Command) returns (result: string)
      modifies KVStore
      ensures KVStore.kv == Execute(old(KVStore.kv), cmd)
      ensures result == AsyncResult(old(KVStore.kv), cmd)
    {
      if cmd.op == PUT {
        KVStore.Put(cmd.key, cmd.value);
      } else if cmd.op == DELETE {
        KVStore.Delete(cmd.key);
      } else if cmd.op == GET {
        var v, _ := KVStore.Get(cmd.key);
        return v;
      }
      return "";
    }

    method FastTurn(cmd: Command) returns (stuck: bool)
      modifies this`commandSet, this`fastPath, KVStore, commandBoard
      ensures WorkerView(stuck) == Work(old(WorkerView(false)), Fast(cmd))
    {
      stuck := false;
      fastPath := fastPath - multiset{cmd};
      if cmd.id !in commandSet {
        commandSet := commandSet + {cmd.id};
        var result := ExecuteSync(cmd);
        var sent := commandBoard.InsertEr(cmd.id, result);
        stuck := !sent;
      }
    }

    method SlowTurn(cmd: Command) returns (stuck: bool)
      requires Valid()
      modifies this`commandSet, this`committing, KVStore, commandBoard, recorder
      ensures Valid()
      ensures WorkerView(stuck) == Work(old(WorkerView(false)), Slow(cmd))
    {
      if !(cmd.id in commandSet && isLeader) {
        commandSet := commandSet + {cmd.id};
        var _ := ExecuteAsync(cmd);
      }
      committing := Some(cmd);
      var sent := commandBoard.NotifyAsr(cmd.id);
      if !sent {
        return true;
      }
      RemoveRecord(cmd);
      return false;
    }

    method RemoveRecord(cmd: Command)
      requires Valid()
      modifies this`commandSet, this`committing, recorder
      ensures Valid()
      ensures View() == RecordRemoved(old(View()), cmd.id)
    {
      recorder.Remove(cmd.id);
      commandSet := commandSet - {cmd.id};
      committing := None;
    }

    /** The worker's loop over what its select receives, until it is stuck. */
    method CmdWorker(script: seq<Received>) returns (stuck: bool)
      requires Valid()
      modifies this`commandSet, this`fastPath, this`committing, KVStore, commandBoard, recorder
      ensures Valid()
      ensures WorkerView(stuck) == WorkAll(old(WorkerView(false)), script)
    {
      hide Work;
      stuck := false;
      var i := 0;
      assert script[..0] == [];
      while i < |script|
        invariant 0 <= i <= |script| && Valid()
        invariant WorkerView(stuck) == WorkAll(old(WorkerView(false)), script[..i])
      {
        WorkAllSnoc(old(WorkerView(false)), script, i);
        if !stuck {
          match script[i] {
            case Fast(cmd) => stuck := FastTurn(cmd);
            case Slow(cmd) => stuck := SlowTurn(cmd);
          }
        }
        i := i + 1;
      }
      assert script[..i] == script;
    }
  }

  // ---------------------------------------------------------------- how often a command executes

  /** The replica's part of a worker turn. */
  function Serve(r: Replica, x: Received): Replica {
    match x
    case Fast(c) => FastTaken(r, c)
    case Slow(c) => RecordRemoved(SlowTaken(r, c), c.id)
  }

  predicate Runs(r: Replica, x: Received) {
    match x
    case Fast(c) => FastRuns(r, c)
    case Slow(c) => SlowRuns(r, c)
  }

  function ServeAll(r: Replica, script: seq<Received>): Replica {
    if script == [] then r else Serve(ServeAll(r, script[..|script| - 1]), script[|script| - 1])
  }

  /** The commands the worker executes, in order. */
  function Executions(r: Replica, script: seq<Received>): seq<Command> {
    if script == [] then []
    else
      var before, x := script[..|script| - 1], script[|script| - 1];
      Executions(r, before) + if Runs(ServeAll(r, before), x) then [x.cmd] else []
  }

  lemma WorkIsServe(w: Worker, x: Received)
    requires !Work(w, x).stuck
    ensures !w.stuck && Work(w, x).r == Serve(w.r, x)
  {
  }

  /** A worker that does not get stuck is the replica's part of its turns. */
  lemma {:induction false} WorkAllIsServeAll(w: Worker, script: seq<Received>)
    requires !WorkAll(w, script).stuck
    ensures WorkAll(w, script).r == ServeAll(w.r, script)
    decreases |script|
  {
    if script == [] {
    } else {
      var before, x := script[..|script| - 1], script[|script| - 1];
      WorkIsServe(WorkAll(w, before), x);
      WorkAllIsServeAll(w, before);
    }
  }

  /** The store is the replay of the executions. */
  lemma {:induction false} StoreIsReplay(r: Replica, script: seq<Received>)
    ensures ServeAll(r, script).store == Replay(r.store, Executions(r, script))
    ensures ServeAll(r, script).isLeader == r.isLeader
    decreases |script|
  {
    if script == [] {
    } else {
      var before, x := script[..|script| - 1], script[|script| - 1];
      StoreIsReplay(r, before);
      ReplayStep(r.store, Executions(r, before), x.cmd);
      assert !Runs(ServeAll(r, before), x) ==> Executions(r, script) == Executions(r, before);
    }
  }

  /** The turns of one id, in order: true for a fast turn, false for a slow one. */
  function Turns(script: seq<Received>, id: ProposeId): seq<bool> {
    if script == [] then []
    else
      var before, x := script[..|script| - 1], script[|script| - 1];
      Turns(before, id) + if x.cmd.id == id then [x.Fast?] else []
  }

  /** How many turns are the first one or follow a slow one. */
  function Restarts(turns: seq<bool>): nat {
    if turns == [] then 0
    else
      var before := turns[..|turns| - 1];
      Restarts(before) + if before == [] || !before[|before| - 1] then 1 else 0
  }

  /** How many commands of s carry the id. */
  function CountId(s: seq<Command>, id: ProposeId): nat {
    if s == [] then 0 else CountId(s[..|s| - 1], id) + if s[|s| - 1].id == id then 1 else 0
  }

  ghost predicate EndsFast(turns: seq<bool>) {
    turns != [] && turns[|turns| - 1]
  }

  /** How often the id has executed, and whether the set holds it. */
  ghost predicate Tally(r: Replica, script: seq<Received>, id: ProposeId) {
    && CountId(Executions(r, script), id) == Restarts(Turns(script, id))
    && (id in ServeAll(r, script).commandSet <==> EndsFast(Turns(script, id)))
  }

  /**
   * At a leader, whatever the two queues deliver and however often: an id executes exactly in the turns that are its
   * first or follow a slow turn of it, and the set holds it exactly when its last turn was a fast one.
   */
  lemma {:induction false} ExecutionsExactly(r: Replica, script: seq<Received>, id: ProposeId)
    requires r.isLeader && id !in r.commandSet
    ensures Tally(r, script, id)
    decreases |script|
  {
    if script == [] {
      ServeNothing(r);
    } else {
      hide *;
      var before, x := script[..|script| - 1], script[|script| - 1];
      assert script == before + [x];
      ExecutionsExactly(r, before, id);
      StoreIsReplay(r, before);
      LastTurnTallies(r, before, x, id);
    }
  }

  lemma LastTurnTallies(r: Replica, before: seq<Received>, x: Received, id: ProposeId)
    requires Tally(r, before, id) && ServeAll(r, before).isLeader
    ensures Tally(r, before + [x], id)
  {
    hide ServeAll, Executions, Serve, Runs, Turns, Restarts, CountId;
    var s := ServeAll(r, before);
    ExecutionsSnoc(r, before, x);
    TurnsSnoc(before, x, id);
    TurnEffect(s, x, id);
    CountSnoc(Executions(r, before), x.cmd, id);
    RestartsSnoc(Turns(before, id), x.Fast?);
    assert Executions(r, before) + [] == Executions(r, before) && Turns(before, id) + [] == Turns(before, id);
  }

  lemma TurnsSnoc(before: seq<Received>, x: Received, id: ProposeId)
    ensures Turns(before + [x], id) == Turns(before, id) + if x.cmd.id == id then [x.Fast?] else []
  {
    assert (before + [x])[..|before|] == before;
  }

  lemma RestartsSnoc(turns: seq<bool>, fast: bool)
    ensures Restarts(turns + [fast]) == Restarts(turns) + if EndsFast(turns) then 0 else 1
  {
    assert (turns + [fast])[..|turns|] == turns;
  }

  lemma CountSnoc(s: seq<Command>, c: Command, id: ProposeId)
    ensures CountId(s + [c], id) == CountId(s, id) + if c.id == id then 1 else 0
  {
    assert (s + [c])[..|s|] == s;
  }

  lemma TurnEffect(s: Replica, x: Received, id: ProposeId)
    requires s.isLeader
    ensures id in Serve(s, x).commandSet <==> if x.cmd.id == id then x.Fast? else id in s.commandSet
    ensures x.cmd.id == id ==> (Runs(s, x) <==> id !in s.commandSet)
  {
  }

  /** An id with one fast and one slow turn at most executes twice exactly when its slow turn comes first. */
  lemma TwiceExactlyWhenSlowFirst(r: Replica, script: seq<Received>, id: ProposeId)
    requires r.isLeader && id !in r.commandSet
    requires |Turns(script, id)| <= 1 || (|Turns(script, id)| == 2 && Turns(script, id)[0] != Turns(script, id)[1])
    ensures CountId(Executions(r, script), id) ==
            if Turns(script, id) == [false, true] then 2 else if Turns(script, id) == [] then 0 else 1
  {
    hide Executions, ServeAll, CountId, Turns;
    ExecutionsExactly(r, script, id);
    ShortRestarts(Turns(script, id));
  }

  lemma ShortRestarts(turns: seq<bool>)
    requires |turns| <= 1 || (|turns| == 2 && turns[0] != turns[1])
    ensures Restarts(turns) == if turns == [false, true] then 2 else if turns == [] then 0 else 1
  {
    if turns != [] {
      RestartsSnoc([], turns[0]);
      assert [] + [turns[0]] == [turns[0]];
      if |turns| == 1 {
        assert turns == [turns[0]];
      } else {
        RestartsSnoc([turns[0]], turns[1]);
        assert turns == [turns[0]] + [turns[1]];
      }
    }
  }

  lemma ExecutionsSnoc(r: Replica, before: seq<Received>, x: Received)
    ensures ServeAll(r, before + [x]) == Serve(ServeAll(r, before), x)
    ensures Executions(r, before + [x]) == Executions(r, before) + if Runs(ServeAll(r, before), x) then [x.cmd] else []
  {
    var script := before + [x];
    assert script[..|before|] == before && script[|before|] == x;
  }

  /** The worker's script when only the slow path delivers. */
  function SlowOnly(log: seq<Command>): seq<Received> {
    if log == [] then [] else SlowOnly(log[..|log| - 1]) + [Slow(log[|log| - 1])]
  }

  lemma FollowerTurn(s: Replica, c: Command)
    requires !s.isLeader
    ensures Runs(s, Slow(c)) && !Serve(s, Slow(c)).isLeader
    ensures Serve(s, Slow(c)).commandSet == s.commandSet - {c.id}
  {
  }

  function Ids(log: seq<Command>): set<ProposeId> {
    set c | c in log :: c.id
  }

  lemma IdsSnoc(log: seq<Command>, c: Command)
    ensures Ids(log + [c]) == Ids(log) + {c.id}
  {
    assert forall d :: d in log + [c] <==> d in log || d == c;
  }

  lemma {:induction false} FollowerExecutes(r: Replica, log: seq<Command>)
    requires !r.isLeader
    ensures Executions(r, SlowOnly(log)) == log
    ensures ServeAll(r, SlowOnly(log)).commandSet == r.commandSet - Ids(log) && !ServeAll(r, SlowOnly(log)).isLeader
    decreases |log|
  {
    hide Executions, ServeAll, Serve, Runs;
    if log == [] {
      ServeNothing(r);
    } else {
      var log', c := log[..|log| - 1], log[|log| - 1];
      FollowerExecutes(r, log');
      ExecutionsSnoc(r, SlowOnly(log'), Slow(c));
      FollowerTurn(ServeAll(r, SlowOnly(log')), c);
      assert log == log' + [c];
      IdsSnoc(log', c);
    }
  }

  lemma ServeNothing(r: Replica)
    ensures Executions(r, []) == [] && ServeAll(r, []) == r
  {
  }

  /**
   * A replica that does not lead executes each log entry once, in log order, whatever its set holds, and takes the
   * entries' ids out of the set.
   */
  lemma FollowerServesLog(r: Replica, log: seq<Command>)
    requires !r.isLeader
    ensures Executions(r, SlowOnly(log)) == log
    ensures ServeAll(r, SlowOnly(log)).store == Replay(r.store, log)
    ensures ServeAll(r, SlowOnly(log)).commandSet == r.commandSet - Ids(log)
  {
    hide *;
    FollowerExecutes(r, log);
    StoreIsReplay(r, SlowOnly(log));
  }

  // ---------------------------------------------------------------- why the hypotheses are needed

  function Fresh(isLeader: bool): Replica {
    Replica(isLeader, map[], {}, map[], multiset{}, None)
  }

  /** Each queue delivers an id once, and an id names one command. */
  ghost predicate OncePerQueue(script: seq<Received>) {
    forall i, j :: 0 <= i < j < |script| && script[i].cmd.id == script[j].cmd.id ==>
      script[i].cmd == script[j].cmd && (script[i].Fast? <==> script[j].Slow?)
  }

  /** After this script the leader's store is not the log's. */
  ghost predicate Diverges(script: seq<Received>, log: seq<Command>) {
    OncePerQueue(script) && ServeAll(Fresh(true), script).store != ServeAll(Fresh(false), SlowOnly(log)).store
  }

  /** A leader that meets a command on the slow path first executes it again later, over a newer write. */
  lemma SlowFirstDiverges(a: Command, b: Command)
    requires a.op == PUT && b.op == PUT && a.key == b.key && a.value != b.value && a.id != b.id
    ensures Diverges([Slow(a)] + [Fast(b)] + [Fast(a)] + [Slow(b)], [a, b])
  {
    var x0, x1, x2, x3 := Slow(a), Fast(b), Fast(a), Slow(b);
    var r2 := Serve(Serve(Fresh(true), x0), x1);
    assert r2.commandSet == {b.id};
    assert FourTurns(Fresh(true), x0, x1, x2, x3).store[a.key] == a.value;
    FirstWins(a, b, x0, x1, x2, x3);
  }

  /** Two conflicting commands queued together can reach the leader's store and the log in opposite orders. */
  lemma LeaderConflictDiverges(a: Command, b: Command)
    requires a.op == PUT && b.op == PUT && a.key == b.key && a.value != b.value && a.id != b.id
    ensures Diverges([Fast(b)] + [Fast(a)] + [Slow(a)] + [Slow(b)], [a, b])
  {
    var x0, x1, x2, x3 := Fast(b), Fast(a), Slow(a), Slow(b);
    var r2 := Serve(Serve(Fresh(true), x0), x1);
    assert r2.commandSet == {b.id, a.id};
    assert FourTurns(Fresh(true), x0, x1, x2, x3).store[a.key] == a.value;
    FirstWins(a, b, x0, x1, x2, x3);
  }

  lemma FirstWins(a: Command, b: Command, x0: Received, x1: Received, x2: Received, x3: Received)
    requires b.op == PUT && a.key == b.key && a.value != b.value
    requires Lookup(FourTurns(Fresh(true), x0, x1, x2, x3).store, a.key) == Some(a.value)
    requires OncePerQueue([x0] + [x1] + [x2] + [x3])
    ensures Diverges([x0] + [x1] + [x2] + [x3], [a, b])
  {
    ServeFour(Fresh(true), x0, x1, x2, x3);
    FollowerServesLog(Fresh(false), [a, b]);
    TwoWrites(a, b);
    hide ServeAll, FourTurns, Replay, SlowOnly, Executions, OncePerQueue;
  }

  function FourTurns(r: Replica, x0: Received, x1: Received, x2: Received, x3: Received): Replica {
    Serve(Serve(Serve(Serve(r, x0), x1), x2), x3)
  }

  lemma ServeFour(r: Replica, x0: Received, x1: Received, x2: Received, x3: Received)
    ensures ServeAll(r, [x0] + [x1] + [x2] + [x3]) == FourTurns(r, x0, x1, x2, x3)
  {
    hide Serve;
    assert [] + [x0] == [x0];
    ExecutionsSnoc(r, [], x0);
    ExecutionsSnoc(r, [x0], x1);
    ExecutionsSnoc(r, [x0] + [x1], x2);
    ExecutionsSnoc(r, [x0] + [x1] + [x2], x3);
  }

  lemma TwoWrites(a: Command, b: Command)
    requires b.op == PUT
    ensures Lookup(Replay(map[], [a, b]), b.key) == Some(b.value)
  {
    assert LastWrite([a, b], b.key) == Some(b);
    ReplayAtKey(map[], [a, b], b.key);
  }
}
