/** What the command worker leaves on the board, and when it is stuck, whatever its two queues deliver. */
module Worker {
  import opened Commands
  import opened Traces
  import opened Replica
  import B = Board

  /** The last turn of the script that is a fast turn of id and executes. */
  function LastFast(r: Replica, script: seq<Received>, id: ProposeId): Option<nat> {
    if script == [] then None
    else
      var before, x := script[..|script| - 1], script[|script| - 1];
      if x.Fast? && x.cmd.id == id && Runs(ServeAll(r, before), x) then Some(|before|) else LastFast(r, before, id)
  }

  /** Turn k is a fast turn of id that executes. */
  predicate FastRunOf(r: Replica, script: seq<Received>, k: nat, id: ProposeId)
    requires k < |script|
  {
    script[k].Fast? && script[k].cmd.id == id && Runs(ServeAll(r, script[..k]), script[k])
  }

  ghost predicate IsLastFast(r: Replica, script: seq<Received>, id: ProposeId, last: Option<nat>) {
    match last
    case None => forall k :: 0 <= k < |script| ==> !FastRunOf(r, script, k, id)
    case Some(k) =>
      && k < |script| && FastRunOf(r, script, k, id)
      && forall m :: k < m < |script| ==> !FastRunOf(r, script, m, id)
  }

  lemma FastRunSnoc(r: Replica, before: seq<Received>, x: Received, id: ProposeId)
    ensures forall k :: 0 <= k < |before| ==> (FastRunOf(r, before + [x], k, id) <==> FastRunOf(r, before, k, id))
    ensures FastRunOf(r, before + [x], |before|, id) <==> x.Fast? && x.cmd.id == id && Runs(ServeAll(r, before), x)
  {
    hide ServeAll, Runs;
    assert (before + [x])[..|before|] == before;
    assert forall k :: 0 <= k < |before| ==> (before + [x])[..k] == before[..k];
  }

  lemma {:induction false} LastFastIsLast(r: Replica, script: seq<Received>, id: ProposeId)
    ensures IsLastFast(r, script, id, LastFast(r, script, id))
    decreases |script|
  {
    if script == [] {
    } else {
      var before, x := script[..|script| - 1], script[|script| - 1];
      assert script == before + [x];
      LastFastIsLast(r, before, id);
      FastRunSnoc(r, before, x, id);
      hide ServeAll, Runs, FastRunOf;
    }
  }

  predicate SlowTurnIn(script: seq<Received>, id: ProposeId) {
    exists k :: 0 <= k < |script| && script[k].Slow? && script[k].cmd.id == id
  }

  lemma SlowTurnSnoc(before: seq<Received>, x: Received, id: ProposeId)
    ensures SlowTurnIn(before + [x], id) <==> SlowTurnIn(before, id) || (x.Slow? && x.cmd.id == id)
  {
    var script := before + [x];
    assert script[|before|] == x && forall k :: 0 <= k < |before| ==> script[k] == before[k];
  }

  /** What executing the k-th command of the script gives, in the order in which the script executes. */
  function ResultOfTurn(r: Replica, script: seq<Received>, k: nat): string
    requires k < |script|
  {
    SyncResult(Replay(r.store, Executions(r, script[..k])), script[k].cmd)
  }

  // ---------------------------------------------------------------- one turn

  lemma TurnInserts(w: Worker, x: Received, id: ProposeId)
    requires !Work(w, x).stuck
    ensures var t, t' := w.tables, Work(w, x).tables;
            if x.Fast? && x.cmd.id == id && Runs(w.r, x) then
              && id in t'.erBuffer && t'.erBuffer[id] == SyncResult(w.r.store, x.cmd)
              && (id in t'.erNotifiers <==> id in t.erNotifiers)
              && (id in t.erNotifiers ==> t'.erNotifiers[id] == B.Full(SyncResult(w.r.store, x.cmd)))
            else SameAt(t, t', id)
  {
  }

  /** id's result is stored and in flight as before. */
  predicate SameAt(t: B.Tables, t': B.Tables, id: ProposeId) {
    && (id in t'.erBuffer <==> id in t.erBuffer) && (id in t.erBuffer ==> t'.erBuffer[id] == t.erBuffer[id])
    && (id in t'.erNotifiers <==> id in t.erNotifiers)
    && (id in t.erNotifiers ==> t'.erNotifiers[id] == t.erNotifiers[id])
  }

  lemma TurnNotifies(w: Worker, x: Received, id: ProposeId)
    requires !Work(w, x).stuck
    ensures var t, t', slow := w.tables, Work(w, x).tables, x.Slow? && x.cmd.id == id;
            && (id in t'.asrBuffer <==> id in t.asrBuffer || slow)
            && (id in t'.asrNotifiers <==> id in t.asrNotifiers)
            && (id in t.asrNotifiers ==> t'.asrNotifiers[id] == if slow then B.Full(()) else t.asrNotifiers[id])
  {
  }

  /**
   * A turn is stuck exactly when it makes a send to a channel without room. Its result or notification is stored by
   * then, and a slow turn has not removed the record.
   */
  lemma TurnStuckExactly(w: Worker, x: Received)
    requires !w.stuck
    ensures Work(w, x).stuck <==>
            if x.Fast? then Runs(w.r, x) && !B.ErRoom(w.tables, x.cmd.id) else !B.AsrRoom(w.tables, x.cmd.id)
    ensures Work(w, x).stuck ==>
              && Work(w, x).r.store == (if Runs(w.r, x) then Execute(w.r.store, x.cmd) else w.r.store)
              && Work(w, x).r.commandSet == w.r.commandSet + {x.cmd.id}
    ensures Work(w, x).stuck && x.Fast? ==>
              var t := Work(w, x).tables; x.cmd.id in t.erBuffer && t.erBuffer[x.cmd.id] == SyncResult(w.r.store, x.cmd)
    ensures Work(w, x).stuck && x.Slow? ==>
              Work(w, x).r.records == w.r.records && x.cmd.id in Work(w, x).tables.asrBuffer
  {
  }

  // ---------------------------------------------------------------- any script

  /** id's result as the script leaves it: that of the last fast turn of id that executed. */
  ghost predicate InsertsOf(w: Worker, script: seq<Received>, id: ProposeId) {
    var t, t' := w.tables, WorkAll(w, script).tables;
    match LastFast(w.r, script, id)
    case None => SameAt(t, t', id)
    case Some(k) =>
      && k < |script| && id in t'.erBuffer && t'.erBuffer[id] == ResultOfTurn(w.r, script, k)
      && (id in t'.erNotifiers <==> id in t.erNotifiers)
      && (id in t.erNotifiers ==> t'.erNotifiers[id] == B.Full(ResultOfTurn(w.r, script, k)))
  }

  ghost predicate NotifiesOf(w: Worker, script: seq<Received>, id: ProposeId) {
    var t, t' := w.tables, WorkAll(w, script).tables;
    && (id in t'.asrBuffer <==> id in t.asrBuffer || SlowTurnIn(script, id))
    && (id in t'.asrNotifiers <==> id in t.asrNotifiers)
    && (id in t.asrNotifiers ==>
          t'.asrNotifiers[id] == if SlowTurnIn(script, id) then B.Full(()) else t.asrNotifiers[id])
  }

  lemma WorkSnoc(w: Worker, before: seq<Received>, x: Received)
    ensures WorkAll(w, before + [x]) == Work(WorkAll(w, before), x)
    ensures !WorkAll(w, before + [x]).stuck ==> !WorkAll(w, before).stuck
  {
    assert (before + [x])[..|before|] == before;
  }

  lemma LastFastSnoc(r: Replica, before: seq<Received>, x: Received, id: ProposeId)
    ensures LastFast(r, before + [x], id) ==
            if x.Fast? && x.cmd.id == id && Runs(ServeAll(r, before), x) then Some(|before|)
            else LastFast(r, before, id)
    ensures ResultOfTurn(r, before + [x], |before|) == SyncResult(Replay(r.store, Executions(r, before)), x.cmd)
    ensures forall k :: 0 <= k < |before| ==> ResultOfTurn(r, before + [x], k) == ResultOfTurn(r, before, k)
  {
    hide Replay, Executions, ServeAll, SyncResult, Runs;
    var script := before + [x];
    assert script[..|before|] == before;
    assert forall k :: 0 <= k < |before| ==> script[..k] == before[..k] && script[k] == before[k];
  }

  lemma InsertsSnoc(w: Worker, before: seq<Received>, x: Received, id: ProposeId)
    requires !WorkAll(w, before + [x]).stuck && InsertsOf(w, before, id)
    ensures InsertsOf(w, before + [x], id)
  {
    hide Work, WorkAll, ServeAll, Runs, Executions, Replay, LastFast, SyncResult, ResultOfTurn;
    WorkSnoc(w, before, x);
    WorkAllIsServeAll(w, before);
    StoreIsReplay(w.r, before);
    LastFastSnoc(w.r, before, x, id);
    TurnInserts(WorkAll(w, before), x, id);
  }

  lemma NotifiesSnoc(w: Worker, before: seq<Received>, x: Received, id: ProposeId)
    requires !WorkAll(w, before + [x]).stuck && NotifiesOf(w, before, id)
    ensures NotifiesOf(w, before + [x], id)
  {
    hide Work, WorkAll, SlowTurnIn;
    WorkSnoc(w, before, x);
    SlowTurnSnoc(before, x, id);
    TurnNotifies(WorkAll(w, before), x, id);
  }

  /**
   * A worker that is not stuck leaves, for every id, the result of the last fast turn of it that executed, stored and,
   * if somebody has made a channel for it, sent; it has notified exactly the ids with a slow turn.
   */
  lemma {:induction false} WorkOnBoard(w: Worker, script: seq<Received>, id: ProposeId)
    requires !WorkAll(w, script).stuck
    ensures InsertsOf(w, script, id) && NotifiesOf(w, script, id)
    decreases |script|
  {
    if script == [] {
    } else {
      var before, x := script[..|script| - 1], script[|script| - 1];
      assert script == before + [x];
      hide *;
      WorkSnoc(w, before, x);
      WorkOnBoard(w, before, id);
      InsertsSnoc(w, before, x, id);
      NotifiesSnoc(w, before, x, id);
    }
  }

  /** After the script so far, x makes a send to a channel that was full or has been sent to. */
  ghost predicate Blocks(w: Worker, before: seq<Received>, x: Received) {
    var t, id := w.tables, x.cmd.id;
    if x.Fast? then
      && Runs(ServeAll(w.r, before), x) && id in t.erNotifiers
      && (t.erNotifiers[id].Full? || LastFast(w.r, before, id).Some?)
    else id in t.asrNotifiers && (t.asrNotifiers[id].Full? || SlowTurnIn(before, id))
  }

  lemma TurnBlocks(w: Worker, before: seq<Received>, x: Received)
    requires !w.stuck && !WorkAll(w, before).stuck
    ensures WorkAll(w, before + [x]).stuck <==> Blocks(w, before, x)
  {
    hide Work, WorkAll, ServeAll, Runs, LastFast, SlowTurnIn, ResultOfTurn;
    WorkSnoc(w, before, x);
    WorkOnBoard(w, before, x.cmd.id);
    WorkAllIsServeAll(w, before);
    TurnStuckExactly(WorkAll(w, before), x);
  }

  /** With nobody receiving, a worker gets stuck exactly when some turn sends to a channel without room. */
  lemma {:induction false} StuckExactly(w: Worker, script: seq<Received>)
    requires !w.stuck
    ensures WorkAll(w, script).stuck <==> exists k :: 0 <= k < |script| && Blocks(w, script[..k], script[k])
    decreases |script|
  {
    if script == [] {
    } else {
      var before, x := script[..|script| - 1], script[|script| - 1];
      assert script == before + [x];
      hide Work, WorkAll, Blocks;
      StuckExactly(w, before);
      WorkSnoc(w, before, x);
      assert forall k :: 0 <= k < |before| ==> script[..k] == before[..k] && script[k] == before[k];
      assert script[..|before|] == before && script[|before|] == x;
      if WorkAll(w, before).stuck {
        StuckStays(w, before, x);
        var k :| 0 <= k < |before| && Blocks(w, before[..k], before[k]);
        assert Blocks(w, script[..k], script[k]);
      } else {
        TurnBlocks(w, before, x);
      }
    }
  }

  lemma StuckStays(w: Worker, before: seq<Received>, x: Received)
    requires WorkAll(w, before).stuck
    ensures WorkAll(w, before + [x]).stuck
  {
    WorkSnoc(w, before, x);
  }
}
