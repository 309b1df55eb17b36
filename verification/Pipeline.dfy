/** From committed entries to a follower's store: delivery, the commit reader and the worker in a row. */
module Pipeline {
  import opened Commands
  import opened Traces
  import R = Replica
  import D = Delivery

  lemma SlowTurnSent(w: R.Worker, c: Command)
    requires !w.stuck && w.tables.asrNotifiers == map[]
    ensures !R.Work(w, R.Slow(c)).stuck && R.Work(w, R.Slow(c)).tables.asrNotifiers == map[]
  {
  }

  /** With nobody waiting for a sync, the slow path alone never blocks the worker. */
  lemma {:induction false} FollowerNeverStuck(w: R.Worker, log: seq<Command>)
    requires !w.stuck && w.tables.asrNotifiers == map[]
    ensures !R.WorkAll(w, R.SlowOnly(log)).stuck && R.WorkAll(w, R.SlowOnly(log)).tables.asrNotifiers == map[]
    decreases |log|
  {
    if log == [] {
    } else {
      var log', c := log[..|log| - 1], log[|log| - 1];
      FollowerNeverStuck(w, log');
      SlowTurnSent(R.WorkAll(w, R.SlowOnly(log')), c);
      assert R.SlowOnly(log)[..|R.SlowOnly(log')|] == R.SlowOnly(log');
    }
  }

  lemma NumberedReads(decode: string -> Option<Command>, commits: seq<D.Commit>, read: nat)
    requires D.Numbered(commits) && read <= |commits|
    requires forall c :: 0 <= c < read ==> D.Readable(decode, commits[c])
    requires read < |commits| ==> !D.Readable(decode, commits[read])
    ensures D.ReadUntil(decode, commits, read)
  {
  }

  /**
   * A fresh follower fed by any run of gap-free, possibly overlapping batches ends with the fold over the commands of
   * the log it reached, up to the first datum that does not decode, which ends its process.
   */
  method ReplicateToFollower(
    id: uint64, log: seq<D.Entry>, batches: seq<(nat, nat)>, decode: string -> Option<Command>)
    returns (store: Store, fatal: bool)
    requires D.IsLog(log) && D.NoGaps(0, batches, |log|)
    requires forall k :: 0 <= k < |log| ==> !D.RemovesSelf(log[k], id)
    ensures D.Reached(0, batches) <= |log|
    ensures store == Replay(map[], D.Decoded(decode, D.Payloads(log[..D.Reached(0, batches)])))
    ensures fatal <==> !D.AllDecode(decode, D.Payloads(log[..D.Reached(0, batches)]))
  {
    var node := new D.CurpNode<()>(id, _ => ());
    assert node.UpToDate(log) by {
      assert log[..0] == [];
    }
    node.ServeBatches(log, batches);
    var commands, closed, read, ended := D.ReadCommits(decode, node.commits, false);
    NumberedReads(decode, node.commits, read);
    D.ReaderDelivers(decode, node.commits, read);
    hide D.Decoded, D.AllDecode, D.Published, D.Payloads, D.Numbered, D.ReadUntil, D.Channels;
    var machine := new R.StateMachine();
    ghost var start := machine.WorkerView(false);
    var script := R.SlowOnly(commands);
    var stuck := machine.CmdWorker(script);
    FollowerNeverStuck(start, commands);
    R.WorkAllIsServeAll(start, script);
    R.FollowerServesLog(start.r, commands);
    store, fatal := machine.KVStore.kv, ended;
  }
}
