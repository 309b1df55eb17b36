/** When an operation returns after one round, and that it needs no commit. */
module FastPath {
  import opened Commands
  import opened Traces
  import opened Witness
  import opened Node
  import opened Cluster
  import opened Guarantees
  import opened Contents
  import opened Progress
  import opened Completion
  import opened Reachable
  import B = Board
  import C = Client

  // ---------------------------------------------------------------- what a reply and a vote tell

  /** A server's reply is its verdict, in every state of every run. */
  lemma ReplyTellsVerdict(run: Run, k: nat, id: ProposeId, i: nat)
    requires IsRun(run) && k < |run.states|
    requires id in run.states[k].ops && i in run.states[k].ops[id].replies
    ensures i < |run.states[k].nodes| && id in run.states[k].nodes[i].verdicts
    ensures run.states[k].ops[id].replies[i].status == C.ACCEPTED <==> run.states[k].nodes[i].verdicts[id].Accepted?
  {
    hide IsRun, NodesInv, LogInv, ReturnSound, RoundSound;
    AlwaysInv(run, k);
    RunHasLeader(run, k);
    assert ReplySound(run.states[k], id, i, run.states[k].ops[id].replies[i]);
  }

  /** An operation is in its slow round, or back from it, only if some server found its command in conflict. */
  lemma SlowRoundNeedsConflict(run: Run, k: nat, id: ProposeId)
    requires IsRun(run) && k < |run.states| && id in run.states[k].ops && InSlowRound(run.states[k].ops[id].phase)
    ensures exists i :: i in run.states[k].ops[id].replies && i < |run.states[k].nodes|
                        && id in run.states[k].nodes[i].verdicts && run.states[k].nodes[i].verdicts[id] == Conflicted
  {
    var s := run.states[k];
    hide IsRun;
    AlwaysInv(run, k);
    assert WasRefused(s.ops[id]) by {
      hide NodesInv, LogInv, ReplySound, ReturnSound;
      assert RoundSound(s.leader, s.ops[id]);
    }
    hide ClusterInv;
    var i :| i in s.ops[id].replies && s.ops[id].replies[i].status != C.ACCEPTED;
    ReplyTellsVerdict(run, k, id, i);
  }

  /** How a vote ends its operation, by the replies it was given. */
  lemma VoteEnds(s: Cluster, id: ProposeId, peers: seq<nat>, o: C.Outcome)
    requires s.leader < |s.nodes| && Enabled(s, Vote(id, peers, o))
    ensures id in Apply(s, Vote(id, peers, o)).ops
    ensures var op, phase := s.ops[id], Apply(s, Vote(id, peers, o)).ops[id].phase;
            var rs, q := Arrivals(op, peers), C.SuperQuorum(|s.nodes|);
            if exists k :: 0 <= k < q && k < |rs| && rs[k].reply.status != C.ACCEPTED then phase == Syncing
            else if |rs| < q || s.leader !in C.Peers(rs, q) then phase == Failed
            else s.leader in op.replies && phase == Returned(op.replies[s.leader].content, ByVote(C.Peers(rs, q)))
  {
    var rs, q := Arrivals(s.ops[id], peers), C.SuperQuorum(|s.nodes|);
    match o
    case Refused(r) =>
      var k :| 0 <= k < q && C.RefusedAt(rs, k, r);
      assert rs[k].reply.status != C.ACCEPTED;
    case Quorum(slot) =>
      if slot.Some? {
        var k :| 0 <= k < q && rs[k] == C.Arrival(s.leader, slot.value);
        assert rs[k].peer in C.Peers(rs, q);
      }
    case TimedOut =>
  }

  // ---------------------------------------------------------------- a quorum that accepts now

  /** votes is a super-quorum with the leader in it. */
  ghost predicate IsQuorum(s: Cluster, votes: set<nat>) {
    votes <= C.UpTo(|s.nodes|) && |votes| >= C.SuperQuorum(|s.nodes|) && s.leader in votes
  }

  /** The server has accepted c, or would if the proposal came now. */
  ghost predicate AcceptsNow(n: Node, c: Command) {
    if c.id in n.verdicts then n.verdicts[c.id].Accepted? else !ConflictsWith(n.r.records, c)
  }

  /** Nothing was committed, id is still voting, and nothing that speaks for it was taken back. */
  ghost predicate Nearer(s: Cluster, s': Cluster, id: ProposeId) {
    && IsVoting(s, id) && IsVoting(s', id) && s'.leader == s.leader && |s'.nodes| == |s.nodes|
    && s'.log == s.log && s'.issued == s.issued && s.ops[id].replies.Keys <= s'.ops[id].replies.Keys
    && forall i :: 0 <= i < |s.nodes| && Agrees(s.nodes[i], id) ==> Agrees(s'.nodes[i], id)
  }

  ghost predicate Nears(run: Run, later: Run, id: ProposeId) {
    Continues(run, later) && Nearer(Last(run), Last(later), id)
  }

  lemma NearsTransitive(a: Run, b: Run, c: Run, id: ProposeId)
    requires Nears(a, b, id) && Nears(b, c, id)
    ensures Nears(a, c, id)
  {
    hide IsRun, FastBeforeSlow;
    ContinuesTransitive(a, b, c);
  }

  lemma AfterNears(run: Run, later: Run, id: ProposeId)
    requires Nears(run, later, id)
    ensures IsRun(run) && IsRun(later) && |run.states| > 0 && |later.states| > 0
    ensures Nearer(Last(run), Last(later), id) && IsVoting(Last(later), id) && Ready(Last(later))
  {
    LastReady(later);
    hide IsRun, FastBeforeSlow, Ready;
  }

  lemma StayNear(run: Run, id: ProposeId)
    requires IsRun(run) && |run.states| > 0 && IsVoting(Last(run), id)
    ensures Nears(run, run, id)
  {
    hide IsRun, FastBeforeSlow;
  }

  lemma StepNearer(s: Cluster, t: Step, id: ProposeId)
    requires IsVoting(s, id) && Enabled(s, t) && (t.At? || (t.Answer? && t.id == id))
    ensures Nearer(s, Apply(s, t), id)
  {
    NodesGrow(s, t);
    hide Act, CanAct, MayWait, ReplyOf, B.Grows;
  }

  lemma TakeNearer(run: Run, t: Step, id: ProposeId) returns (later: Run)
    requires IsRun(run) && |run.states| > 0 && IsVoting(Last(run), id) && Enabled(Last(run), t)
    requires t.At? || (t.Answer? && t.id == id)
    ensures Nears(run, later, id) && |later.states| > 0 && Last(later) == Apply(Last(run), t)
  {
    hide Enabled, Apply, IsRun, FastBeforeSlow, Nearer;
    later := Take(run, t);
    StepNearer(Last(run), t, id);
  }

  /** The servers of votes accept now, the first m of them have. */
  ghost predicate AcceptedUpTo(s: Cluster, m: nat, id: ProposeId, votes: set<nat>) {
    id in s.issued && forall i :: 0 <= i < |s.nodes| && i in votes ==>
      AcceptsNow(s.nodes[i], s.issued[id]) && (i < m ==> Agrees(s.nodes[i], id))
  }

  lemma EnterAccepts(s: Cluster, i: nat, id: ProposeId, votes: set<nat>)
    requires s.leader < |s.nodes| && i < |s.nodes| && i in votes && AcceptedUpTo(s, i, id, votes)
    requires s.issued[id].id == id && id !in s.nodes[i].verdicts
    ensures var t := At(i, Enter(s.issued[id])); Enabled(s, t) && AcceptedUpTo(Apply(s, t), i + 1, id, votes)
  {
  }

  lemma NoNeedToEnter(s: Cluster, i: nat, id: ProposeId, votes: set<nat>)
    requires AcceptedUpTo(s, i, id, votes) && id in s.issued && s.issued[id].id == id
    requires i < |s.nodes| && (i !in votes || id in s.nodes[i].verdicts)
    ensures AcceptedUpTo(s, i + 1, id, votes)
  {
  }

  /** Each server of the quorum can give its verdict, and accepts. */
  lemma {:induction false} VerdictsArrive(run: Run, m: nat, id: ProposeId, votes: set<nat>) returns (later: Run)
    requires IsRun(run) && |run.states| > 0 && IsVoting(Last(run), id) && m <= |Last(run).nodes|
    requires AcceptedUpTo(Last(run), 0, id, votes)
    ensures Nears(run, later, id) && AcceptedUpTo(Last(later), m, id, votes)
    decreases m
  {
    hide IsRun, FastBeforeSlow, Ready, AcceptedUpTo, Nears, Enabled, Apply;
    if m == 0 {
      later := run;
      StayNear(run, id);
    } else {
      var i := m - 1;
      later := VerdictsArrive(run, i, id, votes);
      AfterNears(run, later, id);
      OpIsKnown(Last(later), id);
      if i in votes && id !in Last(later).nodes[i].verdicts {
        EnterAccepts(Last(later), i, id, votes);
        var next := TakeNearer(later, At(i, Enter(Last(later).issued[id])), id);
        NearsTransitive(run, later, next, id);
        later := next;
      } else {
        NoNeedToEnter(Last(later), i, id, votes);
      }
    }
  }

  // ---------------------------------------------------------------- the leader's answer, without a commit

  /** The leader has queued id, or has done so and finished the slow turn it was in. */
  ghost predicate ReadyForFast(s: Cluster, id: ProposeId) {
    s.leader < |s.nodes| && id in Leader(s).queued && Leader(s).r.committing.None?
  }

  lemma QueuedIsReady(run: Run, id: ProposeId) returns (later: Run)
    requires IsRun(run) && |run.states| > 0 && IsVoting(Last(run), id) && id in Leader(Last(run)).verdicts
    ensures Nears(run, later, id) && ReadyForFast(Last(later), id)
  {
    LastReady(run);
    hide IsRun, FastBeforeSlow, Ready, Nears, Enabled, Apply;
    later := run;
    StayNear(run, id);
    OpIsKnown(Last(run), id);
    if id !in Leader(Last(run)).queued {
      QueueEnabled(Last(run), id);
      later := TakeNearer(run, At(Last(run).leader, Queue(Last(run).issued[id])), id);
    }
    AfterNears(run, later, id);
    if Leader(Last(later)).r.committing.Some? {
      var s := Last(later);
      AfterRemove(s, s.leader);
      RemoveKeepsQueued(s, id);
      var next := TakeNearer(later, At(s.leader, RemoveRecord), id);
      NearsTransitive(run, later, next, id);
      later := next;
    }
  }

  lemma RemoveKeepsQueued(s: Cluster, id: ProposeId)
    requires s.leader < |s.nodes| && id in Leader(s).queued && Leader(s).r.committing.Some?
    ensures Enabled(s, At(s.leader, RemoveRecord)) && ReadyForFast(Apply(s, At(s.leader, RemoveRecord)), id)
  {
  }

  /** A queued command without a result can have its fast turn. */
  lemma FastTurnIsNear(s: Cluster, id: ProposeId)
    requires Ready(s) && ReadyForFast(s, id) && !IsInserted(s, id)
    ensures id in s.issued
    ensures var t := At(s.leader, TakeFast(s.issued[id])); Enabled(s, t) && IsInserted(Apply(s, t), id)
  {
    hide Tracked, NodesInv, LogInv, ClientsInv, ResultsTrue, SetHolds, ExecutedIsKnown, B.SyncCalls;
    LeaderLocal(s);
    var c := s.issued[id];
    FastEnabled(s, s.leader, c);
    assert c.id == id;
    FastTurnInserts(s, c);
  }

  lemma FastTurnInserts(s: Cluster, c: Command)
    requires s.leader < |s.nodes| && SetSeen(Leader(s)) && PoolInv(Leader(s), s.issued)
    requires Enabled(s, At(s.leader, TakeFast(c)))
    ensures IsInserted(Apply(s, At(s.leader, TakeFast(c))), c.id)
  {
    InsertedMoves(Leader(s), s.issued, TakeFast(c));
    hide Act, CanAct;
  }

  lemma ResultInserted(run: Run, id: ProposeId) returns (later: Run)
    requires IsRun(run) && |run.states| > 0 && IsVoting(Last(run), id) && ReadyForFast(Last(run), id)
    ensures Nears(run, later, id) && IsInserted(Last(later), id)
  {
    LastReady(run);
    hide IsRun, FastBeforeSlow, Ready, Nears, Enabled, Apply, ReadyForFast, IsInserted;
    later := run;
    StayNear(run, id);
    if !IsInserted(Last(run), id) {
      FastTurnIsNear(Last(run), id);
      later := TakeNearer(run, At(Last(run).leader, TakeFast(Last(run).issued[id])), id);
    }
  }

  lemma ResultReceived(run: Run, id: ProposeId) returns (later: Run)
    requires IsRun(run) && |run.states| > 0 && IsVoting(Last(run), id) && IsInserted(Last(run), id)
    ensures Nears(run, later, id) && HasResult(Last(later), id)
  {
    hide *;
    LastReady(run);
    StayNear(run, id);
    later := run;
    if !HasResult(Last(run), id) {
      ResultIsNear(Last(run), id);
      var e := NextForResult(Leader(Last(run)).board, id);
      ResultMoves(Last(run), id, e);
      later := TakeNearer(run, At(Last(run).leader, Wait(e)), id);
    }
  }

  /** A leader that has seen the proposal can answer it with nothing more committed. */
  lemma LeaderAnswers(run: Run, id: ProposeId) returns (later: Run)
    requires IsRun(run) && |run.states| > 0 && IsVoting(Last(run), id) && id in Leader(Last(run)).verdicts
    ensures Nears(run, later, id) && HasResult(Last(later), id)
  {
    hide *;
    var ready := QueuedIsReady(run, id);
    AfterNears(run, ready, id);
    var inserted := ResultInserted(ready, id);
    AfterNears(ready, inserted, id);
    later := ResultReceived(inserted, id);
    NearsTransitive(run, ready, inserted, id);
    NearsTransitive(run, inserted, later, id);
  }

  // ---------------------------------------------------------------- the vote

  /** The servers of votes have accepted id, the leader's result is there, and the first m of them have replied. */
  ghost predicate RepliedUpTo(s: Cluster, m: nat, id: ProposeId, votes: set<nat>) {
    && HasResult(s, id) && id in s.ops
    && forall i :: 0 <= i < |s.nodes| && i in votes ==> Agrees(s.nodes[i], id) && (i < m ==> HasReply(s, i, id))
  }

  lemma ReplyAccepts(s: Cluster, i: nat, id: ProposeId, votes: set<nat>)
    requires IsVoting(s, id) && i < |s.nodes| && i in votes && RepliedUpTo(s, i, id, votes) && !HasReply(s, i, id)
    ensures Enabled(s, Answer(i, id)) && RepliedUpTo(Apply(s, Answer(i, id)), i + 1, id, votes)
  {
    hide ReplyOf;
  }

  lemma {:induction false} AnswersArrive(run: Run, m: nat, id: ProposeId, votes: set<nat>) returns (later: Run)
    requires IsRun(run) && |run.states| > 0 && IsVoting(Last(run), id) && m <= |Last(run).nodes|
    requires RepliedUpTo(Last(run), 0, id, votes)
    ensures Nears(run, later, id) && RepliedUpTo(Last(later), m, id, votes)
    decreases m
  {
    hide IsRun, FastBeforeSlow, Ready, Nears, Enabled, Apply, HasResult, Agrees;
    if m == 0 {
      later := run;
      StayNear(run, id);
    } else {
      var i := m - 1;
      later := AnswersArrive(run, i, id, votes);
      AfterNears(run, later, id);
      if i in votes && !HasReply(Last(later), i, id) {
        ReplyAccepts(Last(later), i, id, votes);
        var next := TakeNearer(later, Answer(i, id), id);
        NearsTransitive(run, later, next, id);
        later := next;
      }
    }
  }

  /** The elements of a set, each once. */
  lemma {:induction false} Listed(votes: set<nat>) returns (peers: seq<nat>)
    ensures |peers| == |votes| && (forall i :: i in peers <==> i in votes)
    ensures forall j, k :: 0 <= j < k < |peers| ==> peers[j] != peers[k]
    decreases |votes|
  {
    if votes == {} {
      peers := [];
    } else {
      var i :| i in votes;
      var rest := Listed(votes - {i});
      peers := rest + [i];
    }
  }

  /** The leader first, and then the other servers of the quorum. */
  lemma LeaderAndOthers(votes: set<nat>, leader: nat) returns (peers: seq<nat>)
    requires leader in votes
    ensures |peers| == |votes| && peers[0] == leader && (forall i :: i in peers ==> i in votes)
    ensures forall j, k :: 0 <= j < k < |peers| ==> peers[j] != peers[k]
  {
    var rest := Listed(votes - {leader});
    peers := [leader] + rest;
    assert forall k :: 1 <= k < |peers| ==> peers[k] == rest[k - 1] && rest[k - 1] in rest;
  }

  lemma QuorumDecides(n: nat, leader: nat, rs: seq<C.Arrival>) returns (o: C.Outcome)
    requires C.DistinctPeers(rs) && |rs| >= C.SuperQuorum(n) && rs[0].peer == leader && C.AllAccept(rs, |rs|)
    ensures C.Decides(n, leader, rs, o) && o.Quorum? && o.leaderSlot.Some?
  {
    C.PeersSize(rs, C.SuperQuorum(n));
    o := C.Quorum(Some(rs[0].reply));
    assert rs[0] == C.Arrival(leader, rs[0].reply);
  }

  /** Every server of votes has answered that it accepts. */
  ghost predicate AllReplied(op: Op, votes: set<nat>) {
    forall i :: i in votes ==> i in op.replies && op.replies[i].status == C.ACCEPTED
  }

  lemma ReplyAgrees(s: Cluster, i: nat, id: ProposeId)
    requires ClusterInv(s) && s.leader < |s.nodes| && HasReply(s, i, id) && i < |s.nodes| && Agrees(s.nodes[i], id)
    ensures s.ops[id].replies[i].status == C.ACCEPTED
  {
    hide NodesInv, LogInv, ReturnSound, RoundSound;
    assert ReplySound(s, id, i, s.ops[id].replies[i]);
  }

  lemma QuorumReplied(s: Cluster, id: ProposeId, votes: set<nat>)
    requires ClusterInv(s) && IsVoting(s, id) && IsQuorum(s, votes) && RepliedUpTo(s, |s.nodes|, id, votes)
    ensures AllReplied(s.ops[id], votes)
  {
    hide ClusterInv, HasResult, Agrees;
    forall i | i in votes ensures i in s.ops[id].replies && s.ops[id].replies[i].status == C.ACCEPTED {
      assert HasReply(s, i, id);
      ReplyAgrees(s, i, id);
    }
  }

  lemma VoteAccepts(s: Cluster, id: ProposeId, peers: seq<nat>, o: C.Outcome)
    requires s.leader < |s.nodes| && Enabled(s, Vote(id, peers, o)) && o.Quorum? && o.leaderSlot.Some?
    ensures ReturnedByVote(Apply(s, Vote(id, peers, o)), id)
    ensures Apply(s, Vote(id, peers, o)).log == s.log && Apply(s, Vote(id, peers, o)).issued == s.issued
  {
    hide C.Decides;
  }

  lemma QuorumReturns(s: Cluster, id: ProposeId, votes: set<nat>) returns (t: Step)
    requires IsVoting(s, id) && IsQuorum(s, votes) && AllReplied(s.ops[id], votes)
    ensures t.Vote? && Enabled(s, t) && ReturnedByVote(Apply(s, t), id)
    ensures Apply(s, t).log == s.log && Apply(s, t).issued == s.issued
  {
    var peers := LeaderAndOthers(votes, s.leader);
    var rs := Arrivals(s.ops[id], peers);
    assert forall k :: 0 <= k < |rs| ==> peers[k] in peers;
    var o := QuorumDecides(|s.nodes|, s.leader, rs);
    hide C.Decides, C.SuperQuorum, AfterVote;
    t := Vote(id, peers, o);
    VoteAccepts(s, id, peers, o);
  }

  // ---------------------------------------------------------------- one round, no commit

  /** A super-quorum with the leader accepts id, or would if the proposal came now. */
  ghost predicate QuorumAcceptsNow(s: Cluster, id: ProposeId, votes: set<nat>) {
    && IsQuorum(s, votes) && id in s.issued
    && forall i :: 0 <= i < |s.nodes| && i in votes ==> AcceptsNow(s.nodes[i], s.issued[id])
  }

  lemma QuorumStays(run: Run, later: Run, id: ProposeId, votes: set<nat>)
    requires Nears(run, later, id) && IsQuorum(Last(run), votes)
    ensures IsQuorum(Last(later), votes)
  {
    hide IsRun, FastBeforeSlow;
  }

  lemma AllAgree(run: Run, later: Run, id: ProposeId, votes: set<nat>)
    requires Nears(run, later, id) && IsQuorum(Last(run), votes)
    requires AcceptedUpTo(Last(run), |Last(run).nodes|, id, votes)
    ensures HasResult(Last(later), id) ==> RepliedUpTo(Last(later), 0, id, votes)
    ensures Last(run).leader < |Last(run).nodes| && id in Leader(Last(run)).verdicts
  {
  }

  /**
   * From every state of every run: if a super-quorum with the leader accepts a voting operation's command, or would if
   * its proposal came now, the operation can return after this one round, with nothing more committed.
   */
  lemma OneRoundNeedsNoCommit(run: Run, id: ProposeId, votes: set<nat>) returns (later: Run)
    requires IsRun(run) && |run.states| > 0 && IsVoting(Last(run), id) && QuorumAcceptsNow(Last(run), id, votes)
    ensures Continues(run, later) && ReturnedByVote(Last(later), id)
    ensures Last(later).log == Last(run).log && Last(later).issued == Last(run).issued
  {
    assert AcceptedUpTo(Last(run), 0, id, votes);
    hide IsRun, FastBeforeSlow, Ready, Nears, Enabled, Apply, IsQuorum, AcceptedUpTo, RepliedUpTo, AllReplied;
    var judged := VerdictsArrive(run, |Last(run).nodes|, id, votes);
    AfterNears(run, judged, id);
    QuorumStays(run, judged, id, votes);
    StayNear(judged, id);
    AllAgree(judged, judged, id, votes);
    var answered := LeaderAnswers(judged, id);
    AfterNears(judged, answered, id);
    QuorumStays(judged, answered, id, votes);
    AllAgree(judged, answered, id, votes);
    var heard := AnswersArrive(answered, |Last(answered).nodes|, id, votes);
    AfterNears(answered, heard, id);
    QuorumStays(answered, heard, id, votes);
    LastHolds(heard);
    QuorumReplied(Last(heard), id, votes);
    var t := QuorumReturns(Last(heard), id, votes);
    later := Take(heard, t);
    NearsTransitive(run, judged, answered, id);
    NearsTransitive(run, answered, heard, id);
    AfterNears(run, heard, id);
    NearsContinues(run, heard, id);
    ContinuesTransitive(run, heard, later);
  }

  lemma NearsContinues(run: Run, later: Run, id: ProposeId)
    requires Nears(run, later, id)
    ensures Continues(run, later)
  {
  }

  lemma NewQuorum(s: Cluster, c: Command)
    requires Invoked(s, c)
    ensures QuorumAcceptsNow(s, c.id, C.UpTo(|s.nodes|))
  {
    C.SuperQuorumIsAllExactly(|s.nodes|);
  }

  lemma InvokedIsVoting(s: Cluster, c: Command)
    requires Init(s) && Enabled(s, Invoke(c))
    ensures IsVoting(Apply(s, Invoke(c)), c.id)
  {
  }

  /** An order that executes one command at most, and once, gives it the result it has on the empty store. */
  lemma OnlyResult(order: seq<Command>, reg: Registry, c: Command, r: string)
    requires Distinct(order) && (forall d :: d in order ==> Known(reg, d)) && reg == map[c.id := c]
    requires IsResult(map[], order, c, r)
    ensures r == SyncResult(map[], c)
  {
    hide SyncResult;
    var k :| 0 <= k < |order| && order[k] == c && r == ResultAt(map[], order, k);
    assert forall i :: 0 <= i < |order| ==> Known(reg, order[i]);
    assert k == 0 && order[..0] == [];
  }

  lemma ContentOfOne(run: Run, c: Command)
    requires IsRun(run) && |run.states| > 0 && FastBeforeSlow(run) && ReturnedByVote(Last(run), c.id)
    requires Last(run).issued == map[c.id := c]
    ensures Last(run).ops[c.id].phase.content == SyncResult(map[], c)
  {
    hide IsRun, FastBeforeSlow, RespectsRealTime, IsResult, SyncResult;
    Linearizability(run, |run.states| - 1);
    OnlyResult(Leader(Last(run)).executed, Last(run).issued, c, Last(run).ops[c.id].phase.content);
  }

  /** From every start and for every command, a run that ends with the command answered by vote and an empty log. */
  lemma FastReturnHappens(s: Cluster, c: Command) returns (run: Run)
    requires Init(s)
    ensures IsRun(run) && FastBeforeSlow(run) && |run.states| > 0 && run.states[0] == s
    ensures Last(run).log == [] && ReturnedByVote(Last(run), c.id)
    ensures Last(run).ops[c.id].phase.content == SyncResult(map[], c)
  {
    FirstInvoke(s, c);
    InvokedIsVoting(s, c);
    hide IsRun, FastBeforeSlow, LeaderAccepts, Enabled, Apply, StepFastFirst, StepAccepts, Init, IsVoting;
    hide QuorumAcceptsNow, ReturnedByVote, SyncResult;
    var start := Start0(s);
    var invoked := GoTame(start, Invoke(c));
    NewQuorum(Last(invoked), c);
    run := OneRoundNeedsNoCommit(invoked, c.id, C.UpTo(|Last(invoked).nodes|));
    AfterContinues(invoked, run);
    ContentOfOne(run, c);
  }

  // ---------------------------------------------------------------- making room at the witnesses

  /** The server holds a record that nothing will remove and that conflicts with c. */
  ghost predicate HoldsStale(n: Node, c: Command) {
    exists id :: id in n.r.records && Stale(n, n.r.records[id]) && Conflict(n.r.records[id], c)
  }

  /** The server has accepted c, or can still be brought to. */
  ghost predicate CanAccept(n: Node, c: Command) {
    if c.id in n.verdicts then n.verdicts[c.id].Accepted? else !HoldsStale(n, c)
  }

  /** Server i has been told of nothing new; the leader has been told of other commands than id at most. */
  ghost predicate NodeAside(n: Node, n': Node, id: ProposeId, leads: bool) {
    && Grows(n, n')
    && (id in n'.verdicts <==> id in n.verdicts)
    && (!leads ==> n'.verdicts.Keys == n.verdicts.Keys && n'.r.records.Keys <= n.r.records.Keys)
  }

  /** Clients are where they were, and servers only made room. */
  ghost predicate Aside(s: Cluster, s': Cluster, id: ProposeId) {
    && s'.leader == s.leader && |s'.nodes| == |s.nodes| && s'.ops == s.ops && s'.issued == s.issued
    && forall i :: 0 <= i < |s.nodes| ==> NodeAside(s.nodes[i], s'.nodes[i], id, i == s.leader)
  }

  lemma AsideTransitive(a: Cluster, b: Cluster, c: Cluster, id: ProposeId)
    requires Aside(a, b, id) && Aside(b, c, id)
    ensures Aside(a, c, id)
  {
    forall i | 0 <= i < |a.nodes| ensures NodeAside(a.nodes[i], c.nodes[i], id, i == a.leader) {
      GrowsTransitive(a.nodes[i], b.nodes[i], c.nodes[i]);
      hide Grows;
    }
    hide NodeAside, Grows;
  }

  lemma GrowsTransitive(a: Node, b: Node, c: Node)
    requires Grows(a, b) && Grows(b, c)
    ensures Grows(a, c)
  {
  }

  /** A step of raft or the worker, or a proposal of another command at the leader. */
  predicate MakesRoom(t: Step, leader: nat, id: ProposeId) {
    Internal(t) || (t.At? && t.i == leader && (t.a.Enter? || t.a.Queue?) && t.a.cmd.id != id)
  }

  lemma ActAside(n: Node, a: Action, id: ProposeId, leads: bool)
    requires a.TakeFast? || a.TakeSlow? || a.RemoveRecord? || (leads && (a.Enter? || a.Queue?) && a.cmd.id != id)
    ensures NodeAside(n, Act(n, a), id, leads)
  {
    ActGrows(n, a);
    hide Grows, B.Step, Record;
  }

  lemma StepAside(s: Cluster, t: Step, id: ProposeId)
    requires s.leader < |s.nodes| && Enabled(s, t) && MakesRoom(t, s.leader, id)
    ensures Aside(s, Apply(s, t), id)
  {
    RoomKeepsClients(s, t, id);
    hide Apply, Enabled, NodeAside, Act;
    forall i | 0 <= i < |s.nodes| ensures NodeAside(s.nodes[i], Apply(s, t).nodes[i], id, i == s.leader) {
      NodeEvolves(s, t, i);
      var o := ActionAt(s, t, i);
      if o.Some? {
        ActAside(s.nodes[i], o.value, id, i == s.leader);
      } else {
        SameAside(s.nodes[i], id, i == s.leader);
      }
    }
  }

  lemma SameAside(n: Node, id: ProposeId, leads: bool)
    ensures NodeAside(n, n, id, leads)
  {
  }

  lemma RoomKeepsClients(s: Cluster, t: Step, id: ProposeId)
    requires s.leader < |s.nodes| && Enabled(s, t) && MakesRoom(t, s.leader, id)
    ensures var s' := Apply(s, t);
            && s'.leader == s.leader && |s'.nodes| == |s.nodes| && s'.ops == s.ops && s'.issued == s.issued
  {
    hide Act, CanAct, MayWait, ReplyOf, AfterVote, Arrivals, C.Decides, HasReturned;
  }

  ghost predicate Clears(run: Run, later: Run, id: ProposeId) {
    Continues(run, later) && Aside(Last(run), Last(later), id)
  }

  lemma ClearsTransitive(a: Run, b: Run, c: Run, id: ProposeId)
    requires Clears(a, b, id) && Clears(b, c, id)
    ensures Clears(a, c, id)
  {
    hide IsRun, FastBeforeSlow, Aside;
    ContinuesTransitive(a, b, c);
    AsideTransitive(Last(a), Last(b), Last(c), id);
  }

  lemma AfterClears(run: Run, later: Run, id: ProposeId)
    requires Clears(run, later, id)
    ensures IsRun(run) && IsRun(later) && |run.states| > 0 && |later.states| > 0 && Continues(run, later)
    ensures Aside(Last(run), Last(later), id) && Ready(Last(later))
    ensures var s, s' := Last(run), Last(later);
            s'.leader == s.leader && |s'.nodes| == |s.nodes| && s'.ops == s.ops && s'.issued == s.issued
  {
    LastReady(later);
    hide IsRun, FastBeforeSlow, Ready;
  }

  lemma StayClear(run: Run, id: ProposeId)
    requires IsRun(run) && |run.states| > 0
    ensures Clears(run, run, id)
  {
    StayContinues(run);
    hide IsRun, FastBeforeSlow;
  }

  lemma TakeAside(run: Run, t: Step, id: ProposeId) returns (later: Run)
    requires IsRun(run) && |run.states| > 0 && Last(run).leader < |Last(run).nodes| && Enabled(Last(run), t)
    requires MakesRoom(t, Last(run).leader, id) && !t.Deliver?
    ensures Clears(run, later, id) && |later.states| > 0 && Last(later) == Apply(Last(run), t)
  {
    hide Enabled, Apply, IsRun, FastBeforeSlow, Aside;
    later := Take(run, t);
    StepAside(Last(run), t, id);
  }

  lemma {:induction false} GoesOnAside(run: Run, later: Run, m: nat, id: ProposeId)
    requires GoesOn(run, later) && |run.steps| <= m < |later.states|
    ensures |run.states| == |run.steps| + 1 && Aside(Last(run), later.states[m], id)
    decreases m
  {
    hide *;
    GoesOnInternal(run, later, id);
    if m > |run.steps| {
      GoesOnAside(run, later, m - 1, id);
      StepAt(later, m - 1);
      StepAside(later.states[m - 1], later.steps[m - 1], id);
      AsideTransitive(Last(run), later.states[m - 1], later.states[m], id);
    }
  }

  lemma GoesOnInternal(run: Run, later: Run, id: ProposeId)
    requires GoesOn(run, later)
    ensures IsRun(run) && IsRun(later)
    ensures |run.states| == |run.steps| + 1 && |later.states| == |later.steps| + 1 && |run.steps| <= |later.steps|
    ensures later.states[|run.steps|] == Last(run) && Aside(Last(run), Last(run), id)
    ensures forall k, leader :: |run.steps| <= k < |later.steps| ==> MakesRoom(later.steps[k], leader, id)
  {
    RunStarts(run);
    RunStarts(later);
    hide IsRun, FastBeforeSlow, LeaderAccepts;
  }

  lemma GoesOnClears(run: Run, later: Run, id: ProposeId)
    requires GoesOn(run, later)
    ensures Clears(run, later, id)
  {
    hide IsRun, FastBeforeSlow, LeaderAccepts, Aside;
    GoesOnInternal(run, later, id);
    GoesOnAside(run, later, |later.states| - 1, id);
  }

  /** The leader has queued every issued command of these ids. */
  ghost predicate QueuedAll(s: Cluster, ids: set<ProposeId>) {
    s.leader < |s.nodes| && forall d :: d in ids && d in s.issued ==> d in Leader(s).queued
  }

  lemma QueuedStays(s: Cluster, s': Cluster, ids: set<ProposeId>, id: ProposeId)
    requires s.leader < |s.nodes| && QueuedAll(s, ids) && Aside(s, s', id)
    ensures QueuedAll(s', ids)
  {
    assert NodeAside(Leader(s), Leader(s'), id, true);
  }

  lemma IssuedIsKnown(s: Cluster, d: ProposeId)
    requires Ready(s) && d in s.issued
    ensures s.issued[d].id == d && Leader(s).r.isLeader
  {
    hide Tracked, ContentsInv, WitnessInv, LocalInv, CleanInv, ClientsInv;
  }

  /** The leader can take one more proposal, of another command than id. */
  lemma OneQueued(run: Run, d: ProposeId, id: ProposeId) returns (later: Run)
    requires IsRun(run) && |run.states| > 0 && d in Last(run).issued && d != id
    ensures Clears(run, later, id) && Last(later).leader < |Last(later).nodes| && d in Leader(Last(later)).queued
  {
    LastReady(run);
    hide IsRun, FastBeforeSlow, Ready, Clears, Enabled, Apply, Aside;
    later := run;
    StayClear(run, id);
    IssuedIsKnown(Last(run), d);
    var s := Last(run);
    if d !in Leader(s).queued {
      if d !in Leader(s).verdicts {
        EnterEnabled(s, s.leader, d);
        later := TakeAside(run, At(s.leader, Enter(s.issued[d])), id);
        AfterClears(run, later, id);
        IssuedIsKnown(Last(later), d);
      }
      var u := Last(later);
      if d !in Leader(u).queued {
        QueueEnabled(u, d);
        var next := TakeAside(later, At(u.leader, Queue(u.issued[d])), id);
        ClearsTransitive(run, later, next, id);
        later := next;
      }
    }
  }

  /** The leader can take the proposals of all issued commands of these ids. */
  lemma {:induction false} AllQueued(run: Run, ids: set<ProposeId>, id: ProposeId) returns (later: Run)
    requires IsRun(run) && |run.states| > 0 && id !in ids
    ensures Clears(run, later, id) && QueuedAll(Last(later), ids)
    decreases |ids|
  {
    LastReady(run);
    hide IsRun, FastBeforeSlow, Ready, Clears, Aside;
    later := run;
    StayClear(run, id);
    if ids == {} {
    } else {
      var d :| d in ids;
      later := AllQueued(run, ids - {d}, id);
      AfterClears(run, later, id);
      if d in Last(later).issued {
        var next := OneQueued(later, d, id);
        AfterClears(later, next, id);
        QueuedStays(Last(later), Last(next), ids - {d}, id);
        ClearsTransitive(run, later, next, id);
        later := next;
      }
    }
  }

  lemma {:induction false} AllFinish(run: Run, m: nat) returns (later: Run)
    requires IsRun(run) && |run.states| > 0 && m <= |Last(run).nodes| && Drained(Last(run))
    ensures GoesOn(run, later) && Drained(Last(later)) && |Last(later).nodes| == |Last(run).nodes|
    ensures forall i :: 0 <= i < m ==> Last(later).nodes[i].r.committing.None?
    decreases m
  {
    hide IsRun, FastBeforeSlow, LeaderAccepts, Internal;
    if m == 0 {
      later := run;
      StayContinues(run);
    } else {
      var before := AllFinish(run, m - 1);
      later := Finish(before, m - 1);
      GoesOnTransitive(run, before, later);
    }
  }

  /** Every command but id that was issued has been applied and its record removed, at every server. */
  ghost predicate OthersGone(s: Cluster, id: ProposeId) {
    forall i, d :: 0 <= i < |s.nodes| && d in s.issued && d != id ==> s.issued[d] in Gone(s.nodes[i])
  }

  lemma FinishedIsGone(s: Cluster, id: ProposeId)
    requires ClusterInv(s) && Drained(s) && QueuedAll(s, s.issued.Keys - {id})
    requires forall i :: 0 <= i < |s.nodes| ==> s.nodes[i].r.committing.None?
    ensures OthersGone(s, id)
  {
    hide NodesInv, ClientsInv;
    forall i, d | 0 <= i < |s.nodes| && d in s.issued && d != id ensures s.issued[d] in Gone(s.nodes[i]) {
      assert d in Leader(s).queued && s.issued[d] in s.log;
      assert Gone(s.nodes[i]) == s.log;
    }
  }

  /** Every other command can be applied and removed everywhere, with id's proposal kept back. */
  lemma Cleared(run: Run, id: ProposeId) returns (later: Run)
    requires IsRun(run) && |run.states| > 0
    ensures Clears(run, later, id) && OthersGone(Last(later), id)
  {
    hide *;
    var others := Last(run).issued.Keys - {id};
    var queued := AllQueued(run, others, id);
    AfterClears(run, queued, id);
    var drained := CanDrain(queued);
    GoesOnClears(queued, drained, id);
    AfterClears(queued, drained, id);
    later := AllFinish(drained, |Last(drained).nodes|);
    GoesOnClears(drained, later, id);
    AfterClears(drained, later, id);
    ClearsTransitive(run, queued, drained, id);
    ClearsTransitive(run, drained, later, id);
    LastHolds(queued);
    LastHolds(drained);
    QueuedStays(Last(queued), Last(drained), others, id);
    QueuedStays(Last(drained), Last(later), others, id);
    LastHolds(later);
    FinishedIsGone(Last(later), id);
  }

  /** A record that is left when all other commands are gone was left for good before. */
  lemma LeftoverWasStale(n: Node, n': Node, reg: Registry, id: ProposeId, rid: ProposeId, leads: bool)
    requires WitnessInv(n, reg) && WitnessInv(n', reg) && CleanInv(n', reg) && NodeAside(n, n', id, leads)
    requires n'.r.isLeader == leads && id !in n'.verdicts
    requires rid in n'.r.records && rid in reg && reg[rid] in Gone(n')
    ensures !leads && rid in n.r.records && n.r.records[rid] == n'.r.records[rid] && Stale(n, n.r.records[rid])
  {
    var d := reg[rid];
    hide Exclusion, Commuting, B.Grows;
    assert RecordsAccepted(n', reg) && n'.r.records[rid] == d && d.id == rid;
    assert AcceptedLate(n', d);
    assert d in n'.slow;
    LeftoverTaken(n, n', reg, d);
  }

  lemma LeftoverTaken(n: Node, n': Node, reg: Registry, d: Command)
    requires AcceptedIsHeld(n, reg) && d.id in reg && reg[d.id] == d && AcceptedLate(n', d)
    requires Grows(n, n') && d.id in n.verdicts
    ensures d in Gone(n)
  {
    hide Held, B.Grows;
    var k := n.verdicts[d.id].after;
    assert n.slow[..k] == n'.slow[..k];
  }

  lemma RoomMade(n: Node, n': Node, reg: Registry, c: Command, leads: bool)
    requires WitnessInv(n, reg) && WitnessInv(n', reg) && CleanInv(n', reg) && NodeAside(n, n', c.id, leads)
    requires n'.r.isLeader == leads && CanAccept(n, c)
    requires forall d :: d in reg && d != c.id ==> reg[d] in Gone(n')
    ensures AcceptsNow(n', c)
  {
    if c.id in n.verdicts {
      hide WitnessInv, CleanInv, Gone, B.Grows;
    } else if ConflictsWith(n'.r.records, c) {
      var rid :| rid in n'.r.records && Conflict(n'.r.records[rid], c);
      assert rid in n'.verdicts && rid in reg && rid != c.id;
      hide WitnessInv, CleanInv, NodeAside, Gone, Conflict;
      LeftoverWasStale(n, n', reg, c.id, rid, leads);
    }
  }

  // ---------------------------------------------------------------- exactly when one round can be enough

  /** A super-quorum with the leader has accepted id, or can still be brought to. */
  ghost predicate QuorumCanAccept(s: Cluster, id: ProposeId, votes: set<nat>) {
    && IsQuorum(s, votes) && id in s.issued
    && forall i :: 0 <= i < |s.nodes| && i in votes ==> CanAccept(s.nodes[i], s.issued[id])
  }

  lemma NodeSound(s: Cluster, i: nat)
    requires ClusterInv(s) && i < |s.nodes|
    ensures WitnessInv(s.nodes[i], s.issued) && CleanInv(s.nodes[i], s.issued)
    ensures s.nodes[i].r.isLeader <==> i == s.leader
  {
    hide WitnessInv, LocalInv, CleanInv, LogInv, ClientsInv;
  }

  lemma RoomForQuorum(s: Cluster, s': Cluster, id: ProposeId, votes: set<nat>)
    requires ClusterInv(s) && ClusterInv(s') && Aside(s, s', id) && OthersGone(s', id)
    requires QuorumCanAccept(s, id, votes) && s.issued[id].id == id
    ensures QuorumAcceptsNow(s', id, votes)
  {
    hide ClusterInv, NodeAside, CanAccept, AcceptsNow, Gone, WitnessInv, CleanInv;
    forall i | 0 <= i < |s'.nodes| && i in votes ensures AcceptsNow(s'.nodes[i], s'.issued[id]) {
      NodeSound(s, i);
      NodeSound(s', i);
      RoomMade(s.nodes[i], s'.nodes[i], s.issued, s.issued[id], i == s.leader);
    }
  }

  lemma CanReturnByVote(run: Run, id: ProposeId, votes: set<nat>) returns (later: Run)
    requires IsRun(run) && |run.states| > 0 && IsVoting(Last(run), id) && QuorumCanAccept(Last(run), id, votes)
    ensures Continues(run, later) && ReturnedByVote(Last(later), id)
  {
    LastReady(run);
    hide IsRun, FastBeforeSlow, Ready, Clears, Aside, OthersGone, QuorumCanAccept, QuorumAcceptsNow;
    OpIsKnown(Last(run), id);
    var cleared := Cleared(run, id);
    AfterClears(run, cleared, id);
    LastHolds(run);
    LastHolds(cleared);
    RoomForQuorum(Last(run), Last(cleared), id, votes);
    later := OneRoundNeedsNoCommit(cleared, id, votes);
    ContinuesTransitive(run, cleared, later);
  }

  /** Server i holds a stale record that conflicts with id's command, and has not accepted id. */
  ghost predicate RefusesForGood(s: Cluster, i: nat, id: ProposeId) {
    i < |s.nodes| && id in s.issued && HoldsStale(s.nodes[i], s.issued[id]) && !Agrees(s.nodes[i], id)
  }

  lemma EnterRefused(n: Node, a: Action, c: Command)
    requires HoldsStale(n, c) && !Agrees(n, c.id) && (a.Enter? && a.cmd.id == c.id ==> a.cmd == c)
    ensures !Agrees(Act(n, a), c.id)
  {
    hide B.Step, B.CanStep, Gone;
  }

  lemma NotAgreedStep(s: Cluster, t: Step, i: nat, id: ProposeId)
    requires ClusterInv(s) && s.leader < |s.nodes| && Enabled(s, t) && RefusesForGood(s, i, id) && s.issued[id].id == id
    ensures i < |Apply(s, t).nodes| && !Agrees(Apply(s, t).nodes[i], id)
  {
    NodeEvolves(s, t, i);
    var o := ActionAt(s, t, i);
    if o.Some? {
      assert o.value.Enter? ==> Known(s.issued, o.value.cmd);
      hide Act, CanAct, HoldsStale, Agrees, Apply;
      EnterRefused(s.nodes[i], o.value, s.issued[id]);
    }
    hide Act, CanAct, HoldsStale, Agrees, Apply;
  }

  lemma PickStale(n: Node, c: Command) returns (d: Command)
    requires HoldsStale(n, c)
    ensures exists rid :: rid in n.r.records && n.r.records[rid] == d && Stale(n, d) && Conflict(d, c)
  {
    var rid :| rid in n.r.records && Stale(n, n.r.records[rid]) && Conflict(n.r.records[rid], c);
    d := n.r.records[rid];
  }

  lemma StaleAmongRecords(n: Node, reg: Registry, d: Command, c: Command)
    requires WitnessInv(n, reg) && d.id in reg && reg[d.id] == d && Stale(n, d) && Conflict(d, c)
    ensures HoldsStale(n, c)
  {
    hide SlowKnown, AcceptedIsHeld, Exclusion, Gone, Conflict;
    assert n.r.records[d.id] == d;
  }

  lemma PickedIsIssued(n: Node, reg: Registry, c: Command) returns (d: Command)
    requires WitnessInv(n, reg) && HoldsStale(n, c)
    ensures d.id in reg && reg[d.id] == d && Stale(n, d) && Conflict(d, c)
  {
    d := PickStale(n, c);
    hide SlowKnown, AcceptedIsHeld, Exclusion, Gone, Conflict;
  }

  lemma StaleRecordStep(s: Cluster, t: Step, i: nat, c: Command)
    requires ClusterInv(s) && s.leader < |s.nodes| && Enabled(s, t) && i < |s.nodes| && HoldsStale(s.nodes[i], c)
    ensures i < |Apply(s, t).nodes| && HoldsStale(Apply(s, t).nodes[i], c)
  {
    hide ClusterInv, Apply, Enabled, Stale, Conflict, Grows, WitnessInv, CleanInv, HoldsStale;
    NodeSound(s, i);
    var d := PickedIsIssued(s.nodes[i], s.issued, c);
    StaleStep(s, t, i, d);
    NodesGrow(s, t);
    InvKept(s, t);
    NodeSound(Apply(s, t), i);
    StaleAmongRecords(Apply(s, t).nodes[i], Apply(s, t).issued, d, c);
  }

  lemma RefusalStep(s: Cluster, t: Step, i: nat, id: ProposeId)
    requires ClusterInv(s) && s.leader < |s.nodes| && Enabled(s, t) && RefusesForGood(s, i, id) && s.issued[id].id == id
    ensures RefusesForGood(Apply(s, t), i, id)
  {
    NodesGrow(s, t);
    NotAgreedStep(s, t, i, id);
    StaleRecordStep(s, t, i, s.issued[id]);
    hide Apply, Enabled, ClusterInv, HoldsStale, Agrees, Grows;
  }

  lemma RefusedIsIssued(s: Cluster, i: nat, id: ProposeId)
    requires ClusterInv(s) && s.leader < |s.nodes| && RefusesForGood(s, i, id)
    ensures s.issued[id].id == id
  {
    hide NodesInv, ClientsInv, HoldsStale, Agrees;
  }

  lemma {:induction false} RefusalStays(run: Run, k: nat, m: nat, i: nat, id: ProposeId)
    requires IsRun(run) && k <= m < |run.states| && RefusesForGood(run.states[k], i, id)
    ensures RefusesForGood(run.states[m], i, id)
    decreases m
  {
    hide *;
    if k < m {
      RefusalStays(run, k, m - 1, i, id);
      AlwaysInv(run, m - 1);
      StepAt(run, m - 1);
      RefusedIsIssued(run.states[m - 1], i, id);
      RefusalStep(run.states[m - 1], run.steps[m - 1], i, id);
    }
  }

  /** A server that agreed in the end could accept at the start. */
  lemma AgreedCouldAccept(run: Run, k: nat, m: nat, i: nat, id: ProposeId)
    requires IsRun(run) && k <= m < |run.states| && i < |run.states[k].nodes| && id in run.states[k].issued
    requires i < |run.states[m].nodes| && Agrees(run.states[m].nodes[i], id)
    ensures run.states[k].issued[id].id == id ==> CanAccept(run.states[k].nodes[i], run.states[k].issued[id])
  {
    hide IsRun, HoldsStale;
    if run.states[k].issued[id].id == id {
      if id in run.states[k].nodes[i].verdicts {
        VerdictKept(run, k, m, i, id);
      } else if HoldsStale(run.states[k].nodes[i], run.states[k].issued[id]) {
        RefusalStays(run, k, m, i, id);
      }
    }
  }

  lemma {:induction false} VerdictKept(run: Run, k: nat, m: nat, i: nat, id: ProposeId)
    requires IsRun(run) && k <= m < |run.states| && i < |run.states[k].nodes| && id in run.states[k].nodes[i].verdicts
    ensures i < |run.states[m].nodes| && id in run.states[m].nodes[i].verdicts
    ensures run.states[m].nodes[i].verdicts[id] == run.states[k].nodes[i].verdicts[id]
    decreases m
  {
    hide *;
    if k < m {
      VerdictKept(run, k, m - 1, i, id);
      StepAt(run, m - 1);
      VerdictStep(run.states[m - 1], run.steps[m - 1], i, id);
    }
  }

  lemma VerdictStep(s: Cluster, t: Step, i: nat, id: ProposeId)
    requires s.leader < |s.nodes| && Enabled(s, t) && i < |s.nodes| && id in s.nodes[i].verdicts
    ensures i < |Apply(s, t).nodes| && id in Apply(s, t).nodes[i].verdicts
    ensures Apply(s, t).nodes[i].verdicts[id] == s.nodes[i].verdicts[id]
  {
    NodesGrow(s, t);
    hide Apply, Enabled, B.Grows;
  }

  /** A vote that returned had a super-quorum with the leader. */
  lemma VotesAgree(s: Cluster, id: ProposeId) returns (votes: set<nat>)
    requires ClusterInv(s) && ReturnedByVote(s, id)
    ensures s.leader < |s.nodes| && IsQuorum(s, votes)
    ensures forall i :: i in votes ==> i < |s.nodes| && Agrees(s.nodes[i], id)
  {
    hide NodesInv, LogInv, ReplySound;
    assert ReturnSound(s, id, s.ops[id].phase) && RoundSound(s.leader, s.ops[id]);
    votes := s.ops[id].phase.means.votes;
  }

  lemma {:induction false} SameServers(run: Run, k: nat, m: nat)
    requires IsRun(run) && k <= m < |run.states|
    ensures |run.states[m].nodes| == |run.states[k].nodes| && run.states[m].leader == run.states[k].leader
    decreases m
  {
    hide *;
    if k < m {
      SameServers(run, k, m - 1);
      StepAt(run, m - 1);
      ServersStep(run.states[m - 1], run.steps[m - 1]);
    }
  }

  lemma ServersStep(s: Cluster, t: Step)
    requires s.leader < |s.nodes| && Enabled(s, t)
    ensures |Apply(s, t).nodes| == |s.nodes| && Apply(s, t).leader == s.leader
  {
    NodesGrow(s, t);
    hide Apply, Enabled;
  }

  lemma QuorumCouldAccept(run: Run, k: nat, m: nat, id: ProposeId, votes: set<nat>)
    requires IsRun(run) && k <= m < |run.states| && IsQuorum(run.states[m], votes)
    requires forall i :: i in votes ==> i < |run.states[m].nodes| && Agrees(run.states[m].nodes[i], id)
    requires id in run.states[k].issued && run.states[k].issued[id].id == id
    ensures QuorumCanAccept(run.states[k], id, votes)
  {
    hide IsRun, CanAccept, Agrees;
    SameServers(run, k, m);
    forall i | 0 <= i < |run.states[k].nodes| && i in votes
      ensures CanAccept(run.states[k].nodes[i], run.states[k].issued[id])
    {
      AgreedCouldAccept(run, k, m, i, id);
    }
  }

  lemma LastOfBoth(run: Run, later: Run)
    requires Continues(run, later)
    ensures 0 < |run.states| <= |later.states| && later.states[|run.states| - 1] == Last(run)
  {
    hide IsRun, FastBeforeSlow;
  }

  lemma ReturnedHadQuorum(run: Run, later: Run, id: ProposeId) returns (votes: set<nat>)
    requires Continues(run, later) && |run.states| > 0 && IsVoting(Last(run), id) && ReturnedByVote(Last(later), id)
    ensures QuorumCanAccept(Last(run), id, votes)
  {
    hide IsRun, FastBeforeSlow, Ready, Agrees, ReturnedByVote, IsQuorum, QuorumCanAccept, ClusterInv, Continues;
    AfterContinues(run, later);
    LastReady(run);
    OpIsKnown(Last(run), id);
    LastHolds(later);
    votes := VotesAgree(Last(later), id);
    LastOfBoth(run, later);
    QuorumCouldAccept(later, |run.states| - 1, |later.states| - 1, id, votes);
  }

  /**
   * From every state of every run a voting operation can still return after its one round exactly when there is a
   * super-quorum with the leader of which each server has accepted the command, or has not judged it and holds no
   * conflicting record that is left for good.
   */
  lemma CanReturnByVoteExactly(run: Run, id: ProposeId)
    requires IsRun(run) && |run.states| > 0 && IsVoting(Last(run), id)
    ensures (exists later :: Continues(run, later) && ReturnedByVote(Last(later), id)) <==>
            exists votes :: QuorumCanAccept(Last(run), id, votes)
  {
    hide IsRun, FastBeforeSlow, ReturnedByVote, QuorumCanAccept;
    if later :| Continues(run, later) && ReturnedByVote(Last(later), id) {
      var votes := ReturnedHadQuorum(run, later, id);
    }
    if votes :| QuorumCanAccept(Last(run), id, votes) {
      var later := CanReturnByVote(run, id, votes);
    }
  }
}
