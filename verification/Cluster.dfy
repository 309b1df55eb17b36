/** The cluster: servers, the replicated log, and clients, as one state machine. */
module Cluster {
  import opened Commands
  import opened Traces
  import opened Node
  import B = Board
  import C = Client

  /** How an operation completed: by a super-quorum of votes, or by waiting for its sync. */
  datatype Means = ByVote(votes: set<nat>) | BySync

  datatype Phase = Voting | Syncing | Returned(content: string, means: Means) | Failed

  /** A client operation; before: the operations that had returned when it was invoked. */
  datatype Op = Op(before: set<ProposeId>, replies: map<nat, C.Reply>, phase: Phase)

  datatype Cluster = Cluster(
    nodes: seq<Node>,
    leader: nat,
    issued: Registry,
    ops: map<ProposeId, Op>,
    proposals: multiset<Command>,  // on their way to raft
    log: seq<Command>)             // committed, in order

  datatype Step =
    | Invoke(cmd: Command)
    | At(i: nat, a: Action)
    | Append(cmd: Command)
    | Deliver(i: nat)
    | Answer(i: nat, id: ProposeId)
    | Vote(id: ProposeId, peers: seq<nat>, outcome: C.Outcome)
    | Sync(id: ProposeId)

  ghost predicate Init(s: Cluster) {
    && s.leader < |s.nodes|
    && (forall i :: 0 <= i < |s.nodes| ==> s.nodes[i] == Start(i == s.leader))
    && s.issued == map[] && s.ops == map[] && s.proposals == multiset{} && s.log == []
  }

  // Each operation makes one WaitForEr and at most one WaitForAsr call at the leader.
  function Call(id: ProposeId): B.Waiter {
    B.Waiter(id, 0)
  }

  function Leader(s: Cluster): Node
    requires s.leader < |s.nodes|
  {
    s.nodes[s.leader]
  }

  function HasReturned(s: Cluster): set<ProposeId> {
    set id | id in s.ops && s.ops[id].phase.Returned?
  }

  function Arrivals(op: Op, peers: seq<nat>): seq<C.Arrival>
    requires forall k :: 0 <= k < |peers| ==> peers[k] in op.replies
  {
    seq(|peers|, k requires 0 <= k < |peers| => C.Arrival(peers[k], op.replies[peers[k]]))
  }

  /**
   * The calls a server's board may see: only the leader's, once per operation, WaitForAsr only while its client
   * syncs.
   */
  ghost predicate MayWait(s: Cluster, i: nat, e: B.Event)
    requires i < |s.nodes|
  {
    && i == s.leader
    && match e
       case EnterEr(w) => w == Call(w.id) && w.id in s.nodes[i].queued && w.id !in s.nodes[i].board.called
       case EnterAsr(w) =>
         w == Call(w.id) && w.id in s.ops && s.ops[w.id].phase.Syncing? && w.id !in s.nodes[i].board.waited
       case _ => true
  }

  ghost predicate Enabled(s: Cluster, t: Step)
    requires s.leader < |s.nodes|
  {
    match t
    case Invoke(c) => c.id !in s.issued && c.id !in s.ops
    case At(i, a) =>
      && i < |s.nodes| && !a.TakeSlow? && CanAct(s.nodes[i], a)
      && (a.Enter? || a.Queue? ==> Known(s.issued, a.cmd))
      && (a.Wait? ==> MayWait(s, i, a.e))
    case Append(c) => c in s.proposals
    case Deliver(i) =>
      i < |s.nodes| && |s.nodes[i].slow| < |s.log| && CanAct(s.nodes[i], TakeSlow(s.log[|s.nodes[i].slow|]))
    case Answer(i, id) =>
      && i < |s.nodes| && id in s.ops && i !in s.ops[id].replies && id in s.nodes[i].verdicts
      && (i == s.leader ==> Call(id) in s.nodes[i].board.er && s.nodes[i].board.er[Call(id)].ErGot?)
    case Vote(id, peers, o) =>
      && id in s.ops && s.ops[id].phase.Voting?
      && (forall k :: 0 <= k < |peers| ==> peers[k] in s.ops[id].replies)
      && C.DistinctPeers(Arrivals(s.ops[id], peers))
      && C.Decides(|s.nodes|, s.leader, Arrivals(s.ops[id], peers), o)
    case Sync(id) =>
      && id in s.ops && s.ops[id].phase.Syncing?
      && Call(id) in Leader(s).board.asr && Leader(s).board.asr[Call(id)].AsrGot?
  }

  ghost function ActAt(s: Cluster, i: nat, a: Action): Cluster
    requires i < |s.nodes|
  {
    s.(nodes := s.nodes[i := Act(s.nodes[i], a)])
  }

  function ReplyOf(s: Cluster, i: nat, id: ProposeId): C.Reply
    requires i < |s.nodes| && id in s.nodes[i].verdicts
    requires i == s.leader ==> Call(id) in s.nodes[i].board.er && s.nodes[i].board.er[Call(id)].ErGot?
  {
    C.Reply(if s.nodes[i].verdicts[id].Accepted? then C.ACCEPTED else C.CONFLICT,
            if i == s.leader then s.nodes[i].board.er[Call(id)].result else "")
  }

  /** What a client does with the outcome of its vote loop; a nil leader slot crashes it. */
  function AfterVote(n: nat, rs: seq<C.Arrival>, o: C.Outcome): Phase {
    match o
    case Refused(_) => Syncing
    case Quorum(None) => Failed
    case Quorum(Some(r)) =>
      Returned(r.content, ByVote(if C.SuperQuorum(n) <= |rs| then C.Peers(rs, C.SuperQuorum(n)) else {}))
    case TimedOut => Failed
  }

  function WithPhase(s: Cluster, id: ProposeId, p: Phase): Cluster
    requires id in s.ops
  {
    s.(ops := s.ops[id := s.ops[id].(phase := p)])
  }

  ghost function Apply(s: Cluster, t: Step): Cluster
    requires s.leader < |s.nodes| && Enabled(s, t)
  {
    match t
    case Invoke(c) =>
      s.(issued := s.issued[c.id := c], ops := s.ops[c.id := Op(HasReturned(s), map[], Voting)])
    case At(i, a) =>
      var s' := ActAt(s, i, a);
      if a.Queue? then s'.(proposals := s.proposals + multiset{a.cmd}) else s'
    case Append(c) =>
      s.(proposals := s.proposals - multiset{c}, log := s.log + [c])
    case Deliver(i) => ActAt(s, i, TakeSlow(s.log[|s.nodes[i].slow|]))
    case Answer(i, id) =>
      s.(ops := s.ops[id := s.ops[id].(replies := s.ops[id].replies[i := ReplyOf(s, i, id)])])
    case Vote(id, peers, o) => WithPhase(s, id, AfterVote(|s.nodes|, Arrivals(s.ops[id], peers), o))
    case Sync(id) => WithPhase(s, id, Returned(Leader(s).board.asr[Call(id)].result, BySync))
  }

  /** The node action a step performs at server i, if any. */
  ghost predicate Performs(s: Cluster, t: Step, i: nat, a: Action)
    requires s.leader < |s.nodes|
  {
    && i < |s.nodes|
    && match t
       case At(j, b) => j == i && b == a
       case Deliver(j) => j == i && |s.nodes[i].slow| < |s.log| && a == TakeSlow(s.log[|s.nodes[i].slow|])
       case _ => false
  }

  // ---------------------------------------------------------------- invariants of every run

  ghost predicate NodesInv(s: Cluster) {
    && s.leader < |s.nodes|
    && (forall i :: 0 <= i < |s.nodes| ==>
          && (s.nodes[i].r.isLeader <==> i == s.leader)
          && WitnessInv(s.nodes[i], s.issued) && LocalInv(s.nodes[i], s.issued) && CleanInv(s.nodes[i], s.issued))
  }

  /** One log; each command is proposed to raft once, by the leader; every server has applied a prefix. */
  ghost predicate LogInv(s: Cluster)
    requires s.leader < |s.nodes|
  {
    && WellKeyed(s.issued)
    && Distinct(s.log)
    && (forall c :: c in s.log ==> Known(s.issued, c) && c.id in Leader(s).queued)
    && (forall c :: c in s.proposals ==>
          s.proposals[c] == 1 && Known(s.issued, c) && c.id in Leader(s).queued && c !in s.log)
    && (forall id :: id in Leader(s).queued ==>
          id in s.issued && (s.issued[id] in s.proposals || s.issued[id] in s.log))
    && (forall i :: 0 <= i < |s.nodes| ==> s.nodes[i].slow <= s.log)
  }

  ghost predicate Agrees(n: Node, id: ProposeId) {
    id in n.verdicts && n.verdicts[id].Accepted?
  }

  /** A reply tells the server's verdict, and the leader's also a result of the command. */
  ghost predicate ReplySound(s: Cluster, id: ProposeId, i: nat, r: C.Reply)
    requires s.leader < |s.nodes|
  {
    && i < |s.nodes| && id in s.nodes[i].verdicts
    && r.status == (if Agrees(s.nodes[i], id) then C.ACCEPTED else C.CONFLICT)
    && (if i == s.leader then B.WasInserted(s.nodes[i].board, id, r.content) else r.content == "")
  }

  /** Some server has answered with a conflict. */
  ghost predicate WasRefused(op: Op) {
    exists i :: i in op.replies && op.replies[i].status != C.ACCEPTED
  }

  /** An operation waits for its sync only after a refusal, and returned by vote what the leader answered. */
  ghost predicate RoundSound(leader: nat, op: Op) {
    match op.phase
    case Syncing => WasRefused(op)
    case Returned(_, BySync) => WasRefused(op)
    case Returned(content, ByVote(votes)) =>
      && leader in votes && (forall i :: i in votes ==> i in op.replies && op.replies[i].status == C.ACCEPTED)
      && content == op.replies[leader].content
    case _ => true
  }

  ghost predicate ReturnSound(s: Cluster, id: ProposeId, p: Phase)
    requires s.leader < |s.nodes|
  {
    p.Returned? ==>
      match p.means
      case ByVote(votes) =>
        && |votes| == C.SuperQuorum(|s.nodes|)
        && (forall i :: i in votes ==> i < |s.nodes| && Agrees(s.nodes[i], id))
        && B.WasInserted(Leader(s).board, id, p.content)
      case BySync =>
        Call(id) in Leader(s).board.asr && Leader(s).board.asr[Call(id)] == B.AsrGot(p.content)
  }

  /** What clients have heard, what they have been told, and why. */
  ghost predicate OpsSound(s: Cluster, ops: map<ProposeId, Op>)
    requires s.leader < |s.nodes|
  {
    && (forall id, i :: id in ops && i in ops[id].replies ==> ReplySound(s, id, i, ops[id].replies[i]))
    && (forall id :: id in ops ==> ReturnSound(s, id, ops[id].phase))
    && (forall id :: id in ops ==> RoundSound(s.leader, ops[id]))
  }

  ghost predicate ClientsInv(s: Cluster)
    requires s.leader < |s.nodes|
  {
    (forall id :: id in s.ops ==> id in s.issued) && OpsSound(s, s.ops)
  }

  ghost predicate ClusterInv(s: Cluster) {
    NodesInv(s) && LogInv(s) && ClientsInv(s)
  }

  /** A step never takes back what a server did. */
  lemma NodesGrow(s: Cluster, t: Step)
    requires s.leader < |s.nodes| && Enabled(s, t)
    ensures var s' := Apply(s, t);
            && |s'.nodes| == |s.nodes| && s'.leader == s.leader && s.log <= s'.log
            && (forall i :: 0 <= i < |s.nodes| ==> Grows(s.nodes[i], s'.nodes[i]))
            && (forall id :: id in s.issued ==> id in s'.issued && s'.issued[id] == s.issued[id])
  {
    var s' := Apply(s, t);
    forall i | 0 <= i < |s.nodes| ensures Grows(s.nodes[i], s'.nodes[i]) {
      if t.At? && t.i == i {
        ActGrows(s.nodes[i], t.a);
      } else if t.Deliver? && t.i == i {
        ActGrows(s.nodes[i], TakeSlow(s.log[|s.nodes[i].slow|]));
      } else {
        assert s'.nodes[i] == s.nodes[i];
      }
    }
    hide Act, CanAct;
  }

  /** What the cluster lets a server do is what the server may assume. */
  lemma StepIsAdmissible(s: Cluster, t: Step, i: nat, a: Action)
    requires NodesInv(s) && LogInv(s) && Enabled(s, t) && Performs(s, t, i, a)
    ensures CanAct(s.nodes[i], a) && Admissible(s.nodes[i], s.issued, a)
  {
    hide WitnessInv, LocalInv, CleanInv, CanAct, Act;
    ActFrame(s.nodes[i], a);
    if t.Deliver? {
      NextIsNew(s, i);
    }
  }

  lemma NextIsNew(s: Cluster, i: nat)
    requires s.leader < |s.nodes| && LogInv(s) && i < |s.nodes| && |s.nodes[i].slow| < |s.log|
    ensures var c := s.log[|s.nodes[i].slow|];
            c in s.log && c !in s.nodes[i].slow && s.nodes[i].slow + [c] <= s.log
  {
    var n := s.nodes[i];
    assert n.slow == s.log[..|n.slow|];
    assert n.slow + [s.log[|n.slow|]] == s.log[..|n.slow| + 1];
  }

  lemma NodesKept(s: Cluster, t: Step)
    requires NodesInv(s) && LogInv(s) && Enabled(s, t)
    ensures NodesInv(Apply(s, t))
  {
    hide WitnessInv, LocalInv, CleanInv, CanAct, Act, Admissible, LogInv, C.Decides, HasReturned;
    match t {
      case Invoke(c) => InvokeKeepsNodes(s, c);
      case At(i, a) =>
        StepIsAdmissible(s, t, i, a);
        ActKeepsNodes(s, i, a);
      case Deliver(i) =>
        var a := TakeSlow(s.log[|s.nodes[i].slow|]);
        StepIsAdmissible(s, t, i, a);
        ActKeepsNodes(s, i, a);
      case _ =>
        assert Apply(s, t).nodes == s.nodes && Apply(s, t).issued == s.issued;
    }
  }

  lemma InvokeKeepsNodes(s: Cluster, c: Command)
    requires NodesInv(s) && Enabled(s, Invoke(c))
    ensures NodesInv(Apply(s, Invoke(c)))
  {
    hide WitnessInv, LocalInv, CleanInv, HasReturned;
    forall i | 0 <= i < |s.nodes|
      ensures WitnessInv(s.nodes[i], s.issued[c.id := c])
      ensures LocalInv(s.nodes[i], s.issued[c.id := c]) && CleanInv(s.nodes[i], s.issued[c.id := c])
    {
      RegistryGrows(s.nodes[i], s.issued, c);
    }
  }

  lemma ActKeepsNodes(s: Cluster, i: nat, a: Action)
    requires NodesInv(s) && i < |s.nodes| && Admissible(s.nodes[i], s.issued, a)
    ensures NodesInv(ActAt(s, i, a))
  {
    hide WitnessInv, LocalInv, CleanInv, CanAct, Act, Admissible;
    NodeKept(s.nodes[i], s.issued, a);
  }

  lemma NodeKept(n: Node, reg: Registry, a: Action)
    requires WitnessInv(n, reg) && LocalInv(n, reg) && CleanInv(n, reg) && Admissible(n, reg, a)
    ensures WitnessInv(Act(n, a), reg) && LocalInv(Act(n, a), reg) && CleanInv(Act(n, a), reg)
    ensures Act(n, a).r.isLeader == n.r.isLeader
  {
    assert WellKeyed(reg);
    hide WitnessInv, LocalInv, CleanInv, Act, Admissible;
    WitnessKept(n, reg, a);
    LocalKept(n, reg, a);
    CleanKept(n, reg, a);
    ActGrows(n, a);
  }

  lemma LogKept(s: Cluster, t: Step)
    requires NodesInv(s) && LogInv(s) && Enabled(s, t)
    ensures Apply(s, t).leader < |Apply(s, t).nodes| && LogInv(Apply(s, t))
  {
    hide WitnessInv, LocalInv, CleanInv, CanAct, Act, LogInv, C.Decides, HasReturned;
    match t {
      case Invoke(c) => LogAfterInvoke(s, c);
      case At(i, a) => LogAfterAct(s, i, a);
      case Append(c) => LogAfterAppend(s, c);
      case Deliver(i) => LogAfterDeliver(s, i);
      case _ => LogAfterClient(s, t);
    }
  }

  lemma LogAfterClient(s: Cluster, t: Step)
    requires s.leader < |s.nodes| && LogInv(s) && Enabled(s, t) && (t.Answer? || t.Vote? || t.Sync?)
    ensures Apply(s, t).leader < |Apply(s, t).nodes| && LogInv(Apply(s, t))
  {
    hide C.Decides, AfterVote, ReplyOf;
    assert Apply(s, t).nodes == s.nodes;
  }

  lemma LogAfterInvoke(s: Cluster, c: Command)
    requires s.leader < |s.nodes| && LogInv(s) && Enabled(s, Invoke(c))
    ensures LogInv(Apply(s, Invoke(c)))
  {
    hide HasReturned;
    assert forall d :: Known(s.issued, d) ==> Known(s.issued[c.id := c], d);
  }

  lemma LogAfterAct(s: Cluster, i: nat, a: Action)
    requires NodesInv(s) && LogInv(s) && Enabled(s, At(i, a))
    ensures LogInv(Apply(s, At(i, a)))
  {
    hide WitnessInv, LocalInv, CleanInv, CanAct, Act, MayWait;
    ActFrame(s.nodes[i], a);
    if a.Queue? {
      LogAfterQueue(s, i, a.cmd);
    } else {
      assert Leader(Apply(s, At(i, a))).queued == Leader(s).queued;
    }
  }

  lemma LogAfterQueue(s: Cluster, i: nat, c: Command)
    requires NodesInv(s) && LogInv(s) && Enabled(s, At(i, Queue(c)))
    ensures LogInv(Apply(s, At(i, Queue(c))))
  {
    hide WitnessInv, LocalInv, CleanInv, CanAct, Act;
    ActFrame(s.nodes[i], Queue(c));
    assert i == s.leader;
    assert c !in s.proposals && c !in s.log;
  }

  lemma LogAfterAppend(s: Cluster, c: Command)
    requires s.leader < |s.nodes| && LogInv(s) && Enabled(s, Append(c))
    ensures LogInv(Apply(s, Append(c)))
  {
    var s' := Apply(s, Append(c));
    AppendedIsNew(s, c);
    hide Known, WellKeyed, Distinct;
    assert s'.proposals[c] == 0;
    assert forall d :: d in s'.log <==> d in s.log || d == c;
  }

  lemma AppendedIsNew(s: Cluster, c: Command)
    requires s.leader < |s.nodes| && LogInv(s) && c in s.proposals
    ensures Distinct(s.log + [c])
  {
    forall k | 0 <= k < |s.log| ensures s.log[k].id != c.id {
      assert s.log[k] in s.log;
    }
  }

  lemma LogAfterDeliver(s: Cluster, i: nat)
    requires NodesInv(s) && LogInv(s) && Enabled(s, Deliver(i))
    ensures LogInv(Apply(s, Deliver(i)))
  {
    hide WitnessInv, LocalInv, CleanInv, CanAct, Act;
    ActFrame(s.nodes[i], TakeSlow(s.log[|s.nodes[i].slow|]));
    NextIsNew(s, i);
    assert Leader(Apply(s, Deliver(i))).queued == Leader(s).queued;
  }

  lemma VerdictStays(n: Node, m: Node, id: ProposeId)
    requires Grows(n, m) && id in n.verdicts
    ensures id in m.verdicts && (Agrees(m, id) <==> Agrees(n, id))
  {
  }

  lemma AgreesIsVerdict(n: Node, id: ProposeId)
    requires Agrees(n, id)
    ensures id in n.verdicts
  {
  }

  lemma ResultStays(n: Node, m: Node, id: ProposeId, r: string)
    requires Grows(n, m) && B.WasInserted(n.board, id, r)
    ensures B.WasInserted(m.board, id, r)
  {
  }

  lemma AnswerStays(n: Node, m: Node, w: B.Waiter, r: string)
    requires Grows(n, m) && w in n.board.asr && n.board.asr[w] == B.AsrGot(r)
    ensures w in m.board.asr && m.board.asr[w] == B.AsrGot(r)
  {
  }

  lemma ReplySoundGrows(s: Cluster, t: Step, id: ProposeId, i: nat, r: C.Reply)
    requires s.leader < |s.nodes| && Enabled(s, t) && ReplySound(s, id, i, r)
    ensures Apply(s, t).leader < |Apply(s, t).nodes| && ReplySound(Apply(s, t), id, i, r)
  {
    hide Apply, Enabled, Grows, Agrees, B.WasInserted;
    NodesGrow(s, t);
    var n, m := s.nodes[i], Apply(s, t).nodes[i];
    VerdictStays(n, m, id);
    if i == s.leader {
      ResultStays(n, m, id, r.content);
    }
  }

  lemma ReturnSoundGrows(s: Cluster, t: Step, id: ProposeId, p: Phase)
    requires s.leader < |s.nodes| && Enabled(s, t) && ReturnSound(s, id, p)
    ensures Apply(s, t).leader < |Apply(s, t).nodes| && ReturnSound(Apply(s, t), id, p)
  {
    hide Apply, Enabled, Grows, Agrees, B.WasInserted;
    NodesGrow(s, t);
    var s' := Apply(s, t);
    if p.Returned? {
      match p.means {
        case ByVote(votes) =>
          forall i | i in votes ensures i < |s'.nodes| && Agrees(s'.nodes[i], id) {
            AgreesIsVerdict(s.nodes[i], id);
            VerdictStays(s.nodes[i], s'.nodes[i], id);
          }
          ResultStays(Leader(s), Leader(s'), id, p.content);
        case BySync => AnswerStays(Leader(s), Leader(s'), Call(id), p.content);
      }
    }
  }

  lemma AnswerIsSound(s: Cluster, i: nat, id: ProposeId)
    requires NodesInv(s) && Enabled(s, Answer(i, id))
    ensures ReplySound(s, id, i, ReplyOf(s, i, id))
  {
    assert LocalInv(s.nodes[i], s.issued);
  }

  lemma VoteIsSound(s: Cluster, id: ProposeId, peers: seq<nat>, o: C.Outcome)
    requires s.leader < |s.nodes| && ClientsInv(s) && Enabled(s, Vote(id, peers, o))
    ensures ReturnSound(s, id, AfterVote(|s.nodes|, Arrivals(s.ops[id], peers), o))
  {
    var op := s.ops[id];
    var rs, q := Arrivals(op, peers), C.SuperQuorum(|s.nodes|);
    if o.Quorum? && o.leaderSlot.Some? {
      var votes := C.Peers(rs, q);
      forall i | i in votes ensures i < |s.nodes| && Agrees(s.nodes[i], id) {
        var k :| 0 <= k < q && rs[k].peer == i;
        assert ReplySound(s, id, i, op.replies[i]);
      }
      var k :| 0 <= k < q && rs[k] == C.Arrival(s.leader, o.leaderSlot.value);
      assert ReplySound(s, id, s.leader, op.replies[s.leader]);
    }
  }

  lemma ClientsKept(s: Cluster, t: Step)
    requires NodesInv(s) && ClientsInv(s) && Enabled(s, t)
    ensures Apply(s, t).leader < |Apply(s, t).nodes| && ClientsInv(Apply(s, t))
  {
    NodesGrow(s, t);
    OpsAfter(s, t);
    OpsStaySound(s, t, Apply(s, t).ops);
    hide Apply, Enabled, NodesInv, ReplySound, ReturnSound;
  }

  lemma OpsStaySound(s: Cluster, t: Step, ops: map<ProposeId, Op>)
    requires s.leader < |s.nodes| && Enabled(s, t) && OpsSound(s, ops)
    ensures Apply(s, t).leader < |Apply(s, t).nodes| && OpsSound(Apply(s, t), ops)
  {
    NodesGrow(s, t);
    hide Apply, Enabled, ReplySound, ReturnSound;
    forall id, i | id in ops && i in ops[id].replies ensures ReplySound(Apply(s, t), id, i, ops[id].replies[i]) {
      ReplySoundGrows(s, t, id, i, ops[id].replies[i]);
    }
    forall id | id in ops ensures ReturnSound(Apply(s, t), id, ops[id].phase) {
      ReturnSoundGrows(s, t, id, ops[id].phase);
    }
  }

  lemma OpsUpdated(s: Cluster, ops: map<ProposeId, Op>, id: ProposeId, op: Op)
    requires s.leader < |s.nodes| && OpsSound(s, ops)
    requires forall i :: i in op.replies ==> ReplySound(s, id, i, op.replies[i])
    requires ReturnSound(s, id, op.phase) && RoundSound(s.leader, op)
    ensures OpsSound(s, ops[id := op])
  {
    hide ReplySound, ReturnSound, RoundSound;
  }

  lemma OpsAfterInvoke(s: Cluster, c: Command)
    requires s.leader < |s.nodes| && OpsSound(s, s.ops) && Enabled(s, Invoke(c))
    ensures OpsSound(s, Apply(s, Invoke(c)).ops)
  {
    hide ReplySound, HasReturned;
    OpsUpdated(s, s.ops, c.id, Op(HasReturned(s), map[], Voting));
  }

  lemma RoundAfterReply(leader: nat, op: Op, i: nat, r: C.Reply)
    requires RoundSound(leader, op) && i !in op.replies
    ensures RoundSound(leader, op.(replies := op.replies[i := r]))
  {
    var op' := op.(replies := op.replies[i := r]);
    if WasRefused(op) {
      var j :| j in op.replies && op.replies[j].status != C.ACCEPTED;
      assert op'.replies[j] == op.replies[j];
    }
  }

  /** A refused vote was refused by a reply, and an accepted one answered by the leader's. */
  lemma VoteIsRound(s: Cluster, id: ProposeId, peers: seq<nat>, o: C.Outcome)
    requires s.leader < |s.nodes| && Enabled(s, Vote(id, peers, o))
    ensures RoundSound(s.leader, s.ops[id].(phase := AfterVote(|s.nodes|, Arrivals(s.ops[id], peers), o)))
  {
    var op := s.ops[id];
    var rs := Arrivals(op, peers);
    match o
    case Refused(r) =>
      var k :| 0 <= k < C.SuperQuorum(|s.nodes|) && C.RefusedAt(rs, k, r);
      assert op.replies[peers[k]].status != C.ACCEPTED;
    case _ =>
  }

  lemma OpsAfterAnswer(s: Cluster, i: nat, id: ProposeId)
    requires NodesInv(s) && OpsSound(s, s.ops) && Enabled(s, Answer(i, id))
    ensures OpsSound(s, Apply(s, Answer(i, id)).ops)
  {
    AnswerIsSound(s, i, id);
    hide ReplySound, ReturnSound, RoundSound, NodesInv, ReplyOf;
    var op := s.ops[id];
    RoundAfterReply(s.leader, op, i, ReplyOf(s, i, id));
    OpsUpdated(s, s.ops, id, op.(replies := op.replies[i := ReplyOf(s, i, id)]));
  }

  lemma OpsAfterVote(s: Cluster, id: ProposeId, peers: seq<nat>, o: C.Outcome)
    requires s.leader < |s.nodes| && ClientsInv(s) && OpsSound(s, s.ops) && Enabled(s, Vote(id, peers, o))
    ensures OpsSound(s, Apply(s, Vote(id, peers, o)).ops)
  {
    VoteIsSound(s, id, peers, o);
    VoteIsRound(s, id, peers, o);
    hide ReplySound, ReturnSound, RoundSound, AfterVote, Arrivals, ClientsInv, C.Decides;
    OpsUpdated(s, s.ops, id, s.ops[id].(phase := AfterVote(|s.nodes|, Arrivals(s.ops[id], peers), o)));
  }

  lemma OpsAfterSync(s: Cluster, id: ProposeId)
    requires s.leader < |s.nodes| && OpsSound(s, s.ops) && Enabled(s, Sync(id))
    ensures OpsSound(s, Apply(s, Sync(id)).ops)
  {
    hide ReplySound;
    OpsUpdated(s, s.ops, id, s.ops[id].(phase := Returned(Leader(s).board.asr[Call(id)].result, BySync)));
  }

  lemma OpsAreIssued(s: Cluster, t: Step)
    requires s.leader < |s.nodes| && ClientsInv(s) && Enabled(s, t)
    ensures forall id :: id in Apply(s, t).ops ==> id in Apply(s, t).issued
    ensures t.At? || t.Append? || t.Deliver? ==> Apply(s, t).ops == s.ops
  {
    hide ReplySound, ReturnSound, Act, CanAct, MayWait, HasReturned, ReplyOf, AfterVote, Arrivals, C.Decides;
  }

  lemma OpsAfter(s: Cluster, t: Step)
    requires NodesInv(s) && ClientsInv(s) && Enabled(s, t)
    ensures OpsSound(s, Apply(s, t).ops)
    ensures forall id :: id in Apply(s, t).ops ==> id in Apply(s, t).issued
  {
    assert s.leader < |s.nodes| && OpsSound(s, s.ops);
    hide NodesInv, ClientsInv, OpsSound, Enabled, Apply;
    OpsAreIssued(s, t);
    match t {
      case Invoke(c) => OpsAfterInvoke(s, c);
      case Answer(i, id) => OpsAfterAnswer(s, i, id);
      case Vote(id, peers, o) => OpsAfterVote(s, id, peers, o);
      case Sync(id) => OpsAfterSync(s, id);
      case _ =>
    }
  }

  /** Every step keeps the cluster invariant. */
  lemma InvKept(s: Cluster, t: Step)
    requires ClusterInv(s) && Enabled(s, t)
    ensures ClusterInv(Apply(s, t))
  {
    hide NodesInv, LogInv, ClientsInv, Apply, Enabled;
    NodesKept(s, t);
    LogKept(s, t);
    ClientsKept(s, t);
  }
}
