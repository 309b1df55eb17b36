/** The client: super-quorum, vote loop and proposal ids. */
module Client {
  import opened Commands

  const ACCEPTED: uint32 := 0
  const CONFLICT: uint32 := 1

  datatype Reply = Reply(status: uint32, content: string)

  /** A reply with the index of the server that sent it. */
  datatype Arrival = Arrival(peer: nat, reply: Reply)

  /** How the vote loop ends; the super-quorum exit returns the leader's slot, which may be empty. */
  datatype Outcome = Refused(reply: Reply) | Quorum(leaderSlot: Option<Reply>) | TimedOut

  function Faults(n: nat): nat {
    if n == 0 then 0 else (n - 1) / 2
  }

  /** f + ceil(f/2) + 1. */
  function SuperQuorum(n: nat): nat {
    Faults(n) + (Faults(n) + 1) / 2 + 1
  }

  /** The super-quorum is every server exactly for one or three servers. */
  lemma SuperQuorumIsAllExactly(n: nat)
    ensures SuperQuorum(n) == n <==> n == 1 || n == 3
    ensures n >= 1 ==> SuperQuorum(n) <= n
  {
    var f := Faults(n);
    if n >= 1 {
      assert n == 2 * f + 1 || n == 2 * f + 2;
    }
  }

  /** With two servers per fault and one more, or one to spare: three halves of the faults, rounded up, and one. */
  lemma SuperQuorumExactly(f: nat)
    ensures SuperQuorum(2 * f + 1) == SuperQuorum(2 * f + 2)
    ensures 3 * f + 2 <= 2 * SuperQuorum(2 * f + 1) <= 3 * f + 3
  {
    assert Faults(2 * f + 1) == Faults(2 * f + 2) == f;
  }

  /** With 2f+1 servers it is the least number of which any f+1 servers hold a majority of their own. */
  lemma SuperQuorumIsLeast(f: nat, q: nat)
    ensures q >= SuperQuorum(2 * f + 1) <==> 2 * (q + (f + 1) - (2 * f + 1)) > f + 1
  {
    SuperQuorumExactly(f);
  }

  ghost predicate DistinctPeers(rs: seq<Arrival>) {
    forall i, j :: 0 <= i < j < |rs| ==> rs[i].peer != rs[j].peer
  }

  ghost predicate FromServers(n: nat, rs: seq<Arrival>) {
    DistinctPeers(rs) && forall i :: 0 <= i < |rs| ==> rs[i].peer < n
  }

  /** The first k replies all accept. */
  ghost predicate AllAccept(rs: seq<Arrival>, k: nat)
    requires k <= |rs|
  {
    forall i :: 0 <= i < k ==> rs[i].reply.status == ACCEPTED
  }

  /** The servers that sent the first k replies. */
  function Peers(rs: seq<Arrival>, k: nat): set<nat>
    requires k <= |rs|
  {
    set i | 0 <= i < k :: rs[i].peer
  }

  /** slot is what the peer sent among the first k replies, if it did. */
  ghost predicate IsSlotOf(slot: Option<Reply>, rs: seq<Arrival>, k: nat, peer: nat)
    requires k <= |rs|
  {
    match slot
    case Some(r) => exists i :: 0 <= i < k && rs[i] == Arrival(peer, r)
    case None => peer !in Peers(rs, k)
  }

  /** Reply k is the first that does not accept. */
  ghost predicate RefusedAt(rs: seq<Arrival>, k: nat, r: Reply) {
    k < |rs| && AllAccept(rs, k) && rs[k].reply == r && r.status != ACCEPTED
  }

  /** The outcome of the vote loop on replies that arrived in this order. */
  ghost predicate Decides(n: nat, leader: nat, rs: seq<Arrival>, o: Outcome) {
    var q := SuperQuorum(n);
    match o
    case Refused(r) => exists k :: 0 <= k < q && RefusedAt(rs, k, r)
    case Quorum(slot) =>
      && |rs| >= q && AllAccept(rs, q)
      && |Peers(rs, q)| == q
      && IsSlotOf(slot, rs, q, leader)
    case TimedOut => |rs| < q && AllAccept(rs, |rs|)
  }

  lemma PeersStep(rs: seq<Arrival>, k: nat)
    requires DistinctPeers(rs) && k < |rs|
    ensures Peers(rs, k + 1) == Peers(rs, k) + {rs[k].peer}
    ensures rs[k].peer !in Peers(rs, k)
  {
  }

  /** Replies from distinct servers count as many servers as replies. */
  lemma {:induction false} PeersSize(rs: seq<Arrival>, k: nat)
    requires DistinctPeers(rs) && k <= |rs|
    ensures |Peers(rs, k)| == k
    decreases k
  {
    if k == 0 {
      assert Peers(rs, 0) == {};
    } else {
      PeersStep(rs, k - 1);
      PeersSize(rs, k - 1);
      hide Peers, DistinctPeers;
    }
  }

  /** The filled result slots. */
  ghost function Filled(results: seq<Option<Reply>>): set<nat> {
    set p: nat | p < |results| && results[p].Some?
  }

  /** The slots hold what the first k replies brought. */
  ghost predicate SlotsHold(results: seq<Option<Reply>>, rs: seq<Arrival>, k: nat)
    requires k <= |rs|
  {
    && Filled(results) == Peers(rs, k)
    && forall p: nat :: p < |results| ==> IsSlotOf(results[p], rs, k, p)
  }

  lemma SlotsHoldStep(results: seq<Option<Reply>>, rs: seq<Arrival>, k: nat)
    requires DistinctPeers(rs) && k < |rs| && SlotsHold(results, rs, k) && rs[k].peer < |results|
    ensures SlotsHold(results[rs[k].peer := Some(rs[k].reply)], rs, k + 1)
  {
    var results' := results[rs[k].peer := Some(rs[k].reply)];
    PeersStep(rs, k);
    assert Filled(results') == Filled(results) + {rs[k].peer};
    assert rs[k] == Arrival(rs[k].peer, rs[k].reply);
  }

  /** The vote loop of fastRound, with acceptedCount the number of distinct filled slots throughout. */
  method FastRound(n: nat, leader: nat, arrivals: seq<Arrival>) returns (o: Outcome, acceptedCount: nat)
    requires leader < n && FromServers(n, arrivals)
    ensures Decides(n, leader, arrivals, o)
    ensures acceptedCount <= |arrivals| && |Peers(arrivals, acceptedCount)| == acceptedCount
    ensures AllAccept(arrivals, acceptedCount)
  {
    acceptedCount := 0;
    var results: array<Option<Reply>> := new Option<Reply>[n](_ => None);
    var next := 0;
    PeersSize(arrivals, 0);
    while next < |arrivals|
      invariant 0 <= next <= |arrivals| && next == acceptedCount < SuperQuorum(n)
      invariant AllAccept(arrivals, next)
      invariant SlotsHold(results[..], arrivals, next)
      invariant |Filled(results[..])| == acceptedCount
    {
      var a := arrivals[next];
      if a.reply.status == ACCEPTED {
        SlotsHoldStep(results[..], arrivals, next);
        acceptedCount := acceptedCount + 1;
        ghost var before := results[..];
        results[a.peer] := Some(a.reply);
        assert results[..] == before[a.peer := Some(a.reply)];
      } else {
        assert RefusedAt(arrivals, next, a.reply);
        return Refused(a.reply), acceptedCount;
      }
      next := next + 1;
      PeersSize(arrivals, next);
      if acceptedCount == SuperQuorum(n) {
        assert results[..][leader] == results[leader];
        return Quorum(results[leader]), acceptedCount;
      }
    }
    return TimedOut, acceptedCount;
  }

  /** The replies determine the outcome. */
  lemma OutcomeUnique(n: nat, leader: nat, rs: seq<Arrival>, o: Outcome, p: Outcome)
    requires DistinctPeers(rs)
    requires Decides(n, leader, rs, o) && Decides(n, leader, rs, p)
    ensures o == p
  {
    var q := SuperQuorum(n);
    if o.Quorum? && p.Quorum? {
      assert forall i :: 0 <= i < q ==> rs[i].peer in Peers(rs, q);
    }
  }

  /** Whatever the arrival order, the super-quorum exit finds the leader's slot filled. */
  ghost predicate LeaderAlwaysVotes(n: nat, leader: nat) {
    forall rs, slot :: FromServers(n, rs) && Decides(n, leader, rs, Quorum(slot)) ==> slot.Some?
  }

  /** The server indices 0 to n - 1. */
  function UpTo(n: nat): (r: set<nat>)
    ensures |r| == n
    ensures forall p: nat :: p in r <==> p < n
  {
    if n == 0 then {} else UpTo(n - 1) + {n - 1}
  }

  lemma FullSubset(a: set<nat>, b: set<nat>)
    requires a <= b && |a| == |b|
    ensures a == b
  {
    assert b == a + (b - a);
  }

  /** Accepting replies from the first k servers other than the leader. */
  function LeaderLate(k: nat, leader: nat): seq<Arrival> {
    seq(k, (i: nat) => Arrival(if i < leader then i else i + 1, Reply(ACCEPTED, "")))
  }

  /** The exit is sure to have the leader's reply exactly with one or three servers; otherwise its slot can be nil. */
  lemma LeaderVotesExactly(n: nat, leader: nat)
    requires leader < n
    ensures LeaderAlwaysVotes(n, leader) <==> n == 1 || n == 3
  {
    var q := SuperQuorum(n);
    SuperQuorumIsAllExactly(n);
    if q == n {
      forall rs, slot | FromServers(n, rs) && Decides(n, leader, rs, Quorum(slot)) ensures slot.Some? {
        assert Peers(rs, q) <= UpTo(n);
        FullSubset(Peers(rs, q), UpTo(n));
        assert leader in UpTo(n);
      }
    } else {
      var rs := LeaderLate(q, leader);
      assert FromServers(n, rs);
      PeersSize(rs, q);
      assert Decides(n, leader, rs, Quorum(None));
    }
  }

  // ---------------------------------------------------------------- the client object

  /** How Propose ends; NilSlot: it dereferences the leader's empty slot. */
  datatype Ending = Answered(content: string) | TimeoutError | NilSlot

  class GrpcClient {
    const ClientId: uint64
    var SeqId: uint64
    var fast: nat  // rounds that a super-quorum ended
    var slow: nat  // rounds that a refusal ended

    constructor (id: uint64)
      ensures ClientId == id && SeqId == 0 && fast == 0 && slow == 0
    {
      ClientId, SeqId, fast, slow := id, 0, 0, 0;
    }

    /** The fast round on the replies that arrive before the timeout, and after a refusal the slow round. */
    method Propose(n: nat, leader: nat, arrivals: seq<Arrival>, synced: string) returns (r: Ending)
      requires leader < n && FromServers(n, arrivals)
      modifies this`fast, this`slow
      ensures |arrivals| >= SuperQuorum(n) && AllAccept(arrivals, SuperQuorum(n)) ==>
                if leader in Peers(arrivals, SuperQuorum(n)) then
                  && fast == old(fast) + 1 && slow == old(slow) && r.Answered?
                  && exists k :: 0 <= k < SuperQuorum(n) && arrivals[k].peer == leader
                                 && arrivals[k].reply.content == r.content
                else r == NilSlot && fast == old(fast) && slow == old(slow)
      ensures |arrivals| < SuperQuorum(n) && AllAccept(arrivals, |arrivals|) ==>
                r == TimeoutError && fast == old(fast) && slow == old(slow)
      ensures (exists k :: 0 <= k < |arrivals| && k < SuperQuorum(n) && arrivals[k].reply.status != ACCEPTED) ==>
                r == Answered(synced) && fast == old(fast) && slow == old(slow) + 1
    {
      var o, _ := FastRound(n, leader, arrivals);
      match o {
        case TimedOut => r := TimeoutError;
        case Quorum(None) => r := NilSlot;
        case Quorum(Some(reply)) =>
          fast := fast + 1;
          r := Answered(reply.content);
        case Refused(_) =>
          slow := slow + 1;
          r := Answered(synced);
      }
    }

    method GetProposeId() returns (id: ProposeId)
      modifies this
      ensures id == NthId(ClientId, old(SeqId), 1)
      ensures id.clientId == ClientId
      ensures id.seqId as int == if old(SeqId) as int + 1 == U64 then 0 else old(SeqId) as int + 1
      ensures SeqId == id.seqId
    {
      SeqId := if SeqId as int + 1 == U64 then 0 else SeqId + 1;
      id := ProposeId(ClientId, SeqId);
    }
  }

  /** The id a client hands out on its k-th call, the counter wrapping at 64 bits. */
  function NthId(clientId: uint64, start: uint64, k: nat): ProposeId {
    ProposeId(clientId, ((start as int + k) % U64) as uint64)
  }

  /** Counting k calls and then one more is counting k + 1 calls. */
  lemma NthIdStep(clientId: uint64, start: uint64, k: nat)
    ensures NthId(clientId, NthId(clientId, start, k).seqId, 1) == NthId(clientId, start, k + 1)
  {
  }

  lemma IdsRepeat(clientId: uint64, start: uint64, j: nat, k: nat)
    requires j <= k
    ensures NthId(clientId, start, j) == NthId(clientId, start, k) <==> (k - j) % U64 == 0
  {
    var a, b := start as int + j, start as int + k;
    assert b == a + (k - j);
    var qa, qb := a / U64, b / U64;
    assert a == U64 * qa + a % U64 && b == U64 * qb + b % U64;
    var d := k - j;
    assert d == U64 * (d / U64) + d % U64;
  }

  lemma NthIdExactly(clientId: uint64, start: uint64, k: nat)
    ensures NthId(clientId, start, k).clientId == clientId
    ensures NthId(clientId, start, k).seqId as int == (start as int + k) % U64
  {
  }

  /** Any n calls: the j-th returns the j-th id, and two return the same id exactly when 2^64 divides their distance. */
  method TakeIds(client: GrpcClient, n: nat) returns (ids: seq<ProposeId>)
    modifies client
    ensures |ids| == n
    ensures forall j :: 0 <= j < n ==> ids[j] == NthId(client.ClientId, old(client.SeqId), j + 1)
    ensures forall j :: 0 <= j < n ==>
              ids[j].clientId == client.ClientId && ids[j].seqId as int == (old(client.SeqId) as int + j + 1) % U64
    ensures forall j, k :: 0 <= j <= k < n ==> (ids[j] == ids[k] <==> (k - j) % U64 == 0)
    ensures client.SeqId == NthId(client.ClientId, old(client.SeqId), n).seqId
  {
    hide NthId;
    ghost var me, start := client.ClientId, client.SeqId;
    ids := [];
    NthIdStart(me, start);
    while |ids| < n
      invariant |ids| <= n
      invariant client.SeqId == NthId(me, start, |ids|).seqId
      invariant forall j :: 0 <= j < |ids| ==> ids[j] == NthId(me, start, j + 1)
    {
      NthIdStep(me, start, |ids|);
      var id := client.GetProposeId();
      ids := ids + [id];
    }
    forall j | 0 <= j < n ensures ids[j].clientId == me && ids[j].seqId as int == (start as int + j + 1) % U64 {
      NthIdExactly(me, start, j + 1);
    }
    forall j, k | 0 <= j <= k < n ensures ids[j] == ids[k] <==> (k - j) % U64 == 0 {
      IdsRepeat(me, start, j + 1, k + 1);
    }
  }

  lemma NthIdStart(clientId: uint64, start: uint64)
    ensures NthId(clientId, start, 0).seqId == start
  {
  }
}
