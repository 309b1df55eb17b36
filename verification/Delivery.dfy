/** Delivery of committed entries: index arithmetic, publication, and the commit reader. */
module Delivery {
  import opened Commands

  // uint64 arithmetic wraps.
  function Add64(a: uint64, b: uint64): uint64 {
    ((a as int + b as int) % U64) as uint64
  }

  function Sub64(a: uint64, b: uint64): uint64 {
    ((a as int - b as int) % U64) as uint64
  }

  datatype ConfChange = AddNode(nodeId: uint64, context: string) | RemoveNode(nodeId: uint64) | OtherChange

  /** What the transport is told. */
  datatype PeerCall = AddPeer(nodeId: uint64, url: string) | RemovePeer(nodeId: uint64)

  /**
   * What goes over commitC: data with the channel its reader closes, or the nil commit and how its snapshot load
   * ends.
   */
  datatype Commit = Batch(data: seq<string>, applyDone: nat) | LoadSnapshot(loaded: bool)

  /** A committed entry: a normal entry's bytes, a membership change, or another entry type. */
  datatype Entry =
    | Normal(index: uint64, data: string)
    | Conf(index: uint64, change: ConfChange)
    | Other(index: uint64)

  // ---------------------------------------------------------------- skipping what is already applied

  /** The skip count of entriesToApply. */
  function Skip(applied: uint64, first: uint64): uint64 {
    Add64(Sub64(applied, first), 1)
  }

  /** The wraparound expression is the true distance, except at the one wrapped extreme. */
  lemma SkipExactly(applied: uint64, first: uint64)
    requires first as int <= applied as int + 1
    ensures Skip(applied, first) as int == applied as int + 1 - first as int <==>
            !(applied as int == U64 - 1 && first == 0)
  {
    var d := applied as int - first as int;
    if first as int == applied as int + 1 {
      assert d % U64 == U64 - 1;
    } else {
      assert d % U64 == d;
    }
  }

  /** entriesToApply; None is the fatal exit. */
  function EntriesToApply(applied: uint64, ents: seq<Entry>): Option<seq<Entry>> {
    if ents == [] then Some(ents)
    else if ents[0].index > Add64(applied, 1) then None
    else if (Skip(applied, ents[0].index) as int) < |ents| then Some(ents[Skip(applied, ents[0].index) as int..])
    else Some([])
  }

  // ---------------------------------------------------------------- the log

  /** The log raft commits: entry k has index k + 1. */
  ghost predicate IsLog(log: seq<Entry>) {
    && |log| < U64 - 1
    && forall k :: 0 <= k < |log| ==> log[k].index as int == k + 1
  }

  /** The non-empty normal entries' data, in order. */
  function Payloads(ents: seq<Entry>): seq<string> {
    if ents == [] then []
    else Payloads(ents[..|ents| - 1]) + Payload(ents[|ents| - 1])
  }

  function Payload(e: Entry): seq<string> {
    if e.Normal? && e.data != "" then [e.data] else []
  }

  lemma {:induction false} PayloadsConcat(a: seq<Entry>, b: seq<Entry>)
    ensures Payloads(a + b) == Payloads(a) + Payloads(b)
    decreases |b|
  {
    if b == [] {
      assert a + b == a;
    } else {
      var b', e := b[..|b| - 1], b[|b| - 1];
      assert (a + b)[..|a + b| - 1] == a + b';
      PayloadsConcat(a, b');
    }
  }

  // ---------------------------------------------------------------- what a list made from entries holds

  /** The positions before k whose entry has a value. */
  ghost function WithValue<T>(ents: seq<Entry>, value: Entry -> Option<T>, k: nat): set<nat>
    requires k <= |ents|
  {
    set j: nat | j < k && value(ents[j]).Some?
  }

  /** out holds the entries' values, one each, in order. */
  ghost predicate Lists<T>(ents: seq<Entry>, value: Entry -> Option<T>, out: seq<T>) {
    && |out| == |WithValue(ents, value, |ents|)|
    && forall k :: 0 <= k < |ents| && value(ents[k]).Some? ==>
         |WithValue(ents, value, k)| < |out| && out[|WithValue(ents, value, k)|] == value(ents[k]).value
  }

  lemma WithValueSnoc<T>(ents: seq<Entry>, e: Entry, value: Entry -> Option<T>)
    ensures forall k :: 0 <= k <= |ents| ==> WithValue(ents + [e], value, k) == WithValue(ents, value, k)
    ensures |WithValue(ents + [e], value, |ents| + 1)| ==
            |WithValue(ents, value, |ents|)| + if value(e).Some? then 1 else 0
  {
    var n, all := |ents|, ents + [e];
    assert forall j :: 0 <= j < n ==> all[j] == ents[j];
    forall k | 0 <= k <= n ensures WithValue(all, value, k) == WithValue(ents, value, k) {
    }
    assert WithValue(all, value, n + 1) == WithValue(ents, value, n) + if value(e).Some? then {n} else {};
  }

  lemma ListsSnoc<T>(ents: seq<Entry>, e: Entry, value: Entry -> Option<T>, out: seq<T>)
    requires Lists(ents, value, out)
    ensures Lists(ents + [e], value, out + if value(e).Some? then [value(e).value] else [])
  {
    WithValueSnoc(ents, e, value);
    var all := ents + [e];
    assert forall j :: 0 <= j < |ents| ==> all[j] == ents[j];
    assert all[|ents|] == e;
    hide WithValue;
  }

  function DataOf(e: Entry): Option<string> {
    if e.Normal? && e.data != "" then Some(e.data) else None
  }

  lemma {:induction false} PayloadsList(ents: seq<Entry>)
    ensures Lists(ents, DataOf, Payloads(ents))
    decreases |ents|
  {
    if ents == [] {
    } else {
      var before, e := ents[..|ents| - 1], ents[|ents| - 1];
      assert ents == before + [e];
      PayloadsList(before);
      ListsSnoc(before, e, DataOf, Payloads(before));
      assert Payload(e) == if DataOf(e).Some? then [DataOf(e).value] else [];
    }
  }

  /** data is one datum for each normal entry with data, in the order of the entries. */
  ghost predicate DataInOrder(ents: seq<Entry>, data: seq<string>) {
    && |data| == |set j: nat | j < |ents| && ents[j].Normal? && ents[j].data != ""|
    && forall k: nat :: k < |ents| && ents[k].Normal? && ents[k].data != "" ==>
         var place := |set j: nat | j < k && ents[j].Normal? && ents[j].data != ""|;
         place < |data| && data[place] == ents[k].data
  }

  lemma PayloadsExactly(ents: seq<Entry>)
    ensures DataInOrder(ents, Payloads(ents))
  {
    PayloadsList(ents);
    forall k: nat | k <= |ents|
      ensures WithValue(ents, DataOf, k) == set j: nat | j < k && ents[j].Normal? && ents[j].data != ""
    {
    }
    hide Payloads;
  }

  function Data(m: Commit): seq<string> {
    if m.Batch? then m.data else []
  }

  /** The data of the commits, in order. */
  function Published(commits: seq<Commit>): seq<string> {
    if commits == [] then [] else Published(commits[..|commits| - 1]) + Data(commits[|commits| - 1])
  }

  /** Each commit carries data and a channel of its own. */
  ghost predicate Numbered(commits: seq<Commit>) {
    forall k :: 0 <= k < |commits| ==> commits[k].Batch? && commits[k].applyDone == k
  }

  lemma PublishedSnoc(commits: seq<Commit>, data: seq<string>)
    ensures Published(commits + [Batch(data, |commits|)]) == Published(commits) + data
  {
    var m := Batch(data, |commits|);
    assert (commits + [m])[..|commits|] == commits;
  }

  lemma NumberedSnoc(commits: seq<Commit>, data: seq<string>)
    requires Numbered(commits)
    ensures Numbered(commits + [Batch(data, |commits|)])
  {
  }

  /**
   * A batch [lo, hi) of the log is fatal exactly when it leaves a gap, and else is cut down to what is not applied
   * yet.
   */
  lemma SliceIsCut(log: seq<Entry>, applied: uint64, lo: nat, hi: nat)
    requires IsLog(log) && lo <= hi <= |log| && applied as int <= |log|
    ensures EntriesToApply(applied, log[lo..hi]) ==
            if lo == hi then Some([])
            else if (applied as int) < lo then None
            else Some(if (applied as int) < hi then log[applied as int..hi] else [])
  {
    var ents, a := log[lo..hi], applied as int;
    assert lo < hi ==> ents[0] == log[lo];
    assert Add64(applied, 1) as int == a + 1;
    if lo < hi && lo <= a {
      var first := ents[0].index;
      SkipExactly(applied, first);
      if a < hi {
        assert ents[a - lo..] == log[a..hi];
      }
    }
  }

  // ---------------------------------------------------------------- publication

  predicate RemovesSelf(e: Entry, id: uint64) {
    e.Conf? && e.change == RemoveNode(id)
  }

  /** The membership changes handed to raft. */
  function Changes(ents: seq<Entry>): seq<ConfChange> {
    if ents == [] then []
    else Changes(ents[..|ents| - 1]) + if ents[|ents| - 1].Conf? then [ents[|ents| - 1].change] else []
  }

  /** What the transport is told for the entries; nothing for the removal of the node itself. */
  function PeerCalls(ents: seq<Entry>, id: uint64): seq<PeerCall> {
    if ents == [] then []
    else PeerCalls(ents[..|ents| - 1], id) + PeerCallOf(ents[|ents| - 1], id)
  }

  function PeerCallOf(e: Entry, id: uint64): seq<PeerCall> {
    if !e.Conf? then []
    else match e.change
      case AddNode(n, context) => if context != "" then [AddPeer(n, context)] else []
      case RemoveNode(n) => if n != id then [RemovePeer(n)] else []
      case OtherChange => []
  }

  function ChangeOf(e: Entry): Option<ConfChange> {
    if e.Conf? then Some(e.change) else None
  }

  /** The transport is told of this entry. */
  predicate TellsPeer(e: Entry, id: uint64) {
    e.Conf? && ((e.change.AddNode? && e.change.context != "") || (e.change.RemoveNode? && e.change.nodeId != id))
  }

  function PeerOf(e: Entry, id: uint64): Option<PeerCall> {
    if !TellsPeer(e, id) then None
    else if e.change.AddNode? then Some(AddPeer(e.change.nodeId, e.change.context))
    else Some(RemovePeer(e.change.nodeId))
  }

  /** Raft receives every membership change, and the transport every added or other removed peer, in order. */
  lemma {:induction false} ConfExactly(ents: seq<Entry>, id: uint64)
    ensures Lists(ents, ChangeOf, Changes(ents)) && Lists(ents, e => PeerOf(e, id), PeerCalls(ents, id))
    decreases |ents|
  {
    var peer := e => PeerOf(e, id);
    if ents == [] {
    } else {
      var before, e := ents[..|ents| - 1], ents[|ents| - 1];
      assert ents == before + [e];
      ConfExactly(before, id);
      ListsSnoc(before, e, ChangeOf, Changes(before));
      ListsSnoc(before, e, peer, PeerCalls(before, id));
      assert PeerCallOf(e, id) == if peer(e).Some? then [peer(e).value] else [];
    }
  }

  /** How many entries publishEntries looks at: it stops after removing its own node. */
  function Examined(ents: seq<Entry>, id: uint64, from: nat): (k: nat)
    requires from <= |ents|
    ensures from <= k <= |ents|
    decreases |ents| - from
  {
    if from == |ents| then from
    else if RemovesSelf(ents[from], id) then from + 1
    else Examined(ents, id, from + 1)
  }

  /** It looks at the entries up to the first that removes the node itself, and at all if there is none. */
  lemma {:induction false} ExaminedExactly(ents: seq<Entry>, id: uint64, from: nat)
    requires from <= |ents|
    ensures var k := Examined(ents, id, from);
            && (forall j :: from <= j < k - 1 ==> !RemovesSelf(ents[j], id))
            && (k < |ents| ==> from < k && RemovesSelf(ents[k - 1], id))
    decreases |ents| - from
  {
    if from == |ents| || RemovesSelf(ents[from], id) {
    } else {
      ExaminedExactly(ents, id, from + 1);
    }
  }

  lemma NoneExamined(ents: seq<Entry>, id: uint64)
    ensures Payloads(ents[..0]) == [] && Changes(ents[..0]) == [] && PeerCalls(ents[..0], id) == []
    ensures ents == [] ==> Payloads(ents) == [] && Examined(ents, id, 0) == 0
  {
  }

  lemma OneMoreExamined(ents: seq<Entry>, id: uint64, i: nat)
    requires i < |ents|
    ensures Payloads(ents[..i + 1]) == Payloads(ents[..i]) + Payload(ents[i])
    ensures Changes(ents[..i + 1]) == Changes(ents[..i]) + if ents[i].Conf? then [ents[i].change] else []
    ensures PeerCalls(ents[..i + 1], id) == PeerCalls(ents[..i], id) + PeerCallOf(ents[i], id)
    ensures Examined(ents, id, i) == if RemovesSelf(ents[i], id) then i + 1 else Examined(ents, id, i + 1)
  {
    assert ents[..i + 1][..i] == ents[..i];
  }

  lemma AllExamined(ents: seq<Entry>, id: uint64)
    ensures Examined(ents, id, |ents|) == |ents|
  {
  }

  /** What entriesToApply hands on takes the log from the applied index to where the batch reaches. */
  lemma NextEntries(log: seq<Entry>, applied: uint64, lo: nat, hi: nat, id: uint64)
    requires IsLog(log) && lo <= hi <= |log| && lo <= applied as int <= |log|
    requires forall k :: 0 <= k < |log| ==> !RemovesSelf(log[k], id)
    ensures var nents := EntriesToApply(applied, log[lo..hi]);
            var reach := Advance(applied as int, lo, hi);
            && nents.Some? && reach <= |log|
            && (forall k :: 0 <= k < |nents.value| ==> !RemovesSelf(nents.value[k], id))
            && (nents.value == [] ==> reach == applied as int)
            && (nents.value != [] ==> nents.value[|nents.value| - 1].index as int == reach)
            && Payloads(log[..applied as int]) + Payloads(nents.value) == Payloads(log[..reach])
  {
    hide EntriesToApply, Payloads;
    SliceIsCut(log, applied, lo, hi);
    var a, reach := applied as int, Advance(applied as int, lo, hi);
    var nents := if lo < hi && a < hi then log[a..hi] else [];
    assert log[..a] + nents == log[..reach];
    PayloadsConcat(log[..a], nents);
    assert nents != [] ==> nents[|nents| - 1] == log[hi - 1];
  }

  /** S: raft's configuration state. */
  class CurpNode<S> {
    const id: uint64
    const configuration: seq<ConfChange> -> S  // what ApplyConfChange answers after it received these changes
    var confState: S
    var appliedIndex: uint64
    var changes: seq<ConfChange>   // what ApplyConfChange received
    var peerCalls: seq<PeerCall>   // what the transport was told
    var commits: seq<Commit>       // what was sent on commitC

    constructor (id: uint64, configuration: seq<ConfChange> -> S)
      ensures this.id == id && this.configuration == configuration && confState == configuration([])
      ensures appliedIndex == 0 && changes == [] && peerCalls == [] && commits == []
    {
      this.id, this.configuration, confState := id, configuration, configuration([]);
      appliedIndex, changes, peerCalls, commits := 0, [], [], [];
    }

    /** stopped: the stop signal wins over the commit channel. done: the channel that the commit's reader will close. */
    method PublishEntries(ents: seq<Entry>, stopped: bool) returns (done: Option<nat>, ok: bool)
      modifies this
      ensures ok <==>
              && (forall k :: 0 <= k < |ents| && ents[k].Conf? ==> ents[k].change != RemoveNode(id))
              && !(stopped && Payloads(ents) != [])
      ensures !ok ==> appliedIndex == old(appliedIndex) && commits == old(commits) && done == None
      ensures var seen := ents[..Examined(ents, id, 0)];
              && changes == old(changes) + Changes(seen)
              && peerCalls == old(peerCalls) + PeerCalls(seen, id)
              && confState == if Changes(seen) == [] then old(confState) else configuration(changes)
      ensures ok ==> appliedIndex == if ents == [] then old(appliedIndex) else ents[|ents| - 1].index
      ensures ok && Payloads(ents) == [] ==> commits == old(commits) && done == None
      ensures ok && Payloads(ents) != [] ==>
                commits == old(commits) + [Batch(Payloads(ents), |old(commits)|)] && done == Some(|old(commits)|)
      ensures DataInOrder(ents, Payloads(ents))
    {
      hide DataInOrder, Payloads, Changes, Examined, PeerCalls;
      PayloadsExactly(ents);
      NoneExamined(ents, id);
      done := None;
      if |ents| == 0 {
        return done, true;
      }
      var data := [];
      var i := 0;
      while i < |ents|
        invariant 0 <= i <= |ents|
        invariant data == Payloads(ents[..i])
        invariant changes == old(changes) + Changes(ents[..i])
        invariant peerCalls == old(peerCalls) + PeerCalls(ents[..i], id)
        invariant confState == if Changes(ents[..i]) == [] then old(confState) else configuration(changes)
        invariant forall k :: 0 <= k < i ==> !RemovesSelf(ents[k], id)
        invariant appliedIndex == old(appliedIndex) && commits == old(commits)
        invariant Examined(ents, id, 0) == Examined(ents, id, i)
      {
        OneMoreExamined(ents, id, i);
        match ents[i] {
          case Normal(_, bytes) =>
            if bytes != "" {
              data := data + [bytes];
            }
          case Conf(_, change) =>
            changes := changes + [change];
            confState := configuration(changes);
            match change {
              case AddNode(n, context) =>
                if context != "" {
                  peerCalls := peerCalls + [AddPeer(n, context)];
                }
              case RemoveNode(n) =>
                if n == id {
                  return None, false;
                }
                peerCalls := peerCalls + [RemovePeer(n)];
              case OtherChange =>
            }
          case Other(_) =>
        }
        i := i + 1;
      }
      AllExamined(ents, id);
      assert ents[..i] == ents;
      if |data| > 0 {
        if stopped {
          return None, false;
        }
        done := Some(|commits|);
        commits := commits + [Batch(data, |commits|)];
      }
      appliedIndex := ents[|ents| - 1].index;
      return done, true;
    }

    /** What was published is the log up to the applied index, each commit with a channel of its own. */
    ghost predicate UpToDate(log: seq<Entry>)
      reads this
    {
      appliedIndex as int <= |log| && Published(commits) == Payloads(log[..appliedIndex as int]) && Numbered(commits)
    }

    /** One round of serveChannels on the committed slice [lo, hi) of the log. */
    method ServeBatch(log: seq<Entry>, lo: nat, hi: nat)
      requires IsLog(log) && lo <= hi <= |log| && lo <= appliedIndex as int && UpToDate(log)
      requires forall k :: 0 <= k < |log| ==> !RemovesSelf(log[k], id)
      modifies this
      ensures UpToDate(log)
      ensures appliedIndex as int == Advance(old(appliedIndex) as int, lo, hi)
    {
      NextEntries(log, appliedIndex, lo, hi, id);
      hide EntriesToApply, Payloads, IsLog, Changes, PeerCalls, Examined, Advance;
      var nents := EntriesToApply(appliedIndex, log[lo..hi]);
      PublishedSnoc(commits, Payloads(nents.value));
      NumberedSnoc(commits, Payloads(nents.value));
      hide Published, Numbered;
      var _, _ := PublishEntries(nents.value, false);
    }

    /** The delivery part of serveChannels over a run of batches, each a slice [lo, hi) of the log. */
    method ServeBatches(log: seq<Entry>, batches: seq<(nat, nat)>)
      requires IsLog(log) && NoGaps(appliedIndex as int, batches, |log|) && UpToDate(log)
      requires forall k :: 0 <= k < |log| ==> !RemovesSelf(log[k], id)
      modifies this
      ensures UpToDate(log)
      ensures appliedIndex as int == Reached(old(appliedIndex) as int, batches)
      ensures DataInOrder(log[..appliedIndex as int], Published(commits))
    {
      var b := 0;
      while b < |batches|
        invariant 0 <= b <= |batches| && UpToDate(log)
        invariant NoGaps(appliedIndex as int, batches[b..], |log|)
        invariant Reached(old(appliedIndex) as int, batches) == Reached(appliedIndex as int, batches[b..])
      {
        assert batches[b..][0] == batches[b] && batches[b..][1..] == batches[b + 1..];
        ServeBatch(log, batches[b].0, batches[b].1);
        b := b + 1;
      }
      PayloadsExactly(log[..appliedIndex as int]);
    }
  }

  /** Each batch starts no later than where the ones before it reached. */
  ghost predicate NoGaps(applied: nat, batches: seq<(nat, nat)>, limit: nat)
    decreases |batches|
  {
    batches == [] ||
    (batches[0].0 <= batches[0].1 <= limit && batches[0].0 <= applied
     && NoGaps(Advance(applied, batches[0].0, batches[0].1), batches[1..], limit))
  }

  function Advance(applied: nat, lo: nat, hi: nat): nat {
    if lo < hi && applied < hi then hi else applied
  }

  /** How far the batches reach. */
  function Reached(applied: nat, batches: seq<(nat, nat)>): nat
    decreases |batches|
  {
    if batches == [] then applied else Reached(Advance(applied, batches[0].0, batches[0].1), batches[1..])
  }

  /** The batches reach as far as the one that ends last, and never back. */
  lemma {:induction false} ReachedExactly(applied: nat, batches: seq<(nat, nat)>)
    ensures applied <= Reached(applied, batches)
    ensures forall i :: 0 <= i < |batches| && batches[i].0 < batches[i].1 ==> batches[i].1 <= Reached(applied, batches)
    ensures Reached(applied, batches) == applied ||
            exists i :: 0 <= i < |batches| && batches[i].0 < batches[i].1 == Reached(applied, batches)
    decreases |batches|
  {
    if batches == [] {
    } else {
      var next, rest := Advance(applied, batches[0].0, batches[0].1), batches[1..];
      ReachedExactly(next, rest);
      assert batches == [batches[0]] + rest;
      if Reached(applied, batches) != next {
        var i :| 0 <= i < |rest| && rest[i].0 < rest[i].1 == Reached(next, rest);
        assert batches[i + 1] == rest[i];
      }
    }
  }

  // ---------------------------------------------------------------- the commit reader

  /** The commands of the data, up to the first datum that does not decode. */
  function Decoded(decode: string -> Option<Command>, data: seq<string>): seq<Command> {
    if data == [] then []
    else match decode(data[0])
      case None => []
      case Some(c) => [c] + Decoded(decode, data[1..])
  }

  ghost predicate AllDecode(decode: string -> Option<Command>, data: seq<string>) {
    forall i :: 0 <= i < |data| ==> decode(data[i]).Some?
  }

  lemma {:induction false} DecodedConcat(decode: string -> Option<Command>, a: seq<string>, b: seq<string>)
    requires AllDecode(decode, a)
    ensures Decoded(decode, a + b) == Decoded(decode, a) + Decoded(decode, b)
    decreases |a|
  {
    if a == [] {
      assert a + b == b;
    } else {
      assert (a + b)[0] == a[0] && (a + b)[1..] == a[1..] + b;
      DecodedConcat(decode, a[1..], b);
    }
  }

  /** The reader gets past this commit. */
  ghost predicate Readable(decode: string -> Option<Command>, m: Commit) {
    match m
    case Batch(data, _) => AllDecode(decode, data)
    case LoadSnapshot(loaded) => loaded
  }

  /** The channels of the commits, in order. */
  function Channels(commits: seq<Commit>): seq<nat> {
    if commits == [] then []
    else
      var before, m := commits[..|commits| - 1], commits[|commits| - 1];
      Channels(before) + if m.Batch? then [m.applyDone] else []
  }

  lemma OneMoreRead(commits: seq<Commit>, c: nat)
    requires c < |commits|
    ensures Published(commits[..c + 1]) == Published(commits[..c]) + Data(commits[c])
    ensures Channels(commits[..c + 1]) ==
            Channels(commits[..c]) + if commits[c].Batch? then [commits[c].applyDone] else []
  {
    assert commits[..c + 1][..c] == commits[..c];
  }

  /** The commits among the first k that carry channel c. */
  ghost function Carrying(commits: seq<Commit>, k: nat, c: nat): set<nat>
    requires k <= |commits|
  {
    set j: nat | j < k && commits[j].Batch? && commits[j].applyDone == c
  }

  lemma CarryingStep(commits: seq<Commit>, k: nat, c: nat)
    requires k < |commits|
    ensures |Carrying(commits, k + 1, c)| ==
            |Carrying(commits, k, c)| + if commits[k].Batch? && commits[k].applyDone == c then 1 else 0
  {
    var m := commits[k];
    assert Carrying(commits, k + 1, c) ==
           Carrying(commits, k, c) + if m.Batch? && m.applyDone == c then {k} else {};
  }

  lemma NoneCarrying(commits: seq<Commit>, c: nat)
    ensures multiset(Channels(commits[..0]))[c] == |Carrying(commits, 0, c)|
  {
    assert Carrying(commits, 0, c) == {};
  }

  lemma ChannelsStep(commits: seq<Commit>, k: nat, c: nat)
    requires k < |commits|
    ensures multiset(Channels(commits[..k + 1]))[c] ==
            multiset(Channels(commits[..k]))[c] + if commits[k].Batch? && commits[k].applyDone == c then 1 else 0
  {
    OneMoreRead(commits, k);
    hide Channels, Published;
    var before, m := Channels(commits[..k]), commits[k];
    assert m.Batch? ==> multiset(before + [m.applyDone]) == multiset(before) + multiset{m.applyDone};
    assert before + [] == before;
  }

  /** The channels hold each one as often as a commit carries it. */
  lemma {:induction false} ChannelsExactly(commits: seq<Commit>, k: nat, c: nat)
    requires k <= |commits|
    ensures multiset(Channels(commits[..k]))[c] == |Carrying(commits, k, c)|
    decreases k
  {
    hide *;
    if k == 0 {
      NoneCarrying(commits, c);
    } else {
      ChannelsExactly(commits, k - 1, c);
      CarryingStep(commits, k - 1, c);
      ChannelsStep(commits, k - 1, c);
    }
  }

  /** The reader has dealt with the first `read` commits. */
  ghost predicate HasRead(decode: string -> Option<Command>, commits: seq<Commit>, read: nat, closed: seq<nat>)
    requires read <= |commits|
  {
    && (forall c :: 0 <= c < read ==> Readable(decode, commits[c]))
    && closed == Channels(commits[..read])
  }

  /** The reader has sent the data of the first `read` commits, and d data of the next. */
  ghost predicate HasSent(
    decode: string -> Option<Command>, commits: seq<Commit>, read: nat, d: nat, slowPath: seq<Command>)
    requires read <= |commits|
  {
    var next := if read < |commits| then Data(commits[read]) else [];
    && d <= |next|
    && AllDecode(decode, Published(commits[..read]) + next[..d])
    && slowPath == Decoded(decode, Published(commits[..read]) + next[..d])
  }

  lemma NothingRead(decode: string -> Option<Command>, commits: seq<Commit>)
    ensures HasRead(decode, commits, 0, []) && HasSent(decode, commits, 0, 0, [])
  {
  }

  lemma DatumSent(decode: string -> Option<Command>, commits: seq<Commit>, read: nat, d: nat, slowPath: seq<Command>)
    requires read < |commits| && HasSent(decode, commits, read, d, slowPath)
    requires d < |Data(commits[read])| && decode(Data(commits[read])[d]).Some?
    ensures HasSent(decode, commits, read, d + 1, slowPath + [decode(Data(commits[read])[d]).value])
  {
    var before, next := Published(commits[..read]), Data(commits[read]);
    assert before + next[..d + 1] == (before + next[..d]) + [next[d]];
    DecodedConcat(decode, before + next[..d], [next[d]]);
  }

  /** The whole commit is sent. */
  lemma CommitSent(decode: string -> Option<Command>, commits: seq<Commit>, read: nat, slowPath: seq<Command>)
    requires read < |commits| && HasSent(decode, commits, read, |Data(commits[read])|, slowPath)
    ensures HasSent(decode, commits, read + 1, 0, slowPath) && AllDecode(decode, Data(commits[read]))
  {
    var before, data := Published(commits[..read]), Data(commits[read]);
    OneMoreRead(commits, read);
    assert data[..|data|] == data;
    assert Published(commits[..read + 1]) + [] == before + data;
    assert forall k :: 0 <= k < |data| ==> (before + data)[|before| + k] == data[k];
  }

  lemma CommitRead(decode: string -> Option<Command>, commits: seq<Commit>, read: nat, closed: seq<nat>)
    requires read < |commits| && HasRead(decode, commits, read, closed) && Readable(decode, commits[read])
    ensures HasRead(decode, commits, read + 1, closed + if commits[read].Batch? then [commits[read].applyDone] else [])
  {
    OneMoreRead(commits, read);
  }

  lemma NoneDecoded(decode: string -> Option<Command>, data: seq<string>)
    requires data == [] || decode(data[0]).None?
    ensures Decoded(decode, data) == []
  {
  }

  /** A commit the reader cannot get past ends what is delivered. */
  lemma StopsHere(decode: string -> Option<Command>, commits: seq<Commit>, read: nat, d: nat, slowPath: seq<Command>)
    requires read < |commits| && HasSent(decode, commits, read, d, slowPath)
    requires d < |Data(commits[read])| ==> decode(Data(commits[read])[d]).None?
    ensures slowPath == Decoded(decode, Published(commits[..read + 1]))
    ensures d < |Data(commits[read])| ==> !AllDecode(decode, Data(commits[read]))
  {
    hide Published, Decoded, Channels;
    var before, data := Published(commits[..read]), Data(commits[read]);
    OneMoreRead(commits, read);
    assert before + data == (before + data[..d]) + data[d..];
    DecodedConcat(decode, before + data[..d], data[d..]);
    NoneDecoded(decode, data[d..]);
  }

  lemma AllSent(decode: string -> Option<Command>, commits: seq<Commit>, slowPath: seq<Command>)
    requires HasSent(decode, commits, |commits|, 0, slowPath)
    ensures slowPath == Decoded(decode, Published(commits[..|commits|]))
  {
    assert Published(commits[..|commits|]) + [] == Published(commits[..|commits|]);
  }

  lemma ClosedExactly(commits: seq<Commit>, read: nat, closed: seq<nat>)
    requires read <= |commits| && closed == Channels(commits[..read])
    ensures forall c: nat :: multiset(closed)[c] == |Carrying(commits, read, c)|
  {
    hide Channels, Carrying;
    forall c: nat ensures multiset(closed)[c] == |Carrying(commits, read, c)| {
      ChannelsExactly(commits, read, c);
    }
  }

  /**
   * readCommits over the commits received before commitC is closed; failed: errorC then brings an error. read: how
   * many commits were dealt with; fatal: the process ends.
   */
  method ReadCommits(decode: string -> Option<Command>, commits: seq<Commit>, failed: bool)
    returns (slowPath: seq<Command>, closed: seq<nat>, read: nat, fatal: bool)
    ensures read <= |commits| && (fatal <==> read < |commits| || failed)
    ensures forall c :: 0 <= c < read ==> Readable(decode, commits[c])
    ensures read < |commits| ==> !Readable(decode, commits[read])
    ensures closed == Channels(commits[..read])
    ensures forall c: nat :: multiset(closed)[c] == |Carrying(commits, read, c)|
    ensures slowPath == Decoded(decode, Published(commits[..if read < |commits| then read + 1 else read]))
  {
    hide Published, Channels, Carrying, Decoded, AllDecode, HasSent;
    slowPath, closed, read := [], [], 0;
    NothingRead(decode, commits);
    while read < |commits|
      invariant 0 <= read <= |commits|
      invariant HasRead(decode, commits, read, closed) && HasSent(decode, commits, read, 0, slowPath)
    {
      match commits[read] {
        case LoadSnapshot(loaded) =>
          if !loaded {
            StopsHere(decode, commits, read, 0, slowPath);
            ClosedExactly(commits, read, closed);
            return slowPath, closed, read, true;
          }
          CommitSent(decode, commits, read, slowPath);
          CommitRead(decode, commits, read, closed);
        case Batch(data, applyDone) =>
          var d := 0;
          while d < |data|
            invariant 0 <= d <= |data|
            invariant HasSent(decode, commits, read, d, slowPath)
          {
            var cmd := decode(data[d]);
            if cmd.None? {
              StopsHere(decode, commits, read, d, slowPath);
              ClosedExactly(commits, read, closed);
              return slowPath, closed, read, true;
            }
            DatumSent(decode, commits, read, d, slowPath);
            slowPath := slowPath + [cmd.value];
            d := d + 1;
          }
          CommitSent(decode, commits, read, slowPath);
          CommitRead(decode, commits, read, closed);
          closed := closed + [applyDone];
      }
      read := read + 1;
    }
    AllSent(decode, commits, slowPath);
    ClosedExactly(commits, read, closed);
    fatal := failed;
  }

  /** Data that all decode give one command each, in order. */
  lemma {:induction false} DecodedAll(decode: string -> Option<Command>, data: seq<string>)
    requires AllDecode(decode, data)
    ensures |Decoded(decode, data)| == |data|
    ensures forall i :: 0 <= i < |data| ==> Decoded(decode, data)[i] == decode(data[i]).value
    decreases |data|
  {
    if data == [] {
    } else {
      DecodedAll(decode, data[1..]);
    }
  }

  /** The commands of the data before the first datum that does not decode, one each, in order. */
  lemma {:induction false} DecodedExactly(decode: string -> Option<Command>, data: seq<string>)
    ensures var k := |Decoded(decode, data)|;
            && k <= |data| && (k < |data| ==> decode(data[k]).None?)
            && forall i :: 0 <= i < k ==> decode(data[i]) == Some(Decoded(decode, data)[i])
    decreases |data|
  {
    if data == [] || decode(data[0]).None? {
    } else {
      var rest := data[1..];
      DecodedExactly(decode, rest);
      assert forall i :: 0 <= i < |rest| ==> rest[i] == data[i + 1];
    }
  }

  lemma {:induction false} DecodedStops(decode: string -> Option<Command>, a: seq<string>, b: seq<string>)
    requires !AllDecode(decode, a)
    ensures Decoded(decode, a + b) == Decoded(decode, a) && !AllDecode(decode, a + b)
    decreases |a|
  {
    var i :| 0 <= i < |a| && decode(a[i]).None?;
    assert (a + b)[i] == a[i] && (a + b)[0] == a[0] && (a + b)[1..] == a[1..] + b;
    if decode(a[0]).Some? {
      assert a[1..][i - 1] == a[i];
      DecodedStops(decode, a[1..], b);
    }
  }

  /** The first `read` commits decode, and the next one, if any, does not. */
  ghost predicate ReadUntil(decode: string -> Option<Command>, commits: seq<Commit>, read: nat)
    requires read <= |commits|
  {
    && (forall c :: 0 <= c < read ==> AllDecode(decode, Data(commits[c])))
    && (read < |commits| ==> !AllDecode(decode, Data(commits[read])))
  }

  lemma AllDecodeConcat(decode: string -> Option<Command>, a: seq<string>, b: seq<string>)
    ensures AllDecode(decode, a + b) <==> AllDecode(decode, a) && AllDecode(decode, b)
  {
    assert forall k :: 0 <= k < |a| ==> (a + b)[k] == a[k];
    assert forall k :: 0 <= k < |b| ==> (a + b)[|a| + k] == b[k];
  }

  lemma ReadUntilPrefix(decode: string -> Option<Command>, commits: seq<Commit>, read: nat)
    requires commits != [] && read <= |commits| && ReadUntil(decode, commits, read)
    ensures var n := |commits| - 1;
            && ReadUntil(decode, commits[..n], if read < n then read else n)
            && (AllDecode(decode, Data(commits[n])) || read <= n)
            && (read == n ==> !AllDecode(decode, Data(commits[n])))
  {
    hide AllDecode;
  }

  /** A reader that stops at the first datum that does not decode has delivered all there is to deliver. */
  lemma {:induction false} ReaderDelivers(decode: string -> Option<Command>, commits: seq<Commit>, read: nat)
    requires read <= |commits| && ReadUntil(decode, commits, read)
    ensures AllDecode(decode, Published(commits)) <==> read == |commits|
    ensures Decoded(decode, Published(commits[..if read < |commits| then read + 1 else read])) ==
            Decoded(decode, Published(commits))
    decreases |commits|
  {
    if commits == [] {
      assert commits[..0] == commits;
    } else {
      hide *;
      var n := |commits| - 1;
      var before, data := commits[..n], Data(commits[n]);
      ReadUntilPrefix(decode, commits, read);
      assert commits[..n + 1] == commits;
      OneMoreRead(commits, n);
      AllDecodeConcat(decode, Published(before), data);
      if read >= n {
        ReaderDelivers(decode, before, n);
      } else {
        ReaderDelivers(decode, before, read);
        assert before[..read + 1] == commits[..read + 1];
        DecodedStops(decode, Published(before), data);
      }
    }
  }
}
