/** Client commands, the conflict test, and what executing a command does to the store. */
module Commands {

  newtype uint32 = x: int | 0 <= x < 0x1_0000_0000
  newtype uint64 = x: int | 0 <= x < 0x1_0000_0000_0000_0000

  datatype Option<+T> = None | Some(value: T)

  const U64 := 0x1_0000_0000_0000_0000

  // The operation codes that do something. The lock codes 3 and 4, and any other, are executed as no-ops.
  const PUT: uint32 := 0
  const GET: uint32 := 1
  const DELETE: uint32 := 2

  datatype ProposeId = ProposeId(clientId: uint64, seqId: uint64)

  datatype Command = Command(op: uint32, id: ProposeId, key: string, value: string)

  type Store = map<string, string>

  const NOT_FOUND_IN_STATE: string := "NOT FOUND IN STATE"

  predicate IsRead(c: Command) {
    c.op == GET
  }

  predicate IsWrite(c: Command) {
    c.op == PUT || c.op == DELETE
  }

  /** The witness's test: same key, and at least one side writes. */
  predicate Conflict(c1: Command, c2: Command) {
    if c1.key == c2.key then
      if c1.op == PUT || c2.op == PUT then true
      else c1.op == DELETE || c2.op == DELETE
    else
      false
  }

  /** The test in one line: it rejects exactly two commands on one key of which one writes. */
  lemma ConflictExactly(c1: Command, c2: Command)
    ensures Conflict(c1, c2) <==> c1.key == c2.key && (IsWrite(c1) || IsWrite(c2))
  {
  }

  /** The store after executing c; executeSync and executeAsync agree on it. */
  function Execute(st: Store, c: Command): Store {
    if c.op == PUT then st[c.key := c.value]
    else if c.op == DELETE then st - {c.key}
    else st
  }

  /** What executeSync returns to the command board. */
  function SyncResult(st: Store, c: Command): string {
    if c.op == GET then
      if c.key in st then st[c.key] else NOT_FOUND_IN_STATE
    else ""
  }

  /** What executeAsync returns: a missing key reads as the empty string. */
  function AsyncResult(st: Store, c: Command): string {
    if c.op == GET && c.key in st then st[c.key] else ""
  }

  /** c and d give the same store and the same two results in either order, from every store. */
  ghost predicate Commute(c: Command, d: Command) {
    forall st: Store ::
      && Execute(Execute(st, c), d) == Execute(Execute(st, d), c)
      && SyncResult(st, c) == SyncResult(Execute(st, d), c)
      && SyncResult(st, d) == SyncResult(Execute(st, c), d)
  }

  /** Conflict is a sound commutativity test. */
  lemma NoConflictCommutes(c: Command, d: Command, st: Store)
    requires !Conflict(c, d)
    ensures Execute(Execute(st, c), d) == Execute(Execute(st, d), c)
    ensures SyncResult(st, c) == SyncResult(Execute(st, d), c)
    ensures SyncResult(st, d) == SyncResult(Execute(st, c), d)
  {
    assert Execute(Execute(st, c), d) == Execute(Execute(st, d), c);
  }

  /** The pairs the test rejects although they commute: no effect on one side, or equal writes. */
  predicate HarmlessConflict(c: Command, d: Command) {
    || (!IsWrite(c) && !IsRead(c))
    || (!IsWrite(d) && !IsRead(d))
    || (c.op == PUT && d.op == PUT && c.value == d.value)
    || (c.op == DELETE && d.op == DELETE)
  }

  /** Exactly when two commands commute, against what the test answers. */
  lemma CommuteExactly(c: Command, d: Command)
    ensures Commute(c, d) <==> !Conflict(c, d) || HarmlessConflict(c, d)
  {
    if !Conflict(c, d) || HarmlessConflict(c, d) {
      forall st: Store
        ensures Execute(Execute(st, c), d) == Execute(Execute(st, d), c)
        ensures SyncResult(st, c) == SyncResult(Execute(st, d), c)
        ensures SyncResult(st, d) == SyncResult(Execute(st, c), d)
      {
        assert Execute(Execute(st, c), d) == Execute(Execute(st, d), c);
      }
    } else {
      HarmfulPairDistinguished(c, d);
    }
  }

  /** A conflicting pair outside the harmless ones is told apart by some store. */
  lemma HarmfulPairDistinguished(c: Command, d: Command)
    requires Conflict(c, d) && !HarmlessConflict(c, d)
    ensures !Commute(c, d)
  {
    var k := c.key;
    var none: Store := map[];
    var other: Store := map[k := c.value + d.value + NOT_FOUND_IN_STATE + "."];
    if IsWrite(c) && IsWrite(d) {
      var cd, dc := Execute(Execute(none, c), d), Execute(Execute(none, d), c);
      assert cd != dc by {
        if c.op == PUT && d.op == PUT {
          assert cd[k] == d.value && dc[k] == c.value;
        } else {
          assert (k in cd) != (k in dc);
        }
      }
    } else if IsRead(c) {
      assert d.op == PUT ==> SyncResult(other, c) != SyncResult(Execute(other, d), c) by {
        assert |other[k]| > |d.value|;
      }
      assert d.op == DELETE ==> SyncResult(other, c) != SyncResult(Execute(other, d), c) by {
        assert |other[k]| > |NOT_FOUND_IN_STATE|;
      }
    } else {
      assert c.op == PUT ==> SyncResult(other, d) != SyncResult(Execute(other, c), d) by {
        assert |other[k]| > |c.value|;
      }
      assert c.op == DELETE ==> SyncResult(other, d) != SyncResult(Execute(other, c), d) by {
        assert |other[k]| > |NOT_FOUND_IN_STATE|;
      }
    }
  }

  /** Some command of the first batch conflicts with some command of the second. */
  ghost predicate BatchesConflict(batch1: seq<Command>, batch2: seq<Command>) {
    exists i, j :: 0 <= i < |batch1| && 0 <= j < |batch2| && Conflict(batch1[i], batch2[j])
  }

  method ConflictBatch(batch1: seq<Command>, batch2: seq<Command>) returns (r: bool)
    ensures r <==> BatchesConflict(batch1, batch2)
  {
    var i := 0;
    while i < |batch1|
      invariant 0 <= i <= |batch1|
      invariant forall a, b :: 0 <= a < i && 0 <= b < |batch2| ==> !Conflict(batch1[a], batch2[b])
    {
      var j := 0;
      while j < |batch2|
        invariant 0 <= j <= |batch2|
        invariant forall b :: 0 <= b < j ==> !Conflict(batch1[i], batch2[b])
      {
        if Conflict(batch1[i], batch2[j]) {
          return true;
        }
        j := j + 1;
      }
      i := i + 1;
    }
    return false;
  }
}
