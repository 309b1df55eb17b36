/** Schedules of commands: replay, per-command results, and when two schedules are equivalent. */
module Traces {
  import opened Commands

  /** The store after executing s, in order, on st. */
  function Replay(st: Store, s: seq<Command>): Store {
    if s == [] then st else Execute(Replay(st, s[..|s| - 1]), s[|s| - 1])
  }

  /** The result executeSync gives the i-th command of the schedule. */
  function ResultAt(st: Store, s: seq<Command>, i: nat): string
    requires i < |s|
  {
    SyncResult(Replay(st, s[..i]), s[i])
  }

  /** No id occurs twice. */
  ghost predicate Distinct(s: seq<Command>) {
    forall i, j :: 0 <= i < j < |s| ==> s[i].id != s[j].id
  }

  ghost predicate SameCommands(s: seq<Command>, t: seq<Command>) {
    forall c :: c in s <==> c in t
  }

  /** x occurs before y in t. */
  ghost predicate Before(t: seq<Command>, x: Command, y: Command) {
    exists a, b :: 0 <= a < b < |t| && t[a] == x && t[b] == y
  }

  /** Every conflicting pair of s has the same order in t. */
  ghost predicate AgreeOnConflicts(s: seq<Command>, t: seq<Command>) {
    forall i, j :: 0 <= i < j < |s| && Conflict(s[i], s[j]) ==> Before(t, s[i], s[j])
  }

  /** c conflicts with nothing in s. */
  ghost predicate Independent(c: Command, s: seq<Command>) {
    forall i :: 0 <= i < |s| ==> !Conflict(c, s[i])
  }

  function Without(s: seq<Command>, k: nat): seq<Command>
    requires k < |s|
  {
    s[..k] + s[k + 1..]
  }

  // ---------------------------------------------------------------- replay

  lemma ReplayStep(st: Store, s: seq<Command>, c: Command)
    ensures Replay(st, s + [c]) == Execute(Replay(st, s), c)
  {
    assert (s + [c])[..|s|] == s;
  }

  /** Later commands do not change earlier results. */
  lemma ResultsStep(st: Store, s: seq<Command>, c: Command, k: nat)
    requires k <= |s|
    ensures ResultAt(st, s + [c], k) == if k < |s| then ResultAt(st, s, k) else SyncResult(Replay(st, s), c)
  {
    assert (s + [c])[..k] == s[..k];
    assert s[..|s|] == s;
  }

  lemma {:induction false} ReplayConcat(st: Store, s: seq<Command>, t: seq<Command>)
    ensures Replay(st, s + t) == Replay(Replay(st, s), t)
    decreases |t|
  {
    if t == [] {
      assert s + t == s;
    } else {
      var t', c := t[..|t| - 1], t[|t| - 1];
      assert s + t == (s + t') + [c] && t == t' + [c];
      ReplayStep(st, s + t', c);
      ReplayConcat(st, s, t');
      ReplayStep(Replay(st, s), t', c);
    }
  }

  /** A command moves past a schedule it is independent of, and its result does not change. */
  lemma {:induction false} MovePast(st: Store, c: Command, s: seq<Command>)
    requires Independent(c, s)
    ensures Replay(Execute(st, c), s) == Execute(Replay(st, s), c)
    ensures SyncResult(st, c) == SyncResult(Replay(st, s), c)
    decreases |s|
  {
    if s == [] {
    } else {
      var s', d := s[..|s| - 1], s[|s| - 1];
      MovePast(st, c, s');
      NoConflictCommutes(c, d, Replay(st, s'));
    }
  }

  /** Taking c from position k to the end of an otherwise independent tail. */
  lemma MoveToEnd(st: Store, t: seq<Command>, k: nat)
    requires k < |t| && Independent(t[k], t[k + 1..])
    ensures Replay(st, t) == Execute(Replay(st, Without(t, k)), t[k])
    ensures ResultAt(st, t, k) == SyncResult(Replay(st, Without(t, k)), t[k])
  {
    var c, pre, post := t[k], t[..k], t[k + 1..];
    assert t == (pre + [c]) + post;
    ReplayConcat(st, pre + [c], post);
    ReplayStep(st, pre, c);
    MovePast(Replay(st, pre), c, post);
    ReplayConcat(st, pre, post);
  }

  /** Removing c from position k changes no other command's result. */
  lemma ResultWithout(st: Store, t: seq<Command>, k: nat, j: nat)
    requires k < |t| && Independent(t[k], t[k + 1..])
    requires j < |t| && j != k
    ensures ResultAt(st, t, j) == ResultAt(st, Without(t, k), if j < k then j else j - 1)
  {
    var u := Without(t, k);
    if j < k {
      assert u[..j] == t[..j];
    } else {
      var t' := t[..j];
      assert t'[k] == t[k];
      assert t'[k + 1..] == t[k + 1..][..j - k - 1];
      MoveToEnd(st, t', k);
      assert u[..j - 1] == Without(t', k);
      assert t[k + 1..][j - k - 1] == t[j];
      NoConflictCommutes(t[k], t[j], Replay(st, Without(t', k)));
    }
  }

  // ---------------------------------------------------------------- trace equivalence

  /** The last command of s, wherever t has it, is independent of what follows it in t. */
  lemma LastIsIndependent(s: seq<Command>, t: seq<Command>, k: nat)
    requires s != [] && k < |t| && t[k] == s[|s| - 1]
    requires Distinct(s) && Distinct(t) && SameCommands(s, t) && AgreeOnConflicts(s, t)
    ensures Independent(t[k], t[k + 1..])
  {
    var post := t[k + 1..];
    forall i | 0 <= i < |post| ensures !Conflict(t[k], post[i]) {
      assert post[i] == t[k + 1 + i];
      LaterIsIndependent(s, t, k, k + 1 + i);
    }
  }

  lemma LaterIsIndependent(s: seq<Command>, t: seq<Command>, k: nat, m: nat)
    requires s != [] && k < m < |t| && t[k] == s[|s| - 1]
    requires Distinct(s) && Distinct(t) && SameCommands(s, t) && AgreeOnConflicts(s, t)
    ensures !Conflict(t[k], t[m])
  {
    var d := t[m];
    assert d in s;
    var j :| 0 <= j < |s| && s[j] == d;
    assert Before(t, d, t[k]) ==> m < k;
    assert j < |s| - 1;
  }

  lemma WithoutIsDistinct(t: seq<Command>, k: nat)
    requires k < |t| && Distinct(t)
    ensures Distinct(Without(t, k))
    ensures t[k] !in Without(t, k)
  {
    var u := Without(t, k);
    forall i, j | 0 <= i < j < |u| ensures u[i].id != u[j].id {
      var i0, j0 := if i < k then i else i + 1, if j < k then j else j + 1;
      assert u[i] == t[i0] && u[j] == t[j0];
    }
  }

  lemma WithoutKeepsOthers(t: seq<Command>, k: nat, c: Command)
    requires k < |t| && c != t[k]
    ensures c in t <==> c in Without(t, k)
  {
    var u := Without(t, k);
    if c in t {
      var j :| 0 <= j < |t| && t[j] == c;
      assert u[if j < k then j else j - 1] == c;
    }
    if c in u {
      var j :| 0 <= j < |u| && u[j] == c;
      assert t[if j < k then j else j + 1] == c;
    }
  }

  lemma WithoutKeepsOrder(t: seq<Command>, k: nat, x: Command, y: Command)
    requires k < |t| && x != t[k] && y != t[k] && Before(t, x, y)
    ensures Before(Without(t, k), x, y)
  {
    var u := Without(t, k);
    var a, b :| 0 <= a < b < |t| && t[a] == x && t[b] == y;
    var a', b' := if a < k then a else a - 1, if b < k then b else b - 1;
    assert u[a'] == x && u[b'] == y;
  }

  lemma WithoutLast(s: seq<Command>, t: seq<Command>, k: nat)
    requires s != [] && k < |t| && t[k] == s[|s| - 1]
    requires Distinct(s) && Distinct(t) && SameCommands(s, t) && AgreeOnConflicts(s, t)
    ensures Distinct(s[..|s| - 1]) && Distinct(Without(t, k))
    ensures SameCommands(s[..|s| - 1], Without(t, k))
    ensures AgreeOnConflicts(s[..|s| - 1], Without(t, k))
  {
    var n := |s| - 1;
    var s', t' := s[..n], Without(t, k);
    assert Without(s, n) == s';
    WithoutIsDistinct(s, n);
    WithoutIsDistinct(t, k);
    forall c ensures c in s' <==> c in t' {
      if c != t[k] {
        WithoutKeepsOthers(s, n, c);
        WithoutKeepsOthers(t, k, c);
      }
    }
    forall i, j | 0 <= i < j < |s'| && Conflict(s'[i], s'[j]) ensures Before(t', s'[i], s'[j]) {
      assert Before(t, s[i], s[j]);
      WithoutKeepsOrder(t, k, s[i], s[j]);
    }
  }

  lemma NothingLeft(s: seq<Command>, t: seq<Command>)
    requires SameCommands(s, t)
    ensures s == [] ==> t == []
  {
    if t != [] {
      assert t[0] in t;
    }
  }

  /** Equal stores, and equal results for equal commands. */
  ghost predicate SameOutcome(st: Store, s: seq<Command>, t: seq<Command>) {
    && Replay(st, s) == Replay(st, t)
    && forall i, j :: 0 <= i < |s| && 0 <= j < |t| && s[i] == t[j] ==> ResultAt(st, s, i) == ResultAt(st, t, j)
  }

  /** Two schedules that order every conflicting pair alike give the same store and results. */
  lemma {:induction false} TraceEquivalence(st: Store, s: seq<Command>, t: seq<Command>)
    requires Distinct(s) && Distinct(t) && SameCommands(s, t)
    requires AgreeOnConflicts(s, t)
    ensures SameOutcome(st, s, t)
    decreases |s|
  {
    if s == [] {
      NothingLeft(s, t);
    } else {
      var n := |s| - 1;
      assert s[n] in t;
      var k :| 0 <= k < |t| && t[k] == s[n];
      LastIsIndependent(s, t, k);
      WithoutLast(s, t, k);
      TraceEquivalence(st, s[..n], Without(t, k));
      MoveToEnd(st, t, k);
      forall i, j | 0 <= i < |s| && 0 <= j < |t| && s[i] == t[j]
        ensures ResultAt(st, s, i) == ResultAt(st, t, j)
      {
        ResultsExtend(st, s, t, k, i, j);
      }
    }
  }

  lemma ResultsExtend(st: Store, s: seq<Command>, t: seq<Command>, k: nat, i: nat, j: nat)
    requires s != [] && k < |t| && t[k] == s[|s| - 1]
    requires Distinct(s) && Distinct(t) && Independent(t[k], t[k + 1..])
    requires SameOutcome(st, s[..|s| - 1], Without(t, k))
    requires i < |s| && j < |t| && s[i] == t[j]
    ensures ResultAt(st, s, i) == ResultAt(st, t, j)
  {
    var s', t' := s[..|s| - 1], Without(t, k);
    MoveToEnd(st, t, k);
    if j == k {
      assert i == |s| - 1;
    } else {
      assert i < |s| - 1;
      ResultWithout(st, t, k, j);
      var j' := if j < k then j else j - 1;
      assert s'[i] == t'[j'];
      assert ResultAt(st, s', i) == ResultAt(st, t', j');
      assert s'[..i] == s[..i];
    }
  }

  // ---------------------------------------------------------------- batches

  /** Two batches with no cross conflict, run as blocks, may be swapped. */
  lemma {:induction false} BatchesCommute(st: Store, a: seq<Command>, b: seq<Command>)
    requires !BatchesConflict(a, b)
    ensures Replay(st, a + b) == Replay(st, b + a)
    ensures forall i :: 0 <= i < |a| ==> ResultAt(st, a + b, i) == ResultAt(st, b + a, |b| + i)
    ensures forall j :: 0 <= j < |b| ==> ResultAt(st, a + b, |a| + j) == ResultAt(st, b + a, j)
  {
    BlockPastBlock(st, a, b);
    ReplayConcat(st, a, b);
    ReplayConcat(st, b, a);
    forall i | 0 <= i < |a| ensures ResultAt(st, a + b, i) == ResultAt(st, b + a, |b| + i) {
      BlockPastBlock(st, a[..i], b);
      assert Independent(a[i], b);
      MovePast(Replay(st, a[..i]), a[i], b);
      assert (a + b)[..i] == a[..i] && (b + a)[..|b| + i] == b + a[..i];
      ReplayConcat(st, b, a[..i]);
    }
    forall j | 0 <= j < |b| ensures ResultAt(st, a + b, |a| + j) == ResultAt(st, b + a, j) {
      BlockPastBlock(st, a, b[..j]);
      assert Independent(b[j], a);
      MovePast(Replay(st, b[..j]), b[j], a);
      assert (a + b)[..|a| + j] == a + b[..j] && (b + a)[..j] == b[..j];
      ReplayConcat(st, a, b[..j]);
    }
  }

  lemma {:induction false} BlockPastBlock(st: Store, a: seq<Command>, b: seq<Command>)
    requires !BatchesConflict(a, b)
    ensures Replay(Replay(st, a), b) == Replay(Replay(st, b), a)
    decreases |a|
  {
    if a == [] {
    } else {
      var a', c := a[..|a| - 1], a[|a| - 1];
      assert !BatchesConflict(a', b);
      BlockPastBlock(st, a', b);
      assert Independent(c, b);
      MovePast(Replay(st, a'), c, b);
    }
  }

  // ---------------------------------------------------------------- re-execution

  predicate Writes(c: Command, k: string) {
    IsWrite(c) && c.key == k
  }

  /** The last command of s that writes key k, if any. */
  function LastWrite(s: seq<Command>, k: string): Option<Command> {
    if s == [] then None
    else if Writes(s[|s| - 1], k) then Some(s[|s| - 1])
    else LastWrite(s[..|s| - 1], k)
  }

  /** The last write is a write of the schedule with no later write to the key. */
  lemma {:induction false} LastWriteAt(s: seq<Command>, k: string) returns (p: nat)
    requires LastWrite(s, k).Some?
    ensures p < |s| && s[p] == LastWrite(s, k).value && Writes(s[p], k)
    ensures forall q :: p < q < |s| ==> !Writes(s[q], k)
    decreases |s|
  {
    p := |s| - 1;
    if !Writes(s[p], k) {
      p := LastWriteAt(s[..|s| - 1], k);
    }
  }

  function Lookup(st: Store, k: string): Option<string> {
    if k in st then Some(st[k]) else None
  }

  /** What a write leaves at its key. */
  function Effect(c: Command): Option<string> {
    if c.op == PUT then Some(c.value) else None
  }

  /** What the last write of s to k left there, or what st held. */
  function LeftAt(st: Store, s: seq<Command>, k: string): Option<string> {
    match LastWrite(s, k)
    case None => Lookup(st, k)
    case Some(w) => Effect(w)
  }

  /** A replayed store, read at one key, is the effect of the last write to that key. */
  lemma {:induction false} ReplayAtKey(st: Store, s: seq<Command>, k: string)
    ensures Lookup(Replay(st, s), k) == LeftAt(st, s, k)
    decreases |s|
  {
    if s == [] {
    } else {
      ReplayAtKey(st, s[..|s| - 1], k);
    }
  }

  /**
   * A read returns what the last write to its key before it left, or what the initial store held; other commands
   * return nothing.
   */
  lemma ReadReturnsLastWrite(st: Store, s: seq<Command>, i: nat)
    requires i < |s|
    ensures IsRead(s[i]) ==>
              ResultAt(st, s, i) == match LeftAt(st, s[..i], s[i].key) case None => NOT_FOUND_IN_STATE case Some(v) => v
    ensures !IsRead(s[i]) ==> ResultAt(st, s, i) == ""
  {
    ReplayAtKey(st, s[..i], s[i].key);
  }

  /** What executeAsync returns after a schedule: the same, but a missing key reads as the empty string. */
  lemma AsyncReturnsLastWrite(st: Store, s: seq<Command>, c: Command)
    ensures IsRead(c) ==>
              AsyncResult(Replay(st, s), c) == match LeftAt(st, s, c.key) case None => "" case Some(v) => v
    ensures !IsRead(c) ==> AsyncResult(Replay(st, s), c) == ""
  {
    ReplayAtKey(st, s, c.key);
  }

  lemma SameStoreAtKeys(r: Store, st: Store)
    ensures r == st <==> forall k :: Lookup(r, k) == Lookup(st, k)
  {
    if forall k :: Lookup(r, k) == Lookup(st, k) {
      assert forall k :: k in r <==> Lookup(r, k).Some?;
      assert forall k :: k in st <==> Lookup(st, k).Some?;
      assert forall k :: k in r ==> Lookup(r, k).value == Lookup(st, k).value;
    }
  }

  /** Any two schedules give the same store exactly when their last writes to every key leave the same there. */
  lemma SameStoreExactly(st: Store, s: seq<Command>, t: seq<Command>)
    ensures Replay(st, s) == Replay(st, t) <==> forall k :: LeftAt(st, s, k) == LeftAt(st, t, k)
  {
    forall k ensures Lookup(Replay(st, s), k) == LeftAt(st, s, k) && Lookup(Replay(st, t), k) == LeftAt(st, t, k) {
      ReplayAtKey(st, s, k);
      ReplayAtKey(st, t, k);
    }
    hide LeftAt, Lookup, Replay;
    SameStoreAtKeys(Replay(st, s), Replay(st, t));
  }

  /** Executing c again after mid changes nothing exactly when mid's last write to its key, if any, equals c's. */
  lemma ReexecutionExactly(st: Store, c: Command, mid: seq<Command>)
    ensures Replay(st, [c] + mid + [c]) == Replay(st, [c] + mid) <==>
            !IsWrite(c) || LastWrite(mid, c.key).None? || Effect(LastWrite(mid, c.key).value) == Effect(c)
  {
    var s := Replay(st, [c] + mid);
    ReplayStep(st, [c] + mid, c);
    ReplayConcat(st, [c], mid);
    ReplayStep(st, [], c);
    assert [] + [c] == [c];
    ReplayAtKey(Execute(st, c), mid, c.key);
    if IsWrite(c) {
      assert Lookup(Execute(st, c), c.key) == Effect(c);
      assert Lookup(Execute(s, c), c.key) == Effect(c);
      if Lookup(s, c.key) == Effect(c) {
        assert Execute(s, c) == s;
      }
    }
  }

  lemma {:induction false} NoWriteWhenIndependent(c: Command, mid: seq<Command>)
    requires IsWrite(c) && Independent(c, mid)
    ensures LastWrite(mid, c.key).None?
    decreases |mid|
  {
    if mid == [] {
    } else {
      assert !Conflict(c, mid[|mid| - 1]);
      NoWriteWhenIndependent(c, mid[..|mid| - 1]);
    }
  }

  /** Re-execution is safe after any schedule the command does not conflict with. */
  lemma SafeReexecution(st: Store, c: Command, mid: seq<Command>)
    requires Independent(c, mid)
    ensures Replay(st, [c] + mid + [c]) == Replay(st, [c] + mid)
  {
    ReexecutionExactly(st, c, mid);
    if IsWrite(c) {
      NoWriteWhenIndependent(c, mid);
    }
  }

  // ---------------------------------------------------------------- schedules with repetitions

  /** The schedule with only the last execution of each command. */
  function LastOnly(s: seq<Command>): seq<Command> {
    if s == [] then [] else if s[0] in s[1..] then LastOnly(s[1..]) else [s[0]] + LastOnly(s[1..])
  }

  /** Between two executions of a command nothing else conflicts with it. */
  ghost predicate Undisturbed(s: seq<Command>) {
    forall i, m, j :: 0 <= i < m < j < |s| && s[i] == s[j] && s[m] != s[i] ==> !Conflict(s[i], s[m])
  }

  /** r is the result of some execution of c in this schedule. */
  ghost predicate IsResult(st: Store, s: seq<Command>, c: Command, r: string) {
    exists k :: 0 <= k < |s| && s[k] == c && r == ResultAt(st, s, k)
  }

  /** Equal stores, and every result of s is a result of the same command in t. */
  ghost predicate KeepsOutcome(st: Store, s: seq<Command>, t: seq<Command>) {
    Replay(st, t) == Replay(st, s) && forall k :: 0 <= k < |s| ==> IsResult(st, t, s[k], ResultAt(st, s, k))
  }

  lemma {:induction false} FirstAt(s: seq<Command>, c: Command) returns (k: nat)
    requires c in s
    ensures k < |s| && s[k] == c && c !in s[..k]
    decreases |s|
  {
    var before := s[..|s| - 1];
    if c in before {
      k := FirstAt(before, c);
      assert s[..k] == before[..k];
    } else {
      k := |s| - 1;
    }
  }

  lemma NextExecution(s: seq<Command>) returns (j: nat)
    requires s != [] && s[0] in s[1..] && Undisturbed(s)
    ensures 0 < j < |s| && s[j] == s[0] && Independent(s[0], s[1..j])
  {
    var k := FirstAt(s[1..], s[0]);
    j := k + 1;
    forall i | 0 <= i < k ensures !Conflict(s[0], s[1..j][i]) {
      assert s[1..][i] == s[i + 1] == s[1..j][i] && s[1..][i] in s[1..][..k];
    }
  }

  lemma FirstMovesOn(st: Store, c: Command, x: seq<Command>)
    requires Independent(c, x)
    ensures Replay(st, [c] + x) == Execute(Replay(st, x), c)
    ensures SyncResult(st, c) == SyncResult(Replay(st, x), c)
  {
    MovePast(st, c, x);
    ReplayConcat(st, [c], x);
    ReplayStep(st, [], c);
    assert [] + [c] == [c];
  }

  lemma SecondIsEnough(st: Store, c: Command, x: seq<Command>, y: seq<Command>)
    requires Independent(c, x)
    ensures Replay(st, (([c] + x) + [c]) + y) == Replay(st, (x + [c]) + y)
  {
    FirstMovesOn(st, c, x);
    ReplayStep(st, [c] + x, c);
    ReplayStep(st, x, c);
    ReplayConcat(st, ([c] + x) + [c], y);
    ReplayConcat(st, x + [c], y);
    var once := Execute(Replay(st, x), c);
    assert Execute(once, c) == once;
  }

  lemma Parts(s: seq<Command>, j: nat, q: nat)
    requires 0 < j < q <= |s|
    ensures s[..q] == (([s[0]] + s[1..j]) + [s[j]]) + s[j + 1..q]
    ensures s[1..q] == (s[1..j] + [s[j]]) + s[j + 1..q]
  {
  }

  /** A prefix of the schedule with and without the first of two undisturbed executions. */
  lemma FirstIsExtra(st: Store, s: seq<Command>, j: nat, q: nat)
    requires 0 < j < |s| && s[j] == s[0] && Independent(s[0], s[1..j]) && 0 < q <= |s|
    ensures Replay(st, s[..q]) == if q <= j then Execute(Replay(st, s[1..q]), s[0]) else Replay(st, s[1..q])
    ensures q <= j ==> SyncResult(Replay(st, s[1..q]), s[0]) == SyncResult(st, s[0])
  {
    hide Replay, SyncResult, Execute, Conflict;
    var c := s[0];
    if q <= j {
      assert forall k :: 0 <= k < q - 1 ==> s[1..q][k] == s[1..j][k];
      assert s[..q] == [c] + s[1..q];
      FirstMovesOn(st, c, s[1..q]);
    } else {
      SecondIsEnough(st, c, s[1..j], s[j + 1..q]);
      Parts(s, j, q);
    }
  }

  lemma ResultWithoutFirst(st: Store, s: seq<Command>, j: nat, q: nat)
    requires 0 < j < |s| && s[j] == s[0] && Independent(s[0], s[1..j]) && q < |s|
    ensures ResultAt(st, s, q) == ResultAt(st, s[1..], if q == 0 then j - 1 else q - 1)
  {
    var rest := s[1..];
    hide Replay;
    if q == 0 {
      FirstIsExtra(st, s, j, j);
      assert s[..0] == [] && rest[..j - 1] == s[1..j];
      ReplayNothing(st);
    } else {
      FirstIsExtra(st, s, j, q);
      assert rest[..q - 1] == s[1..q];
      if q < j {
        assert s[1..j][q - 1] == s[q];
        NoConflictCommutes(s[0], s[q], Replay(st, s[1..q]));
      }
    }
  }

  lemma ReplayNothing(st: Store)
    ensures Replay(st, []) == st
  {
  }

  /** Dropping the first of several undisturbed executions. */
  lemma DropFirst(st: Store, s: seq<Command>)
    requires s != [] && s[0] in s[1..] && Undisturbed(s)
    ensures KeepsOutcome(st, s, s[1..])
  {
    var j := NextExecution(s);
    assert s[..|s|] == s && s[1..|s|] == s[1..];
    FirstIsExtra(st, s, j, |s|);
    hide Replay, ResultAt, Undisturbed, Conflict;
    forall q | 0 <= q < |s| ensures IsResult(st, s[1..], s[q], ResultAt(st, s, q)) {
      ResultWithoutFirst(st, s, j, q);
      assert s[1..][if q == 0 then j - 1 else q - 1] == s[q];
    }
  }

  lemma KeepsTransitive(st: Store, s: seq<Command>, t: seq<Command>, u: seq<Command>)
    requires KeepsOutcome(st, s, t) && KeepsOutcome(st, t, u)
    ensures KeepsOutcome(st, s, u)
  {
    hide Replay, ResultAt;
    forall k | 0 <= k < |s| ensures IsResult(st, u, s[k], ResultAt(st, s, k)) {
      var j :| 0 <= j < |t| && t[j] == s[k] && ResultAt(st, s, k) == ResultAt(st, t, j);
      assert IsResult(st, u, t[j], ResultAt(st, t, j));
    }
  }

  lemma ResultsAfterFirst(st: Store, c: Command, s: seq<Command>)
    ensures Replay(st, [c] + s) == Replay(Execute(st, c), s)
    ensures ResultAt(st, [c] + s, 0) == SyncResult(st, c)
    ensures forall k :: 0 <= k < |s| ==> ResultAt(st, [c] + s, k + 1) == ResultAt(Execute(st, c), s, k)
  {
    ReplayStep(st, [], c);
    assert [] + [c] == [c] && ([c] + s)[..0] == [];
    ReplayConcat(st, [c], s);
    forall k | 0 <= k < |s| ensures ResultAt(st, [c] + s, k + 1) == ResultAt(Execute(st, c), s, k) {
      assert ([c] + s)[..k + 1] == [c] + s[..k];
      ReplayConcat(st, [c], s[..k]);
    }
  }

  lemma IsResultAfterFirst(st: Store, c: Command, t: seq<Command>, d: Command, r: string)
    requires IsResult(Execute(st, c), t, d, r)
    ensures IsResult(st, [c] + t, d, r)
  {
    ResultsAfterFirst(st, c, t);
    hide Replay, ResultAt, Execute;
    var j :| 0 <= j < |t| && t[j] == d && r == ResultAt(Execute(st, c), t, j);
    assert ([c] + t)[j + 1] == d;
  }

  lemma KeepsAfterFirst(st: Store, c: Command, s: seq<Command>, t: seq<Command>)
    requires KeepsOutcome(Execute(st, c), s, t)
    ensures KeepsOutcome(st, [c] + s, [c] + t)
  {
    ResultsAfterFirst(st, c, s);
    ResultsAfterFirst(st, c, t);
    hide Replay, ResultAt, Execute, SyncResult;
    var s', t' := [c] + s, [c] + t;
    forall k | 0 <= k < |s'| ensures IsResult(st, t', s'[k], ResultAt(st, s', k)) {
      if k == 0 {
        assert t'[0] == c && ResultAt(st, t', 0) == ResultAt(st, s', 0);
      } else {
        var d, r := s[k - 1], ResultAt(Execute(st, c), s, k - 1);
        assert IsResult(Execute(st, c), t, d, r);
        hide IsResult;
        IsResultAfterFirst(st, c, t, d, r);
        assert s'[k] == d && ResultAt(st, s', (k - 1) + 1) == r;
      }
    }
  }

  lemma RestIsUndisturbed(s: seq<Command>)
    requires s != [] && Undisturbed(s)
    ensures Undisturbed(s[1..])
  {
    hide Conflict;
  }

  /** Undisturbed repetitions leave one execution per command with the same store and the same results. */
  lemma {:induction false} RepetitionsAreHarmless(st: Store, s: seq<Command>)
    requires Undisturbed(s)
    ensures KeepsOutcome(st, s, LastOnly(s))
    decreases |s|
  {
    if s == [] {
    } else {
      hide KeepsOutcome, Replay, ResultAt, Execute, Undisturbed;
      var c, rest := s[0], s[1..];
      assert s == [c] + rest;
      RestIsUndisturbed(s);
      if c in rest {
        DropFirst(st, s);
        RepetitionsAreHarmless(st, rest);
        KeepsTransitive(st, s, rest, LastOnly(rest));
      } else {
        RepetitionsAreHarmless(Execute(st, c), rest);
        KeepsAfterFirst(st, c, rest, LastOnly(rest));
      }
    }
  }

  /** The remaining executions are the same commands, each once. */
  lemma {:induction false} LastOnlyIsDistinct(s: seq<Command>)
    requires forall i, j :: 0 <= i < j < |s| && s[i].id == s[j].id ==> s[i] == s[j]
    ensures Distinct(LastOnly(s)) && SameCommands(s, LastOnly(s))
    decreases |s|
  {
    if s == [] {
    } else {
      var rest := s[1..];
      assert forall i :: 0 <= i < |rest| ==> rest[i] == s[i + 1];
      assert s == [s[0]] + rest;
      LastOnlyIsDistinct(rest);
      forall k | 0 <= k < |LastOnly(rest)| && s[0] !in rest ensures LastOnly(rest)[k].id != s[0].id {
        assert LastOnly(rest)[k] in rest;
      }
    }
  }

  /** A command whose last execution comes before all of another's stays before it. */
  lemma {:induction false} LastOnlyOrder(s: seq<Command>, t: seq<Command>, x: Command, y: Command)
    requires forall i, j :: 0 <= i < j < |s + t| && (s + t)[i].id == (s + t)[j].id ==> (s + t)[i] == (s + t)[j]
    requires x in s && x !in t && y in t
    ensures Before(LastOnly(s + t), x, y)
    decreases |s|
  {
    var c, s', rest := s[0], s[1..], s[1..] + t;
    assert s + t == [c] + rest && rest == (s + t)[1..];
    assert forall i :: 0 <= i < |rest| ==> rest[i] == (s + t)[i + 1];
    assert s == [c] + s';
    if x in s' {
      LastOnlyOrder(s', t, x, y);
      BeforeAfterFirst(c, LastOnly(rest), x, y);
    } else {
      LastOnlyIsDistinct(rest);
      assert y in LastOnly(rest) && c == x && x !in rest;
      FirstIsBefore(x, LastOnly(rest), y);
    }
  }

  lemma BeforeAfterFirst(c: Command, s: seq<Command>, x: Command, y: Command)
    requires Before(s, x, y)
    ensures Before([c] + s, x, y)
  {
    var a, b :| 0 <= a < b < |s| && s[a] == x && s[b] == y;
    assert ([c] + s)[a + 1] == x && ([c] + s)[b + 1] == y;
  }

  lemma FirstIsBefore(x: Command, s: seq<Command>, y: Command)
    requires y in s
    ensures Before([x] + s, x, y)
  {
    var b :| 0 <= b < |s| && s[b] == y;
    assert ([x] + s)[0] == x && ([x] + s)[b + 1] == y;
  }
}
