/** The in-memory store and its undo operations. */
module MemStore {
  import opened Commands
  import opened Traces

  class MemStore {
    var kv: Store

    constructor ()
      ensures kv == map[]
    {
      kv := map[];
    }

    method Get(k: string) returns (v: string, found: bool)
      ensures found <==> k in kv
      ensures v == if k in kv then kv[k] else ""
    {
      if k in kv {
        v, found := kv[k], true;
      } else {
        v, found := "", false;
      }
    }

    method Put(k: string, v: string)
      modifies this
      ensures kv == old(kv)[k := v]
    {
      kv := kv[k := v];
    }

    method Delete(k: string)
      modifies this
      ensures kv == old(kv) - {k}
    {
      kv := kv - {k};
    }

    method PutWithOldValue(k: string, v: string) returns (oldV: string, found: bool)
      modifies this
      ensures kv == Do(old(kv), SetKey(k, v)) == old(kv)[k := v]
      ensures oldV == OldValue(old(kv), k) == (if k in old(kv) then old(kv)[k] else "") && (found <==> k in old(kv))
    {
      found := k in kv;
      oldV := if found then kv[k] else "";
      kv := kv[k := v];
    }

    method RollbackPutWithOldValue(k: string, oldV: string)
      modifies this
      ensures forall v :: kv == Undo(old(kv), SetKey(k, v), oldV)
      ensures kv == if oldV == "" then old(kv) - {k} else old(kv)[k := oldV]
    {
      if oldV == "" {
        kv := kv - {k};
      } else {
        kv := kv[k := oldV];
      }
    }

    method DeleteWithOldValue(k: string) returns (oldV: string, found: bool)
      modifies this
      ensures kv == Do(old(kv), DropKey(k)) == old(kv) - {k}
      ensures oldV == OldValue(old(kv), k) == (if k in old(kv) then old(kv)[k] else "") && (found <==> k in old(kv))
    {
      found := k in kv;
      oldV := if found then kv[k] else "";
      kv := kv - {k};
    }

    method RollbackDeleteWithOldValue(k: string, oldV: string)
      modifies this
      ensures kv == Undo(old(kv), DropKey(k), oldV) == old(kv)[k := oldV]
    {
      kv := kv[k := oldV];
    }

    method Destroy()
      modifies this
      ensures kv == map[]
    {
      kv := map[];
    }
  }

  // ---------------------------------------------------------------- undo log

  /** One PutWithOldValue or DeleteWithOldValue call. */
  datatype Change = SetKey(key: string, value: string) | DropKey(key: string)

  function OldValue(st: Store, k: string): string {
    if k in st then st[k] else ""
  }

  function Do(st: Store, ch: Change): Store {
    match ch
    case SetKey(k, v) => st[k := v]
    case DropKey(k) => st - {k}
  }

  /** The rollback that matches ch, given the value ch returned. */
  function Undo(st: Store, ch: Change, oldV: string): Store {
    match ch
    case SetKey(k, _) => if oldV == "" then st - {k} else st[k := oldV]
    case DropKey(k) => st[k := oldV]
  }

  /** Runs the changes in order. */
  function DoAll(st: Store, chs: seq<Change>): Store
    decreases |chs|
  {
    if chs == [] then st else DoAll(Do(st, chs[0]), chs[1..])
  }

  /** The j-th change is the last of its key. */
  ghost predicate LastOfItsKey(chs: seq<Change>, j: nat) {
    j < |chs| && forall m :: j < m < |chs| ==> chs[m].key != chs[j].key
  }

  /** The last change of a key decides what the key holds; a key that no change names keeps its value. */
  lemma {:induction false} DoneAtKey(st: Store, chs: seq<Change>, k: string)
    ensures (forall m :: 0 <= m < |chs| ==> chs[m].key != k) ==> Lookup(DoAll(st, chs), k) == Lookup(st, k)
    ensures forall j :: 0 <= j < |chs| && chs[j].key == k && LastOfItsKey(chs, j) ==>
              Lookup(DoAll(st, chs), k) == if chs[j].SetKey? then Some(chs[j].value) else None
    decreases |chs|
  {
    if chs == [] {
    } else {
      var rest := chs[1..];
      DoneAtKey(Do(st, chs[0]), rest, k);
      forall j | 0 <= j < |chs| && chs[j].key == k && LastOfItsKey(chs, j)
        ensures Lookup(DoAll(st, chs), k) == if chs[j].SetKey? then Some(chs[j].value) else None
      {
        assert forall m :: 0 <= m < |rest| ==> rest[m] == chs[m + 1];
        if j > 0 {
          assert rest[j - 1] == chs[j] && LastOfItsKey(rest, j - 1);
        }
      }
    }
  }

  /** The values the changes return, in order. */
  function UndoLog(st: Store, chs: seq<Change>): (olds: seq<string>)
    ensures |olds| == |chs|
    decreases |chs|
  {
    if chs == [] then [] else [OldValue(st, chs[0].key)] + UndoLog(Do(st, chs[0]), chs[1..])
  }

  /** Runs the matching rollbacks, the last change's first. */
  function UndoAll(st: Store, chs: seq<Change>, olds: seq<string>): Store
    requires |olds| == |chs|
  {
    if chs == [] then st else Undo(UndoAll(st, chs[1..], olds[1..]), chs[0], olds[0])
  }

  function RolledBack(st: Store, chs: seq<Change>): Store {
    UndoAll(DoAll(st, chs), chs, UndoLog(st, chs))
  }

  /** The first change of key k, if any. */
  function FirstChange(chs: seq<Change>, k: string): Option<Change> {
    if chs == [] then None
    else if chs[0].key == k then Some(chs[0])
    else FirstChange(chs[1..], k)
  }

  /** ch finds its key in a state its rollback can restore. */
  predicate Restorable(st: Store, ch: Change) {
    match ch
    case SetKey(k, _) => k in st ==> st[k] != ""
    case DropKey(k) => k in st
  }

  /** The rolled back store, read at one key: only the first change of the key matters. */
  lemma {:induction false} RolledBackAtKey(st: Store, chs: seq<Change>, k: string)
    ensures Lookup(RolledBack(st, chs), k) ==
            match FirstChange(chs, k)
            case None => Lookup(st, k)
            case Some(ch) => Lookup(Undo(st, ch, OldValue(st, k)), k)
    decreases |chs|
  {
    if chs == [] {
    } else {
      var ch, rest := chs[0], chs[1..];
      RolledBackAtKey(Do(st, ch), rest, k);
      assert UndoLog(st, chs)[1..] == UndoLog(Do(st, ch), rest);
      assert RolledBack(st, chs) == Undo(RolledBack(Do(st, ch), rest), ch, OldValue(st, ch.key));
    }
  }

  /** The first change of k, if any, is restorable. */
  predicate RestorableAt(st: Store, chs: seq<Change>, k: string) {
    FirstChange(chs, k).Some? ==> Restorable(st, FirstChange(chs, k).value)
  }

  /** Rolling back in reverse order restores the store exactly when the first change of every key is restorable. */
  lemma UndoLogRestoresExactly(st: Store, chs: seq<Change>)
    ensures RolledBack(st, chs) == st <==> forall k :: RestorableAt(st, chs, k)
  {
    var r := RolledBack(st, chs);
    forall k ensures RestorableAt(st, chs, k) <==> Lookup(r, k) == Lookup(st, k) {
      RolledBackAtKey(st, chs, k);
      FirstChangeKey(chs, k);
    }
    SameStoreAtKeys(r, st);
  }

  lemma {:induction false} FirstChangeKey(chs: seq<Change>, k: string)
    ensures FirstChange(chs, k).Some? ==> FirstChange(chs, k).value.key == k && FirstChange(chs, k).value in chs
    decreases |chs|
  {
    if chs != [] && chs[0].key != k {
      FirstChangeKey(chs[1..], k);
    }
  }

  /** The j-th change is a delete that reports success, or a put. */
  ghost predicate Succeeds(st: Store, chs: seq<Change>) {
    forall j :: 0 <= j < |chs| && chs[j].DropKey? ==> chs[j].key in DoAll(st, chs[..j])
  }

  /** With no empty value stored and every delete successful, the undo log restores the store. */
  lemma UndoLogRestores(st: Store, chs: seq<Change>)
    requires forall k :: k in st ==> st[k] != ""
    requires Succeeds(st, chs)
    ensures RolledBack(st, chs) == st
  {
    forall k ensures RestorableAt(st, chs, k) {
      if FirstChange(chs, k).Some? {
        FirstDeleteFindsItsKey(st, chs, k);
      }
    }
    UndoLogRestoresExactly(st, chs);
  }

  lemma {:induction false} FirstDeleteFindsItsKey(st: Store, chs: seq<Change>, k: string)
    requires Succeeds(st, chs) && FirstChange(chs, k).Some?
    ensures FirstChange(chs, k).value.key == k
    ensures FirstChange(chs, k).value.DropKey? ==> k in st
    decreases |chs|
  {
    if chs[0].key == k {
      assert chs[..0] == [];
    } else {
      var st', rest := Do(st, chs[0]), chs[1..];
      forall j | 0 <= j < |rest| && rest[j].DropKey? ensures rest[j].key in DoAll(st', rest[..j]) {
        assert chs[..j + 1][0] == chs[0] && chs[..j + 1][1..] == rest[..j];
        assert chs[j + 1] == rest[j];
      }
      FirstDeleteFindsItsKey(st', rest, k);
    }
  }

  /** A stored empty string is lost: the rollback of a put deletes the key. */
  lemma EmptyValueIsLost(k: string, v: string)
    ensures RolledBack(map[k := ""], [SetKey(k, v)]) != map[k := ""]
  {
    var st: Store := map[k := ""];
    RolledBackAtKey(st, [SetKey(k, v)], k);
    assert Lookup(st, k) == Some("");
  }
}
