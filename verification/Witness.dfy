/** The witness: recorded commands, pairwise free of conflicts. */
module Witness {
  import opened Commands

  type Records = map<ProposeId, Command>

  ghost predicate ConflictsWith(m: Records, c: Command) {
    exists id :: id in m && Conflict(m[id], c)
  }

  /** Every record sits under its own id, and no two records conflict. */
  ghost predicate Commuting(m: Records) {
    && (forall id :: id in m ==> m[id].id == id)
    && (forall a, b :: a in m && b in m && a != b ==> !Conflict(m[a], m[b]))
  }

  /** InsertIfNotConflict on the record map. */
  ghost function Record(m: Records, c: Command): Records {
    if ConflictsWith(m, c) then m else m[c.id := c]
  }

  lemma RecordKeepsCommuting(m: Records, c: Command)
    requires Commuting(m)
    ensures Commuting(Record(m, c))
  {
    if !ConflictsWith(m, c) {
      var m' := Record(m, c);
      forall a, b | a in m' && b in m' && a != b ensures !Conflict(m'[a], m'[b]) {
        if b == c.id {
          assert a in m && !Conflict(m[a], c);
        } else if a == c.id {
          assert !Conflict(m[b], c);
        }
      }
    }
  }

  class Witness {
    var commandMap: Records

    ghost predicate Valid()
      reads this
    {
      Commuting(commandMap)
    }

    constructor ()
      ensures Valid() && commandMap == map[]
    {
      commandMap := map[];
    }

    method HasConflictWith(cmd: Command) returns (r: bool)
      ensures r <==> ConflictsWith(commandMap, cmd)
    {
      var left := commandMap.Keys;
      while left != {}
        invariant left <= commandMap.Keys
        invariant forall id :: id in commandMap && id !in left ==> !Conflict(commandMap[id], cmd)
        decreases left
      {
        var id :| id in left;
        if Conflict(commandMap[id], cmd) {
          return true;
        }
        left := left - {id};
      }
      return false;
    }

    /** Answers whether cmd conflicts with a record; records it when it does not. */
    method InsertIfNotConflict(cmd: Command) returns (conflict: bool)
      requires Valid()
      modifies this
      ensures Valid()
      ensures conflict <==> ConflictsWith(old(commandMap), cmd)
      ensures commandMap == Record(old(commandMap), cmd)
    {
      RecordKeepsCommuting(commandMap, cmd);
      conflict := HasConflictWith(cmd);
      if !conflict {
        commandMap := commandMap[cmd.id := cmd];
      }
    }

    method Remove(id: ProposeId)
      requires Valid()
      modifies this
      ensures Valid()
      ensures commandMap == old(commandMap) - {id}
    {
      commandMap := commandMap - {id};
    }
  }
}
