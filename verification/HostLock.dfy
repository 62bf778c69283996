/**
 The per-host lock table (internal/inventory/lock.go): a process-wide map from host ID to a
 mutex that is created on first use and never removed. `true` is a locked mutex.
 */
module HostLock {
  type Table<!K> = map<K, bool>

  predicate Held<K>(t: Table<K>, k: K) {
    k in t && t[k]
  }

  function Release<K>(t: Table<K>, k: K): Table<K> {
    if k in t then t[k := false] else t
  }

  class HostLocks<K(==)> {
    var table: Table<K>

    constructor ()
      ensures table == map[]
    {
      table := map[];
    }

    /** Never blocks; on failure the table still holds the lock of whoever took it. */
    method TryLock(k: K) returns (ok: bool)
      modifies this
      ensures ok == !Held(old(table), k) && table == old(table)[k := true]
      ensures !ok ==> table == old(table)
      ensures Held(table, k)
      ensures old(table.Keys) <= table.Keys
      ensures forall j :: j != k ==> Held(table, j) == Held(old(table), j)
    {
      if k !in table {
        table := table[k := false];
      }
      ok := !table[k];
      table := table[k := true];
    }

    /** Unlocking an unlocked mutex panics; a host ID that was never seen is ignored. */
    method Unlock(k: K)
      requires k in table ==> Held(table, k)
      modifies this
      ensures table == Release(old(table), k)
      ensures !Held(table, k)
      ensures forall j :: j != k ==> Held(table, j) == Held(old(table), j)
    {
      if k in table {
        table := table[k := false];
      }
    }
  }
}
