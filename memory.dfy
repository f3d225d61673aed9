/**
 * `MemTable` of src/storage/memory.rs: the in-memory backend, a map from
 * table name to an inner map from key to value. Tables are created lazily,
 * by every operation, reads included.
 */
module Memory {
  import opened Wrappers
  import opened Pb
  import opened Errors
  import opened Storage

  class MemTable {
    var tables: Tables

    /** `MemTable::new()`: no tables. */
    constructor ()
      ensures tables == map[]
    {
      tables := map[];
    }

    /** `get_or_create`: the existing inner table, or a fresh empty one that is
        inserted first. An existing table is never replaced. */
    method GetOrCreate(name: string) returns (table: Table)
      modifies this
      ensures table == TableOf(old(tables), name)
      ensures tables == Touch(old(tables), name)
      ensures name in old(tables) ==> tables == old(tables)
      ensures name !in old(tables) ==> tables == old(tables)[name := map[]]
    {
      if name in tables {
        table := tables[name];
      } else {
        tables := tables[name := map[]];
        table := map[];
      }
    }

    method Get(t: string, k: string) returns (r: Result<Option<Value>, KvError>)
      modifies this
      ensures r == Ok(Lookup(old(tables), t, k))
      ensures tables == Touch(old(tables), t)
    {
      var table := GetOrCreate(t);
      r := Ok(if k in table then Some(table[k]) else None);
    }

    /** `set`: binds `k` to `v` in table `t`, returning the previous binding. */
    method Set(t: string, k: string, v: Value) returns (r: Result<Option<Value>, KvError>)
      modifies this
      ensures r == Ok(Lookup(old(tables), t, k))
      ensures tables == WithSet(old(tables), t, k, v)
    {
      var table := GetOrCreate(t);
      var previous := if k in table then Some(table[k]) else None;
      tables := tables[t := table[k := v]];
      r := Ok(previous);
    }

    method Contains(t: string, k: string) returns (r: Result<bool, KvError>)
      modifies this
      ensures r == Ok(Lookup(old(tables), t, k).Some?)
      ensures tables == Touch(old(tables), t)
    {
      var table := GetOrCreate(t);
      r := Ok(k in table);
    }

    /** `del`: unbinds `k` in table `t`, returning the removed value. */
    method Del(t: string, k: string) returns (r: Result<Option<Value>, KvError>)
      modifies this
      ensures r == Ok(Lookup(old(tables), t, k))
      ensures tables == WithDel(old(tables), t, k)
    {
      var table := GetOrCreate(t);
      var removed := if k in table then Some(table[k]) else None;
      tables := tables[t := table - {k}];
      r := Ok(removed);
    }

    /** `get_all`: one pair per entry of table `t`, in the inner map's order. */
    method GetAll(t: string) returns (r: Result<seq<Kvpair>, KvError>)
      modifies this
      ensures r.Ok? && IsListing(r.value, TableOf(old(tables), t))
      ensures tables == Touch(old(tables), t)
    {
      var table := GetOrCreate(t);
      var es := Entries(table);
      EntriesGiveListing(es, table);
      r := Ok(Converted(EntryPair, es));
    }

    /** `get_iter`: an iterator over a snapshot of table `t`'s entries. */
    method GetIter(t: string) returns (r: Result<StorageIter<(string, Value)>, KvError>)
      modifies this
      ensures r.Ok? && fresh(r.value)
      ensures r.value.into == EntryPair && IsEntryListing(r.value.data, TableOf(old(tables), t))
      ensures IsListing(Converted(r.value.into, r.value.data), TableOf(old(tables), t))
      ensures tables == Touch(old(tables), t)
    {
      var table := GetOrCreate(t);
      var es := Entries(table);
      EntriesGiveListing(es, table);
      var it := new StorageIter(es, EntryPair);
      r := Ok(it);
    }
  }

  /** The shared basic-interface test, on a fresh `MemTable`, for any two tables,
      two keys and two values. */
  method BasicInterface(t: string, t2: string, k: string, k2: string, v1: Value, v2: Value)
    returns (set1: Result<Option<Value>, KvError>, set2: Result<Option<Value>, KvError>,
             get1: Result<Option<Value>, KvError>, get2: Result<Option<Value>, KvError>,
             get3: Result<Option<Value>, KvError>,
             has1: Result<bool, KvError>, has2: Result<bool, KvError>, has3: Result<bool, KvError>,
             del1: Result<Option<Value>, KvError>, del2: Result<Option<Value>, KvError>,
             del3: Result<Option<Value>, KvError>)
    requires t != t2 && k != k2
    ensures set1 == Ok(None) && set2 == Ok(Some(v1))
    ensures get1 == Ok(Some(v2)) && get2 == Ok(None) && get3 == Ok(None)
    ensures has1 == Ok(true) && has2 == Ok(false) && has3 == Ok(false)
    ensures del1 == Ok(Some(v2)) && del2 == Ok(None) && del3 == Ok(None)
  {
    var store := new MemTable();
    set1 := store.Set(t, k, v1);
    set2 := store.Set(t, k, v2);
    get1 := store.Get(t, k);
    get2 := store.Get(t, k2);
    get3 := store.Get(t2, k2);
    has1 := store.Contains(t, k);
    has2 := store.Contains(t, k2);
    has3 := store.Contains(t2, k);
    del1 := store.Del(t, k);
    del2 := store.Del(t, k2);
    del3 := store.Del(t2, k);
  }

  /** The shared get_all test on a fresh `MemTable`: after two sets, `get_all`
      equals the two pairs once sorted. */
  method GetAllTwoKeys(t: string, k1: string, k2: string, v1: Value, v2: Value) returns (r: Result<seq<Kvpair>, KvError>)
    requires k1 != k2
    ensures r.Ok? && multiset(r.value) == multiset([NewKvpair(k1, v1), NewKvpair(k2, v2)])
  {
    var store := new MemTable();
    var _ := store.Set(t, k1, v1);
    var _ := store.Set(t, k2, v2);
    r := store.GetAll(t);
    TwoKeyListing(k1, k2, v1, v2, r.value, TableOf(store.tables, t));
  }

  /** The shared get_iter test on a fresh `MemTable`: collecting the iterator
      gives the same pairs as `get_all`, once sorted. */
  method GetIterTwoKeys(t: string, k1: string, k2: string, v1: Value, v2: Value) returns (ps: seq<Kvpair>)
    requires k1 != k2
    ensures multiset(ps) == multiset([NewKvpair(k1, v1), NewKvpair(k2, v2)])
  {
    var store := new MemTable();
    var _ := store.Set(t, k1, v1);
    var _ := store.Set(t, k2, v2);
    var table := TableOf(store.tables, t);
    var r := store.GetIter(t);
    var it := r.value;
    ghost var es := it.data;
    ps := Collect(it);
    EntriesGiveListing(es, table);
    TwoKeyListing(k1, k2, v1, v2, ps, table);
  }
}
