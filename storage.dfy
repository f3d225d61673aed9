/**
 * The `Storage` interface of src/storage/mod.rs, stated as a reference model
 * over a two-level map, together with `StorageIter` and the enumeration of a
 * map's entries that both backends use for `get_all` and `get_iter`.
 *
 * A table that was never written reads exactly like an empty one: every
 * operation below looks a table up through `TableOf`.
 */
module Storage {
  import opened Wrappers
  import opened Pb

  type Table = map<string, Value>
  type Tables = map<string, Table>

  /** The contents of table `t`; empty when `t` does not exist. */
  function TableOf(s: Tables, t: string): Table {
    if t in s then s[t] else map[]
  }

  /** What `get(t, k)` returns. */
  function Lookup(s: Tables, t: string, k: string): Option<Value> {
    if k in TableOf(s, t) then Some(TableOf(s, t)[k]) else None
  }

  /** The state after table `t` has been looked up: it now exists, nothing else changed. */
  function Touch(s: Tables, t: string): (s': Tables)
    ensures t in s' && s'.Keys == s.Keys + {t}
    ensures forall u :: TableOf(s', u) == TableOf(s, u)
  {
    s[t := TableOf(s, t)]
  }

  /** The state after `set(t, k, v)`. */
  function WithSet(s: Tables, t: string, k: string, v: Value): (s': Tables)
    ensures t in s' && s'.Keys == s.Keys + {t}
    ensures k in s'[t] && s'[t][k] == v
    ensures forall u :: u != t ==> TableOf(s', u) == TableOf(s, u)
  {
    s[t := TableOf(s, t)[k := v]]
  }

  /** The state after `del(t, k)`. */
  function WithDel(s: Tables, t: string, k: string): (s': Tables)
    ensures t in s' && s'.Keys == s.Keys + {t}
    ensures k !in s'[t]
    ensures forall u :: u != t ==> TableOf(s', u) == TableOf(s, u)
  {
    s[t := TableOf(s, t) - {k}]
  }

  /** `set` binds `k` in `t` to `v`, keeps every other binding, in `t` and in every other table. */
  lemma SetThenLookup(s: Tables, t: string, k: string, v: Value, t2: string, k2: string)
    ensures Lookup(WithSet(s, t, k, v), t2, k2) == if t2 == t && k2 == k then Some(v) else Lookup(s, t2, k2)
  {
  }

  /** `del` unbinds `k` in `t` and keeps every other binding. */
  lemma DelThenLookup(s: Tables, t: string, k: string, t2: string, k2: string)
    ensures Lookup(WithDel(s, t, k), t2, k2) == if t2 == t && k2 == k then None else Lookup(s, t2, k2)
  {
  }

  /** The keys of a sequence of pairs. */
  function KeysOf(ps: seq<Kvpair>): set<string> {
    set p | p in ps :: p.key
  }

  /** The keys of a sequence of entries. */
  ghost function EntryKeys<V>(es: seq<(string, V)>): set<string> {
    set e | e in es :: e.0
  }

  /** `ps` lists table `m`: one `Kvpair(k, Some(m[k]))` per entry, no key twice, in some order. */
  ghost predicate IsListing(ps: seq<Kvpair>, m: Table) {
    && (forall i :: 0 <= i < |ps| ==> ps[i].key in m && ps[i].value == Some(m[ps[i].key]))
    && (forall i, j :: 0 <= i < j < |ps| ==> ps[i].key != ps[j].key)
    && KeysOf(ps) == m.Keys
  }

  /** `es` enumerates the entries of `m`, each exactly once, in some order. */
  ghost predicate IsEntryListing<V>(es: seq<(string, V)>, m: map<string, V>) {
    && (forall i :: 0 <= i < |es| ==> es[i].0 in m && m[es[i].0] == es[i].1)
    && (forall i, j :: 0 <= i < j < |es| ==> es[i].0 != es[j].0)
    && EntryKeys(es) == m.Keys
  }

  /** Iterating a map: every entry once, in an order the map does not promise. */
  method Entries<V>(m: map<string, V>) returns (es: seq<(string, V)>)
    ensures IsEntryListing(es, m)
  {
    es := [];
    var rest := m.Keys;
    while rest != {}
      invariant rest <= m.Keys
      invariant forall i :: 0 <= i < |es| ==> es[i].0 in m && es[i].0 !in rest && m[es[i].0] == es[i].1
      invariant forall i, j :: 0 <= i < j < |es| ==> es[i].0 != es[j].0
      invariant EntryKeys(es) == m.Keys - rest
      decreases rest
    {
      var k :| k in rest;
      ghost var before := es;
      es := es + [(k, m[k])];
      assert EntryKeys(es) == EntryKeys(before) + {k} by {
        assert forall e :: e in es <==> e in before || e == (k, m[k]);
      }
      rest := rest - {k};
    }
  }

  /** The pair a map entry converts to (`(key, value).into()`). */
  function EntryPair(e: (string, Value)): Kvpair {
    NewKvpair(e.0, e.1)
  }

  /** Applies `into` to every item, keeping the order. */
  function Converted<T>(into: T -> Kvpair, s: seq<T>): (r: seq<Kvpair>)
    ensures |r| == |s| && forall i :: 0 <= i < |s| ==> r[i] == into(s[i])
  {
    seq(|s|, i requires 0 <= i < |s| => into(s[i]))
  }

  /** Converting an enumeration of a table's entries gives a listing of that table. */
  lemma EntriesGiveListing(es: seq<(string, Value)>, m: Table)
    requires IsEntryListing(es, m)
    ensures IsListing(Converted(EntryPair, es), m)
  {
    var ps := Converted(EntryPair, es);
    assert KeysOf(ps) == EntryKeys(es) by {
      forall x | x in KeysOf(ps) ensures x in EntryKeys(es) {
        var p :| p in ps && p.key == x;
        var i :| 0 <= i < |ps| && ps[i] == p;
        assert es[i] in es;
      }
      forall x | x in EntryKeys(es) ensures x in KeysOf(ps) {
        var e :| e in es && e.0 == x;
        var i :| 0 <= i < |es| && es[i] == e;
        assert ps[i] in ps;
      }
    }
  }

  /** In a sequence whose keys are distinct, a pair occurs at most once. */
  lemma {:induction false} DistinctOccurrences(ps: seq<Kvpair>, p: Kvpair)
    requires forall i, j :: 0 <= i < j < |ps| ==> ps[i].key != ps[j].key
    ensures multiset(ps)[p] == if p in ps then 1 else 0
  {
    if ps != [] {
      var init := ps[..|ps| - 1];
      assert ps == init + [ps[|ps| - 1]];
      DistinctOccurrences(init, p);
      if p == ps[|ps| - 1] {
        forall i | 0 <= i < |init| ensures init[i] != p {
          assert ps[i].key != ps[|ps| - 1].key;
        }
      }
    }
  }

  /** Two listings of the same table are permutations of each other:
      they are equal once sorted. */
  lemma ListingsArePermutations(ps1: seq<Kvpair>, ps2: seq<Kvpair>, m: Table)
    requires IsListing(ps1, m) && IsListing(ps2, m)
    ensures multiset(ps1) == multiset(ps2)
  {
    forall p ensures multiset(ps1)[p] == multiset(ps2)[p] {
      DistinctOccurrences(ps1, p);
      DistinctOccurrences(ps2, p);
      assert p in ps1 <==> p in ps2 by {
        if p in ps1 {
          var i :| 0 <= i < |ps1| && ps1[i] == p;
          assert p.key in KeysOf(ps2);
          var q :| q in ps2 && q.key == p.key;
          var j :| 0 <= j < |ps2| && ps2[j] == q;
          assert ps2[j] == p;
        }
        if p in ps2 {
          var j :| 0 <= j < |ps2| && ps2[j] == p;
          assert p.key in KeysOf(ps1);
          var q :| q in ps1 && q.key == p.key;
          var i :| 0 <= i < |ps1| && ps1[i] == q;
          assert ps1[i] == p;
        }
      }
    }
  }

  /** A listing of a table has as many pairs as the table has keys; an empty table lists as []. */
  lemma ListingSize(ps: seq<Kvpair>, m: Table)
    requires IsListing(ps, m)
    ensures |ps| == |m|
    ensures m == map[] ==> ps == []
  {
    if |ps| > 0 {
      assert ps[0].key in m;
    }
    ListingSizeByInduction(ps, m);
  }

  lemma {:induction false} ListingSizeByInduction(ps: seq<Kvpair>, m: Table)
    requires forall i :: 0 <= i < |ps| ==> ps[i].key in m
    requires forall i, j :: 0 <= i < j < |ps| ==> ps[i].key != ps[j].key
    requires KeysOf(ps) == m.Keys
    ensures |ps| == |m|
  {
    if ps == [] {
      assert m.Keys == {};
    } else {
      var k := ps[0].key;
      var rest := ps[1..];
      var m' := m - {k};
      assert KeysOf(rest) == m'.Keys by {
        forall x | x in KeysOf(rest) ensures x in m'.Keys {
          var p :| p in rest && p.key == x;
          var i :| 0 <= i < |rest| && rest[i] == p;
          assert ps[i + 1].key == x;
          assert ps[i + 1] in ps;
          assert x != k;
        }
        forall x | x in m'.Keys ensures x in KeysOf(rest) {
          assert x in KeysOf(ps);
          var p :| p in ps && p.key == x;
          var i :| 0 <= i < |ps| && ps[i] == p;
          assert i != 0;
          assert rest[i - 1] in rest;
        }
      }
      forall i | 0 <= i < |rest| ensures rest[i].key in m' {
        assert ps[i + 1].key != ps[0].key;
      }
      ListingSizeByInduction(rest, m');
    }
  }

  /**
   * `StorageIter`: wraps an inner iterator (here the items it has yet to
   * produce) and converts each item into a `Kvpair` as it is taken.
   */
  class StorageIter<T> {
    var data: seq<T>
    const into: T -> Kvpair

    constructor (data: seq<T>, into: T -> Kvpair)
      ensures this.data == data && this.into == into
    {
      this.data := data;
      this.into := into;
    }

    /** `next`: the inner iterator's next item, converted; `None` exactly when it is exhausted. */
    method Next() returns (item: Option<Kvpair>)
      modifies this
      ensures old(data) == [] ==> item == None && data == []
      ensures old(data) != [] ==> item == Some(into(old(data)[0])) && data == old(data)[1..]
    {
      if data == [] {
        item := None;
      } else {
        item := Some(into(data[0]));
        data := data[1..];
      }
    }
  }

  /** `collect()` on a `StorageIter`: every remaining item, converted, in the inner order. */
  method Collect<T>(it: StorageIter<T>) returns (ps: seq<Kvpair>)
    modifies it
    ensures ps == Converted(it.into, old(it.data))
    ensures it.data == []
  {
    ps := [];
    var item := it.Next();
    while item.Some?
      invariant item.None? ==> it.data == []
      invariant ps + (if item.Some? then [item.value] else []) + Converted(it.into, it.data)
             == Converted(it.into, old(it.data))
      decreases |it.data| + (if item.Some? then 1 else 0)
    {
      ps := ps + [item.value];
      ghost var rest := it.data;
      item := it.Next();
      assert rest != [] ==> Converted(it.into, rest) == [it.into(rest[0])] + Converted(it.into, rest[1..]);
    }
  }

  /** A listing of the two-entry table {k1: v1, k2: v2} is a permutation of its two pairs. */
  lemma TwoKeyListing(k1: string, k2: string, v1: Value, v2: Value, ps: seq<Kvpair>, m: Table)
    requires k1 != k2 && m == map[k1 := v1, k2 := v2]
    requires IsListing(ps, m)
    ensures multiset(ps) == multiset([NewKvpair(k1, v1), NewKvpair(k2, v2)])
  {
    var expected := [NewKvpair(k1, v1), NewKvpair(k2, v2)];
    assert KeysOf(expected) == {k1, k2} by {
      assert expected[0] in expected && expected[1] in expected;
    }
    ListingsArePermutations(ps, expected, m);
  }
}
