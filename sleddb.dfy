/**
 * `SledDb` of src/storage/sleddb.rs: the persistent backend over one flat
 * ordered keyspace. A `(table, key)` coordinate is stored under the single
 * key `table + ":" + key`; a table is enumerated by a prefix scan over
 * `table + ":"`, and the user key is recovered by splitting the stored key
 * on ':' and taking the second segment.
 *
 * The embedded engine is a plain map from key to bytes; the value codec is
 * a parameter (two functions, each of which may fail). Nothing here proves
 * that decoding undoes encoding: where that is needed it is a hypothesis,
 * `Lossless`.
 */
module Sled {
  import opened Wrappers
  import opened Pb
  import opened Errors
  import opened Storage

  newtype Byte = x: int | 0 <= x < 256
  type Bytes = seq<Byte>
  type Tree = map<string, Bytes>

  /** The serialisation of a `Value` into bytes and back (`try_into` both ways). */
  datatype Codec = Codec(encode: Value -> Result<Bytes, KvError>, decode: Bytes -> Result<Value, KvError>)

  /** Decoding undoes every successful encoding. */
  ghost predicate Lossless(c: Codec) {
    forall v :: c.encode(v).Ok? ==> c.decode(c.encode(v).value) == Ok(v)
  }

  /** An error of the engine itself (I/O, corruption). */
  datatype SledError = IoError(msg: string)

  /** An item of a prefix scan. */
  type ScanItem = Result<(string, Bytes), SledError>

  /** A scan item produced by a prefix scan over some table prefix: its key holds a ':'. */
  type PrefixedItem = e: ScanItem | e.Ok? ==> ':' in e.value.0 witness Err(IoError(""))

  predicate NoColon(s: string) {
    ':' !in s
  }

  /** `get_table_prefix`. */
  function TablePrefix(table: string): (p: string)
    ensures |p| == |table| + 1 && p[|table|] == ':' && table <= p
  {
    table + ":"
  }

  /** `get_full_key`: every full key of a table starts with that table's prefix. */
  function FullKey(table: string, key: string): (fk: string)
    ensures TablePrefix(table) <= fk
    ensures |fk| == |table| + 1 + |key| && fk[|table| + 1..] == key
  {
    table + ":" + key
  }

  /** The end of the first ':'-separated segment of `s`: the index of the first ':', or |s|. */
  function SegmentEnd(s: string): (n: nat)
    ensures n <= |s|
    ensures NoColon(s[..n])
    ensures n < |s| ==> s[n] == ':'
    ensures NoColon(s) <==> n == |s|
  {
    if s == [] then 0
    else if s[0] == ':' then 0
    else
      var n := 1 + SegmentEnd(s[1..]);
      assert s[..n] == [s[0]] + s[1..][..n - 1];
      assert n == |s| ==> s == [s[0]] + s[1..];
      n
  }

  /** The first segment of a stored key: the table it was written under. */
  function TablePart(fk: string): string {
    fk[..SegmentEnd(fk)]
  }

  /** Everything after the first ':' of a stored key. */
  function KeyPart(fk: string): string
    requires ':' in fk
  {
    fk[SegmentEnd(fk) + 1..]
  }

  /** `ivec_to_key`: the second ':'-separated segment. The source unwraps the
      second segment, so a key without ':' is outside its domain. */
  function IvecToKey(fk: string): (k: string)
    requires ':' in fk
    ensures NoColon(k) && k <= KeyPart(fk)
    ensures |k| == |KeyPart(fk)| || KeyPart(fk)[|k|] == ':'
  {
    var rest := fk[SegmentEnd(fk) + 1..];
    rest[..SegmentEnd(rest)]
  }

  /** A key of the form `t:k` with neither part holding a ':'. */
  predicate IsFlatKey(fk: string) {
    ':' in fk && NoColon(KeyPart(fk))
  }

  /** Behind a colon-free table name, the first segment ends exactly where the name does. */
  lemma {:induction false} SegmentEndAfterPrefix(t: string, s: string)
    requires NoColon(t) && TablePrefix(t) <= s
    ensures SegmentEnd(s) == |t|
  {
    if t != [] {
      assert s[0] == t[0];
      assert TablePrefix(t[1..]) <= s[1..] by {
        assert TablePrefix(t) == [t[0]] + TablePrefix(t[1..]);
      }
      SegmentEndAfterPrefix(t[1..], s[1..]);
    }
  }

  /** When neither `t` nor `k` holds a ':', the full key of `(t, k)` splits back into `t` and `k`. */
  lemma KeyRoundTrip(t: string, k: string)
    requires NoColon(t) && NoColon(k)
    ensures IsFlatKey(FullKey(t, k))
    ensures TablePart(FullKey(t, k)) == t && KeyPart(FullKey(t, k)) == k
    ensures IvecToKey(FullKey(t, k)) == k
  {
    SegmentEndAfterPrefix(t, FullKey(t, k));
  }

  /** A flat key is the full key of its two parts, and `ivec_to_key` returns its second part. */
  lemma FlatKeySplits(fk: string)
    requires IsFlatKey(fk)
    ensures NoColon(TablePart(fk))
    ensures fk == FullKey(TablePart(fk), KeyPart(fk))
    ensures IvecToKey(fk) == KeyPart(fk)
  {
    var n := SegmentEnd(fk);
    assert fk == fk[..n] + [fk[n]] + fk[n + 1..];
  }

  /** For colon-free names, two tables' key ranges never overlap: the full key of
      table `t2` lies under table `t`'s prefix only when `t2 == t`. */
  lemma PrefixSeparatesTables(t: string, t2: string, k: string)
    requires NoColon(t) && NoColon(t2) && NoColon(k)
    ensures TablePrefix(t) <= FullKey(t2, k) <==> t == t2
  {
    if TablePrefix(t) <= FullKey(t2, k) {
      SegmentEndAfterPrefix(t, FullKey(t2, k));
      SegmentEndAfterPrefix(t2, FullKey(t2, k));
      assert t == FullKey(t2, k)[..|t|];
    }
  }

  /** Full keys of colon-free coordinates are injective. */
  lemma FullKeyInjective(t1: string, k1: string, t2: string, k2: string)
    requires NoColon(t1) && NoColon(k1) && NoColon(t2) && NoColon(k2)
    ensures FullKey(t1, k1) == FullKey(t2, k2) <==> t1 == t2 && k1 == k2
  {
    KeyRoundTrip(t1, k1);
    KeyRoundTrip(t2, k2);
  }

  /** A key holding ':' does not survive: the round trip yields only its first segment. */
  lemma ColonInKeyIsTruncated(t: string, k: string)
    requires NoColon(t) && ':' in k
    ensures IvecToKey(FullKey(t, k)) == k[..SegmentEnd(k)]
    ensures IvecToKey(FullKey(t, k)) != k
  {
    SegmentEndAfterPrefix(t, FullKey(t, k));
  }

  /** For instance, key "a:b" of table "t" comes back as "a". */
  lemma ColonInKeyExample()
    ensures IvecToKey(FullKey("t", "a:b")) == "a"
  {
    ColonInKeyIsTruncated("t", "a:b");
    assert SegmentEnd("a:b") == 1 by {
      assert "a:b"[1..] == ":b";
    }
  }

  /** `flip`: turns an optional result inside out. */
  function Flip<T, E>(x: Option<Result<T, E>>): (r: Result<Option<T>, E>)
    ensures r == Ok(None) <==> x.None?
    ensures r.Ok? && r.value.Some? ==> x == Some(Ok(r.value.value))
    ensures r.Err? ==> x == Some(Err(r.error))
  {
    match x
    case None => Ok(None)
    case Some(Ok(v)) => Ok(Some(v))
    case Some(Err(e)) => Err(e)
  }

  /** The inverse of `flip`. */
  function Unflip<T, E>(r: Result<Option<T>, E>): Option<Result<T, E>> {
    match r
    case Ok(None) => None
    case Ok(Some(v)) => Some(Ok(v))
    case Err(e) => Some(Err(e))
  }

  /** `flip` is a bijection: it maps None to Ok(None), Some(Ok(x)) to Ok(Some(x)),
      Some(Err(e)) to Err(e), and loses nothing. */
  lemma FlipIsBijective<T, E>(x: Option<Result<T, E>>, r: Result<Option<T>, E>)
    ensures Unflip(Flip(x)) == x && Flip(Unflip(r)) == r
    ensures x.None? <==> Flip(x) == Ok(None)
    ensures x.Some? && x.value.Err? <==> Flip(x).Err?
  {
  }

  /** The decoded value stored under `fk`, if any (`.map(|v| v.as_ref().try_into())`). */
  function DecodeAt(tree: Tree, c: Codec, fk: string): Option<Result<Value, KvError>> {
    if fk in tree then Some(c.decode(tree[fk])) else None
  }

  /** What `get(t, k)` returns. */
  function GetResult(tree: Tree, c: Codec, t: string, k: string): (r: Result<Option<Value>, KvError>)
    ensures FullKey(t, k) !in tree ==> r == Ok(None)
    ensures FullKey(t, k) in tree && c.decode(tree[FullKey(t, k)]).Ok? ==>
              r == Ok(Some(c.decode(tree[FullKey(t, k)]).value))
    ensures FullKey(t, k) in tree && c.decode(tree[FullKey(t, k)]).Err? ==>
              r == Err(c.decode(tree[FullKey(t, k)]).error)
  {
    Flip(DecodeAt(tree, c, FullKey(t, k)))
  }

  /** What `set(t, k, v)` returns: the encode error, or the decoded previous value. */
  function SetResult(tree: Tree, c: Codec, t: string, k: string, v: Value): (r: Result<Option<Value>, KvError>)
    ensures c.encode(v).Err? ==> r == Err(c.encode(v).error)
    ensures c.encode(v).Ok? ==> r == GetResult(tree, c, t, k)
  {
    match c.encode(v)
    case Err(e) => Err(e)
    case Ok(_) => Flip(DecodeAt(tree, c, FullKey(t, k)))
  }

  /** The keyspace after `set(t, k, v)`: unchanged when encoding fails. */
  function SetTree(tree: Tree, c: Codec, t: string, k: string, v: Value): (t': Tree)
    ensures c.encode(v).Err? ==> t' == tree
    ensures c.encode(v).Ok? ==> t'.Keys == tree.Keys + {FullKey(t, k)} && t'[FullKey(t, k)] == c.encode(v).value
    ensures forall fk :: fk in tree && fk != FullKey(t, k) ==> t'[fk] == tree[fk]
  {
    match c.encode(v)
    case Err(_) => tree
    case Ok(data) => tree[FullKey(t, k) := data]
  }

  /** The keyspace after `del(t, k)`. */
  function DelTree(tree: Tree, t: string, k: string): (t': Tree)
    ensures t'.Keys == tree.Keys - {FullKey(t, k)}
    ensures forall fk :: fk in t' ==> t'[fk] == tree[fk]
  {
    tree - {FullKey(t, k)}
  }

  /** The entries a prefix scan over table `t`'s prefix visits. */
  function ScanTable(tree: Tree, t: string): (m: Tree)
    ensures forall fk :: fk in m ==> fk in tree && TablePrefix(t) <= fk && ':' in fk
    ensures forall fk :: fk in tree && TablePrefix(t) <= fk ==> fk in m && m[fk] == tree[fk]
  {
    var m := map fk | fk in tree && TablePrefix(t) <= fk :: tree[fk];
    assert forall fk :: fk in m ==> fk[|t|] == ':';
    m
  }

  /** `impl From<Result<(IVec, IVec), sled::Error>> for Kvpair`: a scan item whose
      value does not decode, or that is an error, becomes `Kvpair::default()`. */
  function ScanItemPair(c: Codec, e: PrefixedItem): (p: Kvpair)
    ensures e.Err? ==> p == DefaultKvpair
    ensures e.Ok? && c.decode(e.value.1).Err? ==> p == DefaultKvpair
    ensures e.Ok? && c.decode(e.value.1).Ok? ==> p == NewKvpair(IvecToKey(e.value.0), c.decode(e.value.1).value)
  {
    match e
    case Ok(entry) =>
      (match c.decode(entry.1)
       case Ok(v) => NewKvpair(IvecToKey(entry.0), v)
       case Err(_) => DefaultKvpair)
    case Err(_) => DefaultKvpair
  }

  /** The scan items for an enumeration of scanned entries. */
  function ScanItems(es: seq<(string, Bytes)>): (items: seq<PrefixedItem>)
    requires forall i :: 0 <= i < |es| ==> ':' in es[i].0
    ensures |items| == |es| && forall i :: 0 <= i < |es| ==> items[i] == Ok(es[i])
  {
    seq(|es|, i requires 0 <= i < |es| => Ok(es[i]))
  }

  /** `get_all`'s result for an enumeration of scanned entries. */
  ghost predicate ScanListing(tree: Tree, c: Codec, t: string, ps: seq<Kvpair>) {
    exists es :: IsEntryListing(es, ScanTable(tree, t)) && ps == Converted(e => ScanItemPair(c, e), ScanItems(es))
  }

  /** The bytes under `fk`, if any, decode to the value bound at the coordinate `fk` names. */
  ghost predicate StoredIsBound(tree: Tree, c: Codec, tables: Tables, fk: string) {
    fk in tree ==>
      && IsFlatKey(fk)
      && c.decode(tree[fk]).Ok?
      && Lookup(tables, TablePart(fk), KeyPart(fk)) == Some(c.decode(tree[fk]).value)
  }

  /** A binding at `(t, k)`, if any, has colon-free names and is stored under `t:k`. */
  ghost predicate BoundIsStored(tree: Tree, tables: Tables, t: string, k: string) {
    t in tables && k in tables[t] ==> NoColon(t) && NoColon(k) && FullKey(t, k) in tree
  }

  /**
   * The flat keyspace `tree` holds exactly the two-level contents `tables`:
   * every stored key is a colon-free `t:k` whose bytes decode to the value
   * bound at `(t, k)`, and every binding, with colon-free names, is stored.
   */
  ghost predicate Mirrors(tree: Tree, c: Codec, tables: Tables) {
    && (forall fk :: StoredIsBound(tree, c, tables, fk))
    && (forall t, k :: BoundIsStored(tree, tables, t, k))
  }

  /** Every binding of a mirrored two-level map is stored under its full key. */
  lemma MirroredBinding(tree: Tree, c: Codec, tables: Tables, t: string, k: string)
    requires Mirrors(tree, c, tables) && t in tables && k in tables[t]
    ensures NoColon(t) && NoColon(k) && FullKey(t, k) in tree
  {
    assert BoundIsStored(tree, tables, t, k);
  }

  /** A fresh database mirrors a fresh `MemTable`. */
  lemma EmptyMirrors(c: Codec)
    ensures Mirrors(map[], c, map[])
  {
  }

  /** Looking a table up on the two-level side (as `MemTable` does) keeps the mirror. */
  lemma TouchMirrors(tree: Tree, c: Codec, tables: Tables, t: string)
    requires Mirrors(tree, c, tables)
    ensures Mirrors(tree, c, Touch(tables, t))
  {
    forall fk ensures StoredIsBound(tree, c, Touch(tables, t), fk) {
      assert StoredIsBound(tree, c, tables, fk);
    }
    forall t2, k2 ensures BoundIsStored(tree, Touch(tables, t), t2, k2) {
      assert BoundIsStored(tree, tables, t2, k2);
    }
  }

  /** On a mirrored keyspace `get` and `contains` answer as `MemTable` does. */
  lemma MirroredGet(tree: Tree, c: Codec, tables: Tables, t: string, k: string)
    requires Mirrors(tree, c, tables) && NoColon(t) && NoColon(k)
    ensures GetResult(tree, c, t, k) == Ok(Lookup(tables, t, k))
    ensures (FullKey(t, k) in tree) == Lookup(tables, t, k).Some?
  {
    KeyRoundTrip(t, k);
    assert StoredIsBound(tree, c, tables, FullKey(t, k));
    assert BoundIsStored(tree, tables, t, k);
  }

  lemma SetKeepsStored(tree: Tree, c: Codec, tables: Tables, t: string, k: string, v: Value, x: string)
    requires Mirrors(tree, c, tables) && Lossless(c) && c.encode(v).Ok?
    requires NoColon(t) && NoColon(k)
    ensures StoredIsBound(SetTree(tree, c, t, k, v), c, WithSet(tables, t, k, v), x)
  {
    var tree' := SetTree(tree, c, t, k, v);
    assert tree' == tree[FullKey(t, k) := c.encode(v).value];
    if x == FullKey(t, k) {
      KeyRoundTrip(t, k);
    } else if x in tree {
      assert StoredIsBound(tree, c, tables, x);
      FlatKeySplits(x);
      SetThenLookup(tables, t, k, v, TablePart(x), KeyPart(x));
    }
  }

  lemma SetKeepsBound(tree: Tree, c: Codec, tables: Tables, t: string, k: string, v: Value, t2: string, k2: string)
    requires Mirrors(tree, c, tables) && c.encode(v).Ok?
    requires NoColon(t) && NoColon(k)
    ensures BoundIsStored(SetTree(tree, c, t, k, v), WithSet(tables, t, k, v), t2, k2)
  {
    var tables' := WithSet(tables, t, k, v);
    if t2 in tables' && k2 in tables'[t2] && (t2 != t || k2 != k) {
      assert k2 in TableOf(tables', t2);
      SetThenLookup(tables, t, k, v, t2, k2);
      MirroredBinding(tree, c, tables, t2, k2);
    }
  }

  /** On a mirrored keyspace, `set` answers as `MemTable` does, and afterwards the
      keyspace mirrors `MemTable`'s state after the same `set`. */
  lemma MirroredSet(tree: Tree, c: Codec, tables: Tables, t: string, k: string, v: Value)
    requires Mirrors(tree, c, tables) && Lossless(c) && c.encode(v).Ok?
    requires NoColon(t) && NoColon(k)
    ensures SetResult(tree, c, t, k, v) == Ok(Lookup(tables, t, k))
    ensures Mirrors(SetTree(tree, c, t, k, v), c, WithSet(tables, t, k, v))
  {
    MirroredGet(tree, c, tables, t, k);
    forall x ensures StoredIsBound(SetTree(tree, c, t, k, v), c, WithSet(tables, t, k, v), x) {
      SetKeepsStored(tree, c, tables, t, k, v, x);
    }
    forall t2, k2 ensures BoundIsStored(SetTree(tree, c, t, k, v), WithSet(tables, t, k, v), t2, k2) {
      SetKeepsBound(tree, c, tables, t, k, v, t2, k2);
    }
  }

  lemma DelKeepsStored(tree: Tree, c: Codec, tables: Tables, t: string, k: string, x: string)
    requires Mirrors(tree, c, tables) && NoColon(t) && NoColon(k)
    ensures StoredIsBound(DelTree(tree, t, k), c, WithDel(tables, t, k), x)
  {
    if x in DelTree(tree, t, k) {
      assert StoredIsBound(tree, c, tables, x);
      FlatKeySplits(x);
      KeyRoundTrip(t, k);
      DelThenLookup(tables, t, k, TablePart(x), KeyPart(x));
    }
  }

  lemma DelKeepsBound(tree: Tree, c: Codec, tables: Tables, t: string, k: string, t2: string, k2: string)
    requires Mirrors(tree, c, tables) && NoColon(t) && NoColon(k)
    ensures BoundIsStored(DelTree(tree, t, k), WithDel(tables, t, k), t2, k2)
  {
    var tables' := WithDel(tables, t, k);
    if t2 in tables' && k2 in tables'[t2] {
      assert k2 in TableOf(tables', t2);
      DelThenLookup(tables, t, k, t2, k2);
      MirroredBinding(tree, c, tables, t2, k2);
      FullKeyInjective(t, k, t2, k2);
    }
  }

  /** On a mirrored keyspace, `del` answers as `MemTable` does, and afterwards the
      keyspace mirrors `MemTable`'s state after the same `del`. */
  lemma MirroredDel(tree: Tree, c: Codec, tables: Tables, t: string, k: string)
    requires Mirrors(tree, c, tables) && NoColon(t) && NoColon(k)
    ensures GetResult(tree, c, t, k) == Ok(Lookup(tables, t, k))
    ensures Mirrors(DelTree(tree, t, k), c, WithDel(tables, t, k))
  {
    MirroredGet(tree, c, tables, t, k);
    forall x ensures StoredIsBound(DelTree(tree, t, k), c, WithDel(tables, t, k), x) {
      DelKeepsStored(tree, c, tables, t, k, x);
    }
    forall t2, k2 ensures BoundIsStored(DelTree(tree, t, k), WithDel(tables, t, k), t2, k2) {
      DelKeepsBound(tree, c, tables, t, k, t2, k2);
    }
  }

  /** A stored key found by a scan of table `t` belongs to `t`, names a bound key and
      converts to that binding's pair. */
  lemma ScannedKey(tree: Tree, c: Codec, tables: Tables, t: string, fk: string)
    requires Mirrors(tree, c, tables) && NoColon(t)
    requires fk in tree && TablePrefix(t) <= fk
    ensures fk == FullKey(t, IvecToKey(fk))
    ensures IvecToKey(fk) in TableOf(tables, t)
    ensures ScanItemPair(c, Ok((fk, tree[fk]))) == NewKvpair(IvecToKey(fk), TableOf(tables, t)[IvecToKey(fk)])
  {
    assert StoredIsBound(tree, c, tables, fk);
    var k := KeyPart(fk);
    FlatKeySplits(fk);
    SegmentEndAfterPrefix(t, fk);
    assert TablePart(fk) == t;
    assert IvecToKey(fk) == k;
    var v := TableOf(tables, t)[k];
    assert c.decode(tree[fk]) == Ok(v);
  }

  /** On a mirrored keyspace, the pairs of a prefix scan of table `t` list exactly
      `MemTable`'s table `t`. */
  lemma MirroredScan(tree: Tree, c: Codec, tables: Tables, t: string, ps: seq<Kvpair>)
    requires Mirrors(tree, c, tables) && NoColon(t)
    requires ScanListing(tree, c, t, ps)
    ensures IsListing(ps, TableOf(tables, t))
  {
    var scan := ScanTable(tree, t);
    var es: seq<(string, Bytes)> :| IsEntryListing(es, scan) && ps == Converted(e => ScanItemPair(c, e), ScanItems(es));
    var m := TableOf(tables, t);
    forall i | 0 <= i < |ps|
      ensures ps[i].key in m && ps[i].value == Some(m[ps[i].key])
      ensures es[i].0 == FullKey(t, ps[i].key)
    {
      ScannedKey(tree, c, tables, t, es[i].0);
    }
    forall x | x in m ensures x in KeysOf(ps) {
      assert t in tables && x in tables[t];
      MirroredBinding(tree, c, tables, t, x);
      var fk := FullKey(t, x);
      KeyRoundTrip(t, x);
      assert fk in scan;
      assert fk in EntryKeys(es);
      var e :| e in es && e.0 == fk;
      var i :| 0 <= i < |es| && es[i] == e;
      assert ps[i] in ps;
    }
  }

  class SledDb {
    var tree: Tree
    const codec: Codec

    /** `SledDb::new(path)`: an empty database; the path and its persistence are not modelled. */
    constructor (codec: Codec)
      ensures tree == map[] && this.codec == codec
    {
      tree := map[];
      this.codec := codec;
    }

    method Get(t: string, k: string) returns (r: Result<Option<Value>, KvError>)
      ensures r == GetResult(tree, codec, t, k)
      ensures FullKey(t, k) !in tree ==> r == Ok(None)
    {
      var name := FullKey(t, k);
      var res := if name in tree then Some(codec.decode(tree[name])) else None;
      r := Flip(res);
    }

    /** `set`: encodes first; an encode failure is returned and writes nothing. */
    method Set(t: string, k: string, v: Value) returns (r: Result<Option<Value>, KvError>)
      modifies this
      ensures r == SetResult(old(tree), codec, t, k, v)
      ensures tree == SetTree(old(tree), codec, t, k, v)
      ensures codec.encode(v).Err? ==> r.Err? && tree == old(tree)
    {
      var name := FullKey(t, k);
      var data := codec.encode(v);
      if data.Err? {
        return Err(data.error);
      }
      var previous := if name in tree then Some(codec.decode(tree[name])) else None;
      tree := tree[name := data.value];
      r := Flip(previous);
    }

    method Contains(t: string, k: string) returns (r: Result<bool, KvError>)
      ensures r == Ok(FullKey(t, k) in tree)
    {
      r := Ok(FullKey(t, k) in tree);
    }

    /** `del`: removes exactly the full key `t:k`, returning its decoded value. */
    method Del(t: string, k: string) returns (r: Result<Option<Value>, KvError>)
      modifies this
      ensures r == GetResult(old(tree), codec, t, k)
      ensures tree == DelTree(old(tree), t, k)
    {
      var name := FullKey(t, k);
      var removed := if name in tree then Some(codec.decode(tree[name])) else None;
      tree := tree - {name};
      r := Flip(removed);
    }

    /** `get_all`: the converted entries of a prefix scan over `t:`. */
    method GetAll(t: string) returns (r: Result<seq<Kvpair>, KvError>)
      ensures r.Ok? && ScanListing(tree, codec, t, r.value)
    {
      var scan := ScanTable(tree, t);
      var es := Entries(scan);
      var ps := Converted(e => ScanItemPair(codec, e), ScanItems(es));
      assert IsEntryListing(es, ScanTable(tree, t)) && ps == Converted(e => ScanItemPair(codec, e), ScanItems(es));
      r := Ok(ps);
    }

    /** `get_iter`: an iterator over the items of a prefix scan over `t:`. */
    method GetIter(t: string) returns (r: Result<StorageIter<PrefixedItem>, KvError>)
      ensures r.Ok? && fresh(r.value)
      ensures forall e :: r.value.into(e) == ScanItemPair(codec, e)
      ensures ScanListing(tree, codec, t, Converted(r.value.into, r.value.data))
    {
      var scan := ScanTable(tree, t);
      var es := Entries(scan);
      var it := new StorageIter(ScanItems(es), e => ScanItemPair(codec, e));
      assert Converted(it.into, it.data) == Converted(e => ScanItemPair(codec, e), ScanItems(es));
      r := Ok(it);
    }
  }

  /** The shared basic-interface test on a fresh `SledDb`, for colon-free tables and
      keys and values the codec encodes losslessly: the same outcomes as on `MemTable`. */
  method BasicInterface(c: Codec, t: string, t2: string, k: string, k2: string, v1: Value, v2: Value)
    returns (set1: Result<Option<Value>, KvError>, set2: Result<Option<Value>, KvError>,
             get1: Result<Option<Value>, KvError>, get2: Result<Option<Value>, KvError>,
             get3: Result<Option<Value>, KvError>,
             has1: Result<bool, KvError>, has2: Result<bool, KvError>, has3: Result<bool, KvError>,
             del1: Result<Option<Value>, KvError>, del2: Result<Option<Value>, KvError>,
             del3: Result<Option<Value>, KvError>)
    requires Lossless(c) && c.encode(v1).Ok? && c.encode(v2).Ok?
    requires NoColon(t) && NoColon(t2) && NoColon(k) && NoColon(k2)
    requires t != t2 && k != k2
    ensures set1 == Ok(None) && set2 == Ok(Some(v1))
    ensures get1 == Ok(Some(v2)) && get2 == Ok(None) && get3 == Ok(None)
    ensures has1 == Ok(true) && has2 == Ok(false) && has3 == Ok(false)
    ensures del1 == Ok(Some(v2)) && del2 == Ok(None) && del3 == Ok(None)
  {
    var store := new SledDb(c);
    ghost var tables: Tables := map[];
    EmptyMirrors(c);
    MirroredSet(store.tree, c, tables, t, k, v1);
    set1 := store.Set(t, k, v1);
    tables := WithSet(tables, t, k, v1);
    assert tables == map[t := map[k := v1]];
    MirroredSet(store.tree, c, tables, t, k, v2);
    set2 := store.Set(t, k, v2);
    assert WithSet(tables, t, k, v2) == map[t := map[k := v2]] by {
      assert TableOf(tables, t)[k := v2] == map[k := v2];
    }
    tables := WithSet(tables, t, k, v2);
    MirroredGet(store.tree, c, tables, t, k);
    MirroredGet(store.tree, c, tables, t, k2);
    MirroredGet(store.tree, c, tables, t2, k2);
    MirroredGet(store.tree, c, tables, t2, k);
    get1 := store.Get(t, k);
    get2 := store.Get(t, k2);
    get3 := store.Get(t2, k2);
    has1 := store.Contains(t, k);
    has2 := store.Contains(t, k2);
    has3 := store.Contains(t2, k);
    MirroredDel(store.tree, c, tables, t, k);
    del1 := store.Del(t, k);
    tables := WithDel(tables, t, k);
    assert tables == map[t := map[]];
    MirroredDel(store.tree, c, tables, t, k2);
    del2 := store.Del(t, k2);
    tables := WithDel(tables, t, k2);
    MirroredDel(store.tree, c, tables, t2, k);
    del3 := store.Del(t2, k);
  }

  /** The shared get_all test on a fresh `SledDb`: after two sets, `get_all` equals
      the two pairs once sorted. */
  method GetAllTwoKeys(c: Codec, t: string, k1: string, k2: string, v1: Value, v2: Value)
    returns (r: Result<seq<Kvpair>, KvError>)
    requires Lossless(c) && c.encode(v1).Ok? && c.encode(v2).Ok?
    requires NoColon(t) && NoColon(k1) && NoColon(k2) && k1 != k2
    ensures r.Ok? && multiset(r.value) == multiset([NewKvpair(k1, v1), NewKvpair(k2, v2)])
  {
    var store := new SledDb(c);
    ghost var tables := TwoKeys(store, t, k1, k2, v1, v2);
    r := store.GetAll(t);
    MirroredScan(store.tree, c, tables, t, r.value);
    TwoKeyListing(k1, k2, v1, v2, r.value, TableOf(tables, t));
  }

  /** The shared get_iter test on a fresh `SledDb`: collecting the iterator gives
      the same pairs, once sorted. */
  method GetIterTwoKeys(c: Codec, t: string, k1: string, k2: string, v1: Value, v2: Value)
    returns (ps: seq<Kvpair>)
    requires Lossless(c) && c.encode(v1).Ok? && c.encode(v2).Ok?
    requires NoColon(t) && NoColon(k1) && NoColon(k2) && k1 != k2
    ensures multiset(ps) == multiset([NewKvpair(k1, v1), NewKvpair(k2, v2)])
  {
    var store := new SledDb(c);
    ghost var tables := TwoKeys(store, t, k1, k2, v1, v2);
    var r := store.GetIter(t);
    var it := r.value;
    ghost var expected := Converted(it.into, it.data);
    ps := Collect(it);
    MirroredScan(store.tree, c, tables, t, expected);
    TwoKeyListing(k1, k2, v1, v2, ps, TableOf(tables, t));
  }

  /** Sets `k1` and `k2` of table `t` in an empty database, returning the two-level
      contents the keyspace then mirrors. */
  method TwoKeys(store: SledDb, t: string, k1: string, k2: string, v1: Value, v2: Value)
    returns (ghost tables: Tables)
    modifies store
    requires store.tree == map[] && Lossless(store.codec)
    requires store.codec.encode(v1).Ok? && store.codec.encode(v2).Ok?
    requires NoColon(t) && NoColon(k1) && NoColon(k2) && k1 != k2
    ensures Mirrors(store.tree, store.codec, tables) && TableOf(tables, t) == map[k1 := v1, k2 := v2]
  {
    tables := map[];
    EmptyMirrors(store.codec);
    MirroredSet(store.tree, store.codec, tables, t, k1, v1);
    var _ := store.Set(t, k1, v1);
    tables := WithSet(tables, t, k1, v1);
    MirroredSet(store.tree, store.codec, tables, t, k2, v2);
    var _ := store.Set(t, k2, v2);
    tables := WithSet(tables, t, k2, v2);
  }
}
