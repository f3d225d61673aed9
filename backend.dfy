/**
 * The `&dyn Storage` handle the command handlers and the service work
 * through. The two backends of the crate are the only implementations of
 * the `Storage` trait, so the handle is the closed sum of the two; its
 * operations dispatch to the backend's own method, and their contracts are
 * stated over a snapshot of the backend's state.
 */
module Backend {
  import opened Wrappers
  import opened Pb
  import opened Errors
  import opened Storage
  import opened Memory
  import opened Sled

  /** What a backend holds: `MemTable`'s two-level map, or `SledDb`'s keyspace and codec. */
  datatype StoreState = MemState(tables: Tables) | SledState(tree: Tree, codec: Codec)

  /** What `get(t, k)` returns in state `st`. */
  function GetOutcome(st: StoreState, t: string, k: string): Result<Option<Value>, KvError> {
    match st
    case MemState(tables) => Ok(Lookup(tables, t, k))
    case SledState(tree, c) => GetResult(tree, c, t, k)
  }

  /** The state after a read of table `t` (`get`, `get_all`): `MemTable` creates the table. */
  function AfterRead(st: StoreState, t: string): StoreState {
    match st
    case MemState(tables) => MemState(Touch(tables, t))
    case SledState(_, _) => st
  }

  /** What `set(t, k, v)` returns in state `st`. */
  function SetOutcome(st: StoreState, t: string, k: string, v: Value): Result<Option<Value>, KvError> {
    match st
    case MemState(tables) => Ok(Lookup(tables, t, k))
    case SledState(tree, c) => SetResult(tree, c, t, k, v)
  }

  /** The state after `set(t, k, v)`. */
  function AfterSet(st: StoreState, t: string, k: string, v: Value): StoreState {
    match st
    case MemState(tables) => MemState(WithSet(tables, t, k, v))
    case SledState(tree, c) => SledState(SetTree(tree, c, t, k, v), c)
  }

  /** `ps` is a result `get_all(t)` may return in state `st`. */
  ghost predicate ListsTable(st: StoreState, t: string, ps: seq<Kvpair>) {
    match st
    case MemState(tables) => IsListing(ps, TableOf(tables, t))
    case SledState(tree, c) => ScanListing(tree, c, t, ps)
  }

  /** A `MemTable` state and a `SledDb` state hold the same contents, under a
      codec that decodes what it encodes. */
  ghost predicate Agree(mem: StoreState, sled: StoreState) {
    && mem.MemState? && sled.SledState?
    && Lossless(sled.codec) && Mirrors(sled.tree, sled.codec, mem.tables)
  }

  /** `set` answers in the same way on agreeing backends, which agree afterwards. */
  lemma AgreeOnSet(mem: StoreState, sled: StoreState, t: string, k: string, v: Value)
    requires Agree(mem, sled) && sled.codec.encode(v).Ok? && NoColon(t) && NoColon(k)
    ensures SetOutcome(sled, t, k, v) == SetOutcome(mem, t, k, v)
    ensures Agree(AfterSet(mem, t, k, v), AfterSet(sled, t, k, v))
  {
    MirroredSet(sled.tree, sled.codec, mem.tables, t, k, v);
  }

  /** `get` answers in the same way on agreeing backends, which agree afterwards. */
  lemma AgreeOnGet(mem: StoreState, sled: StoreState, t: string, k: string)
    requires Agree(mem, sled) && NoColon(t) && NoColon(k)
    ensures GetOutcome(sled, t, k) == GetOutcome(mem, t, k)
    ensures Agree(AfterRead(mem, t), AfterRead(sled, t))
  {
    MirroredGet(sled.tree, sled.codec, mem.tables, t, k);
    TouchMirrors(sled.tree, sled.codec, mem.tables, t);
  }

  /** Every listing `SledDb` may return is one `MemTable` may return for agreeing states. */
  lemma AgreeOnGetAll(mem: StoreState, sled: StoreState, t: string, ps: seq<Kvpair>)
    requires Agree(mem, sled) && NoColon(t) && ListsTable(sled, t, ps)
    ensures ListsTable(mem, t, ps)
    ensures Agree(AfterRead(mem, t), AfterRead(sled, t))
  {
    MirroredScan(sled.tree, sled.codec, mem.tables, t, ps);
    TouchMirrors(sled.tree, sled.codec, mem.tables, t);
  }

  /** A `get` right after a `set` of the same key returns the value set, on either
      backend (on `SledDb`, when the codec encodes the value and decodes what it
      encodes; the `set` itself may still fail to decode the value it replaced). */
  lemma GetAfterSet(st: StoreState, t: string, k: string, v: Value)
    requires st.SledState? ==> Lossless(st.codec) && st.codec.encode(v).Ok?
    ensures GetOutcome(AfterSet(st, t, k, v), t, k) == Ok(Some(v))
  {
    match st
    case MemState(tables) =>
      SetThenLookup(tables, t, k, v, t, k);
    case SledState(tree, c) =>
      assert SetTree(tree, c, t, k, v)[FullKey(t, k)] == c.encode(v).value;
  }

  /** The handle: one of the two backends. */
  datatype Store = InMemory(mem: MemTable) | OnSled(db: SledDb) {
    /** The object whose fields this backend's operations read and update. */
    function Obj(): object {
      match this
      case InMemory(m) => m
      case OnSled(d) => d
    }

    /** The backend's current contents. */
    function State(): StoreState
      reads Obj()
    {
      match this
      case InMemory(m) => MemState(m.tables)
      case OnSled(d) => SledState(d.tree, d.codec)
    }

    method Get(t: string, k: string) returns (r: Result<Option<Value>, KvError>)
      modifies Obj()
      ensures r == GetOutcome(old(State()), t, k)
      ensures State() == AfterRead(old(State()), t)
    {
      match this
      case InMemory(m) => r := m.Get(t, k);
      case OnSled(d) => r := d.Get(t, k);
    }

    method Set(t: string, k: string, v: Value) returns (r: Result<Option<Value>, KvError>)
      modifies Obj()
      ensures r == SetOutcome(old(State()), t, k, v)
      ensures State() == AfterSet(old(State()), t, k, v)
    {
      match this
      case InMemory(m) => r := m.Set(t, k, v);
      case OnSled(d) => r := d.Set(t, k, v);
    }

    method GetAll(t: string) returns (r: Result<seq<Kvpair>, KvError>)
      modifies Obj()
      ensures r.Ok? && ListsTable(old(State()), t, r.value)
      ensures State() == AfterRead(old(State()), t)
    {
      match this
      case InMemory(m) => r := m.GetAll(t);
      case OnSled(d) => r := d.GetAll(t);
    }
  }
}
