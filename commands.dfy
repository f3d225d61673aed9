/**
 * The three request handlers of src/service/command_service.rs (`Hset`,
 * `Hget`, `Hgetall`), each turning one storage call's result into a
 * response. The handlers are methods on the storage handle; what they
 * answer and the state they leave are the outcome functions below.
 */
module Commands {
  import opened Wrappers
  import opened Pb
  import opened Errors
  import opened Storage
  import opened Memory
  import opened Sled
  import opened Backend

  /** The value `Hset` stores for its pair: the pair's value, or the default one. */
  function StoredValue(p: Kvpair): Value {
    p.value.GetOr(DefaultValue)
  }

  /** The response to `set`'s result: the previous value (the default one when there
      was none), or the error. */
  function HsetReply(r: Result<Option<Value>, KvError>): (res: CommandResponse)
    ensures res.status == 200 <==> r.Ok?
    ensures r.Ok? ==> res.message == "" && res.values == [r.value.GetOr(DefaultValue)] && res.pairs == []
    ensures r.Err? ==> res == ErrorResponse(r.error)
  {
    ErrorIsNeverOk(if r.Err? then r.error else Internal(""));
    match r
    case Ok(Some(v)) => ValueResponse(v)
    case Ok(None) => ValueResponse(DefaultValue)
    case Err(e) => ErrorResponse(e)
  }

  /** The response to `get`'s result: the value, a 404 naming the table and key when
      there is none, or the error. */
  function HgetReply(h: Hget, r: Result<Option<Value>, KvError>): (res: CommandResponse)
    ensures res.status == 200 <==> r.Ok? && r.value.Some?
    ensures res.status == 200 ==> res.message == "" && res.values == [r.value.value] && res.pairs == []
    ensures r == Ok(None) ==> res == ErrorResponse(NotFound(h.table, h.key)) && res.status == 404
    ensures r.Err? ==> res == ErrorResponse(r.error)
  {
    ErrorIsNeverOk(if r.Err? then r.error else NotFound(h.table, h.key));
    match r
    case Ok(Some(v)) => ValueResponse(v)
    case Ok(None) => ErrorResponse(NotFound(h.table, h.key))
    case Err(e) => ErrorResponse(e)
  }

  /** The response to `get_all`'s result: the pairs, or the error. */
  function HgetallReply(r: Result<seq<Kvpair>, KvError>): (res: CommandResponse)
    ensures res.status == 200 <==> r.Ok?
    ensures r.Ok? ==> res.message == "" && res.values == [] && res.pairs == r.value
    ensures r.Err? ==> res == ErrorResponse(r.error)
  {
    ErrorIsNeverOk(if r.Err? then r.error else Internal(""));
    match r
    case Ok(ps) => PairsResponse(ps)
    case Err(e) => ErrorResponse(e)
  }

  /** What `Hset` answers in state `st`, and the state it leaves. A request without a
      pair answers the default value and touches nothing. */
  function HsetOutcome(h: Hset, st: StoreState): (out: (CommandResponse, StoreState))
    ensures h.pair.None? ==> out == (ValueResponse(DefaultValue), st)
    ensures h.pair.Some? ==> out.1 == AfterSet(st, h.table, h.pair.value.key, StoredValue(h.pair.value))
    ensures out.0.status == 200 <==> h.pair.None? || SetOutcome(st, h.table, h.pair.value.key, StoredValue(h.pair.value)).Ok?
    ensures out.0.status == 200 ==> |out.0.values| == 1 && out.0.pairs == []
    ensures h.pair.Some? && out.0.status == 200 ==>
              out.0.values == [SetOutcome(st, h.table, h.pair.value.key, StoredValue(h.pair.value)).value.GetOr(DefaultValue)]
  {
    match h.pair
    case None => (ValueResponse(DefaultValue), st)
    case Some(p) =>
      var v := StoredValue(p);
      (HsetReply(SetOutcome(st, h.table, p.key, v)), AfterSet(st, h.table, p.key, v))
  }

  /** What `Hget` answers in state `st`, and the state it leaves. */
  function HgetOutcome(h: Hget, st: StoreState): (out: (CommandResponse, StoreState))
    // on `MemTable`: the bound value, or a 404 naming table and key; the table now exists
    ensures st.MemState? ==> out.1 == MemState(Touch(st.tables, h.table))
    ensures st.MemState? && Lookup(st.tables, h.table, h.key).Some? ==>
              out.0 == ValueResponse(Lookup(st.tables, h.table, h.key).value)
    ensures st.MemState? && Lookup(st.tables, h.table, h.key).None? ==>
              out.0 == ErrorResponse(NotFound(h.table, h.key))
    // on `SledDb`: nothing stored is a 404, stored bytes answer their decoding or its error
    ensures st.SledState? ==> out.1 == st
    ensures st.SledState? && FullKey(h.table, h.key) !in st.tree ==>
              out.0 == ErrorResponse(NotFound(h.table, h.key))
    ensures st.SledState? && FullKey(h.table, h.key) in st.tree && st.codec.decode(st.tree[FullKey(h.table, h.key)]).Ok? ==>
              out.0 == ValueResponse(st.codec.decode(st.tree[FullKey(h.table, h.key)]).value)
    ensures st.SledState? && FullKey(h.table, h.key) in st.tree && st.codec.decode(st.tree[FullKey(h.table, h.key)]).Err? ==>
              out.0 == ErrorResponse(st.codec.decode(st.tree[FullKey(h.table, h.key)]).error)
  {
    (HgetReply(h, GetOutcome(st, h.table, h.key)), AfterRead(st, h.table))
  }

  /** `res` and `st'` are an answer and a final state `Hgetall` may give in state `st`:
      the pairs of some listing of the table. */
  ghost predicate HgetallOutcome(h: Hgetall, st: StoreState, res: CommandResponse, st': StoreState) {
    && st' == AfterRead(st, h.table)
    && exists ps :: ListsTable(st, h.table, ps) && res == HgetallReply(Ok(ps))
  }

  method ExecuteHset(h: Hset, s: Store) returns (res: CommandResponse)
    modifies s.Obj()
    ensures (res, s.State()) == HsetOutcome(h, old(s.State()))
  {
    match h.pair
    case None =>
      res := ValueResponse(DefaultValue);
    case Some(p) =>
      var r := s.Set(h.table, p.key, StoredValue(p));
      res := HsetReply(r);
  }

  method ExecuteHget(h: Hget, s: Store) returns (res: CommandResponse)
    modifies s.Obj()
    ensures (res, s.State()) == HgetOutcome(h, old(s.State()))
  {
    var r := s.Get(h.table, h.key);
    res := HgetReply(h, r);
  }

  method ExecuteHgetall(h: Hgetall, s: Store) returns (res: CommandResponse)
    modifies s.Obj()
    ensures HgetallOutcome(h, old(s.State()), res, s.State())
  {
    var r := s.GetAll(h.table);
    res := HgetallReply(r);
  }

  /** On `MemTable`, the first `Hset` of a key answers the default value. */
  lemma FirstHsetAnswersDefault(tables: Tables, t: string, k: string, v: Value)
    requires Lookup(tables, t, k).None?
    ensures HsetOutcome(NewHset(t, k, v).requestData.value.hset, MemState(tables)).0 == ValueResponse(DefaultValue)
  {
  }

  /** A second `Hset` of the same key answers the value the first one stored, on
      either backend (on `SledDb`, when the codec encodes both values and decodes what
      it encodes). */
  lemma SecondHsetAnswersFirst(st: StoreState, t: string, k: string, v1: Value, v2: Value)
    requires st.SledState? ==> Lossless(st.codec) && st.codec.encode(v1).Ok? && st.codec.encode(v2).Ok?
    ensures var st1 := HsetOutcome(NewHset(t, k, v1).requestData.value.hset, st).1;
            HsetOutcome(NewHset(t, k, v2).requestData.value.hset, st1).0 == ValueResponse(v1)
  {
    var st1 := AfterSet(st, t, k, v1);
    GetAfterSet(st, t, k, v1);
    assert SetOutcome(st1, t, k, v2) == GetOutcome(st1, t, k);
  }

  /** An `Hget` right after an `Hset` of the same key answers the value set, on either
      backend (on `SledDb`, when the codec encodes the value and decodes what it encodes). */
  lemma HgetAfterHset(st: StoreState, t: string, k: string, v: Value)
    requires st.SledState? ==> Lossless(st.codec) && st.codec.encode(v).Ok?
    ensures var st1 := HsetOutcome(NewHset(t, k, v).requestData.value.hset, st).1;
            HgetOutcome(Hget(t, k), st1).0 == ValueResponse(v)
  {
    GetAfterSet(st, t, k, v);
  }

  /** An `Hget` of a key with no value answers 404 with a "Not found" message and
      nothing else. */
  lemma HgetMissingIs404(st: StoreState, t: string, k: string)
    requires GetOutcome(st, t, k) == Ok(None)
    ensures var res := HgetOutcome(Hget(t, k), st).0;
            res.status == 404 && "Not found" <= res.message && res.values == [] && res.pairs == []
  {
    NotFoundResponse(t, k);
  }

  /** On `SledDb`, an `Hset` whose value does not encode answers the encoding error
      and writes nothing. */
  lemma HsetEncodeFailure(tree: Tree, c: Codec, t: string, k: string, v: Value)
    requires c.encode(v).Err?
    ensures HsetOutcome(NewHset(t, k, v).requestData.value.hset, SledState(tree, c))
            == (ErrorResponse(c.encode(v).error), SledState(tree, c))
  {
  }

  /** Agreeing backends answer `Hset` alike (with a pair: for colon-free names and an
      encodable value) and agree afterwards. */
  lemma BackendsAgreeOnHset(mem: StoreState, sled: StoreState, h: Hset)
    requires Agree(mem, sled)
    requires h.pair.Some? ==>
               NoColon(h.table) && NoColon(h.pair.value.key) && sled.codec.encode(StoredValue(h.pair.value)).Ok?
    ensures HsetOutcome(h, sled).0 == HsetOutcome(h, mem).0
    ensures Agree(HsetOutcome(h, mem).1, HsetOutcome(h, sled).1)
  {
    if h.pair.Some? {
      AgreeOnSet(mem, sled, h.table, h.pair.value.key, StoredValue(h.pair.value));
    }
  }

  /** Agreeing backends answer `Hget` alike (for colon-free names) and agree afterwards. */
  lemma BackendsAgreeOnHget(mem: StoreState, sled: StoreState, h: Hget)
    requires Agree(mem, sled) && NoColon(h.table) && NoColon(h.key)
    ensures HgetOutcome(h, sled).0 == HgetOutcome(h, mem).0
    ensures Agree(HgetOutcome(h, mem).1, HgetOutcome(h, sled).1)
  {
    AgreeOnGet(mem, sled, h.table, h.key);
  }

  /** Every answer `SledDb` may give to `Hgetall` is one `MemTable` may give in an
      agreeing state (for a colon-free table), and the backends agree afterwards. */
  lemma BackendsAgreeOnHgetall(mem: StoreState, sled: StoreState, h: Hgetall, res: CommandResponse, sled': StoreState)
    requires Agree(mem, sled) && NoColon(h.table)
    requires HgetallOutcome(h, sled, res, sled')
    ensures HgetallOutcome(h, mem, res, AfterRead(mem, h.table))
    ensures Agree(AfterRead(mem, h.table), sled')
  {
    var ps :| ListsTable(sled, h.table, ps) && res == HgetallReply(Ok(ps));
    AgreeOnGetAll(mem, sled, h.table, ps);
  }

  /** Any two `Hgetall` answers in the same `MemTable` state hold the same pairs, up to order. */
  lemma HgetallAnswersAreOneListing(tables: Tables, h: Hgetall, res1: CommandResponse, res2: CommandResponse, st1: StoreState, st2: StoreState)
    requires HgetallOutcome(h, MemState(tables), res1, st1) && HgetallOutcome(h, MemState(tables), res2, st2)
    ensures res1.status == 200 && res1.message == "" && res1.values == []
    ensures multiset(res1.pairs) == multiset(res2.pairs) && |res1.pairs| == |TableOf(tables, h.table)|
  {
    var ps1 :| ListsTable(MemState(tables), h.table, ps1) && res1 == HgetallReply(Ok(ps1));
    var ps2 :| ListsTable(MemState(tables), h.table, ps2) && res2 == HgetallReply(Ok(ps2));
    ListingsArePermutations(ps1, ps2, TableOf(tables, h.table));
    ListingSize(ps1, TableOf(tables, h.table));
  }

  /** `hset_should_work` on a fresh `MemTable`: the first `Hset` answers the default
      value; a second `Hset` of the same key answers the value the first one stored. */
  method HsetShouldWork() returns (res1: CommandResponse, res2: CommandResponse)
    ensures res1 == CommandResponse(200, "", [DefaultValue], [])
    ensures res2 == CommandResponse(200, "", [ValueFromStr("v1")], [])
  {
    var m := new MemTable();
    var s := InMemory(m);
    res1 := ExecuteHset(NewHset("t1", "k1", ValueFromStr("v1")).requestData.value.hset, s);
    res2 := ExecuteHset(NewHset("t1", "k1", ValueFromStr("v1")).requestData.value.hset, s);
  }

  /** `hget_should_work`: after an `Hset` of an integer, `Hget` answers it. */
  method HgetShouldWork() returns (res: CommandResponse)
    ensures res == CommandResponse(200, "", [ValueFromInt(10)], [])
  {
    var m := new MemTable();
    var s := InMemory(m);
    var _ := ExecuteHset(NewHset("score", "u1", ValueFromInt(10)).requestData.value.hset, s);
    res := ExecuteHget(Hget("score", "u1"), s);
  }

  /** `hget_with_non_exist_key_should_return_404`. */
  method HgetMissingShouldReturn404() returns (res: CommandResponse)
    ensures res.status == 404 && "Not found" <= res.message && res.values == [] && res.pairs == []
  {
    var m := new MemTable();
    var s := InMemory(m);
    res := ExecuteHget(Hget("score", "u1"), s);
    NotFoundResponse("score", "u1");
  }

  /** `hgetall_should_work`: after four `Hset`s, `Hgetall` answers the four pairs, up to order. */
  method HgetallShouldWork() returns (res: CommandResponse)
    ensures res.status == 200 && res.message == "" && res.values == []
    ensures multiset(res.pairs) == multiset(FourPairs())
  {
    var m := new MemTable();
    var s := InMemory(m);
    var _ := ExecuteHset(NewHset("t1", "k1", ValueFromInt(1)).requestData.value.hset, s);
    var _ := ExecuteHset(NewHset("t1", "k2", ValueFromInt(2)).requestData.value.hset, s);
    var _ := ExecuteHset(NewHset("t1", "k3", ValueFromInt(3)).requestData.value.hset, s);
    var _ := ExecuteHset(NewHset("t1", "k4", ValueFromInt(4)).requestData.value.hset, s);
    ghost var table := TableOf(m.tables, "t1");
    assert table == FourTable();
    res := ExecuteHgetall(Hgetall("t1"), s);
    ghost var ps :| IsListing(ps, table) && res == HgetallReply(Ok(ps));
    FourPairsListFourTable();
    ListingsArePermutations(ps, FourPairs(), table);
  }

  function FourTable(): Table {
    map["k1" := ValueFromInt(1), "k2" := ValueFromInt(2), "k3" := ValueFromInt(3), "k4" := ValueFromInt(4)]
  }

  function FourPairs(): seq<Kvpair> {
    [NewKvpair("k1", ValueFromInt(1)), NewKvpair("k2", ValueFromInt(2)),
     NewKvpair("k3", ValueFromInt(3)), NewKvpair("k4", ValueFromInt(4))]
  }

  lemma FourPairsListFourTable()
    ensures IsListing(FourPairs(), FourTable())
  {
    var ps := FourPairs();
    assert KeysOf(ps) == {"k1", "k2", "k3", "k4"} by {
      assert ps[0] in ps && ps[1] in ps && ps[2] in ps && ps[3] in ps;
    }
  }
}
