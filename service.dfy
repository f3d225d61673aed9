/**
 * The service layer of src/service/mod.rs: `dispatch`, which routes a
 * request to its handler; `ServiceInner`, a store with four lists of hooks
 * registered builder-style; and `Service`, which runs a request through the
 * hooks and the dispatcher.
 *
 * An inspection hook (`fn(&T)`) cannot change what it is given; its only
 * effect is what it emits, modelled as a `Note` it returns. A mutating hook
 * (`fn(&mut CommandResponse)`) is a function from response to response.
 */
module Service {
  import opened Wrappers
  import opened Pb
  import opened Errors
  import opened Storage
  import opened Memory
  import opened Backend
  import opened Commands

  /** What an inspection hook emits (a log line, say). */
  type Note = string

  /** `arg` after the mutating hooks `hooks` have run on it, first to last. */
  function ApplyAll<R>(hooks: seq<R -> R>, arg: R): R
    decreases |hooks|
  {
    if hooks == [] then arg else hooks[|hooks| - 1](ApplyAll(hooks[..|hooks| - 1], arg))
  }

  /** Running two lists of hooks one after the other is running their concatenation. */
  lemma {:induction false} ApplyAllAppend<R>(first: seq<R -> R>, second: seq<R -> R>, arg: R)
    ensures ApplyAll(first + second, arg) == ApplyAll(second, ApplyAll(first, arg))
    decreases |second|
  {
    if second == [] {
      assert first + second == first;
    } else {
      var init := second[..|second| - 1];
      assert (first + second)[..|first + second| - 1] == first + init;
      ApplyAllAppend(first, init, arg);
    }
  }

  /** The first hook registered sees the response as the handler produced it. */
  lemma FirstHookRunsFirst<R>(f: R -> R, rest: seq<R -> R>, arg: R)
    ensures ApplyAll([f] + rest, arg) == ApplyAll(rest, f(arg))
  {
    ApplyAllAppend([f], rest, arg);
    assert [f][..0] == [];
  }

  /** `Notify::notify`: runs every inspection hook on `arg`, in order. */
  method Notify<A>(hooks: seq<A -> Note>, arg: A) returns (notes: seq<Note>)
    ensures |notes| == |hooks|
    ensures forall i :: 0 <= i < |hooks| ==> notes[i] == hooks[i](arg)
  {
    notes := [];
    for i := 0 to |hooks|
      invariant |notes| == i
      invariant forall j :: 0 <= j < i ==> notes[j] == hooks[j](arg)
    {
      notes := notes + [hooks[i](arg)];
    }
  }

  /** `NotifyMut::notify`: runs every mutating hook on `arg`, in order. */
  method NotifyMut<R>(hooks: seq<R -> R>, arg: R) returns (r: R)
    ensures r == ApplyAll(hooks, arg)
  {
    r := arg;
    for i := 0 to |hooks|
      invariant r == ApplyAll(hooks[..i], arg)
    {
      assert hooks[..i + 1][..i] == hooks[..i];
      r := hooks[i](r);
    }
    assert hooks[..|hooks|] == hooks;
  }

  /** The handlers of the six batch requests, whose implementations are not part of
      this model: each is given as the response it produces for a request in a
      store state. What they do to the store is left open. */
  datatype Others = Others(
    hmset: (Hmset, StoreState) -> CommandResponse,
    hmget: (Hmget, StoreState) -> CommandResponse,
    hdel: (Hdel, StoreState) -> CommandResponse,
    hmdel: (Hmdel, StoreState) -> CommandResponse,
    hexist: (Hexist, StoreState) -> CommandResponse,
    hmexist: (Hmexist, StoreState) -> CommandResponse)

  /** The answer to a request without data. */
  const NoDataError := InvalidCommand("Request has not data")

  /** `res` and `st'` are an answer and a final state `dispatch` may give for `cmd` in
      state `st`: each request goes to its own handler. Nothing is said about the
      state a batch handler leaves. */
  ghost predicate Handles(others: Others, cmd: CommandRequest, st: StoreState, st': StoreState, res: CommandResponse) {
    match cmd.requestData
    case None => res == ErrorResponse(NoDataError) && st' == st
    case Some(HgetData(h)) => (res, st') == HgetOutcome(h, st)
    case Some(HgetallData(h)) => HgetallOutcome(h, st, res, st')
    case Some(HsetData(h)) => (res, st') == HsetOutcome(h, st)
    case Some(HmsetData(h)) => res == others.hmset(h, st)
    case Some(HmgetData(h)) => res == others.hmget(h, st)
    case Some(HexistData(h)) => res == others.hexist(h, st)
    case Some(HmexistData(h)) => res == others.hmexist(h, st)
    case Some(HdelData(h)) => res == others.hdel(h, st)
    case Some(HmdelData(h)) => res == others.hmdel(h, st)
  }

  method Dispatch(cmd: CommandRequest, s: Store, others: Others) returns (res: CommandResponse)
    modifies s.Obj()
    ensures Handles(others, cmd, old(s.State()), s.State(), res)
  {
    match cmd.requestData
    case Some(HgetData(h)) => res := ExecuteHget(h, s);
    case Some(HgetallData(h)) => res := ExecuteHgetall(h, s);
    case Some(HsetData(h)) => res := ExecuteHset(h, s);
    case Some(HmsetData(h)) => res := others.hmset(h, s.State());
    case Some(HmgetData(h)) => res := others.hmget(h, s.State());
    case Some(HexistData(h)) => res := others.hexist(h, s.State());
    case Some(HmexistData(h)) => res := others.hmexist(h, s.State());
    case Some(HdelData(h)) => res := others.hdel(h, s.State());
    case Some(HmdelData(h)) => res := others.hmdel(h, s.State());
    case None => res := ErrorResponse(NoDataError);
  }

  /** A request without data is answered 400, with an "Invalid command" message and
      nothing else, and leaves the store as it was. */
  lemma NoDataIsRejected(others: Others, st: StoreState, st': StoreState, res: CommandResponse)
    requires Handles(others, CommandRequest(None), st, st', res)
    ensures res.status == 400 && "Invalid command" <= res.message
    ensures res.values == [] && res.pairs == [] && st' == st
  {
    assert res.message == "Invalid command" + ": Request has not data";
  }

  class ServiceInner {
    const store: Store
    var onReceived: seq<CommandRequest -> Note>
    var onExecuted: seq<CommandResponse -> Note>
    var onBeforeSend: seq<CommandResponse -> CommandResponse>
    /** Registered, but never run by `Service::execute`. */
    var onAfterSend: seq<() -> Note>

    /** `ServiceInner::new`: the store and no hooks. */
    constructor (store: Store)
      ensures this.store == store
      ensures onReceived == [] && onExecuted == [] && onBeforeSend == [] && onAfterSend == []
    {
      this.store := store;
      onReceived := [];
      onExecuted := [];
      onBeforeSend := [];
      onAfterSend := [];
    }

    /** `fn_received`: appends `f` to the hooks run on each request. */
    method FnReceived(f: CommandRequest -> Note) returns (me: ServiceInner)
      modifies this
      ensures me == this && onReceived == old(onReceived) + [f]
      ensures onExecuted == old(onExecuted) && onBeforeSend == old(onBeforeSend) && onAfterSend == old(onAfterSend)
    {
      onReceived := onReceived + [f];
      me := this;
    }

    /** `fn_executed`: appends `f` to the hooks run on each handler's response. */
    method FnExecuted(f: CommandResponse -> Note) returns (me: ServiceInner)
      modifies this
      ensures me == this && onExecuted == old(onExecuted) + [f]
      ensures onReceived == old(onReceived) && onBeforeSend == old(onBeforeSend) && onAfterSend == old(onAfterSend)
    {
      onExecuted := onExecuted + [f];
      me := this;
    }

    /** `fn_before_send`: appends `f` to the hooks that may rewrite the response. */
    method FnBeforeSend(f: CommandResponse -> CommandResponse) returns (me: ServiceInner)
      modifies this
      ensures me == this && onBeforeSend == old(onBeforeSend) + [f]
      ensures onReceived == old(onReceived) && onExecuted == old(onExecuted) && onAfterSend == old(onAfterSend)
    {
      onBeforeSend := onBeforeSend + [f];
      me := this;
    }

    /** `fn_after_send`: appends `f` to the after-send hooks. */
    method FnAfterSend(f: () -> Note) returns (me: ServiceInner)
      modifies this
      ensures me == this && onAfterSend == old(onAfterSend) + [f]
      ensures onReceived == old(onReceived) && onExecuted == old(onExecuted) && onBeforeSend == old(onBeforeSend)
    {
      onAfterSend := onAfterSend + [f];
      me := this;
    }
  }

  class Service {
    /** Shared by every clone. */
    const inner: ServiceInner

    /** `impl From<ServiceInner> for Service`. */
    constructor From(inner: ServiceInner)
      ensures this.inner == inner
    {
      this.inner := inner;
    }

    /** `clone`: another handle on the same inner service. */
    method Clone() returns (c: Service)
      ensures fresh(c) && c.inner == inner
    {
      c := new Service.From(inner);
    }

    /**
     * `execute`: the received hooks see the request, the dispatcher answers it,
     * the executed hooks see that answer, and the answer sent is the one the
     * before-send hooks leave. Returns, besides the answer, the notes the
     * received and executed hooks emit, and names the dispatcher's answer.
     */
    method Execute(cmd: CommandRequest, others: Others)
      returns (res: CommandResponse, received: seq<Note>, executed: seq<Note>, ghost dispatched: CommandResponse)
      modifies inner.store.Obj()
      ensures Handles(others, cmd, old(inner.store.State()), inner.store.State(), dispatched)
      ensures |received| == |inner.onReceived|
      ensures forall i :: 0 <= i < |received| ==> received[i] == inner.onReceived[i](cmd)
      ensures |executed| == |inner.onExecuted|
      ensures forall i :: 0 <= i < |executed| ==> executed[i] == inner.onExecuted[i](dispatched)
      ensures res == ApplyAll(inner.onBeforeSend, dispatched)
    {
      received := Notify(inner.onReceived, cmd);
      var r := Dispatch(cmd, inner.store, others);
      dispatched := r;
      executed := Notify(inner.onExecuted, r);
      res := NotifyMut(inner.onBeforeSend, r);
    }
  }

  /** `service_should_works`: an `Hset` through one clone of a `MemTable` service, then
      an `Hget` of the same key through the other, answers the value set. */
  method ServiceShouldWork(others: Others) returns (res1: CommandResponse, res2: CommandResponse)
    ensures res1 == CommandResponse(200, "", [DefaultValue], [])
    ensures res2 == CommandResponse(200, "", [ValueFromStr("v1")], [])
  {
    var m := new MemTable();
    var inner := new ServiceInner(InMemory(m));
    var service := new Service.From(inner);
    var svc := service.Clone();
    var notes1, notes2;
    ghost var d1, d2;
    res1, notes1, notes2, d1 := svc.Execute(NewHset("t1", "k1", ValueFromStr("v1")), others);
    res2, notes1, notes2, d2 := service.Execute(NewHget("t1", "k1"), others);
  }

  /** `event_registration_should_work`: with two received hooks, one executed hook, a
      before-send hook that sets status 201 and one after-send hook, an `Hset` on a
      fresh `MemTable` is answered 201 with the default value. */
  method EventRegistration(others: Others) returns (res: CommandResponse, received: seq<Note>, executed: seq<Note>)
    ensures res == CommandResponse(201, "", [DefaultValue], [])
    ensures received == ["", "Got request"] && executed == ["Executed"]
  {
    var m := new MemTable();
    var inner := new ServiceInner(InMemory(m));
    inner := inner.FnReceived(_ => "");
    inner := inner.FnReceived(_ => "Got request");
    inner := inner.FnExecuted(_ => "Executed");
    inner := inner.FnBeforeSend((r: CommandResponse) => r.(status := 201));
    inner := inner.FnAfterSend(() => "Data is sent.");
    var service := new Service.From(inner);
    ghost var d;
    res, received, executed, d := service.Execute(NewHset("t1", "k1", ValueFromStr("v1")), others);
  }
}
