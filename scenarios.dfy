/**
 * Client scenarios of `SimplePromise`: a promise built by user code, chained
 * with `then`/`catch` and settled by its executor; the timer firing is an
 * explicit call of `EventLoop.RunTask`.
 */
module Scenarios {
  import opened Reactions
  import opened Promises

  /** `v => v + 1` on numbers; any other value is returned as it is. */
  function AddOne(v: Value): (o: Outcome)
  {
    if v.Num? then Return(Num(v.n + 1)) else Return(v)
  }

  /** `e => "recovered:" + e` on strings; any other value is returned as it is. */
  function Recover(v: Value): (o: Outcome)
  {
    if v.Str? then Return(Str("recovered:" + v.s)) else Return(v)
  }

  /**
   * `p.then(v => v + 1)` on a promise built by user code that its executor
   * has already resolved with 42; then the timer fires.
   */
  method ResolvedThenAddOne(loop: EventLoop, p: SimplePromise) returns (r: Cell)
    requires loop.Valid() && p in loop.promises
    requires p.state == Pending && p.parent == null
    modifies loop, loop.promises
    ensures r == Cell(Fulfilled, Num(43))
  {
    p.Resolve(loop, Num(42));
    var q := p.Then(loop, Some(AddOne), None);
    loop.RunTask(|loop.tasks| - 1);
    r := q.Current();
  }

  /**
   * `p.catch(e => "recovered:" + e)` on a promise built by user code that its
   * executor has already rejected with `"boom"`: the handler's result rejects
   * the new promise, it does not fulfil it.
   */
  method RejectedCatchRecover(loop: EventLoop, p: SimplePromise) returns (r: Cell)
    requires loop.Valid() && p in loop.promises
    requires p.state == Pending && p.parent == null
    modifies loop, loop.promises
    ensures r == Cell(Rejected, Str("recovered:" + "boom"))
  {
    p.Reject(loop, Str("boom"));
    var q := p.Catch(loop, Some(Recover));
    loop.RunTask(|loop.tasks| - 1);
    r := q.Current();
  }

  /**
   * `p.then(...).then(...)` on a pending promise built by user code, then
   * `resolve(v)`: the settlement reaches the end of the chain, which settles
   * as `Chain` says.
   */
  method ChainThenResolve(loop: EventLoop, p: SimplePromise, v: Value, first: Callbacks, second: Callbacks)
    returns (last: Cell)
    requires loop.Valid() && p in loop.promises
    requires p.state == Pending && p.parent == null
    modifies loop, loop.promises
    ensures last == Settled(Chain(FulfilledWith(v), [first, second]))
  {
    ghost var k := |p.handlers|;
    var a := p.Then(loop, first.onFulfilled, first.onRejected);
    var b := a.Then(loop, second.onFulfilled, second.onRejected);
    assert p.handlers[k] == Handler(a, first) && a.handlers == [Handler(b, second)];
    assert a in loop.promises && b in loop.promises && a.state == Pending;
    p.Resolve(loop, v);
    var s1 := Follow(FulfilledWith(v), first);
    assert a.Current() == Settled(s1) && a.handlers[0] == Handler(b, second);
    assert SettlementOf(a.Current()) == s1;
    assert b.Current() == Downstream(a.Current(), second);
    assert [first, second][1..] == [second];
    assert Chain(FulfilledWith(v), [first, second]) == Chain(s1, [second]) == Follow(s1, second);
    last := b.Current();
  }

  /**
   * Two `then` calls on a pending promise built by user code, the first
   * `then(v => v + 1)` and the second `then()`, then `resolve(1)`: both
   * handlers run, in order, each once.
   */
  method TwoThensThenResolve(loop: EventLoop, p: SimplePromise) returns (first: Cell, second: Cell)
    requires loop.Valid() && p in loop.promises
    requires p.state == Pending && p.parent == null && p.handlers == []
    modifies loop, loop.promises
    ensures p.invoked == Invocations(2, OnFulfilled)
    ensures first == Cell(Fulfilled, Num(2)) && second == Cell(Fulfilled, Num(1))
  {
    var a := p.Then(loop, Some(AddOne), None);
    var b := p.Then(loop, None, None);
    assert p.handlers == [Handler(a, Callbacks(Some(AddOne), None)), Handler(b, Callbacks(None, None))];
    assert Follow(FulfilledWith(Num(1)), Callbacks(Some(AddOne), None)) == FulfilledWith(Num(2));
    p.Resolve(loop, Num(1));
    assert a == p.handlers[0].target && b == p.handlers[1].target;
    first := a.Current();
    second := b.Current();
  }

  /** `resolve(1)` then `reject("x")` on the same promise: the first call wins. */
  method ResolveThenReject() returns (r: Cell)
    ensures r == Cell(Fulfilled, Num(1))
  {
    var loop := new EventLoop();
    var p := new SimplePromise(loop);
    loop.Admit(p);
    p.Resolve(loop, Num(1));
    p.Reject(loop, Str("x"));
    r := p.Current();
  }
}
