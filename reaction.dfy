/**
 * The value-level part of `SimplePromise` (mypromiseclass.js): the values a
 * promise carries, the user callbacks given to `then`, the settlement guard of
 * the `resolve`/`reject` closures, and what `handleCallback` computes for the
 * promise that `then` returns.
 */
module Reactions {

  datatype Option<T> = None | Some(value: T)

  /** The JavaScript values that flow through a promise, reduced to the kinds the model needs. */
  datatype Value = Null | Num(n: int) | Str(s: string)

  /** What invoking a user callback does: it returns a value or it throws one. */
  datatype Outcome = Return(value: Value) | Throw(value: Value)

  /** A user callback. It is total and has no side effects on promises. */
  type Callback = Value -> Outcome

  /** The callbacks passed to `then(onFulfilled, onRejected)`; `None` is an absent (falsy) argument. */
  datatype Callbacks = Callbacks(onFulfilled: Option<Callback>, onRejected: Option<Callback>)

  /** The three values of the `state` field. */
  datatype State = Pending | Fulfilled | Rejected

  /** The `state` and `value` fields of a promise, taken together. */
  datatype Cell = Cell(state: State, value: Value)

  /** A call of `resolve(value)` or of `reject(reason)`. */
  datatype Settlement = FulfilledWith(value: Value) | RejectedWith(value: Value)

  /** The cell of a promise freshly built by the constructor. */
  const Fresh := Cell(Pending, Null)

  /** The cell that a settlement writes into a pending promise. */
  function Settled(s: Settlement): (c: Cell)
    ensures c.state != Pending && c.value == s.value
    ensures c.state == Fulfilled <==> s.FulfilledWith?
  {
    match s
    case FulfilledWith(v) => Cell(Fulfilled, v)
    case RejectedWith(r) => Cell(Rejected, r)
  }

  /** The settlement that left the settled cell `c` as it is: the inverse of `Settled`. */
  function SettlementOf(c: Cell): (s: Settlement)
    requires c.state != Pending
    ensures Settled(s) == c
  {
    if c.state == Fulfilled then FulfilledWith(c.value) else RejectedWith(c.value)
  }

  /**
   * The guard shared by `resolve` and `reject`: a pending cell takes the
   * settlement, a settled cell keeps what it has.
   */
  function Attempt(c: Cell, s: Settlement): (r: Cell)
    ensures r.state != Pending
    ensures c.state != Pending ==> r == c
    ensures c.state == Pending ==> SettlementOf(r) == s
  {
    if c.state == Pending then Settled(s) else c
  }

  /** A sequence of `resolve`/`reject` calls on one promise, applied in order. */
  function AttemptAll(c: Cell, ss: seq<Settlement>): (r: Cell)
    decreases |ss|
  {
    if ss == [] then c else AttemptAll(Attempt(c, ss[0]), ss[1..])
  }

  /** Once settled, no further call of `resolve` or `reject` changes the cell. */
  lemma {:induction false} SettledIsFinal(c: Cell, ss: seq<Settlement>)
    requires c.state != Pending
    ensures AttemptAll(c, ss) == c
    decreases |ss|
  {
    if ss != [] {
      SettledIsFinal(Attempt(c, ss[0]), ss[1..]);
    }
  }

  /** First settlement wins: a pending cell ends with the first call's state and value. */
  lemma {:induction false} FirstSettlementWins(c: Cell, ss: seq<Settlement>)
    requires c.state == Pending && ss != []
    ensures AttemptAll(c, ss) == Settled(ss[0])
  {
    SettledIsFinal(Settled(ss[0]), ss[1..]);
  }

  /** `f ? f(v) : v`: an absent callback passes its argument through. */
  function Invoke(f: Option<Callback>, v: Value): (o: Outcome)
  {
    match f
    case None => Return(v)
    case Some(g) => g(v)
  }

  /**
   * What `handleCallback` does to the promise returned by `then`, given the
   * source's cell: on a fulfilled source it resolves with the handler's
   * result (or the value itself), on a rejected source it rejects with the
   * handler's result (or the reason itself), a thrown error rejects, and on a
   * pending source it does nothing.
   */
  function Reaction(source: Cell, cb: Callbacks): (r: Option<Settlement>)
    ensures r.None? <==> source.state == Pending
    ensures r.Some? && r.value.FulfilledWith? <==>
      source.state == Fulfilled && (cb.onFulfilled.None? || cb.onFulfilled.value(source.value).Return?)
    ensures source.state == Fulfilled && cb.onFulfilled.None? ==> r == Some(FulfilledWith(source.value))
    ensures source.state == Rejected && cb.onRejected.None? ==> r == Some(RejectedWith(source.value))
    ensures source.state == Fulfilled && cb.onFulfilled.Some? ==>
      var o := cb.onFulfilled.value(source.value);
      (o.Return? ==> r == Some(FulfilledWith(o.value))) && (o.Throw? ==> r == Some(RejectedWith(o.value)))
    ensures source.state == Rejected && cb.onRejected.Some? ==>
      r == Some(RejectedWith(cb.onRejected.value(source.value).value))
  {
    match source.state
    case Pending => None
    case Fulfilled =>
      (match Invoke(cb.onFulfilled, source.value)
       case Return(w) => Some(FulfilledWith(w))
       case Throw(e) => Some(RejectedWith(e)))
    case Rejected =>
      Some(RejectedWith(Invoke(cb.onRejected, source.value).value))
  }

  /** How the promise returned by `then(cb)` settles once its source has settled with `s`. */
  function Follow(s: Settlement, cb: Callbacks): (r: Settlement)
    ensures s.RejectedWith? ==> r.RejectedWith?
    ensures cb == Callbacks(None, None) ==> r == s
  {
    Reaction(Settled(s), cb).value
  }

  /** The cell that `handleCallback` leaves on the pending promise of a handler `cb` stored on the settled cell `source`. */
  function Downstream(source: Cell, cb: Callbacks): (r: Cell)
    requires source.state != Pending
  {
    Settled(Follow(SettlementOf(source), cb))
  }

  /** How the last promise of `p.then(cb0).then(cb1)...` settles once `p` has settled with `s`. */
  function Chain(s: Settlement, links: seq<Callbacks>): (r: Settlement)
    decreases |links|
  {
    if links == [] then s else Chain(Follow(s, links[0]), links[1..])
  }

  /** Chaining in two stretches is chaining once. */
  lemma {:induction false} ChainAppend(s: Settlement, a: seq<Callbacks>, b: seq<Callbacks>)
    ensures Chain(s, a + b) == Chain(Chain(s, a), b)
    decreases |a|
  {
    if a == [] {
      assert a + b == b;
    } else {
      assert (a + b)[0] == a[0] && (a + b)[1..] == a[1..] + b;
      ChainAppend(Follow(s, a[0]), a[1..], b);
    }
  }

  /** `p.then().then()...` settles exactly like `p`. */
  lemma {:induction false} PassThroughChain(s: Settlement, links: seq<Callbacks>)
    requires forall i :: 0 <= i < |links| ==> links[i] == Callbacks(None, None)
    ensures Chain(s, links) == s
    decreases |links|
  {
    if links != [] {
      PassThroughChain(Follow(s, links[0]), links[1..]);
    }
  }

  /**
   * A rejection is never turned back into a fulfilment along a chain: even an
   * `onRejected` handler (and so `catch`) rejects with what it returns.
   */
  lemma {:induction false} RejectionIsFinal(s: Settlement, links: seq<Callbacks>)
    requires s.RejectedWith?
    ensures Chain(s, links).RejectedWith?
    decreases |links|
  {
    if links != [] {
      RejectionIsFinal(Follow(s, links[0]), links[1..]);
    }
  }

  /**
   * A chain ends fulfilled only if every promise along it was fulfilled:
   * the source, and each promise that `then` returned before the last.
   */
  lemma {:induction false} FulfilledChainWasFulfilled(s: Settlement, links: seq<Callbacks>)
    requires Chain(s, links).FulfilledWith?
    ensures forall k :: 0 <= k <= |links| ==> Chain(s, links[..k]).FulfilledWith?
  {
    forall k | 0 <= k <= |links|
      ensures Chain(s, links[..k]).FulfilledWith?
    {
      assert links[..k] + links[k..] == links;
      ChainAppend(s, links[..k], links[k..]);
      if Chain(s, links[..k]).RejectedWith? {
        RejectionIsFinal(Chain(s, links[..k]), links[k..]);
      }
    }
  }
}
