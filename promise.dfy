/**
 * The class `SimplePromise` of mypromiseclass.js: a settlement state machine
 * (`state`, `value`), a queue of handlers registered while pending
 * (`handlers`), and chaining through `then` and `catch`.
 *
 * The zero-delay timer that `then` uses on an already settled promise is
 * modelled by `EventLoop`, which holds the scheduled callbacks as data and
 * runs one of them at a time. `EventLoop` also keeps a ghost registry of all
 * promises, which frames the synchronous cascade that settlement sets off
 * (settling a promise runs its handlers, which settle the promises `then`
 * returned, which run theirs, and so on).
 */
module Promises {
  import opened Reactions

  /** Which of a stored handler's two entries `forEach` invoked. */
  datatype Branch = OnFulfilled | OnRejected

  /** One handler invocation made by settlement: the handler's position in `handlers` and the entry invoked. */
  datatype Invocation = Invocation(slot: nat, branch: Branch)

  /** The entry that settlement into state `st` invokes on every stored handler. */
  function BranchFor(st: State): (b: Branch)
  {
    if st == Fulfilled then OnFulfilled else OnRejected
  }

  /** The invocations of handlers 0 .. n-1, in that order, all on entry `b`. */
  function Invocations(n: nat, b: Branch): (r: seq<Invocation>)
    ensures |r| == n
    ensures forall i :: 0 <= i < n ==> r[i] == Invocation(i, b)
  {
    if n == 0 then [] else Invocations(n - 1, b) + [Invocation(n - 1, b)]
  }

  /**
   * An element of `handlers`: the promise that `then` returned, and the
   * callbacks its `handleCallback` closes over.
   */
  datatype Handler = Handler(target: SimplePromise, callbacks: Callbacks)

  /** A `handleCallback` deferred with `setTimeout(handleCallback, 0)` by `source.then(...)`. */
  datatype Task = Task(source: SimplePromise, handler: Handler)

  /**
   * The effect of a settlement cascade started at `root`, between the two
   * states: a promise of `U` changes only by going from pending to settled,
   * and only when it is `root` or was created by `then` on `root` or on a
   * promise that was pending; each promise that settled, other than
   * `except`, has invoked all its handlers, in order, on the matching entry,
   * and every other log is unchanged.
   */
  twostate predicate Cascade(U: set<SimplePromise>, root: SimplePromise, except: SimplePromise?)
    reads U
  {
    forall x :: x in U ==>
      if old(x.state) == Pending && x.state != Pending then
        && (x == root || (old(x.parent) in U && (old(x.parent) == root || old(x.parent.state) == Pending)))
        && (x != except ==> x.invoked == Invocations(|x.handlers|, BranchFor(x.state)))
        && (x != except ==> forall i :: 0 <= i < |x.handlers| && x.handlers[i].target in U ==>
              x.handlers[i].target.Current() == Downstream(x.Current(), x.handlers[i].callbacks))
      else
        && x.Current() == old(x.Current())
        && (x != except ==> x.invoked == old(x.invoked))
  }

  /** Every promise of `U` was numbered when it was created, before number `n`. */
  ghost predicate Numbered(U: set<SimplePromise>, n: nat)
    reads U`born
  {
    forall p :: p in U ==> p.born < n
  }

  /**
   * Each stored handler's target was created later by `then` on the
   * promise that stores it, sits at its own position, and was not also
   * scheduled.
   */
  ghost predicate Adopted(U: set<SimplePromise>)
    reads U`handlers, U`parent, U`slot, U`born, U`scheduled
  {
    forall p, i :: p in U && 0 <= i < |p.handlers| ==>
      && p.handlers[i].target in U
      && p.handlers[i].target.parent == p
      && p.handlers[i].target.slot == i
      && p.handlers[i].target.born > p.born
      && !p.handlers[i].target.scheduled
  }

  /** Each scheduled callback's target was created by `then` on its source, and no two share a target. */
  ghost predicate Queued(U: set<SimplePromise>, T: seq<Task>)
    reads U`parent, U`scheduled
  {
    && (forall k :: 0 <= k < |T| ==>
          && T[k].source in U
          && T[k].handler.target in U
          && T[k].handler.target.parent == T[k].source
          && T[k].handler.target.scheduled)
    && (forall k, l :: 0 <= k < l < |T| ==> T[k].handler.target != T[l].handler.target)
  }

  /**
   * What waits on what: the target of a pending promise's handler is
   * pending, and a scheduled callback's source is settled and its target
   * pending.
   */
  ghost predicate Waiting(U: set<SimplePromise>, T: seq<Task>)
    reads U`state, U`handlers, U`parent, U`slot, U`born, U`scheduled
    requires Adopted(U) && Queued(U, T)
  {
    && (forall p, i :: p in U && p.state == Pending && 0 <= i < |p.handlers| ==>
          p.handlers[i].target.state == Pending)
    && (forall k :: 0 <= k < |T| ==>
          T[k].source.state != Pending && T[k].handler.target.state == Pending)
  }

  /** A pending promise has invoked no handler yet. */
  ghost predicate LogsFresh(U: set<SimplePromise>)
    reads U`state, U`invoked
  {
    forall p :: p in U && p.state == Pending ==> p.invoked == []
  }

  /** Every settled promise has invoked each of its handlers once, in order, on the matching entry. */
  ghost predicate LogsFull(U: set<SimplePromise>)
    reads U`state, U`invoked, U`handlers
  {
    forall p :: p in U && p.state != Pending ==>
      p.invoked == Invocations(|p.handlers|, BranchFor(p.state))
  }

  /**
   * The handlers of a settled promise have all run: the promise each of
   * them belongs to is settled as `Follow` says from the settlement of the
   * promise that stores it.
   */
  ghost predicate Propagated(U: set<SimplePromise>)
    reads U`state, U`value, U`handlers
  {
    forall p, i :: p in U && p.state != Pending && 0 <= i < |p.handlers| && p.handlers[i].target in U ==>
      p.handlers[i].target.Current() == Downstream(p.Current(), p.handlers[i].callbacks)
  }

  /** What holds throughout a settlement cascade, for registry `U`, queue `T` and creation count `n`. */
  ghost predicate LinkedRegistry(U: set<SimplePromise>, T: seq<Task>, n: nat)
    reads U
  {
    Numbered(U, n) && Adopted(U) && Queued(U, T) && Waiting(U, T) && LogsFresh(U)
  }

  /** What holds between two calls from user code. */
  ghost predicate ValidRegistry(U: set<SimplePromise>, T: seq<Task>, n: nat)
    reads U
  {
    LinkedRegistry(U, T, n) && LogsFull(U) && Propagated(U)
  }

  /** Registering a new promise `p` with no handlers and no log keeps every invariant. */
  lemma Register(U: set<SimplePromise>, T: seq<Task>, n: nat, p: SimplePromise)
    requires ValidRegistry(U, T, n)
    requires p !in U && p.born == n && p.handlers == [] && p.state == Pending && p.invoked == []
    ensures ValidRegistry(U + {p}, T, n + 1)
  {
  }

  /** The run-later queue behind `setTimeout(handleCallback, 0)`, and the registry of all promises. */
  class EventLoop {
    var tasks: seq<Task>
    ghost var promises: set<SimplePromise>
    /** How many promises have been created so far; each promise records its own number. */
    ghost var created: nat

    constructor ()
      ensures tasks == [] && promises == {}
      ensures Valid()
    {
      tasks := [];
      promises := {};
      created := 0;
    }

    /** What holds throughout a settlement cascade. */
    ghost predicate Linked()
      reads this, promises
    {
      LinkedRegistry(promises, tasks, created)
    }

    /** What holds between two calls from user code. */
    ghost predicate Valid()
      reads this, promises
    {
      ValidRegistry(promises, tasks, created)
    }

    /**
     * Ghost bookkeeping after `new SimplePromise`: enters the just-built
     * promise `p` in the registry and moves on to the next number.
     */
    ghost method Admit(p: SimplePromise)
      requires Valid() && p !in promises && p.born == created
      requires p.handlers == [] && p.state == Pending && p.invoked == []
      modifies this`promises, this`created
      ensures promises == old(promises) + {p} && created == old(created) + 1
      ensures Valid()
    {
      Register(promises, tasks, created, p);
      promises := promises + {p};
      created := created + 1;
    }

    /**
     * Runs one scheduled callback: the timer fires and `handleCallback`
     * settles the promise `then` returned from the state of its source.
     * Any scheduled callback may run next; the model fixes no order among them.
     */
    method RunTask(i: nat)
      requires Valid() && i < |tasks|
      modifies this`tasks, promises`state, promises`value, promises`invoked
      ensures Valid() && promises == old(promises)
      ensures tasks == old(tasks[..i] + tasks[i+1..])
      ensures var t := old(tasks[i]); var r := Reaction(old(t.source.Current()), t.handler.callbacks);
        r.Some? && t.handler.target.Current() == Settled(r.value)
      ensures Cascade(promises, old(tasks[i]).handler.target, null)
    {
      var t := tasks[i];
      tasks := tasks[..i] + tasks[i+1..];
      assert forall k :: 0 <= k < |tasks| ==> tasks[k] == old(tasks)[if k < i then k else k + 1];
      t.source.HandleCallback(this, t.handler);
    }
  }

  class SimplePromise {
    var state: State
    var value: Value
    var handlers: seq<Handler>
    /** The promise whose `then` created this one; null for a promise built by user code. */
    ghost var parent: SimplePromise?
    /** The position of this promise's handler in `parent.handlers`. */
    ghost var slot: nat
    /** The handler invocations settlement has made, in order. */
    ghost var invoked: seq<Invocation>
    /** The number of promises created before this one. */
    ghost var born: nat
    /** Whether `then` scheduled this promise's handler on the event loop instead of storing it. */
    ghost var scheduled: bool

    function Current(): (c: Cell)
      reads this`state, this`value
    {
      Cell(state, value)
    }

    /**
     * A new promise: pending, with value null and no handlers. The executor
     * it is given is the caller's code; whatever the executor does with
     * `resolve` and `reject` is a later call of `Resolve` or `Reject`.
     * The new promise takes the next number of `loop`; `EventLoop.Admit`
     * then enters it in the registry.
     */
    constructor (loop: EventLoop)
      ensures Current() == Fresh && handlers == []
      ensures parent == null && invoked == [] && born == loop.created && !scheduled
    {
      state := Pending;
      value := Null;
      handlers := [];
      parent := null;
      slot := 0;
      invoked := [];
      born := loop.created;
      scheduled := false;
    }

    /**
     * The `new SimplePromise(...)` inside `then`, called on `source`: the
     * same fresh promise, recorded as `source`'s, at position `slot` of its
     * handlers or, when `scheduled`, on the event loop.
     */
    constructor Derived(loop: EventLoop, ghost source: SimplePromise, ghost slot: nat, ghost scheduled: bool)
      ensures Current() == Fresh && handlers == []
      ensures parent == source && this.slot == slot && this.scheduled == scheduled
      ensures invoked == [] && born == loop.created
    {
      state := Pending;
      value := Null;
      handlers := [];
      parent := source;
      this.slot := slot;
      invoked := [];
      born := loop.created;
      this.scheduled := scheduled;
    }

    /**
     * The `resolve` closure: on a pending promise, record the value, then
     * invoke the `onFulfilled` entry of every stored handler, in order.
     */
    method Resolve(loop: EventLoop, v: Value)
      requires loop.Valid() && this in loop.promises && parent == null
      modifies loop.promises`state, loop.promises`value, loop.promises`invoked
      ensures loop.Valid()
      ensures Current() == Attempt(old(Current()), FulfilledWith(v))
      ensures old(state) != Pending ==>
        forall x :: x in loop.promises ==> x.Current() == old(x.Current()) && x.invoked == old(x.invoked)
      ensures old(state) == Pending ==> invoked == Invocations(|handlers|, OnFulfilled)
      ensures old(state) == Pending ==> forall i :: 0 <= i < |handlers| ==>
        handlers[i].target.Current() == Settled(Follow(FulfilledWith(v), handlers[i].callbacks))
      ensures Cascade(loop.promises, this, null)
    {
      Settle(loop, FulfilledWith(v));
    }

    /**
     * The `reject` closure: on a pending promise, record the reason, then
     * invoke the `onRejected` entry of every stored handler, in order.
     */
    method Reject(loop: EventLoop, r: Value)
      requires loop.Valid() && this in loop.promises && parent == null
      modifies loop.promises`state, loop.promises`value, loop.promises`invoked
      ensures loop.Valid()
      ensures Current() == Attempt(old(Current()), RejectedWith(r))
      ensures old(state) != Pending ==>
        forall x :: x in loop.promises ==> x.Current() == old(x.Current()) && x.invoked == old(x.invoked)
      ensures old(state) == Pending ==> invoked == Invocations(|handlers|, OnRejected)
      ensures old(state) == Pending ==> forall i :: 0 <= i < |handlers| ==>
        handlers[i].target.Current() == Settled(Follow(RejectedWith(r), handlers[i].callbacks))
      ensures Cascade(loop.promises, this, null)
    {
      Settle(loop, RejectedWith(r));
    }

    /**
     * The body shared by the `resolve` and `reject` closures: the guard, the
     * two assignments, and the handler loop. Through the handlers it also
     * settles every promise downstream of this one that was waiting on it.
     */
    method Settle(loop: EventLoop, s: Settlement)
      requires loop.Linked() && this in loop.promises
      requires state == Pending ==> parent == null || parent.state != Pending
      requires forall k :: 0 <= k < |loop.tasks| ==> loop.tasks[k].handler.target != this
      modifies loop.promises`state, loop.promises`value, loop.promises`invoked
      decreases loop.created - born, 2
      ensures loop.Linked()
      ensures Current() == Attempt(old(Current()), s)
      ensures old(state) == Pending ==> forall i :: 0 <= i < |handlers| ==>
        handlers[i].target.Current() == Settled(Follow(s, handlers[i].callbacks))
      ensures old(state) != Pending ==>
        forall x :: x in loop.promises ==> x.Current() == old(x.Current()) && x.invoked == old(x.invoked)
      ensures Cascade(loop.promises, this, null)
    {
      if state != Pending {
        return;
      }
      state := Settled(s).state;
      value := s.value;
      Notify(loop, s);
    }

    /**
     * The `forEach` over `handlers` that runs once this promise has just
     * settled with `s`: each stored handler is invoked once, in order, on
     * the entry that matches the new state.
     */
    method Notify(loop: EventLoop, s: Settlement)
      requires loop.Linked() && this in loop.promises
      requires Current() == Settled(s) && invoked == []
      requires forall i :: 0 <= i < |handlers| ==> handlers[i].target.state == Pending
      requires forall k :: 0 <= k < |loop.tasks| ==> loop.tasks[k].source != this
      modifies loop.promises`state, loop.promises`value, loop.promises`invoked
      decreases loop.created - born, 1
      ensures loop.Linked() && Current() == Settled(s)
      ensures invoked == Invocations(|handlers|, BranchFor(state))
      ensures forall i :: 0 <= i < |handlers| ==>
        handlers[i].target.Current() == Settled(Follow(s, handlers[i].callbacks))
      ensures Cascade(loop.promises, this, this)
    {
      var i := 0;
      while i < |handlers|
        invariant 0 <= i <= |handlers|
        invariant loop.Linked() && Current() == Settled(s)
        invariant invoked == Invocations(i, BranchFor(state))
        invariant forall j :: 0 <= j < i ==>
          handlers[j].target.Current() == Settled(Follow(s, handlers[j].callbacks))
        invariant forall j :: i <= j < |handlers| ==> handlers[j].target.state == Pending
        invariant Cascade(loop.promises, this, this)
      {
        InvokeHandler(loop, s, i);
        i := i + 1;
      }
    }

    /** One iteration of the `forEach`: invoke handler `i` of this settled promise. */
    method InvokeHandler(loop: EventLoop, s: Settlement, i: nat)
      requires loop.Linked() && this in loop.promises
      requires Current() == Settled(s) && i < |handlers|
      requires forall j :: i <= j < |handlers| ==> handlers[j].target.state == Pending
      requires forall k :: 0 <= k < |loop.tasks| ==> loop.tasks[k].source != this
      modifies loop.promises`state, loop.promises`value, loop.promises`invoked
      decreases loop.created - born, 0
      ensures loop.Linked() && Current() == Settled(s)
      ensures invoked == old(invoked) + [Invocation(i, BranchFor(state))]
      ensures handlers[i].target.Current() == Settled(Follow(s, handlers[i].callbacks))
      ensures forall j :: 0 <= j < |handlers| && j != i ==>
        handlers[j].target.Current() == old(handlers[j].target.Current())
      ensures Cascade(loop.promises, this, this)
    {
      var h := handlers[i];
      invoked := invoked + [Invocation(i, BranchFor(state))];
      assert Reaction(Current(), h.callbacks) == Some(Follow(s, h.callbacks));
      HandleCallback(loop, h);
    }

    /**
     * `handleCallback` of `then`, run on this (the source) promise for the
     * handler `h`: invoke the callback that matches the source's state, or
     * pass the value or reason through when it is absent, and settle the
     * target with the result; a thrown error rejects the target. On a
     * pending source it does nothing.
     */
    method HandleCallback(loop: EventLoop, h: Handler)
      requires loop.Linked() && h.target in loop.promises && h.target.parent == this
      requires forall k :: 0 <= k < |loop.tasks| ==> loop.tasks[k].handler.target != h.target
      modifies loop.promises`state, loop.promises`value, loop.promises`invoked
      decreases loop.created - h.target.born, 3
      ensures loop.Linked()
      ensures var r := Reaction(old(Current()), h.callbacks);
        h.target.Current() == if r.Some? then Attempt(old(h.target.Current()), r.value) else old(h.target.Current())
      ensures Cascade(loop.promises, h.target, null)
    {
      var target := h.target;
      if state == Fulfilled {
        match Invoke(h.callbacks.onFulfilled, value)
        case Return(w) => target.Settle(loop, FulfilledWith(w));
        case Throw(e) => target.Settle(loop, RejectedWith(e));
      } else if state == Rejected {
        match Invoke(h.callbacks.onRejected, value)
        case Return(w) => target.Settle(loop, RejectedWith(w));
        case Throw(e) => target.Settle(loop, RejectedWith(e));
      }
    }

    /**
     * `then(onFulfilled, onRejected)`: returns a new pending promise. On a
     * pending source the handler is queued; on a settled one it is scheduled
     * on the event loop instead and `handlers` is left as it is.
     */
    method Then(loop: EventLoop, onFulfilled: Option<Callback>, onRejected: Option<Callback>)
      returns (next: SimplePromise)
      requires loop.Valid() && this in loop.promises
      modifies this`handlers, loop`tasks, loop`promises, loop`created
      ensures loop.Valid() && fresh(next)
      ensures loop.promises == old(loop.promises) + {next}
      ensures next.Current() == Fresh && next.handlers == [] && next.parent == this
      ensures Current() == old(Current())
      ensures old(state) == Pending ==>
        && handlers == old(handlers) + [Handler(next, Callbacks(onFulfilled, onRejected))]
        && loop.tasks == old(loop.tasks)
      ensures old(state) != Pending ==>
        && handlers == old(handlers)
        && loop.tasks == old(loop.tasks) + [Task(this, Handler(next, Callbacks(onFulfilled, onRejected)))]
    {
      if state == Pending {
        next := new SimplePromise.Derived(loop, this, |handlers|, false);
        loop.Admit(next);
        Store(loop, Handler(next, Callbacks(onFulfilled, onRejected)));
      } else {
        next := new SimplePromise.Derived(loop, this, 0, true);
        loop.Admit(next);
        Schedule(loop, Handler(next, Callbacks(onFulfilled, onRejected)));
      }
    }

    /** The pending branch of `then`: `handlers.push(handleCallback)`. */
    method Store(loop: EventLoop, h: Handler)
      requires loop.Valid() && this in loop.promises && state == Pending
      requires h.target in loop.promises && h.target.state == Pending
      requires h.target.parent == this && h.target.slot == |handlers| && !h.target.scheduled && h.target.born > born
      modifies this`handlers
      ensures loop.Valid()
      ensures handlers == old(handlers) + [h]
    {
      handlers := handlers + [h];
    }

    /** The settled branch of `then`: `setTimeout(handleCallback, 0)`. */
    method Schedule(loop: EventLoop, h: Handler)
      requires loop.Valid() && this in loop.promises && state != Pending
      requires h.target in loop.promises && h.target.state == Pending
      requires h.target.parent == this && h.target.scheduled
      requires forall k :: 0 <= k < |loop.tasks| ==> loop.tasks[k].handler.target != h.target
      modifies loop`tasks
      ensures loop.Valid()
      ensures loop.tasks == old(loop.tasks) + [Task(this, h)]
    {
      loop.tasks := loop.tasks + [Task(this, h)];
    }

    /** `catch(onRejected)`, which is `then(null, onRejected)`. */
    method Catch(loop: EventLoop, onRejected: Option<Callback>) returns (next: SimplePromise)
      requires loop.Valid() && this in loop.promises
      modifies this`handlers, loop`tasks, loop`promises, loop`created
      ensures loop.Valid() && fresh(next)
      ensures loop.promises == old(loop.promises) + {next}
      ensures next.Current() == Fresh && next.handlers == [] && next.parent == this
      ensures Current() == old(Current())
      ensures old(state) == Pending ==>
        && handlers == old(handlers) + [Handler(next, Callbacks(None, onRejected))]
        && loop.tasks == old(loop.tasks)
      ensures old(state) != Pending ==>
        && handlers == old(handlers)
        && loop.tasks == old(loop.tasks) + [Task(this, Handler(next, Callbacks(None, onRejected)))]
    {
      next := Then(loop, None, onRejected);
    }
  }
}
