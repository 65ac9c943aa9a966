/**
 * The settlement state machine of `Promise<T>`.
 *
 * `then`, `_resolve`, `_reject` and the reject-slot check of `_handle_exception` run
 * under the promise's mutex, so these operations are atomic with respect to each other
 * and are modelled sequentially. `debug()`, which reads the fields unlocked, is not
 * part of this model.
 * The first half of the module gives each operation as a pure step on a `Cell`
 * (a snapshot of the promise's fields); class `Promise` at the end performs the
 * same operations in place and is proved against those steps. Invoking a callback
 * is recorded as a `Delivered` event.
 */
module Promises {
  import opened StdFunction

  datatype State = Pending | Fulfilled | Rejected

  /** What a callback receives: the fulfilled value or the rejection reason. */
  datatype Payload<T> = Value(v: T) | Reason(r: string)

  /** One invocation of a callback. */
  datatype Event<T> = Delivered(callback: Token, payload: Payload<T>)

  /** How an operation ends, seen from its caller. */
  datatype Outcome =
    | Returned
      /** `throw UnhandledPromiseRejection(reason)` */
    | UnhandledRejection(reason: string)
      /** the bare `throw;` that re-raises the exception being handled */
    | Rethrown
      /** an empty `std::function` was called: `std::bad_function_call` */
    | BadFunctionCall

  /** A fault escaping the executor: a `std::exception` with its `what()`, or anything else. */
  datatype Fault = StdException(what: string) | NonStandard

  /** The promise's fields: state, stored value and the two callback slots. */
  datatype Cell<T> = Cell(state: State, value: Option<T>, onResolve: Slot, onReject: Slot)

  /** The effect of one operation: the new fields, the callbacks it invoked, how it ended. */
  datatype Step<T> = Step(cell: Cell<T>, events: seq<Event<T>>, outcome: Outcome)

  /** Operations a caller or the executor can perform on a promise. */
  datatype Op<T> =
    | ThenOp(onResolve: Slot, onReject: Slot)
    | CatchErrorOp(onReject: Slot)
    | ResolveOp(v: T)
    | RejectOp(reason: string)
    | HandleExceptionOp(message: string)

  /** The effect of a sequence of operations. */
  datatype Trace<T> = Trace(cell: Cell<T>, events: seq<Event<T>>, outcomes: seq<Outcome>)

  /**
   * The combinations of fields the operations can produce: a value is stored exactly
   * when fulfilled, and the slot that settlement fired has been emptied.
   */
  predicate WellFormed<T>(c: Cell<T>)
  {
    match c.state
    case Pending => c.value.None?
    case Fulfilled => c.value.Some? && c.onResolve.None?
    case Rejected => c.value.None? && c.onReject.None?
  }

  /** A new promise: pending, nothing stored, both slots empty. */
  function Init<T>(): (c: Cell<T>)
    ensures WellFormed(c) && c.state == Pending
    ensures c.onResolve.None? && c.onReject.None?
  {
    Cell(Pending, None, None, None)
  }

  /** `then(onResolve, onReject)`. */
  function ThenStep<T>(c: Cell<T>, onResolve: Slot, onReject: Slot): (s: Step<T>)
    requires WellFormed(c)
    ensures WellFormed(s.cell)
  {
    match c.state
    case Fulfilled =>
      if onResolve.Some? then Step(c, [Delivered(onResolve.value, Value(c.value.value))], Returned)
      else Step(c, [], BadFunctionCall)
    case Pending =>
      Step(c.(onResolve := onResolve, onReject := onReject), [], Returned)
    case Rejected =>
      Step(c, [], Returned)
  }

  /** `catch_error(onReject)`, which is `then(nullptr, onReject)`. */
  function CatchErrorStep<T>(c: Cell<T>, onReject: Slot): (s: Step<T>)
    requires WellFormed(c)
    ensures WellFormed(s.cell)
  {
    ThenStep(c, None, onReject)
  }

  /** `_resolve(v)`. */
  function ResolveStep<T>(c: Cell<T>, v: T): (s: Step<T>)
    requires WellFormed(c)
    ensures WellFormed(s.cell)
  {
    if c.state != Pending then Step(c, [], Returned)
    else
      var settled := c.(state := Fulfilled, value := Some(v));
      if c.onResolve.Some? then
        Step(settled.(onResolve := None), [Delivered(c.onResolve.value, Value(v))], Returned)
      else
        Step(settled, [], Returned)
  }

  /** `_reject(reason)`. */
  function RejectStep<T>(c: Cell<T>, reason: string): (s: Step<T>)
    requires WellFormed(c)
    ensures WellFormed(s.cell)
  {
    if c.state != Pending then Step(c, [], Returned)
    else
      var settled := c.(state := Rejected);
      if c.onReject.Some? then
        Step(settled.(onReject := None), [Delivered(c.onReject.value, Reason(reason))], Returned)
      else
        Step(settled, [], UnhandledRejection(reason))
  }

  /** `_handle_exception(message)`: reject when a reject callback is stored, else re-raise. */
  function HandleExceptionStep<T>(c: Cell<T>, message: string): (s: Step<T>)
    requires WellFormed(c)
    ensures WellFormed(s.cell)
  {
    if c.onReject.Some? then RejectStep(c, message) else Step(c, [], Rethrown)
  }

  /** The message the executor's fault boundary hands to `_handle_exception`. */
  function FaultMessage(f: Fault): (m: string)
    ensures f.StdException? ==> m == f.what
    ensures f.NonStandard? ==> m == "Non-exception type thrown"
  {
    match f
    case StdException(what) => what
    case NonStandard => "Non-exception type thrown"
  }

  function Apply<T>(c: Cell<T>, op: Op<T>): (s: Step<T>)
    requires WellFormed(c)
    ensures WellFormed(s.cell)
  {
    match op
    case ThenOp(a, b) => ThenStep(c, a, b)
    case CatchErrorOp(b) => CatchErrorStep(c, b)
    case ResolveOp(v) => ResolveStep(c, v)
    case RejectOp(r) => RejectStep(c, r)
    case HandleExceptionOp(m) => HandleExceptionStep(c, m)
  }

  /** Performs `ops` in order, collecting the invoked callbacks and the outcomes. */
  function Run<T>(c: Cell<T>, ops: seq<Op<T>>): (t: Trace<T>)
    requires WellFormed(c)
    ensures WellFormed(t.cell)
    ensures |t.outcomes| == |ops|
    decreases |ops|
  {
    if ops == [] then Trace(c, [], [])
    else
      var s := Apply(c, ops[0]);
      var rest := Run(s.cell, ops[1..]);
      Trace(rest.cell, s.events + rest.events, [s.outcome] + rest.outcomes)
  }

  predicate IsRegistration<T>(op: Op<T>)
  {
    op.ThenOp? || op.CatchErrorOp?
  }

  predicate IsSettlementAttempt<T>(op: Op<T>)
  {
    op.ResolveOp? || op.RejectOp? || op.HandleExceptionOp?
  }

  function CountUnhandled(os: seq<Outcome>): nat
  {
    if os == [] then 0
    else (if os[0].UnhandledRejection? then 1 else 0) + CountUnhandled(os[1..])
  }

  function CountRegistrations<T>(ops: seq<Op<T>>): nat
  {
    if ops == [] then 0
    else (if IsRegistration(ops[0]) then 1 else 0) + CountRegistrations(ops[1..])
  }

  // ---------------------------------------------------------------------------
  // Properties of single operations

  /**
   * Once settled, `_resolve` and `_reject` return at once: no field changes and
   * nothing is invoked.
   */
  lemma SettlementIsIdempotent<T>(c: Cell<T>, v: T, r: string)
    requires WellFormed(c) && c.state != Pending
    ensures ResolveStep(c, v) == Step(c, [], Returned)
    ensures RejectStep(c, r) == Step(c, [], Returned)
  {
  }

  /**
   * `_resolve(v)` on a pending promise fulfils it with `v`; a stored resolve callback
   * fires once with `v` and its slot is emptied, the reject slot stays as it was.
   */
  lemma ResolvePendingFulfils<T>(c: Cell<T>, v: T)
    requires WellFormed(c) && c.state == Pending
    ensures var s := ResolveStep(c, v);
      && s.cell == Cell(Fulfilled, Some(v), None, c.onReject)
      && s.events == (if c.onResolve.Some? then [Delivered(c.onResolve.value, Value(v))] else [])
      && s.outcome == Returned
  {
  }

  /**
   * `_reject(r)` on a pending promise rejects it. With a reject callback stored, it fires
   * once with `r` and its slot is emptied; without one, the promise is still rejected
   * and the call ends in an unhandled rejection carrying `r`.
   */
  lemma RejectPendingRejects<T>(c: Cell<T>, r: string)
    requires WellFormed(c) && c.state == Pending
    ensures var s := RejectStep(c, r);
      && s.cell == Cell(Rejected, None, c.onResolve, None)
      && s.events == (if c.onReject.Some? then [Delivered(c.onReject.value, Reason(r))] else [])
      && s.outcome == (if c.onReject.Some? then Returned else UnhandledRejection(r))
  {
  }

  /**
   * `then(a, b)` on a pending promise stores both slots and invokes nothing;
   * `catch_error(b)` therefore empties the resolve slot.
   */
  lemma ThenWhilePendingOverwritesSlots<T>(c: Cell<T>, a: Slot, b: Slot)
    requires WellFormed(c) && c.state == Pending
    ensures ThenStep(c, a, b) == Step(Cell(Pending, None, a, b), [], Returned)
    ensures CatchErrorStep(c, b).cell.onResolve == None && CatchErrorStep(c, b).cell.onReject == b
  {
  }

  /**
   * `then(a, b)` on a fulfilled promise invokes `a` at once with the stored value and
   * stores nothing; with `a` empty it calls an empty function.
   */
  lemma ThenWhenFulfilledDeliversAtOnce<T>(c: Cell<T>, a: Slot, b: Slot)
    requires WellFormed(c) && c.state == Fulfilled
    ensures ThenStep(c, a, b).cell == c
    ensures a.Some? ==> ThenStep(c, a, b).events == [Delivered(a.value, Value(c.value.value))]
    ensures a.None? ==> ThenStep(c, a, b).events == [] && ThenStep(c, a, b).outcome == BadFunctionCall
  {
  }

  /**
   * `catch_error(b)` on a fulfilled promise is `then(nullptr, b)`, which calls the empty
   * resolve function: it throws, invokes nothing and does not store `b`.
   */
  lemma CatchErrorWhenFulfilledThrows<T>(c: Cell<T>, b: Slot)
    requires WellFormed(c) && c.state == Fulfilled
    ensures CatchErrorStep(c, b) == Step(c, [], BadFunctionCall)
  {
  }

  /** `then(a, b)` on a rejected promise does nothing: the reason was never kept. */
  lemma ThenWhenRejectedIsNoOp<T>(c: Cell<T>, a: Slot, b: Slot)
    requires WellFormed(c) && c.state == Rejected
    ensures ThenStep(c, a, b) == Step(c, [], Returned)
  {
  }

  /**
   * `_handle_exception(m)` with a reject callback stored behaves as `_reject(m)`;
   * without one it re-raises and leaves the promise as it was.
   */
  lemma HandleExceptionRouting<T>(c: Cell<T>, m: string)
    requires WellFormed(c)
    ensures c.onReject.Some? ==> HandleExceptionStep(c, m) == RejectStep(c, m)
    ensures c.onReject.None? ==> HandleExceptionStep(c, m) == Step(c, [], Rethrown)
  {
  }

  // ---------------------------------------------------------------------------
  // Properties of sequences of operations

  /** A non-empty run applies its first operation, then runs the rest. */
  lemma RunFirst<T>(c: Cell<T>, ops: seq<Op<T>>)
    requires WellFormed(c) && ops != []
    ensures var s := Apply(c, ops[0]); var rest := Run(s.cell, ops[1..]);
      Run(c, ops) == Trace(rest.cell, s.events + rest.events, [s.outcome] + rest.outcomes)
  {
  }

  /** Running two operations is applying one after the other. */
  lemma RunOfTwo<T>(c: Cell<T>, x: Op<T>, y: Op<T>)
    requires WellFormed(c)
    ensures var s1 := Apply(c, x); var s2 := Apply(s1.cell, y);
      Run(c, [x, y]) == Trace(s2.cell, s1.events + s2.events, [s1.outcome, s2.outcome])
  {
    var s1 := Apply(c, x);
    var s2 := Apply(s1.cell, y);
    assert [x, y][1..] == [y];
    assert [y][1..] == [];
    assert Run(s1.cell, [y]) == Trace(s2.cell, s2.events + [], [s2.outcome] + []);
    assert s2.events + [] == s2.events && [s2.outcome] + [] == [s2.outcome];
  }

  /** A settled promise never changes again, whatever is done to it. */
  lemma {:induction false} SettledCellIsFrozen<T>(c: Cell<T>, ops: seq<Op<T>>)
    requires WellFormed(c) && c.state != Pending
    ensures Run(c, ops).cell == c
    decreases |ops|
  {
    if ops != [] {
      SettledCellIsFrozen(Apply(c, ops[0]).cell, ops[1..]);
    }
  }

  /** No operation on a rejected promise ever invokes a callback. */
  lemma {:induction false} RejectedCellNeverDelivers<T>(c: Cell<T>, ops: seq<Op<T>>)
    requires WellFormed(c) && c.state == Rejected
    ensures Run(c, ops).events == []
    decreases |ops|
  {
    if ops != [] {
      RejectedCellNeverDelivers(Apply(c, ops[0]).cell, ops[1..]);
    }
  }

  /** Every callback a fulfilled promise invokes receives the stored value. */
  lemma {:induction false} FulfilledCellDeliversStoredValue<T>(c: Cell<T>, ops: seq<Op<T>>)
    requires WellFormed(c) && c.state == Fulfilled
    ensures forall e :: e in Run(c, ops).events ==> e.payload == Value(c.value.value)
    decreases |ops|
  {
    if ops != [] {
      FulfilledCellDeliversStoredValue(Apply(c, ops[0]).cell, ops[1..]);
    }
  }

  /** Registrations alone leave a pending promise pending and invoke nothing. */
  lemma {:induction false} RegistrationsKeepPending<T>(c: Cell<T>, ops: seq<Op<T>>)
    requires WellFormed(c) && c.state == Pending
    requires forall i :: 0 <= i < |ops| ==> IsRegistration(ops[i])
    ensures Run(c, ops).cell.state == Pending && Run(c, ops).events == []
    decreases |ops|
  {
    if ops != [] {
      assert IsRegistration(ops[0]);
      RegistrationsKeepPending(Apply(c, ops[0]).cell, ops[1..]);
    }
  }

  /**
   * The first settlement wins: after any registrations, the first `_resolve(v)`,
   * `_reject(r)`, or `_handle_exception(m)` with a reject callback stored, fixes the
   * state and value for good, whatever follows.
   */
  lemma {:induction false} FirstSettlementWins<T>(c: Cell<T>, pre: seq<Op<T>>, op: Op<T>, post: seq<Op<T>>)
    requires WellFormed(c) && c.state == Pending
    requires forall i :: 0 <= i < |pre| ==> IsRegistration(pre[i])
    requires op.ResolveOp? || op.RejectOp? || (op.HandleExceptionOp? && Run(c, pre).cell.onReject.Some?)
    ensures var final := Run(c, pre + [op] + post).cell;
      match op
      case ResolveOp(v) => final.state == Fulfilled && final.value == Some(v)
      case RejectOp(_) => final.state == Rejected && final.value == None
      case HandleExceptionOp(_) => final.state == Rejected && final.value == None
    decreases |pre|
  {
    var ops := pre + [op] + post;
    RunFirst(c, ops);
    if pre == [] {
      assert ops[0] == op && ops[1..] == post;
      SettledCellIsFrozen(Apply(c, op).cell, post);
    } else {
      assert ops[0] == pre[0] && ops[1..] == pre[1..] + [op] + post;
      assert IsRegistration(pre[0]);
      RunFirst(c, pre);
      FirstSettlementWins(Apply(c, pre[0]).cell, pre[1..], op, post);
    }
  }

  /**
   * However many times settlement is attempted, at most one stored callback fires,
   * and none once the promise is settled.
   */
  lemma {:induction false} SettlementDeliversAtMostOnce<T>(c: Cell<T>, ops: seq<Op<T>>)
    requires WellFormed(c)
    requires forall i :: 0 <= i < |ops| ==> IsSettlementAttempt(ops[i])
    ensures |Run(c, ops).events| <= (if c.state == Pending then 1 else 0)
    decreases |ops|
  {
    if ops != [] {
      assert IsSettlementAttempt(ops[0]);
      SettlementDeliversAtMostOnce(Apply(c, ops[0]).cell, ops[1..]);
    }
  }

  /**
   * A callback registered while pending fires exactly once, with the settled value or
   * reason, however many settlement attempts follow; an unhandled rejection is raised
   * by the rejection itself.
   */
  lemma {:induction false} RegisteredCallbackFiresOnce<T>(c: Cell<T>, a: Slot, b: Slot, op: Op<T>, post: seq<Op<T>>)
    requires WellFormed(c) && c.state == Pending
    requires op.ResolveOp? || op.RejectOp?
    requires forall i :: 0 <= i < |post| ==> IsSettlementAttempt(post[i])
    ensures var t := Run(c, [ThenOp(a, b), op] + post);
      match op
      case ResolveOp(v) =>
        t.events == (if a.Some? then [Delivered(a.value, Value(v))] else [])
      case RejectOp(r) =>
        && t.events == (if b.Some? then [Delivered(b.value, Reason(r))] else [])
        && t.outcomes[1] == (if b.Some? then Returned else UnhandledRejection(r))
  {
    var ops := [ThenOp(a, b), op] + post;
    var registered := ThenStep(c, a, b).cell;
    var settled := Apply(registered, op);
    RunFirst(c, ops);
    assert ops[0] == ThenOp(a, b) && ops[1..] == [op] + post;
    RunFirst(registered, [op] + post);
    assert ([op] + post)[0] == op && ([op] + post)[1..] == post;
    SettlementDeliversAtMostOnce(settled.cell, post);
  }

  /**
   * With no resolve callback stored beforehand, registering after fulfilment observes
   * the same delivery as registering before it.
   */
  lemma LateObserverOfFulfilment<T>(c: Cell<T>, a: Token, b: Slot, v: T)
    requires WellFormed(c) && c.state == Pending && c.onResolve.None?
    ensures Run(c, [ThenOp(Some(a), b), ResolveOp(v)]).events == [Delivered(a, Value(v))]
    ensures Run(c, [ResolveOp(v), ThenOp(Some(a), b)]).events == [Delivered(a, Value(v))]
  {
    RunOfTwo(c, ThenOp(Some(a), b), ResolveOp(v));
    RunOfTwo(c, ResolveOp(v), ThenOp(Some(a), b));
  }

  /**
   * With no reject callback stored beforehand, registering before rejection receives
   * the reason, but registering after it observes nothing: the reason was not kept,
   * and the rejection itself was raised as unhandled.
   */
  lemma LateObserverOfRejection<T>(c: Cell<T>, a: Slot, b: Token, r: string)
    requires WellFormed(c) && c.state == Pending && c.onReject.None?
    ensures Run(c, [ThenOp(a, Some(b)), RejectOp(r)]).events == [Delivered(b, Reason(r))]
    ensures Run(c, [RejectOp(r), ThenOp(a, Some(b))]).events == []
    ensures Run(c, [RejectOp(r), ThenOp(a, Some(b))]).outcomes[0] == UnhandledRejection(r)
  {
    RunOfTwo(c, ThenOp(a, Some(b)), RejectOp(r));
    RunOfTwo(c, RejectOp(r), ThenOp(a, Some(b)));
  }

  /** An unhandled rejection is raised at most once in a promise's life. */
  lemma {:induction false} UnhandledRaisedAtMostOnce<T>(c: Cell<T>, ops: seq<Op<T>>)
    requires WellFormed(c)
    ensures CountUnhandled(Run(c, ops).outcomes) <= (if c.state == Pending then 1 else 0)
    decreases |ops|
  {
    if ops != [] {
      var s := Apply(c, ops[0]);
      var t := Run(c, ops);
      UnhandledRaisedAtMostOnce(s.cell, ops[1..]);
      assert t.outcomes[0] == s.outcome;
      assert t.outcomes[1..] == Run(s.cell, ops[1..]).outcomes;
    }
  }

  /**
   * Each registration invokes at most one callback, and settlement at most one more.
   */
  lemma {:induction false} DeliveryCountBound<T>(c: Cell<T>, ops: seq<Op<T>>)
    requires WellFormed(c)
    ensures |Run(c, ops).events| <= CountRegistrations(ops) + (if c.state == Pending then 1 else 0)
    decreases |ops|
  {
    if ops != [] {
      DeliveryCountBound(Apply(c, ops[0]).cell, ops[1..]);
    }
  }

  // ---------------------------------------------------------------------------
  // The promise object

  class Promise<T> {
    var state: State
    var value: Option<T>
    var onResolveCallback: Slot
    var onRejectCallback: Slot
    /** Every callback invocation so far, in order. */
    ghost var log: seq<Event<T>>

    function Snapshot(): Cell<T>
      reads this
    {
      Cell(state, value, onResolveCallback, onRejectCallback)
    }

    ghost predicate Valid()
      reads this
    {
      WellFormed(Snapshot())
    }

    /** A promise starts pending; its executor is not part of this model. */
    constructor ()
      ensures Valid() && Snapshot() == Init() && log == []
    {
      state := Pending;
      value := None;
      onResolveCallback := None;
      onRejectCallback := None;
      log := [];
    }

    /** `then(onResolve, onReject)`: returns this same promise for chaining. */
    method Then(onResolve: Slot, onReject: Slot) returns (self: Promise<T>, outcome: Outcome)
      requires Valid()
      modifies this
      ensures self == this && Valid()
      ensures var s := ThenStep(old(Snapshot()), onResolve, onReject);
        Snapshot() == s.cell && log == old(log) + s.events && outcome == s.outcome
    {
      self := this;
      outcome := Returned;
      if state == Fulfilled {
        if onResolve.Some? {
          log := log + [Delivered(onResolve.value, Value(value.value))];
        } else {
          outcome := BadFunctionCall;
        }
      } else if state == Pending {
        onResolveCallback := onResolve;
        onRejectCallback := onReject;
      }
    }

    /** `catch_error(onReject)`: `then(nullptr, onReject)`, returning this same promise. */
    method CatchError(onReject: Slot) returns (self: Promise<T>, outcome: Outcome)
      requires Valid()
      modifies this
      ensures self == this && Valid()
      ensures var s := CatchErrorStep(old(Snapshot()), onReject);
        Snapshot() == s.cell && log == old(log) + s.events && outcome == s.outcome
    {
      self, outcome := Then(None, onReject);
    }

    /** `_resolve(v)`. */
    method Resolve(v: T)
      requires Valid()
      modifies this
      ensures Valid()
      ensures var s := ResolveStep(old(Snapshot()), v);
        Snapshot() == s.cell && log == old(log) + s.events
      ensures old(state) != Pending ==> unchanged(this)
    {
      if state != Pending {
        return;
      }
      state := Fulfilled;
      value := Some(v);
      if onResolveCallback.Some? {
        log := log + [Delivered(onResolveCallback.value, Value(value.value))];
        onResolveCallback := None;
      }
    }

    /** `_reject(reason)`. */
    method Reject(reason: string) returns (outcome: Outcome)
      requires Valid()
      modifies this
      ensures Valid()
      ensures var s := RejectStep(old(Snapshot()), reason);
        Snapshot() == s.cell && log == old(log) + s.events && outcome == s.outcome
      ensures old(state) != Pending ==> unchanged(this)
      ensures outcome.UnhandledRejection? ==> state == Rejected && outcome.reason == reason
    {
      outcome := Returned;
      if state != Pending {
        return;
      }
      state := Rejected;
      if onRejectCallback.Some? {
        log := log + [Delivered(onRejectCallback.value, Reason(reason))];
        onRejectCallback := None;
      } else {
        outcome := UnhandledRejection(reason);
      }
    }

    /** `_handle_exception(message)`, the check and the rejection taken as one step. */
    method HandleException(message: string) returns (outcome: Outcome)
      requires Valid()
      modifies this
      ensures Valid()
      ensures var s := HandleExceptionStep(old(Snapshot()), message);
        Snapshot() == s.cell && log == old(log) + s.events && outcome == s.outcome
      ensures old(onRejectCallback).None? ==> unchanged(this) && outcome == Rethrown
    {
      var hasRejectCallback := onRejectCallback.Some?;
      if hasRejectCallback {
        outcome := Reject(message);
      } else {
        outcome := Rethrown;
      }
    }

    /** The executor's fault boundary: a caught fault goes to `_handle_exception`. */
    method ExecutorThrew(fault: Fault) returns (outcome: Outcome)
      requires Valid()
      modifies this
      ensures Valid()
      ensures var s := HandleExceptionStep(old(Snapshot()), FaultMessage(fault));
        Snapshot() == s.cell && log == old(log) + s.events && outcome == s.outcome
      ensures fault.NonStandard? && old(state) == Pending && old(onRejectCallback).Some? ==>
        log == old(log) + [Delivered(old(onRejectCallback).value, Reason("Non-exception type thrown"))]
    {
      outcome := HandleException(FaultMessage(fault));
    }
  }

  /**
   * The demonstration program: `then(h)` chained with `catch_error(e)`, registered
   * before the executor throws a `std::runtime_error`. The catch wiped `h`, and `e`
   * receives the exception's message.
   */
  method DemoMain() returns (state: State, outcome: Outcome, ghost events: seq<Event<int>>)
    ensures state == Rejected && outcome == Returned
    ensures events == [Delivered(2, Reason("Runtime error occured"))]
  {
    var p := new Promise<int>();
    var q, o1 := p.Then(Some(1), None);
    var r, o2 := q.CatchError(Some(2));
    outcome := p.ExecutorThrew(StdException("Runtime error occured"));
    state := p.state;
    events := p.log;
  }
}
