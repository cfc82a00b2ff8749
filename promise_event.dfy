/**
 * The public surface of PromiseEvent: the constructor `PromiseEvent(func)`,
 * which validates the executor and bridges the settlement of its single
 * promise to one `resolve` or `reject` event, and `all(promisesArray)`, which
 * validates the array and hands back a fresh batch aggregator.
 *
 * A thrown `Error` is modelled as a `Threw(message)` result; the events are
 * appended to an event log instead of being sent through an `EventTarget`.
 */
module PromiseEvent {

  import opened Options
  import opened Validation
  import opened Errors
  import opened Batch

  /** A call either returns normally or throws an `Error` with a message. */
  datatype Thrown<T> = Returned(value: T) | Threw(message: string)

  /**
   * What `PromiseEvent(func)` does before any listener can be attached: it
   * throws the error of the failed executor check, or returns its API object,
   * with a promise exactly when the executor was accepted.
   */
  function Construction(func: Value): (r: Thrown<bool>)
    ensures r == Returned(false) <==> !Truthy(func)
    ensures r == Returned(true) <==> func.Function? && func.arity >= 2
    ensures r.Threw? <==> Main(func).Err?
    ensures r.Threw? ==> r.message == ErrorMessage(Main(func).code)
    ensures r.Threw? ==> CodeOf(r.message) == Some(if func.Function? then 11 else 10)
  {
    match Main(func)
    case Ok(hasPromise) => Returned(hasPromise)
    case Err(code) => Threw(ErrorMessage(code))
  }

  /**
   * What `all(promisesArray)` does synchronously: it throws the error of the
   * first failed array check, or returns an aggregator whose `total` is the
   * number of promises, at least one.
   */
  function Allocation(input: Value): (r: Thrown<nat>)
    ensures r.Returned? <==> input.Array? && input.items != [] && EveryPromise(input.items)
    ensures r.Returned? ==> r.value == |input.items| >= 1
    ensures r.Threw? <==> Validation.All(input).Err?
    ensures r.Threw? ==> r.message == ErrorMessage(Validation.All(input).code)
    ensures r.Threw? ==> CodeOf(r.message).Some? && CodeOf(r.message).value in {20, 21, 22, 23}
    ensures input.Undefined? ==> r.Threw? && CodeOf(r.message) == Some(20)
    ensures !input.Undefined? && !input.Array? ==> r.Threw? && CodeOf(r.message) == Some(21)
    ensures input == Array([]) ==> r.Threw? && CodeOf(r.message) == Some(22)
    ensures input.Array? && (exists k | 0 <= k < |input.items| :: input.items[k] == OtherItem) ==>
              r.Threw? && CodeOf(r.message) == Some(23)
  {
    match Validation.All(input)
    case Ok(_) => Returned(|input.items|)
    case Err(code) => Threw(ErrorMessage(code))
  }

  /** The settlements `forEach` can lead to: each names an element that is a promise. */
  ghost predicate Attached<V, E>(items: seq<Item>, sts: seq<Settlement<V, E>>) {
    forall k | 0 <= k < |sts| :: sts[k].index < |items| && items[sts[k].index] == PromiseItem
  }

  /**
   * A sparse array of promises passes validation, since `every` skips holes,
   * and `total` counts the holes; but `forEach` attaches no callback at a
   * hole, so whatever settles, `progress` stays below `total` and `finish`
   * is never dispatched.
   */
  lemma SparseBatchNeverFinishes<V, E>(items: seq<Item>, sts: seq<Settlement<V, E>>, h: nat)
    requires h < |items| && items[h] == Hole
    requires forall k | 0 <= k < |items| :: items[k] != OtherItem
    requires Schedulable(Initial(|items|), sts) && Attached(items, sts)
    ensures Allocation(Array(items)) == Returned(|items|)
    ensures Run(Initial(|items|), sts).progress < |items|
    ensures FinishCount(Run(Initial(|items|), sts).log) == 0
  {
    UnsettledSlotBlocksFinish(|items|, sts, h);
  }

  /** An event of the single-task bridge; its `detail` is the value or reason itself. */
  datatype TaskEvent<V, E> = ResolveEvent(value: V) | RejectEvent(reason: E)

  function CountResolves<V, E>(log: seq<TaskEvent<V, E>>): nat {
    if log == [] then 0 else CountResolves(log[1..]) + (if log[0].ResolveEvent? then 1 else 0)
  }

  function CountRejects<V, E>(log: seq<TaskEvent<V, E>>): nat {
    if log == [] then 0 else CountRejects(log[1..]) + (if log[0].RejectEvent? then 1 else 0)
  }

  /**
   * The object `PromiseEvent(func)` returns, reduced to what the model keeps:
   * whether `promise` is defined, and the events its `dispatch` has sent.
   */
  class Bridge<V, E> {
    const hasPromise: bool
    var log: seq<TaskEvent<V, E>>

    /** At most one event was sent, and only if there is a promise to settle. */
    ghost predicate Valid()
      reads this
    {
      |log| <= 1 && (log != [] ==> hasPromise)
    }

    constructor (hasPromise: bool)
      ensures this.hasPromise == hasPromise && log == [] && Valid()
    {
      this.hasPromise := hasPromise;
      log := [];
    }

    /** `dispatch(event, detail)` */
    method Dispatch(e: TaskEvent<V, E>)
      modifies this
      ensures log == old(log) + [e]
    {
      log := log + [e];
    }

    /**
     * The callback queued when the promise settles: a fulfilled promise sends
     * exactly one `resolve` with its value and no `reject`; a rejected one
     * exactly one `reject` with its reason and no `resolve`.
     */
    method Settle(o: Outcome<V, E>)
      requires Valid() && hasPromise && log == []
      modifies this
      ensures Valid() && |log| == 1
      ensures CountResolves(log) == (if o.Fulfilled? then 1 else 0)
      ensures CountRejects(log) == (if o.Rejected? then 1 else 0)
      ensures o.Fulfilled? ==> log[0] == ResolveEvent(o.value)
      ensures o.Rejected? ==> log[0] == RejectEvent(o.reason)
    {
      match o {
        case Fulfilled(v) => Dispatch(ResolveEvent(v));
        case Rejected(e) => Dispatch(RejectEvent(e));
      }
      assert log[1..] == [];
    }
  }

  /** `PromiseEvent(func)`: throws, or returns the API object with no event sent yet. */
  method New<V, E>(func: Value) returns (r: Thrown<Bridge<V, E>>)
    ensures Construction(func).Threw? ==> r == Threw(Construction(func).message)
    ensures Construction(func).Returned? ==>
              r.Returned? && fresh(r.value) && r.value.Valid() && r.value.log == []
              && r.value.hasPromise == Construction(func).value
  {
    match Construction(func)
    case Threw(m) =>
      r := Threw(m);
    case Returned(hasPromise) =>
      var b := new Bridge(hasPromise);
      r := Returned(b);
  }

  /** `all(promisesArray)`: throws, or returns a fresh aggregator with nothing settled. */
  method All<V, E>(input: Value) returns (r: Thrown<Aggregator<V, E>>)
    ensures Allocation(input).Threw? ==> r == Threw(Allocation(input).message)
    ensures Allocation(input).Returned? ==>
              r.Returned? && fresh(r.value) && r.value.Valid()
              && r.value.Snapshot() == Initial(Allocation(input).value)
  {
    match Allocation(input)
    case Threw(m) =>
      r := Threw(m);
    case Returned(total) =>
      var a := new Aggregator(total);
      r := Returned(a);
  }
}
