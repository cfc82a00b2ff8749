/**
 * The batch aggregator behind `all(promisesArray)`.
 *
 * The aggregator keeps a fixed `total`, a `progress` counter, one result slot
 * per input promise and a sparse map of errors, and dispatches events as each
 * promise settles. Every settlement callback is one deterministic step; the
 * host's promise and microtask machinery only decides the ORDER of the steps,
 * so the order is left to the caller. That each promise settles once is the
 * precondition that its slot is still pending.
 *
 * The first half states the step on values (`State`, `Settle`, `Run`) and
 * proves what the whole batch guarantees; the class `Aggregator` at the end
 * performs the same step by updating its fields in place.
 */
module Batch {

  import opened Options

  /** One entry of `results`: not yet settled (a hole), a value, or the `null` of a failure. */
  datatype Slot<V> = Pending | Value(value: V) | Null

  /** How a promise settled. */
  datatype Outcome<V, E> = Fulfilled(value: V) | Rejected(reason: E)

  /** The promise at `index` settled with `outcome`. */
  datatype Settlement<V, E> = Settlement(index: nat, outcome: Outcome<V, E>)

  /** A dispatched event: its name and its `detail`. */
  datatype Event<V, E> =
    | Progress(count: nat)
    | Resolve(index: nat, result: V)
    | Reject(index: nat, error: E)
    | Finish(results: seq<Slot<V>>, errors: map<nat, E>)

  /** The closure variables of one `all` call, together with the events dispatched so far. */
  datatype State<V, E> = State(
    total: nat,
    progress: nat,
    results: seq<Slot<V>>,
    errors: map<nat, E>,
    log: seq<Event<V, E>>)

  /** What a settlement writes into its result slot. */
  function SlotOf<V, E>(o: Outcome<V, E>): (s: Slot<V>)
    ensures !s.Pending?
    ensures s.Value? <==> o.Fulfilled?
    ensures o.Fulfilled? ==> s.value == o.value
  {
    match o
    case Fulfilled(v) => Value(v)
    case Rejected(_) => Null
  }

  /** The per-item event of a settlement: `resolve` with `{ index, result }` or `reject` with `{ index, error }`. */
  function ItemEvent<V, E>(st: Settlement<V, E>): (e: Event<V, E>)
    ensures e.Resolve? <==> st.outcome.Fulfilled?
    ensures e.Reject? <==> st.outcome.Rejected?
    ensures e.Resolve? ==> e.index == st.index && e.result == st.outcome.value
    ensures e.Reject? ==> e.index == st.index && e.error == st.outcome.reason
  {
    match st.outcome
    case Fulfilled(v) => Resolve(st.index, v)
    case Rejected(e) => Reject(st.index, e)
  }

  /** The number of slots that are no longer pending. */
  function Settled<V>(r: seq<Slot<V>>): (n: nat)
    ensures n <= |r|
    ensures n == |r| <==> forall k | 0 <= k < |r| :: !r[k].Pending?
  {
    if r == [] then 0
    else Settled(r[..|r| - 1]) + (if r[|r| - 1].Pending? then 0 else 1)
  }

  lemma {:induction false} SettledUpdate<V>(r: seq<Slot<V>>, i: nat, x: Slot<V>)
    requires i < |r| && r[i].Pending? && !x.Pending?
    ensures Settled(r[i := x]) == Settled(r) + 1
  {
    var r' := r[i := x];
    if i < |r| - 1 {
      assert r'[..|r'| - 1] == r[..|r| - 1][i := x];
      SettledUpdate(r[..|r| - 1], i, x);
    } else {
      assert r'[..|r'| - 1] == r[..|r| - 1];
    }
  }

  /** The number of `finish` events in a log. */
  function FinishCount<V, E>(log: seq<Event<V, E>>): nat {
    if log == [] then 0
    else FinishCount(log[..|log| - 1]) + (if log[|log| - 1].Finish? then 1 else 0)
  }

  lemma {:induction false} FinishCountAppend<V, E>(a: seq<Event<V, E>>, b: seq<Event<V, E>>)
    ensures FinishCount(a + b) == FinishCount(a) + FinishCount(b)
  {
    if b != [] {
      assert (a + b)[..|a + b| - 1] == a + b[..|b| - 1];
      FinishCountAppend(a, b[..|b| - 1]);
    } else {
      assert a + b == a;
    }
  }

  /**
   * The invariant of the aggregator: the inputs were non-empty, there is one
   * slot per input, `progress` counts the settled slots, `errors` has a key
   * exactly at the slots that hold the `null` of a failure, and `finish` has
   * been dispatched once if every slot is settled and never otherwise.
   */
  ghost predicate Consistent<V, E>(s: State<V, E>) {
    && s.total >= 1
    && |s.results| == s.total
    && s.progress == Settled(s.results)
    && (forall i | i in s.errors :: i < s.total && s.results[i].Null?)
    && (forall i | 0 <= i < s.total && s.results[i].Null? :: i in s.errors)
    && FinishCount(s.log) == (if s.progress == s.total then 1 else 0)
  }

  /** The state right after `all` returns: nothing settled, nothing dispatched. */
  function Initial<V, E>(total: nat): (s: State<V, E>)
    requires total >= 1
    ensures Consistent(s)
    ensures s.total == total && s.progress == 0 && s.log == [] && s.errors == map[]
    ensures forall i | 0 <= i < total :: s.results[i] == Pending
  {
    var results := seq(total, _ => Pending);
    assert Settled(results) == 0 by {
      if Settled(results) != 0 {
        PendingNotSettled(results);
      }
    }
    State(total, 0, results, map[], [])
  }

  lemma {:induction false} PendingNotSettled<V>(r: seq<Slot<V>>)
    requires forall k | 0 <= k < |r| :: r[k].Pending?
    ensures Settled(r) == 0
  {
    if r != [] {
      PendingNotSettled(r[..|r| - 1]);
    }
  }

  ghost predicate IsPending<V, E>(s: State<V, E>, i: nat) {
    i < |s.results| && s.results[i].Pending?
  }

  /**
   * The events one settlement dispatches, in order: `progress` with the new
   * count, then `resolve` or `reject`, then `finish` exactly when the count
   * has reached `total`.
   */
  function StepEvents<V, E>(st: Settlement<V, E>, progress: nat, total: nat,
                            results: seq<Slot<V>>, errors: map<nat, E>): (events: seq<Event<V, E>>)
    ensures |events| >= 2 && events[0] == Progress(progress) && events[1] == ItemEvent(st)
    ensures FinishCount(events) == (if progress == total then 1 else 0)
    ensures progress == total ==> events == [Progress(progress), ItemEvent(st), Finish(results, errors)]
    ensures progress != total ==> events == [Progress(progress), ItemEvent(st)]
  {
    var first: seq<Event<V, E>> := [Progress(progress)];
    var item := first + [ItemEvent(st)];
    assert first[..0] == [] && item[..1] == first;
    assert FinishCount(first) == 0;
    if progress == total then
      var events := item + [Finish(results, errors)];
      assert events[..2] == item;
      events
    else
      item
  }

  /**
   * One settlement callback (the body queued by `then` or by `catch`):
   * write the slot (and the error), increment `progress`, dispatch
   * `progress`, then `resolve` or `reject`, then `finish` if every promise
   * has now settled.
   */
  function Settle<V, E>(s: State<V, E>, st: Settlement<V, E>): (s': State<V, E>)
    requires Consistent(s) && IsPending(s, st.index)
    ensures Consistent(s')
    ensures s'.total == s.total && s'.progress == s.progress + 1 <= s.total
    ensures s'.results == s.results[st.index := SlotOf(st.outcome)]
    ensures forall j | 0 <= j < |s.results| && j != st.index :: s'.results[j] == s.results[j]
    ensures st.outcome.Fulfilled? ==> s'.errors == s.errors
    ensures st.outcome.Rejected? ==> s'.errors == s.errors[st.index := st.outcome.reason]
    ensures s'.log == s.log + StepEvents(st, s'.progress, s'.total, s'.results, s'.errors)
  {
    var i := st.index;
    var results := s.results[i := SlotOf(st.outcome)];
    var errors := if st.outcome.Rejected? then s.errors[i := st.outcome.reason] else s.errors;
    var progress := s.progress + 1;
    var events := StepEvents(st, progress, s.total, results, errors);
    SettledUpdate(s.results, i, SlotOf(st.outcome));
    FinishCountAppend(s.log, events);
    ErrorsFollowNulls(s, st, results, errors);
    State(s.total, progress, results, errors, s.log + events)
  }

  /** After a settlement, `errors` is still keyed exactly at the `null` slots. */
  lemma ErrorsFollowNulls<V, E>(s: State<V, E>, st: Settlement<V, E>,
                                results: seq<Slot<V>>, errors: map<nat, E>)
    requires Consistent(s) && IsPending(s, st.index)
    requires results == s.results[st.index := SlotOf(st.outcome)]
    requires errors == if st.outcome.Rejected? then s.errors[st.index := st.outcome.reason] else s.errors
    ensures forall i | i in errors :: i < s.total && results[i].Null?
    ensures forall i | 0 <= i < s.total && results[i].Null? :: i in errors
  {
  }

  /** The settlements name distinct slots, each still pending in `s`. */
  ghost predicate Schedulable<V, E>(s: State<V, E>, sts: seq<Settlement<V, E>>) {
    && (forall k | 0 <= k < |sts| :: IsPending(s, sts[k].index))
    && (forall k, l | 0 <= k < l < |sts| :: sts[k].index != sts[l].index)
  }

  lemma SettleKeepsSchedulable<V, E>(s: State<V, E>, sts: seq<Settlement<V, E>>)
    requires Consistent(s) && sts != [] && Schedulable(s, sts)
    ensures Schedulable(Settle(s, sts[0]), sts[1..])
  {
    var s1 := Settle(s, sts[0]);
    forall k | 0 <= k < |sts| - 1
      ensures IsPending(s1, sts[1..][k].index)
    {
      assert sts[0].index != sts[k + 1].index;
    }
  }

  /** The settlements applied one after another, in the order given. */
  function Run<V, E>(s: State<V, E>, sts: seq<Settlement<V, E>>): (s': State<V, E>)
    requires Consistent(s) && Schedulable(s, sts)
    ensures Consistent(s')
    ensures s'.total == s.total && s'.progress == s.progress + |sts| <= s.total
    decreases |sts|
  {
    if sts == [] then s
    else
      SettleKeepsSchedulable(s, sts);
      Run(Settle(s, sts[0]), sts[1..])
  }

  /** The outcome with which the schedule settles slot `j`, if it does. */
  function OutcomeOf<V, E>(sts: seq<Settlement<V, E>>, j: nat): Option<Outcome<V, E>> {
    if sts == [] then None
    else if sts[0].index == j then Some(sts[0].outcome)
    else OutcomeOf(sts[1..], j)
  }

  lemma {:induction false} OutcomeOfAbsent<V, E>(sts: seq<Settlement<V, E>>, j: nat)
    requires forall k | 0 <= k < |sts| :: sts[k].index != j
    ensures OutcomeOf(sts, j) == None
  {
    if sts != [] {
      OutcomeOfAbsent(sts[1..], j);
    }
  }

  /** A slot written by the schedule holds what its settlement wrote; any other is untouched. */
  lemma {:induction false} RunSlot<V, E>(s: State<V, E>, sts: seq<Settlement<V, E>>, j: nat)
    requires Consistent(s) && Schedulable(s, sts) && j < s.total
    decreases |sts|
    ensures Run(s, sts).results[j] == match OutcomeOf(sts, j)
                                       case None => s.results[j]
                                       case Some(o) => SlotOf(o)
  {
    if sts != [] {
      var s1 := Settle(s, sts[0]);
      SettleKeepsSchedulable(s, sts);
      RunSlot(s1, sts[1..], j);
      if sts[0].index == j {
        forall k | 0 <= k < |sts| - 1 ensures sts[1..][k].index != j {
          assert sts[0].index != sts[k + 1].index;
        }
        OutcomeOfAbsent(sts[1..], j);
      }
    }
  }

  /** `errors` gains a key exactly where the schedule rejects, holding the reason. */
  lemma {:induction false} RunErrors<V, E>(s: State<V, E>, sts: seq<Settlement<V, E>>, j: nat)
    requires Consistent(s) && Schedulable(s, sts)
    ensures var f := Run(s, sts);
      match OutcomeOf(sts, j)
      case None => (j in f.errors <==> j in s.errors) && (j in s.errors ==> f.errors[j] == s.errors[j])
      case Some(o) => (j in f.errors <==> o.Rejected?) && (o.Rejected? ==> f.errors[j] == o.reason)
    decreases |sts|
  {
    if sts != [] {
      var s1 := Settle(s, sts[0]);
      SettleKeepsSchedulable(s, sts);
      RunErrors(s1, sts[1..], j);
      if sts[0].index == j {
        forall k | 0 <= k < |sts| - 1 ensures sts[1..][k].index != j {
          assert sts[0].index != sts[k + 1].index;
        }
        OutcomeOfAbsent(sts[1..], j);
      }
    }
  }

  /** Running a schedule in two parts is running it whole. */
  lemma {:induction false} RunAppend<V, E>(s: State<V, E>, a: seq<Settlement<V, E>>, b: seq<Settlement<V, E>>)
    requires Consistent(s) && Schedulable(s, a + b)
    ensures Schedulable(s, a) && Schedulable(Run(s, a), b)
    ensures Run(s, a + b) == Run(Run(s, a), b)
    decreases |a|
  {
    SchedulablePrefix(s, a, b);
    if a != [] {
      var s1 := Settle(s, a[0]);
      assert (a + b)[0] == a[0] && (a + b)[1..] == a[1..] + b;
      SettleKeepsSchedulable(s, a + b);
      RunAppend(s1, a[1..], b);
      assert Run(s, a + b) == Run(s1, a[1..] + b);
      assert Run(s, a) == Run(s1, a[1..]);
    } else {
      assert a + b == b;
    }
  }

  lemma SchedulablePrefix<V, E>(s: State<V, E>, a: seq<Settlement<V, E>>, b: seq<Settlement<V, E>>)
    requires Schedulable(s, a + b)
    ensures Schedulable(s, a)
  {
    assert forall k | 0 <= k < |a| :: a[k] == (a + b)[k];
  }

  /** Events once dispatched stay in the log: a run only appends. */
  lemma {:induction false} RunExtendsLog<V, E>(s: State<V, E>, sts: seq<Settlement<V, E>>)
    requires Consistent(s) && Schedulable(s, sts)
    ensures s.log <= Run(s, sts).log
    decreases |sts|
  {
    if sts != [] {
      SettleKeepsSchedulable(s, sts);
      var s1 := Settle(s, sts[0]);
      RunExtendsLog(s1, sts[1..]);
      assert s.log <= s1.log;
    }
  }

  /** Before the last promise settles, `finish` has not been dispatched. */
  lemma NoFinishBeforeLast<V, E>(total: nat, sts: seq<Settlement<V, E>>)
    requires total >= 1 && Schedulable(Initial(total), sts) && |sts| < total
    ensures Run(Initial(total), sts).progress == |sts|
    ensures FinishCount(Run(Initial(total), sts).log) == 0
  {
  }

  /** A slot that no settlement names stays pending, so `finish` is never dispatched. */
  lemma {:induction false} UnsettledSlotBlocksFinish<V, E>(total: nat, sts: seq<Settlement<V, E>>, h: nat)
    requires total >= 1 && Schedulable(Initial(total), sts) && h < total
    requires forall k | 0 <= k < |sts| :: sts[k].index != h
    ensures Run(Initial(total), sts).results[h] == Pending
    ensures Run(Initial(total), sts).progress < total
    ensures FinishCount(Run(Initial(total), sts).log) == 0
  {
    var s0 := Initial(total);
    OutcomeOfAbsent(sts, h);
    RunSlot(s0, sts, h);
    var f := Run(s0, sts);
    assert f.results[h] == Pending;
    assert f.progress == Settled(f.results);
    assert f.progress != total;
  }

  /**
   * When every promise of the batch settles once, in any order: `progress`
   * ends at `total`; `finish` is dispatched exactly once, by the last
   * settlement, right after its `progress` and `resolve`/`reject` events,
   * carrying the final results and errors; every slot then holds its
   * promise's value or `null`; and `errors` has a key exactly at the
   * rejected indices, holding their reasons.
   */
  lemma {:induction false} CompleteBatch<V, E>(total: nat, sts: seq<Settlement<V, E>>)
    requires total >= 1 && Schedulable(Initial(total), sts) && |sts| == total
    ensures var f := Run(Initial(total), sts);
      && f.total == total && f.progress == total
      && FinishCount(f.log) == 1
      && (forall j | 0 <= j < total ::
            OutcomeOf(sts, j).Some? && f.results[j] == SlotOf(OutcomeOf(sts, j).value))
      && (forall j: nat :: j in f.errors <==> OutcomeOf(sts, j).Some? && OutcomeOf(sts, j).value.Rejected?)
      && (forall j | j in f.errors :: f.errors[j] == OutcomeOf(sts, j).value.reason)
    ensures var before := Run(Initial(total), sts[..total - 1]);
      && FinishCount(before.log) == 0
      && Run(Initial(total), sts).log
           == before.log + [Progress(total), ItemEvent(sts[total - 1]),
                            Finish(Run(Initial(total), sts).results, Run(Initial(total), sts).errors)]
  {
    var s0: State<V, E> := Initial(total);
    var f := Run(s0, sts);
    forall j | 0 <= j < total
      ensures OutcomeOf(sts, j).Some? && f.results[j] == SlotOf(OutcomeOf(sts, j).value)
    {
      RunSlot(s0, sts, j);
      assert !f.results[j].Pending?;
    }
    forall j: nat
      ensures j in f.errors <==> OutcomeOf(sts, j).Some? && OutcomeOf(sts, j).value.Rejected?
      ensures j in f.errors ==> f.errors[j] == OutcomeOf(sts, j).value.reason
    {
      RunErrors(s0, sts, j);
    }
    var a, b := sts[..total - 1], sts[total - 1..];
    assert sts == a + b;
    RunAppend(s0, a, b);
    var before := Run(s0, a);
    assert b[1..] == [];
    assert f == Settle(before, b[0]);
  }

  /**
   * The aggregator created by one `all` call: the closure variables
   * `total`, `progress`, `results` and `errors`, and the events its
   * `dispatch` has sent so far. Each settle method is one settlement
   * callback; `Snapshot` is its value as a `State`.
   */
  class Aggregator<V, E> {
    const total: nat
    var progress: nat
    var results: seq<Slot<V>>
    var errors: map<nat, E>
    var log: seq<Event<V, E>>

    function Snapshot(): State<V, E>
      reads this
    {
      State(total, progress, results, errors, log)
    }

    ghost predicate Valid()
      reads this
    {
      Consistent(Snapshot())
    }

    /** The variables as `all` initialises them for `total` promises. */
    constructor (total: nat)
      requires total >= 1
      ensures Snapshot() == Initial(total)
      ensures Valid()
    {
      this.total := total;
      progress := 0;
      results := seq(total, _ => Pending);
      errors := map[];
      log := [];
      new;
      assert Snapshot() == Initial(total);
    }

    /** `dispatch(event, detail)`: the event is sent after all earlier ones. */
    method Dispatch(e: Event<V, E>)
      modifies this
      ensures log == old(log) + [e]
      ensures progress == old(progress) && results == old(results) && errors == old(errors)
    {
      log := log + [e];
    }

    /** The callback queued when the promise at `index` fulfils with `value`. */
    method SettleOk(index: nat, value: V)
      requires Valid() && IsPending(Snapshot(), index)
      modifies this
      ensures Snapshot() == Settle(old(Snapshot()), Settlement(index, Fulfilled(value)))
      ensures Valid()
      ensures progress == old(progress) + 1 <= total
      ensures results == old(results)[index := Value(value)] && errors == old(errors)
    {
      ghost var before, st := Snapshot(), Settlement(index, Fulfilled(value));
      ghost var after := Settle(before, st);
      results := results[index := Value(value)];
      progress := progress + 1;
      assert results == after.results && errors == after.errors && progress == after.progress;
      Dispatch(Progress(progress));
      Dispatch(Resolve(index, value));
      if progress == total {
        Dispatch(Finish(results, errors));
      }
      assert log == before.log + StepEvents(st, progress, total, results, errors);
    }

    /** The callback queued when the promise at `index` rejects with `error`. */
    method SettleErr(index: nat, error: E)
      requires Valid() && IsPending(Snapshot(), index)
      modifies this
      ensures Snapshot() == Settle(old(Snapshot()), Settlement(index, Rejected(error)))
      ensures Valid()
      ensures progress == old(progress) + 1 <= total
      ensures results == old(results)[index := Null] && errors == old(errors)[index := error]
    {
      ghost var before, st := Snapshot(), Settlement(index, Rejected(error));
      ghost var after := Settle(before, st);
      results := results[index := Null];
      errors := errors[index := error];
      progress := progress + 1;
      assert results == after.results && errors == after.errors && progress == after.progress;
      Dispatch(Progress(progress));
      Dispatch(Reject(index, error));
      if progress == total {
        Dispatch(Finish(results, errors));
      }
      assert log == before.log + StepEvents(st, progress, total, results, errors);
    }
  }
}
