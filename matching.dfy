/** The comparison callback of one interface binding as a function of the
    error counter and the state of the binding's expected source, and runs of
    that callback over a stream of delivered transactions. */
module Matching {
  import opened Transactions

  /** The state of an expected source. A list is consumed from the front; a
      callable is described by the results of its successive calls (a call
      past the end raises) and the number of calls made so far. */
  datatype SourceState =
    | Queue(items: seq<Txn>)
    | Gen(results: seq<Txn>, calls: nat)
  {
    /** Python truthiness of the expected-output object: an empty list is
        false, a function object is always true. */
    predicate Truthy() {
      Queue? ==> items != []
    }
  }

  /** Getting the next expected value: a call of the callable, or `pop(0)`. */
  datatype Fetched = Got(expected: Txn) | Raised

  function Fetch(s: SourceState): (r: (Fetched, SourceState))
    requires s.Truthy()
    ensures s.Queue? ==> r.0.Got? && r.1.Queue? && s.items == [r.0.expected] + r.1.items
    ensures s.Gen? ==> r.1.Gen? && r.1.results == s.results && r.1.calls == s.calls + 1
    ensures s.Gen? && s.calls < |s.results| ==> r.0 == Got(s.results[s.calls])
    ensures s.Gen? && s.calls >= |s.results| ==> r.0 == Raised
  {
    match s
    case Queue(items) => (Got(items[0]), Queue(items[1..]))
    case Gen(results, calls) =>
      (if calls < |results| then Got(results[calls]) else Raised, Gen(results, calls + 1))
  }

  datatype StepResult = StepResult(outcome: Outcome, errors: nat, source: SourceState)

  /** One run of the comparison callback: the exhaustion check, the fetch,
      the type check and the equality check, in that order. */
  function Step(errors: nat, s: SourceState, t: Txn): (r: StepResult)
    ensures r.errors == errors + Cost(r.outcome)
    ensures r.outcome.NothingExpected() <==> !s.Truthy()
    ensures !s.Truthy() ==> r.outcome == NothingExpectedFor(t) && r.source == s
    ensures r.outcome == SourceRaised <==> s.Gen? && s.calls >= |s.results|
  {
    if !s.Truthy() then StepResult(NothingExpectedFor(t), errors + 1, s)
    else
      var (f, s') := Fetch(s);
      match f
      case Raised => StepResult(SourceRaised, errors, s')
      case Got(e) =>
        var o := Compare(t, e);
        StepResult(o, errors + Cost(o), s')
  }

  /** An arrival on an empty list counts one error, reports an unexpected
      transaction (or, for a tuple other than a one-element one, fails to
      format the report) and leaves the list empty. */
  lemma EmptyListUnexpected(errors: nat, t: Txn)
    ensures var r := Step(errors, Queue([]), t);
      && r.errors == errors + 1
      && r.source == Queue([])
      && r.outcome.NothingExpected()
      && (r.outcome == Unexpected <==> t.FormatsAlone())
  {
  }

  /** On a non-empty list exactly the first element is removed and is what
      the transaction is compared with, whatever the comparison gives. */
  lemma ListPopsFront(errors: nat, items: seq<Txn>, t: Txn)
    requires items != []
    ensures var r := Step(errors, Queue(items), t);
      && items == [items[0]] + r.source.items
      && r.source == Queue(items[1..])
      && r.outcome == Compare(t, items[0])
  {
  }

  /** A callable source is called exactly once per arrival and never gives
      the unexpected-transaction outcome; when it raises, no error is
      counted. */
  lemma CallableCalledOnce(errors: nat, results: seq<Txn>, calls: nat, t: Txn)
    ensures var r := Step(errors, Gen(results, calls), t);
      && r.source == Gen(results, calls + 1)
      && !r.outcome.NothingExpected()
      && (calls < |results| ==> r.outcome == Compare(t, results[calls]))
      && (calls >= |results| ==> r.errors == errors)
  {
  }

  /** When the fetched value has another type, one error and a type mismatch,
      whether or not the values are equal. */
  lemma TypeMismatchCounted(errors: nat, s: SourceState, t: Txn, e: Txn)
    requires s.Truthy() && Fetch(s).0 == Got(e)
    requires t.kind != e.kind
    ensures Step(errors, s, t) == StepResult(WrongType, errors + 1, Fetch(s).1)
  {
  }

  /** Same type, different value: one error and a value mismatch. */
  lemma ValueMismatchCounted(errors: nat, s: SourceState, t: Txn, e: Txn)
    requires s.Truthy() && Fetch(s).0 == Got(e)
    requires t.kind == e.kind && t.payload != e.payload
    ensures Step(errors, s, t) == StepResult(Differed, errors + 1, Fetch(s).1)
  {
  }

  /** An equal transaction leaves the counter as it was and raises no
      TestFailed. */
  lemma EqualNotCounted(errors: nat, s: SourceState, t: Txn)
    requires s.Truthy() && Fetch(s).0 == Got(t)
    ensures var r := Step(errors, s, t);
      && r.errors == errors
      && !r.outcome.Failed()
      && (r.outcome == Match <==> t.kind.sized)
  {
  }

  datatype RunResult = RunResult(outcomes: seq<Outcome>, errors: nat, source: SourceState)

  /** The callback run once per delivered transaction, in delivery order.
      Whether a raised failure ends the test is up to the caller, so the run
      goes on after one. */
  function Run(errors: nat, s: SourceState, ts: seq<Txn>): (r: RunResult)
    ensures |r.outcomes| == |ts|
    ensures errors <= r.errors <= errors + |ts|
    decreases |ts|
  {
    if ts == [] then RunResult([], errors, s)
    else
      var st := Step(errors, s, ts[0]);
      var rest := Run(st.errors, st.source, ts[1..]);
      RunResult([st.outcome] + rest.outcomes, rest.errors, rest.source)
  }

  /** The number of outcomes that count an error. */
  function Failures(os: seq<Outcome>): nat {
    if os == [] then 0 else Cost(os[0]) + Failures(os[1..])
  }

  /** The counter grows by exactly the number of failing outcomes. */
  lemma {:induction false} RunCountsFailures(errors: nat, s: SourceState, ts: seq<Txn>)
    ensures Run(errors, s, ts).errors == errors + Failures(Run(errors, s, ts).outcomes)
    decreases |ts|
  {
    if ts != [] {
      var st := Step(errors, s, ts[0]);
      RunCountsFailures(st.errors, st.source, ts[1..]);
      assert Run(errors, s, ts).outcomes[1..] == Run(st.errors, st.source, ts[1..]).outcomes;
    }
  }

  /** Delivering `a` and then `b` is running over `a` and continuing from
      where that left off. */
  lemma {:induction false} RunAppend(errors: nat, s: SourceState, a: seq<Txn>, b: seq<Txn>)
    ensures var ra := Run(errors, s, a);
      var rb := Run(ra.errors, ra.source, b);
      Run(errors, s, a + b) == RunResult(ra.outcomes + rb.outcomes, rb.errors, rb.source)
    decreases |a|
  {
    if a == [] {
      assert a + b == b;
    } else {
      var st := Step(errors, s, a[0]);
      assert (a + b)[0] == a[0];
      assert (a + b)[1..] == a[1..] + b;
      RunAppend(st.errors, st.source, a[1..], b);
      var ra' := Run(st.errors, st.source, a[1..]);
      var rb := Run(ra'.errors, ra'.source, b);
      assert [st.outcome] + (ra'.outcomes + rb.outcomes) == ([st.outcome] + ra'.outcomes) + rb.outcomes;
    }
  }

  /** Delivering the listed transactions in order, each equal to its
      counterpart, counts no error, raises no TestFailed and consumes exactly
      those elements. */
  lemma {:induction false} InOrderDrains(errors: nat, expected: seq<Txn>, rest: seq<Txn>)
    ensures var r := Run(errors, Queue(expected + rest), expected);
      && r.errors == errors
      && r.source == Queue(rest)
      && (forall i :: 0 <= i < |r.outcomes| ==> !r.outcomes[i].Failed())
      && (forall i :: 0 <= i < |r.outcomes| && expected[i].kind.sized ==> r.outcomes[i] == Match)
    decreases |expected|
  {
    if expected == [] {
      assert expected + rest == rest;
    } else {
      var q := expected + rest;
      assert q[0] == expected[0];
      assert q[1..] == expected[1..] + rest;
      var st := Step(errors, Queue(q), expected[0]);
      InOrderDrains(errors, expected[1..], rest);
    }
  }

  /** N expected, N equal deliveries and one more: the list ends empty, the
      last delivery is unexpected and the counter has risen by exactly one. */
  lemma InOrderThenExtra(errors: nat, expected: seq<Txn>, t: Txn)
    ensures var r := Run(errors, Queue(expected), expected + [t]);
      && r.errors == errors + 1
      && r.source == Queue([])
      && r.outcomes[|expected|] == NothingExpectedFor(t)
      && (forall i :: 0 <= i < |expected| ==> !r.outcomes[i].Failed())
  {
    InOrderDrains(errors, expected, []);
    assert expected + [] == expected;
    RunAppend(errors, Queue(expected), expected, [t]);
  }

  /** Strictly in order: delivery i is compared with element i while the list
      lasts, and every delivery after that is unexpected; each delivery takes
      one element while there is one. */
  lemma {:induction false} ListConsumedOnePerDelivery(errors: nat, items: seq<Txn>, ts: seq<Txn>)
    ensures var r := Run(errors, Queue(items), ts);
      && r.source == Queue(items[if |ts| <= |items| then |ts| else |items|..])
      && (forall i :: 0 <= i < |ts| ==> (r.outcomes[i].NothingExpected() <==> i >= |items|))
      && (forall i :: 0 <= i < |ts| && i < |items| ==> r.outcomes[i] == Compare(ts[i], items[i]))
      && (forall i :: |items| <= i < |ts| ==> r.outcomes[i] == NothingExpectedFor(ts[i]))
    decreases |ts|
  {
    if ts != [] {
      var st := Step(errors, Queue(items), ts[0]);
      var rest := Run(st.errors, st.source, ts[1..]);
      var tail := if items == [] then [] else items[1..];
      ListConsumedOnePerDelivery(st.errors, tail, ts[1..]);
      var r := Run(errors, Queue(items), ts);
      forall i | 0 <= i < |ts|
        ensures r.outcomes[i].NothingExpected() <==> i >= |items|
        ensures i < |items| ==> r.outcomes[i] == Compare(ts[i], items[i])
        ensures i >= |items| ==> r.outcomes[i] == NothingExpectedFor(ts[i])
      {
        if i > 0 {
          assert r.outcomes[i] == rest.outcomes[i - 1];
          assert ts[i] == ts[1..][i - 1];
          if i < |items| {
            assert items[i] == tail[i - 1];
          }
        }
      }
    }
  }

  /** A callable source is called once per delivery, in lockstep: delivery i
      is compared with the result of call `calls + i`, or the call raises once
      the results have run out; a callable source never reports an unexpected
      transaction. */
  lemma {:induction false} CallableLockstep(errors: nat, results: seq<Txn>, calls: nat, ts: seq<Txn>)
    ensures var r := Run(errors, Gen(results, calls), ts);
      && r.source == Gen(results, calls + |ts|)
      && (forall i :: 0 <= i < |ts| ==> !r.outcomes[i].NothingExpected())
      && (forall i :: 0 <= i < |ts| && calls + i < |results| ==> r.outcomes[i] == Compare(ts[i], results[calls + i]))
      && (forall i :: 0 <= i < |ts| && calls + i >= |results| ==> r.outcomes[i] == SourceRaised)
    decreases |ts|
  {
    if ts != [] {
      var st := Step(errors, Gen(results, calls), ts[0]);
      var rest := Run(st.errors, st.source, ts[1..]);
      CallableLockstep(st.errors, results, calls + 1, ts[1..]);
      var r := Run(errors, Gen(results, calls), ts);
      forall i | 0 <= i < |ts|
        ensures !r.outcomes[i].NothingExpected()
        ensures calls + i < |results| ==> r.outcomes[i] == Compare(ts[i], results[calls + i])
        ensures calls + i >= |results| ==> r.outcomes[i] == SourceRaised
      {
        if i > 0 {
          assert r.outcomes[i] == rest.outcomes[i - 1];
          assert ts[i] == ts[1..][i - 1];
        }
      }
    }
  }
}
