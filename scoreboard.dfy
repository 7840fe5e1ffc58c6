/** The scoreboard object: its error counter, the expected-output objects it
    consumes, and the registration of its comparison callback with a
    monitor. */
module Scoreboarding {
  import opened Transactions
  import opened Matching

  datatype Option<T> = None | Some(value: T)

  /** A Python list handed in as expected output. The scoreboard keeps a
      reference to it, so whoever filled it sees every `pop(0)`. */
  class ExpectedList {
    var items: seq<Txn>

    constructor (items: seq<Txn>)
      ensures this.items == items
    {
      this.items := items;
    }
  }

  /** A zero-argument callable handed in as expected output: `results` are
      what its successive calls return, a call past their end raises, and
      `calls` counts the calls made. */
  class ExpectedCallable {
    const results: seq<Txn>
    var calls: nat

    constructor (results: seq<Txn>)
      ensures this.results == results && calls == 0
    {
      this.results := results;
      calls := 0;
    }

    /** `expected_output()` */
    method Call() returns (r: Option<Txn>)
      modifies this
      ensures calls == old(calls) + 1
      ensures r == if old(calls) < |results| then Some(results[old(calls)]) else None
    {
      r := if calls < |results| then Some(results[calls]) else None;
      calls := calls + 1;
    }
  }

  /** The `expected_output` argument: the source dispatches on `callable`. */
  datatype Source = ListSource(list: ExpectedList) | CallableSource(fn: ExpectedCallable)
  {
    /** The object the comparison callback changes. */
    function Objects(): set<object> {
      match this
      case ListSource(l) => {l}
      case CallableSource(f) => {f}
    }

    /** The source's state as the specification of one callback sees it. */
    function State(): SourceState
      reads Objects()
    {
      match this
      case ListSource(l) => Queue(l.items)
      case CallableSource(f) => Gen(f.results, f.calls)
    }
  }

  /** The closure `check_received_transaction`: the scoreboard and the expected
      output it captured. A monitor invoking it with `t` runs
      `board.CheckReceived(expected, t)`. */
  datatype Callback = Callback(board: Scoreboard, expected: Source)

  /** Any object passed as `monitor`: its class name, whether it is an
      instance of `Monitor`, and the callbacks registered with it. */
  class Component {
    const className: string
    const isMonitor: bool
    var callbacks: seq<Callback>

    constructor (className: string, isMonitor: bool)
      ensures this.className == className && this.isMonitor == isMonitor && callbacks == []
    {
      this.className := className;
      this.isMonitor := isMonitor;
      callbacks := [];
    }
  }

  /** What `add_interface` ends in: done, or the TypeError naming the class of
      the object that is not a monitor. */
  datatype Registration = Registered | NotAMonitor(className: string)

  class Scoreboard {
    /** The logger's name, the only use of the observed unit. */
    const logName: string
    /** Errors counted over all interfaces. */
    var errors: nat

    /** `reorderDepth` is accepted and not used: matching is strictly in
        order. */
    constructor (dutName: string, reorderDepth: int := 0)
      ensures logName == "cocotb.scoreboard." + dutName
      ensures errors == 0
    {
      logName := "cocotb.scoreboard." + dutName;
      errors := 0;
    }

    /** Registers the comparison callback with `monitor`, after refusing an
        object that is not a monitor. Nothing is consumed here. */
    method AddInterface(monitor: Component, expected: Source) returns (r: Registration)
      modifies monitor
      ensures r == if monitor.isMonitor then Registered else NotAMonitor(monitor.className)
      ensures monitor.callbacks ==
        if monitor.isMonitor then old(monitor.callbacks) + [Callback(this, expected)]
        else old(monitor.callbacks)
    {
      if !monitor.isMonitor {
        return NotAMonitor(monitor.className);
      }
      monitor.callbacks := monitor.callbacks + [Callback(this, expected)];
      r := Registered;
    }

    /** The body of `check_received_transaction` for one delivered
        transaction `t`: it changes the counter and the expected source, and
        nothing else, exactly as `Step` says. */
    method CheckReceived(expected: Source, t: Txn) returns (o: Outcome)
      modifies this, expected.Objects()
      ensures StepResult(o, errors, expected.State()) == Step(old(errors), old(expected.State()), t)
      ensures old(errors) <= errors <= old(errors) + 1
      ensures o.Failed() <==> errors == old(errors) + 1
    {
      if !expected.State().Truthy() {
        errors := errors + 1;
        // The error message formats the transaction with `%`, which takes a
        // tuple as its argument list.
        if t.kind.isTuple && |t.payload| != 1 {
          return UnexpectedUnformattable;
        }
        return Unexpected;
      }
      var exp: Txn;
      match expected {
        case CallableSource(f) =>
          var next := f.Call();
          if next.None? {
            return SourceRaised;
          }
          exp := next.value;
        case ListSource(l) =>
          exp := l.items[0];
          l.items := l.items[1..];
      }
      if t.kind != exp.kind {
        errors := errors + 1;
        return WrongType;
      }
      if t != exp {
        errors := errors + 1;
        return Differed;
      }
      o := if t.kind.sized then Match else MatchedUnsized;
    }
  }
}
