/** Clients of the scoreboard object: usage scenarios of the scoreboard,
    each driving the real methods on freshly made objects. */
module Scenarios {
  import opened Transactions
  import opened Matching
  import opened Scoreboarding

  const Bytes := TypeTag("bytes", true, false)
  const Text := TypeTag("str", true, false)
  const Integer := TypeTag("int", false, false)
  const Pair := TypeTag("tuple", true, true)

  /** Expected list [a, b], deliveries a then b: two matches, no error, the
      list used up. */
  method InOrderScenario(a: Txn, b: Txn) returns (first: Outcome, second: Outcome, errors: nat, left: seq<Txn>)
    requires a.kind.sized && b.kind.sized
    ensures first == Match && second == Match
    ensures errors == 0 && left == []
  {
    var board := new Scoreboard("dut");
    var list := new ExpectedList([a, b]);
    first := board.CheckReceived(ListSource(list), a);
    second := board.CheckReceived(ListSource(list), b);
    errors, left := board.errors, list.items;
  }

  /** Expected list [a], deliveries a then c: the second is unexpected and the
      counter ends at one. */
  method ExhaustedScenario(a: Txn, c: Txn) returns (first: Outcome, second: Outcome, errors: nat)
    ensures !first.Failed() && second == NothingExpectedFor(c)
    ensures errors == 1
  {
    var board := new Scoreboard("dut");
    var list := new ExpectedList([a]);
    first := board.CheckReceived(ListSource(list), a);
    second := board.CheckReceived(ListSource(list), c);
    errors := board.errors;
  }

  /** Nothing expected and the pair (1, 2) received: the error is counted,
      then formatting the message raises TypeError instead of TestFailed. */
  method UnformattableScenario() returns (o: Outcome, errors: nat)
    ensures o == UnexpectedUnformattable && errors == 1
  {
    var board := new Scoreboard("dut");
    var list := new ExpectedList([]);
    o := board.CheckReceived(ListSource(list), Txn(Pair, [1, 2]));
    errors := board.errors;
  }

  /** The integer 5 expected, the text "5" received: a type mismatch, one
      error. */
  method WrongTypeScenario() returns (o: Outcome, errors: nat)
    ensures o == WrongType && errors == 1
  {
    var board := new Scoreboard("dut");
    var list := new ExpectedList([Txn(Integer, [5])]);
    o := board.CheckReceived(ListSource(list), Txn(Text, ['5' as int]));
    errors := board.errors;
  }

  /** Bytes 01 02 expected, bytes 01 03 received: a value mismatch, one
      error. */
  method DifferedScenario() returns (o: Outcome, errors: nat)
    ensures o == Differed && errors == 1
  {
    var board := new Scoreboard("dut");
    var list := new ExpectedList([Txn(Bytes, [1, 2])]);
    o := board.CheckReceived(ListSource(list), Txn(Bytes, [1, 3]));
    errors := board.errors;
  }

  /** An integer that matches still ends in the TypeError of the debug
      message's `len()`, without counting an error. */
  method UnsizedMatchScenario() returns (o: Outcome, errors: nat)
    ensures o == MatchedUnsized && errors == 0
  {
    var board := new Scoreboard("dut");
    var list := new ExpectedList([Txn(Integer, [5])]);
    o := board.CheckReceived(ListSource(list), Txn(Integer, [5]));
    errors := board.errors;
  }

  /** Registering an object that is not a monitor fails with its class name
      and registers nothing, whatever the expected output. */
  method NotAMonitorScenario(expected: Source) returns (r: Registration, registered: nat)
    ensures r == NotAMonitor("Driver") && registered == 0
  {
    var board := new Scoreboard("dut");
    var driver := new Component("Driver", false);
    r := board.AddInterface(driver, expected);
    registered := |driver.callbacks|;
  }

  /** Two interfaces on one scoreboard: a failing delivery on the first
      leaves the second's list alone, and only the counter is shared. */
  method TwoInterfacesScenario(x: Txn, y: Txn) returns (errors: nat, firstLeft: seq<Txn>, secondLeft: seq<Txn>)
    requires x != y
    ensures errors == 1 && firstLeft == [] && secondLeft == [y]
  {
    var board := new Scoreboard("dut");
    var m1 := new Component("Monitor", true);
    var m2 := new Component("Monitor", true);
    var l1 := new ExpectedList([x]);
    var l2 := new ExpectedList([y]);
    var r1 := board.AddInterface(m1, ListSource(l1));
    var r2 := board.AddInterface(m2, ListSource(l2));
    var cb := m1.callbacks[0];
    var o := cb.board.CheckReceived(cb.expected, y);
    errors, firstLeft, secondLeft := board.errors, l1.items, l2.items;
  }

  /** A callable source serving a then b: two deliveries call it twice; a
      third delivery makes it raise, which counts no error. */
  method CallableScenario(a: Txn, b: Txn) returns (third: Outcome, errors: nat, calls: nat)
    ensures third == SourceRaised && errors == 0 && calls == 3
  {
    var board := new Scoreboard("dut");
    var f := new ExpectedCallable([a, b]);
    var o1 := board.CheckReceived(CallableSource(f), a);
    var o2 := board.CheckReceived(CallableSource(f), b);
    third := board.CheckReceived(CallableSource(f), b);
    errors, calls := board.errors, f.calls;
  }
}
