# cocotb scoreboard, modelled in Dafny

cocotb's `Scoreboard` compares the transactions that monitors observe on a
design's interfaces with what a testbench expects. Each interface is
registered with `add_interface(monitor, expected_output)`. This call refuses
an object that is not a `Monitor`. Otherwise it registers a closure,
`check_received_transaction`, as a callback on the monitor. For every
delivered transaction the closure does four things in order:

1. It checks that the expected output is not empty.
2. It takes the next expected value, either by calling the expected-output
   callable or by popping the front of the expected list.
3. It compares the runtime types.
4. It compares the values.

Each of the three failures adds one to a counter, `errors`, which all
interfaces share, and then raises `TestFailed`. A match changes nothing.
Formatting a failure's message can itself raise.

The project has four files:

- `transactions.dfy` (module `Transactions`): a transaction is a runtime
  type tag plus a payload. `Outcome` is what one callback ends in, and
  `Compare` is the type check followed by the value check.
- `matching.dfy` (module `Matching`): the specification. `Step` is one
  callback as a function of the counter and the source's state. `Run` is a
  stream of deliveries on one binding. The lemmas are the properties of
  both.
- `scoreboard.dfy` (module `Scoreboarding`): the objects as the source has
  them. `Scoreboard` holds the counter. The expected list is
  `ExpectedList`, which the pop changes in place. The callable is
  `ExpectedCallable`, which counts its calls. Any object passed as `monitor`
  is a `Component`, which holds its callback list. `CheckReceived` is
  proved equal to `Step`. Its `modifies` clause says that only the counter
  and that binding's own source object change.
- `scenarios.dfy` (module `Scenarios`): clients that drive those methods
  through usage scenarios of the scoreboard.

These are modelled explicitly, not by introspection:

- Python's `type(x)` is the `TypeTag` in each transaction.
- `callable(...)` is the choice between `ListSource` and `CallableSource`.
- The truthiness test `not expected_output` is `SourceState.Truthy`. An
  empty list is false. A function object is always true, so a callable
  source never gives the unexpected-transaction outcome.

Three outcomes end in an exception other than `TestFailed`:

- `SourceRaised`: the expected-output callable itself raised, and the
  exception passes through the callback.
- `MatchedUnsized`: the values are equal, but the debug message on a match
  evaluates `len(transaction)`. For a type without a length, such as
  `int`, that raises TypeError. `TypeTag.sized` records whether a type has
  a length. The counter is left untouched.
- `UnexpectedUnformattable`: nothing was expected, and the error message
  formats the transaction with `"%s" % (transaction)`. The `%` operator
  takes a tuple as its argument list, so a tuple with other than one
  element raises TypeError. This happens after the counter has already
  risen. `TypeTag.isTuple` records whether a type is a tuple.

## Model

| member | source | states |
|---|---|---|
| `Transactions.Compare` | cocotb/scoreboard.py:80-103 | a failure is reported exactly when received and expected differ; a type mismatch exactly when the types differ; a value mismatch exactly when the types agree and the values differ; an equal value of a type without `len()` ends in the debug line's TypeError |
| `Transactions.TypeBeforeValue` | cocotb/scoreboard.py:80-86 | equal values of different runtime types are a type mismatch: the type check comes first |
| `Matching.Fetch` | cocotb/scoreboard.py:77-78 | a list yields a value, and putting that value back in front of the remaining list gives the old list; a callable yields its next result, or raises once its results have run out, and counts exactly one call either way |
| `Transactions.NothingExpectedFor` | cocotb/scoreboard.py:72-75 | a transaction with nothing expected always counts an error; it ends in TestFailed exactly when `%` can format it alone, and otherwise in the formatting TypeError |
| `Matching.Step` | cocotb/scoreboard.py:72-103 | the counter rises by one exactly for a failing outcome; the outcome is one of nothing-expected exactly when the source is falsy, which only an empty list is, and then the source is unchanged; the outcome is "source raised" exactly when the callable has no result left |
| `Matching.EmptyListUnexpected` | cocotb/scoreboard.py:72-75 | an arrival on an empty list adds exactly one error, is reported as unexpected (for a tuple of other than one element, the report's formatting raises TypeError instead) and leaves the list empty |
| `Matching.ListPopsFront` | cocotb/scoreboard.py:77-78 | on a non-empty list exactly the first element is popped and compared, before and whatever the outcome of the comparisons |
| `Matching.CallableCalledOnce` | cocotb/scoreboard.py:72-78 | a callable source is called exactly once per arrival, never yields "unexpected", and its raising adds no error |
| `Matching.TypeMismatchCounted` | cocotb/scoreboard.py:80-84 | a fetched value of another type adds exactly one error and ends in a type mismatch |
| `Matching.ValueMismatchCounted` | cocotb/scoreboard.py:86-100 | same type, different value adds exactly one error and ends in a value mismatch |
| `Matching.EqualNotCounted` | cocotb/scoreboard.py:101-103 | an equal transaction leaves the counter unchanged and raises no TestFailed |
| `Matching.Run` | cocotb/scoreboard.py:69-103 | over any stream of deliveries the counter never decreases and rises by at most one per delivery; one outcome per delivery |
| `Matching.RunCountsFailures` | cocotb/scoreboard.py:72-100 | after any stream of deliveries the counter has risen by exactly the number of failing outcomes |
| `Matching.RunAppend` | cocotb/scoreboard.py:69-103 | delivering two streams one after the other is running the second from the state the first left |
| `Matching.InOrderDrains` | cocotb/scoreboard.py:72-103 | N expected transactions delivered in order, each equal to its counterpart, add no error, raise no TestFailed and pop exactly those N elements |
| `Matching.InOrderThenExtra` | cocotb/scoreboard.py:72-78 | one more delivery after N in-order matches gets the nothing-expected outcome, leaves the list empty and brings the counter to exactly one more |
| `Matching.ListConsumedOnePerDelivery` | cocotb/scoreboard.py:72-103 | strict in-order matching: delivery i is compared with element i of the list; a delivery gets the nothing-expected outcome exactly when it comes after the list ran out; each delivery pops one element while there is one |
| `Matching.CallableLockstep` | cocotb/scoreboard.py:72-103 | over any stream of deliveries a callable source is called once per delivery, never more and never fewer; delivery i is compared with the result of call `calls + i`, or that call raises once the results have run out; nothing is ever unexpected |
| `Scoreboarding.ExpectedCallable.Call` | cocotb/scoreboard.py:77 | a call returns the next result or raises past the last, and counts itself |
| `Scoreboarding.Scoreboard.constructor` | cocotb/scoreboard.py:51-54 | the counter starts at zero; the observed unit only names the logger; the reorder depth is ignored |
| `Scoreboarding.Scoreboard.AddInterface` | cocotb/scoreboard.py:56-105 | an object that is not a monitor is refused with a TypeError naming its class and gets no callback; a monitor gets exactly one more callback, bound to this scoreboard and the given expected output |
| `Scoreboarding.Scoreboard.CheckReceived` | cocotb/scoreboard.py:69-103 | the new counter, the new source state and the outcome are those of `Step`; the counter rises by at most one, and by one exactly on a failing outcome; only this scoreboard and this binding's source object change |
| `Scenarios.InOrderScenario` | cocotb/scoreboard.py:72-103 | expected list [a, b], deliveries a then b: two matches, no error, the list used up |
| `Scenarios.ExhaustedScenario` | cocotb/scoreboard.py:72-78 | expected list [a], deliveries a then c: the second gets the nothing-expected outcome for c and the counter is one |
| `Scenarios.UnformattableScenario` | cocotb/scoreboard.py:72-75 | nothing expected and the pair (1, 2) received: one error, then the formatting TypeError instead of TestFailed |
| `Scenarios.WrongTypeScenario` | cocotb/scoreboard.py:80-84 | integer 5 expected, text "5" received: a type mismatch and one error |
| `Scenarios.DifferedScenario` | cocotb/scoreboard.py:86-100 | bytes 01 02 expected, bytes 01 03 received: a value mismatch and one error |
| `Scenarios.UnsizedMatchScenario` | cocotb/scoreboard.py:101-102 | a matching integer ends in the TypeError of `len()` and counts no error |
| `Scenarios.NotAMonitorScenario` | cocotb/scoreboard.py:66-67 | registering a non-monitor fails with its class name and registers nothing, whatever the expected output |
| `Scenarios.TwoInterfacesScenario` | cocotb/scoreboard.py:72-87 | a failure on one interface leaves another interface's list untouched; only the counter is shared |
| `Scenarios.CallableScenario` | cocotb/scoreboard.py:72-77 | a callable with two results serves two deliveries, is called on a third, raises, and no error is counted |

## Left out

- Logging and diagnostic rendering are not modelled: the `self.log` calls, `hexdump`/`hexdiffs` (from `cocotb.utils`, which is not part of this model) and the per-element dumps whose errors are swallowed. Two message arguments can raise, and both are modelled. The `"%s" % (transaction)` of the unexpected-transaction message raises for a tuple of other than one element (`UnexpectedUnformattable`). The `len(transaction)` of the match message raises for unsized types (`MatchedUnsized`). The `hexdump` and `hexdiffs` calls on a value mismatch (cocotb/scoreboard.py:89, 94, 99) are assumed not to raise, because their code is not part of this model. The same holds for the `str()` of a transaction or its type.
- The `dut` object is not modelled beyond its name, which only names the logger (`Scoreboard.logName`).
- `reorder_depth` is accepted and never used, so the constructor ignores it.
- The monitor's delivery of transactions to its callbacks is external: `cocotb.monitors` is not part of this model, and neither is the simulator's event loop. A monitor invoking a registered `Callback(board, expected)` with `t` is `board.CheckReceived(expected, t)`. `Run` applies the callback once per delivered transaction and keeps going after a failure. Whether the raised `TestFailed` ends the test is up to the caller.
- Python's exceptions are outcome values. `TestFailed` is `Unexpected`, `WrongType` or `Differed`. The TypeErrors raised while formatting messages are `UnexpectedUnformattable` and `MatchedUnsized`. The registration TypeError is `NotAMonitor`. The exception message texts are not modelled.
- The expected-output callable is a fixed sequence of results followed by a raise. A callable whose results depend on anything else, or that raises and then returns again, has no model here.
- Value equality is structural equality of the payload, for values of the same type tag. A user-defined `__eq__` and identity-based equality are not modelled. Neither is a type whose instances are falsy, for example a callable that defines `__len__`.
- `add_interface` accepts any object that is not callable as a list, and the scoreboard relies only on truthiness and `pop(0)`. The model admits only a list.
