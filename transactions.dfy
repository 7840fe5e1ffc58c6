/** Transactions as the scoreboard sees them, and the comparison of one
    received transaction with one expected transaction. */
module Transactions {

  /** Stands in for Python's `type(x)`. `sized` records whether values of the
      type support `len()`, which the debug message of a match needs;
      `isTuple` whether they are tuples, which `%` takes as its argument list. */
  datatype TypeTag = TypeTag(name: string, sized: bool, isTuple: bool)

  /** An observed or expected transaction: its runtime type and its value
      (for a tuple, one entry per element). */
  datatype Txn = Txn(kind: TypeTag, payload: seq<int>)
  {
    /** Whether `"%s" % (t)` formats `t`: a tuple is the argument list of `%`,
        so only a tuple of exactly one element fills the one `%s`. */
    predicate FormatsAlone() {
      !kind.isTuple || |payload| == 1
    }
  }

  /** What one run of the comparison callback ends in. `Unexpected`,
      `WrongType` and `Differed` raise `TestFailed`; the other exceptions
      propagate from code the callback calls. */
  datatype Outcome =
    | Match                    // equal values; nothing raised
    | MatchedUnsized           // equal values, then `len(transaction)` raised TypeError
    | Unexpected               // TestFailed: a transaction arrived with nothing expected
    | UnexpectedUnformattable  // nothing expected, then formatting the error message raised TypeError
    | WrongType                // TestFailed: the runtime types differ
    | Differed                 // TestFailed: same type, unequal values
    | SourceRaised             // the expected-output callable raised
  {
    /** The outcomes that add one to the error counter. */
    predicate Failed() {
      Unexpected? || UnexpectedUnformattable? || WrongType? || Differed?
    }

    /** The outcomes of a transaction that arrived with nothing expected. */
    predicate NothingExpected() {
      Unexpected? || UnexpectedUnformattable?
    }
  }

  /** How much an outcome adds to the error counter. */
  function Cost(o: Outcome): nat {
    if o.Failed() then 1 else 0
  }

  /** The type check, then the equality check, then the debug message of a
      match, as a function of the received and the expected transaction. */
  function Compare(received: Txn, expected: Txn): (o: Outcome)
    ensures o.Failed() <==> received != expected
    ensures o == WrongType <==> received.kind != expected.kind
    ensures o == Differed <==> received.kind == expected.kind && received.payload != expected.payload
    ensures o == MatchedUnsized <==> received == expected && !received.kind.sized
    ensures !o.NothingExpected() && o != SourceRaised
  {
    if received.kind != expected.kind then WrongType
    else if received != expected then Differed
    else if received.kind.sized then Match
    else MatchedUnsized
  }

  /** The outcome of a transaction that arrives with nothing expected: the
      error is counted first, then the message is formatted. */
  function NothingExpectedFor(t: Txn): (o: Outcome)
    ensures o.NothingExpected() && o.Failed()
    ensures o == Unexpected <==> t.FormatsAlone()
  {
    if t.FormatsAlone() then Unexpected else UnexpectedUnformattable
  }

  /** Equal values of different types are a type mismatch, never a match:
      the type is checked before the value. */
  lemma TypeBeforeValue(received: Txn, expected: Txn)
    requires received.payload == expected.payload && received.kind != expected.kind
    ensures Compare(received, expected) == WrongType
  {
  }
}
