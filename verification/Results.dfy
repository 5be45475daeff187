/** Success or a class of failure.  Message text is not modelled: one constructor
    per sentinel error of the repository. */
module Results {

  datatype Option<+T> = None | Some(value: T)

  datatype Error =
    // kernel/temporal
    | ErrZeroInstant
    | ErrInvalidInterval
    // kernel/identity
    | ErrMalformedClaim
    | ErrMalformedRule
    | ErrMalformedRuleset
    | ErrEmptySeed
    | ErrUnknownEntityKind
    // kernel/provenance and kernel/explained
    | ErrIncomplete
    | ErrUnknownConfidence
    | ErrMalformedSource
    | ErrNoTrace
    // kernel/money
    | ErrMalformedQuantity
    // kernel-wire and ledger-wire
    | ErrMalformed
    // ledger/domain
    | ErrIncompleteEnvelope
    | ErrUnknownKind
    | ErrEmptyType
    | ErrNotFound
    | ErrUnresolved
    | ErrNoFacts
    // ledger/app
    | ErrAlreadyMinted
    | ErrStreamNotFound
    | ErrStaleRead
    | ErrNonMonotonicKnowledge
    | ErrNestedSerialise
    // ledger-sqlite
    | ErrGap
    | ErrNegativeSequence

  datatype Result<+T> = Ok(value: T) | Err(error: Error) {
    predicate IsFailure() {
      Err?
    }

    function PropagateFailure<U>(): Result<U>
      requires Err?
    {
      Err(error)
    }

    function Extract(): T
      requires Ok?
    {
      value
    }
  }
}
