/** Facts, envelopes and payloads (ledger/domain fact.go, holding.go, claimed.go). */
module Facts {
  import opened Results
  import opened Text
  import opened Temporal
  import opened External
  import opened Identity
  import opened Provenance

  /** An amount of something, held as its canonical decimal text. */
  datatype Quantity = Quantity(amount: string, unit: string)

  type FactKind = U8
  const OCCURRENCE: FactKind := 1
  const OBSERVATION: FactKind := 2

  predicate ValidFactKind(k: FactKind) {
    k == OCCURRENCE || k == OBSERVATION
  }

  type CorrectionKind = U8
  const CORRECTED: CorrectionKind := 1
  const RETRACTED: CorrectionKind := 2
  const SUPERSEDED: CorrectionKind := 3

  predicate ValidCorrectionKind(k: CorrectionKind) {
    CORRECTED <= k <= SUPERSEDED
  }

  datatype Ref = Ref(stream: string, sequence: nat) {
    function Render(): string {
      stream + "#" + Decimal(sequence)
    }
  }

  datatype Holding = Holding(account: ID, instrument: ID, quantity: Quantity)

  datatype Payload =
    | NilPayload
    | HoldingObserved(holding: Holding)
    | HoldingClaimed(account: Claim, instrument: Claim, quantity: Quantity)
    | EntityMinted(entity: ID, bornFrom: Claim)
    | FactCorrected(corrects: Ref, correction: CorrectionKind, reason: string)

  datatype Envelope = Envelope(
    coordinates: Coordinates, provenance: Provenance, references: seq<ReferenceBinding>)

  function NewEnvelope(coordinates: Coordinates, prov: Provenance, references: seq<ReferenceBinding>)
    : Result<Envelope>
  {
    if coordinates.knowledge == UNSET || prov.IsZero() then Err(ErrIncompleteEnvelope)
    else Ok(Envelope(coordinates, prov, references))
  }

  datatype Fact = Fact(ref: Ref, envelope: Envelope, kind: FactKind, payload: Payload) {
    predicate Visible(a: AsOf) {
      envelope.coordinates.Visible(a)
    }

    function From(): Instant {
      envelope.coordinates.effective.from
    }

    function Known(): Instant {
      envelope.coordinates.knowledge
    }

    function Confidence(): Confidence {
      envelope.provenance.confidence
    }
  }

  function NewFact(ref: Ref, envelope: Envelope, kind: FactKind, payload: Payload): Result<Fact> {
    if envelope.provenance.IsZero() then Err(ErrIncompleteEnvelope)
    else if !ValidFactKind(kind) then Err(ErrUnknownKind)
    else if payload.NilPayload? then Err(ErrEmptyType)
    else Ok(Fact(ref, envelope, kind, payload))
  }

  /** A reference reads back from its rendering. */
  lemma RenderInjective(a: Ref, b: Ref)
    requires a.Render() == b.Render()
    ensures a == b
  {
    var s, t, m, n := a.Render(), b.Render(), |a.stream|, |b.stream|;
    assert s[m] == '#' && t[n] == '#';
    assert forall i :: m < i < |s| ==> s[i] == Decimal(a.sequence)[i - m - 1];
    assert forall i :: n < i < |t| ==> t[i] == Decimal(b.sequence)[i - n - 1];
    assert m == n;
    assert a.stream == s[..m] && b.stream == t[..n];
    assert Decimal(a.sequence) == s[m + 1..] && Decimal(b.sequence) == t[n + 1..];
    DecimalInjective(a.sequence, b.sequence);
  }
}
