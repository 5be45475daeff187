/** The wire form of facts and its codecs (kernel-wire, ledger-wire).  A field
    that may be nil is an Option; the protobuf runtime is not modelled. */
module Wire {
  import opened Results
  import opened Text
  import opened Temporal
  import opened External
  import opened Identity
  import opened Provenance
  import opened Facts

  const SECOND: int := 1_000_000_000

  datatype Timestamp = Timestamp(seconds: int, nanos: int)

  datatype WireInterval = WireInterval(from: Option<Timestamp>, to: Option<Timestamp>)

  datatype WireCoordinates = WireCoordinates(effective: Option<WireInterval>, knowledge: Option<Timestamp>)

  datatype WireConfidence =
    CONFIDENCE_UNSPECIFIED | CONFIDENCE_ASSERTED | CONFIDENCE_DERIVED | CONFIDENCE_ESTIMATED
    | CONFIDENCE_INFERRED | CONFIDENCE_DISPUTED

  datatype WireProvenance = WireProvenance(
    source: string, collectedAt: Option<Timestamp>, publishedAt: Option<Timestamp>,
    interpreterName: string, interpreterVersion: string,
    derivation: Option<string>, confidence: WireConfidence)

  datatype WireBinding = WireBinding(dataset: string, version: string)

  datatype WireRef = WireRef(stream: string, sequence: nat)

  datatype WireEnvelope = WireEnvelope(
    temporal: Option<WireCoordinates>, provenance: Option<WireProvenance>,
    references: seq<Option<WireBinding>>, ref: Option<WireRef>)

  datatype WireEntityKind =
    ENTITY_KIND_UNSPECIFIED | ENTITY_KIND_INSTRUMENT | ENTITY_KIND_PARTY | ENTITY_KIND_ACCOUNT
    | ENTITY_KIND_LEDGER_STREAM

  datatype WireId = WireId(value: string, kind: WireEntityKind)

  datatype WireClaim = WireClaim(scheme: string, value: string)

  datatype WireQuantity = WireQuantity(amount: Option<string>, unit: string)

  datatype WireFactKind = FACT_KIND_UNSPECIFIED | FACT_KIND_OCCURRENCE | FACT_KIND_OBSERVATION

  datatype WireCorrectionKind =
    CORRECTION_KIND_UNSPECIFIED | CORRECTION_KIND_CORRECTED | CORRECTION_KIND_RETRACTED
    | CORRECTION_KIND_SUPERSEDED

  datatype WirePayload =
    | WireObserved(account: Option<WireId>, instrument: Option<WireId>, quantity: Option<WireQuantity>)
    | WireClaimed(accountClaim: Option<WireClaim>, instrumentClaim: Option<WireClaim>, quantity: Option<WireQuantity>)
    | WireMinted(entity: Option<WireId>, bornFrom: Option<WireClaim>)
    | WireCorrection(corrects: Option<WireRef>, kind: WireCorrectionKind, reason: string)
    | WireUnknown      // an Any of some other type

  datatype WireFact = WireFact(
    envelope: Option<WireEnvelope>, kind: WireFactKind, factType: string, typeVersion: nat,
    payload: Option<WirePayload>)

  // ---- instants, intervals, coordinates ----------------------------------------------

  function EncodeInstant(i: Instant): Option<Timestamp> {
    if i == UNSET then None else Some(Timestamp(i / SECOND, i % SECOND))
  }

  /** A nil timestamp is the unset instant. */
  function DecodeInstant(w: Option<Timestamp>): Result<Instant> {
    match w
    case None => Ok(UNSET)
    case Some(t) =>
      var i := t.seconds * SECOND + t.nanos;
      if i == UNSET then Err(ErrMalformed) else Ok(i)
  }

  function Malformed<T>(r: Result<T>): Result<T> {
    if r.Ok? then r else Err(ErrMalformed)
  }

  function EncodeInterval(iv: Interval): WireInterval {
    WireInterval(EncodeInstant(iv.from), EncodeInstant(iv.to))
  }

  function DecodeInterval(w: Option<WireInterval>): Result<Interval> {
    if w.None? then Err(ErrMalformed)
    else
      var from :- DecodeInstant(w.value.from);
      var to :- DecodeInstant(w.value.to);
      Malformed(NewInterval(from, to))
  }

  function EncodeCoordinates(c: Coordinates): WireCoordinates {
    WireCoordinates(Some(EncodeInterval(c.effective)), EncodeInstant(c.knowledge))
  }

  function DecodeCoordinates(w: Option<WireCoordinates>): Result<Coordinates> {
    if w.None? then Err(ErrMalformed)
    else
      var effective :- DecodeInterval(w.value.effective);
      var knowledge :- DecodeInstant(w.value.knowledge);
      Malformed(Assign(effective, knowledge))
  }

  // ---- provenance ----------------------------------------------------------------------

  function EncodeConfidence(c: Confidence): WireConfidence {
    if c == ASSERTED then CONFIDENCE_ASSERTED
    else if c == DERIVED then CONFIDENCE_DERIVED
    else if c == ESTIMATED then CONFIDENCE_ESTIMATED
    else if c == INFERRED then CONFIDENCE_INFERRED
    else if c == DISPUTED then CONFIDENCE_DISPUTED
    else CONFIDENCE_UNSPECIFIED
  }

  function DecodeConfidence(w: WireConfidence): Result<Confidence> {
    match w
    case CONFIDENCE_ASSERTED => Ok(ASSERTED)
    case CONFIDENCE_DERIVED => Ok(DERIVED)
    case CONFIDENCE_ESTIMATED => Ok(ESTIMATED)
    case CONFIDENCE_INFERRED => Ok(INFERRED)
    case CONFIDENCE_DISPUTED => Ok(DISPUTED)
    case CONFIDENCE_UNSPECIFIED => Err(ErrMalformed)
  }

  function EncodeProvenance(p: Provenance): WireProvenance {
    WireProvenance(p.source, EncodeInstant(p.collectedAt), EncodeInstant(p.publishedAt),
                   p.interpreter.name, p.interpreter.version, p.derivation, EncodeConfidence(p.confidence))
  }

  /** NewInterpreter: a name and a version, neither blank. */
  function NewInterpreter(name: string, version: string): Result<Interpreter> {
    if Blank(name) || Blank(version) then Err(ErrIncomplete) else Ok(Interpreter(name, version))
  }

  /** NewRef: 64 lowercase hexadecimal characters. */
  function NewDerivationRef(hash: string): Result<string> {
    if IsHexDigest(hash) then Ok(hash) else Err(ErrIncomplete)
  }

  function DecodeProvenance(w: Option<WireProvenance>): Result<Provenance> {
    if w.None? then Err(ErrMalformed)
    else
      var source :- Malformed(NewSource(w.value.source));
      var collectedAt :- DecodeInstant(w.value.collectedAt);
      var interpreter :- Malformed(NewInterpreter(w.value.interpreterName, w.value.interpreterVersion));
      var confidence :- DecodeConfidence(w.value.confidence);
      var out :- match w.value.derivation {
        case Some(hash) =>
          var ref :- Malformed(NewDerivationRef(hash));
          Malformed(Derived(source, collectedAt, interpreter, ref, confidence))
        case None => Malformed(Observed(source, collectedAt, interpreter, confidence))
      };
      var published := DecodeInstant(w.value.publishedAt);
      Ok(if published.Ok? && published.value != UNSET then out.(publishedAt := published.value) else out)
  }

  function EncodeBinding(r: ReferenceBinding): WireBinding {
    WireBinding(r.dataset, r.version)
  }

  function DecodeBinding(w: Option<WireBinding>): Result<ReferenceBinding> {
    if w.None? then Err(ErrMalformed) else Malformed(NewReferenceBinding(w.value.dataset, w.value.version))
  }

  function EncodeBindings(rs: seq<ReferenceBinding>): (ws: seq<Option<WireBinding>>)
    ensures |ws| == |rs|
  {
    seq(|rs|, i requires 0 <= i < |rs| => Some(EncodeBinding(rs[i])))
  }

  function DecodeBindings(ws: seq<Option<WireBinding>>): Result<seq<ReferenceBinding>> {
    if ws == [] then Ok([])
    else
      var rest :- DecodeBindings(ws[..|ws| - 1]);
      var last :- DecodeBinding(ws[|ws| - 1]);
      Ok(rest + [last])
  }

  lemma {:induction false} DecodeBindingsFail(ws: seq<Option<WireBinding>>, n: nat)
    requires n <= |ws| && DecodeBindings(ws[..n]).Err?
    ensures DecodeBindings(ws) == DecodeBindings(ws[..n])
  {
    if n < |ws| {
      assert ws[..|ws| - 1][..n] == ws[..n];
      DecodeBindingsFail(ws[..|ws| - 1], n);
    } else {
      assert ws[..n] == ws;
    }
  }

  /** The loop of DecodeEnvelope over the pinned references. */
  method DecodeReferenceList(ws: seq<Option<WireBinding>>) returns (r: Result<seq<ReferenceBinding>>)
    ensures r == DecodeBindings(ws)
  {
    var references: seq<ReferenceBinding> := [];
    var i := 0;
    while i < |ws|
      invariant 0 <= i <= |ws|
      invariant DecodeBindings(ws[..i]) == Ok(references)
    {
      assert ws[..i + 1][..i] == ws[..i];
      var binding := DecodeBinding(ws[i]);
      if binding.Err? {
        DecodeBindingsFail(ws, i + 1);
        return Err(binding.error);
      }
      references := references + [binding.value];
      i := i + 1;
    }
    assert ws[..i] == ws;
    return Ok(references);
  }

  // ---- references and envelopes ---------------------------------------------------------

  function EncodeRef(r: Ref): WireRef {
    WireRef(r.stream, r.sequence)
  }

  function DecodeRef(w: Option<WireRef>): Result<Ref> {
    if w.None? || w.value.stream == "" || w.value.sequence == 0 then Err(ErrMalformed)
    else Ok(Ref(w.value.stream, w.value.sequence))
  }

  function EncodeEnvelope(e: Envelope, ref: Ref): WireEnvelope {
    WireEnvelope(Some(EncodeCoordinates(e.coordinates)), Some(EncodeProvenance(e.provenance)),
                 EncodeBindings(e.references), Some(EncodeRef(ref)))
  }

  function DecodeEnvelope(w: Option<WireEnvelope>): Result<(Envelope, Ref)> {
    if w.None? then Err(ErrMalformed)
    else
      var coordinates :- DecodeCoordinates(w.value.temporal);
      var prov :- DecodeProvenance(w.value.provenance);
      var ref :- DecodeRef(w.value.ref);
      var references :- DecodeBindings(w.value.references);
      var envelope :- Malformed(NewEnvelope(coordinates, prov, references));
      Ok((envelope, ref))
  }

  // ---- identifiers, claims, quantities ----------------------------------------------------

  function EncodeEntityKind(k: EntityKind): WireEntityKind {
    if k == INSTRUMENT then ENTITY_KIND_INSTRUMENT
    else if k == PARTY then ENTITY_KIND_PARTY
    else if k == ACCOUNT then ENTITY_KIND_ACCOUNT
    else if k == LEDGER_STREAM then ENTITY_KIND_LEDGER_STREAM
    else ENTITY_KIND_UNSPECIFIED
  }

  function DecodeEntityKind(w: WireEntityKind): Result<EntityKind> {
    match w
    case ENTITY_KIND_INSTRUMENT => Ok(INSTRUMENT)
    case ENTITY_KIND_PARTY => Ok(PARTY)
    case ENTITY_KIND_ACCOUNT => Ok(ACCOUNT)
    case ENTITY_KIND_LEDGER_STREAM => Ok(LEDGER_STREAM)
    case ENTITY_KIND_UNSPECIFIED => Err(ErrMalformed)
  }

  function EncodeId(id: ID): WireId {
    WireId(id.value, EncodeEntityKind(id.kind))
  }

  function DecodeId(w: Option<WireId>): Result<ID> {
    if w.None? then Err(ErrMalformed)
    else
      var kind :- DecodeEntityKind(w.value.kind);
      Malformed(Restore(kind, w.value.value))
  }

  function EncodeClaim(c: Claim): WireClaim {
    WireClaim(c.scheme, c.value)
  }

  function DecodeClaim(cases: CaseTables, w: Option<WireClaim>): Result<Claim> {
    if w.None? then Err(ErrMalformed) else Malformed(NewClaim(cases, w.value.scheme, w.value.value))
  }

  function EncodeQuantity(q: Quantity): WireQuantity {
    WireQuantity(Some(q.amount), q.unit)
  }

  /** Canonical decimal text: an optional minus sign, digits, at most one inner point. */
  predicate IsDecimalText(s: string) {
    var body := if s != "" && s[0] == '-' then s[1..] else s;
    && body != ""
    && (forall i :: 0 <= i < |body| ==> body[i] == '.' || IsDigit(body[i]))
    && (forall i, j :: 0 <= i < j < |body| ==> !(body[i] == '.' && body[j] == '.'))
    && body[0] != '.' && body[|body| - 1] != '.'
  }

  function ParseQuantity(amount: string, unit: string): Result<Quantity> {
    if unit == "" || !IsDecimalText(amount) then Err(ErrMalformedQuantity) else Ok(Quantity(amount, unit))
  }

  function DecodeQuantity(w: Option<WireQuantity>): Result<Quantity> {
    if w.None? || w.value.amount.None? then Err(ErrMalformed)
    else Malformed(ParseQuantity(w.value.amount.value, w.value.unit))
  }

  // ---- payloads and facts --------------------------------------------------------------------

  function FactType(p: Payload): string
    requires !p.NilPayload?
  {
    match p
    case HoldingObserved(_) => "ledger.HoldingObserved"
    case HoldingClaimed(_, _, _) => "ledger.HoldingClaimed"
    case EntityMinted(_, _) => "ledger.EntityMinted"
    case FactCorrected(_, _, _) => "ledger.FactCorrected"
  }

  const TYPE_VERSION: nat := 1

  function EncodeCorrectionKind(k: CorrectionKind): WireCorrectionKind {
    if k == CORRECTED then CORRECTION_KIND_CORRECTED
    else if k == RETRACTED then CORRECTION_KIND_RETRACTED
    else if k == SUPERSEDED then CORRECTION_KIND_SUPERSEDED
    else CORRECTION_KIND_UNSPECIFIED
  }

  function DecodeCorrectionKind(w: WireCorrectionKind): Result<CorrectionKind> {
    match w
    case CORRECTION_KIND_CORRECTED => Ok(CORRECTED)
    case CORRECTION_KIND_RETRACTED => Ok(RETRACTED)
    case CORRECTION_KIND_SUPERSEDED => Ok(SUPERSEDED)
    case CORRECTION_KIND_UNSPECIFIED => Err(ErrMalformed)
  }

  function EncodePayload(p: Payload): Result<WirePayload> {
    match p
    case NilPayload => Err(ErrMalformed)
    case HoldingObserved(h) =>
      Ok(WireObserved(Some(EncodeId(h.account)), Some(EncodeId(h.instrument)), Some(EncodeQuantity(h.quantity))))
    case HoldingClaimed(account, instrument, quantity) =>
      Ok(WireClaimed(Some(EncodeClaim(account)), Some(EncodeClaim(instrument)), Some(EncodeQuantity(quantity))))
    case EntityMinted(entity, bornFrom) =>
      Ok(WireMinted(Some(EncodeId(entity)), Some(EncodeClaim(bornFrom))))
    case FactCorrected(corrects, kind, reason) =>
      Ok(WireCorrection(Some(EncodeRef(corrects)), EncodeCorrectionKind(kind), reason))
  }

  function DecodePayload(cases: CaseTables, w: Option<WirePayload>): (r: Result<Payload>)
    ensures r.Ok? ==> !r.value.NilPayload?
  {
    match w
    case None => Err(ErrMalformed)
    case Some(WireUnknown) => Err(ErrMalformed)
    case Some(WireObserved(a, i, q)) =>
      var account :- DecodeId(a);
      var instrument :- DecodeId(i);
      var quantity :- DecodeQuantity(q);
      Ok(HoldingObserved(Holding(account, instrument, quantity)))
    case Some(WireClaimed(a, i, q)) =>
      var account :- DecodeClaim(cases, a);
      var instrument :- DecodeClaim(cases, i);
      var quantity :- DecodeQuantity(q);
      Ok(HoldingClaimed(account, instrument, quantity))
    case Some(WireMinted(e, b)) =>
      var entity :- DecodeId(e);
      var bornFrom :- DecodeClaim(cases, b);
      Ok(EntityMinted(entity, bornFrom))
    case Some(WireCorrection(c, k, reason)) =>
      var corrects :- DecodeRef(c);
      var kind :- DecodeCorrectionKind(k);
      Ok(FactCorrected(corrects, kind, reason))
  }

  function EncodeFactKind(k: FactKind): WireFactKind {
    if k == OCCURRENCE then FACT_KIND_OCCURRENCE
    else if k == OBSERVATION then FACT_KIND_OBSERVATION
    else FACT_KIND_UNSPECIFIED
  }

  function DecodeFactKind(w: WireFactKind): Result<FactKind> {
    match w
    case FACT_KIND_OCCURRENCE => Ok(OCCURRENCE)
    case FACT_KIND_OBSERVATION => Ok(OBSERVATION)
    case FACT_KIND_UNSPECIFIED => Err(ErrMalformed)
  }

  function EncodeFact(f: Fact): Result<WireFact> {
    var payload :- EncodePayload(f.payload);
    Ok(WireFact(Some(EncodeEnvelope(f.envelope, f.ref)), EncodeFactKind(f.kind),
                FactType(f.payload), TYPE_VERSION, Some(payload)))
  }

  /** The declared type and version are checked against the payload, not trusted. */
  function DecodeFact(cases: CaseTables, w: WireFact): Result<Fact> {
    var (envelope, ref) :- DecodeEnvelope(w.envelope);
    var kind :- DecodeFactKind(w.kind);
    var payload :- DecodePayload(cases, w.payload);
    if FactType(payload) != w.factType || TYPE_VERSION != w.typeVersion then Err(ErrMalformed)
    else Malformed(NewFact(ref, envelope, kind, payload))
  }

  // ---- what survives the wire ------------------------------------------------------------------

  ghost predicate WellFormedProvenance(p: Provenance) {
    && !Blank(p.source) && p.collectedAt != UNSET
    && !Blank(p.interpreter.name) && !Blank(p.interpreter.version)
    && ValidConfidence(p.confidence)
    && (p.derivation.Some? ==> IsHexDigest(p.derivation.value))
  }

  ghost predicate WellFormedBinding(r: ReferenceBinding) {
    !Blank(r.dataset) && !Blank(r.version)
  }

  ghost predicate WellFormedBindings(rs: seq<ReferenceBinding>) {
    forall i :: 0 <= i < |rs| ==> WellFormedBinding(rs[i])
  }

  ghost predicate WellFormedEnvelope(e: Envelope) {
    && e.coordinates.effective.Valid() && e.coordinates.knowledge != UNSET
    && WellFormedProvenance(e.provenance)
    && WellFormedBindings(e.references)
  }

  ghost predicate WellFormedQuantity(q: Quantity) {
    q.unit != "" && IsDecimalText(q.amount)
  }

  ghost predicate WellFormedRef(r: Ref) {
    r.stream != "" && r.sequence != 0
  }

  ghost predicate WellFormedPayload(cases: CaseTables, p: Payload) {
    match p
    case NilPayload => false
    case HoldingObserved(h) => ValidId(h.account) && ValidId(h.instrument) && WellFormedQuantity(h.quantity)
    case HoldingClaimed(a, i, q) => ValidClaim(cases, a) && ValidClaim(cases, i) && WellFormedQuantity(q)
    case EntityMinted(e, b) => ValidId(e) && ValidClaim(cases, b)
    case FactCorrected(c, k, _) => WellFormedRef(c) && ValidCorrectionKind(k)
  }

  /** What every part of a fact must be for a decoder to accept it. */
  ghost predicate WellFormed(cases: CaseTables, f: Fact) {
    && WellFormedRef(f.ref) && WellFormedEnvelope(f.envelope) && ValidFactKind(f.kind)
    && WellFormedPayload(cases, f.payload)
  }

  lemma InstantRoundTrip(i: Instant)
    ensures DecodeInstant(EncodeInstant(i)) == Ok(i)
  {
  }

  lemma CoordinatesRoundTrip(c: Coordinates)
    ensures var r := DecodeCoordinates(Some(EncodeCoordinates(c)));
            if c.effective.Valid() && c.knowledge != UNSET then r == Ok(c) else r == Err(ErrMalformed)
  {
    hide EncodeInstant, DecodeInstant;
    InstantRoundTrip(c.effective.from);
    InstantRoundTrip(c.effective.to);
    InstantRoundTrip(c.knowledge);
  }

  lemma ProvenanceRoundTrip(p: Provenance)
    ensures var r := DecodeProvenance(Some(EncodeProvenance(p)));
            if WellFormedProvenance(p) then r == Ok(p) else r == Err(ErrMalformed)
  {
    hide EncodeInstant, DecodeInstant, IsHexDigest, Blank;
    InstantRoundTrip(p.collectedAt);
    InstantRoundTrip(p.publishedAt);
    BlankEmpty(p.source);
    BlankEmpty(p.interpreter.name);
    HexNotEmpty(p.derivation);
  }

  lemma BlankEmpty(s: string)
    ensures s == "" ==> Blank(s)
  {
  }

  lemma HexNotEmpty(hash: Option<string>)
    ensures hash.Some? && IsHexDigest(hash.value) ==> hash.value != ""
  {
  }

  lemma {:induction false} BindingsRoundTrip(rs: seq<ReferenceBinding>)
    ensures var r := DecodeBindings(EncodeBindings(rs));
            if WellFormedBindings(rs) then r == Ok(rs) else r == Err(ErrMalformed)
  {
    hide Blank;
    if rs != [] {
      var n := |rs| - 1;
      BindingsRoundTrip(rs[..n]);
      assert EncodeBindings(rs)[..n] == EncodeBindings(rs[..n]);
      assert rs == rs[..n] + [rs[n]];
    }
  }

  lemma EnvelopeRoundTrip(e: Envelope, ref: Ref)
    ensures var r := DecodeEnvelope(Some(EncodeEnvelope(e, ref)));
            if WellFormedEnvelope(e) && WellFormedRef(ref) then r == Ok((e, ref)) else r == Err(ErrMalformed)
  {
    hide DecodeCoordinates, EncodeCoordinates, DecodeProvenance, EncodeProvenance, DecodeBindings, EncodeBindings,
         Blank, IsHexDigest;
    CoordinatesRoundTrip(e.coordinates);
    ProvenanceRoundTrip(e.provenance);
    BindingsRoundTrip(e.references);
    BlankEmpty(e.provenance.source);
  }

  lemma IdRoundTrip(id: ID)
    ensures var r := DecodeId(Some(EncodeId(id)));
            if ValidId(id) then r == Ok(id) else r == Err(ErrMalformed)
  {
    hide IsCanonicalUuid;
  }

  lemma ClaimRoundTrip(cases: CaseTables, c: Claim)
    ensures var r := DecodeClaim(cases, Some(EncodeClaim(c)));
            if ValidClaim(cases, c) then r == Ok(c) else r == Err(ErrMalformed)
  {
    hide CanonicalScheme;
  }

  lemma QuantityRoundTrip(q: Quantity)
    ensures var r := DecodeQuantity(Some(EncodeQuantity(q)));
            if WellFormedQuantity(q) then r == Ok(q) else r == Err(ErrMalformed)
  {
    hide IsDecimalText;
  }

  lemma PayloadRoundTrip(cases: CaseTables, p: Payload)
    requires !p.NilPayload?
    ensures EncodePayload(p).Ok?
    ensures var r := DecodePayload(cases, Some(EncodePayload(p).value));
            if WellFormedPayload(cases, p) then r == Ok(p) else r == Err(ErrMalformed)
  {
    hide DecodeId, EncodeId, DecodeClaim, EncodeClaim, DecodeQuantity, EncodeQuantity, ValidId, ValidClaim,
         WellFormedQuantity;
    match p
    case HoldingObserved(h) =>
      IdRoundTrip(h.account);
      IdRoundTrip(h.instrument);
      QuantityRoundTrip(h.quantity);
    case HoldingClaimed(a, i, q) =>
      ClaimRoundTrip(cases, a);
      ClaimRoundTrip(cases, i);
      QuantityRoundTrip(q);
    case EntityMinted(e, b) =>
      IdRoundTrip(e);
      ClaimRoundTrip(cases, b);
    case FactCorrected(_, _, _) =>
  }

  /** Encoding then decoding is the identity on well-formed facts, and every other
      fact is refused by the decoder: nothing comes back changed. */
  lemma FactRoundTrip(cases: CaseTables, f: Fact)
    requires !f.payload.NilPayload?
    ensures EncodeFact(f).Ok?
    ensures var r := DecodeFact(cases, EncodeFact(f).value);
            if WellFormed(cases, f) then r == Ok(f) else r == Err(ErrMalformed)
  {
    hide DecodeEnvelope, EncodeEnvelope, DecodePayload, EncodePayload, WellFormedPayload, WellFormedRef,
         Blank, IsHexDigest;
    EnvelopeRoundTrip(f.envelope, f.ref);
    PayloadRoundTrip(cases, f.payload);
    BlankEmpty(f.envelope.provenance.source);
  }

  // ---- decoding is validation -----------------------------------------------------------------

  lemma DecodedCoordinates(w: Option<WireCoordinates>)
    ensures DecodeCoordinates(w).Ok? ==>
              var c := DecodeCoordinates(w).value; c.effective.Valid() && c.knowledge != UNSET
  {
    hide DecodeInstant;
  }

  lemma DecodedProvenance(w: Option<WireProvenance>)
    ensures DecodeProvenance(w).Ok? ==> WellFormedProvenance(DecodeProvenance(w).value)
  {
    hide DecodeInstant, Blank, IsHexDigest;
  }

  lemma {:induction false} DecodedBindings(ws: seq<Option<WireBinding>>)
    ensures DecodeBindings(ws).Ok? ==> WellFormedBindings(DecodeBindings(ws).value)
  {
    hide Blank;
    if ws != [] && DecodeBindings(ws).Ok? {
      DecodedBindings(ws[..|ws| - 1]);
      var rest, last := DecodeBindings(ws[..|ws| - 1]).value, DecodeBinding(ws[|ws| - 1]).value;
      assert DecodeBindings(ws).value == rest + [last];
    }
  }

  lemma DecodedEnvelope(w: Option<WireEnvelope>)
    ensures DecodeEnvelope(w).Ok? ==>
              WellFormedEnvelope(DecodeEnvelope(w).value.0) && WellFormedRef(DecodeEnvelope(w).value.1)
  {
    hide DecodeCoordinates, DecodeProvenance, DecodeBindings, WellFormedProvenance, WellFormedBindings, Interval.Valid;
    if w.Some? {
      DecodedCoordinates(w.value.temporal);
      DecodedProvenance(w.value.provenance);
      DecodedBindings(w.value.references);
    }
  }

  lemma DecodedPayload(cases: CaseTables, w: Option<WirePayload>)
    ensures DecodePayload(cases, w).Ok? ==> WellFormedPayload(cases, DecodePayload(cases, w).value)
  {
    hide IsCanonicalUuid, CanonicalScheme, IsDecimalText;
  }

  /** Whatever arrives on the wire, a decoded fact is well formed and of the type and
      version it declared. */
  lemma DecodedIsWellFormed(cases: CaseTables, w: WireFact)
    requires DecodeFact(cases, w).Ok?
    ensures var f := DecodeFact(cases, w).value;
            && WellFormed(cases, f)
            && w.factType == FactType(f.payload) && w.typeVersion == TYPE_VERSION
  {
    hide DecodeEnvelope, DecodePayload, WellFormedEnvelope, WellFormedPayload, WellFormedRef;
    DecodedEnvelope(w.envelope);
    DecodedPayload(cases, w.payload);
  }

  // ---- what the wire form says -------------------------------------------------------------------

  /** A timestamp counts seconds and nanoseconds since the Unix epoch. */
  lemma TimestampMeans(i: Instant, t: Timestamp)
    ensures EncodeInstant(i) == Some(t) ==> i == 1_000_000_000 * t.seconds + t.nanos && 0 <= t.nanos < 1_000_000_000
    ensures DecodeInstant(Some(t)).Ok? ==> DecodeInstant(Some(t)).value == 1_000_000_000 * t.seconds + t.nanos
    ensures DecodeInstant(Some(t)).Err? <==> 1_000_000_000 * t.seconds + t.nanos == UNSET
  {
  }

  /** The number of each level, kind and correction, by its wire name. */
  lemma WireVocabulary()
    ensures DecodeConfidence(CONFIDENCE_ASSERTED) == Ok(1) && DecodeConfidence(CONFIDENCE_DERIVED) == Ok(2)
    ensures DecodeConfidence(CONFIDENCE_ESTIMATED) == Ok(3) && DecodeConfidence(CONFIDENCE_INFERRED) == Ok(4)
    ensures DecodeConfidence(CONFIDENCE_DISPUTED) == Ok(5)
    ensures DecodeEntityKind(ENTITY_KIND_INSTRUMENT) == Ok(1) && DecodeEntityKind(ENTITY_KIND_PARTY) == Ok(2)
    ensures DecodeEntityKind(ENTITY_KIND_ACCOUNT) == Ok(3) && DecodeEntityKind(ENTITY_KIND_LEDGER_STREAM) == Ok(4)
    ensures DecodeFactKind(FACT_KIND_OCCURRENCE) == Ok(1) && DecodeFactKind(FACT_KIND_OBSERVATION) == Ok(2)
    ensures DecodeCorrectionKind(CORRECTION_KIND_CORRECTED) == Ok(1)
    ensures DecodeCorrectionKind(CORRECTION_KIND_RETRACTED) == Ok(2)
    ensures DecodeCorrectionKind(CORRECTION_KIND_SUPERSEDED) == Ok(3)
  {
  }

  /** The names that go into hashes and onto the wire, by number and by payload. */
  lemma Names()
    ensures ConfidenceName(1) == "asserted" && ConfidenceName(2) == "derived" && ConfidenceName(3) == "estimated"
    ensures ConfidenceName(4) == "inferred" && ConfidenceName(5) == "disputed"
    ensures EntityKindName(1) == "instrument" && EntityKindName(2) == "party" && EntityKindName(3) == "account"
    ensures EntityKindName(4) == "ledger_stream"
    ensures forall h :: FactType(HoldingObserved(h)) == "ledger.HoldingObserved"
    ensures forall x, y, q :: FactType(HoldingClaimed(x, y, q)) == "ledger.HoldingClaimed"
    ensures forall e, b :: FactType(EntityMinted(e, b)) == "ledger.EntityMinted"
    ensures forall r, k, t :: FactType(FactCorrected(r, k, t)) == "ledger.FactCorrected"
  {
  }

  ghost predicate SameId(w: Option<WireId>, id: ID) {
    w.Some? && w.value.value == id.value && DecodeEntityKind(w.value.kind) == Ok(id.kind)
  }

  ghost predicate SameClaim(w: Option<WireClaim>, c: Claim) {
    w.Some? && w.value.scheme == c.scheme && w.value.value == c.value
  }

  ghost predicate SameQuantity(w: Option<WireQuantity>, q: Quantity) {
    w.Some? && w.value.amount == Some(q.amount) && w.value.unit == q.unit
  }

  ghost predicate SameInstant(w: Option<Timestamp>, i: Instant) {
    if w.None? then i == UNSET else i == 1_000_000_000 * w.value.seconds + w.value.nanos
  }

  /** Each part of a decoded payload comes from the field of its own name. */
  lemma DecodedPayloadFields(cases: CaseTables, w: WirePayload)
    requires DecodePayload(cases, Some(w)).Ok?
    ensures match DecodePayload(cases, Some(w)).value
            case NilPayload => false
            case HoldingObserved(h) =>
              w.WireObserved? && SameId(w.account, h.account) && SameId(w.instrument, h.instrument)
              && SameQuantity(w.quantity, h.quantity)
            case HoldingClaimed(account, instrument, quantity) =>
              w.WireClaimed? && SameClaim(w.accountClaim, account) && SameClaim(w.instrumentClaim, instrument)
              && SameQuantity(w.quantity, quantity)
            case EntityMinted(entity, bornFrom) =>
              w.WireMinted? && SameId(w.entity, entity) && SameClaim(w.bornFrom, bornFrom)
            case FactCorrected(corrects, kind, reason) =>
              w.WireCorrection? && w.corrects == Some(WireRef(corrects.stream, corrects.sequence))
              && DecodeCorrectionKind(w.kind) == Ok(kind) && w.reason == reason
  {
    hide IsCanonicalUuid, CanonicalScheme, IsDecimalText;
  }

  /** ... and so does each part of a decoded envelope. */
  lemma DecodedEnvelopeFields(w: WireEnvelope)
    requires DecodeEnvelope(Some(w)).Ok?
    ensures var (e, ref) := DecodeEnvelope(Some(w)).value;
            && w.ref == Some(WireRef(ref.stream, ref.sequence))
            && w.temporal.Some? && w.temporal.value.effective.Some? && w.provenance.Some?
            && SameInstant(w.temporal.value.effective.value.from, e.coordinates.effective.from)
            && SameInstant(w.temporal.value.effective.value.to, e.coordinates.effective.to)
            && SameInstant(w.temporal.value.knowledge, e.coordinates.knowledge)
            && var v := w.provenance.value;
               && v.source == e.provenance.source && SameInstant(v.collectedAt, e.provenance.collectedAt)
               && v.interpreterName == e.provenance.interpreter.name
               && v.interpreterVersion == e.provenance.interpreter.version
               && v.derivation == e.provenance.derivation && DecodeConfidence(v.confidence) == Ok(e.provenance.confidence)
  {
    hide Blank, IsHexDigest, DecodeBindings;
  }

  lemma {:induction false} DecodedBindingFields(ws: seq<Option<WireBinding>>, i: nat)
    requires DecodeBindings(ws).Ok? && i < |ws|
    ensures |DecodeBindings(ws).value| == |ws|
    ensures var r := DecodeBindings(ws).value[i]; ws[i] == Some(WireBinding(r.dataset, r.version))
  {
    hide Blank;
    var n := |ws| - 1;
    if n > 0 {
      DecodedBindingFields(ws[..n], if i < n then i else 0);
    } else {
      assert ws[..n] == [];
    }
  }
}
