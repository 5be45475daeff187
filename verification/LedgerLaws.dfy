/** What every stream written by the use cases satisfies, and why each append keeps it. */
module LedgerLaws {
  import opened Results
  import opened Text
  import opened Framing
  import opened Temporal
  import opened Sorting
  import opened Identity
  import opened IdentityLaws
  import opened Provenance
  import opened Facts
  import opened Streams
  import opened Resolution
  import opened Stores
  import opened Ledger

  // ---- what each answer is worth ------------------------------------------------------------------

  /** Refusals before the clock are those of the whole use case, at any reading. */
  lemma EarlyRefusal(d: Deployment, streams: StreamMap, cmd: Command, now: Instant)
    ensures Precheck(cmd).Some? ==> Execute(d, streams, now, cmd) == (streams, Err(Precheck(cmd).value))
    ensures Precheck(cmd).None? && ReadFrom(cmd, streams).Err? ==>
              Execute(d, streams, now, cmd) == (streams, Err(ReadFrom(cmd, streams).error))
    ensures Precheck(cmd).None? && ReadFrom(cmd, streams).Ok?
            && Examine(d, cmd, ReadFrom(cmd, streams).value).Some? ==>
              Execute(d, streams, now, cmd) == (streams, Err(Examine(d, cmd, ReadFrom(cmd, streams).value).value))
  {
    hide Precheck, ReadFrom, Examine, Build, MemoryAppend;
  }

  /** From an examined snapshot on, the use case is its build and its append. */
  lemma LateAnswer(d: Deployment, streams: StreamMap, cmd: Command, s: Stream, now: Instant)
    requires Precheck(cmd).None? && ReadFrom(cmd, streams) == Ok(s) && Examine(d, cmd, s).None?
    ensures Build(d, cmd, s, now).Err? ==> Execute(d, streams, now, cmd) == (streams, Err(Build(d, cmd, s, now).error))
    ensures Build(d, cmd, s, now).Ok? ==>
              Execute(d, streams, now, cmd) == MemoryAppend(streams, cmd.stream, Build(d, cmd, s, now).value)
  {
    hide Precheck, ReadFrom, Examine, Build, MemoryAppend;
  }

  // ---- what a built request looks like -------------------------------------------------------

  /** Knowledge time is the clock reading, the domain will accept the fact, and a
      request that rests on a read says so. */
  lemma BuiltRequest(d: Deployment, cmd: Command, s: Stream, now: Instant)
    requires Build(d, cmd, s, now).Ok?
    ensures var q := Build(d, cmd, s, now).value;
            && q.envelope.coordinates.knowledge == now && now != UNSET
            && CompleteEnvelope(q.envelope) && RightKind(q.envelope, q.kind, q.payload)
            && q.precondition == (if Reads(cmd) then AtLength(|s.facts|) else Any)
            && (q.payload.EntityMinted? <==> cmd.MintIdentity?)
            && (q.payload.FactCorrected? <==> cmd.CorrectFact?)
  {
    hide Resolve, MintFor, DeriveHoldingObserved, Seal, ObservedBy, DerivedBy, Get;
    match cmd
    case ObserveHolding(_, _, effective, origin, confidence, references) =>
      Sealed(effective, now, ObservedBy(origin, confidence), references);
      ObservedIsValid(origin, confidence);
    case AcceptHoldingClaim(_, _, _, _, effective, origin, confidence, references) =>
      Sealed(effective, now, ObservedBy(origin, confidence), references);
      ObservedIsValid(origin, confidence);
    case CorrectFact(_, corrects, _, _, origin, confidence) =>
      var corrected := Get(s, corrects).value;
      Sealed(corrected.envelope.coordinates.effective, now, ObservedBy(origin, confidence), []);
      ObservedIsValid(origin, confidence);
    case MintIdentity(_, kind, claim, answers, effective, origin, confidence, references) =>
      var names := if answers.stream != "" then [answers.Render()] else [];
      var minted := MintFor(d.platform, d.rules, kind, claim, names, confidence).value;
      MintShape(d, cmd);
      Sealed(effective, now, DerivedBy(origin, minted.trace, confidence), references);
      DerivedIsValid(origin, minted.trace, confidence);
    case ObserveClaimedHolding(_, claimRef, asOf, origin) =>
      var claimed := Get(s, claimRef).value;
      var observed := DeriveHoldingObserved(d.platform, d.rules, s, claimed, asOf).value;
      Sealed(claimed.envelope.coordinates.effective, now,
             DerivedBy(origin, observed.trace, observed.record.body.confidence), claimed.envelope.references);
      DerivedIsValid(origin, observed.trace, observed.record.body.confidence);
  }

  lemma Sealed(effective: Interval, now: Instant, prov: Result<Provenance>, references: seq<ReferenceBinding>)
    ensures Seal(effective, now, prov, references).Ok? ==>
              var e := Seal(effective, now, prov, references).value;
              && e.coordinates == Coordinates(effective, now) && effective.from != UNSET && now != UNSET
              && prov == Ok(e.provenance)
  {
  }

  ghost predicate CompleteProvenance(p: Provenance) {
    p.source != "" && p.collectedAt != UNSET && p.interpreter.name != "" && ValidConfidence(p.confidence)
  }

  lemma ObservedIsValid(origin: Origin, confidence: Confidence)
    ensures var r := ObservedBy(origin, confidence);
            r.Ok? ==> CompleteProvenance(r.value) && r.value.derivation.None?
  {
  }

  lemma DerivedIsValid(origin: Origin, trace: string, confidence: Confidence)
    ensures var r := DerivedBy(origin, trace, confidence);
            r.Ok? ==> CompleteProvenance(r.value) && r.value.derivation.Some?
  {
  }

  lemma MintShape(d: Deployment, cmd: Command)
    requires cmd.MintIdentity?
    ensures forall answers :: MintFor(d.platform, d.rules, cmd.kind, cmd.claim, answers, cmd.confidence).Ok? ==>
              var m := MintFor(d.platform, d.rules, cmd.kind, cmd.claim, answers, cmd.confidence).value.value;
              && m.EntityMinted? && m.bornFrom == cmd.claim
              && DeriveFromClaim(d.platform, cmd.kind, FoldClaim(d.rules, cmd.claim)) == Ok(m.entity)
  {
    hide DeriveFromClaim, NewDerivation, FoldClaim, CanonicalSeed, EntityKindName;
  }

  /** A mint was built because nothing answered at the coordinate it occupies. */
  lemma BuiltMint(d: Deployment, cmd: Command, s: Stream, now: Instant)
    requires cmd.MintIdentity? && Build(d, cmd, s, now).Ok?
    ensures var q := Build(d, cmd, s, now).value;
            && q.payload.EntityMinted? && q.payload.bornFrom == cmd.claim
            && q.envelope.coordinates.effective == cmd.effective
            && q.payload.entity.kind == cmd.kind
            && DeriveFromClaim(d.platform, cmd.kind, FoldClaim(d.rules, cmd.claim)) == Ok(q.payload.entity)
            && Resolve(d.platform.cases, d.rules, s, cmd.claim, AsOf(cmd.effective.from, now)).Err?
  {
    hide Resolve, MintFor, DeriveFromClaim, FoldClaim;
    MintShape(d, cmd);
  }

  /** A correction is in force over exactly the interval of the fact it names. */
  lemma BuiltCorrection(d: Deployment, cmd: Command, s: Stream, now: Instant)
    requires cmd.CorrectFact? && Build(d, cmd, s, now).Ok?
    ensures Get(s, cmd.corrects).Ok?
    ensures var q := Build(d, cmd, s, now).value;
            && q.payload == FactCorrected(cmd.corrects, cmd.correction, cmd.reason)
            && q.envelope.coordinates.effective == Get(s, cmd.corrects).value.envelope.coordinates.effective
  {
  }

  /** A derived observation is in force over exactly its claim's interval, carries the
      claim's quantity, references and confidence, and names the identities that
      resolved at the queried coordinate. */
  lemma BuiltObservation(d: Deployment, cmd: Command, s: Stream, now: Instant)
    requires cmd.ObserveClaimedHolding? && Build(d, cmd, s, now).Ok?
    ensures Get(s, cmd.claimRef).Ok? && Get(s, cmd.claimRef).value.payload.HoldingClaimed?
    ensures var q, f := Build(d, cmd, s, now).value, Get(s, cmd.claimRef).value;
            && q.payload.HoldingObserved?
            && q.envelope.coordinates.effective == f.envelope.coordinates.effective
            && q.envelope.references == f.envelope.references
            && q.envelope.provenance.confidence == f.Confidence()
            && q.payload.holding.quantity == f.payload.quantity
            && Resolve(d.platform.cases, d.rules, s, f.payload.account, cmd.asOf) == Ok(q.payload.holding.account)
            && Resolve(d.platform.cases, d.rules, s, f.payload.instrument, cmd.asOf) == Ok(q.payload.holding.instrument)
  {
    hide ResolveWithTrace, DerivationPreimage, SortBy, RenderAsOf;
  }

  // ---- the laws of a stream -------------------------------------------------------------------

  /** No earlier mint of the same pre-image was in force where a mint begins. */
  ghost predicate MintsSound(d: Deployment, s: Stream) {
    forall i, j :: 0 <= i < j < |s.facts| && s.facts[j].payload.EntityMinted?
      && Answers(d.platform.cases, d.rules, s.facts[i], s.facts[j].payload.bornFrom)
      ==> !s.facts[i].envelope.coordinates.effective.Contains(s.facts[j].From())
  }

  /** Every minted identifier is the one its claim derives under its kind. */
  ghost predicate MintsDerived(d: Deployment, s: Stream) {
    forall i :: 0 <= i < |s.facts| && s.facts[i].payload.EntityMinted? ==>
      DeriveFromClaim(d.platform, s.facts[i].payload.entity.kind, FoldClaim(d.rules, s.facts[i].payload.bornFrom))
        == Ok(s.facts[i].payload.entity)
  }

  /** The fact at index i corrects an earlier fact of the stream, over its interval. */
  ghost predicate CorrectsEarlier(s: Stream, i: nat)
    requires i < |s.facts| && s.facts[i].payload.FactCorrected?
  {
    var ref := s.facts[i].payload.corrects;
    && ref.stream == s.name && 1 <= ref.sequence <= i
    && s.facts[ref.sequence - 1].envelope.coordinates.effective == s.facts[i].envelope.coordinates.effective
  }

  ghost predicate CorrectionsSound(s: Stream) {
    forall i :: 0 <= i < |s.facts| && s.facts[i].payload.FactCorrected? ==> CorrectsEarlier(s, i)
  }

  /** Nothing an envelope must carry is missing: neither time axis, nor any part of the
      provenance. */
  ghost predicate CompleteEnvelope(e: Envelope) {
    && e.coordinates.effective.from != UNSET && e.coordinates.knowledge != UNSET
    && CompleteProvenance(e.provenance)
  }

  /** Mints are derived occurrences, claims and corrections plain observations. */
  ghost predicate RightKind(e: Envelope, kind: FactKind, payload: Payload) {
    && !payload.NilPayload?
    && kind == (if payload.EntityMinted? then OCCURRENCE else OBSERVATION)
    && (payload.EntityMinted? ==> e.provenance.derivation.Some?)
    && (payload.HoldingClaimed? || payload.FactCorrected? ==> e.provenance.derivation.None?)
  }

  ghost predicate Complete(s: Stream) {
    forall i :: 0 <= i < |s.facts| ==>
      CompleteEnvelope(s.facts[i].envelope) && RightKind(s.facts[i].envelope, s.facts[i].kind, s.facts[i].payload)
  }

  ghost predicate Lawful(d: Deployment, s: Stream) {
    MintsSound(d, s) && MintsDerived(d, s) && CorrectionsSound(s) && Complete(s)
  }

  /** Nothing that was in force answered: what the append step knows of a mint. */
  lemma UnansweredEverywhere(d: Deployment, s: Stream, claim: Claim, from: Instant, now: Instant)
    requires Resolve(d.platform.cases, d.rules, s, claim, AsOf(from, now)).Err?
    requires forall i :: 0 <= i < |s.facts| ==> s.facts[i].Known() <= now
    ensures forall i :: 0 <= i < |s.facts| && Answers(d.platform.cases, d.rules, s.facts[i], claim) ==>
              !s.facts[i].envelope.coordinates.effective.Contains(from)
  {
    hide Resolve, Answers, Interval.Contains;
    ResolvesIffAnswered(d.platform.cases, d.rules, s, claim, AsOf(from, now));
    forall i | 0 <= i < |s.facts| && Answers(d.platform.cases, d.rules, s.facts[i], claim)
      ensures !s.facts[i].envelope.coordinates.effective.Contains(from)
    {
      assert !s.facts[i].Visible(AsOf(from, now));
    }
  }

  lemma MintKeepsSound(d: Deployment, s: Stream, f: Fact)
    requires MintsSound(d, s)
    requires f.payload.EntityMinted? ==>
               forall i :: 0 <= i < |s.facts| && Answers(d.platform.cases, d.rules, s.facts[i], f.payload.bornFrom) ==>
                 !s.facts[i].envelope.coordinates.effective.Contains(f.From())
    ensures MintsSound(d, Stream(s.name, s.facts + [f]))
  {
    hide Answers, Interval.Contains;
  }

  lemma AppendKeepsRest(d: Deployment, s: Stream, f: Fact)
    requires MintsDerived(d, s) && CorrectionsSound(s) && Complete(s)
    requires CompleteEnvelope(f.envelope) && RightKind(f.envelope, f.kind, f.payload)
    requires f.payload.EntityMinted? ==>
               DeriveFromClaim(d.platform, f.payload.entity.kind, FoldClaim(d.rules, f.payload.bornFrom))
                 == Ok(f.payload.entity)
    requires f.payload.FactCorrected? ==>
               && Get(s, f.payload.corrects).Ok?
               && Get(s, f.payload.corrects).value.envelope.coordinates.effective == f.envelope.coordinates.effective
    ensures var t := Stream(s.name, s.facts + [f]);
            MintsDerived(d, t) && CorrectionsSound(t) && Complete(t)
  {
    hide DeriveFromClaim, FoldClaim;
    var t := Stream(s.name, s.facts + [f]);
    forall i | 0 <= i < |t.facts| && t.facts[i].payload.FactCorrected?
      ensures CorrectsEarlier(t, i)
    {
      if i < |s.facts| {
        assert t.facts[i] == s.facts[i];
        assert CorrectsEarlier(s, i);
      }
    }
  }

  /** Appending what a use case built from the very stream it extends keeps the laws. */
  lemma BuiltAppendLawful(d: Deployment, cmd: Command, snapshot: Stream, now: Instant, s: Stream, f: Fact)
    requires Lawful(d, s) && Build(d, cmd, snapshot, now).Ok?
    requires Reads(cmd) ==> snapshot == s
    requires forall i :: 0 <= i < |s.facts| ==> s.facts[i].Known() < now
    requires var q := Build(d, cmd, snapshot, now).value;
             f.envelope == q.envelope && f.kind == q.kind && f.payload == q.payload
    ensures Lawful(d, Stream(s.name, s.facts + [f]))
  {
    hide Build, MintsSound, MintsDerived, CorrectionsSound, Complete, Answers, Interval.Contains,
         DeriveFromClaim, FoldClaim, Resolve;
    BuiltRequest(d, cmd, snapshot, now);
    if cmd.MintIdentity? {
      BuiltMint(d, cmd, snapshot, now);
      UnansweredEverywhere(d, s, cmd.claim, cmd.effective.from, now);
    } else if cmd.CorrectFact? {
      BuiltCorrection(d, cmd, snapshot, now);
    }
    MintKeepsSound(d, s, f);
    AppendKeepsRest(d, s, f);
  }

  // ---- consequences ----------------------------------------------------------------------------

  /** A mint is refused as a duplicate exactly when some earlier mint of its
      pre-image is in force where it begins; kinds, retractions and intervals that
      start later do not count.  So one claim may be minted twice. */
  lemma MintRefusedIff(d: Deployment, cmd: Command, s: Stream, now: Instant)
    requires cmd.MintIdentity? && cmd.effective.from != UNSET && now != UNSET
    requires forall i :: 0 <= i < |s.facts| ==> s.facts[i].Known() <= now
    ensures Build(d, cmd, s, now) == Err(ErrAlreadyMinted)
       <==> exists i :: && 0 <= i < |s.facts| && Answers(d.platform.cases, d.rules, s.facts[i], cmd.claim)
                        && s.facts[i].envelope.coordinates.effective.Contains(cmd.effective.from)
  {
    hide Resolve, Answers, MintFor, Interval.Contains;
    var asOf := AsOf(cmd.effective.from, now);
    ResolvesIffAnswered(d.platform.cases, d.rules, s, cmd.claim, asOf);
    MintNeverAlready(d, cmd);
    if Resolve(d.platform.cases, d.rules, s, cmd.claim, asOf).Err? {
      forall i | 0 <= i < |s.facts| && Answers(d.platform.cases, d.rules, s.facts[i], cmd.claim)
        ensures !s.facts[i].envelope.coordinates.effective.Contains(cmd.effective.from)
      {
        assert !s.facts[i].Visible(asOf);
      }
    }
  }

  lemma MintNeverAlready(d: Deployment, cmd: Command)
    requires cmd.MintIdentity?
    ensures forall answers ::
              MintFor(d.platform, d.rules, cmd.kind, cmd.claim, answers, cmd.confidence) != Err(ErrAlreadyMinted)
  {
    hide ClaimPreimage, CanonicaliseSeed, FoldClaim, CanonicalSeed, EntityKindName, DerivationPreimage;
  }

  /** A well-formed mint that is ahead of its stream is appended exactly when no mint
      of its pre-image, known by now, is in force where it begins.  So "one mint per
      claim" fails on every claim minted only from later dates, however often. */
  lemma EarlierMintIsAccepted(d: Deployment, cmd: Command, s: Stream, now: Instant)
    requires cmd.MintIdentity? && Precheck(cmd).None?
    requires ValidClaim(d.platform.cases, cmd.claim) && ValidConfidence(cmd.confidence)
    requires cmd.origin.collectedAt != UNSET && cmd.origin.interpreter.name != ""
    requires cmd.effective.from != UNSET && now != UNSET
    requires s.facts != [] ==> s.facts[|s.facts| - 1].Known() < now
    ensures Build(d, cmd, s, now).Ok? && ExtendStream(s, Build(d, cmd, s, now).value).Ok?
       <==> forall i :: && 0 <= i < |s.facts| && Answers(d.platform.cases, d.rules, s.facts[i], cmd.claim)
                        && s.facts[i].Known() <= now
                        ==> !s.facts[i].envelope.coordinates.effective.Contains(cmd.effective.from)
    ensures (forall i :: 0 <= i < |s.facts| && Answers(d.platform.cases, d.rules, s.facts[i], cmd.claim) ==>
                           cmd.effective.from < s.facts[i].From())
        ==> Build(d, cmd, s, now).Ok? && ExtendStream(s, Build(d, cmd, s, now).value).Ok?
  {
    hide Resolve, Answers, MintFor, ValidClaim, CanonicalScheme;
    MintForWorks(d, cmd);
    var asOf := AsOf(cmd.effective.from, now);
    ResolvesIffAnswered(d.platform.cases, d.rules, s, cmd.claim, asOf);
    assert SOURCE_ALGORITHM <= cmd.origin.source;
    assert cmd.origin.source != "";
    if Resolve(d.platform.cases, d.rules, s, cmd.claim, asOf).Err? {
      assert Build(d, cmd, s, now).Ok?;
      BuiltRequest(d, cmd, s, now);
    }
  }

  lemma MintForWorks(d: Deployment, cmd: Command)
    requires cmd.MintIdentity? && ValidEntityKind(cmd.kind)
    requires ValidClaim(d.platform.cases, cmd.claim) && ValidConfidence(cmd.confidence)
    ensures forall answers ::
              var r := MintFor(d.platform, d.rules, cmd.kind, cmd.claim, answers, cmd.confidence);
              r.Ok? && r.value.trace != ""
  {
    hide ClaimPreimage, CanonicaliseSeed, FoldClaim, CanonicalSeed, EntityKindName, DerivationPreimage,
         DeriveFromClaim, ToLower;
    ValidClaimsDerive(d.platform, d.rules, cmd.kind, cmd.claim);
  }

  /** One pre-image and one kind give one identifier. */
  lemma SameKindSameId(d: Deployment, a: Payload, b: Payload)
    requires a.EntityMinted? && b.EntityMinted? && a.entity.kind == b.entity.kind
    requires CanonicalPreimage(d.platform.cases, d.rules, a.bornFrom)
          == CanonicalPreimage(d.platform.cases, d.rules, b.bornFrom)
    requires InMemory(CanonicalPreimage(d.platform.cases, d.rules, a.bornFrom))
    requires DeriveFromClaim(d.platform, a.entity.kind, FoldClaim(d.rules, a.bornFrom)) == Ok(a.entity)
    requires DeriveFromClaim(d.platform, b.entity.kind, FoldClaim(d.rules, b.bornFrom)) == Ok(b.entity)
    ensures a.entity == b.entity
  {
    hide FoldClaim, CanonicaliseSeed, FramedTexts, EntityKindName;
    var x, y := FoldClaim(d.rules, a.bornFrom), FoldClaim(d.rules, b.bornFrom);
    var cases := d.platform.cases;
    SamePair(TAG_CLAIM_SEED, CanonicaliseSeed(cases, x.scheme), CanonicaliseSeed(cases, x.Render()),
             CanonicaliseSeed(cases, y.scheme), CanonicaliseSeed(cases, y.Render()));
  }

  /** Resolution only ever gains answers, and keeps the identity it gave while all
      mints of the pre-image share one kind. */
  lemma IdentityIsStable(d: Deployment, s: Stream, t: Stream, claim: Claim, a: AsOf, b: AsOf)
    requires Extends(s, t) && MintsDerived(d, t)
    requires b.effective == a.effective && a.knowledge <= b.knowledge
    requires Resolve(d.platform.cases, d.rules, s, claim, a).Ok?
    requires InMemory(CanonicalPreimage(d.platform.cases, d.rules, claim))
    requires forall i, j :: && 0 <= i < |t.facts| && Answers(d.platform.cases, d.rules, t.facts[i], claim)
                            && 0 <= j < |t.facts| && Answers(d.platform.cases, d.rules, t.facts[j], claim)
                            ==> t.facts[i].payload.entity.kind == t.facts[j].payload.entity.kind
    ensures Resolve(d.platform.cases, d.rules, t, claim, b) == Resolve(d.platform.cases, d.rules, s, claim, a)
  {
    hide Resolve, Answers, InMemory, DeriveFromClaim, FoldClaim;
    ResolutionMonotone(d.platform.cases, d.rules, s, t, claim, a, b);
    var i := AnsweringMint(d, s, claim, a);
    var j := AnsweringMint(d, t, claim, b);
    assert t.facts[i] == s.facts[i];
    AnswersMean(d, t.facts[i], t.facts[j], claim);
    SameKindSameId(d, t.facts[i].payload, t.facts[j].payload);
  }

  lemma AnswersMean(d: Deployment, f: Fact, g: Fact, claim: Claim)
    requires Answers(d.platform.cases, d.rules, f, claim) && Answers(d.platform.cases, d.rules, g, claim)
    ensures f.payload.EntityMinted? && g.payload.EntityMinted?
    ensures CanonicalPreimage(d.platform.cases, d.rules, f.payload.bornFrom)
         == CanonicalPreimage(d.platform.cases, d.rules, g.payload.bornFrom)
         == CanonicalPreimage(d.platform.cases, d.rules, claim)
  {
    hide CanonicalPreimage;
  }

  /** The mint a resolution read. */
  lemma AnsweringMint(d: Deployment, s: Stream, claim: Claim, a: AsOf) returns (i: nat)
    requires Resolve(d.platform.cases, d.rules, s, claim, a).Ok?
    ensures i < |s.facts| && Answers(d.platform.cases, d.rules, s.facts[i], claim)
    ensures s.facts[i].payload.EntityMinted?
    ensures Resolve(d.platform.cases, d.rules, s, claim, a) == Ok(s.facts[i].payload.entity)
  {
    hide Answers, VisibleAt, FirstAnswer;
    var visible := VisibleAt(s, a);
    FirstAnswerMeaning(d.platform.cases, d.rules, visible, claim);
    var f := FirstAnswer(d.platform.cases, d.rules, visible, claim).value;
    VisibleAtMembers(s, a, f);
    i :| 0 <= i < |s.facts| && s.facts[i] == f;
  }
}
