/** What each write use case does to a store, run alone: exactly when it is granted, the
    one fact it then adds, and which refusal it gives otherwise.  The conditions are
    spelled out on the command and the stream, not in the terms of the decision. */
module Outcomes {
  import opened Results
  import opened Text
  import opened Temporal
  import opened External
  import opened Sorting
  import opened Identity
  import opened Provenance
  import opened Facts
  import opened Streams
  import opened Resolution
  import opened Stores
  import opened Ledger

  // ---- what is recorded --------------------------------------------------------------------

  function NextRef(streams: StreamMap, name: string): Ref {
    Ref(name, |FactsOf(streams, name)| + 1)
  }

  /** A fact with every part of its envelope written out. */
  function Recorded(ref: Ref, effective: Interval, now: Instant, o: Origin, derivation: Option<string>,
                    confidence: Confidence, references: seq<ReferenceBinding>, kind: FactKind, payload: Payload): Fact {
    Fact(ref,
         Envelope(Coordinates(effective, now),
                  Provenance(o.source, o.collectedAt, UNSET, o.interpreter, derivation, confidence),
                  references),
         kind, payload)
  }

  /** Granted: one stream gains this fact at its end, and nothing else changes. */
  ghost predicate Adds(streams: StreamMap, name: string, fact: Fact, out: (StreamMap, Result<Ref>)) {
    out == (streams[name := Stream(name, FactsOf(streams, name) + [fact])], Ok(fact.ref))
  }

  ghost predicate Refuses(streams: StreamMap, out: (StreamMap, Result<Ref>)) {
    out.1.Err? && out.0 == streams
  }

  /** "sha256:" and sixty-four lowercase hexadecimal digits. */
  predicate Digested(source: string) {
    && |source| == 71 && source[..7] == "sha256:"
    && forall i :: 7 <= i < 71 ==> '0' <= source[i] <= '9' || 'a' <= source[i] <= 'f'
  }

  /** Who says so is said in full, at one of the five levels. */
  predicate Vouched(o: Origin, level: Confidence) {
    o.source != "" && o.collectedAt != UNSET && o.interpreter.name != "" && 1 <= level <= 5
  }

  /** The reading is after everything the stream knows. */
  predicate Later(facts: seq<Fact>, now: Instant) {
    facts != [] ==> facts[|facts| - 1].Known() < now
  }

  lemma DigestedIffAddress(source: string)
    ensures Digested(source) <==> IsContentAddress(source)
    ensures Digested(source) ==> source != ""
  {
    if IsContentAddress(source) {
      assert forall i :: 7 <= i < 71 ==> source[i] == source[7..][i - 7];
    }
    if Digested(source) {
      assert forall i :: 0 <= i < 64 ==> source[7..][i] == source[i + 7];
    }
  }

  /** What the store makes of a request the domain accepts. */
  lemma AppendOutcome(streams: StreamMap, name: string, q: Request)
    requires GoodStreams(streams) && NewFact(NextRef(streams, name), q.envelope, q.kind, q.payload).Ok?
    requires q.precondition == Any || q.precondition == AtLength(|FactsOf(streams, name)|)
    ensures var out, facts := MemoryAppend(streams, name, q), FactsOf(streams, name);
            if name == "" then out == (streams, Err(ErrEmptyType))
            else if !Later(facts, q.envelope.coordinates.knowledge)
            then out == (streams, Err(ErrNonMonotonicKnowledge))
            else Adds(streams, name, Fact(NextRef(streams, name), q.envelope, q.kind, q.payload), out)
  {
  }

  /** What an envelope is made of, and why it may not be made. */
  lemma SealOutcome(effective: Interval, now: Instant, o: Origin, derivation: Option<string>, level: Confidence,
                    references: seq<ReferenceBinding>)
    requires derivation.Some? ==> derivation.value != ""
    ensures var prov := if derivation.Some? then DerivedBy(o, derivation.value, level) else ObservedBy(o, level);
            var r := Seal(effective, now, prov, references);
            if effective.from == UNSET || now == UNSET then r == Err(ErrZeroInstant)
            else if !Vouched(o, level)
            then r == Err(ErrIncomplete) || r == Err(ErrUnknownConfidence)
            else r == Ok(Recorded(Ref("", 0), effective, now, o, derivation, level, references, 0, NilPayload).envelope)
  {
  }

  // ---- stated facts ----------------------------------------------------------------------------

  /** ObserveHolding: the observation as stated, on no further condition than a name, a
      start, a full origin and a reading ahead of the stream. */
  lemma ObserveHoldingOutcome(d: Deployment, streams: StreamMap, now: Instant, cmd: Command)
    requires GoodStreams(streams) && cmd.ObserveHolding?
    ensures var out := Execute(d, streams, now, cmd);
            && (out.1.Ok? <==> && cmd.stream != "" && cmd.effective.from != UNSET && now != UNSET
                               && Vouched(cmd.origin, cmd.confidence) && Later(FactsOf(streams, cmd.stream), now))
            && (out.1.Ok? ==>
                  Adds(streams, cmd.stream,
                       Recorded(NextRef(streams, cmd.stream), cmd.effective, now, cmd.origin, None, cmd.confidence,
                                cmd.references, OBSERVATION, HoldingObserved(cmd.holding)), out))
            && (out.1.Err? ==> Refuses(streams, out))
  {
    hide MemoryAppend, Seal, GoodStreams;
    SealOutcome(cmd.effective, now, cmd.origin, None, cmd.confidence, cmd.references);
    if BuildStated(cmd, now).Ok? {
      AppendOutcome(streams, cmd.stream, BuildStated(cmd, now).value);
    }
  }

  /** Everything a submission needs besides its place: a named stream, and a reading
      ahead of it. */
  predicate Admits(cmd: Command, now: Instant)
    requires cmd.AcceptHoldingClaim?
  {
    && Digested(cmd.origin.source) && cmd.account.scheme != "" && cmd.instrument.scheme != ""
    && cmd.effective.from != UNSET && now != UNSET && Vouched(cmd.origin, cmd.confidence)
  }

  /** What an admitted claim becomes. */
  function ClaimFact(ref: Ref, cmd: Command, now: Instant): Fact
    requires cmd.AcceptHoldingClaim?
  {
    Recorded(ref, cmd.effective, now, cmd.origin, None, cmd.confidence, cmd.references, OBSERVATION,
             HoldingClaimed(cmd.account, cmd.instrument, cmd.quantity))
  }

  /** AcceptHoldingClaim: judged on its own merits, then on its reading alone. */
  lemma SubmissionOutcome(d: Deployment, streams: StreamMap, now: Instant, cmd: Command)
    requires GoodStreams(streams) && cmd.AcceptHoldingClaim?
    ensures var out, facts := Execute(d, streams, now, cmd), FactsOf(streams, cmd.stream);
            && (out.1.Ok? <==> Admits(cmd, now) && cmd.stream != "" && Later(facts, now))
            && (out.1.Ok? ==> Adds(streams, cmd.stream, ClaimFact(NextRef(streams, cmd.stream), cmd, now), out))
            && (out.1.Err? ==> Refuses(streams, out))
            && (out.1 == Err(ErrMalformedSource) <==> !Digested(cmd.origin.source))
            && (out.1 == Err(ErrIncompleteEnvelope) <==>
                  Digested(cmd.origin.source) && (cmd.account.scheme == "" || cmd.instrument.scheme == ""))
            && (out.1 == Err(ErrNonMonotonicKnowledge) <==> Admits(cmd, now) && cmd.stream != "" && !Later(facts, now))
            && (out.1 == Err(ErrEmptyType) <==> Admits(cmd, now) && cmd.stream == "")
  {
    hide MemoryAppend, Seal, GoodStreams, Digested, IsContentAddress;
    DigestedIffAddress(cmd.origin.source);
    SealOutcome(cmd.effective, now, cmd.origin, None, cmd.confidence, cmd.references);
    if BuildStated(cmd, now).Ok? {
      AppendOutcome(streams, cmd.stream, BuildStated(cmd, now).value);
    }
  }

  // ---- corrections --------------------------------------------------------------------------------

  /** The corrected reference is one of this stream's. */
  predicate Addresses(name: string, facts: seq<Fact>, ref: Ref) {
    ref.stream == name && 1 <= ref.sequence <= |facts|
  }

  /** CorrectFact: granted on a fact of the stream under one of the three kinds, over the
      interval of what it corrects. */
  lemma CorrectionOutcome(d: Deployment, streams: StreamMap, now: Instant, cmd: Command)
    requires GoodStreams(streams) && cmd.CorrectFact?
    ensures var out, facts := Execute(d, streams, now, cmd), FactsOf(streams, cmd.stream);
            var found := Addresses(cmd.stream, facts, cmd.corrects);
            && (out.1.Ok? <==> && found && 1 <= cmd.correction <= 3
                               && facts[cmd.corrects.sequence - 1].From() != UNSET && now != UNSET
                               && Vouched(cmd.origin, cmd.confidence) && Later(facts, now))
            && (out.1.Ok? ==>
                  Adds(streams, cmd.stream,
                       Recorded(NextRef(streams, cmd.stream),
                                facts[cmd.corrects.sequence - 1].envelope.coordinates.effective, now, cmd.origin, None,
                                cmd.confidence, [], OBSERVATION,
                                FactCorrected(cmd.corrects, cmd.correction, cmd.reason)), out))
            && (out.1.Err? ==> Refuses(streams, out))
            && (out.1 == Err(ErrStreamNotFound) <==> cmd.stream !in streams)
            && (out.1 == Err(ErrNotFound) <==> cmd.stream in streams && !found)
            && (out.1 == Err(ErrUnknownKind) <==> found && !(1 <= cmd.correction <= 3))
  {
    hide MemoryAppend, Seal, Numbered, Monotone;
    if cmd.stream in streams && Get(streams[cmd.stream], cmd.corrects).Ok? {
      var s := streams[cmd.stream];
      var corrected := Get(s, cmd.corrects).value;
      SealOutcome(corrected.envelope.coordinates.effective, now, cmd.origin, None, cmd.confidence, []);
      if BuildCorrection(cmd, s, now).Ok? {
        AppendOutcome(streams, cmd.stream, BuildCorrection(cmd, s, now).value);
      }
    }
  }

  // ---- mints --------------------------------------------------------------------------------------

  lemma CanonicalBlank(cases: CaseTables, s: string)
    ensures CanonicaliseSeed(cases, s) == "" <==> Blank(s)
  {
    BlankTrims(s);
    JoinNonEmpty(Fields(s));
  }

  /** A claim derives under a valid kind exactly if its scheme is not blank. */
  lemma ClaimDerivesIff(p: Platform, rules: Ruleset, kind: EntityKind, c: Claim)
    requires 1 <= kind <= 4 && c.scheme != ""
    ensures var r := DeriveFromClaim(p, kind, FoldClaim(rules, c));
            if Blank(c.scheme) then r == Err(ErrEmptySeed)
            else r == Ok(ID(kind, p.uuidV5(ClaimPreimage(p.cases, kind, FoldClaim(rules, c)))))
  {
    hide CanonicaliseSeed, ClaimPreimage;
    var folded := FoldClaim(rules, c);
    CanonicalBlank(p.cases, folded.scheme);
    CanonicalBlank(p.cases, folded.Render());
    assert folded.Render()[|folded.scheme|] == ':';
  }

  /** A mint of this pre-image, known by now, is in force at this instant. */
  ghost predicate Taken(d: Deployment, facts: seq<Fact>, claim: Claim, from: Instant, now: Instant) {
    exists i :: && 0 <= i < |facts| && facts[i].payload.EntityMinted?
                && CanonicalPreimage(d.platform.cases, d.rules, facts[i].payload.bornFrom)
                   == CanonicalPreimage(d.platform.cases, d.rules, claim)
                && facts[i].Known() <= now && facts[i].envelope.coordinates.effective.Contains(from)
  }

  /** Everything a mint needs besides its place in the stream. */
  predicate SoundMint(cmd: Command, now: Instant)
    requires cmd.MintIdentity?
  {
    && Digested(cmd.origin.source) && 1 <= cmd.kind <= 4 && !Blank(cmd.claim.scheme)
    && cmd.stream != "" && cmd.effective.from != UNSET && now != UNSET && Vouched(cmd.origin, cmd.confidence)
  }

  /** How a mint was computed: the fact it answers, the claim, the kind, the canonical
      seed and the ruleset version. */
  function MintDerivation(d: Deployment, cmd: Command): Derivation
    requires cmd.MintIdentity?
  {
    Derivation(
      Method("ledger.MintFor", "1"),
      if cmd.answers.stream != "" then [cmd.answers.stream + "#" + Decimal(cmd.answers.sequence)] else [],
      SortBy(ByName, [Parameter("claim", cmd.claim.scheme + ":" + cmd.claim.value),
                      Parameter("kind", EntityKindName(cmd.kind)),
                      Parameter("seed", CanonicalSeed(d.platform.cases, d.rules, cmd.claim)),
                      Parameter("canonicalisation", d.rules.version)]),
      [], cmd.confidence)
  }

  /** What a granted mint becomes: the identifier its claim derives under the kind asked
      for, and the claim verbatim. */
  function MintFact(d: Deployment, ref: Ref, cmd: Command, now: Instant): Fact
    requires cmd.MintIdentity?
  {
    Recorded(ref, cmd.effective, now, cmd.origin, Some(d.platform.sha256(DerivationPreimage(MintDerivation(d, cmd)))),
             cmd.confidence, cmd.references, OCCURRENCE,
             EntityMinted(ID(cmd.kind, d.platform.uuidV5(ClaimPreimage(d.platform.cases, cmd.kind,
                                                                       FoldClaim(d.rules, cmd.claim)))),
                          cmd.claim))
  }

  lemma MintForOutcome(d: Deployment, cmd: Command)
    requires cmd.MintIdentity? && 1 <= cmd.kind <= 4 && cmd.claim.scheme != ""
    ensures var answers := if cmd.answers.stream != "" then [cmd.answers.Render()] else [];
            var r := MintFor(d.platform, d.rules, cmd.kind, cmd.claim, answers, cmd.confidence);
            if Blank(cmd.claim.scheme) then r == Err(ErrEmptySeed)
            else if !(1 <= cmd.confidence <= 5) then r == Err(ErrUnknownConfidence)
            else && r.Ok? && r.value.value == MintFact(d, Ref("", 0), cmd, 0).payload
                 && r.value.trace == d.platform.sha256(DerivationPreimage(MintDerivation(d, cmd)))
                 && r.value.trace != ""
  {
    hide DerivationPreimage, SortBy, FoldClaim, CanonicalSeed, EntityKindName, DeriveFromClaim, ClaimPreimage, Blank;
    ClaimDerivesIff(d.platform, d.rules, cmd.kind, cmd.claim);
    NoReferences();
  }

  lemma NoReferences()
    ensures SortBy(ByDataset, []) == []
  {
  }

  /** MintIdentity: granted exactly if nothing that is known answers where it begins. */
  lemma MintOutcome(d: Deployment, streams: StreamMap, now: Instant, cmd: Command)
    requires GoodStreams(streams) && cmd.MintIdentity?
    ensures var out, facts := Execute(d, streams, now, cmd), FactsOf(streams, cmd.stream);
            && (out.1.Ok? <==> && SoundMint(cmd, now) && Later(facts, now)
                               && !Taken(d, facts, cmd.claim, cmd.effective.from, now))
            && (out.1.Ok? ==> Adds(streams, cmd.stream, MintFact(d, NextRef(streams, cmd.stream), cmd, now), out))
            && (out.1.Err? ==> Refuses(streams, out))
            && (out.1 == Err(ErrMalformedSource) <==> !Digested(cmd.origin.source))
            && (out.1 == Err(ErrUnknownEntityKind) <==> Digested(cmd.origin.source) && !(1 <= cmd.kind <= 4))
            && (out.1 == Err(ErrAlreadyMinted) <==>
                  && Digested(cmd.origin.source) && 1 <= cmd.kind <= 4 && cmd.claim.scheme != "" && cmd.stream != ""
                  && cmd.effective.from != UNSET && now != UNSET
                  && Taken(d, facts, cmd.claim, cmd.effective.from, now))
  {
    hide MemoryAppend, Seal, Numbered, Monotone, Digested, IsContentAddress, MintFor, Resolve, Answers,
         CanonicalPreimage, Interval.Contains, MintDerivation, DerivationPreimage, ClaimPreimage, FoldClaim;
    DigestedIffAddress(cmd.origin.source);
    var facts := FactsOf(streams, cmd.stream);
    var s := Stream(cmd.stream, facts);
    assert cmd.stream != "" ==> ReadFrom(cmd, streams) == Ok(s);
    TakenIffResolves(d, s, cmd.claim, cmd.effective.from, now);
    if 1 <= cmd.kind <= 4 && cmd.claim.scheme != "" {
      MintForOutcome(d, cmd);
      SealOutcome(cmd.effective, now, cmd.origin, Some(MintFact(d, Ref("", 0), cmd, now).envelope.provenance.derivation.value),
                  cmd.confidence, cmd.references);
      if BuildMint(d, cmd, s, now).Ok? {
        AppendOutcome(streams, cmd.stream, BuildMint(d, cmd, s, now).value);
      }
    }
  }

  lemma TakenIffResolves(d: Deployment, s: Stream, claim: Claim, from: Instant, now: Instant)
    ensures Resolve(d.platform.cases, d.rules, s, claim, AsOf(from, now)).Ok?
       <==> Taken(d, s.facts, claim, from, now)
  {
    hide Resolve, CanonicalPreimage, Interval.Contains;
    ResolvesIffAnswered(d.platform.cases, d.rules, s, claim, AsOf(from, now));
  }

  // ---- derived observations ---------------------------------------------------------------------------

  /** How an observation was derived: from the claim fact and the two mints that answered. */
  function ObservationDerivation(d: Deployment, claimed: Fact, account: Ref, instrument: Ref, a: AsOf): Derivation
    requires claimed.payload.HoldingClaimed?
  {
    var x, y := claimed.payload.account, claimed.payload.instrument;
    Derivation(
      Method("ledger.DeriveHoldingObserved", "1"),
      [claimed.ref.stream + "#" + Decimal(claimed.ref.sequence),
       account.stream + "#" + Decimal(account.sequence),
       instrument.stream + "#" + Decimal(instrument.sequence)],
      SortBy(ByName, [Parameter("account_claim", x.scheme + ":" + x.value),
                      Parameter("instrument_claim", y.scheme + ":" + y.value),
                      Parameter("as_of", "effective=" + d.platform.rfc3339(a.effective)
                                         + " knowledge=" + d.platform.rfc3339(a.knowledge)),
                      Parameter("canonicalisation", d.rules.version)]),
      [], claimed.Confidence())
  }

  /** What a claim becomes once both its parties are known. */
  function ObservationFact(d: Deployment, ref: Ref, cmd: Command, now: Instant, claimed: Fact, account: (ID, Ref),
                           instrument: (ID, Ref)): Fact
    requires cmd.ObserveClaimedHolding? && claimed.payload.HoldingClaimed?
  {
    Recorded(ref, claimed.envelope.coordinates.effective, now, cmd.origin,
             Some(d.platform.sha256(DerivationPreimage(
               ObservationDerivation(d, claimed, account.1, instrument.1, cmd.asOf)))),
             claimed.Confidence(), claimed.envelope.references, OBSERVATION,
             HoldingObserved(Holding(account.0, instrument.0, claimed.payload.quantity)))
  }

  lemma DeriveOutcome(d: Deployment, s: Stream, claimed: Fact, a: AsOf)
    ensures var r := DeriveHoldingObserved(d.platform, d.rules, s, claimed, a);
            if !claimed.payload.HoldingClaimed? then r == Err(ErrEmptyType)
            else
              var x := ResolveWithTrace(d.platform.cases, d.rules, s, claimed.payload.account, a);
              var y := ResolveWithTrace(d.platform.cases, d.rules, s, claimed.payload.instrument, a);
              if x.Err? || y.Err? then r == Err(ErrUnresolved)
              else if !(1 <= claimed.Confidence() <= 5) then r == Err(ErrUnknownConfidence)
              else && r.Ok? && r.value.value == Holding(x.value.0, y.value.0, claimed.payload.quantity)
                   && r.value.record.body == ObservationDerivation(d, claimed, x.value.1, y.value.1, a)
                   && r.value.trace == d.platform.sha256(DerivationPreimage(r.value.record.body))
                   && r.value.trace != ""
  {
    hide DerivationPreimage, SortBy, FirstAnswer, VisibleAt;
    NoReferences();
  }

  lemma TracedIffTaken(d: Deployment, s: Stream, claim: Claim, a: AsOf)
    ensures ResolveWithTrace(d.platform.cases, d.rules, s, claim, a).Ok?
       <==> Taken(d, s.facts, claim, a.effective, a.knowledge)
  {
    hide ResolveWithTrace, CanonicalPreimage, Interval.Contains;
    ResolvesIffAnswered(d.platform.cases, d.rules, s, claim, a);
  }

  /** ObserveClaimedHolding: granted exactly for a claim fact of the stream both of whose
      parties are minted at the coordinate asked at. */
  lemma ClaimedHoldingOutcome(d: Deployment, streams: StreamMap, now: Instant, cmd: Command)
    requires GoodStreams(streams) && cmd.ObserveClaimedHolding?
    ensures var out, facts, a := Execute(d, streams, now, cmd), FactsOf(streams, cmd.stream), cmd.asOf;
            var found := Addresses(cmd.stream, facts, cmd.claimRef);
            var claim := found && facts[cmd.claimRef.sequence - 1].payload.HoldingClaimed?;
            && (out.1 == Err(ErrStreamNotFound) <==> cmd.stream !in streams)
            && (out.1 == Err(ErrNotFound) <==> cmd.stream in streams && !found)
            && (out.1 == Err(ErrEmptyType) <==> found && !claim)
            && (out.1.Err? ==> Refuses(streams, out))
            && (out.1.Ok? ==> claim)
            && (claim ==>
                  var f := facts[cmd.claimRef.sequence - 1];
                  var minted := && Taken(d, facts, f.payload.account, a.effective, a.knowledge)
                                && Taken(d, facts, f.payload.instrument, a.effective, a.knowledge);
                  && (out.1 == Err(ErrUnresolved) <==> !minted)
                  && (out.1.Ok? <==> && minted && f.From() != UNSET && now != UNSET
                                     && Vouched(cmd.origin, f.Confidence()) && Later(facts, now)))
            && (out.1.Ok? ==>
                  var f, s := facts[cmd.claimRef.sequence - 1], Stream(cmd.stream, facts);
                  var x := ResolveWithTrace(d.platform.cases, d.rules, s, f.payload.account, a);
                  var y := ResolveWithTrace(d.platform.cases, d.rules, s, f.payload.instrument, a);
                  && x.Ok? && y.Ok?
                  && Adds(streams, cmd.stream,
                          ObservationFact(d, NextRef(streams, cmd.stream), cmd, now, f, x.value, y.value), out))
  {
    hide MemoryAppend, Seal, Numbered, Monotone, DeriveHoldingObserved, ResolveWithTrace, Taken,
         ObservationDerivation, DerivationPreimage;
    if cmd.stream in streams && Get(streams[cmd.stream], cmd.claimRef).Ok? {
      var s := streams[cmd.stream];
      var f := Get(s, cmd.claimRef).value;
      DeriveOutcome(d, s, f, cmd.asOf);
      if f.payload.HoldingClaimed? {
        TracedIffTaken(d, s, f.payload.account, cmd.asOf);
        TracedIffTaken(d, s, f.payload.instrument, cmd.asOf);
        var observed := DeriveHoldingObserved(d.platform, d.rules, s, f, cmd.asOf);
        if observed.Ok? {
          SealOutcome(f.envelope.coordinates.effective, now, cmd.origin, Some(observed.value.trace), f.Confidence(),
                      f.envelope.references);
          ConfidenceOfObservation(d, f, cmd.asOf);
          if BuildObservation(d, cmd, s, now).Ok? {
            AppendOutcome(streams, cmd.stream, BuildObservation(d, cmd, s, now).value);
          }
        }
      }
    }
  }

  lemma ConfidenceOfObservation(d: Deployment, claimed: Fact, a: AsOf)
    requires claimed.payload.HoldingClaimed?
    ensures forall x, y :: ObservationDerivation(d, claimed, x, y, a).confidence == claimed.Confidence()
  {
  }
}
