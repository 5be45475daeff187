/** What a granted write changes in the answers to later questions: reading back what was
    written, and nothing else. */
module Effects {
  import opened Results
  import opened Temporal
  import opened Sorting
  import opened Identity
  import opened Provenance
  import opened Explained
  import opened Facts
  import opened Streams
  import opened Resolution
  import opened Positions
  import opened Stores
  import opened Ledger
  import opened LedgerLaws
  import opened Outcomes

  // ---- one more fact ------------------------------------------------------------------------

  lemma VisibleAfter(s: Stream, f: Fact, a: AsOf)
    ensures VisibleAt(Stream(s.name, s.facts + [f]), a)
         == if f.Visible(a) then Insert(Earlier, VisibleAt(s, a), f) else VisibleAt(s, a)
  {
    assert (s.facts + [f])[..|s.facts|] == s.facts;
    var v := VisibleFacts(s.facts, a);
    assert f.Visible(a) ==> (v + [f])[..|v|] == v;
    assert v + [] == v;
  }

  /** A fact a projection passes over leaves no mark in what it consumes. */
  lemma {:induction false} ConsumedInInsert(visible: seq<Fact>, f: Fact, retracted: set<Ref>, account: ID, instrument: ID)
    requires f.ref in retracted || !Matches(f, account, instrument)
    ensures ConsumedIn(Insert(Earlier, visible, f), retracted, account, instrument)
         == ConsumedIn(visible, retracted, account, instrument)
  {
    if visible == [] || !Earlier(f, visible[|visible| - 1]) {
      assert (visible + [f])[..|visible|] == visible;
    } else {
      var n := |visible| - 1;
      var rest := Insert(Earlier, visible[..n], f);
      ConsumedInInsert(visible[..n], f, retracted, account, instrument);
      assert (rest + [visible[n]])[..|rest|] == rest;
    }
  }

  /** Only a retraction changes what is retracted. */
  lemma RetractionsAfter(s: Stream, f: Fact, a: AsOf)
    ensures var t := Stream(s.name, s.facts + [f]);
            Retractions(t, a) == Retractions(s, a)
              + if f.Visible(a) && f.payload.FactCorrected? && f.payload.correction == 2 then {f.payload.corrects} else {}
  {
    hide Retractions;
    var t := Stream(s.name, s.facts + [f]);
    forall ref: Ref
      ensures ref in Retractions(t, a) <==>
                ref in Retractions(s, a)
                || (f.Visible(a) && f.payload.FactCorrected? && f.payload.correction == 2 && f.payload.corrects == ref)
    {
      RetractionsMeaning(s, a, ref);
      RetractionsMeaning(t, a, ref);
      assert forall c :: c in t.facts <==> c in s.facts || c == f;
    }
  }

  lemma SameConsumedSameProjection(d: Deployment, s: Stream, t: Stream, account: ID, instrument: ID, a: AsOf)
    requires Consumed(s, account, instrument, a) == Consumed(t, account, instrument, a)
    ensures Projected(d.platform, s, account, instrument, a) == Projected(d.platform, t, account, instrument, a)
  {
    hide Consumed, LiftAll, Folded;
  }

  /** A fact that neither observes this holding nor retracts anything moves no position,
      value or trace: claims, mints, corrections of the other two kinds, observations of
      other holdings. */
  lemma OthersMoveNothing(d: Deployment, s: Stream, f: Fact, account: ID, instrument: ID, a: AsOf)
    requires !(f.payload.HoldingObserved? && f.payload.holding.account == account
               && f.payload.holding.instrument == instrument)
    requires !(f.payload.FactCorrected? && f.payload.correction == 2)
    ensures Projected(d.platform, Stream(s.name, s.facts + [f]), account, instrument, a)
         == Projected(d.platform, s, account, instrument, a)
  {
    hide VisibleAt, Retractions, Projected;
    var t := Stream(s.name, s.facts + [f]);
    VisibleAfter(s, f, a);
    RetractionsAfter(s, f, a);
    assert Retractions(s, a) + {} == Retractions(s, a);
    ConsumedInInsert(VisibleAt(s, a), f, Retractions(s, a), account, instrument);
    SameConsumedSameProjection(d, s, t, account, instrument, a);
  }

  // ---- an observation is read back ---------------------------------------------------------------

  /** No observation of this holding that counts at a starts later than from. */
  ghost predicate NothingAfter(s: Stream, account: ID, instrument: ID, a: AsOf, from: Instant) {
    forall g :: Eligible(s, account, instrument, a, g) ==> g.From() <= from
  }

  lemma GreatestIsUnique(s: Stream, account: ID, instrument: ID, a: AsOf, f: Fact, g: Fact)
    requires Greatest(s, account, instrument, a, f) && Greatest(s, account, instrument, a, g)
    ensures f == g
  {
    hide Eligible;
  }

  ghost predicate Trusted(s: Stream) {
    forall i :: 0 <= i < |s.facts| ==> ValidConfidence(s.facts[i].Confidence())
  }

  /** A fact at the end of its stream that nothing before it could have corrected. */
  ghost predicate JoinsAtEnd(s: Stream, f: Fact) {
    && f.ref == Ref(s.name, |s.facts| + 1) && ValidConfidence(f.Confidence())
    && (forall i :: 0 <= i < |s.facts| ==> s.facts[i].Known() < f.Known())
    && (forall i :: 0 <= i < |s.facts| && s.facts[i].payload.FactCorrected? ==> s.facts[i].payload.corrects != f.ref)
  }

  /** An observation joins what counts, and displaces nothing. */
  lemma EligibleAfter(s: Stream, f: Fact, account: ID, instrument: ID, a: AsOf, g: Fact)
    requires JoinsAtEnd(s, f) && f.Visible(a) && Matches(f, account, instrument)
    ensures Eligible(Stream(s.name, s.facts + [f]), account, instrument, a, g)
       <==> Eligible(s, account, instrument, a, g) || g == f
  {
    var t := Stream(s.name, s.facts + [f]);
    assert forall c :: c in t.facts <==> c in s.facts || c == f;
    assert Retracted(t, a, g.ref) <==> Retracted(s, a, g.ref);
  }

  /** The greatest observation after one more: the new one, unless some other starts later. */
  lemma GreatestAfter(s: Stream, f: Fact, account: ID, instrument: ID, a: AsOf, g: Fact)
    requires JoinsAtEnd(s, f) && f.Visible(a) && Matches(f, account, instrument)
    requires g == f || Greatest(s, account, instrument, a, g)
    requires g == f <==> NothingAfter(s, account, instrument, a, f.From())
    ensures Greatest(Stream(s.name, s.facts + [f]), account, instrument, a, g)
  {
    hide Retracted, Matches;
    var t := Stream(s.name, s.facts + [f]);
    forall h
      ensures Eligible(t, account, instrument, a, h) <==> Eligible(s, account, instrument, a, h) || h == f
    {
      EligibleAfter(s, f, account, instrument, a, h);
    }
    if g != f {
      var late :| Eligible(s, account, instrument, a, late) && f.From() < late.From();
      assert late == g || Earlier(late, g);
    }
  }

  lemma PositionAfter(d: Deployment, s: Stream, f: Fact, account: ID, instrument: ID, a: AsOf)
    requires Numbered(s) && Trusted(s) && JoinsAtEnd(s, f)
    requires f.Visible(a) && f.payload.HoldingObserved? && f.payload.holding.account == account
    requires f.payload.holding.instrument == instrument
    ensures var r, r' := Projected(d.platform, s, account, instrument, a),
                         Projected(d.platform, Stream(s.name, s.facts + [f]), account, instrument, a);
            && r'.Ok? && r'.value.value.account == account && r'.value.value.instrument == instrument
            && if NothingAfter(s, account, instrument, a, f.From())
               then r'.value.value.quantity == f.payload.holding.quantity
               else r.Ok? && r'.value.value.quantity == r.value.value.quantity
  {
    hide Projected, Eligible, Greatest, Consumed, NothingAfter, ObservationTrace;
    var t := Stream(s.name, s.facts + [f]);
    ProjectionIsGreatestEligible(d.platform, s, account, instrument, a);
    ProjectionIsGreatestEligible(d.platform, t, account, instrument, a);
    ProjectionOfConsumed(d.platform, t, account, instrument, a);
    EligibleAfter(s, f, account, instrument, a, f);
    var g' :| Greatest(t, account, instrument, a, g') && g'.payload.HoldingObserved?
              && Projected(d.platform, t, account, instrument, a).value.value.quantity == g'.payload.holding.quantity;
    if NothingAfter(s, account, instrument, a, f.From()) {
      GreatestAfter(s, f, account, instrument, a, f);
      GreatestIsUnique(t, account, instrument, a, f, g');
    } else {
      SomethingCounts(s, account, instrument, a, f.From());
      var g :| Greatest(s, account, instrument, a, g) && g.payload.HoldingObserved?
               && Projected(d.platform, s, account, instrument, a).value.value.quantity == g.payload.holding.quantity;
      NotTheNewcomer(s, f, account, instrument, a, g);
      GreatestAfter(s, f, account, instrument, a, g);
      GreatestIsUnique(t, account, instrument, a, g, g');
    }
  }

  lemma SomethingCounts(s: Stream, account: ID, instrument: ID, a: AsOf, from: Instant)
    requires !NothingAfter(s, account, instrument, a, from)
    ensures exists g :: Eligible(s, account, instrument, a, g)
  {
  }

  lemma NotTheNewcomer(s: Stream, f: Fact, account: ID, instrument: ID, a: AsOf, g: Fact)
    requires JoinsAtEnd(s, f) && Greatest(s, account, instrument, a, g)
    ensures g != f
  {
  }

  /** Once observed, a holding is what its position says wherever the observation is in
      force and known, unless an observation that starts later already said otherwise. */
  lemma ObservedIsProjected(d: Deployment, streams: StreamMap, now: Instant, cmd: Command, a: AsOf)
    requires GoodStreams(streams) && cmd.ObserveHolding? && Execute(d, streams, now, cmd).1.Ok?
    requires Lawful(d, Stream(cmd.stream, FactsOf(streams, cmd.stream)))
    requires now <= a.knowledge && cmd.effective.Contains(a.effective)
    ensures var s := Stream(cmd.stream, FactsOf(streams, cmd.stream));
            var h, streams' := cmd.holding, Execute(d, streams, now, cmd).0;
            && cmd.stream in streams'
            && var r, r' := Projected(d.platform, s, h.account, h.instrument, a),
                            Projected(d.platform, streams'[cmd.stream], h.account, h.instrument, a);
               && r'.Ok? && r'.value.value.account == h.account && r'.value.value.instrument == h.instrument
               && if NothingAfter(s, h.account, h.instrument, a, cmd.effective.from)
                  then r'.value.value.quantity == h.quantity
                  else r.Ok? && r'.value.value.quantity == r.value.value.quantity
  {
    hide Execute, Projected, MintsSound, MintsDerived, NothingAfter;
    var s := Stream(cmd.stream, FactsOf(streams, cmd.stream));
    var f := Recorded(NextRef(streams, cmd.stream), cmd.effective, now, cmd.origin, None, cmd.confidence,
                      cmd.references, OBSERVATION, HoldingObserved(cmd.holding));
    ObserveHoldingOutcome(d, streams, now, cmd);
    LawfulJoins(d, s, f);
    PositionAfter(d, s, f, cmd.holding.account, cmd.holding.instrument, a);
  }

  lemma LawfulJoins(d: Deployment, s: Stream, f: Fact)
    requires Numbered(s) && Monotone(s) && Lawful(d, s) && Later(s.facts, f.Known())
    requires f.ref == Ref(s.name, |s.facts| + 1) && 1 <= f.Confidence() <= 5
    ensures Trusted(s) && JoinsAtEnd(s, f)
  {
    hide MintsSound, MintsDerived;
    forall i | 0 <= i < |s.facts| && s.facts[i].payload.FactCorrected?
      ensures s.facts[i].payload.corrects != f.ref
    {
      assert CorrectsEarlier(s, i);
    }
  }

  // ---- a retraction takes back one fact ------------------------------------------------------------

  /** After a granted retraction every projection that knows of it consumes what it would
      have, without the retracted fact; every projection that does not is as it was. */
  lemma RetractedIsGone(d: Deployment, streams: StreamMap, now: Instant, cmd: Command, account: ID, instrument: ID,
                        a: AsOf, g: Fact)
    requires GoodStreams(streams) && cmd.CorrectFact? && cmd.correction == 2 && Execute(d, streams, now, cmd).1.Ok?
    ensures var s, streams' := Stream(cmd.stream, FactsOf(streams, cmd.stream)), Execute(d, streams, now, cmd).0;
            && cmd.stream in streams' && Addresses(cmd.stream, s.facts, cmd.corrects)
            && var t, gone := streams'[cmd.stream], s.facts[cmd.corrects.sequence - 1];
               && (now <= a.knowledge ==>
                     (g in Consumed(t, account, instrument, a) <==> g in Consumed(s, account, instrument, a) && g != gone))
               && (a.knowledge < now ==>
                     Projected(d.platform, t, account, instrument, a) == Projected(d.platform, s, account, instrument, a))
  {
    hide Execute, Projected, Consumed, Matches;
    var s := Stream(cmd.stream, FactsOf(streams, cmd.stream));
    CorrectionOutcome(d, streams, now, cmd);
    var gone := s.facts[cmd.corrects.sequence - 1];
    var f := Recorded(NextRef(streams, cmd.stream), gone.envelope.coordinates.effective, now, cmd.origin, None,
                      cmd.confidence, [], OBSERVATION, FactCorrected(cmd.corrects, cmd.correction, cmd.reason));
    var t := Stream(cmd.stream, s.facts + [f]);
    assert Execute(d, streams, now, cmd).0[cmd.stream] == t;
    if now <= a.knowledge {
      ConsumedIsExact(s, account, instrument, a, g);
      ConsumedIsExact(t, account, instrument, a, g);
      TakenBack(s, f, gone, account, instrument, a, g);
    } else {
      VisibleAfter(s, f, a);
      SameVisible(d, s, t, account, instrument, a);
    }
  }

  lemma SameVisible(d: Deployment, s: Stream, t: Stream, account: ID, instrument: ID, a: AsOf)
    requires VisibleAt(s, a) == VisibleAt(t, a)
    ensures Projected(d.platform, t, account, instrument, a) == Projected(d.platform, s, account, instrument, a)
  {
    hide VisibleAt, Resolve, UnresolvedIn, Projected;
    QueriesReadVisible(d.platform, d.rules, t, s, Claim("", ""), account, instrument, a);
  }

  lemma TakenBack(s: Stream, f: Fact, gone: Fact, account: ID, instrument: ID, a: AsOf, g: Fact)
    requires Numbered(s) && gone in s.facts && f.Known() <= a.knowledge
    requires f.payload.FactCorrected? && f.payload.correction == 2 && f.payload.corrects == gone.ref
    requires f.envelope.coordinates.effective == gone.envelope.coordinates.effective
    ensures Eligible(Stream(s.name, s.facts + [f]), account, instrument, a, g)
       <==> Eligible(s, account, instrument, a, g) && g != gone
  {
    var t := Stream(s.name, s.facts + [f]);
    assert forall c :: c in t.facts <==> c in s.facts || c == f;
    assert g in s.facts ==> (g.ref == gone.ref <==> g == gone);
    assert f in t.facts;
    if Retracted(s, a, g.ref) {
      assert Retracted(t, a, g.ref);
    }
  }

  // ---- a mint is resolved ----------------------------------------------------------------------------

  /** Once minted, a claim resolves wherever the mint is in force and known; and under its
      kind alone, to the identifier that was minted. */
  lemma MintedResolves(d: Deployment, streams: StreamMap, now: Instant, cmd: Command, claim: Claim, a: AsOf)
    requires GoodStreams(streams) && cmd.MintIdentity? && Execute(d, streams, now, cmd).1.Ok?
    requires now <= a.knowledge && cmd.effective.Contains(a.effective)
    requires CanonicalPreimage(d.platform.cases, d.rules, claim)
          == CanonicalPreimage(d.platform.cases, d.rules, cmd.claim)
    ensures var streams' := Execute(d, streams, now, cmd).0;
            && cmd.stream in streams'
            && Resolve(d.platform.cases, d.rules, streams'[cmd.stream], claim, a).Ok?
            && (!Taken(d, FactsOf(streams, cmd.stream), claim, a.effective, a.knowledge) ==>
                  Resolve(d.platform.cases, d.rules, streams'[cmd.stream], claim, a)
                  == Ok(ID(cmd.kind, d.platform.uuidV5(ClaimPreimage(d.platform.cases, cmd.kind,
                                                                     FoldClaim(d.rules, cmd.claim))))))
  {
    hide Execute, Resolve, CanonicalPreimage, ClaimPreimage, FoldClaim, DerivationPreimage, MintDerivation;
    MintOutcome(d, streams, now, cmd);
    var facts := FactsOf(streams, cmd.stream);
    var f := MintFact(d, NextRef(streams, cmd.stream), cmd, now);
    var t := Stream(cmd.stream, facts + [f]);
    assert t.facts[|facts|] == f && f.Visible(a);
    TakenIffResolves(d, t, claim, a.effective, a.knowledge);
    assert Taken(d, t.facts, claim, a.effective, a.knowledge);
    if !Taken(d, facts, claim, a.effective, a.knowledge) {
      var i := VisibleAnswer(d, t, claim, a);
      assert i == |facts|;
    }
  }

  /** The mint a resolution read is visible. */
  lemma VisibleAnswer(d: Deployment, s: Stream, claim: Claim, a: AsOf) returns (i: nat)
    requires Resolve(d.platform.cases, d.rules, s, claim, a).Ok?
    ensures i < |s.facts| && Answers(d.platform.cases, d.rules, s.facts[i], claim) && s.facts[i].Visible(a)
    ensures s.facts[i].payload.EntityMinted?
    ensures Resolve(d.platform.cases, d.rules, s, claim, a) == Ok(s.facts[i].payload.entity)
  {
    hide Answers, VisibleAt, FirstAnswer;
    var visible := VisibleAt(s, a);
    FirstAnswerMeaning(d.platform.cases, d.rules, visible, claim);
    var f := FirstAnswer(d.platform.cases, d.rules, visible, claim).value;
    VisibleAtMembers(s, a, f);
    i :| 0 <= i < |s.facts| && s.facts[i] == f;
  }
}
