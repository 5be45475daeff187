/** What the code does not promise, shown by runs that end where a reader of its
    comments would not expect. */
module ProtocolLimits {
  import opened Results
  import opened Temporal
  import opened Identity
  import opened Provenance
  import opened Facts
  import opened Streams
  import opened Resolution
  import opened Stores
  import opened Ledger
  import opened LedgerLaws
  import opened Outcomes
  import opened Effects
  import opened Protocol
  import opened ProtocolSafety
  import opened ProtocolReach

  lemma RunsHoldGoodStreams(c: Config, run: seq<Action>)
    ensures GoodStreams(After(c, run).streams)
  {
    hide After, GoodStream, Lawful, LogOk, WriterOk;
    RunKeepsInv(c, run);
  }

  // ---- regions are not enough --------------------------------------------------------------

  /** Exclusive regions cannot tell two readings apart: two submissions that read one
      instant, one after the other, are one admission and one refusal. */
  lemma RefusedWithoutClock(c: Config, cmd: Command, now: Instant) returns (run: seq<Action>)
    requires !c.strictClock && cmd.AcceptHoldingClaim? && Admits(cmd, now) && cmd.stream != ""
    ensures |After(c, run).log| == 2
    ensures After(c, run).log[0].result.Ok?
    ensures After(c, run).log[1].result == Err(ErrNonMonotonicKnowledge)
  {
    hide After, Execute, Admits, GoodStream;
    Beginning(c);
    var first := RunsAlone(c, [], 0, cmd, now);
    run := RunsAlone(c, first, 1, cmd, now);
    RunsHoldGoodStreams(c, first);
    SubmissionOutcome(c.d, map[], now, cmd);
    SubmissionOutcome(c.d, After(c, first).streams, now, cmd);
  }

  // ---- one claim, two mints -----------------------------------------------------------------

  /** "Exactly one mint per claim" fails in a run of two commands, under any regions and
      an advancing clock: the first mint starts late, the second early. */
  lemma OneClaimMintedTwice(c: Config, late: Command, early: Command, t0: Instant, t1: Instant)
    returns (run: seq<Action>)
    requires late.MintIdentity? && early.MintIdentity? && UNSET < t0 < t1
    requires SoundMint(late, t0) && SoundMint(early, t1)
    requires early.stream == late.stream && early.claim == late.claim
    requires early.effective.from < late.effective.from
    ensures late.stream in After(c, run).streams
    ensures After(c, run).streams[late.stream].facts
         == [MintFact(c.d, Ref(late.stream, 1), late, t0), MintFact(c.d, Ref(late.stream, 2), early, t1)]
  {
    hide After, Execute, GoodStream, CanonicalPreimage, MintDerivation, DerivationPreimage, ClaimPreimage, FoldClaim,
         Digested;
    Beginning(c);
    var first := RunsAlone(c, [], 0, late, t0);
    run := RunsAlone(c, first, 0, early, t1);
    RunsHoldGoodStreams(c, first);
    MintOutcome(c.d, map[], t0, late);
    MintOutcome(c.d, After(c, first).streams, t1, early);
  }

  // ---- an observation more trustworthy than its mints --------------------------------------------

  /** The four commands of the run below, one after the other on one stream. */
  ghost predicate Story(claim: Command, account: Command, instrument: Command, observe: Command,
                        t0: Instant, t1: Instant, t2: Instant, t3: Instant) {
    && UNSET < t0 < t1 < t2 < t3
    && claim.AcceptHoldingClaim? && Admits(claim, t0) && claim.stream != ""
    && account.MintIdentity? && SoundMint(account, t1) && account.effective.Valid()
    && instrument.MintIdentity? && SoundMint(instrument, t2) && instrument.effective.Valid()
    && account.claim == claim.account && account.effective.from == claim.effective.from
    && instrument.claim == claim.instrument && instrument.effective.from == claim.effective.from
    && instrument.confidence == account.confidence && claim.confidence < account.confidence
    && observe.ObserveClaimedHolding? && observe.claimRef == Ref(claim.stream, 1)
    && observe.asOf == AsOf(claim.effective.from, t2) && Vouched(observe.origin, claim.confidence)
    && account.stream == claim.stream && instrument.stream == claim.stream && observe.stream == claim.stream
  }

  lemma StartIsInside(i: Interval)
    requires i.Valid()
    ensures i.Contains(i.from)
  {
  }

  /** Appended or refused, a sound mint leaves its claim minted where it begins. */
  lemma MintSettles(d: Deployment, streams: StreamMap, now: Instant, cmd: Command)
    requires GoodStreams(streams) && cmd.MintIdentity? && SoundMint(cmd, now) && cmd.effective.Valid()
    requires Later(FactsOf(streams, cmd.stream), now)
    ensures var streams' := Execute(d, streams, now, cmd).0;
            var facts, facts' := FactsOf(streams, cmd.stream), FactsOf(streams', cmd.stream);
            && (facts' == facts || facts' == facts + [MintFact(d, NextRef(streams, cmd.stream), cmd, now)])
            && Taken(d, facts', cmd.claim, cmd.effective.from, now)
  {
    hide Execute, CanonicalPreimage, MintDerivation, DerivationPreimage, ClaimPreimage, FoldClaim, SoundMint,
         GoodStreams, Interval.Contains;
    MintOutcome(d, streams, now, cmd);
    StartIsInside(cmd.effective);
    SoundIsDigested(cmd, now);
    var facts, facts' := FactsOf(streams, cmd.stream), FactsOf(Execute(d, streams, now, cmd).0, cmd.stream);
    if !Taken(d, facts, cmd.claim, cmd.effective.from, now) {
      assert facts'[|facts|] == MintFact(d, NextRef(streams, cmd.stream), cmd, now);
    }
  }

  lemma SoundIsDigested(cmd: Command, now: Instant)
    requires cmd.MintIdentity? && SoundMint(cmd, now)
    ensures Digested(cmd.origin.source) && 1 <= cmd.kind <= 4 && cmd.claim.scheme != "" && cmd.stream != ""
    ensures cmd.effective.from != UNSET && now != UNSET
  {
    hide Digested;
  }

  lemma TakenGrows(d: Deployment, facts: seq<Fact>, more: seq<Fact>, claim: Claim, from: Instant, t: Instant, t': Instant)
    requires Taken(d, facts, claim, from, t) && facts <= more && t <= t'
    ensures Taken(d, more, claim, from, t')
  {
    hide CanonicalPreimage;
  }

  /** The facts of the stream before the observation: the claim and one or two mints. */
  lemma Settles(d: Deployment, claim: Command, account: Command, instrument: Command, observe: Command,
                t0: Instant, t1: Instant, t2: Instant, t3: Instant)
    requires Story(claim, account, instrument, observe, t0, t1, t2, t3)
    requires GoodStreams(Execute(d, map[], t0, claim).0)
    requires GoodStreams(Execute(d, Execute(d, map[], t0, claim).0, t1, account).0)
    ensures var streams := Execute(d, Execute(d, Execute(d, map[], t0, claim).0, t1, account).0, t2, instrument).0;
            var facts := FactsOf(streams, claim.stream);
            && facts != [] && facts[0] == ClaimFact(Ref(claim.stream, 1), claim, t0) && Later(facts, t3)
            && (forall i :: 0 <= i < |facts| && facts[i].payload.EntityMinted? ==>
                  facts[i].Confidence() == account.confidence)
            && Taken(d, facts, claim.account, claim.effective.from, t2)
            && Taken(d, facts, claim.instrument, claim.effective.from, t2)
  {
    hide Execute, SoundMint, Admits, Taken, GoodStreams, MintDerivation, DerivationPreimage, ClaimPreimage, FoldClaim;
    var one := Execute(d, map[], t0, claim).0;
    EmptyIsGood();
    SubmissionOutcome(d, map[], t0, claim);
    var two := Execute(d, one, t1, account).0;
    MintSettles(d, one, t1, account);
    MintSettles(d, two, t2, instrument);
    var three := Execute(d, two, t2, instrument).0;
    TakenGrows(d, FactsOf(two, claim.stream), FactsOf(three, claim.stream), claim.account, claim.effective.from, t1, t2);
  }

  lemma EmptyIsGood()
    ensures GoodStreams(map[])
  {
  }

  /** A run whose observation is recorded as more trustworthy than the mint it was
      resolved through, under any regions and an advancing clock. */
  lemma StrongerThanItsMints(c: Config, claim: Command, account: Command, instrument: Command, observe: Command,
                             t0: Instant, t1: Instant, t2: Instant, t3: Instant) returns (run: seq<Action>, m: Fact)
    requires Story(claim, account, instrument, observe, t0, t1, t2, t3)
    ensures claim.stream in After(c, run).streams
    ensures var facts := After(c, run).streams[claim.stream].facts;
            var n := |facts| - 1;
            && n > 0 && facts[n].payload.HoldingObserved?
            && m in facts[..n] && m.payload.EntityMinted? && facts[n].payload.holding.account == m.payload.entity
            && facts[n].Confidence() < m.Confidence()
  {
    hide After, Execute, SoundMint, Admits, Taken, Resolve, ResolveWithTrace, ObservationDerivation, DerivationPreimage,
         Answers, GoodStream;
    Beginning(c);
    var one := RunsAlone(c, [], 0, claim, t0);
    var two := RunsAlone(c, one, 0, account, t1);
    var three := RunsAlone(c, two, 0, instrument, t2);
    run := RunsAlone(c, three, 0, observe, t3);
    RunsHoldGoodStreams(c, one);
    RunsHoldGoodStreams(c, two);
    RunsHoldGoodStreams(c, three);
    Settles(c.d, claim, account, instrument, observe, t0, t1, t2, t3);
    var streams := After(c, three).streams;
    var s := Stream(claim.stream, FactsOf(streams, claim.stream));
    FromOfClaim(claim, t0);
    ClaimedHoldingOutcome(c.d, streams, t3, observe);
    ResolvedFirst(c.d, s, claim.account, observe.asOf);
    var i := VisibleAnswer(c.d, s, claim.account, observe.asOf);
    m := s.facts[i];
  }

  lemma FromOfClaim(claim: Command, t: Instant)
    requires claim.AcceptHoldingClaim? && Admits(claim, t)
    ensures claim.effective.from != UNSET && ClaimFact(Ref(claim.stream, 1), claim, t).From() == claim.effective.from
  {
    hide Digested;
  }

  lemma ResolvedFirst(d: Deployment, s: Stream, claim: Claim, a: AsOf)
    ensures var x := ResolveWithTrace(d.platform.cases, d.rules, s, claim, a);
            var r := Resolve(d.platform.cases, d.rules, s, claim, a);
            x.Ok? ==> r == Ok(x.value.0)
  {
    hide FirstAnswer, VisibleAt;
  }
}
