/** What a trace pins down: two computations share a derivation only if they asked the
    same question of the same facts. */
module TraceLaws {
  import opened Text
  import opened Framing
  import opened Temporal
  import opened Sorting
  import opened External
  import opened Identity
  import opened IdentityLaws
  import opened Provenance
  import opened DerivationLaws
  import opened Explained
  import opened Facts
  import opened Streams
  import opened Resolution
  import opened Positions

  /** Sorting parameters loses none of them: equal sorted lists hold equal values
      under every name that occurs once. */
  lemma SameParameter(ps: seq<Parameter>, qs: seq<Parameter>, i: nat, j: nat)
    requires SortBy(ByName, ps) == SortBy(ByName, qs)
    requires i < |ps| && j < |qs| && ps[i].name == qs[j].name
    requires forall k :: 0 <= k < |qs| && qs[k].name == qs[j].name ==> k == j
    ensures ps[i] == qs[j]
  {
    hide SortBy, ByName;
    ByNameOrders();
    SortBySorts(ByName, ps);
    SortBySorts(ByName, qs);
    assert ps[i] in multiset(ps);
    assert ps[i] in multiset(qs);
  }

  // ---- what a rendering gives back ------------------------------------------------------------

  /** RFC 3339 text tells two instants apart, and holds no space: what the rendering of
      a coordinate relies on. */
  ghost predicate ToldApart(p: Platform, i: Instant, j: Instant) {
    && NoSpace(p.rfc3339(i)) && NoSpace(p.rfc3339(j))
    && (p.rfc3339(i) == p.rfc3339(j) ==> i == j)
  }

  lemma RenderedCoordinates(p: Platform, a: AsOf, b: AsOf)
    requires ToldApart(p, a.effective, b.effective) && ToldApart(p, a.knowledge, b.knowledge)
    requires RenderAsOf(p, a) == RenderAsOf(p, b)
    ensures a == b
  {
    var head, tail := "effective=", "knowledge=";
    var x, y, x', y' := p.rfc3339(a.effective), p.rfc3339(a.knowledge), p.rfc3339(b.effective), p.rfc3339(b.knowledge);
    assert " knowledge=" == " " + tail;
    assert RenderAsOf(p, a) == head + x + (" " + (tail + y));
    assert RenderAsOf(p, b) == head + x' + (" " + (tail + y'));
    SplitAtSpace(x, tail + y, x', tail + y', head);
    assert y == (tail + y)[|tail|..] && y' == (tail + y')[|tail|..];
  }

  /** A text without spaces is fixed by what follows it up to the first space. */
  lemma SplitAtSpace(x: string, y: string, x': string, y': string, head: string)
    requires NoSpace(x) && NoSpace(x') && head + x + (" " + y) == head + x' + (" " + y')
    ensures x == x' && y == y'
  {
    var s, n := head + x + (" " + y), |head|;
    assert forall i :: 0 <= i < |x| ==> s[n + i] == x[i];
    assert forall i :: 0 <= i < |x'| ==> s[n + i] == x'[i];
    assert s[n + |x|] == ' ' && s[n + |x'|] == ' ';
    assert |x| == |x'|;
    assert x == s[n..n + |x|] && x' == s[n..n + |x|];
    assert y == s[n + |x| + 1..] && y' == s[n + |x| + 1..];
  }

  /** A claim reads back from its rendering when its scheme holds no colon. */
  lemma RenderedClaims(c: Claim, c': Claim)
    requires ':' !in c.scheme && ':' !in c'.scheme && c.Render() == c'.Render()
    ensures c == c'
  {
    var s, m, n := c.Render(), |c.scheme|, |c'.scheme|;
    assert s[m] == ':' && s[n] == ':';
    assert forall i :: 0 <= i < m ==> s[i] == c.scheme[i];
    assert forall i :: 0 <= i < n ==> s[i] == c'.scheme[i];
    assert m == n;
    assert c.scheme == s[..m] && c'.scheme == s[..m] && c.value == s[m + 1..] && c'.value == s[m + 1..];
  }

  // ---- derived observations and mints -----------------------------------------------------------

  /** The parameters of a derived observation. */
  ghost function ObservationParameters(p: Platform, rules: Ruleset, f: Fact, a: AsOf): seq<Parameter>
    requires f.payload.HoldingClaimed?
  {
    [Parameter("account_claim", f.payload.account.Render()),
     Parameter("instrument_claim", f.payload.instrument.Render()),
     Parameter("as_of", RenderAsOf(p, a)),
     Parameter("canonicalisation", rules.version)]
  }

  lemma NamesDiffer()
    ensures "account_claim" != "instrument_claim" && "account_claim" != "as_of"
    ensures "account_claim" != "canonicalisation" && "instrument_claim" != "as_of"
    ensures "instrument_claim" != "canonicalisation" && "as_of" != "canonicalisation"
    ensures "claim" != "kind" && "claim" != "seed" && "claim" != "canonicalisation"
    ensures "kind" != "seed" && "kind" != "canonicalisation" && "seed" != "canonicalisation"
    ensures "account" != "instrument" && "account" != "as_of" && "instrument" != "as_of"
  {
    assert "account_claim"[0] == 'a' && "instrument_claim"[0] == 'i' && "canonicalisation"[0] == 'c';
    assert |"as_of"| == 5 && |"account_claim"| == 13 && |"claim"| == 5 && |"kind"| == 4 && |"seed"| == 4;
    assert "kind"[0] == 'k' && "seed"[0] == 's' && |"account"| == 7 && |"instrument"| == 10;
  }

  lemma SameObservationParameters(p: Platform, rules: Ruleset, f: Fact, a: AsOf, rules': Ruleset, f': Fact, b: AsOf)
    requires f.payload.HoldingClaimed? && f'.payload.HoldingClaimed?
    requires SortBy(ByName, ObservationParameters(p, rules, f, a))
          == SortBy(ByName, ObservationParameters(p, rules', f', b))
    ensures f.payload.account.Render() == f'.payload.account.Render()
    ensures f.payload.instrument.Render() == f'.payload.instrument.Render()
    ensures RenderAsOf(p, a) == RenderAsOf(p, b) && rules.version == rules'.version
  {
    hide SortBy, RenderAsOf;
    NamesDiffer();
    var ps, qs := ObservationParameters(p, rules, f, a), ObservationParameters(p, rules', f', b);
    SameParameter(ps, qs, 0, 0);
    SameParameter(ps, qs, 1, 1);
    SameParameter(ps, qs, 2, 2);
    SameParameter(ps, qs, 3, 3);
  }

  lemma SameThree(a: Ref, b: Ref, e: Ref, a': Ref, b': Ref, e': Ref)
    requires [a.Render(), b.Render(), e.Render()] == [a'.Render(), b'.Render(), e'.Render()]
    ensures a == a' && b == b' && e == e'
  {
    hide Ref.Render;
    var xs, ys := [a.Render(), b.Render(), e.Render()], [a'.Render(), b'.Render(), e'.Render()];
    assert xs[0] == ys[0] && xs[1] == ys[1] && xs[2] == ys[2];
    RenderInjective(a, a');
    RenderInjective(b, b');
    RenderInjective(e, e');
  }

  /** Two observations share a derivation only if they come from one claim fact through
      the same two mints, asked at one rendered coordinate under one ruleset version for
      the same rendered claims.  The coordinate is the same where RFC 3339 tells its
      instants apart, the claims where their schemes hold no colon. */
  lemma ObservationTracePins(p: Platform, rules: Ruleset, s: Stream, f: Fact, a: AsOf,
                             rules': Ruleset, s': Stream, f': Fact, b: AsOf)
    requires DeriveHoldingObserved(p, rules, s, f, a).Ok? && DeriveHoldingObserved(p, rules', s', f', b).Ok?
    requires DeriveHoldingObserved(p, rules, s, f, a).value.record.body
          == DeriveHoldingObserved(p, rules', s', f', b).value.record.body
    ensures f.payload.HoldingClaimed? && f'.payload.HoldingClaimed?
    ensures f.ref == f'.ref && RenderAsOf(p, a) == RenderAsOf(p, b) && rules.version == rules'.version
    ensures f.payload.account.Render() == f'.payload.account.Render()
    ensures f.payload.instrument.Render() == f'.payload.instrument.Render()
    ensures ToldApart(p, a.effective, b.effective) && ToldApart(p, a.knowledge, b.knowledge) ==> a == b
    ensures ':' !in f.payload.account.scheme && ':' !in f'.payload.account.scheme ==>
              f.payload.account == f'.payload.account
    ensures ':' !in f.payload.instrument.scheme && ':' !in f'.payload.instrument.scheme ==>
              f.payload.instrument == f'.payload.instrument
    ensures var x, x' := ResolveWithTrace(p.cases, rules, s, f.payload.account, a),
                         ResolveWithTrace(p.cases, rules', s', f'.payload.account, b);
            x.Ok? && x'.Ok? && x.value.1 == x'.value.1
    ensures var y, y' := ResolveWithTrace(p.cases, rules, s, f.payload.instrument, a),
                         ResolveWithTrace(p.cases, rules', s', f'.payload.instrument, b);
            y.Ok? && y'.Ok? && y.value.1 == y'.value.1
  {
    hide ResolveWithTrace, DerivationPreimage, SortBy, RenderAsOf, Ref.Render, Claim.Render, ToldApart;
    var x, y := ResolveWithTrace(p.cases, rules, s, f.payload.account, a),
                ResolveWithTrace(p.cases, rules, s, f.payload.instrument, a);
    var x', y' := ResolveWithTrace(p.cases, rules', s', f'.payload.account, b),
                  ResolveWithTrace(p.cases, rules', s', f'.payload.instrument, b);
    SameThree(f.ref, x.value.1, y.value.1, f'.ref, x'.value.1, y'.value.1);
    SameObservationParameters(p, rules, f, a, rules', f', b);
    if ToldApart(p, a.effective, b.effective) && ToldApart(p, a.knowledge, b.knowledge) {
      RenderedCoordinates(p, a, b);
    }
    if ':' !in f.payload.account.scheme && ':' !in f'.payload.account.scheme {
      RenderedClaims(f.payload.account, f'.payload.account);
    }
    if ':' !in f.payload.instrument.scheme && ':' !in f'.payload.instrument.scheme {
      RenderedClaims(f.payload.instrument, f'.payload.instrument);
    }
  }

  ghost function MintParameters(p: Platform, rules: Ruleset, kind: EntityKind, claim: Claim): seq<Parameter> {
    [Parameter("claim", claim.Render()),
     Parameter("kind", EntityKindName(kind)),
     Parameter("seed", CanonicalSeed(p.cases, rules, claim)),
     Parameter("canonicalisation", rules.version)]
  }

  lemma SameMintParameters(p: Platform, rules: Ruleset, kind: EntityKind, claim: Claim,
                           rules': Ruleset, kind': EntityKind, claim': Claim)
    requires SortBy(ByName, MintParameters(p, rules, kind, claim))
          == SortBy(ByName, MintParameters(p, rules', kind', claim'))
    ensures claim.Render() == claim'.Render() && EntityKindName(kind) == EntityKindName(kind')
    ensures CanonicalSeed(p.cases, rules, claim) == CanonicalSeed(p.cases, rules', claim')
    ensures rules.version == rules'.version
  {
    hide SortBy, CanonicalSeed, EntityKindName;
    NamesDiffer();
    var ps, qs := MintParameters(p, rules, kind, claim), MintParameters(p, rules', kind', claim');
    SameParameter(ps, qs, 0, 0);
    SameParameter(ps, qs, 1, 1);
    SameParameter(ps, qs, 2, 2);
    SameParameter(ps, qs, 3, 3);
  }

  /** Two mints share a derivation only if they mint one rendered claim as one kind
      under one ruleset version, answering the same fact. */
  lemma MintTracePins(p: Platform, rules: Ruleset, kind: EntityKind, claim: Claim, answers: seq<string>,
                      confidence: Confidence, rules': Ruleset, kind': EntityKind, claim': Claim,
                      answers': seq<string>, confidence': Confidence)
    requires MintFor(p, rules, kind, claim, answers, confidence).Ok?
    requires MintFor(p, rules', kind', claim', answers', confidence').Ok?
    requires MintFor(p, rules, kind, claim, answers, confidence).value.record.body
          == MintFor(p, rules', kind', claim', answers', confidence').value.record.body
    ensures claim.Render() == claim'.Render() && kind == kind' && rules.version == rules'.version
    ensures answers == answers' && confidence == confidence'
  {
    hide DerivationPreimage, SortBy, CanonicalSeed, EntityKindName, FoldClaim, ClaimPreimage, CanonicaliseSeed,
         Claim.Render;
    SameMintParameters(p, rules, kind, claim, rules', kind', claim');
    EntityKindNamesDiffer(kind, kind');
  }

  lemma SameQuery(p: Platform, account: ID, instrument: ID, a: AsOf, account': ID, instrument': ID, b: AsOf)
    requires SortBy(ByName, QueryParameters(p, account, instrument, a))
          == SortBy(ByName, QueryParameters(p, account', instrument', b))
    ensures account.value == account'.value && instrument.value == instrument'.value
    ensures RenderAsOf(p, a) == RenderAsOf(p, b)
  {
    hide SortBy, RenderAsOf;
    NamesDiffer();
    var ps, qs := QueryParameters(p, account, instrument, a), QueryParameters(p, account', instrument', b);
    SameParameter(ps, qs, 0, 0);
    SameParameter(ps, qs, 1, 1);
    SameParameter(ps, qs, 2, 2);
  }

  lemma {:induction false} LiftedAreValid(p: Platform, fs: seq<Fact>)
    requires forall i :: 0 <= i < |fs| ==> fs[i].payload.HoldingObserved?
    requires LiftAll(p, fs).Ok?
    ensures forall i :: 0 <= i < |fs| ==> ValidConfidence(fs[i].Confidence())
  {
    hide DerivationPreimage;
    if fs != [] {
      LiftedAreValid(p, fs[..|fs| - 1]);
    }
  }

  /** The inputs of a position are the addresses of what it consumed, in order. */
  lemma PositionInputs(p: Platform, s: Stream, account: ID, instrument: ID, a: AsOf)
    requires Projected(p, s, account, instrument, a).Ok?
    ensures var fs := Consumed(s, account, instrument, a);
            var inputs := Projected(p, s, account, instrument, a).value.record.body.inputs;
            && |inputs| == |fs|
            && forall i :: 0 <= i < |fs| ==> inputs[i] == ObservationTrace(p, fs[i]) && ValidConfidence(fs[i].Confidence())
  {
    hide DerivationPreimage, SortBy, RenderAsOf, LiftAll, Consumed, FoldLeft, QueryParameters, ObservationTrace;
    var fs := Consumed(s, account, instrument, a);
    LiftedAreValid(p, fs);
    LiftedSeries(p, fs);
  }

  /** One pre-image, one observation: its reference and its confidence. */
  lemma SameObservation(f: Fact, g: Fact)
    requires ValidConfidence(f.Confidence()) && ValidConfidence(g.Confidence())
    requires InMemory(ObservationPreimage(f)) && ObservationPreimage(f) == ObservationPreimage(g)
    ensures f.ref == g.ref && f.Confidence() == g.Confidence()
  {
    hide DerivationPreimage, Ref.Render;
    var d, e := Derivation(PROJECTION_METHOD, [f.ref.Render()], [], [], f.Confidence()),
                Derivation(PROJECTION_METHOD, [g.ref.Render()], [], [], g.Confidence());
    PreimagesEqualIffRenderedAlike(d, e);
    assert d.inputs[0] == e.inputs[0];
    RenderInjective(f.ref, g.ref);
  }

  /** SHA-256 does not confuse these two observations. */
  ghost predicate Separated(p: Platform, f: Fact, g: Fact) {
    && InMemory(ObservationPreimage(f))
    && (p.sha256(ObservationPreimage(f)) == p.sha256(ObservationPreimage(g)) ==>
          ObservationPreimage(f) == ObservationPreimage(g))
  }

  /** Two positions share a derivation only if they answer the same rendered question
      about the same identifiers from equally many observations, one by one the same
      wherever SHA-256 separates their pre-images. */
  lemma PositionTracePins(p: Platform, s: Stream, account: ID, instrument: ID, a: AsOf,
                          s': Stream, account': ID, instrument': ID, b: AsOf)
    requires Projected(p, s, account, instrument, a).Ok? && Projected(p, s', account', instrument', b).Ok?
    requires Projected(p, s, account, instrument, a).value.record.body
          == Projected(p, s', account', instrument', b).value.record.body
    ensures account.value == account'.value && instrument.value == instrument'.value
    ensures RenderAsOf(p, a) == RenderAsOf(p, b)
    ensures ToldApart(p, a.effective, b.effective) && ToldApart(p, a.knowledge, b.knowledge) ==> a == b
    ensures var fs, gs := Consumed(s, account, instrument, a), Consumed(s', account', instrument', b);
            && |fs| == |gs|
            && forall i :: 0 <= i < |fs| && Separated(p, fs[i], gs[i]) ==>
                 fs[i].ref == gs[i].ref && fs[i].Confidence() == gs[i].Confidence()
  {
    hide DerivationPreimage, SortBy, RenderAsOf, Consumed, ToldApart, ObservationPreimage, Projected, InMemory;
    SamePositionQuery(p, s, account, instrument, a, s', account', instrument', b);
    if ToldApart(p, a.effective, b.effective) && ToldApart(p, a.knowledge, b.knowledge) {
      RenderedCoordinates(p, a, b);
    }
    PositionInputs(p, s, account, instrument, a);
    PositionInputs(p, s', account', instrument', b);
    var fs, gs := Consumed(s, account, instrument, a), Consumed(s', account', instrument', b);
    forall i | 0 <= i < |fs| && Separated(p, fs[i], gs[i])
      ensures fs[i].ref == gs[i].ref && fs[i].Confidence() == gs[i].Confidence()
    {
      assert ObservationTrace(p, fs[i]) == ObservationTrace(p, gs[i]);
      SameObservation(fs[i], gs[i]);
    }
  }

  lemma SamePositionQuery(p: Platform, s: Stream, account: ID, instrument: ID, a: AsOf,
                          s': Stream, account': ID, instrument': ID, b: AsOf)
    requires Projected(p, s, account, instrument, a).Ok? && Projected(p, s', account', instrument', b).Ok?
    requires Projected(p, s, account, instrument, a).value.record.body
          == Projected(p, s', account', instrument', b).value.record.body
    ensures account.value == account'.value && instrument.value == instrument'.value
    ensures RenderAsOf(p, a) == RenderAsOf(p, b)
  {
    hide DerivationPreimage, SortBy, RenderAsOf, LiftAll, Consumed, FoldLeft, QueryParameters;
    SameQuery(p, account, instrument, a, account', instrument', b);
  }

  // ---- what a position records ----------------------------------------------------------------------

  /** The whole derivation of a position: one address per consumed observation, each of
      its reference and confidence, and the question as asked. */
  lemma PositionRecords(p: Platform, s: Stream, account: ID, instrument: ID, a: AsOf)
    requires Projected(p, s, account, instrument, a).Ok?
    ensures var body, fs := Projected(p, s, account, instrument, a).value.record.body,
                            Consumed(s, account, instrument, a);
            && body.method_ == Method("ledger.ProjectPosition", "1") && body.references == []
            && body.parameters
               == SortBy(ByName, [Parameter("account", account.value), Parameter("instrument", instrument.value),
                                  Parameter("as_of", "effective=" + p.rfc3339(a.effective)
                                                     + " knowledge=" + p.rfc3339(a.knowledge))])
            && |body.inputs| == |fs|
            && (forall i :: 0 <= i < |fs| ==>
                  body.inputs[i] == p.sha256(DerivationPreimage(
                    Derivation(Method("ledger.ProjectPosition", "1"),
                               [fs[i].ref.stream + "#" + Decimal(fs[i].ref.sequence)], [], [], fs[i].Confidence()))))
  {
    hide DerivationPreimage, LiftAll, Consumed, FoldLeft, SortBy;
    PositionInputs(p, s, account, instrument, a);
    NoBindingsToSort();
  }

  lemma NoBindingsToSort()
    ensures SortBy(ByDataset, []) == []
  {
  }
}
