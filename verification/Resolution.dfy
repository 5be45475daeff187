/** Reading identities out of the ledger, and deriving observations and mints
    (ledger/domain resolve.go, unresolved.go). */
module Resolution {
  import opened Results
  import opened Text
  import opened Temporal
  import opened Sorting
  import opened External
  import opened Identity
  import opened Provenance
  import opened Explained
  import opened Facts
  import opened Streams

  /** A mint fact that answers the claim under the ruleset. */
  predicate Answers(cases: CaseTables, rules: Ruleset, f: Fact, claim: Claim) {
    f.payload.EntityMinted? &&
    CanonicalPreimage(cases, rules, f.payload.bornFrom) == CanonicalPreimage(cases, rules, claim)
  }

  /** First match in the given order. */
  function FirstAnswer(cases: CaseTables, rules: Ruleset, visible: seq<Fact>, claim: Claim): (r: Option<Fact>)
    ensures r.Some? ==> r.value.payload.EntityMinted?
  {
    if visible == [] then None
    else if Answers(cases, rules, visible[0], claim) then Some(visible[0])
    else FirstAnswer(cases, rules, visible[1..], claim)
  }

  lemma {:induction false} FirstAnswerMeaning(cases: CaseTables, rules: Ruleset, visible: seq<Fact>, claim: Claim)
    ensures var r := FirstAnswer(cases, rules, visible, claim);
            && (r.Some? ==> r.value in visible && Answers(cases, rules, r.value, claim))
            && (r.None? ==> forall i :: 0 <= i < |visible| ==> !Answers(cases, rules, visible[i], claim))
  {
    hide Answers;
    if visible != [] {
      FirstAnswerMeaning(cases, rules, visible[1..], claim);
    }
  }

  /** Resolve with the mint that answered. */
  function ResolveWithTrace(cases: CaseTables, rules: Ruleset, s: Stream, claim: Claim, a: AsOf)
    : Result<(ID, Ref)>
  {
    match FirstAnswer(cases, rules, VisibleAt(s, a), claim)
    case None => Err(ErrUnresolved)
    case Some(f) => Ok((f.payload.entity, f.ref))
  }

  function Resolve(cases: CaseTables, rules: Ruleset, s: Stream, claim: Claim, a: AsOf): Result<ID> {
    var (id, _) :- ResolveWithTrace(cases, rules, s, claim, a);
    Ok(id)
  }

  /** A claim resolves exactly when some visible mint answers it; kinds and
      corrections play no part. */
  lemma ResolvesIffAnswered(cases: CaseTables, rules: Ruleset, s: Stream, claim: Claim, a: AsOf)
    ensures Resolve(cases, rules, s, claim, a).Ok?
       <==> exists i :: 0 <= i < |s.facts| && s.facts[i].Visible(a) && Answers(cases, rules, s.facts[i], claim)
  {
    hide Answers, VisibleAt;
    var visible := VisibleAt(s, a);
    var first := FirstAnswer(cases, rules, visible, claim);
    FirstAnswerMeaning(cases, rules, visible, claim);
    if first.Some? {
      VisibleAtMembers(s, a, first.value);
      assert first.value in s.facts;
    }
    if i :| 0 <= i < |s.facts| && s.facts[i].Visible(a) && Answers(cases, rules, s.facts[i], claim) {
      VisibleAtMembers(s, a, s.facts[i]);
      assert s.facts[i] in visible;
    }
  }

  /** The answer is the least answering mint in query order. */
  lemma ResolveIsLeast(cases: CaseTables, rules: Ruleset, s: Stream, claim: Claim, a: AsOf, i: nat)
    requires i < |s.facts| && s.facts[i].Visible(a) && Answers(cases, rules, s.facts[i], claim)
    ensures FirstAnswer(cases, rules, VisibleAt(s, a), claim).Some?
    ensures !Earlier(s.facts[i], FirstAnswer(cases, rules, VisibleAt(s, a), claim).value)
  {
    hide Answers;
    var visible := VisibleAt(s, a);
    VisibleAtMembers(s, a, s.facts[i]);
    EarlierOrders();
    SortBySorts(Earlier, VisibleFacts(s.facts, a));
    var k :| 0 <= k < |visible| && visible[k] == s.facts[i];
    FirstIsLeast(cases, rules, visible, claim, k);
  }

  lemma {:induction false} FirstIsLeast(cases: CaseTables, rules: Ruleset, visible: seq<Fact>, claim: Claim, k: nat)
    requires k < |visible| && Answers(cases, rules, visible[k], claim)
    requires Sorted(Earlier, visible)
    ensures FirstAnswer(cases, rules, visible, claim).Some?
    ensures !Earlier(visible[k], FirstAnswer(cases, rules, visible, claim).value)
  {
    hide Answers;
    if !Answers(cases, rules, visible[0], claim) {
      FirstIsLeast(cases, rules, visible[1..], claim, k - 1);
    }
  }

  /** Resolution is monotone: what resolves at knowledge K resolves at every later
      knowledge in every continuation. */
  lemma ResolutionMonotone(cases: CaseTables, rules: Ruleset, s: Stream, t: Stream, claim: Claim, a: AsOf, b: AsOf)
    requires Extends(s, t)
    requires b.effective == a.effective && a.knowledge <= b.knowledge
    requires Resolve(cases, rules, s, claim, a).Ok?
    ensures Resolve(cases, rules, t, claim, b).Ok?
  {
    hide Answers, Resolve;
    ResolvesIffAnswered(cases, rules, s, claim, a);
    ResolvesIffAnswered(cases, rules, t, claim, b);
    var i :| 0 <= i < |s.facts| && s.facts[i].Visible(a) && Answers(cases, rules, s.facts[i], claim);
    assert t.facts[i] == s.facts[i];
  }

  // ---- claims waiting for an identity -------------------------------------------------

  datatype UnresolvedClaim = UnresolvedClaim(fact: Ref, claim: Claim)

  function Waiting(cases: CaseTables, rules: Ruleset, s: Stream, a: AsOf, f: Fact, claim: Claim)
    : seq<UnresolvedClaim>
  {
    if Resolve(cases, rules, s, claim, a) == Err(ErrUnresolved) then [UnresolvedClaim(f.ref, claim)] else []
  }

  function UnresolvedIn(cases: CaseTables, rules: Ruleset, s: Stream, a: AsOf, visible: seq<Fact>)
    : seq<UnresolvedClaim>
  {
    if visible == [] then []
    else
      var f := visible[|visible| - 1];
      UnresolvedIn(cases, rules, s, a, visible[..|visible| - 1]) +
      if f.payload.HoldingClaimed?
      then Waiting(cases, rules, s, a, f, f.payload.account) + Waiting(cases, rules, s, a, f, f.payload.instrument)
      else []
  }

  /** Unresolved as the source runs it: nested loops appending to the answer. */
  method Unresolved(cases: CaseTables, rules: Ruleset, s: Stream, a: AsOf) returns (out: seq<UnresolvedClaim>)
    ensures out == UnresolvedIn(cases, rules, s, a, VisibleAt(s, a))
  {
    hide Resolve, VisibleAt;
    var visible := ListVisible(s, a);
    out := [];
    var i := 0;
    while i < |visible|
      invariant 0 <= i <= |visible|
      invariant out == UnresolvedIn(cases, rules, s, a, visible[..i])
    {
      assert visible[..i + 1][..i] == visible[..i];
      var f := visible[i];
      if f.payload.HoldingClaimed? {
        var before := out;
        if Resolve(cases, rules, s, f.payload.account, a) == Err(ErrUnresolved) {
          out := out + [UnresolvedClaim(f.ref, f.payload.account)];
        }
        assert out == before + Waiting(cases, rules, s, a, f, f.payload.account);
        if Resolve(cases, rules, s, f.payload.instrument, a) == Err(ErrUnresolved) {
          out := out + [UnresolvedClaim(f.ref, f.payload.instrument)];
        }
        assert out == before + (Waiting(cases, rules, s, a, f, f.payload.account)
                              + Waiting(cases, rules, s, a, f, f.payload.instrument));
      }
      i := i + 1;
    }
    assert visible[..i] == visible;
  }

  /** A visible claim fact names this claim. */
  ghost predicate Names(f: Fact, claim: Claim) {
    f.payload.HoldingClaimed? && (f.payload.account == claim || f.payload.instrument == claim)
  }

  lemma {:induction false} UnresolvedInMembers(cases: CaseTables, rules: Ruleset, s: Stream, a: AsOf,
                                               visible: seq<Fact>, u: UnresolvedClaim)
    ensures u in UnresolvedIn(cases, rules, s, a, visible)
       <==> && Resolve(cases, rules, s, u.claim, a) == Err(ErrUnresolved)
            && exists f :: f in visible && f.ref == u.fact && Names(f, u.claim)
  {
    hide Resolve;
    if visible != [] {
      var n := |visible| - 1;
      UnresolvedInMembers(cases, rules, s, a, visible[..n], u);
      assert visible == visible[..n] + [visible[n]];
      assert forall f :: f in visible <==> f in visible[..n] || f == visible[n];
    }
  }

  lemma ResolveFailsOneWay(cases: CaseTables, rules: Ruleset, s: Stream, claim: Claim, a: AsOf)
    ensures Resolve(cases, rules, s, claim, a).Err? ==> Resolve(cases, rules, s, claim, a) == Err(ErrUnresolved)
  {
    hide FirstAnswer, VisibleAt;
  }

  /** Exactly the visible claims that no visible mint answers are listed. */
  lemma UnresolvedIsExact(cases: CaseTables, rules: Ruleset, s: Stream, a: AsOf, u: UnresolvedClaim)
    ensures u in UnresolvedIn(cases, rules, s, a, VisibleAt(s, a))
       <==> && Resolve(cases, rules, s, u.claim, a).Err?
            && exists f :: f in s.facts && f.Visible(a) && f.ref == u.fact && Names(f, u.claim)
  {
    hide Resolve, VisibleAt, UnresolvedIn;
    ResolveFailsOneWay(cases, rules, s, u.claim, a);
    UnresolvedInMembers(cases, rules, s, a, VisibleAt(s, a), u);
    forall f: Fact
      ensures f in VisibleAt(s, a) <==> f in s.facts && f.Visible(a)
    {
      VisibleAtMembers(s, a, f);
    }
  }

  /** The list follows the facts: fact by fact in their order, nothing twice or between. */
  lemma {:induction false} UnresolvedInConcat(cases: CaseTables, rules: Ruleset, s: Stream, a: AsOf,
                                              xs: seq<Fact>, ys: seq<Fact>)
    ensures UnresolvedIn(cases, rules, s, a, xs + ys)
         == UnresolvedIn(cases, rules, s, a, xs) + UnresolvedIn(cases, rules, s, a, ys)
  {
    hide Waiting;
    if ys == [] {
      assert xs + ys == xs;
    } else {
      var n := |ys| - 1;
      UnresolvedInConcat(cases, rules, s, a, xs, ys[..n]);
      assert (xs + ys)[..|xs + ys| - 1] == xs + ys[..n];
    }
  }

  /** ... and each claim fact gives its account, then its instrument, where they wait. */
  lemma UnresolvedInOne(cases: CaseTables, rules: Ruleset, s: Stream, a: AsOf, f: Fact)
    ensures !f.payload.HoldingClaimed? ==> UnresolvedIn(cases, rules, s, a, [f]) == []
    ensures f.payload.HoldingClaimed? ==>
              var first := if Resolve(cases, rules, s, f.payload.account, a).Err?
                           then [UnresolvedClaim(f.ref, f.payload.account)] else [];
              var second := if Resolve(cases, rules, s, f.payload.instrument, a).Err?
                            then [UnresolvedClaim(f.ref, f.payload.instrument)] else [];
              UnresolvedIn(cases, rules, s, a, [f]) == first + second
  {
    hide Resolve;
    assert [f][..0] == [];
    if f.payload.HoldingClaimed? {
      ResolveFailsOneWay(cases, rules, s, f.payload.account, a);
      ResolveFailsOneWay(cases, rules, s, f.payload.instrument, a);
    }
  }

  /** A claim that resolved never waits again, at any later knowledge in any
      continuation. */
  lemma NeverWaitsAgain(cases: CaseTables, rules: Ruleset, s: Stream, t: Stream, a: AsOf, b: AsOf, u: UnresolvedClaim)
    requires Extends(s, t)
    requires b.effective == a.effective && a.knowledge <= b.knowledge
    requires Resolve(cases, rules, s, u.claim, a).Ok?
    ensures u !in UnresolvedIn(cases, rules, t, b, VisibleAt(t, b))
  {
    hide Resolve, VisibleAt, UnresolvedIn;
    ResolutionMonotone(cases, rules, s, t, u.claim, a, b);
    UnresolvedIsExact(cases, rules, t, b, u);
  }

  // ---- derivations -------------------------------------------------------------------------

  const OBSERVATION_METHOD: Method := Method("ledger.DeriveHoldingObserved", "1")
  const MINT_METHOD: Method := Method("ledger.MintFor", "1")

  function RenderAsOf(p: Platform, a: AsOf): string {
    "effective=" + p.rfc3339(a.effective) + " knowledge=" + p.rfc3339(a.knowledge)
  }

  function DeriveHoldingObserved(p: Platform, rules: Ruleset, s: Stream, claimed: Fact, a: AsOf)
    : Result<Value<Holding>>
  {
    if !claimed.payload.HoldingClaimed? then Err(ErrEmptyType)
    else
      var (account, accountRef) :- ResolveWithTrace(p.cases, rules, s, claimed.payload.account, a);
      var (instrument, instrumentRef) :- ResolveWithTrace(p.cases, rules, s, claimed.payload.instrument, a);
      FromDerivation(
        p,
        Holding(account, instrument, claimed.payload.quantity),
        OBSERVATION_METHOD,
        [claimed.ref.Render(), accountRef.Render(), instrumentRef.Render()],
        [Parameter("account_claim", claimed.payload.account.Render()),
         Parameter("instrument_claim", claimed.payload.instrument.Render()),
         Parameter("as_of", RenderAsOf(p, a)),
         Parameter("canonicalisation", rules.version)],
        [],
        claimed.Confidence())
  }

  /** MintFor: the payload records the claim verbatim, the identifier is derived
      from its folded form. */
  function MintFor(p: Platform, rules: Ruleset, kind: EntityKind, claim: Claim, answers: seq<string>,
                   confidence: Confidence): Result<Value<Payload>>
  {
    if claim.IsZero() then Err(ErrEmptyType)
    else
      var id :- DeriveFromClaim(p, kind, FoldClaim(rules, claim));
      FromDerivation(
        p,
        EntityMinted(id, claim),
        MINT_METHOD,
        answers,
        [Parameter("claim", claim.Render()),
         Parameter("kind", EntityKindName(kind)),
         Parameter("seed", CanonicalSeed(p.cases, rules, claim)),
         Parameter("canonicalisation", rules.version)],
        [],
        confidence)
  }

  /** An observation's confidence is the claim's alone.  It is the weakest of
      everything the derivation consumed exactly when neither mint is weaker than
      the claim. */
  lemma ObservationConfidence(p: Platform, rules: Ruleset, s: Stream, claimed: Fact, a: AsOf,
                              account: Fact, instrument: Fact)
    requires claimed.payload.HoldingClaimed? && ValidConfidence(claimed.Confidence())
    requires FirstAnswer(p.cases, rules, VisibleAt(s, a), claimed.payload.account) == Some(account)
    requires FirstAnswer(p.cases, rules, VisibleAt(s, a), claimed.payload.instrument) == Some(instrument)
    ensures var r := DeriveHoldingObserved(p, rules, s, claimed, a);
            && r.Ok? && r.value.record.body.confidence == claimed.Confidence()
            && (r.value.record.body.confidence
                  == Weakest([claimed.Confidence(), account.Confidence(), instrument.Confidence()])
                <==> account.Confidence() <= claimed.Confidence() && instrument.Confidence() <= claimed.Confidence())
  {
    hide FirstAnswer, VisibleAt, DerivationPreimage, SortBy;
    var levels := [claimed.Confidence(), account.Confidence(), instrument.Confidence()];
    assert levels[0] in levels && levels[1] in levels && levels[2] in levels;
  }
}
