/** Projecting a position out of a stream (ledger/domain position.go). */
module Positions {
  import opened Results
  import opened Text
  import opened Temporal
  import opened Sorting
  import opened External
  import opened Identity
  import opened Provenance
  import opened Explained
  import opened Facts
  import opened Streams
  import opened Resolution

  datatype Position = Position(account: ID, instrument: ID, quantity: Quantity, asOf: AsOf)

  const PROJECTION_METHOD: Method := Method("ledger.ProjectPosition", "1")

  /** The references a list of corrections retracts. */
  function RetractedBy(cs: seq<Payload>): (refs: set<Ref>)
    requires forall i :: 0 <= i < |cs| ==> cs[i].FactCorrected?
    ensures forall r :: r in refs <==>
              exists i :: 0 <= i < |cs| && cs[i].correction == RETRACTED && cs[i].corrects == r
  {
    set i | 0 <= i < |cs| && cs[i].correction == RETRACTED :: cs[i].corrects
  }

  predicate Matches(f: Fact, account: ID, instrument: ID) {
    f.payload.HoldingObserved? && f.payload.holding.account == account && f.payload.holding.instrument == instrument
  }

  /** The observations a projection consumes, in query order. */
  function ConsumedIn(visible: seq<Fact>, retracted: set<Ref>, account: ID, instrument: ID): (fs: seq<Fact>)
    ensures forall i :: 0 <= i < |fs| ==> fs[i].payload.HoldingObserved?
  {
    if visible == [] then []
    else
      var f := visible[|visible| - 1];
      ConsumedIn(visible[..|visible| - 1], retracted, account, instrument) +
      if f.ref !in retracted && Matches(f, account, instrument) then [f] else []
  }

  function Retractions(s: Stream, a: AsOf): set<Ref> {
    RetractedBy(CorrectionsIn(VisibleAt(s, a)))
  }

  function Consumed(s: Stream, account: ID, instrument: ID, a: AsOf): (fs: seq<Fact>)
    ensures forall i :: 0 <= i < |fs| ==> fs[i].payload.HoldingObserved?
  {
    ConsumedIn(VisibleAt(s, a), Retractions(s, a), account, instrument)
  }

  function Lift(p: Platform, f: Fact): Result<Value<Holding>>
    requires f.payload.HoldingObserved?
  {
    FromObservation(p, f.payload.holding, PROJECTION_METHOD, [f.ref.Render()], f.Confidence())
  }

  function LiftAll(p: Platform, fs: seq<Fact>): Result<seq<Value<Holding>>>
    requires forall i :: 0 <= i < |fs| ==> fs[i].payload.HoldingObserved?
  {
    if fs == [] then Ok([])
    else
      var rest :- LiftAll(p, fs[..|fs| - 1]);
      var last :- Lift(p, fs[|fs| - 1]);
      Ok(rest + [last])
  }

  /** Later observations replace earlier ones. */
  function Replace(acc: Position, obs: Holding): Result<Position> {
    Ok(acc.(quantity := obs.quantity))
  }

  function QueryParameters(p: Platform, account: ID, instrument: ID, a: AsOf): seq<Parameter> {
    [Parameter("account", account.value), Parameter("instrument", instrument.value),
     Parameter("as_of", RenderAsOf(p, a))]
  }

  function Seed(account: ID, instrument: ID, a: AsOf): Position {
    Position(account, instrument, Quantity("0", ""), a)
  }

  function Projected(p: Platform, s: Stream, account: ID, instrument: ID, a: AsOf): Result<Value<Position>> {
    var observations :- LiftAll(p, Consumed(s, account, instrument, a));
    if observations == [] then Err(ErrNoFacts)
    else Folded(p, observations, Seed(account, instrument, a), PROJECTION_METHOD,
                QueryParameters(p, account, instrument, a), [], Replace)
  }

  lemma {:induction false} LiftAllFails(p: Platform, fs: seq<Fact>, n: nat)
    requires forall i :: 0 <= i < |fs| ==> fs[i].payload.HoldingObserved?
    requires n <= |fs| && LiftAll(p, fs[..n]).Err?
    ensures LiftAll(p, fs) == LiftAll(p, fs[..n])
  {
    if n < |fs| {
      assert fs[..|fs| - 1][..n] == fs[..n];
      LiftAllFails(p, fs[..|fs| - 1], n);
    } else {
      assert fs[..n] == fs;
    }
  }

  lemma {:induction false} ConsumedInPrefix(visible: seq<Fact>, retracted: set<Ref>, account: ID, instrument: ID, n: nat)
    requires n <= |visible|
    ensures ConsumedIn(visible[..n], retracted, account, instrument)
         <= ConsumedIn(visible, retracted, account, instrument)
  {
    if n < |visible| {
      assert visible[..|visible| - 1][..n] == visible[..n];
      ConsumedInPrefix(visible[..|visible| - 1], retracted, account, instrument, n);
    } else {
      assert visible[..n] == visible;
    }
  }

  /** The loop that fills the retracted set. */
  method CollectRetractions(s: Stream, a: AsOf) returns (retracted: set<Ref>)
    ensures retracted == Retractions(s, a)
  {
    var cs := Corrections(s, a);
    retracted := {};
    var i := 0;
    while i < |cs|
      invariant 0 <= i <= |cs|
      invariant retracted == RetractedBy(cs[..i])
    {
      assert cs[..i + 1] == cs[..i] + [cs[i]];
      if cs[i].correction == RETRACTED {
        retracted := retracted + {cs[i].corrects};
      }
      i := i + 1;
    }
    assert cs[..i] == cs;
  }

  /** What one more visible fact adds to the lifted observations. */
  lemma LiftNext(p: Platform, visible: seq<Fact>, retracted: set<Ref>, account: ID, instrument: ID, i: nat)
    requires i < |visible|
    ensures var before := LiftAll(p, ConsumedIn(visible[..i], retracted, account, instrument));
            var after := LiftAll(p, ConsumedIn(visible[..i + 1], retracted, account, instrument));
            if visible[i].ref !in retracted && Matches(visible[i], account, instrument)
            then
              && (before.Ok? && Lift(p, visible[i]).Ok? ==> after == Ok(before.value + [Lift(p, visible[i]).value]))
              && (before.Ok? && Lift(p, visible[i]).Err? ==>
                    LiftAll(p, ConsumedIn(visible, retracted, account, instrument)) == Err(Lift(p, visible[i]).error))
            else after == before
  {
    hide Lift;
    assert visible[..i + 1][..i] == visible[..i];
    var next := ConsumedIn(visible[..i + 1], retracted, account, instrument);
    if visible[i].ref !in retracted && Matches(visible[i], account, instrument) {
      assert next[..|next| - 1] == ConsumedIn(visible[..i], retracted, account, instrument);
      if LiftAll(p, next).Err? {
        ConsumedInPrefix(visible, retracted, account, instrument, i + 1);
        var all := ConsumedIn(visible, retracted, account, instrument);
        assert all[..|next|] == next;
        LiftAllFails(p, all, |next|);
      }
    } else {
      assert next == ConsumedIn(visible[..i], retracted, account, instrument);
    }
  }

  /** The loop that lifts the matching, unretracted observations. */
  method CollectObservations(p: Platform, visible: seq<Fact>, retracted: set<Ref>, account: ID, instrument: ID)
    returns (r: Result<seq<Value<Holding>>>)
    ensures r == LiftAll(p, ConsumedIn(visible, retracted, account, instrument))
  {
    hide Lift, LiftAll, ConsumedIn;
    var observations: seq<Value<Holding>> := [];
    var i := 0;
    LiftNone(p, visible, retracted, account, instrument);
    while i < |visible|
      invariant 0 <= i <= |visible|
      invariant LiftAll(p, ConsumedIn(visible[..i], retracted, account, instrument)) == Ok(observations)
    {
      LiftNext(p, visible, retracted, account, instrument, i);
      var f := visible[i];
      if f.ref !in retracted && Matches(f, account, instrument) {
        var observed := Lift(p, f);
        if observed.Err? {
          return Err(observed.error);
        }
        observations := observations + [observed.value];
      }
      i := i + 1;
    }
    assert visible[..i] == visible;
    return Ok(observations);
  }

  lemma LiftNone(p: Platform, visible: seq<Fact>, retracted: set<Ref>, account: ID, instrument: ID)
    ensures LiftAll(p, ConsumedIn(visible[..0], retracted, account, instrument)) == Ok([])
  {
  }

  method ProjectPosition(p: Platform, s: Stream, account: ID, instrument: ID, a: AsOf)
    returns (r: Result<Value<Position>>)
    ensures r == Projected(p, s, account, instrument, a)
  {
    var visible := ListVisible(s, a);
    var retracted := CollectRetractions(s, a);
    var observations := CollectObservations(p, visible, retracted, account, instrument);
    if observations.Err? {
      return Err(observations.error);
    }
    if |observations.value| == 0 {
      return Err(ErrNoFacts);
    }
    r := Explained.Fold(p, observations.value, Seed(account, instrument, a), PROJECTION_METHOD,
              QueryParameters(p, account, instrument, a), [], Replace);
  }

  // ---- the projection refines a simple specification --------------------------------------

  ghost predicate Retracted(s: Stream, a: AsOf, ref: Ref) {
    exists c :: c in s.facts && c.Visible(a)
      && c.payload.FactCorrected? && c.payload.correction == RETRACTED && c.payload.corrects == ref
  }

  /** Visible, matching and not retracted: what a position may rest on. */
  ghost predicate Eligible(s: Stream, account: ID, instrument: ID, a: AsOf, f: Fact) {
    f in s.facts && f.Visible(a) && Matches(f, account, instrument) && !Retracted(s, a, f.ref)
  }

  lemma {:induction false} CorrectionsInMembers(visible: seq<Fact>, c: Payload)
    ensures c in CorrectionsIn(visible) <==> c.FactCorrected? && exists f :: f in visible && f.payload == c
  {
    if visible != [] {
      var n := |visible| - 1;
      CorrectionsInMembers(visible[..n], c);
      assert visible == visible[..n] + [visible[n]];
    }
  }

  lemma RetractionsMeaning(s: Stream, a: AsOf, ref: Ref)
    ensures ref in Retractions(s, a) <==> Retracted(s, a, ref)
  {
    var visible := VisibleAt(s, a);
    var cs := CorrectionsIn(visible);
    if ref in Retractions(s, a) {
      var i :| 0 <= i < |cs| && cs[i].correction == RETRACTED && cs[i].corrects == ref;
      assert cs[i] in cs;
      CorrectionsInMembers(visible, cs[i]);
      var f :| f in visible && f.payload == cs[i];
      VisibleAtMembers(s, a, f);
    }
    if Retracted(s, a, ref) {
      var c :| c in s.facts && c.Visible(a) &&
               c.payload.FactCorrected? && c.payload.correction == RETRACTED && c.payload.corrects == ref;
      VisibleAtMembers(s, a, c);
      CorrectionsInMembers(visible, c.payload);
      var i :| 0 <= i < |cs| && cs[i] == c.payload;
    }
  }

  lemma {:induction false} ConsumedInCount(visible: seq<Fact>, retracted: set<Ref>, account: ID, instrument: ID, f: Fact)
    ensures multiset(ConsumedIn(visible, retracted, account, instrument))[f]
         == if f.ref !in retracted && Matches(f, account, instrument) then multiset(visible)[f] else 0
  {
    if visible != [] {
      var n := |visible| - 1;
      ConsumedInCount(visible[..n], retracted, account, instrument, f);
      assert visible == visible[..n] + [visible[n]];
    }
  }

  lemma {:induction false} ConsumedInSorted(visible: seq<Fact>, retracted: set<Ref>, account: ID, instrument: ID)
    requires Sorted(Earlier, visible)
    ensures Sorted(Earlier, ConsumedIn(visible, retracted, account, instrument))
  {
    if visible != [] {
      var n := |visible| - 1;
      var rest := ConsumedIn(visible[..n], retracted, account, instrument);
      ConsumedInSorted(visible[..n], retracted, account, instrument);
      forall g | g in multiset(rest)
        ensures !Earlier(visible[n], g)
      {
        ConsumedInCount(visible[..n], retracted, account, instrument, g);
        assert g in multiset(visible[..n]);
      }
      SortedSnoc(Earlier, rest, visible[n]);
    }
  }

  /** A projection consumes exactly the eligible observations, each once, in query order. */
  lemma ConsumedIsExact(s: Stream, account: ID, instrument: ID, a: AsOf, f: Fact)
    ensures f in Consumed(s, account, instrument, a) <==> Eligible(s, account, instrument, a, f)
    ensures multiset(Consumed(s, account, instrument, a))[f] <= multiset(s.facts)[f]
    ensures Sorted(Earlier, Consumed(s, account, instrument, a))
  {
    var visible, fs := VisibleAt(s, a), Consumed(s, account, instrument, a);
    EarlierOrders();
    SortBySorts(Earlier, VisibleFacts(s.facts, a));
    ConsumedInSorted(visible, Retractions(s, a), account, instrument);
    ConsumedInCount(visible, Retractions(s, a), account, instrument, f);
    VisibleFactsCount(s.facts, a, f);
    VisibleAtMembers(s, a, f);
    RetractionsMeaning(s, a, f.ref);
    assert f in fs <==> f in multiset(fs);
    assert f in visible <==> f in multiset(visible);
  }

  lemma {:induction false} LiftAllWorks(p: Platform, fs: seq<Fact>)
    requires forall i :: 0 <= i < |fs| ==> fs[i].payload.HoldingObserved? && ValidConfidence(fs[i].Confidence())
    ensures LiftAll(p, fs).Ok? && |LiftAll(p, fs).value| == |fs|
    ensures forall i :: 0 <= i < |fs| ==> Lift(p, fs[i]) == Ok(LiftAll(p, fs).value[i])
  {
    hide DerivationPreimage, SortBy;
    if fs != [] {
      LiftAllWorks(p, fs[..|fs| - 1]);
      assert Lift(p, fs[|fs| - 1]).Ok?;
    }
  }

  lemma {:induction false} ReplaceKeepsLast(seed: Position, vs: seq<Value<Holding>>)
    requires vs != []
    ensures FoldLeft(Replace, seed, vs) == Ok(seed.(quantity := vs[|vs| - 1].value.quantity))
  {
    if |vs| > 1 {
      ReplaceKeepsLast(seed, vs[..|vs| - 1]);
    } else {
      assert vs[..0] == [];
    }
  }

  /** What is hashed of a consumed observation. */
  ghost function ObservationPreimage(f: Fact): seq<Byte> {
    DerivationPreimage(Derivation(PROJECTION_METHOD, [f.ref.Render()], [], [], f.Confidence()))
  }

  /** The address a consumed observation enters the trace under. */
  ghost function ObservationTrace(p: Platform, f: Fact): string {
    p.sha256(ObservationPreimage(f))
  }

  lemma LiftedValue(p: Platform, f: Fact)
    requires f.payload.HoldingObserved? && ValidConfidence(f.Confidence())
    ensures Lift(p, f).Ok?
    ensures var v := Lift(p, f).value;
            && v.value == f.payload.holding && v.trace == ObservationTrace(p, f)
            && v.record.body.confidence == f.Confidence()
  {
    hide DerivationPreimage;
  }

  function FactConfidences(fs: seq<Fact>): seq<Confidence> {
    seq(|fs|, i requires 0 <= i < |fs| => fs[i].Confidence())
  }

  lemma LiftedSeries(p: Platform, fs: seq<Fact>)
    requires forall i :: 0 <= i < |fs| ==> fs[i].payload.HoldingObserved? && ValidConfidence(fs[i].Confidence())
    ensures LiftAll(p, fs).Ok? && |LiftAll(p, fs).value| == |fs|
    ensures var vs := LiftAll(p, fs).value;
            && (forall i :: 0 <= i < |fs| ==> vs[i].value == fs[i].payload.holding)
            && (forall i :: 0 <= i < |fs| ==> vs[i].trace == ObservationTrace(p, fs[i]))
            && Confidences(vs) == FactConfidences(fs)
  {
    hide Lift, LiftAll, ObservationTrace;
    LiftAllWorks(p, fs);
    forall i | 0 <= i < |fs|
      ensures var v := LiftAll(p, fs).value[i];
              && v.value == fs[i].payload.holding && v.trace == ObservationTrace(p, fs[i])
              && v.record.body.confidence == fs[i].Confidence()
    {
      LiftedValue(p, fs[i]);
    }
  }

  lemma WeakestIsValid(levels: seq<Confidence>)
    requires forall i :: 0 <= i < |levels| ==> ValidConfidence(levels[i])
    ensures ValidConfidence(Weakest(levels))
  {
  }

  /** What a successful projection says, in terms of the facts it consumed. */
  lemma ProjectionOfConsumed(p: Platform, s: Stream, account: ID, instrument: ID, a: AsOf)
    requires forall i :: 0 <= i < |s.facts| ==> ValidConfidence(s.facts[i].Confidence())
    ensures var fs, r := Consumed(s, account, instrument, a), Projected(p, s, account, instrument, a);
            && (fs == [] ==> r == Err(ErrNoFacts))
            && (fs != [] ==>
                  && r.Ok?
                  && r.value.value == Position(account, instrument, fs[|fs| - 1].payload.holding.quantity, a)
                  && |r.value.record.body.inputs| == |fs|
                  && (forall i :: 0 <= i < |fs| ==> r.value.record.body.inputs[i] == ObservationTrace(p, fs[i]))
                  && r.value.record.body.confidence == Weakest(FactConfidences(fs)))
  {
    hide Lift, LiftAll, ObservationTrace, Consumed, DerivationPreimage, SortBy, RenderAsOf;
    var fs := Consumed(s, account, instrument, a);
    forall i | 0 <= i < |fs|
      ensures ValidConfidence(fs[i].Confidence())
    {
      assert fs[i] in fs;
      ConsumedIsExact(s, account, instrument, a, fs[i]);
    }
    LiftedSeries(p, fs);
    if fs != [] {
      ReplaceKeepsLast(Seed(account, instrument, a), LiftAll(p, fs).value);
      WeakestIsValid(FactConfidences(fs));
    }
  }

  /** The greatest eligible observation in query order. */
  ghost predicate Greatest(s: Stream, account: ID, instrument: ID, a: AsOf, f: Fact) {
    && Eligible(s, account, instrument, a, f)
    && forall g :: Eligible(s, account, instrument, a, g) && g != f ==> Earlier(g, f)
  }

  /** A position is the quantity of the greatest eligible observation in query
      order, and there is none exactly when nothing is eligible. */
  lemma ProjectionIsGreatestEligible(p: Platform, s: Stream, account: ID, instrument: ID, a: AsOf)
    requires Numbered(s)
    requires forall i :: 0 <= i < |s.facts| ==> ValidConfidence(s.facts[i].Confidence())
    ensures var r := Projected(p, s, account, instrument, a);
            && (r == Err(ErrNoFacts) <==> forall f :: !Eligible(s, account, instrument, a, f))
            && (r.Err? ==> r == Err(ErrNoFacts))
            && (r.Ok? ==> exists f :: Greatest(s, account, instrument, a, f) && f.payload.HoldingObserved?
                                      && r.value.value.quantity == f.payload.holding.quantity)
  {
    hide Consumed, Projected, Eligible, Greatest, Numbered, ObservationTrace, Weakest, FactConfidences;
    var fs := Consumed(s, account, instrument, a);
    ProjectionOfConsumed(p, s, account, instrument, a);
    if fs == [] {
      forall f
        ensures !Eligible(s, account, instrument, a, f)
      {
        ConsumedIsExact(s, account, instrument, a, f);
      }
    } else {
      LastIsGreatest(s, account, instrument, a);
      GreatestIsEligible(s, account, instrument, a, fs[|fs| - 1]);
    }
  }

  lemma GreatestIsEligible(s: Stream, account: ID, instrument: ID, a: AsOf, f: Fact)
    requires Greatest(s, account, instrument, a, f)
    ensures Eligible(s, account, instrument, a, f)
  {
  }

  lemma LastIsGreatest(s: Stream, account: ID, instrument: ID, a: AsOf)
    requires Numbered(s) && Consumed(s, account, instrument, a) != []
    ensures var fs := Consumed(s, account, instrument, a);
            Greatest(s, account, instrument, a, fs[|fs| - 1])
  {
    hide Consumed, Matches, Retracted;
    var fs := Consumed(s, account, instrument, a);
    var last := fs[|fs| - 1];
    ConsumedIsExact(s, account, instrument, a, last);
    assert last in fs;
    forall g | Eligible(s, account, instrument, a, g) && g != last
      ensures Earlier(g, last)
    {
      ConsumedIsExact(s, account, instrument, a, g);
      assert g.ref.sequence != last.ref.sequence;
    }
  }

  // ---- retraction -------------------------------------------------------------------------

  /** A retraction in force over exactly the interval of what it retracts removes
      that fact from every projection that could know of the retraction. */
  lemma RetractionIsComplete(s: Stream, f: Fact, c: Fact, account: ID, instrument: ID, a: AsOf)
    requires f in s.facts && c in s.facts
    requires c.payload.FactCorrected? && c.payload.correction == RETRACTED && c.payload.corrects == f.ref
    requires c.envelope.coordinates.effective == f.envelope.coordinates.effective
    requires c.Known() <= a.knowledge
    ensures f !in Consumed(s, account, instrument, a)
  {
    ConsumedIsExact(s, account, instrument, a, f);
  }

  /** Everything a query reads of a stream, it reads through VisibleAt. */
  lemma QueriesReadVisible(p: Platform, rules: Ruleset, s: Stream, t: Stream, claim: Claim, account: ID, instrument: ID, a: AsOf)
    requires VisibleAt(s, a) == VisibleAt(t, a)
    ensures Resolve(p.cases, rules, s, claim, a) == Resolve(p.cases, rules, t, claim, a)
    ensures UnresolvedIn(p.cases, rules, s, a, VisibleAt(s, a)) == UnresolvedIn(p.cases, rules, t, a, VisibleAt(t, a))
    ensures Projected(p, s, account, instrument, a) == Projected(p, t, account, instrument, a)
  {
    UnresolvedSame(p.cases, rules, s, t, a, VisibleAt(s, a));
  }

  lemma {:induction false} UnresolvedSame(cases: CaseTables, rules: Ruleset, s: Stream, t: Stream, a: AsOf, visible: seq<Fact>)
    requires VisibleAt(s, a) == VisibleAt(t, a)
    ensures UnresolvedIn(cases, rules, s, a, visible) == UnresolvedIn(cases, rules, t, a, visible)
  {
    if visible != [] {
      UnresolvedSame(cases, rules, s, t, a, visible[..|visible| - 1]);
    }
  }
}
