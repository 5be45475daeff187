/** What canonicalisation promises about claims and identifiers. */
module IdentityLaws {
  import opened Results
  import opened Text
  import opened Framing
  import opened External
  import opened Identity

  // ---- rules never merge canonical values ---------------------------------------

  lemma {:induction false} UnalteredValue(f: Fold, v: string)
    requires forall i :: 0 <= i < |v| ==> !AltersRune(f, v[i])
    ensures ApplyFold(f, v) == v
  {
    if v != "" && f == STRIP_WHITESPACE {
      UnalteredValue(f, v[1..]);
      assert v == [v[0]] + v[1..];
    }
  }

  lemma {:induction false} StripSpaceClears(v: string)
    ensures NoSpace(StripSpace(v))
  {
    if v != "" {
      StripSpaceClears(v[1..]);
    }
  }

  /** All accepted folds strip whitespace, so a whole rule strips whitespace. */
  lemma {:induction false} FoldsStrip(folds: seq<Fold>, v: string)
    requires folds != [] && forall i :: 0 <= i < |folds| ==> ValidFold(folds[i])
    ensures ApplyFolds(folds, v) == StripSpace(v)
  {
    var n := |folds| - 1;
    if n > 0 {
      FoldsStrip(folds[..n], v);
      StripSpaceClears(v);
      UnalteredValue(STRIP_WHITESPACE, StripSpace(v));
    } else {
      assert folds[..n] == [];
    }
  }

  lemma {:induction false} SafeFoldsKeep(folds: seq<Fold>, v: string)
    requires forall i, k :: 0 <= i < |folds| && 0 <= k < |v| ==> !AltersRune(folds[i], v[k])
    ensures ApplyFolds(folds, v) == v
  {
    if folds != [] {
      SafeFoldsKeep(folds[..|folds| - 1], v);
      UnalteredValue(folds[|folds| - 1], v);
    }
  }

  /** A rule NewRule accepts is the identity on canonical values. */
  lemma AcceptedRuleKeepsCanonical(cases: CaseTables, r: Rule, v: string)
    requires RuleAccepted(cases, r) && IsCanonicalValue(r, v)
    ensures ApplyFolds(r.folds, v) == v
  {
    SafeFoldsKeep(r.folds, v);
  }

  /** ... is idempotent on every value ... */
  lemma AcceptedRuleIdempotent(cases: CaseTables, r: Rule, v: string)
    requires RuleAccepted(cases, r)
    ensures ApplyFolds(r.folds, ApplyFolds(r.folds, v)) == ApplyFolds(r.folds, v)
  {
    FoldsStrip(r.folds, v);
    FoldsStrip(r.folds, StripSpace(v));
    StripSpaceClears(v);
    UnalteredValue(STRIP_WHITESPACE, StripSpace(v));
  }

  /** ... and so never merges two values its standard tells apart. */
  lemma AcceptedRuleNeverMerges(cases: CaseTables, r: Rule, v: string, w: string)
    requires RuleAccepted(cases, r) && IsCanonicalValue(r, v) && IsCanonicalValue(r, w)
    requires ApplyFolds(r.folds, v) == ApplyFolds(r.folds, w)
    ensures v == w
  {
    AcceptedRuleKeepsCanonical(cases, r, v);
    AcceptedRuleKeepsCanonical(cases, r, w);
  }

  /** Which rule applies does not depend on the order the rules were given in. */
  lemma RuleOrderIrrelevant(rs: Ruleset, rs': Ruleset, c: Claim)
    requires RulesetAccepted(rs) && RulesetAccepted(rs')
    requires multiset(rs.rules) == multiset(rs'.rules)
    ensures FoldClaim(rs, c) == FoldClaim(rs', c)
  {
    var r, r' := RuleFor(rs.rules, c.scheme), RuleFor(rs'.rules, c.scheme);
    if r.Some? {
      assert r.value in multiset(rs'.rules);
      var k :| 0 <= k < |rs'.rules| && rs'.rules[k] == r.value;
      var m :| 0 <= m < |rs'.rules| && rs'.rules[m] == r'.value;
      assert k == m;
    }
    assert r'.Some? ==> r'.value in multiset(rs.rules);
  }

  // ---- what a rule keeps of a value ---------------------------------------------------

  /** Stripping whitespace keeps every other rune, in order. */
  lemma {:induction false} StripSpaceKeepsMarks(v: string)
    ensures StripSpace(v) == Marks(v)
  {
    if v != "" {
      StripSpaceKeepsMarks(v[1..]);
      assert v == [v[0]] + v[1..];
      MarksConcat([v[0]], v[1..]);
      MarksOfOne(v[0]);
    }
  }

  /** Under an accepted rule what stands right of the colon is the value's own runes
      without its whitespace, whatever the value. */
  lemma RuledRightPart(cases: CaseTables, rs: Ruleset, c: Claim, rule: Rule)
    requires RuleFor(rs.rules, c.scheme) == Some(rule) && RuleAccepted(cases, rule)
    ensures RightPart(FoldClaim(rs, c).value) == Marks(c.value)
  {
    hide Fields, Join, CanonicalScheme;
    FoldsStrip(rule.folds, c.value);
    StripSpaceKeepsMarks(c.value);
    MarksOfPlain(c.value);
    var folded := Marks(c.value);
    if folded == "" {
      BlankIfNoMarks(c.value);
      RightPartEnds(c.value, "", "");
      assert c.value + "" + "" == c.value;
    } else {
      CollapseOneWord(folded);
    }
  }

  lemma {:induction false} BlankIfNoMarks(v: string)
    requires Marks(v) == ""
    ensures Blank(v)
  {
    if v != "" {
      BlankIfNoMarks(v[..|v| - 1]);
    }
  }

  /** Under accepted rules two claims name one thing exactly when their schemes agree and
      their values hold the same runes apart from whitespace and case.  So whitespace
      never separates two spellings, and never joins two values. */
  lemma RuledClaimsMeetIff(cases: CaseTables, rs: Ruleset, c: Claim, d: Claim, rule: Rule, rule': Rule)
    requires RuleFor(rs.rules, c.scheme) == Some(rule) && RuleAccepted(cases, rule)
    requires RuleFor(rs.rules, d.scheme) == Some(rule') && RuleAccepted(cases, rule')
    requires InMemory(CanonicalPreimage(cases, rs, c))
    ensures CanonicalPreimage(cases, rs, c) == CanonicalPreimage(cases, rs, d)
       <==> && CanonicaliseSeed(cases, c.scheme) == CanonicaliseSeed(cases, d.scheme)
            && ToUpper(cases, Marks(c.value)) == ToUpper(cases, Marks(d.value))
  {
    hide CanonicalPreimage, FoldClaim, RightPart, InMemory;
    RuledRightPart(cases, rs, c, rule);
    RuledRightPart(cases, rs, d, rule');
    PreimageEquality(cases, rs, c, d);
  }

  // ---- what the constructors ask ------------------------------------------------------

  /** A claim is accepted exactly with a value and a scheme that no rune of which lower
      case would change, neither starting nor ending in whitespace. */
  lemma ClaimAcceptedIff(cases: CaseTables, scheme: string, value: string)
    ensures NewClaim(cases, scheme, value).Ok?
       <==> && value != "" && scheme != "" && !IsSpace(scheme[0]) && !IsSpace(scheme[|scheme| - 1])
            && (forall i :: 0 <= i < |scheme| ==> !('A' <= scheme[i] <= 'Z'))
            && (forall i :: 0 <= i < |scheme| && scheme[i] as int >= 128 ==> cases.lower(scheme[i]) == scheme[i])
  {
    hide IsSpace;
    assert forall i :: 0 <= i < |scheme| ==> ToLower(cases, scheme)[i] == LowerRune(cases, scheme[i]);
  }

  /** A group of so many lowercase hexadecimal digits. */
  predicate HexGroup(s: string, n: nat) {
    |s| == n && forall i :: 0 <= i < |s| ==> '0' <= s[i] <= '9' || 'a' <= s[i] <= 'f'
  }

  /** A canonical UUID is five groups of 8, 4, 4, 4 and 12 digits between hyphens. */
  lemma UuidIsFiveGroups(s: string)
    ensures IsCanonicalUuid(s)
       <==> exists a, b, c, d, e :: && s == JoinedGroups(a, b, c, d, e)
                                    && HexGroup(a, 8) && HexGroup(b, 4) && HexGroup(c, 4) && HexGroup(d, 4)
                                    && HexGroup(e, 12)
  {
    if IsCanonicalUuid(s) {
      assert s == JoinedGroups(s[..8], s[9..13], s[14..18], s[19..23], s[24..]);
    }
  }

  function JoinedGroups(a: string, b: string, c: string, d: string, e: string): string {
    a + "-" + b + "-" + c + "-" + d + "-" + e
  }

  // ---- the shipped ruleset ----------------------------------------------------------

  lemma PlainScheme(cases: CaseTables, s: string)
    requires s != "" && forall i :: 0 <= i < |s| ==> 'a' <= s[i] <= 'z'
    ensures CanonicalScheme(cases, s)
  {
    assert ToLower(cases, s) == s;
  }

  lemma AlphabetIsPlain()
    ensures forall c :: c in ALPHABET ==> '0' <= c <= '9' || 'A' <= c <= 'Z'
  {
  }

  lemma ShippedRuleAccepted(cases: CaseTables, scheme: string, standard: string, length: int)
    requires scheme != "" && forall i :: 0 <= i < |scheme| ==> 'a' <= scheme[i] <= 'z'
    requires standard != "" && 'A' <= standard[0] <= 'Z' && length > 0
    ensures RuleAccepted(cases, Rule(scheme, standard, length, [STRIP_WHITESPACE]))
  {
    hide CanonicalScheme;
    PlainScheme(cases, scheme);
    AlphabetIsPlain();
  }

  /** NewRule and NewRuleset accept what this build ships. */
  lemma ShippedRulesetAccepted(cases: CaseTables)
    ensures RulesetAccepted(Canonicalisation())
    ensures forall i :: 0 <= i < |Canonicalisation().rules| ==> RuleAccepted(cases, Canonicalisation().rules[i])
  {
    hide RuleAccepted;
    ShippedRuleAccepted(cases, "isin", "ISO 6166", 12);
    ShippedRuleAccepted(cases, "cusip", "CUSIP Global Services", 9);
    ShippedRuleAccepted(cases, "sedol", "London Stock Exchange", 7);
    ShippedRuleAccepted(cases, "figi", "OMG FIGI", 12);
    assert "isin"[0] == 'i' && "cusip"[0] == 'c' && "sedol"[0] == 's' && "figi"[0] == 'f';
    assert "1"[0] == '1' && !IsSpace("1"[0]);
  }

  /** The shipped rules cover these four schemes and no others. */
  lemma ShippedSchemes(scheme: string)
    ensures RuleFor(Canonicalisation().rules, scheme).Some? <==> scheme in ["isin", "cusip", "sedol", "figi"]
  {
    var rules := Canonicalisation().rules;
    assert rules[0].scheme == "isin" && rules[1].scheme == "cusip" && rules[2].scheme == "sedol"
           && rules[3].scheme == "figi";
    var r := RuleFor(rules, scheme);
  }

  /** Under the shipped ruleset two values of a governed scheme name one thing exactly
      when they hold the same runes apart from whitespace and case. */
  lemma ShippedValuesMeetIff(cases: CaseTables, scheme: string, v: string, w: string)
    requires scheme in ["isin", "cusip", "sedol", "figi"]
    requires InMemory(CanonicalPreimage(cases, Canonicalisation(), Claim(scheme, v)))
    ensures CanonicalPreimage(cases, Canonicalisation(), Claim(scheme, v))
         == CanonicalPreimage(cases, Canonicalisation(), Claim(scheme, w))
       <==> ToUpper(cases, Marks(v)) == ToUpper(cases, Marks(w))
  {
    hide CanonicalPreimage, RuleAccepted, Canonicalisation, InMemory, CanonicaliseSeed;
    ShippedSchemes(scheme);
    ShippedRulesetAccepted(cases);
    var rule := RuleFor(Canonicalisation().rules, scheme).value;
    var k :| 0 <= k < |Canonicalisation().rules| && Canonicalisation().rules[k] == rule;
    RuledClaimsMeetIff(cases, Canonicalisation(), Claim(scheme, v), Claim(scheme, w), rule, rule);
  }

  // ---- no colon can move the boundary ---------------------------------------------

  /** The canonical form of a claim is its canonical scheme, a colon, and its right
      part (RightPartEnds says what that keeps of the value). */
  lemma SeedFactors(cases: CaseTables, c: Claim)
    requires Unpadded(c.scheme)
    ensures CanonicaliseSeed(cases, c.Render())
         == CanonicaliseSeed(cases, c.scheme) + ":" + ToUpper(cases, RightPart(c.value))
  {
    CollapseFactors(c.scheme, c.value);
    UpperConcat(cases, Collapse(c.scheme) + ":", RightPart(c.value));
    UpperConcat(cases, Collapse(c.scheme), ":");
    assert ToUpper(cases, ":") == ":";
  }

  /** The two pre-images of a claim, part by part: minting hashes the kind, the canonical
      scheme and the claim with its right part; resolution compares the same without the
      kind, after folding. */
  lemma PreimageParts(cases: CaseTables, rs: Ruleset, kind: EntityKind, c: Claim)
    requires Unpadded(c.scheme)
    ensures var scheme := CanonicaliseSeed(cases, c.scheme);
            && ClaimPreimage(cases, kind, c)
               == FramedTexts("fdos.identity.claim-seed.v1",
                              [EntityKindName(kind), scheme, scheme + ":" + ToUpper(cases, RightPart(c.value))])
            && CanonicalPreimage(cases, rs, c)
               == FramedTexts("fdos.identity.claim-seed.v1",
                              [scheme, scheme + ":" + ToUpper(cases, RightPart(FoldClaim(rs, c).value))])
  {
    hide FramedTexts, RightPart, CanonicaliseSeed, EntityKindName;
    SeedFactors(cases, c);
    SeedFactors(cases, FoldClaim(rs, c));
  }

  /** Equal pre-images mean equal canonical schemes and equal right parts, and
      nothing more: this is what it takes for two claims to name one thing. */
  lemma PreimageEquality(cases: CaseTables, rs: Ruleset, c: Claim, d: Claim)
    requires Unpadded(c.scheme) && Unpadded(d.scheme)
    requires InMemory(CanonicalPreimage(cases, rs, c))
    ensures CanonicalPreimage(cases, rs, c) == CanonicalPreimage(cases, rs, d)
       <==> && CanonicaliseSeed(cases, c.scheme) == CanonicaliseSeed(cases, d.scheme)
            && ToUpper(cases, RightPart(FoldClaim(rs, c).value)) == ToUpper(cases, RightPart(FoldClaim(rs, d).value))
  {
    var c', d' := FoldClaim(rs, c), FoldClaim(rs, d);
    SeedFactors(cases, c');
    SeedFactors(cases, d');
    if CanonicalPreimage(cases, rs, c) == CanonicalPreimage(cases, rs, d) {
      SamePair(TAG_CLAIM_SEED,
               CanonicaliseSeed(cases, c'.scheme), CanonicaliseSeed(cases, c'.Render()),
               CanonicaliseSeed(cases, d'.scheme), CanonicaliseSeed(cases, d'.Render()));
      SplitAfter(CanonicaliseSeed(cases, c.scheme) + ":",
                 ToUpper(cases, RightPart(c'.value)), ToUpper(cases, RightPart(d'.value)));
    }
  }

  lemma SplitAfter(head: string, x: string, y: string)
    requires head + x == head + y
    ensures x == y
  {
    assert x == (head + x)[|head|..];
    assert y == (head + y)[|head|..];
  }

  lemma SamePair(tag: string, a: string, b: string, a': string, b': string)
    requires InMemory(FramedTexts(tag, [a, b]))
    requires FramedTexts(tag, [a, b]) == FramedTexts(tag, [a', b'])
    ensures a == a' && b == b'
  {
    var ts, ts' := [a, b], [a', b'];
    TextFrameInjective(tag, ts, tag, ts');
    assert ts[0] == ts'[0] && ts[1] == ts'[1];
  }

  // ---- resolution agrees with minting -----------------------------------------------

  lemma SameTriple(tag: string, k: string, a: string, b: string, k': string, a': string, b': string)
    requires InMemory(FramedTexts(tag, [k, a, b]))
    requires FramedTexts(tag, [k, a, b]) == FramedTexts(tag, [k', a', b'])
    ensures k == k' && a == a' && b == b'
  {
    var ts, ts' := [k, a, b], [k', a', b'];
    TextFrameInjective(tag, ts, tag, ts');
    assert ts[0] == ts'[0] && ts[1] == ts'[1] && ts[2] == ts'[2];
  }

  lemma EntityKindNamesDiffer(k: EntityKind, k': EntityKind)
    requires ValidEntityKind(k) && ValidEntityKind(k')
    requires EntityKindName(k) == EntityKindName(k')
    ensures k == k'
  {
    assert |"instrument"| == 10 && |"party"| == 5 && |"account"| == 7 && |"ledger_stream"| == 13;
  }

  /** Two claims resolve together exactly when minting them under one kind hashes
      one pre-image. */
  lemma ResolutionAgreesWithMinting(cases: CaseTables, rs: Ruleset, kind: EntityKind, c: Claim, d: Claim)
    requires InMemory(CanonicalPreimage(cases, rs, c))
    requires InMemory(ClaimPreimage(cases, kind, FoldClaim(rs, c)))
    ensures CanonicalPreimage(cases, rs, c) == CanonicalPreimage(cases, rs, d)
       <==> ClaimPreimage(cases, kind, FoldClaim(rs, c)) == ClaimPreimage(cases, kind, FoldClaim(rs, d))
  {
    var c', d' := FoldClaim(rs, c), FoldClaim(rs, d);
    var a, b := CanonicaliseSeed(cases, c'.scheme), CanonicaliseSeed(cases, c'.Render());
    var a', b' := CanonicaliseSeed(cases, d'.scheme), CanonicaliseSeed(cases, d'.Render());
    if CanonicalPreimage(cases, rs, c) == CanonicalPreimage(cases, rs, d) {
      SamePair(TAG_CLAIM_SEED, a, b, a', b');
    }
    if ClaimPreimage(cases, kind, c') == ClaimPreimage(cases, kind, d') {
      SameTriple(TAG_CLAIM_SEED, EntityKindName(kind), a, b, EntityKindName(kind), a', b');
    }
  }

  /** Different kinds never share a pre-image, whatever the claims. */
  lemma KindsNeverShare(cases: CaseTables, k: EntityKind, c: Claim, k': EntityKind, d: Claim)
    requires ValidEntityKind(k) && ValidEntityKind(k') && k != k'
    requires InMemory(ClaimPreimage(cases, k, c))
    ensures ClaimPreimage(cases, k, c) != ClaimPreimage(cases, k', d)
  {
    if ClaimPreimage(cases, k, c) == ClaimPreimage(cases, k', d) {
      SameTriple(TAG_CLAIM_SEED, EntityKindName(k), CanonicaliseSeed(cases, c.scheme), CanonicaliseSeed(cases, c.Render()),
                 EntityKindName(k'), CanonicaliseSeed(cases, d.scheme), CanonicaliseSeed(cases, d.Render()));
      EntityKindNamesDiffer(k, k');
    }
  }

  /** A claim never collides with a bare seed. */
  lemma ClaimNeverMeetsSeed(cases: CaseTables, k: EntityKind, c: Claim, k': EntityKind, seed: string)
    requires InMemory(ClaimPreimage(cases, k, c))
    ensures ClaimPreimage(cases, k, c) != SeedPreimage(cases, k', seed)
  {
    var ts := [EntityKindName(k), CanonicaliseSeed(cases, c.scheme), CanonicaliseSeed(cases, c.Render())];
    var ts' := [EntityKindName(k'), CanonicaliseSeed(cases, seed)];
    if FramedTexts(TAG_CLAIM_SEED, ts) == FramedTexts(TAG_ENTITY_SEED, ts') {
      TextFrameInjective(TAG_CLAIM_SEED, ts, TAG_ENTITY_SEED, ts');
    }
  }

  /** Every valid claim can be minted under every valid kind. */
  lemma ValidClaimsDerive(p: Platform, rs: Ruleset, kind: EntityKind, c: Claim)
    requires ValidClaim(p.cases, c) && ValidEntityKind(kind)
    ensures DeriveFromClaim(p, kind, FoldClaim(rs, c))
         == Ok(ID(kind, p.uuidV5(ClaimPreimage(p.cases, kind, FoldClaim(rs, c)))))
  {
    SeedFactors(p.cases, FoldClaim(rs, c));
    JoinNonEmpty(Fields(c.scheme));
    assert TrimLeft(c.scheme) == c.scheme;
  }

  /** A seed derives exactly under a valid kind and if it is not blank, and two seeds are
      hashed alike exactly when kind and canonical form are the same. */
  lemma SeedsDerive(p: Platform, kind: EntityKind, seed: string, kind': EntityKind, seed': string)
    requires ValidEntityKind(kind) && ValidEntityKind(kind') && InMemory(SeedPreimage(p.cases, kind, seed))
    ensures Derive(p, kind, seed).Ok? <==> !Blank(seed)
    ensures SeedPreimage(p.cases, kind, seed) == SeedPreimage(p.cases, kind', seed')
       <==> kind == kind' && CanonicaliseSeed(p.cases, seed) == CanonicaliseSeed(p.cases, seed')
  {
    hide EntityKindName, FramedTexts, Join;
    BlankTrims(seed);
    JoinNonEmpty(Fields(seed));
    var x, y := [EntityKindName(kind), CanonicaliseSeed(p.cases, seed)],
                [EntityKindName(kind'), CanonicaliseSeed(p.cases, seed')];
    if SeedPreimage(p.cases, kind, seed) == SeedPreimage(p.cases, kind', seed') {
      TextFrameInjective(TAG_ENTITY_SEED, x, TAG_ENTITY_SEED, y);
      assert x[0] == y[0] && x[1] == y[1];
      EntityKindNamesDiffer(kind, kind');
    }
  }
}
