/** Claims, canonicalisation rules and identifiers (kernel/identity). */
module Identity {
  import opened Results
  import opened Text
  import opened Framing
  import opened External

  // ---- claims ----------------------------------------------------------------

  datatype Claim = Claim(scheme: string, value: string) {
    predicate IsZero() {
      scheme == ""
    }

    function Render(): string {
      scheme + ":" + value
    }
  }

  /** Lowercase, unpadded and not empty. */
  predicate CanonicalScheme(cases: CaseTables, scheme: string) {
    scheme != "" && ToLower(cases, scheme) == scheme && Unpadded(scheme)
  }

  predicate ValidClaim(cases: CaseTables, c: Claim) {
    CanonicalScheme(cases, c.scheme) && c.value != ""
  }

  function NewClaim(cases: CaseTables, scheme: string, value: string): (r: Result<Claim>)
    ensures r.Ok? <==> ValidClaim(cases, Claim(scheme, value))
    ensures r.Ok? ==> r.value.scheme == scheme && r.value.value == value
  {
    if CanonicalScheme(cases, scheme) && value != "" then Ok(Claim(scheme, value)) else Err(ErrMalformedClaim)
  }

  // ---- entity kinds and identifiers --------------------------------------------

  type EntityKind = U8
  const INSTRUMENT: EntityKind := 1
  const PARTY: EntityKind := 2
  const ACCOUNT: EntityKind := 3
  const LEDGER_STREAM: EntityKind := 4

  predicate ValidEntityKind(k: EntityKind) {
    INSTRUMENT <= k <= LEDGER_STREAM
  }

  function EntityKindName(k: EntityKind): string {
    if k == INSTRUMENT then "instrument"
    else if k == PARTY then "party"
    else if k == ACCOUNT then "account"
    else if k == LEDGER_STREAM then "ledger_stream"
    else "unspecified"
  }

  datatype ID = ID(kind: EntityKind, value: string)

  predicate ValidId(id: ID) {
    ValidEntityKind(id.kind) && IsCanonicalUuid(id.value)
  }

  /** Restore: shape only, nothing is parsed out of an identifier. */
  function Restore(kind: EntityKind, value: string): (r: Result<ID>)
    ensures r.Ok? <==> ValidId(ID(kind, value))
    ensures r.Ok? ==> r.value == ID(kind, value)
  {
    if !ValidEntityKind(kind) then Err(ErrUnknownEntityKind)
    else if !IsCanonicalUuid(value) then Err(ErrEmptySeed)
    else Ok(ID(kind, value))
  }

  // ---- folds and rules -----------------------------------------------------------

  type Fold = U8
  const STRIP_WHITESPACE: Fold := 1

  predicate ValidFold(f: Fold) {
    f == STRIP_WHITESPACE
  }

  function StripSpace(v: string): string {
    if v == "" then "" else (if IsSpace(v[0]) then "" else [v[0]]) + StripSpace(v[1..])
  }

  function ApplyFold(f: Fold, v: string): string {
    if f == STRIP_WHITESPACE then StripSpace(v) else v
  }

  /** Whether a value holding this rune can be changed by the fold; an unknown fold
      is taken to alter everything. */
  predicate AltersRune(f: Fold, c: char) {
    if f == STRIP_WHITESPACE then IsSpace(c) else true
  }

  const ALPHABET: string := "0123456789ABCDEFGHIJKLMNOPQRSTUVWXYZ"

  method FoldIsSafe(alters: char -> bool) returns (safe: bool)
    ensures safe <==> forall c :: c in ALPHABET ==> !alters(c)
  {
    var i := 0;
    while i < |ALPHABET|
      invariant 0 <= i <= |ALPHABET|
      invariant forall j :: 0 <= j < i ==> !alters(ALPHABET[j])
    {
      if alters(ALPHABET[i]) {
        return false;
      }
      i := i + 1;
    }
    return true;
  }

  datatype Rule = Rule(scheme: string, standard: string, length: int, folds: seq<Fold>)

  function ApplyFolds(folds: seq<Fold>, v: string): string {
    if folds == [] then v else ApplyFold(folds[|folds| - 1], ApplyFolds(folds[..|folds| - 1], v))
  }

  /** Rule.fold: the transforms in declaration order. */
  method FoldValue(rule: Rule, v: string) returns (value: string)
    ensures value == ApplyFolds(rule.folds, v)
  {
    value := v;
    var i := 0;
    while i < |rule.folds|
      invariant 0 <= i <= |rule.folds|
      invariant value == ApplyFolds(rule.folds[..i], v)
    {
      value := ApplyFold(rule.folds[i], value);
      assert rule.folds[..i + 1][..i] == rule.folds[..i];
      i := i + 1;
    }
    assert rule.folds[..i] == rule.folds;
  }

  ghost predicate RuleAccepted(cases: CaseTables, r: Rule) {
    && CanonicalScheme(cases, r.scheme)
    && !Blank(r.standard)
    && r.length > 0
    && r.folds != []
    && forall i :: 0 <= i < |r.folds| ==>
         ValidFold(r.folds[i]) && forall c :: c in ALPHABET ==> !AltersRune(r.folds[i], c)
  }

  method NewRule(cases: CaseTables, scheme: string, standard: string, length: int, folds: seq<Fold>)
    returns (r: Result<Rule>)
    ensures r.Ok? <==> RuleAccepted(cases, Rule(scheme, standard, length, folds))
    ensures r == Ok(Rule(scheme, standard, length, folds)) || r == Err(ErrMalformedRule)
  {
    if !CanonicalScheme(cases, scheme) || Blank(standard) || length <= 0 || folds == [] {
      return Err(ErrMalformedRule);
    }
    var i := 0;
    while i < |folds|
      invariant 0 <= i <= |folds|
      invariant forall j :: 0 <= j < i ==>
                  ValidFold(folds[j]) && forall c :: c in ALPHABET ==> !AltersRune(folds[j], c)
    {
      if !ValidFold(folds[i]) {
        return Err(ErrMalformedRule);
      }
      var f := folds[i];
      var safe := FoldIsSafe(c => AltersRune(f, c));
      if !safe {
        return Err(ErrMalformedRule);
      }
      i := i + 1;
    }
    return Ok(Rule(scheme, standard, length, folds));
  }

  /** The values a standard itself writes; claims are not held to them, only rules are. */
  predicate IsCanonicalValue(r: Rule, v: string) {
    |v| == r.length && forall i :: 0 <= i < |v| ==> v[i] in ALPHABET
  }

  // ---- rulesets --------------------------------------------------------------------

  datatype Ruleset = Ruleset(version: string, rules: seq<Rule>)

  ghost predicate RulesetAccepted(rs: Ruleset) {
    && !Blank(rs.version)
    && (forall i :: 0 <= i < |rs.rules| ==> rs.rules[i].scheme != "")
    && (forall i, j :: 0 <= i < j < |rs.rules| ==> rs.rules[i].scheme != rs.rules[j].scheme)
  }

  method NewRuleset(version: string, rules: seq<Rule>) returns (r: Result<Ruleset>)
    ensures r.Ok? <==> RulesetAccepted(Ruleset(version, rules))
    ensures r == Ok(Ruleset(version, rules)) || r == Err(ErrMalformedRuleset)
  {
    if Blank(version) {
      return Err(ErrMalformedRuleset);
    }
    var i := 0;
    while i < |rules|
      invariant 0 <= i <= |rules|
      invariant forall k :: 0 <= k < i ==> rules[k].scheme != ""
      invariant forall k, m :: 0 <= k < m < i ==> rules[k].scheme != rules[m].scheme
    {
      if rules[i].scheme == "" {
        return Err(ErrMalformedRuleset);
      }
      var j := 0;
      while j < i
        invariant 0 <= j <= i
        invariant forall k :: 0 <= k < j ==> rules[k].scheme != rules[i].scheme
      {
        if rules[j].scheme == rules[i].scheme {
          return Err(ErrMalformedRuleset);
        }
        j := j + 1;
      }
      i := i + 1;
    }
    return Ok(Ruleset(version, rules));
  }

  /** The first rule for a scheme. */
  function RuleFor(rules: seq<Rule>, scheme: string): (r: Option<Rule>)
    ensures r.Some? ==> r.value in rules && r.value.scheme == scheme
    ensures r.None? ==> forall i :: 0 <= i < |rules| ==> rules[i].scheme != scheme
  {
    if rules == [] then None
    else if rules[0].scheme == scheme then Some(rules[0])
    else RuleFor(rules[1..], scheme)
  }

  /** Ruleset.Fold: a fold that would empty the value leaves the claim alone. */
  function FoldClaim(rs: Ruleset, c: Claim): (d: Claim)
    ensures d.scheme == c.scheme
    ensures c.value != "" ==> d.value != ""
  {
    match RuleFor(rs.rules, c.scheme)
    case None => c
    case Some(rule) =>
      var folded := ApplyFolds(rule.folds, c.value);
      if folded == "" then c else Claim(c.scheme, folded)
  }

  /** The four shipped rules, one for each governed scheme. */
  function Canonicalisation(): Ruleset {
    Ruleset("1",
            [Rule("isin", "ISO 6166", 12, [STRIP_WHITESPACE]),
             Rule("cusip", "CUSIP Global Services", 9, [STRIP_WHITESPACE]),
             Rule("sedol", "London Stock Exchange", 7, [STRIP_WHITESPACE]),
             Rule("figi", "OMG FIGI", 12, [STRIP_WHITESPACE])])
  }

  // ---- pre-images ---------------------------------------------------------------------

  const TAG_ENTITY_SEED: string := "fdos.identity.entity-seed.v1"
  const TAG_CLAIM_SEED: string := "fdos.identity.claim-seed.v1"

  function CanonicaliseSeed(cases: CaseTables, seed: string): string {
    ToUpper(cases, Collapse(seed))
  }

  /** What DeriveFromClaim hashes. */
  function ClaimPreimage(cases: CaseTables, kind: EntityKind, c: Claim): seq<Byte> {
    FramedTexts(TAG_CLAIM_SEED,
                [EntityKindName(kind), CanonicaliseSeed(cases, c.scheme), CanonicaliseSeed(cases, c.Render())])
  }

  /** What Derive hashes. */
  function SeedPreimage(cases: CaseTables, kind: EntityKind, seed: string): seq<Byte> {
    FramedTexts(TAG_ENTITY_SEED, [EntityKindName(kind), CanonicaliseSeed(cases, seed)])
  }

  /** The comparison key of resolution: the claim pre-image without the kind. */
  function CanonicalPreimage(cases: CaseTables, rs: Ruleset, c: Claim): seq<Byte> {
    var folded := FoldClaim(rs, c);
    FramedTexts(TAG_CLAIM_SEED,
                [CanonicaliseSeed(cases, folded.scheme), CanonicaliseSeed(cases, folded.Render())])
  }

  /** The legible form recorded as a derivation parameter. */
  function CanonicalSeed(cases: CaseTables, rs: Ruleset, c: Claim): string {
    CanonicaliseSeed(cases, FoldClaim(rs, c).Render())
  }

  function Derive(p: Platform, kind: EntityKind, seed: string): (r: Result<ID>)
    ensures r.Ok? ==> ValidId(r.value) && r.value.kind == kind
  {
    if !ValidEntityKind(kind) then Err(ErrUnknownEntityKind)
    else if CanonicaliseSeed(p.cases, seed) == "" then Err(ErrEmptySeed)
    else Ok(ID(kind, p.uuidV5(SeedPreimage(p.cases, kind, seed))))
  }

  function DeriveFromClaim(p: Platform, kind: EntityKind, c: Claim): (r: Result<ID>)
    ensures r.Ok? ==> ValidId(r.value) && r.value.kind == kind
  {
    if !ValidEntityKind(kind) then Err(ErrUnknownEntityKind)
    else if c.IsZero() then Err(ErrEmptySeed)
    else if CanonicaliseSeed(p.cases, c.scheme) == "" || CanonicaliseSeed(p.cases, c.Render()) == ""
    then Err(ErrEmptySeed)
    else Ok(ID(kind, p.uuidV5(ClaimPreimage(p.cases, kind, c))))
  }
}
