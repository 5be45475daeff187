/** Origin, confidence and content-addressed derivations (kernel/provenance). */
module Provenance {
  import opened Results
  import opened Text
  import opened Framing
  import opened Sorting
  import opened Temporal
  import opened External

  // ---- confidence ---------------------------------------------------------------

  /** Ordinal, from most to least trustworthy; zero is unset. */
  type Confidence = U8
  const ASSERTED: Confidence := 1
  const DERIVED: Confidence := 2
  const ESTIMATED: Confidence := 3
  const INFERRED: Confidence := 4
  const DISPUTED: Confidence := 5

  predicate ValidConfidence(c: Confidence) {
    ASSERTED <= c <= DISPUTED
  }

  function ConfidenceName(c: Confidence): string {
    if c == ASSERTED then "asserted"
    else if c == DERIVED then "derived"
    else if c == ESTIMATED then "estimated"
    else if c == INFERRED then "inferred"
    else if c == DISPUTED then "disputed"
    else "unspecified"
  }

  /** The least trustworthy of the levels, and no better than asserted. */
  function Weakest(levels: seq<Confidence>): (w: Confidence)
    ensures w == ASSERTED || w in levels
    ensures ASSERTED <= w && forall i :: 0 <= i < |levels| ==> levels[i] <= w
  {
    if levels == [] then ASSERTED
    else
      var last, rest := levels[|levels| - 1], Weakest(levels[..|levels| - 1]);
      if last > rest then last else rest
  }

  method WeakestOf(levels: seq<Confidence>) returns (worst: Confidence)
    ensures worst == Weakest(levels)
  {
    worst := ASSERTED;
    var i := 0;
    while i < |levels|
      invariant 0 <= i <= |levels|
      invariant worst == Weakest(levels[..i])
    {
      assert levels[..i + 1][..i] == levels[..i];
      if levels[i] > worst {
        worst := levels[i];
      }
      i := i + 1;
    }
    assert levels[..i] == levels;
  }

  // ---- the parts of an envelope ---------------------------------------------------

  type Source = string

  function NewSource(value: string): Result<Source> {
    if Blank(value) then Err(ErrIncomplete) else Ok(value)
  }

  const SOURCE_ALGORITHM: string := "sha256:"

  /** CheckContentAddress: "sha256:" and 64 lowercase hexadecimal characters. */
  predicate IsContentAddress(s: Source) {
    SOURCE_ALGORITHM <= s && IsHexDigest(s[|SOURCE_ALGORITHM|..])
  }

  datatype Interpreter = Interpreter(name: string, version: string)

  datatype ReferenceBinding = ReferenceBinding(dataset: string, version: string)

  function NewReferenceBinding(dataset: string, version: string): Result<ReferenceBinding> {
    if Blank(dataset) || Blank(version) then Err(ErrIncomplete) else Ok(ReferenceBinding(dataset, version))
  }

  datatype Provenance = Provenance(
    source: Source,
    collectedAt: Instant,
    publishedAt: Instant,          // UNSET when the source makes no claim
    interpreter: Interpreter,
    derivation: Option<string>,    // the content address of a derivation
    confidence: Confidence) {
    predicate IsZero() {
      source == ""
    }
  }

  function Observed(source: Source, collectedAt: Instant, interpreter: Interpreter, confidence: Confidence)
    : Result<Provenance>
  {
    if source == "" || collectedAt == UNSET || interpreter.name == "" then Err(ErrIncomplete)
    else if !ValidConfidence(confidence) then Err(ErrUnknownConfidence)
    else Ok(Provenance(source, collectedAt, UNSET, interpreter, None, confidence))
  }

  function Derived(source: Source, collectedAt: Instant, interpreter: Interpreter,
                   derivation: string, confidence: Confidence)
    : Result<Provenance>
  {
    var p :- Observed(source, collectedAt, interpreter, confidence);
    if derivation == "" then Err(ErrIncomplete) else Ok(p.(derivation := Some(derivation)))
  }

  // ---- derivations ------------------------------------------------------------------

  datatype Method = Method(name: string, version: string)

  function NewMethod(name: string, version: string): Result<Method> {
    if Blank(name) || Blank(version) then Err(ErrIncomplete) else Ok(Method(name, version))
  }

  datatype Parameter = Parameter(name: string, value: string)

  /** "left@right", the rendering of methods and reference bindings. */
  function AtJoin(left: string, right: string): string {
    left + "@" + right
  }

  datatype Derivation = Derivation(
    method_: Method,
    inputs: seq<string>,
    parameters: seq<Parameter>,
    references: seq<ReferenceBinding>,
    confidence: Confidence)

  datatype DerivationRecord = DerivationRecord(body: Derivation, hash: string)

  const TAG_DERIVATION: string := "fdos.provenance.derivation.v1"
  const TAG_INPUTS: string := "fdos.provenance.inputs.v1"
  const TAG_PARAMETERS: string := "fdos.provenance.parameters.v1"
  const TAG_PARAMETER: string := "fdos.provenance.parameter.v1"
  const TAG_REFERENCES: string := "fdos.provenance.references.v1"

  function ParameterFrame(tag: string, q: Parameter): seq<Byte> {
    FramedTexts(tag, [q.name, q.value])
  }

  function ParameterFrames(tag: string, ps: seq<Parameter>): (cs: seq<seq<Byte>>)
    ensures |cs| == |ps|
  {
    seq(|ps|, i requires 0 <= i < |ps| => ParameterFrame(tag, ps[i]))
  }

  function ReferenceTexts(rs: seq<ReferenceBinding>): (ts: seq<string>)
    ensures |ts| == |rs|
  {
    seq(|rs|, i requires 0 <= i < |rs| => AtJoin(rs[i].dataset, rs[i].version))
  }

  /** The five sections of a derivation pre-image. */
  function Sections(d: Derivation): seq<seq<Byte>> {
    [Utf8(AtJoin(d.method_.name, d.method_.version)),
     FramedTexts(TAG_INPUTS, d.inputs),
     Framed(Utf8(TAG_PARAMETERS), ParameterFrames(TAG_PARAMETER, d.parameters)),
     FramedTexts(TAG_REFERENCES, ReferenceTexts(d.references)),
     Utf8(ConfidenceName(d.confidence))]
  }

  function DerivationPreimage(d: Derivation): seq<Byte> {
    Framed(Utf8(TAG_DERIVATION), Sections(d))
  }

  method FrameParameter(tag: string, q: Parameter) returns (out: seq<Byte>)
    ensures out == ParameterFrame(tag, q)
  {
    out := Frame(Utf8(tag), Texts([q.name, q.value]));
  }

  method FrameParameters(tag: string, ps: seq<Parameter>) returns (out: seq<seq<Byte>>)
    ensures out == ParameterFrames(tag, ps)
  {
    out := [];
    var i := 0;
    while i < |ps|
      invariant 0 <= i <= |ps|
      invariant out == ParameterFrames(tag, ps)[..i]
    {
      var framed := FrameParameter(tag, ps[i]);
      out := out + [framed];
      i := i + 1;
    }
  }

  method RenderReferences(rs: seq<ReferenceBinding>) returns (out: seq<string>)
    ensures out == ReferenceTexts(rs)
  {
    out := [];
    var i := 0;
    while i < |rs|
      invariant 0 <= i <= |rs|
      invariant out == ReferenceTexts(rs)[..i]
    {
      out := out + [AtJoin(rs[i].dataset, rs[i].version)];
      i := i + 1;
    }
  }

  /** contentAddress: five sections, those that are lists framed on their own first. */
  method ContentAddress(p: Platform, d: Derivation) returns (hash: HexDigest)
    ensures hash == p.sha256(DerivationPreimage(d))
  {
    hide Utf8, Framed, Texts, ConfidenceName, AtJoin, ParameterFrames, ReferenceTexts;
    var inputs := Frame(Utf8(TAG_INPUTS), Texts(d.inputs));
    var parameters := FrameParameters(TAG_PARAMETER, d.parameters);
    var references := RenderReferences(d.references);
    var framedParameters := Frame(Utf8(TAG_PARAMETERS), parameters);
    var framedReferences := Frame(Utf8(TAG_REFERENCES), Texts(references));
    var sections := [Utf8(AtJoin(d.method_.name, d.method_.version)),
                     inputs, framedParameters, framedReferences,
                     Utf8(ConfidenceName(d.confidence))];
    assert sections == Sections(d);
    var preimage := Frame(Utf8(TAG_DERIVATION), sections);
    return p.sha256(preimage);
  }

  /** The sorts compare the name, or the dataset, and nothing else. */
  function ByName(a: Parameter, b: Parameter): bool {
    StringLess(a.name, b.name)
  }

  function ByDataset(a: ReferenceBinding, b: ReferenceBinding): bool {
    StringLess(a.dataset, b.dataset)
  }

  /** NewDerivation, with the library sort taken to be a stable one. */
  function NewDerivation(p: Platform, m: Method, inputs: seq<string>, parameters: seq<Parameter>,
                         references: seq<ReferenceBinding>, confidence: Confidence)
    : Result<DerivationRecord>
  {
    if m.name == "" then Err(ErrIncomplete)
    else if !ValidConfidence(confidence) then Err(ErrUnknownConfidence)
    else
      var d := Derivation(m, inputs, SortBy(ByName, parameters), SortBy(ByDataset, references), confidence);
      Ok(DerivationRecord(d, p.sha256(DerivationPreimage(d))))
  }
}
