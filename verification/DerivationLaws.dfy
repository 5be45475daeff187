/** When two derivations share a content-address pre-image, and why the order a
    caller lists parameters in does not matter. */
module DerivationLaws {
  import opened Results
  import opened Text
  import opened Framing
  import opened Sorting
  import opened External
  import opened Provenance

  // ---- equal pre-images --------------------------------------------------------------

  /** What a pre-image records of a derivation: everything, with the method and the
      reference bindings as rendered. */
  ghost predicate SameRendering(d: Derivation, e: Derivation) {
    && AtJoin(d.method_.name, d.method_.version) == AtJoin(e.method_.name, e.method_.version)
    && d.inputs == e.inputs
    && d.parameters == e.parameters
    && ReferenceTexts(d.references) == ReferenceTexts(e.references)
    && d.confidence == e.confidence
  }

  lemma ConfidenceNamesDiffer(c: Confidence, c': Confidence)
    requires ValidConfidence(c) && ValidConfidence(c')
    requires ConfidenceName(c) == ConfidenceName(c')
    ensures c == c'
  {
    assert "asserted"[0] == 'a' && "derived"[0] == 'd' && "estimated"[0] == 'e' && "inferred"[0] == 'i';
    assert "disputed"[1] == 'i' && "derived"[1] == 'e' && "disputed"[0] == 'd';
  }

  lemma ParameterFramesInjective(outer: seq<Byte>, tag: string, ps: seq<Parameter>, qs: seq<Parameter>)
    requires InMemory(Framed(outer, ParameterFrames(tag, ps)))
    requires Framed(outer, ParameterFrames(tag, ps)) == Framed(outer, ParameterFrames(tag, qs))
    ensures ps == qs
  {
    var cs, cs' := ParameterFrames(tag, ps), ParameterFrames(tag, qs);
    FrameInjective(outer, cs, outer, cs');
    assert |cs| == |cs'|;
    forall i | 0 <= i < |ps|
      ensures ps[i] == qs[i]
    {
      ComponentFits(outer, cs, i);
      assert cs[i] == cs'[i];
      ParameterFrameInjective(tag, ps[i], qs[i]);
    }
  }

  lemma ParameterFrameInjective(tag: string, a: Parameter, b: Parameter)
    requires InMemory(ParameterFrame(tag, a))
    requires ParameterFrame(tag, a) == ParameterFrame(tag, b)
    ensures a == b
  {
    var x, y := [a.name, a.value], [b.name, b.value];
    TextFrameInjective(tag, x, tag, y);
    assert x[0] == y[0] && x[1] == y[1];
  }

  lemma SectionsInjective(d: Derivation, e: Derivation)
    requires ValidConfidence(d.confidence) && ValidConfidence(e.confidence)
    requires forall i :: 0 <= i < 5 ==> InMemory(Sections(d)[i])
    requires Sections(d) == Sections(e)
    ensures SameRendering(d, e)
  {
    hide Utf8, FramedTexts, Framed, ConfidenceName, ParameterFrames, ReferenceTexts, AtJoin;
    var s, t := Sections(d), Sections(e);
    assert s[0] == t[0] && s[1] == t[1] && s[2] == t[2] && s[3] == t[3] && s[4] == t[4];
    Utf8Injective(AtJoin(d.method_.name, d.method_.version), AtJoin(e.method_.name, e.method_.version));
    TextFrameInjective(TAG_INPUTS, d.inputs, TAG_INPUTS, e.inputs);
    ParameterFramesInjective(Utf8(TAG_PARAMETERS), TAG_PARAMETER, d.parameters, e.parameters);
    TextFrameInjective(TAG_REFERENCES, ReferenceTexts(d.references), TAG_REFERENCES, ReferenceTexts(e.references));
    Utf8Injective(ConfidenceName(d.confidence), ConfidenceName(e.confidence));
    ConfidenceNamesDiffer(d.confidence, e.confidence);
  }

  /** Two derivations have one pre-image exactly when they render alike: nothing
      crosses from one section, input or parameter into another. */
  lemma PreimagesEqualIffRenderedAlike(d: Derivation, e: Derivation)
    requires ValidConfidence(d.confidence) && ValidConfidence(e.confidence)
    requires InMemory(DerivationPreimage(d))
    ensures DerivationPreimage(d) == DerivationPreimage(e) <==> SameRendering(d, e)
  {
    hide Utf8, Framed, FramedTexts, ParameterFrames, ReferenceTexts, AtJoin, ConfidenceName;
    if DerivationPreimage(d) == DerivationPreimage(e) {
      FrameInjective(Utf8(TAG_DERIVATION), Sections(d), Utf8(TAG_DERIVATION), Sections(e));
      forall i | 0 <= i < 5
        ensures InMemory(Sections(d)[i])
      {
        ComponentFits(Utf8(TAG_DERIVATION), Sections(d), i);
      }
      SectionsInjective(d, e);
    }
  }

  // ---- what the "@" of a rendering hides -----------------------------------------------

  lemma {:induction false} AtJoinInjective(a: string, b: string, a': string, b': string)
    requires '@' !in a && '@' !in a'
    requires AtJoin(a, b) == AtJoin(a', b')
    ensures a == a' && b == b'
  {
    var s, s' := AtJoin(a, b), AtJoin(a', b');
    assert s[|a|] == '@' && s'[|a'|] == '@';
    assert forall i :: 0 <= i < |a| ==> s[i] == a[i];
    assert forall i :: 0 <= i < |a'| ==> s'[i] == a'[i];
    assert |a| == |a'|;
    assert a == s[..|a|] && a' == s'[..|a'|];
    assert b == s[|a| + 1..] && b' == s'[|a'| + 1..];
  }

  /** With "@"-free method names and dataset names a pre-image fixes the derivation. */
  lemma PreimageFixesDerivation(d: Derivation, e: Derivation)
    requires ValidConfidence(d.confidence) && ValidConfidence(e.confidence)
    requires InMemory(DerivationPreimage(d))
    requires '@' !in d.method_.name && '@' !in e.method_.name
    requires forall i :: 0 <= i < |d.references| ==> '@' !in d.references[i].dataset
    requires forall i :: 0 <= i < |e.references| ==> '@' !in e.references[i].dataset
    requires DerivationPreimage(d) == DerivationPreimage(e)
    ensures d == e
  {
    hide DerivationPreimage, ReferenceTexts;
    PreimagesEqualIffRenderedAlike(d, e);
    AtJoinInjective(d.method_.name, d.method_.version, e.method_.name, e.method_.version);
    ReferencesReadBack(d.references, e.references);
  }

  lemma ReferencesReadBack(rs: seq<ReferenceBinding>, qs: seq<ReferenceBinding>)
    requires forall i :: 0 <= i < |rs| ==> '@' !in rs[i].dataset
    requires forall i :: 0 <= i < |qs| ==> '@' !in qs[i].dataset
    requires ReferenceTexts(rs) == ReferenceTexts(qs)
    ensures rs == qs
  {
    assert |ReferenceTexts(rs)| == |ReferenceTexts(qs)|;
    forall i | 0 <= i < |rs|
      ensures rs[i] == qs[i]
    {
      assert ReferenceTexts(rs)[i] == ReferenceTexts(qs)[i];
      AtJoinInjective(rs[i].dataset, rs[i].version, qs[i].dataset, qs[i].version);
    }
  }

  // ---- order independence ------------------------------------------------------------------

  lemma ByNameOrders()
    ensures WeakOrder(ByName)
  {
    forall x: Parameter, y: Parameter
      ensures ByName(x, y) ==> !ByName(y, x)
    {
      StringLessTotal(x.name, y.name);
    }
    forall x: Parameter, y: Parameter, z: Parameter | !ByName(y, x) && !ByName(z, y)
      ensures !ByName(z, x)
    {
      StringOrderWeak(x.name, y.name, z.name);
    }
  }

  lemma ByDatasetOrders()
    ensures WeakOrder(ByDataset)
  {
    forall x: ReferenceBinding, y: ReferenceBinding
      ensures ByDataset(x, y) ==> !ByDataset(y, x)
    {
      StringLessTotal(x.dataset, y.dataset);
    }
    forall x: ReferenceBinding, y: ReferenceBinding, z: ReferenceBinding | !ByDataset(y, x) && !ByDataset(z, y)
      ensures !ByDataset(z, x)
    {
      StringOrderWeak(x.dataset, y.dataset, z.dataset);
    }
  }

  lemma StringOrderWeak(x: string, y: string, z: string)
    requires !StringLess(y, x) && !StringLess(z, y)
    ensures !StringLess(z, x)
  {
    StringLessTotal(x, y);
    StringLessTotal(y, z);
    if StringLess(z, x) && x != y && y != z {
      LexLessTransitive(Utf8(x), Utf8(y), Utf8(z));
      StringLessTotal(x, z);
    }
  }

  /** No two parameters share a name while differing in value. */
  ghost predicate ParametersAgree(ps: seq<Parameter>) {
    forall i, j :: 0 <= i < |ps| && 0 <= j < |ps| && ps[i].name == ps[j].name ==> ps[i] == ps[j]
  }

  /** No two bindings share a dataset while differing in version. */
  ghost predicate ReferencesAgree(rs: seq<ReferenceBinding>) {
    forall i, j :: 0 <= i < |rs| && 0 <= j < |rs| && rs[i].dataset == rs[j].dataset ==> rs[i] == rs[j]
  }

  lemma ParametersDistinguished(ps: seq<Parameter>)
    ensures Distinguishes(ByName, ps) <==> ParametersAgree(ps)
  {
    forall i, j | 0 <= i < |ps| && 0 <= j < |ps|
      ensures ps[i].name == ps[j].name <==> !ByName(ps[i], ps[j]) && !ByName(ps[j], ps[i])
    {
      StringLessTotal(ps[i].name, ps[j].name);
    }
  }

  lemma ReferencesDistinguished(rs: seq<ReferenceBinding>)
    ensures Distinguishes(ByDataset, rs) <==> ReferencesAgree(rs)
  {
    forall i, j | 0 <= i < |rs| && 0 <= j < |rs|
      ensures rs[i].dataset == rs[j].dataset <==> !ByDataset(rs[i], rs[j]) && !ByDataset(rs[j], rs[i])
    {
      StringLessTotal(rs[i].dataset, rs[j].dataset);
    }
  }

  /** What NewDerivation may hash for these arguments under some correct sort. */
  ghost predicate SortedFrom(d: Derivation, ps: seq<Parameter>, rs: seq<ReferenceBinding>) {
    IsSortOf(ByName, ps, d.parameters) && IsSortOf(ByDataset, rs, d.references)
  }

  /** For every correct sort, stable or not, permuting the arguments changes nothing. */
  lemma AddressIgnoresArgumentOrder(d: Derivation, ps: seq<Parameter>, rs: seq<ReferenceBinding>,
                                    e: Derivation, ps': seq<Parameter>, rs': seq<ReferenceBinding>)
    requires SortedFrom(d, ps, rs) && SortedFrom(e, ps', rs')
    requires multiset(ps) == multiset(ps') && multiset(rs) == multiset(rs')
    requires ParametersAgree(ps) && ReferencesAgree(rs)
    requires d.method_ == e.method_ && d.inputs == e.inputs && d.confidence == e.confidence
    ensures d == e
  {
    ByNameOrders();
    ByDatasetOrders();
    ParametersDistinguished(ps);
    ReferencesDistinguished(rs);
    AnySortAgrees(ByName, ps, ps', d.parameters, e.parameters);
    AnySortAgrees(ByDataset, rs, rs', d.references, e.references);
  }

  /** That condition is exact: when two parameters share a name and differ, two
      correct sorts of the very same arguments hash different pre-images. */
  lemma ConflictingParametersAmbiguous(d: Derivation, ps: seq<Parameter>, rs: seq<ReferenceBinding>)
    returns (e: Derivation, f: Derivation)
    requires SortedFrom(d, ps, rs) && ValidConfidence(d.confidence)
    requires !ParametersAgree(ps)
    ensures SortedFrom(e, ps, rs) && SortedFrom(f, ps, rs)
    ensures InMemory(DerivationPreimage(e)) ==> DerivationPreimage(e) != DerivationPreimage(f)
  {
    hide DerivationPreimage, ReferenceTexts;
    ByNameOrders();
    ParametersDistinguished(ps);
    var a, b, k := AmbiguousSort(ByName, ps);
    e, f := d.(parameters := a), d.(parameters := b);
    if InMemory(DerivationPreimage(e)) {
      PreimagesEqualIffRenderedAlike(e, f);
    }
  }

  lemma ConflictingReferencesAmbiguous(d: Derivation, ps: seq<Parameter>, rs: seq<ReferenceBinding>)
    returns (e: Derivation, f: Derivation)
    requires SortedFrom(d, ps, rs) && ValidConfidence(d.confidence)
    requires !ReferencesAgree(rs)
    ensures SortedFrom(e, ps, rs) && SortedFrom(f, ps, rs)
    ensures InMemory(DerivationPreimage(e)) ==> DerivationPreimage(e) != DerivationPreimage(f)
  {
    hide DerivationPreimage, Utf8;
    ByDatasetOrders();
    ReferencesDistinguished(rs);
    var a, b, k := AmbiguousSort(ByDataset, rs);
    e, f := d.(references := a), d.(references := b);
    assert ReferenceTexts(a) != ReferenceTexts(b) by {
      StringLessTotal(a[k].dataset, b[k].dataset);
      assert ReferenceTexts(a)[k] == AtJoin(a[k].dataset, a[k].version);
      assert ReferenceTexts(b)[k] == AtJoin(b[k].dataset, b[k].version);
      if ReferenceTexts(a)[k] == ReferenceTexts(b)[k] {
        SameSuffix(a[k].dataset, a[k].version, b[k].version);
        assert false;
      }
    }
    if InMemory(DerivationPreimage(e)) {
      PreimagesEqualIffRenderedAlike(e, f);
    }
  }

  lemma SameSuffix(head: string, x: string, y: string)
    requires AtJoin(head, x) == AtJoin(head, y)
    ensures x == y
  {
    assert x == AtJoin(head, x)[|head| + 1..];
    assert y == AtJoin(head, y)[|head| + 1..];
  }

  // ---- the imperative constructor -------------------------------------------------------------

  /** sort.Slice on a copy: only that the result is a sort is promised. */
  method SortSlice<T(!new)>(less: (T, T) -> bool, s: seq<T>) returns (out: seq<T>)
    requires WeakOrder(less)
    ensures IsSortOf(less, s, out)
  {
    out := [];
    var i := 0;
    while i < |s|
      invariant 0 <= i <= |s|
      invariant IsSortOf(less, s[..i], out)
    {
      InsertSorted(less, out, s[i]);
      InsertElements(less, out, s[i]);
      assert s[..i + 1] == s[..i] + [s[i]];
      out := Insert(less, out, s[i]);
      i := i + 1;
    }
    assert s[..i] == s;
  }

  /** NewDerivation as the source runs it: copy, sort in place, hash.  Where no two
      parameters or references conflict it is the function the projections use. */
  method BuildDerivation(p: Platform, m: Method, inputs: seq<string>, parameters: seq<Parameter>,
                         references: seq<ReferenceBinding>, confidence: Confidence)
    returns (r: Result<DerivationRecord>)
    ensures m.name == "" ==> r == Err(ErrIncomplete)
    ensures m.name != "" && !ValidConfidence(confidence) ==> r == Err(ErrUnknownConfidence)
    ensures m.name != "" && ValidConfidence(confidence) ==>
              && r.Ok? && SortedFrom(r.value.body, parameters, references)
              && r.value.body.method_ == m && r.value.body.inputs == inputs && r.value.body.confidence == confidence
              && r.value.hash == p.sha256(DerivationPreimage(r.value.body))
    ensures ParametersAgree(parameters) && ReferencesAgree(references) ==>
              r == NewDerivation(p, m, inputs, parameters, references, confidence)
  {
    hide DerivationPreimage, ByName, ByDataset;
    if m.name == "" {
      return Err(ErrIncomplete);
    }
    if !ValidConfidence(confidence) {
      return Err(ErrUnknownConfidence);
    }
    ByNameOrders();
    ByDatasetOrders();
    var ps := SortSlice(ByName, parameters);
    var rs := SortSlice(ByDataset, references);
    var d := Derivation(m, inputs, ps, rs, confidence);
    var hash := ContentAddress(p, d);
    StableSortAgrees(d, parameters, references);
    return Ok(DerivationRecord(d, hash));
  }

  lemma StableSortAgrees(d: Derivation, ps: seq<Parameter>, rs: seq<ReferenceBinding>)
    requires SortedFrom(d, ps, rs)
    ensures ParametersAgree(ps) && ReferencesAgree(rs) ==>
              d == d.(parameters := SortBy(ByName, ps), references := SortBy(ByDataset, rs))
  {
    if ParametersAgree(ps) && ReferencesAgree(rs) {
      ByNameOrders();
      ByDatasetOrders();
      SortBySorts(ByName, ps);
      SortBySorts(ByDataset, rs);
      AddressIgnoresArgumentOrder(
        d, ps, rs, d.(parameters := SortBy(ByName, ps), references := SortBy(ByDataset, rs)), ps, rs);
    }
  }
}
