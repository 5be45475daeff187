/** What the "@" of a rendering hides: when a method, a list of reference bindings and
    a whole derivation can be read back from what is hashed. */
module Renderings {
  import opened Results
  import opened Text
  import opened Framing
  import opened Sorting
  import opened External
  import opened Provenance
  import opened DerivationLaws

  // ---- one rendering -----------------------------------------------------------------

  /** A place where a text splits into two parts the constructors accept. */
  predicate Cut(t: string, p: nat) {
    p < |t| && t[p] == '@' && !Blank(t[..p]) && !Blank(t[p + 1..])
  }

  lemma ReadingIsCut(a: string, b: string)
    requires !Blank(a) && !Blank(b)
    ensures var t := AtJoin(a, b); Cut(t, |a|) && t[..|a|] == a && t[|a| + 1..] == b
  {
    var t := AtJoin(a, b);
    assert t[..|a|] == a && t[|a| + 1..] == b;
  }

  lemma CutIsReading(t: string, p: nat)
    requires Cut(t, p)
    ensures AtJoin(t[..p], t[p + 1..]) == t
  {
  }

  /** An "@" in the first part stands behind nothing but whitespace, and one in the
      second part before nothing but whitespace. */
  predicate OneReading(a: string, b: string) {
    && (forall i :: 0 <= i < |a| && a[i] == '@' ==> Blank(a[..i]))
    && (forall i :: 0 <= i < |b| && b[i] == '@' ==> Blank(b[i + 1..]))
  }

  /** The other "@"s of a rendering leave a blank side exactly under that condition. */
  lemma OtherCuts(a: string, b: string)
    requires !Blank(a) && !Blank(b)
    ensures (exists p: nat :: p != |a| && Cut(AtJoin(a, b), p)) <==> !OneReading(a, b)
  {
    var t := AtJoin(a, b);
    if p: nat :| p != |a| && Cut(t, p) {
      if p < |a| {
        assert a[p] == '@' && a[..p] == t[..p];
      } else {
        var i := p - |a| - 1;
        assert b[i] == '@' && b[i + 1..] == t[p + 1..];
      }
    }
    if i :| 0 <= i < |a| && a[i] == '@' && !Blank(a[..i]) {
      assert t[..i] == a[..i] && t[i + 1..] == a[i + 1..] + "@" + b;
      BlankParts(a[i + 1..] + "@", b);
      assert Cut(t, i);
    }
    if i :| 0 <= i < |b| && b[i] == '@' && !Blank(b[i + 1..]) {
      var p := |a| + 1 + i;
      assert t[..p] == a + ("@" + b[..i]) && t[p + 1..] == b[i + 1..];
      BlankParts(a, "@" + b[..i]);
      assert Cut(t, p);
    }
  }

  lemma BlankParts(a: string, b: string)
    ensures Blank(a + b) ==> Blank(a) && Blank(b)
  {
    assert forall i :: 0 <= i < |a| ==> a[i] == (a + b)[i];
    assert forall i :: 0 <= i < |b| ==> b[i] == (a + b)[|a| + i];
  }

  /** Among the values NewMethod and NewReferenceBinding accept, a rendering has one
      reading exactly when every "@" but the joining one leaves a blank side. */
  lemma RenderingIsUniqueIff(a: string, b: string)
    requires !Blank(a) && !Blank(b)
    ensures (forall a', b' :: !Blank(a') && !Blank(b') && AtJoin(a', b') == AtJoin(a, b) ==> a' == a && b' == b)
       <==> OneReading(a, b)
  {
    var t := AtJoin(a, b);
    ReadingIsCut(a, b);
    OtherCuts(a, b);
    if p: nat :| p != |a| && Cut(t, p) {
      CutIsReading(t, p);
    } else {
      forall a', b' | !Blank(a') && !Blank(b') && AtJoin(a', b') == t
        ensures a' == a && b' == b
      {
        ReadingIsCut(a', b');
      }
    }
  }

  // ---- lists of references -------------------------------------------------------------

  ghost predicate AllBound(rs: seq<ReferenceBinding>) {
    forall i :: 0 <= i < |rs| ==> !Blank(rs[i].dataset) && !Blank(rs[i].version)
  }

  /** The i-th binding has another reading, cut at p, that leaves the list sorted. */
  ghost predicate Rereadable(rs: seq<ReferenceBinding>, i: nat, p: nat)
    requires i < |rs|
  {
    var t := AtJoin(rs[i].dataset, rs[i].version);
    && p != |rs[i].dataset| && Cut(t, p)
    && (i > 0 ==> !StringLess(t[..p], rs[i - 1].dataset))
    && (i + 1 < |rs| ==> !StringLess(rs[i + 1].dataset, t[..p]))
  }

  /** No binding can be re-read without leaving its place among its neighbours. */
  ghost predicate OneOrderedReading(rs: seq<ReferenceBinding>) {
    forall i: nat, p: nat :: i < |rs| ==> !Rereadable(rs, i, p)
  }

  /** Another list with the same texts, itself sorted, that a caller may have pinned. */
  ghost predicate Alternative(rs: seq<ReferenceBinding>, qs: seq<ReferenceBinding>) {
    AllBound(qs) && Sorted(ByDataset, qs) && ReferenceTexts(qs) == ReferenceTexts(rs)
  }

  lemma RereadIsAlternative(rs: seq<ReferenceBinding>, i: nat, p: nat) returns (qs: seq<ReferenceBinding>)
    requires AllBound(rs) && Sorted(ByDataset, rs) && i < |rs| && Rereadable(rs, i, p)
    ensures qs != rs && Alternative(rs, qs)
  {
    hide StringLess;
    var t := AtJoin(rs[i].dataset, rs[i].version);
    CutIsReading(t, p);
    qs := rs[i := ReferenceBinding(t[..p], t[p + 1..])];
    assert qs[i].dataset != rs[i].dataset;
    assert ReferenceTexts(qs) == ReferenceTexts(rs);
    forall j, k | 0 <= j < k < |qs|
      ensures !ByDataset(qs[k], qs[j])
    {
      assert !ByDataset(rs[k], rs[j]);
      if j == i && i + 1 < k {
        assert !ByDataset(rs[k], rs[i + 1]);
        StringOrderWeak(t[..p], rs[i + 1].dataset, rs[k].dataset);
      } else if k == i && j < i - 1 {
        assert !ByDataset(rs[i - 1], rs[j]);
        StringOrderWeak(rs[j].dataset, rs[i - 1].dataset, t[..p]);
      }
    }
  }

  lemma CutOfAlternative(rs: seq<ReferenceBinding>, qs: seq<ReferenceBinding>, i: nat)
    requires AllBound(rs) && Alternative(rs, qs) && i < |rs|
    ensures |qs| == |rs|
    ensures var t := AtJoin(rs[i].dataset, rs[i].version);
            && Cut(t, |qs[i].dataset|) && t[..|qs[i].dataset|] == qs[i].dataset
            && (qs[i].dataset == rs[i].dataset <==> |qs[i].dataset| == |rs[i].dataset|)
            && (qs[i].dataset == rs[i].dataset ==> qs[i] == rs[i])
  {
    assert |ReferenceTexts(rs)| == |ReferenceTexts(qs)|;
    assert ReferenceTexts(rs)[i] == ReferenceTexts(qs)[i];
    ReadingIsCut(qs[i].dataset, qs[i].version);
    ReadingIsCut(rs[i].dataset, rs[i].version);
  }

  /** If a dataset moved down, the first of its run to do so fits between its neighbours. */
  lemma {:induction false} Descent(rs: seq<ReferenceBinding>, qs: seq<ReferenceBinding>, k: nat)
    requires AllBound(rs) && Sorted(ByDataset, rs) && Alternative(rs, qs)
    requires k < |rs| && |qs| == |rs| && StringLess(qs[k].dataset, rs[k].dataset)
    ensures !OneOrderedReading(rs)
  {
    hide StringLess, Cut;
    if k > 0 && StringLess(qs[k - 1].dataset, rs[k - 1].dataset) {
      Descent(rs, qs, k - 1);
    } else {
      CutOfAlternative(rs, qs, k);
      StringLessTotal(qs[k].dataset, rs[k].dataset);
      if k > 0 {
        assert !ByDataset(qs[k], qs[k - 1]);
        StringOrderWeak(rs[k - 1].dataset, qs[k - 1].dataset, qs[k].dataset);
      }
      if k + 1 < |rs| {
        assert !ByDataset(rs[k + 1], rs[k]);
        StringOrderWeak(qs[k].dataset, rs[k].dataset, rs[k + 1].dataset);
      }
      assert Rereadable(rs, k, |qs[k].dataset|);
    }
  }

  /** If a dataset moved up, the last of its run to do so fits between its neighbours. */
  lemma {:induction false} Ascent(rs: seq<ReferenceBinding>, qs: seq<ReferenceBinding>, k: nat)
    requires AllBound(rs) && Sorted(ByDataset, rs) && Alternative(rs, qs)
    requires k < |rs| && |qs| == |rs| && StringLess(rs[k].dataset, qs[k].dataset)
    ensures !OneOrderedReading(rs)
    decreases |rs| - k
  {
    hide StringLess, Cut;
    if k + 1 < |rs| && StringLess(rs[k + 1].dataset, qs[k + 1].dataset) {
      Ascent(rs, qs, k + 1);
    } else {
      CutOfAlternative(rs, qs, k);
      StringLessTotal(qs[k].dataset, rs[k].dataset);
      if k + 1 < |rs| {
        assert !ByDataset(qs[k + 1], qs[k]);
        StringOrderWeak(qs[k].dataset, qs[k + 1].dataset, rs[k + 1].dataset);
      }
      if k > 0 {
        assert !ByDataset(rs[k], rs[k - 1]);
        StringOrderWeak(rs[k - 1].dataset, rs[k].dataset, qs[k].dataset);
      }
      assert Rereadable(rs, k, |qs[k].dataset|);
    }
  }

  /** A sorted list of bindings is fixed by its texts exactly when no single binding can
      be re-read in its place: the sort itself rules some readings out. */
  lemma ReferencesUniqueIff(rs: seq<ReferenceBinding>)
    requires AllBound(rs) && Sorted(ByDataset, rs)
    ensures (forall qs :: Alternative(rs, qs) ==> qs == rs) <==> OneOrderedReading(rs)
  {
    hide Rereadable, AllBound, Sorted;
    if i: nat, p: nat :| i < |rs| && Rereadable(rs, i, p) {
      var qs := RereadIsAlternative(rs, i, p);
    } else {
      forall qs | Alternative(rs, qs)
        ensures qs == rs
      {
        OrderedReading(rs, qs);
      }
    }
  }

  lemma OrderedReading(rs: seq<ReferenceBinding>, qs: seq<ReferenceBinding>)
    requires AllBound(rs) && Sorted(ByDataset, rs) && OneOrderedReading(rs) && Alternative(rs, qs)
    ensures qs == rs
  {
    hide Rereadable, StringLess, Cut, OneOrderedReading;
    assert |ReferenceTexts(rs)| == |ReferenceTexts(qs)|;
    forall i | 0 <= i < |rs|
      ensures qs[i] == rs[i]
    {
      CutOfAlternative(rs, qs, i);
      StringLessTotal(qs[i].dataset, rs[i].dataset);
      if StringLess(qs[i].dataset, rs[i].dataset) {
        Descent(rs, qs, i);
      } else if StringLess(rs[i].dataset, qs[i].dataset) {
        Ascent(rs, qs, i);
      }
    }
  }

  // ---- whole derivations ------------------------------------------------------------------

  /** What NewDerivation makes of a method and bindings their constructors accept. */
  ghost predicate Made(d: Derivation) {
    && !Blank(d.method_.name) && !Blank(d.method_.version) && ValidConfidence(d.confidence)
    && AllBound(d.references) && Sorted(ByName, d.parameters) && Sorted(ByDataset, d.references)
  }

  lemma {:induction false} SortedIsFixed<T>(less: (T, T) -> bool, s: seq<T>)
    requires Sorted(less, s)
    ensures SortBy(less, s) == s
  {
    if s != [] {
      var n := |s| - 1;
      SortedIsFixed(less, s[..n]);
      assert s == s[..n] + [s[n]];
    }
  }

  ghost predicate Built(p: Platform, d: Derivation, m: Method, inputs: seq<string>, ps: seq<Parameter>,
                        rs: seq<ReferenceBinding>, c: Confidence) {
    && NewMethod(m.name, m.version).Ok? && (forall i :: 0 <= i < |rs| ==> NewReferenceBinding(rs[i].dataset, rs[i].version).Ok?)
    && NewDerivation(p, m, inputs, ps, rs, c) == Ok(DerivationRecord(d, p.sha256(DerivationPreimage(d))))
  }

  lemma MadeIffBuilt(p: Platform, d: Derivation)
    ensures Made(d) <==> exists m, inputs, ps, rs, c :: Built(p, d, m, inputs, ps, rs, c)
  {
    hide DerivationPreimage, SortBy, ByName, ByDataset;
    if Made(d) {
      SortedIsFixed(ByName, d.parameters);
      SortedIsFixed(ByDataset, d.references);
      assert Built(p, d, d.method_, d.inputs, d.parameters, d.references, d.confidence);
    }
    if m, inputs, ps, rs, c :| Built(p, d, m, inputs, ps, rs, c) {
      ByNameOrders();
      ByDatasetOrders();
      SortBySorts(ByName, ps);
      SortBySorts(ByDataset, rs);
      forall i | 0 <= i < |d.references|
        ensures !Blank(d.references[i].dataset) && !Blank(d.references[i].version)
      {
        assert d.references[i] in multiset(rs);
      }
    }
  }

  /** A derivation is the only one with its pre-image exactly when its method has one
      reading and its references have one ordered reading.  Wherever that fails there
      are two different derivations with one content address. */
  lemma PreimageIsUniqueIff(d: Derivation)
    requires Made(d) && InMemory(DerivationPreimage(d))
    ensures (forall e :: Made(e) && DerivationPreimage(e) == DerivationPreimage(d) ==> e == d)
       <==> OneReading(d.method_.name, d.method_.version) && OneOrderedReading(d.references)
  {
    hide DerivationPreimage, ReferenceTexts, OneReading, OneOrderedReading, Sorted, ByName, ByDataset, AtJoin, Blank;
    RenderingIsUniqueIff(d.method_.name, d.method_.version);
    ReferencesUniqueIff(d.references);
    if !OneReading(d.method_.name, d.method_.version) {
      var a, b :| !Blank(a) && !Blank(b) && AtJoin(a, b) == AtJoin(d.method_.name, d.method_.version)
                  && !(a == d.method_.name && b == d.method_.version);
      var e := d.(method_ := Method(a, b));
      PreimagesEqualIffRenderedAlike(d, e);
      assert e != d;
    } else if !OneOrderedReading(d.references) {
      var qs :| Alternative(d.references, qs) && qs != d.references;
      var e := d.(references := qs);
      PreimagesEqualIffRenderedAlike(d, e);
      assert e != d;
    } else {
      forall e | Made(e) && DerivationPreimage(e) == DerivationPreimage(d)
        ensures e == d
      {
        PreimagesEqualIffRenderedAlike(d, e);
        assert Alternative(d.references, e.references);
      }
    }
  }
}
