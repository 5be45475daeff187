/** Values that travel with the derivation that produced them (kernel/explained). */
module Explained {
  import opened Results
  import opened Sorting
  import opened External
  import opened Provenance

  datatype Value<T> = Value(value: T, trace: string, record: DerivationRecord)

  function FromDerivation<T>(p: Platform, value: T, m: Method, inputs: seq<string>,
                             parameters: seq<Parameter>, references: seq<ReferenceBinding>,
                             confidence: Confidence): Result<Value<T>>
  {
    var record :- NewDerivation(p, m, inputs, parameters, references, confidence);
    Ok(Value(value, record.hash, record))
  }

  /** An observation chose nothing, so it has no parameters. */
  function FromObservation<T>(p: Platform, value: T, m: Method, inputs: seq<string>,
                              confidence: Confidence): Result<Value<T>>
  {
    FromDerivation(p, value, m, inputs, [], [], confidence)
  }

  function Traces<T>(vs: seq<Value<T>>): (ts: seq<string>)
    ensures |ts| == |vs| && forall i :: 0 <= i < |vs| ==> ts[i] == vs[i].trace
  {
    seq(|vs|, i requires 0 <= i < |vs| => vs[i].trace)
  }

  function Confidences<T>(vs: seq<Value<T>>): (cs: seq<Confidence>)
    ensures |cs| == |vs| && forall i :: 0 <= i < |vs| ==> cs[i] == vs[i].record.body.confidence
  {
    seq(|vs|, i requires 0 <= i < |vs| => vs[i].record.body.confidence)
  }

  /** The accumulator after every input, or the first failure. */
  function FoldLeft<A, B>(f: (B, A) -> Result<B>, seed: B, vs: seq<Value<A>>): Result<B> {
    if vs == [] then Ok(seed)
    else
      var acc :- FoldLeft(f, seed, vs[..|vs| - 1]);
      f(acc, vs[|vs| - 1].value)
  }

  /** The value of `Fold`. */
  function Folded<A, B>(p: Platform, vs: seq<Value<A>>, seed: B, m: Method, parameters: seq<Parameter>,
                        references: seq<ReferenceBinding>, f: (B, A) -> Result<B>): Result<Value<B>>
  {
    if vs == [] then Err(ErrNoTrace)
    else
      var acc :- FoldLeft(f, seed, vs);
      FromDerivation(p, acc, m, Traces(vs), parameters, references, Weakest(Confidences(vs)))
  }

  lemma {:induction false} FoldLeftFails<A, B>(f: (B, A) -> Result<B>, seed: B, vs: seq<Value<A>>, n: nat)
    requires n <= |vs| && FoldLeft(f, seed, vs[..n]).Err?
    ensures FoldLeft(f, seed, vs) == FoldLeft(f, seed, vs[..n])
  {
    if n < |vs| {
      assert vs[..|vs| - 1][..n] == vs[..n];
      FoldLeftFails(f, seed, vs[..|vs| - 1], n);
    } else {
      assert vs[..n] == vs;
    }
  }

  /** Fold as the source runs it: one pass over the inputs with three accumulators. */
  method Fold<A, B>(p: Platform, vs: seq<Value<A>>, seed: B, m: Method, parameters: seq<Parameter>,
                    references: seq<ReferenceBinding>, f: (B, A) -> Result<B>) returns (r: Result<Value<B>>)
    ensures r == Folded(p, vs, seed, m, parameters, references, f)
  {
    if |vs| == 0 {
      return Err(ErrNoTrace);
    }
    var acc, hashes, confidences := seed, [], [];
    var i := 0;
    while i < |vs|
      invariant 0 <= i <= |vs|
      invariant FoldLeft(f, seed, vs[..i]) == Ok(acc)
      invariant hashes == Traces(vs)[..i] && confidences == Confidences(vs)[..i]
    {
      assert vs[..i + 1][..i] == vs[..i];
      var next := f(acc, vs[i].value);
      if next.Err? {
        FoldLeftFails(f, seed, vs, i + 1);
        return Err(next.error);
      }
      acc := next.value;
      hashes := hashes + [vs[i].trace];
      confidences := confidences + [vs[i].record.body.confidence];
      i := i + 1;
    }
    assert vs[..i] == vs;
    assert hashes == Traces(vs) && confidences == Confidences(vs);
    var weakest := WeakestOf(confidences);
    return FromDerivation(p, acc, m, hashes, parameters, references, weakest);
  }

  /** A binary operation on two explained values. */
  function Combine2<A, B, C>(p: Platform, a: Value<A>, b: Value<B>, m: Method, parameters: seq<Parameter>,
                             references: seq<ReferenceBinding>, f: (A, B) -> Result<C>): Result<Value<C>>
  {
    var out :- f(a.value, b.value);
    FromDerivation(p, out, m, [a.trace, b.trace], parameters, references,
                   Weakest([a.record.body.confidence, b.record.body.confidence]))
  }

  /** The accumulators of a fold, from the seed to the result. */
  ghost predicate Accumulates<A, B(!new)>(f: (B, A) -> Result<B>, seed: B, vs: seq<Value<A>>, accs: seq<B>) {
    && |accs| == |vs| + 1 && accs[0] == seed
    && forall i :: 0 <= i < |vs| ==> f(accs[i], vs[i].value) == Ok(accs[i + 1])
  }

  /** A fold succeeds exactly along a chain of accumulators, each made of the one before
      and the next input; its result is the last of them. */
  lemma {:induction false} FoldLeftIsChain<A, B(!new)>(f: (B, A) -> Result<B>, seed: B, vs: seq<Value<A>>, acc: B)
    ensures FoldLeft(f, seed, vs) == Ok(acc)
       <==> exists accs :: Accumulates(f, seed, vs, accs) && accs[|vs|] == acc
  {
    if vs == [] {
      if acc == seed {
        assert Accumulates(f, seed, vs, [acc]);
      }
    } else {
      var n := |vs| - 1;
      var before := vs[..n];
      if FoldLeft(f, seed, vs) == Ok(acc) {
        var mid := FoldLeft(f, seed, before).value;
        FoldLeftIsChain(f, seed, before, mid);
        var accs :| Accumulates(f, seed, before, accs) && accs[n] == mid;
        var more := accs + [acc];
        forall i | 0 <= i < |vs|
          ensures f(more[i], vs[i].value) == Ok(more[i + 1])
        {
          assert i < n ==> vs[i] == before[i];
        }
        assert Accumulates(f, seed, vs, more);
      }
      if accs :| Accumulates(f, seed, vs, accs) && accs[|vs|] == acc {
        assert Accumulates(f, seed, before, accs[..|vs|]);
        FoldLeftIsChain(f, seed, before, accs[n]);
      }
    }
  }

  /** A fold names every input, in order, and is exactly as trustworthy as the least
      trustworthy of them, an unset level counting as asserted; folding nothing explains
      nothing. */
  lemma FoldExplainsEverything<A, B>(p: Platform, vs: seq<Value<A>>, seed: B, m: Method,
                                     parameters: seq<Parameter>, references: seq<ReferenceBinding>,
                                     f: (B, A) -> Result<B>)
    ensures var r := Folded(p, vs, seed, m, parameters, references, f);
            && (vs == [] ==> r == Err(ErrNoTrace))
            && (r.Ok? ==>
                  && FoldLeft(f, seed, vs) == Ok(r.value.value)
                  && r.value.trace == r.value.record.hash
                  && r.value.record.body.inputs == Traces(vs)
                  && ASSERTED <= r.value.record.body.confidence
                  && (forall i :: 0 <= i < |vs| ==> vs[i].record.body.confidence <= r.value.record.body.confidence)
                  && (r.value.record.body.confidence == ASSERTED
                      || exists i :: 0 <= i < |vs| && vs[i].record.body.confidence == r.value.record.body.confidence))
  {
    hide DerivationPreimage, SortBy, FoldLeft;
    var w := Weakest(Confidences(vs));
    assert forall i :: 0 <= i < |vs| ==> Confidences(vs)[i] <= w;
    if w != ASSERTED {
      var i :| 0 <= i < |vs| && Confidences(vs)[i] == w;
    }
  }

  /** A combination is never more trustworthy than either operand, and as
      trustworthy as the weaker. */
  lemma CombineIsNoStronger<A, B, C>(p: Platform, a: Value<A>, b: Value<B>, m: Method, parameters: seq<Parameter>,
                                     references: seq<ReferenceBinding>, f: (A, B) -> Result<C>)
    requires ValidConfidence(a.record.body.confidence) && ValidConfidence(b.record.body.confidence)
    requires m.name != "" && f(a.value, b.value).Ok?
    ensures var r, x, y := Combine2(p, a, b, m, parameters, references, f),
                           a.record.body.confidence, b.record.body.confidence;
            && r.Ok? && r.value.value == f(a.value, b.value).value
            && r.value.record.body.inputs == [a.trace, b.trace]
            && x <= r.value.record.body.confidence && y <= r.value.record.body.confidence
            && (r.value.record.body.confidence == x || r.value.record.body.confidence == y)
  {
    hide DerivationPreimage, SortBy;
    var levels := [a.record.body.confidence, b.record.body.confidence];
    assert levels[0] == a.record.body.confidence && levels[1] == b.record.body.confidence;
  }
}
