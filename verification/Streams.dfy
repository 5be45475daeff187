/** Append-only streams and what is visible in them (ledger/domain stream.go). */
module Streams {
  import opened Results
  import opened Temporal
  import opened Sorting
  import opened Facts

  datatype Stream = Stream(name: string, facts: seq<Fact>)

  function NewStream(name: string): Result<Stream> {
    if name == "" then Err(ErrEmptyType) else Ok(Stream(name, []))
  }

  /** Stream.Append: the stream assigns the sequence. */
  function Append(s: Stream, envelope: Envelope, kind: FactKind, payload: Payload): Result<(Stream, Ref)> {
    var ref := Ref(s.name, |s.facts| + 1);
    var fact :- NewFact(ref, envelope, kind, payload);
    Ok((Stream(s.name, s.facts + [fact]), ref))
  }

  function Get(s: Stream, ref: Ref): Result<Fact> {
    if ref.stream != s.name || ref.sequence == 0 || ref.sequence > |s.facts| then Err(ErrNotFound)
    else Ok(s.facts[ref.sequence - 1])
  }

  /** The i-th fact, counting from one, has reference (name, i). */
  ghost predicate Numbered(s: Stream) {
    forall i :: 0 <= i < |s.facts| ==> s.facts[i].ref == Ref(s.name, i + 1)
  }

  /** Knowledge time strictly increases. */
  ghost predicate Monotone(s: Stream) {
    forall i, j :: 0 <= i < j < |s.facts| ==> s.facts[i].Known() < s.facts[j].Known()
  }

  ghost predicate Extends(s: Stream, t: Stream) {
    s.name == t.name && s.facts <= t.facts
  }

  // ---- the order of a query ------------------------------------------------------------

  /** (effective from, knowledge, sequence). */
  function Earlier(f: Fact, g: Fact): bool {
    if f.From() != g.From() then f.From() < g.From()
    else if f.Known() != g.Known() then f.Known() < g.Known()
    else f.ref.sequence < g.ref.sequence
  }

  /** (effective from, sequence). */
  function EarlierBySequence(f: Fact, g: Fact): bool {
    if f.From() != g.From() then f.From() < g.From() else f.ref.sequence < g.ref.sequence
  }

  lemma EarlierOrders()
    ensures WeakOrder(Earlier) && WeakOrder(EarlierBySequence)
  {
  }

  /** The facts visible at a coordinate, in append order. */
  function VisibleFacts(fs: seq<Fact>, a: AsOf): seq<Fact> {
    if fs == [] then []
    else
      var last := fs[|fs| - 1];
      VisibleFacts(fs[..|fs| - 1], a) + if last.Visible(a) then [last] else []
  }

  function VisibleAt(s: Stream, a: AsOf): seq<Fact> {
    SortBy(Earlier, VisibleFacts(s.facts, a))
  }

  /** VisibleAt as the source runs it: a filtering loop, then a stable sort. */
  method ListVisible(s: Stream, a: AsOf) returns (visible: seq<Fact>)
    ensures visible == VisibleAt(s, a)
  {
    var found: seq<Fact> := [];
    var i := 0;
    while i < |s.facts|
      invariant 0 <= i <= |s.facts|
      invariant found == VisibleFacts(s.facts[..i], a)
    {
      assert s.facts[..i + 1][..i] == s.facts[..i];
      if s.facts[i].Visible(a) {
        found := found + [s.facts[i]];
      }
      i := i + 1;
    }
    assert s.facts[..i] == s.facts;
    visible := [];
    i := 0;
    while i < |found|
      invariant 0 <= i <= |found|
      invariant visible == SortBy(Earlier, found[..i])
    {
      assert found[..i + 1][..i] == found[..i];
      visible := Insert(Earlier, visible, found[i]);
      i := i + 1;
    }
    assert found[..i] == found;
  }

  /** The corrections visible at a coordinate. */
  function CorrectionsIn(visible: seq<Fact>): (cs: seq<Payload>)
    ensures forall i :: 0 <= i < |cs| ==> cs[i].FactCorrected?
  {
    if visible == [] then []
    else
      var last := visible[|visible| - 1].payload;
      CorrectionsIn(visible[..|visible| - 1]) + if last.FactCorrected? then [last] else []
  }

  method Corrections(s: Stream, a: AsOf) returns (out: seq<Payload>)
    ensures out == CorrectionsIn(VisibleAt(s, a))
  {
    var visible := ListVisible(s, a);
    out := [];
    var i := 0;
    while i < |visible|
      invariant 0 <= i <= |visible|
      invariant out == CorrectionsIn(visible[..i])
    {
      assert visible[..i + 1][..i] == visible[..i];
      if visible[i].payload.FactCorrected? {
        out := out + [visible[i].payload];
      }
      i := i + 1;
    }
    assert visible[..i] == visible;
  }

  // ---- what VisibleAt is ------------------------------------------------------------------

  /** Filtering keeps every visible fact, as often as it occurs, and nothing else. */
  lemma {:induction false} VisibleFactsCount(fs: seq<Fact>, a: AsOf, f: Fact)
    ensures multiset(VisibleFacts(fs, a))[f] == if f.Visible(a) then multiset(fs)[f] else 0
  {
    if fs != [] {
      var n := |fs| - 1;
      VisibleFactsCount(fs[..n], a, f);
      assert fs == fs[..n] + [fs[n]];
    }
  }

  lemma VisibleAtMembers(s: Stream, a: AsOf, f: Fact)
    ensures f in VisibleAt(s, a) <==> f in s.facts && f.Visible(a)
  {
    EarlierOrders();
    SortBySorts(Earlier, VisibleFacts(s.facts, a));
    VisibleFactsCount(s.facts, a, f);
    assert f in VisibleAt(s, a) <==> f in multiset(VisibleAt(s, a));
    assert f in s.facts <==> f in multiset(s.facts);
  }

  /** In a numbered stream the sequence alone tells facts apart. */
  lemma SequenceDistinguishes(s: Stream, a: AsOf)
    requires Numbered(s)
    ensures Distinguishes(Earlier, VisibleFacts(s.facts, a))
    ensures Distinguishes(EarlierBySequence, VisibleFacts(s.facts, a))
  {
    var v := VisibleFacts(s.facts, a);
    forall i, j | 0 <= i < |v| && 0 <= j < |v| && v[i].ref.sequence == v[j].ref.sequence
      ensures v[i] == v[j]
    {
      VisibleFactsCount(s.facts, a, v[i]);
      VisibleFactsCount(s.facts, a, v[j]);
      assert v[i] in multiset(v) && v[j] in multiset(v);
      assert v[i] in s.facts && v[j] in s.facts;
    }
  }

  /** VisibleAt is the only arrangement of the visible facts sorted by (effective
      from, knowledge, sequence): any correct sort yields it. */
  lemma VisibleAtUnique(s: Stream, a: AsOf, out: seq<Fact>)
    requires Numbered(s)
    ensures IsSortOf(Earlier, VisibleFacts(s.facts, a), out) <==> out == VisibleAt(s, a)
  {
    EarlierOrders();
    SortBySorts(Earlier, VisibleFacts(s.facts, a));
    SequenceDistinguishes(s, a);
    if IsSortOf(Earlier, VisibleFacts(s.facts, a), out) {
      AnySortAgrees(Earlier, VisibleFacts(s.facts, a), VisibleFacts(s.facts, a), out, VisibleAt(s, a));
    }
  }

  /** Where knowledge time follows append order, sorting by (effective from,
      sequence) gives the same answer. */
  lemma VisibleAtBySequence(s: Stream, a: AsOf)
    requires Numbered(s) && Monotone(s)
    ensures VisibleAt(s, a) == SortBy(EarlierBySequence, VisibleFacts(s.facts, a))
  {
    var v := VisibleFacts(s.facts, a);
    EarlierOrders();
    SortBySorts(Earlier, v);
    SortBySorts(EarlierBySequence, v);
    SequenceDistinguishes(s, a);
    var out := VisibleAt(s, a);
    forall i, j | 0 <= i < j < |out|
      ensures !EarlierBySequence(out[j], out[i])
    {
      assert out[i] in out && out[j] in out;
      VisibleAtMembers(s, a, out[i]);
      VisibleAtMembers(s, a, out[j]);
      OrdersCoincide(s, out[i], out[j]);
    }
    AnySortAgrees(EarlierBySequence, v, v, out, SortBy(EarlierBySequence, v));
  }

  lemma OrdersCoincide(s: Stream, f: Fact, g: Fact)
    requires Numbered(s) && Monotone(s) && f in s.facts && g in s.facts
    ensures Earlier(f, g) == EarlierBySequence(f, g)
    ensures Earlier(g, f) == EarlierBySequence(g, f)
  {
  }

  /** The order of a query, spelled out: by start, then knowledge, then sequence. */
  lemma VisibleAtInOrder(s: Stream, a: AsOf, i: nat, j: nat)
    requires i < j < |VisibleAt(s, a)|
    ensures var f, g := VisibleAt(s, a)[i], VisibleAt(s, a)[j];
            || f.envelope.coordinates.effective.from < g.envelope.coordinates.effective.from
            || (&& f.envelope.coordinates.effective.from == g.envelope.coordinates.effective.from
                && (|| f.envelope.coordinates.knowledge < g.envelope.coordinates.knowledge
                    || (f.envelope.coordinates.knowledge == g.envelope.coordinates.knowledge
                        && f.ref.sequence <= g.ref.sequence)))
  {
    EarlierOrders();
    SortBySorts(Earlier, VisibleFacts(s.facts, a));
    assert !Earlier(VisibleAt(s, a)[j], VisibleAt(s, a)[i]);
  }

  /** Corrections are listed fact by fact, in the order of the facts, each once. */
  lemma {:induction false} CorrectionsInConcat(xs: seq<Fact>, ys: seq<Fact>)
    ensures CorrectionsIn(xs + ys) == CorrectionsIn(xs) + CorrectionsIn(ys)
  {
    if ys == [] {
      assert xs + ys == xs;
    } else {
      var n := |ys| - 1;
      CorrectionsInConcat(xs, ys[..n]);
      assert (xs + ys)[..|xs + ys| - 1] == xs + ys[..n];
    }
  }

  lemma CorrectionsInOne(f: Fact)
    ensures CorrectionsIn([f]) == if f.payload.FactCorrected? then [f.payload] else []
  {
    assert [f][..0] == [];
  }

  // ---- no look-ahead ------------------------------------------------------------------------

  lemma {:induction false} LaterFactsInvisible(fs: seq<Fact>, more: seq<Fact>, a: AsOf)
    requires forall i :: 0 <= i < |more| ==> a.knowledge < more[i].Known()
    ensures VisibleFacts(fs + more, a) == VisibleFacts(fs, a)
  {
    if more == [] {
      assert fs + more == fs;
    } else {
      var n := |more| - 1;
      assert (fs + more)[..|fs + more| - 1] == fs + more[..n];
      assert (fs + more)[|fs + more| - 1] == more[n];
      LaterFactsInvisible(fs, more[..n], a);
    }
  }

  /** Frozen past: once a stream has a fact known at or after K, no continuation
      changes what is visible at knowledge K, whatever its effective times. */
  lemma PastIsFrozen(s: Stream, t: Stream, a: AsOf)
    requires Extends(s, t) && Monotone(t)
    requires s.facts != [] && a.knowledge <= s.facts[|s.facts| - 1].Known()
    ensures VisibleAt(t, a) == VisibleAt(s, a)
  {
    var more := t.facts[|s.facts|..];
    assert t.facts == s.facts + more;
    forall i | 0 <= i < |more|
      ensures a.knowledge < more[i].Known()
    {
      assert t.facts[|s.facts| - 1] == s.facts[|s.facts| - 1];
      assert more[i] == t.facts[|s.facts| + i];
    }
    LaterFactsInvisible(s.facts, more, a);
  }

  /** Before a fact is known, a stream reads as it did without it. */
  lemma UnknownYet(t: Stream, n: nat, a: AsOf)
    requires Monotone(t) && n < |t.facts| && a.knowledge < t.facts[n].Known()
    ensures VisibleAt(t, a) == VisibleAt(Stream(t.name, t.facts[..n]), a)
  {
    var more := t.facts[n..];
    assert t.facts == t.facts[..n] + more;
    assert forall i :: 0 <= i < |more| ==> more[i] == t.facts[n + i];
    LaterFactsInvisible(t.facts[..n], more, a);
  }
}
