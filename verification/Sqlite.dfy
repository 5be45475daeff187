/** The durable store (ledger-sqlite store.go).  The table is a map with the unique
    key (stream, sequence); SQL aggregates are functions of it. */
module Sqlite {
  import opened Results
  import opened Text
  import opened Temporal
  import opened Facts
  import opened Streams
  import opened Stores
  import opened Wire

  /** A stored blob: the bytes of a wire fact, or bytes that do not unmarshal. */
  datatype Blob = Encoded(fact: WireFact) | Garbage

  datatype Row = Row(effectiveFrom: int, knowledge: int, encoded: Blob)

  type Table = map<(string, int), Row>

  const TWO63: int := 0x8000_0000_0000_0000
  const TWO64: int := 0x1_0000_0000_0000_0000

  /** Time.UnixNano: nanoseconds in an int64, which wraps outside 1678 to 2262. */
  function Nanos(i: Instant): int {
    (i + TWO63) % TWO64 - TWO63
  }

  predicate InRange(i: Instant) {
    -TWO63 <= i < TWO63
  }

  // ---- aggregates ------------------------------------------------------------------------

  function Sequences(rows: Table, name: string): set<int> {
    set k | k in rows && k.0 == name :: k.1
  }

  function Knowledges(rows: Table, name: string): set<int> {
    set k | k in rows && k.0 == name :: rows[k].knowledge
  }

  lemma Member(s: set<int>) returns (y: int)
    requires s != {}
    ensures y in s
  {
    assert (forall x :: x !in s) ==> s == {};
    y :| y in s;
  }

  lemma MaxExists(s: set<int>)
    requires s != {}
    ensures exists m :: m in s && forall x :: x in s ==> x <= m
  {
    var y := Member(s);
    var rest := s - {y};
    if rest == {} {
      assert s == {y};
    } else {
      MaxExists(rest);
      var m :| m in rest && forall x :: x in rest ==> x <= m;
      assert forall x :: x in s ==> x == y || x in rest;
      var top := if m < y then y else m;
      assert top in s && forall x :: x in s ==> x <= top;
    }
  }

  function MaxOf(s: set<int>): (m: int)
    requires s != {}
    ensures m in s && forall x :: x in s ==> x <= m
  {
    MaxExists(s);
    var m :| m in s && forall x :: x in s ==> x <= m;
    m
  }

  lemma MinExists(s: set<int>)
    requires s != {}
    ensures exists m :: m in s && forall x :: x in s ==> m <= x
  {
    var negated := set x | x in s :: -x;
    var y := Member(s);
    assert -y in negated;
    MaxExists(negated);
    var m :| m in negated && forall x :: x in negated ==> x <= m;
    assert forall x :: x in s ==> -x in negated;
    assert -m in s;
  }

  function MinOf(s: set<int>): (m: int)
    requires s != {}
    ensures m in s && forall x :: x in s ==> m <= x
  {
    MinExists(s);
    var m :| m in s && forall x :: x in s ==> m <= x;
    m
  }

  // ---- append ------------------------------------------------------------------------------

  function RowFor(q: Request, encoded: WireFact): Row {
    Row(Nanos(q.envelope.coordinates.effective.from), Nanos(q.envelope.coordinates.knowledge), Encoded(encoded))
  }

  /** appendWithin: COUNT, MAX(sequence) and MAX(knowledge) decide. */
  function SqlAppend(rows: Table, name: string, q: Request): (Table, Result<Ref>) {
    var seqs := Sequences(rows, name);
    var length := |seqs|;
    if seqs != {} && MaxOf(seqs) != length then (rows, Err(ErrGap))
    else if q.precondition.AtLength? && length != q.precondition.n then (rows, Err(ErrStaleRead))
    else if Knowledges(rows, name) != {}
            && Nanos(q.envelope.coordinates.knowledge) <= MaxOf(Knowledges(rows, name))
    then (rows, Err(ErrNonMonotonicKnowledge))
    else
      var ref := Ref(name, length + 1);
      match NewFact(ref, q.envelope, q.kind, q.payload)
      case Err(e) => (rows, Err(e))
      case Ok(fact) =>
        match EncodeFact(fact)
        case Err(e) => (rows, Err(e))
        case Ok(w) => (rows[(name, length + 1) := RowFor(q, w)], Ok(ref))
  }

  // ---- load --------------------------------------------------------------------------------

  function DecodeBlob(cases: CaseTables, b: Blob): Result<Fact> {
    match b
    case Garbage => Err(ErrMalformed)
    case Encoded(w) => DecodeFact(cases, w)
  }

  /** Replay of the rows that remain, in sequence order. */
  function Replay(cases: CaseTables, rows: Table, name: string, remaining: set<int>, s: Stream): Result<Stream>
    requires forall k :: k in remaining ==> (name, k) in rows
    decreases |remaining|
  {
    if remaining == {} then Ok(s)
    else
      var stored := MinOf(remaining);
      var fact :- DecodeBlob(cases, rows[(name, stored)].encoded);
      var expected := |s.facts| + 1;
      if stored != expected || fact.ref.sequence != expected then Err(ErrGap)
      else
        var (extended, _) :- Streams.Append(s, fact.envelope, fact.kind, fact.payload);
        Replay(cases, rows, name, remaining - {stored}, extended)
  }

  function SqlLoad(cases: CaseTables, rows: Table, name: string): Result<Stream> {
    var empty :- NewStream(name);
    var loaded :- Replay(cases, rows, name, Sequences(rows, name), empty);
    if Sequences(rows, name) == {} then Err(ErrStreamNotFound) else Ok(loaded)
  }

  class SqliteStore {
    var rows: Table

    constructor ()
      ensures rows == map[]
    {
      rows := map[];
    }

    method Append(name: string, q: Request) returns (r: Result<Ref>)
      modifies this
      ensures (rows, r) == SqlAppend(old(rows), name, q)
    {
      // SELECT COUNT(*), MAX(sequence), MAX(knowledge); NULL aggregates are None.
      var seqs, knows := Sequences(rows, name), Knowledges(rows, name);
      var length := |seqs|;
      var highest := if seqs == {} then None else Some(MaxOf(seqs));
      var lastKnowledge := if knows == {} then None else Some(MaxOf(knows));
      if highest.Some? && highest.value != length {
        return Err(ErrGap);
      }
      if q.precondition.AtLength? && length != q.precondition.n {
        return Err(ErrStaleRead);
      }
      var knowledge := Nanos(q.envelope.coordinates.knowledge);
      if lastKnowledge.Some? && knowledge <= lastKnowledge.value {
        return Err(ErrNonMonotonicKnowledge);
      }
      var next := if highest.Some? then highest.value else 0;
      if next < 0 {
        return Err(ErrNegativeSequence);
      }
      var ref := Ref(name, next + 1);
      var fact := NewFact(ref, q.envelope, q.kind, q.payload);
      if fact.Err? {
        return Err(fact.error);
      }
      var encoded := EncodeFact(fact.value);
      if encoded.Err? {
        return Err(encoded.error);
      }
      rows := rows[(name, next + 1) := RowFor(q, encoded.value)];
      return Ok(ref);
    }

    /** loadFrom: rows arrive ordered by sequence; both copies of the sequence are checked. */
    method Load(cases: CaseTables, name: string) returns (r: Result<Stream>)
      ensures r == SqlLoad(cases, rows, name)
    {
      var empty := NewStream(name);
      if empty.Err? {
        return Err(empty.error);
      }
      var stream, found := empty.value, false;
      var remaining := Sequences(rows, name);
      while remaining != {}
        invariant forall k :: k in remaining ==> (name, k) in rows
        invariant Replay(cases, rows, name, remaining, stream)
               == Replay(cases, rows, name, Sequences(rows, name), empty.value)
        invariant found || remaining == Sequences(rows, name)
        invariant found ==> Sequences(rows, name) != {}
        decreases |remaining|
      {
        var stored := MinOf(remaining);
        var fact := DecodeBlob(cases, rows[(name, stored)].encoded);
        if fact.Err? {
          return Err(fact.error);
        }
        var expected := |stream.facts| + 1;
        if stored != expected {
          return Err(ErrGap);
        }
        if fact.value.ref.sequence != expected {
          return Err(ErrGap);
        }
        var extended := Streams.Append(stream, fact.value.envelope, fact.value.kind, fact.value.payload);
        if extended.Err? {
          return Err(extended.error);
        }
        stream := extended.value.0;
        remaining := remaining - {stored};
        found := true;
      }
      if !found {
        return Err(ErrStreamNotFound);
      }
      return Ok(stream);
    }
  }

  // ---- gap detection is exact ------------------------------------------------------------------

  function UpTo(n: nat): (s: set<int>)
    ensures forall x :: x in s <==> 1 <= x <= n
  {
    if n == 0 then {} else UpTo(n - 1) + {n}
  }

  lemma {:induction false} UpToSize(n: nat)
    ensures |UpTo(n)| == n
  {
    if n > 0 {
      UpToSize(n - 1);
      assert n !in UpTo(n - 1);
    }
  }

  lemma SubsetSize(a: set<int>, b: set<int>)
    requires a <= b
    ensures |a| <= |b| && (|a| == |b| ==> a == b)
  {
    assert b == a + (b - a);
    assert |b| == |a| + |b - a|;
  }

  /** For distinct positive sequences COUNT equals MAX exactly when they are 1..N. */
  lemma CountIsMaxIffContiguous(s: set<int>)
    requires s != {} && forall x :: x in s ==> 1 <= x
    ensures MaxOf(s) == |s| <==> s == UpTo(|s|)
  {
    var m := MaxOf(s);
    assert s <= UpTo(m);
    SubsetSize(s, UpTo(m));
    UpToSize(m);
    if s == UpTo(|s|) {
      UpToSize(|s|);
      assert |s| > 0;
      assert |s| in UpTo(|s|) && m in UpTo(|s|);
    }
  }

  /** Append refuses with a gap exactly the streams that have one. */
  lemma AppendRefusesExactlyGaps(rows: Table, name: string, q: Request)
    requires forall k :: k in Sequences(rows, name) ==> 1 <= k
    ensures SqlAppend(rows, name, q).1 == Err(ErrGap) <==> Sequences(rows, name) != UpTo(|Sequences(rows, name)|)
  {
    hide EncodeFact;
    var seqs := Sequences(rows, name);
    EncodeNeverGaps(Ref(name, |seqs| + 1), q);
    if seqs == {} {
      assert UpTo(0) == {};
    } else {
      CountIsMaxIffContiguous(seqs);
    }
  }

  lemma EncodeNeverGaps(ref: Ref, q: Request)
    ensures NewFact(ref, q.envelope, q.kind, q.payload) != Err(ErrGap)
    ensures NewFact(ref, q.envelope, q.kind, q.payload).Ok? ==>
              EncodeFact(NewFact(ref, q.envelope, q.kind, q.payload).value).Ok?
  {
  }

  /** The row at sequence k decodes to a fact that says k itself. */
  ghost predicate Readable(cases: CaseTables, rows: Table, name: string, k: int) {
    && (name, k) in rows
    && DecodeBlob(cases, rows[(name, k)].encoded).Ok?
    && DecodeBlob(cases, rows[(name, k)].encoded).value.ref.sequence == k
  }

  /** What replay makes of the row at sequence k. */
  ghost function ReplayedFact(cases: CaseTables, rows: Table, name: string, k: nat): Fact
    requires Readable(cases, rows, name, k)
  {
    DecodeBlob(cases, rows[(name, k)].encoded).value.(ref := Ref(name, k))
  }

  lemma DecodedFactAppends(cases: CaseTables, b: Blob, s: Stream)
    requires DecodeBlob(cases, b).Ok?
    ensures var f := DecodeBlob(cases, b).value;
            Streams.Append(s, f.envelope, f.kind, f.payload)
              == Ok((Stream(s.name, s.facts + [f.(ref := Ref(s.name, |s.facts| + 1))]), Ref(s.name, |s.facts| + 1)))
  {
    hide DecodeEnvelope, DecodePayload, DecodeFactKind;
  }

  /** The sequences from n+1 to n+m, readable, replay one after the other. */
  ghost predicate Contiguous(remaining: set<int>, n: nat) {
    forall k :: k in remaining <==> n < k <= n + |remaining|
  }

  /** The stream that replaying the rows n+1..m onto s would give. */
  ghost predicate ReplayedOnto(cases: CaseTables, rows: Table, name: string, s: Stream, m: nat, t: Stream) {
    && t.name == name && |t.facts| == m && s.facts <= t.facts
    && forall k :: |s.facts| < k <= m ==>
         Readable(cases, rows, name, k) && t.facts[k - 1] == ReplayedFact(cases, rows, name, k)
  }

  ghost predicate AllReadable(cases: CaseTables, rows: Table, name: string, remaining: set<int>) {
    forall k :: k in remaining ==> Readable(cases, rows, name, k)
  }

  lemma {:induction false} ReplayIff(cases: CaseTables, rows: Table, name: string, remaining: set<int>, s: Stream)
    requires s.name == name && forall k :: k in remaining ==> (name, k) in rows
    ensures var r := Replay(cases, rows, name, remaining, s);
            && (r.Ok? <==> Contiguous(remaining, |s.facts|) && AllReadable(cases, rows, name, remaining))
            && (r.Err? && AllReadable(cases, rows, name, remaining) ==> r == Err(ErrGap))
            && (r.Ok? ==> ReplayedOnto(cases, rows, name, s, |s.facts| + |remaining|, r.value))
    decreases |remaining|
  {
    hide DecodeFact, Readable, ReplayedFact;
    var n := |s.facts|;
    if remaining != {} {
      hide Replay;
      var stored := MinOf(remaining);
      ReplayHead(cases, rows, name, remaining, s);
      if stored == n + 1 && Readable(cases, rows, name, stored) {
        var f := ReplayedFact(cases, rows, name, stored);
        var extended := Stream(name, s.facts + [f]);
        ReplayIff(cases, rows, name, remaining - {stored}, extended);
        ContiguousStep(remaining, n);
        assert remaining == (remaining - {stored}) + {stored};
        var r := Replay(cases, rows, name, remaining, s);
        if r.Ok? {
          OntoStep(cases, rows, name, s, f, n + |remaining|, r.value);
        }
      } else if Contiguous(remaining, n) {
        assert n + 1 in remaining;
      }
    }
  }

  lemma OntoStep(cases: CaseTables, rows: Table, name: string, s: Stream, f: Fact, m: nat, t: Stream)
    requires Readable(cases, rows, name, |s.facts| + 1) && f == ReplayedFact(cases, rows, name, |s.facts| + 1)
    requires ReplayedOnto(cases, rows, name, Stream(name, s.facts + [f]), m, t)
    ensures ReplayedOnto(cases, rows, name, s, m, t)
  {
    hide Readable, ReplayedFact;
    var n := |s.facts|;
    assert s.facts == (s.facts + [f])[..n] == t.facts[..n];
    assert t.facts[n] == (s.facts + [f])[n];
  }

  lemma ContiguousStep(remaining: set<int>, n: nat)
    requires remaining != {} && MinOf(remaining) == n + 1
    ensures |remaining - {n + 1}| == |remaining| - 1
    ensures Contiguous(remaining, n) <==> Contiguous(remaining - {n + 1}, n + 1)
  {
    assert remaining == (remaining - {n + 1}) + {n + 1};
    if Contiguous(remaining - {n + 1}, n + 1) {
      assert forall k :: k in remaining <==> k == n + 1 || k in remaining - {n + 1};
    }
  }

  /** One step of replay. */
  lemma ReplayHead(cases: CaseTables, rows: Table, name: string, remaining: set<int>, s: Stream)
    requires s.name == name && remaining != {} && forall k :: k in remaining ==> (name, k) in rows
    ensures var stored := MinOf(remaining);
            var r := Replay(cases, rows, name, remaining, s);
            if stored == |s.facts| + 1 && Readable(cases, rows, name, stored)
            then r == Replay(cases, rows, name, remaining - {stored},
                             Stream(name, s.facts + [ReplayedFact(cases, rows, name, stored)]))
            else r.Err? && (Readable(cases, rows, name, stored) ==> r == Err(ErrGap))
  {
    hide DecodeFact, Streams.Append;
    var stored := MinOf(remaining);
    var decoded := DecodeBlob(cases, rows[(name, stored)].encoded);
    if decoded.Ok? && stored == |s.facts| + 1 && decoded.value.ref.sequence == stored {
      DecodedFactAppends(cases, rows[(name, stored)].encoded, s);
    }
  }

  /** Load succeeds exactly on a named stream whose rows are 1..N, N positive, and
      each readable; then every reference returns the row stored under it.  In every
      other case replay would renumber or misread, and Load refuses. */
  lemma LoadIff(cases: CaseTables, rows: Table, name: string)
    ensures var seqs := Sequences(rows, name);
            var r := SqlLoad(cases, rows, name);
            && (r.Ok? <==> && name != "" && seqs != {} && seqs == UpTo(|seqs|)
                           && AllReadable(cases, rows, name, seqs))
            && (name != "" && seqs != {} && r.Err? && AllReadable(cases, rows, name, seqs) ==> r == Err(ErrGap))
            && (r.Ok? ==>
                  && r.value.name == name && Numbered(r.value) && |r.value.facts| == |seqs|
                  && forall k: nat :: 1 <= k <= |seqs| ==>
                       && Readable(cases, rows, name, k)
                       && Get(r.value, Ref(name, k)) == Ok(ReplayedFact(cases, rows, name, k)))
  {
    hide DecodeFact, Replay, Readable, ReplayedFact, AllReadable;
    var seqs, r := Sequences(rows, name), SqlLoad(cases, rows, name);
    SequencesAreKeys(rows, name);
    ReplayIff(cases, rows, name, seqs, Stream(name, []));
    assert Contiguous(seqs, 0) <==> seqs == UpTo(|seqs|);
    if r.Ok? {
      LoadedFacts(cases, rows, name, |seqs|, r.value);
    }
  }

  lemma SequencesAreKeys(rows: Table, name: string)
    ensures forall k :: k in Sequences(rows, name) <==> (name, k) in rows
  {
  }

  lemma LoadedFacts(cases: CaseTables, rows: Table, name: string, m: nat, t: Stream)
    requires ReplayedOnto(cases, rows, name, Stream(name, []), m, t)
    ensures Numbered(t)
    ensures forall k: nat :: 1 <= k <= m ==>
              Readable(cases, rows, name, k) && Get(t, Ref(name, k)) == Ok(ReplayedFact(cases, rows, name, k))
  {
    hide Readable;
    forall i | 0 <= i < |t.facts|
      ensures t.facts[i].ref == Ref(name, i + 1)
    {
      assert t.facts[(i + 1) - 1] == ReplayedFact(cases, rows, name, i + 1);
    }
  }
}
