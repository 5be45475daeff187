/** Two stores, one meaning: the rows simulate the streams, call by call. */
module StoreAgreement {
  import opened Results
  import opened Text
  import opened Temporal
  import opened Facts
  import opened Streams
  import opened Stores
  import opened Wire
  import opened Sqlite

  // ---- the simulation relation ----------------------------------------------------------------

  ghost function StoredRow(f: Fact): Row {
    Row(Nanos(f.From()), Nanos(f.Known()), if EncodeFact(f).Ok? then Encoded(EncodeFact(f).value) else Garbage)
  }

  ghost predicate HeldAt(rows: Table, name: string, k: int, f: Fact) {
    (name, k) in rows && rows[(name, k)] == StoredRow(f)
  }

  /** The rows of a stream are its facts, under sequences 1..N. */
  ghost predicate Holds(rows: Table, name: string, facts: seq<Fact>) {
    && Sequences(rows, name) == UpTo(|facts|)
    && forall i :: 0 <= i < |facts| ==> HeldAt(rows, name, i + 1, facts[i])
  }

  ghost predicate Kept(cases: CaseTables, name: string, s: Stream) {
    && GoodStream(name, s)
    && forall i :: 0 <= i < |s.facts| ==> WellFormed(cases, s.facts[i]) && InRange(s.facts[i].Known())
  }

  /** Every named stream is held by the rows; what SQLite keeps under the empty name,
      which memory never has, is left out of it. */
  ghost predicate Agree(cases: CaseTables, streams: StreamMap, rows: Table) {
    && (forall name :: name != "" ==> Holds(rows, name, FactsOf(streams, name)))
    && (forall name :: name in streams ==> Kept(cases, name, streams[name]))
  }

  /** What agreement asks of an append: a name, an instant that fits the column, and
      a fact a decoder accepts if it is accepted at all. */
  ghost predicate Storable(cases: CaseTables, streams: StreamMap, name: string, q: Request) {
    && name != ""
    && InRange(q.envelope.coordinates.knowledge)
    && var fact := NewFact(Ref(name, |FactsOf(streams, name)| + 1), q.envelope, q.kind, q.payload);
       fact.Ok? ==> WellFormed(cases, fact.value)
  }

  // ---- load --------------------------------------------------------------------------------------

  lemma RowReadsBack(cases: CaseTables, rows: Table, name: string, facts: seq<Fact>, k: nat)
    requires Holds(rows, name, facts) && 1 <= k <= |facts|
    requires WellFormed(cases, facts[k - 1]) && facts[k - 1].ref == Ref(name, k)
    ensures Readable(cases, rows, name, k) && ReplayedFact(cases, rows, name, k) == facts[k - 1]
  {
    hide DecodeFact, EncodeFact, WellFormedEnvelope;
    assert HeldAt(rows, name, (k - 1) + 1, facts[k - 1]);
    FactRoundTrip(cases, facts[k - 1]);
  }

  /** Load returns the same stream, or the same refusal. */
  lemma LoadAgrees(cases: CaseTables, streams: StreamMap, rows: Table, name: string)
    requires Agree(cases, streams, rows) && name != ""
    ensures SqlLoad(cases, rows, name) == MemoryLoad(streams, name)
  {
    hide WellFormed, DecodeFact, Readable, ReplayedFact, StoredRow;
    assert Holds(rows, name, FactsOf(streams, name));
    if name in streams {
      LoadOfHeld(cases, rows, streams[name]);
    }
  }

  lemma LoadOfHeld(cases: CaseTables, rows: Table, s: Stream)
    requires GoodStream(s.name, s) && Holds(rows, s.name, s.facts)
    requires forall i :: 0 <= i < |s.facts| ==> WellFormed(cases, s.facts[i])
    ensures SqlLoad(cases, rows, s.name) == Ok(s)
  {
    hide WellFormed, SqlLoad, Readable, ReplayedFact, StoredRow, HeldAt, Sequences;
    var name, n := s.name, |s.facts|;
    UpToSize(n);
    forall k: nat | 1 <= k <= n
      ensures Readable(cases, rows, name, k) && ReplayedFact(cases, rows, name, k) == s.facts[k - 1]
    {
      RowReadsBack(cases, rows, name, s.facts, k);
    }
    LoadIff(cases, rows, name);
    SameFacts(cases, rows, s, SqlLoad(cases, rows, name).value);
  }

  lemma SameFacts(cases: CaseTables, rows: Table, s: Stream, t: Stream)
    requires t.name == s.name && |t.facts| == |s.facts|
    requires forall k: nat :: 1 <= k <= |s.facts| ==>
               && Readable(cases, rows, s.name, k)
               && ReplayedFact(cases, rows, s.name, k) == s.facts[k - 1]
               && Get(t, Ref(s.name, k)) == Ok(ReplayedFact(cases, rows, s.name, k))
    ensures t == s
  {
    hide Readable, ReplayedFact;
    forall i | 0 <= i < |s.facts|
      ensures t.facts[i] == s.facts[i]
    {
      assert Get(t, Ref(s.name, i + 1)) == Ok(s.facts[(i + 1) - 1]);
    }
  }

  // ---- append -------------------------------------------------------------------------------------

  /** MAX(knowledge) is the knowledge of the last fact. */
  lemma MaxKnowledge(cases: CaseTables, rows: Table, s: Stream)
    requires Kept(cases, s.name, s) && Holds(rows, s.name, s.facts)
    ensures Knowledges(rows, s.name) != {}
    ensures MaxOf(Knowledges(rows, s.name)) == s.facts[|s.facts| - 1].Known()
  {
    hide WellFormed, EncodeFact;
    var n := |s.facts|;
    var last := s.facts[n - 1].Known();
    assert HeldAt(rows, s.name, (n - 1) + 1, s.facts[n - 1]);
    assert last in Knowledges(rows, s.name);
    forall x | x in Knowledges(rows, s.name)
      ensures x <= last
    {
      var k :| k in rows && k.0 == s.name && rows[k].knowledge == x;
      assert k.1 in Sequences(rows, s.name);
      assert HeldAt(rows, s.name, (k.1 - 1) + 1, s.facts[k.1 - 1]);
    }
  }

  lemma NoKnowledge(rows: Table, name: string)
    requires Sequences(rows, name) == {}
    ensures Knowledges(rows, name) == {}
  {
    assert forall k :: k in rows && k.0 == name ==> k.1 in Sequences(rows, name);
  }

  /** COUNT, MAX(sequence) and MAX(knowledge) read the stream's length and last fact. */
  lemma Aggregates(cases: CaseTables, rows: Table, streams: StreamMap, name: string)
    requires Agree(cases, streams, rows) && name != ""
    ensures var facts := FactsOf(streams, name);
            && |Sequences(rows, name)| == |facts|
            && (Sequences(rows, name) == {} <==> facts == [])
            && (Knowledges(rows, name) == {} <==> facts == [])
            && (facts != [] ==>
                  && MaxOf(Sequences(rows, name)) == |facts|
                  && MaxOf(Knowledges(rows, name)) == facts[|facts| - 1].Known())
  {
    hide WellFormed, StoredRow, Knowledges, MaxOf, InRange;
    var facts := FactsOf(streams, name);
    assert Holds(rows, name, facts);
    UpToSize(|facts|);
    if facts == [] {
      NoKnowledge(rows, name);
    } else {
      MaxKnowledge(cases, rows, streams[name]);
      CountIsMaxIffContiguous(Sequences(rows, name));
    }
  }

  /** A stated length that is not the stream's. */
  predicate Stale(q: Request, facts: seq<Fact>) {
    q.precondition.AtLength? && q.precondition.n != |facts|
  }

  /** The comparison of knowledge times comes out the same in int64 nanoseconds. */
  predicate SameOrder(q: Request, facts: seq<Fact>)
    requires facts != []
  {
    var k, last := q.envelope.coordinates.knowledge, facts[|facts| - 1].Known();
    k <= last <==> Nanos(k) <= last
  }

  /** What SqlAppend decides on rows that hold a known list of facts: what memory
      decides, exactly when the wrapped comparison of knowledge times does not matter. */
  lemma SqlAppendDecides(cases: CaseTables, rows: Table, streams: StreamMap, name: string, q: Request)
    requires Agree(cases, streams, rows) && name != ""
    ensures var (rows', r) := SqlAppend(rows, name, q);
            var facts := FactsOf(streams, name);
            && (r == MemoryAppend(streams, name, q).1 <==> facts == [] || Stale(q, facts) || SameOrder(q, facts))
            && (r.Err? ==> rows' == rows)
            && (r.Ok? ==> && r.value == Ref(name, |facts| + 1)
                          && rows' == rows[(name, |facts| + 1) := StoredRow(Fact(r.value, q.envelope, q.kind, q.payload))])
  {
    hide WellFormed, EncodeFact, Sequences, Knowledges, MaxOf, Holds, Kept;
    Aggregates(cases, rows, streams, name);
    EncodeNeverGaps(Ref(name, |FactsOf(streams, name)| + 1), q);
    AgreeIsGood(cases, streams, rows);
  }

  lemma InsertHolds(rows: Table, name: string, facts: seq<Fact>, f: Fact)
    requires Holds(rows, name, facts)
    ensures Holds(rows[(name, |facts| + 1) := StoredRow(f)], name, facts + [f])
  {
    hide StoredRow;
    var rows' := rows[(name, |facts| + 1) := StoredRow(f)];
    var more := facts + [f];
    SequencesInsert(rows, name, |facts| + 1, StoredRow(f));
    assert UpTo(|more|) == UpTo(|facts|) + {|facts| + 1};
    forall i | 0 <= i < |more|
      ensures HeldAt(rows', name, i + 1, more[i])
    {
      if i < |facts| {
        assert HeldAt(rows, name, i + 1, facts[i]);
      }
    }
  }

  lemma SequencesInsert(rows: Table, name: string, k: int, row: Row)
    ensures Sequences(rows[(name, k) := row], name) == Sequences(rows, name) + {k}
    ensures forall other :: other != name ==> Sequences(rows[(name, k) := row], other) == Sequences(rows, other)
  {
    var rows' := rows[(name, k) := row];
    assert forall key :: key in rows' <==> key in rows || key == (name, k);
    forall x
      ensures x in Sequences(rows', name) <==> x in Sequences(rows, name) || x == k
    {
      assert x in Sequences(rows', name) <==> (name, x) in rows';
      assert x in Sequences(rows, name) <==> (name, x) in rows;
    }
    forall other | other != name
      ensures Sequences(rows', other) == Sequences(rows, other)
    {
      forall x
        ensures x in Sequences(rows', other) <==> x in Sequences(rows, other)
      {
        assert x in Sequences(rows', other) <==> (other, x) in rows';
        assert x in Sequences(rows, other) <==> (other, x) in rows;
      }
    }
  }

  lemma InsertElsewhere(rows: Table, name: string, k: int, row: Row, other: string, facts: seq<Fact>)
    requires Holds(rows, other, facts) && other != name
    ensures Holds(rows[(name, k) := row], other, facts)
  {
    hide EncodeFact;
    SequencesInsert(rows, name, k, row);
    var rows' := rows[(name, k) := row];
    forall i | 0 <= i < |facts|
      ensures HeldAt(rows', other, i + 1, facts[i])
    {
      assert HeldAt(rows, other, i + 1, facts[i]);
    }
  }

  /** In range nothing wraps, so the two answers coincide. */
  lemma SameAnswer(cases: CaseTables, streams: StreamMap, rows: Table, name: string, q: Request)
    requires Agree(cases, streams, rows) && Storable(cases, streams, name, q)
    ensures name != "" && SqlAppend(rows, name, q).1 == MemoryAppend(streams, name, q).1
  {
    hide Agree, WellFormed, StoredRow, SqlAppend, MemoryAppend;
    SqlAppendDecides(cases, rows, streams, name, q);
  }

  /** Append returns the same reference or the same refusal, and the stores still agree. */
  lemma AppendAgrees(cases: CaseTables, streams: StreamMap, rows: Table, name: string, q: Request)
    requires Agree(cases, streams, rows) && Storable(cases, streams, name, q)
    ensures var (streams', r) := MemoryAppend(streams, name, q);
            var (rows', r') := SqlAppend(rows, name, q);
            r == r' && Agree(cases, streams', rows')
  {
    hide WellFormed, StoredRow, SqlAppend, MemoryAppend, Holds, Get, Storable, Stale, SameOrder, GoodStream;
    var (streams', r) := MemoryAppend(streams, name, q);
    var (rows', r') := SqlAppend(rows, name, q);
    SameAnswer(cases, streams, rows, name, q);
    SqlAppendDecides(cases, rows, streams, name, q);
    AgreeIsGood(cases, streams, rows);
    AppendGrows(streams, name, q);
    if r.Ok? {
      var facts, f := FactsOf(streams, name), Fact(r.value, q.envelope, q.kind, q.payload);
      forall other | other != ""
        ensures Holds(rows', other, FactsOf(streams', other))
      {
        if other == name {
          InsertHolds(rows, name, facts, f);
        } else {
          InsertElsewhere(rows, name, |facts| + 1, StoredRow(f), other, FactsOf(streams, other));
        }
      }
      AppendKept(cases, streams, name, q);
    }
  }

  lemma AppendKept(cases: CaseTables, streams: StreamMap, name: string, q: Request)
    requires GoodStreams(streams) && (forall other :: other in streams ==> Kept(cases, other, streams[other]))
    requires Storable(cases, streams, name, q) && MemoryAppend(streams, name, q).1.Ok?
    ensures Kept(cases, name, MemoryAppend(streams, name, q).0[name])
  {
    hide WellFormed;
    AppendGrows(streams, name, q);
    var s := MemoryAppend(streams, name, q).0[name];
    var facts := FactsOf(streams, name);
    forall i | 0 <= i < |s.facts|
      ensures WellFormed(cases, s.facts[i]) && InRange(s.facts[i].Known())
    {
      if i < |facts| {
        assert s.facts[i] == facts[i];
      }
    }
  }

  // ---- runs ------------------------------------------------------------------------------------------

  /** A call on a store; inside a region a nested Serialise is refused. */
  datatype Call = AppendCall(name: string, request: Request) | LoadCall(name: string) | NestedSerialise

  datatype Outcome = Appended(ref: Result<Ref>) | Loaded(stream: Result<Stream>) | Refused(error: Error)

  function MemoryCall(streams: StreamMap, c: Call): (StreamMap, Outcome) {
    match c
    case AppendCall(name, q) => var (streams', r) := MemoryAppend(streams, name, q); (streams', Appended(r))
    case LoadCall(name) => (streams, Loaded(MemoryLoad(streams, name)))
    case NestedSerialise => (streams, Refused(ErrNestedSerialise))
  }

  function SqlCall(cases: CaseTables, rows: Table, c: Call): (Table, Outcome) {
    match c
    case AppendCall(name, q) => var (rows', r) := SqlAppend(rows, name, q); (rows', Appended(r))
    case LoadCall(name) => (rows, Loaded(SqlLoad(cases, rows, name)))
    case NestedSerialise => (rows, Refused(ErrNestedSerialise))
  }

  function MemoryCalls(streams: StreamMap, cs: seq<Call>): (StreamMap, seq<Outcome>)
    decreases |cs|
  {
    if cs == [] then (streams, [])
    else
      var (streams', o) := MemoryCall(streams, cs[0]);
      var (streams'', os) := MemoryCalls(streams', cs[1..]);
      (streams'', [o] + os)
  }

  function SqlCalls(cases: CaseTables, rows: Table, cs: seq<Call>): (Table, seq<Outcome>)
    decreases |cs|
  {
    if cs == [] then (rows, [])
    else
      var (rows', o) := SqlCall(cases, rows, cs[0]);
      var (rows'', os) := SqlCalls(cases, rows', cs[1..]);
      (rows'', [o] + os)
  }

  ghost predicate Admissible(cases: CaseTables, streams: StreamMap, c: Call) {
    match c
    case AppendCall(name, q) => Storable(cases, streams, name, q)
    case LoadCall(name) => name != ""
    case NestedSerialise => true
  }

  ghost predicate AllAdmissible(cases: CaseTables, streams: StreamMap, cs: seq<Call>)
    decreases |cs|
  {
    cs != [] ==> Admissible(cases, streams, cs[0]) && AllAdmissible(cases, MemoryCall(streams, cs[0]).0, cs[1..])
  }

  lemma CallAgrees(cases: CaseTables, streams: StreamMap, rows: Table, c: Call)
    requires Agree(cases, streams, rows) && Admissible(cases, streams, c)
    ensures MemoryCall(streams, c).1 == SqlCall(cases, rows, c).1
    ensures Agree(cases, MemoryCall(streams, c).0, SqlCall(cases, rows, c).0)
  {
    hide MemoryAppend, SqlAppend, Agree, Storable, SqlLoad, MemoryLoad;
    match c
    case AppendCall(name, q) => AppendAgrees(cases, streams, rows, name, q);
    case LoadCall(name) => LoadAgrees(cases, streams, rows, name);
    case NestedSerialise =>
  }

  /** For every sequence of admissible calls the two stores give the same answers and
      end in agreement. */
  lemma {:induction false} CallsAgree(cases: CaseTables, streams: StreamMap, rows: Table, cs: seq<Call>)
    requires Agree(cases, streams, rows) && AllAdmissible(cases, streams, cs)
    ensures MemoryCalls(streams, cs).1 == SqlCalls(cases, rows, cs).1
    ensures Agree(cases, MemoryCalls(streams, cs).0, SqlCalls(cases, rows, cs).0)
    decreases |cs|
  {
    hide MemoryCall, SqlCall, Agree, Admissible;
    if cs != [] {
      CallAgrees(cases, streams, rows, cs[0]);
      CallsAgree(cases, MemoryCall(streams, cs[0]).0, SqlCall(cases, rows, cs[0]).0, cs[1..]);
    }
  }

  // ---- regions ----------------------------------------------------------------------------------------

  /** A region's callback issued these calls and then returned nil or an error. */
  datatype Region = Region(calls: seq<Call>, succeeds: bool)

  /** Memory never rolls back; SQLite commits exactly when the callback returns nil. */
  function MemoryRegion(streams: StreamMap, g: Region): (StreamMap, seq<Outcome>) {
    MemoryCalls(streams, g.calls)
  }

  function SqlRegion(cases: CaseTables, rows: Table, g: Region): (Table, seq<Outcome>) {
    var (rows', os) := SqlCalls(cases, rows, g.calls);
    (if g.succeeds then rows' else rows, os)
  }

  ghost predicate SomeAppendSucceeded(os: seq<Outcome>) {
    exists i :: 0 <= i < |os| && os[i].Appended? && os[i].ref.Ok?
  }

  /** How many facts a store holds of each stream never falls, and rises with a
      successful append. */
  lemma {:induction false} CallsGrow(streams: StreamMap, cs: seq<Call>)
    requires GoodStreams(streams)
    ensures GoodStreams(MemoryCalls(streams, cs).0)
    ensures forall name :: |FactsOf(streams, name)| <= |FactsOf(MemoryCalls(streams, cs).0, name)|
    ensures SomeAppendSucceeded(MemoryCalls(streams, cs).1) <==> MemoryCalls(streams, cs).0 != streams
    ensures MemoryCalls(streams, cs).0 == streams ||
            exists name :: |FactsOf(streams, name)| < |FactsOf(MemoryCalls(streams, cs).0, name)|
    decreases |cs|
  {
    hide MemoryAppend, MemoryLoad, Get, GoodStreams;
    if cs != [] {
      var streams', o := MemoryCall(streams, cs[0]).0, MemoryCall(streams, cs[0]).1;
      CallGrows(streams, cs[0]);
      CallsGrow(streams', cs[1..]);
      var rest := MemoryCalls(streams', cs[1..]);
      OutcomeCons(o, rest.1);
      if o.Appended? && o.ref.Ok? {
        assert |FactsOf(streams, cs[0].name)| < |FactsOf(rest.0, cs[0].name)|;
      } else if rest.0 != streams {
        var name :| |FactsOf(streams', name)| < |FactsOf(rest.0, name)|;
      }
    }
  }

  lemma OutcomeCons(o: Outcome, os: seq<Outcome>)
    ensures SomeAppendSucceeded([o] + os) <==> (o.Appended? && o.ref.Ok?) || SomeAppendSucceeded(os)
  {
    if SomeAppendSucceeded(os) {
      var i :| 0 <= i < |os| && os[i].Appended? && os[i].ref.Ok?;
      assert ([o] + os)[i + 1] == os[i];
    }
    if o.Appended? && o.ref.Ok? {
      assert ([o] + os)[0] == o;
    }
  }

  lemma CallGrows(streams: StreamMap, c: Call)
    requires GoodStreams(streams)
    ensures var (streams', o) := MemoryCall(streams, c);
            && GoodStreams(streams')
            && (forall name :: |FactsOf(streams, name)| <= |FactsOf(streams', name)|)
            && (if o.Appended? && o.ref.Ok?
                then c.AppendCall? && |FactsOf(streams, c.name)| < |FactsOf(streams', c.name)|
                else streams' == streams)
  {
    hide MemoryAppend, MemoryLoad, Get;
    if c.AppendCall? {
      AppendGrows(streams, c.name, c.request);
    }
  }

  lemma LengthsDiffer(cases: CaseTables, streams: StreamMap, streams': StreamMap, rows: Table, name: string)
    requires Agree(cases, streams, rows) && |FactsOf(streams, name)| < |FactsOf(streams', name)|
    requires GoodStreams(streams')
    ensures !Agree(cases, streams', rows)
  {
    hide StoredRow, Kept;
    UpToSize(|FactsOf(streams, name)|);
    UpToSize(|FactsOf(streams', name)|);
    assert Holds(rows, name, FactsOf(streams, name));
    assert Agree(cases, streams', rows) ==> Holds(rows, name, FactsOf(streams', name));
  }

  /** After a region the stores agree exactly when the callback succeeded or had
      appended nothing: memory keeps what SQLite rolls back.  Every write use case
      appends last, so it always meets the condition. */
  lemma RegionAgreesIff(cases: CaseTables, streams: StreamMap, rows: Table, g: Region)
    requires Agree(cases, streams, rows) && AllAdmissible(cases, streams, g.calls)
    ensures MemoryRegion(streams, g).1 == SqlRegion(cases, rows, g).1
    ensures Agree(cases, MemoryRegion(streams, g).0, SqlRegion(cases, rows, g).0)
       <==> g.succeeds || !SomeAppendSucceeded(MemoryRegion(streams, g).1)
  {
    hide Agree, MemoryCalls, SqlCalls, SomeAppendSucceeded, AllAdmissible, GoodStreams;
    CallsAgree(cases, streams, rows, g.calls);
    AgreeIsGood(cases, streams, rows);
    CallsGrow(streams, g.calls);
    if !g.succeeds && SomeAppendSucceeded(MemoryRegion(streams, g).1) {
      var name :| |FactsOf(streams, name)| < |FactsOf(MemoryCalls(streams, g.calls).0, name)|;
      LengthsDiffer(cases, streams, MemoryCalls(streams, g.calls).0, rows, name);
    }
  }

  lemma AgreeIsGood(cases: CaseTables, streams: StreamMap, rows: Table)
    requires Agree(cases, streams, rows)
    ensures GoodStreams(streams)
  {
    hide Holds, WellFormed;
  }

  lemma EmptyStoresAgree(cases: CaseTables)
    ensures Agree(cases, map[], map[])
  {
    assert UpTo(0) == {};
  }

  function MemoryRun(streams: StreamMap, gs: seq<Region>): (StreamMap, seq<seq<Outcome>>)
    decreases |gs|
  {
    if gs == [] then (streams, [])
    else
      var (streams', os) := MemoryRegion(streams, gs[0]);
      var (streams'', rest) := MemoryRun(streams', gs[1..]);
      (streams'', [os] + rest)
  }

  function SqlRun(cases: CaseTables, rows: Table, gs: seq<Region>): (Table, seq<seq<Outcome>>)
    decreases |gs|
  {
    if gs == [] then (rows, [])
    else
      var (rows', os) := SqlRegion(cases, rows, gs[0]);
      var (rows'', rest) := SqlRun(cases, rows', gs[1..]);
      (rows'', [os] + rest)
  }

  /** Every call is admissible and no region fails after appending. */
  ghost predicate Disciplined(cases: CaseTables, streams: StreamMap, gs: seq<Region>)
    decreases |gs|
  {
    gs != [] ==>
      && AllAdmissible(cases, streams, gs[0].calls)
      && (gs[0].succeeds || !SomeAppendSucceeded(MemoryRegion(streams, gs[0]).1))
      && Disciplined(cases, MemoryRegion(streams, gs[0]).0, gs[1..])
  }

  /** On every disciplined run, whatever its length and interleaving of streams, the
      two stores answer alike and each stream reads the same from both. */
  lemma {:induction false} RunsAgree(cases: CaseTables, streams: StreamMap, rows: Table, gs: seq<Region>)
    requires Agree(cases, streams, rows) && Disciplined(cases, streams, gs)
    ensures MemoryRun(streams, gs).1 == SqlRun(cases, rows, gs).1
    ensures Agree(cases, MemoryRun(streams, gs).0, SqlRun(cases, rows, gs).0)
    ensures forall name :: name != "" ==>
              SqlLoad(cases, SqlRun(cases, rows, gs).0, name) == MemoryLoad(MemoryRun(streams, gs).0, name)
    decreases |gs|
  {
    hide Agree, MemoryRegion, SqlRegion, AllAdmissible, SomeAppendSucceeded, SqlLoad, MemoryLoad;
    if gs != [] {
      RegionAgreesIff(cases, streams, rows, gs[0]);
      RunsAgree(cases, MemoryRegion(streams, gs[0]).0, SqlRegion(cases, rows, gs[0]).0, gs[1..]);
    }
    forall name | name != ""
      ensures SqlLoad(cases, SqlRun(cases, rows, gs).0, name) == MemoryLoad(MemoryRun(streams, gs).0, name)
    {
      LoadAgrees(cases, MemoryRun(streams, gs).0, SqlRun(cases, rows, gs).0, name);
    }
  }

  // ---- why the conditions are there ---------------------------------------------------------------------

  /** Without a name memory finds no stream and SQLite will not look for one. */
  lemma EmptyNameLoads(cases: CaseTables, streams: StreamMap, rows: Table)
    requires Agree(cases, streams, rows)
    ensures MemoryLoad(streams, "") == Err(ErrStreamNotFound) && SqlLoad(cases, rows, "") == Err(ErrEmptyType)
  {
    hide Holds, WellFormed;
  }

  /** Under the empty name memory refuses every append; SQLite judges it as on any
      stream and gives that refusal only to a request without a payload.  Either way the
      named streams still agree, and the empty one still loads from neither. */
  lemma EmptyNameDisagrees(cases: CaseTables, streams: StreamMap, rows: Table, q: Request)
    requires Agree(cases, streams, rows)
    ensures MemoryAppend(streams, "", q) == (streams, Err(ErrEmptyType))
    ensures SqlAppend(rows, "", q).1 == Err(ErrEmptyType) ==> q.payload.NilPayload?
    ensures Agree(cases, streams, SqlAppend(rows, "", q).0)
  {
    hide EncodeFact, Knowledges, MaxOf, Holds, WellFormed;
    assert "" !in streams;
    var rows', k := SqlAppend(rows, "", q).0, |Sequences(rows, "")| + 1;
    EncodeNeverGaps(Ref("", k), q);
    forall name | name != ""
      ensures Holds(rows', name, FactsOf(streams, name))
    {
      if rows' != rows {
        InsertElsewhere(rows, "", k, rows'[("", k)], name, FactsOf(streams, name));
      }
    }
  }

  /** A nameless stream grows in SQLite like any other: in range, an append is accepted
      exactly when it is not stale, comes after every fact held there and the domain
      accepts it; nothing it holds can be loaded. */
  lemma EmptyNameGrows(cases: CaseTables, rows: Table, facts: seq<Fact>, q: Request)
    requires Holds(rows, "", facts)
    requires forall i :: 0 <= i < |facts| ==> InRange(facts[i].Known())
    requires InRange(q.envelope.coordinates.knowledge)
    ensures var fact := NewFact(Ref("", |facts| + 1), q.envelope, q.kind, q.payload);
            var (rows', r) := SqlAppend(rows, "", q);
            && (r.Ok? <==> && !Stale(q, facts) && fact.Ok?
                           && forall i :: 0 <= i < |facts| ==> facts[i].Known() < q.envelope.coordinates.knowledge)
            && (r.Ok? ==> r.value == Ref("", |facts| + 1) && Holds(rows', "", facts + [fact.value]))
            && SqlLoad(cases, rows', "") == Err(ErrEmptyType)
  {
    hide EncodeFact, MaxOf, Knowledges, Sequences, Holds, HeldAt;
    EncodeNeverGaps(Ref("", |facts| + 1), q);
    HeldAggregates(rows, "", facts, q.envelope.coordinates.knowledge);
    var fact := NewFact(Ref("", |facts| + 1), q.envelope, q.kind, q.payload);
    if fact.Ok? {
      InsertHolds(rows, "", facts, fact.value);
    }
  }

  /** The aggregates of rows that hold in-range facts, whatever their order. */
  lemma HeldAggregates(rows: Table, name: string, facts: seq<Fact>, k: Instant)
    requires Holds(rows, name, facts)
    requires forall i :: 0 <= i < |facts| ==> InRange(facts[i].Known())
    ensures |Sequences(rows, name)| == |facts|
    ensures Sequences(rows, name) != {} ==> MaxOf(Sequences(rows, name)) == |facts|
    ensures Knowledges(rows, name) != {} && k <= MaxOf(Knowledges(rows, name))
       <==> exists i :: 0 <= i < |facts| && k <= facts[i].Known()
  {
    hide HeldAt, Knowledges;
    UpToSize(|facts|);
    if facts != [] {
      CountIsMaxIffContiguous(Sequences(rows, name));
    }
    HeldKnowledges(rows, name, facts);
    if i :| 0 <= i < |facts| && k <= facts[i].Known() {
      assert Nanos(facts[i].Known()) in Knowledges(rows, name);
    }
  }

  lemma HeldKnowledges(rows: Table, name: string, facts: seq<Fact>)
    requires Holds(rows, name, facts)
    ensures forall x :: x in Knowledges(rows, name) <==> exists i :: 0 <= i < |facts| && x == Nanos(facts[i].Known())
  {
    hide EncodeFact;
    forall x
      ensures x in Knowledges(rows, name) <==> exists i :: 0 <= i < |facts| && x == Nanos(facts[i].Known())
    {
      if x in Knowledges(rows, name) {
        var k :| k in rows && k.0 == name && rows[k].knowledge == x;
        assert k.1 in Sequences(rows, name);
        assert HeldAt(rows, name, (k.1 - 1) + 1, facts[k.1 - 1]);
      }
      if i :| 0 <= i < |facts| && x == Nanos(facts[i].Known()) {
        assert HeldAt(rows, name, i + 1, facts[i]);
      }
    }
  }

  /** A fact both stores accept, onto any stream of any agreeing stores, reads the same
      from both afterwards exactly when a decoder accepts it; otherwise SQLite can no
      longer load the stream at all. */
  lemma UnreadableFactDisagrees(cases: CaseTables, streams: StreamMap, rows: Table, name: string, q: Request)
    requires Agree(cases, streams, rows)
    requires MemoryAppend(streams, name, q).1.Ok? && SqlAppend(rows, name, q).1.Ok?
    ensures var (streams', ref) := MemoryAppend(streams, name, q);
            var rows' := SqlAppend(rows, name, q).0;
            && MemoryLoad(streams', name).Ok?
            && (SqlLoad(cases, rows', name) == MemoryLoad(streams', name)
                <==> WellFormed(cases, Fact(ref.value, q.envelope, q.kind, q.payload)))
            && (SqlLoad(cases, rows', name).Err?
                <==> !WellFormed(cases, Fact(ref.value, q.envelope, q.kind, q.payload)))
  {
    hide WellFormed, StoredRow, SqlAppend, MemoryAppend, SqlLoad, Holds, InRange;
    AgreeIsGood(cases, streams, rows);
    AppendGrows(streams, name, q);
    SqlAppendDecides(cases, rows, streams, name, q);
    var (streams', ref) := MemoryAppend(streams, name, q);
    var facts, f := FactsOf(streams, name), Fact(ref.value, q.envelope, q.kind, q.payload);
    var rows' := SqlAppend(rows, name, q).0;
    InsertHolds(rows, name, facts, f);
    if WellFormed(cases, f) {
      LoadOfHeld(cases, rows', streams'[name]);
    } else {
      AcceptedIsFact(streams, name, q);
      LoadOfUnreadable(cases, rows', name, facts + [f], |facts| + 1);
    }
  }

  lemma AcceptedIsFact(streams: StreamMap, name: string, q: Request)
    requires MemoryAppend(streams, name, q).1.Ok?
    ensures !q.payload.NilPayload?
  {
  }

  lemma LoadOfUnreadable(cases: CaseTables, rows: Table, name: string, facts: seq<Fact>, k: nat)
    requires Holds(rows, name, facts) && 1 <= k <= |facts|
    requires !facts[k - 1].payload.NilPayload? && !WellFormed(cases, facts[k - 1])
    ensures SqlLoad(cases, rows, name).Err?
  {
    hide WellFormed, SqlLoad, EncodeFact, DecodeFact;
    assert HeldAt(rows, name, (k - 1) + 1, facts[k - 1]);
    FactRoundTrip(cases, facts[k - 1]);
    LoadIff(cases, rows, name);
    assert k in Sequences(rows, name);
    assert !Readable(cases, rows, name, k);
  }

  /** Past the int64 range nanoseconds wrap.  On every stream of agreeing stores the two
      answer an append alike exactly when it is stale or the wrapped instant falls on
      the same side of the last one; wherever they differ, one refuses as too late what
      the other judges on its merits. */
  lemma OutOfRangeDisagrees(cases: CaseTables, streams: StreamMap, rows: Table, name: string, q: Request)
    requires Agree(cases, streams, rows) && name in streams
    ensures var facts := FactsOf(streams, name);
            var k, last := q.envelope.coordinates.knowledge, facts[|facts| - 1].Known();
            var r, r' := MemoryAppend(streams, name, q).1, SqlAppend(rows, name, q).1;
            && (r == r' <==> Stale(q, facts) || (k <= last <==> Nanos(k) <= last))
            && (r != r' && last < k ==> TWO63 <= k && r' == Err(ErrNonMonotonicKnowledge))
            && (r != r' && k <= last ==> k < -TWO63 && r == Err(ErrNonMonotonicKnowledge))
  {
    hide WellFormed, EncodeFact, Sequences, Knowledges, MaxOf, Holds;
    AgreeIsGood(cases, streams, rows);
    SqlAppendDecides(cases, rows, streams, name, q);
    Aggregates(cases, rows, streams, name);
  }

  /** Every stream has such an instant: a request the domain accepts, dated one turn
      of the int64 clock after the last fact, is appended by memory and refused by
      SQLite as not after it. */
  lemma OneTurnLater(cases: CaseTables, streams: StreamMap, rows: Table, name: string, q: Request)
    requires Agree(cases, streams, rows) && name in streams
    requires q.precondition == Any && NewFact(Ref(name, 1), q.envelope, q.kind, q.payload).Ok?
    requires var facts := FactsOf(streams, name);
             facts != [] ==> q.envelope.coordinates.knowledge == facts[|facts| - 1].Known() + TWO64
    ensures MemoryAppend(streams, name, q).1.Ok?
    ensures SqlAppend(rows, name, q) == (rows, Err(ErrNonMonotonicKnowledge))
  {
    hide WellFormed, EncodeFact, Sequences, Knowledges, MaxOf, Holds;
    AgreeIsGood(cases, streams, rows);
    SqlAppendDecides(cases, rows, streams, name, q);
    OutOfRangeDisagrees(cases, streams, rows, name, q);
    var facts := FactsOf(streams, name);
    assert InRange(facts[|facts| - 1].Known());
  }
}
