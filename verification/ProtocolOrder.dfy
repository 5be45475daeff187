/** With an advancing clock a run is also sequential in the order of its clock readings:
    together with the runs that realise histories, this says which stores are reachable. */
module ProtocolOrder {
  import opened Temporal
  import opened Sorting
  import opened Streams
  import opened Stores
  import opened Ledger
  import opened LedgerLaws
  import opened Protocol
  import opened ProtocolSerial
  import opened ProtocolExclusion
  import opened ProtocolReach

  // ---- use cases on different streams commute ------------------------------------------------

  /** Two stores hold the same under one name. */
  ghost predicate SameAt(s: StreamMap, t: StreamMap, name: string) {
    (name in s <==> name in t) && (name in s ==> s[name] == t[name])
  }

  lemma AppendIsLocal(s: StreamMap, t: StreamMap, name: string, q: Request)
    requires SameAt(s, t, name)
    ensures MemoryAppend(s, name, q).1 == MemoryAppend(t, name, q).1
    ensures SameAt(MemoryAppend(s, name, q).0, MemoryAppend(t, name, q).0, name)
    ensures forall other :: other != name ==> SameAt(s, MemoryAppend(s, name, q).0, other)
  {
  }

  /** A use case reads and writes its own stream and no other. */
  lemma ExecuteIsLocal(d: Deployment, s: StreamMap, t: StreamMap, now: Instant, cmd: Command)
    requires SameAt(s, t, cmd.stream)
    ensures Execute(d, s, now, cmd).1 == Execute(d, t, now, cmd).1
    ensures SameAt(Execute(d, s, now, cmd).0, Execute(d, t, now, cmd).0, cmd.stream)
    ensures forall other :: other != cmd.stream ==> SameAt(s, Execute(d, s, now, cmd).0, other)
  {
    hide Precheck, Examine, Build, ReadFrom, MemoryAppend;
    ReadsOwnStream(cmd, s, t);
    if Precheck(cmd).None? && ReadFrom(cmd, s).Ok? && Build(d, cmd, ReadFrom(cmd, s).value, now).Ok? {
      AppendIsLocal(s, t, cmd.stream, Build(d, cmd, ReadFrom(cmd, s).value, now).value);
    }
  }

  lemma SameEverywhere(s: StreamMap, t: StreamMap)
    requires forall name :: SameAt(s, t, name)
    ensures s == t
  {
    forall name
      ensures name in s <==> name in t
      ensures name in s ==> s[name] == t[name]
    {
      assert SameAt(s, t, name);
    }
  }

  lemma UseCasesCommute(d: Deployment, s: StreamMap, x: Entry, e: Entry)
    requires x.cmd.stream != e.cmd.stream
    ensures var xFirst, eFirst := Execute(d, s, x.now, x.cmd), Execute(d, s, e.now, e.cmd);
            && Execute(d, xFirst.0, e.now, e.cmd).1 == eFirst.1
            && Execute(d, eFirst.0, x.now, x.cmd) == (Execute(d, xFirst.0, e.now, e.cmd).0, xFirst.1)
  {
    hide Execute;
    var xs, es := Execute(d, s, x.now, x.cmd).0, Execute(d, s, e.now, e.cmd).0;
    var xe, ex := Execute(d, xs, e.now, e.cmd).0, Execute(d, es, x.now, x.cmd).0;
    ExecuteIsLocal(d, s, s, x.now, x.cmd);
    ExecuteIsLocal(d, s, s, e.now, e.cmd);
    ExecuteIsLocal(d, s, xs, e.now, e.cmd);
    ExecuteIsLocal(d, s, es, x.now, x.cmd);
    ExecuteIsLocal(d, xs, s, e.now, e.cmd);
    ExecuteIsLocal(d, es, s, x.now, x.cmd);
    forall name
      ensures SameAt(ex, xe, name)
    {
      assert name != x.cmd.stream ==> SameAt(s, xs, name) && SameAt(es, ex, name);
      assert name != e.cmd.stream ==> SameAt(s, es, name) && SameAt(xs, xe, name);
    }
    SameEverywhere(ex, xe);
  }

  // ---- sorting a history by its readings -------------------------------------------------------

  function ByReading(a: Entry, b: Entry): bool {
    a.now < b.now
  }

  lemma ByReadingOrders()
    ensures WeakOrder(ByReading)
  {
  }

  /** An entry moves before later readings, all of them on other streams. */
  lemma {:induction false} InsertExplains(d: Deployment, log: seq<Entry>, s: StreamMap, e: Entry, s': StreamMap)
    requires Explains(d, log, s) && Execute(d, s, e.now, e.cmd) == (s', e.result)
    requires forall i :: 0 <= i < |log| && e.now < log[i].now ==> log[i].cmd.stream != e.cmd.stream
    ensures Explains(d, Insert(ByReading, log, e), s')
  {
    hide Execute, Explains;
    if log == [] || !ByReading(e, log[|log| - 1]) {
      ExplainsNext(d, log, s, e, s');
    } else {
      var n := |log| - 1;
      var x, before := log[n], log[..n];
      var s0 := ExplainsPrefix(d, log, s);
      UseCasesCommute(d, s0, x, e);
      InsertExplains(d, before, s0, e, Execute(d, s0, e.now, e.cmd).0);
      ExplainsNext(d, Insert(ByReading, before, e), Execute(d, s0, e.now, e.cmd).0, x, s');
    }
  }

  lemma ExplainsPrefix(d: Deployment, log: seq<Entry>, s: StreamMap) returns (s0: StreamMap)
    requires Explains(d, log, s) && log != []
    ensures var n := |log| - 1;
            Explains(d, log[..n], s0) && Execute(d, s0, log[n].now, log[n].cmd) == (s, log[n].result)
  {
    hide Execute;
    var before := log[..|log| - 1];
    s0 := StreamsAfter(d, before);
    forall i | 0 <= i < |before|
      ensures before[i].result == Execute(d, StreamsAfter(d, before[..i]), before[i].now, before[i].cmd).1
    {
      assert before[..i] == log[..i];
    }
  }

  ghost predicate AllGranted(log: seq<Entry>) {
    forall i :: 0 <= i < |log| ==> log[i].result.Ok?
  }

  /** On one stream a later reading comes later. */
  ghost predicate OrderedByStream(log: seq<Entry>) {
    forall i, j :: 0 <= i < j < |log| && log[i].cmd.stream == log[j].cmd.stream ==> log[i].now < log[j].now
  }

  lemma {:induction false} SortExplains(d: Deployment, log: seq<Entry>, s: StreamMap)
    requires Explains(d, log, s) && OrderedByStream(log)
    ensures Explains(d, SortBy(ByReading, log), s)
  {
    hide Execute, Explains;
    if log != [] {
      var n := |log| - 1;
      var sorted := SortBy(ByReading, log[..n]);
      var s0 := ExplainsPrefix(d, log, s);
      SortExplains(d, log[..n], s0);
      ByReadingOrders();
      SortBySorts(ByReading, log[..n]);
      forall i | 0 <= i < |sorted| && log[n].now < sorted[i].now
        ensures sorted[i].cmd.stream != log[n].cmd.stream
      {
        assert sorted[i] in multiset(log[..n]);
      }
      InsertExplains(d, sorted, s0, log[n], s);
    }
  }

  // ---- what was granted is in order stream by stream ----------------------------------------------

  /** A grant is known at its reading, and later than everything on its stream. */
  lemma GrantedExecute(d: Deployment, s: StreamMap, now: Instant, cmd: Command)
    requires GoodStreams(s)
    ensures var (s', r) := Execute(d, s, now, cmd);
            && GoodStreams(s')
            && (r.Ok? ==>
                  && AllBefore(s, cmd.stream, now)
                  && var facts, facts' := FactsOf(s, cmd.stream), FactsOf(s', cmd.stream);
                     |facts'| == |facts| + 1 && facts <= facts' && facts'[|facts|].Known() == now)
  {
    hide Precheck, Examine, Build, ReadFrom, MemoryAppend, Execute, Get;
    EarlyRefusal(d, s, cmd, now);
    if Precheck(cmd).None? && ReadFrom(cmd, s).Ok? && Examine(d, cmd, ReadFrom(cmd, s).value).None? {
      var snapshot := ReadFrom(cmd, s).value;
      LateAnswer(d, s, cmd, snapshot, now);
      if Build(d, cmd, snapshot, now).Ok? {
        var q := Build(d, cmd, snapshot, now).value;
        BuiltRequest(d, cmd, snapshot, now);
        AppendGrows(s, cmd.stream, q);
        AppendRefusals(s, cmd.stream, q);
      }
    }
  }

  ghost predicate KnowsReading(s: StreamMap, name: string, now: Instant) {
    exists k :: 0 <= k < |FactsOf(s, name)| && FactsOf(s, name)[k].Known() == now
  }

  lemma {:induction false} ReadingsAreKnown(d: Deployment, log: seq<Entry>, s: StreamMap)
    requires Explains(d, log, s) && AllGranted(log)
    ensures GoodStreams(s)
    ensures forall i :: 0 <= i < |log| ==> KnowsReading(s, log[i].cmd.stream, log[i].now)
  {
    hide Execute, Explains, GoodStreams;
    if log == [] {
      NothingExplains(d, s);
    } else {
      var n := |log| - 1;
      var s0 := ExplainsPrefix(d, log, s);
      ReadingsAreKnown(d, log[..n], s0);
      GrantedExecute(d, s0, log[n].now, log[n].cmd);
      ExecuteIsLocal(d, s0, s0, log[n].now, log[n].cmd);
      forall i | 0 <= i < |log|
        ensures KnowsReading(s, log[i].cmd.stream, log[i].now)
      {
        if i < n {
          assert KnowsReading(s0, log[..n][i].cmd.stream, log[..n][i].now);
          var k :| 0 <= k < |FactsOf(s0, log[i].cmd.stream)| && FactsOf(s0, log[i].cmd.stream)[k].Known() == log[i].now;
          assert log[i].cmd.stream != log[n].cmd.stream ==> SameAt(s0, s, log[i].cmd.stream);
          assert FactsOf(s, log[i].cmd.stream)[k] == FactsOf(s0, log[i].cmd.stream)[k];
        } else {
          assert FactsOf(s, log[n].cmd.stream)[|FactsOf(s0, log[n].cmd.stream)|].Known() == log[n].now;
        }
      }
    }
  }

  lemma NothingExplains(d: Deployment, s: StreamMap)
    requires Explains(d, [], s)
    ensures GoodStreams(s)
  {
  }

  lemma {:induction false} GrantsAreOrdered(d: Deployment, log: seq<Entry>, s: StreamMap)
    requires Explains(d, log, s) && AllGranted(log)
    ensures OrderedByStream(log)
  {
    hide Execute, Explains, GoodStreams;
    if log != [] {
      var n := |log| - 1;
      var s0 := ExplainsPrefix(d, log, s);
      GrantsAreOrdered(d, log[..n], s0);
      ReadingsAreKnown(d, log[..n], s0);
      GrantedExecute(d, s0, log[n].now, log[n].cmd);
      forall i, j | 0 <= i < j < |log| && log[i].cmd.stream == log[j].cmd.stream
        ensures log[i].now < log[j].now
      {
        assert log[i] == log[..n][i];
        if j < n {
          assert log[j] == log[..n][j];
        } else {
          assert KnowsReading(s0, log[..n][i].cmd.stream, log[..n][i].now);
        }
      }
    }
  }

  // ---- readings of a strict clock --------------------------------------------------------------------

  /** No two grants or pending appends share a reading, and the clock is past them all. */
  ghost predicate FreshReadings(w: World) {
    var granted := GrantedOf(w.log);
    && UNSET <= w.clock
    && (forall p :: p in w.writers && w.writers[p].Ready? ==> UNSET < w.writers[p].now <= w.clock)
    && (forall i :: 0 <= i < |granted| ==> UNSET < granted[i].now <= w.clock)
    && (forall p, q :: p in w.writers && q in w.writers && p != q && w.writers[p].Ready? && w.writers[q].Ready? ==>
          w.writers[p].now != w.writers[q].now)
    && (forall p, i :: p in w.writers && w.writers[p].Ready? && 0 <= i < |granted| ==>
          w.writers[p].now != granted[i].now)
    && (forall i, j :: 0 <= i < j < |granted| ==> granted[i].now != granted[j].now)
  }

  /** Pending appends are among those that were pending before, but for one. */
  ghost predicate StillPending(w: World, w': World, p: int) {
    forall q :: q in w'.writers && w'.writers[q].Ready? && q != p ==> q in w.writers && w.writers[q] == w'.writers[q]
  }

  lemma FreshQuiet(w: World, w': World, p: int)
    requires FreshReadings(w) && w'.clock == w.clock && GrantedOf(w'.log) == GrantedOf(w.log)
    requires StillPending(w, w', p) && (p in w'.writers ==> !w'.writers[p].Ready? || At(w, p) == w'.writers[p])
    ensures FreshReadings(w')
  {
    hide GrantedOf;
  }

  lemma FreshClock(w: World, w': World, p: int)
    requires FreshReadings(w) && w.clock < w'.clock && GrantedOf(w'.log) == GrantedOf(w.log)
    requires StillPending(w, w', p)
    requires p in w'.writers && w'.writers[p].Ready? ==> w'.writers[p].now == w'.clock
    ensures FreshReadings(w')
  {
    hide GrantedOf;
  }

  lemma FreshGrant(w: World, w': World, p: int, e: Entry)
    requires FreshReadings(w) && w'.clock == w.clock && GrantedOf(w'.log) == GrantedOf(w.log) + [e]
    requires At(w, p).Ready? && e.now == At(w, p).now
    requires StillPending(w, w', p) && (p in w'.writers ==> !w'.writers[p].Ready?)
    ensures FreshReadings(w')
  {
    hide GrantedOf;
  }

  lemma StepKeepsFresh(c: Config, w: World, a: Action)
    requires c.strictClock && FreshReadings(w)
    ensures FreshReadings(Step(c, w, a))
  {
    hide FreshReadings, GrantedOf, Precheck, Examine, Build, ReadFrom, MemoryAppend, LockFree;
    var w', p := Step(c, w, a), a.writer;
    if w'.log != w.log {
      var e := w'.log[|w.log|];
      assert w'.log == w.log + [e];
      GrantedNext(w.log, e);
      if a.AppendFact? && e.result.Ok? {
        FreshGrant(w, w', p, e);
        return;
      }
      assert GrantedOf(w'.log) == GrantedOf(w.log);
    }
    if a.ReadClock? && w' != w {
      FreshClock(w, w', p);
    } else {
      FreshQuiet(w, w', p);
    }
  }

  lemma {:induction false} RunKeepsFresh(c: Config, run: seq<Action>)
    requires c.strictClock
    ensures FreshReadings(After(c, run))
  {
    hide Step, FreshReadings;
    if run == [] {
      StartIsFresh();
    } else {
      RunKeepsFresh(c, run[..|run| - 1]);
      StepKeepsFresh(c, After(c, run[..|run| - 1]), run[|run| - 1]);
    }
  }

  lemma StartIsFresh()
    ensures FreshReadings(START)
  {
  }

  lemma SortedIsAdvancing(w: World)
    requires FreshReadings(w)
    ensures Advancing(SortBy(ByReading, GrantedOf(w.log)))
  {
    hide GrantedOf, SortBy;
    var granted := GrantedOf(w.log);
    var order := SortBy(ByReading, granted);
    ByReadingOrders();
    SortBySorts(ByReading, granted);
    forall i | 0 <= i < |order|
      ensures UNSET < order[i].now
    {
      assert order[i] in multiset(granted);
    }
    DistinctSorted(granted, order);
  }

  /** A sorted arrangement of entries with distinct readings is strictly sorted. */
  lemma {:induction false} DistinctSorted(log: seq<Entry>, order: seq<Entry>)
    requires IsSortOf(ByReading, log, order)
    requires forall i, j :: 0 <= i < j < |log| ==> log[i].now != log[j].now
    ensures forall i, j :: 0 <= i < j < |order| ==> order[i].now < order[j].now
  {
    forall i, j | 0 <= i < j < |order|
      ensures order[i].now < order[j].now
    {
      assert !ByReading(order[j], order[i]);
      if order[i].now == order[j].now {
        Twice(log, order, i, j);
      }
    }
  }

  lemma Twice(log: seq<Entry>, order: seq<Entry>, i: nat, j: nat)
    requires multiset(log) == multiset(order) && i < j < |order| && order[i].now == order[j].now
    ensures exists k, m :: 0 <= k < m < |log| && log[k].now == log[m].now
  {
    var x, y := order[i], order[j];
    assert x in multiset(log) && y in multiset(log);
    if x != y {
      var k :| 0 <= k < |log| && log[k] == x;
      var m :| 0 <= m < |log| && log[m] == y;
      if k < m {
        assert log[k].now == log[m].now;
      } else {
        assert log[m].now == log[k].now;
      }
    } else {
      assert order == order[..j] + [order[j]] + order[j + 1..];
      assert x in order[..j] by {
        assert order[..j][i] == x;
      }
      assert multiset(log)[x] >= 2;
      var k :| 0 <= k < |log| && log[k] == x;
      assert log == log[..k] + [log[k]] + log[k + 1..];
      assert x in multiset(log[..k]) + multiset(log[k + 1..]);
      if x in multiset(log[..k]) {
        var m :| 0 <= m < k && log[..k][m] == x;
        assert log[m].now == log[k].now;
      } else {
        var m :| 0 <= m < |log[k + 1..]| && log[k + 1..][m] == x;
        assert log[k].now == log[k + 1 + m].now;
      }
    }
  }

  // ---- the theorem ---------------------------------------------------------------------------------------

  lemma {:induction false} GrantedAreGranted(log: seq<Entry>)
    ensures AllGranted(GrantedOf(log))
  {
    if log != [] {
      GrantedAreGranted(log[..|log| - 1]);
    }
  }

  /** Under an advancing clock, with or without exclusion, the store is what the granted
      commands make of it in the order of their clock readings, whatever order they were
      appended in. */
  lemma RunsFollowTheClock(c: Config, run: seq<Action>)
    requires c.strictClock
    ensures var w := After(c, run);
            var order := SortBy(ByReading, GrantedOf(w.log));
            && multiset(order) == multiset(GrantedOf(w.log)) && Advancing(order)
            && Sequential(c.d, order) && w.streams == StreamsAfter(c.d, order)
  {
    hide After, GrantedOf, SortBy, Execute, FreshReadings, StreamsAfter, Advancing;
    var w := After(c, run);
    var granted := GrantedOf(w.log);
    GrantedRunsSerialise(c, run);
    GrantedAreGranted(w.log);
    GrantsAreOrdered(c.d, granted, w.streams);
    SortExplains(c.d, granted, w.streams);
    ByReadingOrders();
    SortBySorts(ByReading, granted);
    RunKeepsFresh(c, run);
    SortedIsAdvancing(w);
  }

  /** The reachable stores are exactly the stores of sequential histories, at advancing
      readings where the clock advances; regions and lock tables change none of it. */
  lemma ReachableIff(c: Config, streams: StreamMap)
    ensures (exists run :: After(c, run).streams == streams)
       <==> exists log :: && StreamsAfter(c.d, log) == streams && Sequential(c.d, log)
                          && (c.strictClock ==> Advancing(log))
  {
    hide After, StreamsAfter, Sequential, Advancing, GrantedOf, SortBy, Execute;
    if run :| After(c, run).streams == streams {
      if c.strictClock {
        RunsFollowTheClock(c, run);
      } else {
        GrantedRunsSerialise(c, run);
        GrantedIsSequential(c, run);
      }
    }
    if log :| StreamsAfter(c.d, log) == streams && Sequential(c.d, log) && (c.strictClock ==> Advancing(log)) {
      var run := HistoriesAreReachable(c, log);
    }
  }

  lemma GrantedIsSequential(c: Config, run: seq<Action>)
    ensures Sequential(c.d, GrantedOf(After(c, run).log))
  {
    hide After, StreamsAfter, GrantedOf, Execute;
    GrantedRunsSerialise(c, run);
  }
}
