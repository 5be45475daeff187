/** Serialisability with nobody excluded: the writes that were granted are, in the order
    they were granted, a run of the use cases one at a time. */
module ProtocolSerial {
  import opened Results
  import opened Temporal
  import opened Streams
  import opened Stores
  import opened Ledger
  import opened LedgerLaws
  import opened Protocol
  import opened ProtocolSafety

  // ---- the sequential meaning of a log ----------------------------------------------------------

  /** The store after the logged commands ran one at a time, in log order. */
  ghost function StreamsAfter(d: Deployment, log: seq<Entry>): StreamMap {
    if log == [] then map[]
    else
      var e := log[|log| - 1];
      Execute(d, StreamsAfter(d, log[..|log| - 1]), e.now, e.cmd).0
  }

  ghost predicate Sequential(d: Deployment, log: seq<Entry>) {
    forall i :: 0 <= i < |log| ==>
      log[i].result == Execute(d, StreamsAfter(d, log[..i]), log[i].now, log[i].cmd).1
  }

  /** These commands, one at a time, gave these answers and this store. */
  ghost predicate Explains(d: Deployment, log: seq<Entry>, streams: StreamMap) {
    Sequential(d, log) && streams == StreamsAfter(d, log)
  }

  lemma ExplainsNext(d: Deployment, log: seq<Entry>, streams: StreamMap, e: Entry, streams': StreamMap)
    requires Explains(d, log, streams) && Execute(d, streams, e.now, e.cmd) == (streams', e.result)
    ensures Explains(d, log + [e], streams')
  {
    hide Execute;
    var more := log + [e];
    assert more[..|log|] == log;
    forall i | 0 <= i < |more|
      ensures more[i].result == Execute(d, StreamsAfter(d, more[..i]), more[i].now, more[i].cmd).1
    {
      if i < |log| {
        assert more[..i] == log[..i];
      }
    }
  }

  // ---- the granted writes -------------------------------------------------------------------------

  /** The log entries that were granted a reference. */
  ghost function GrantedOf(log: seq<Entry>): seq<Entry> {
    if log == [] then []
    else
      var e := log[|log| - 1];
      GrantedOf(log[..|log| - 1]) + if e.result.Ok? then [e] else []
  }

  lemma GrantedNext(log: seq<Entry>, e: Entry)
    ensures GrantedOf(log + [e]) == GrantedOf(log) + if e.result.Ok? then [e] else []
  {
    assert (log + [e])[..|log + [e]| - 1] == log;
  }

  /** An accepted append is the whole use case, run alone where the append happened:
      AtLength makes what was read what is there. */
  lemma AcceptedIsAlone(d: Deployment, streams: StreamMap, state: Writer)
    requires GoodStreams(streams) && state.Ready? && WriterOk(d, streams, state)
    requires MemoryAppend(streams, state.cmd.stream, state.request).1.Ok?
    ensures Execute(d, streams, state.now, state.cmd) == MemoryAppend(streams, state.cmd.stream, state.request)
  {
    hide Precheck, Build, Examine, MemoryAppend, Execute, Get;
    var Ready(cmd, snapshot, now, q) := state;
    AcceptedAppend(d, streams, state);
    AppendGrows(streams, cmd.stream, q);
    if Reads(cmd) {
      if cmd.stream !in streams && !cmd.MintIdentity? {
        NothingToExamine(d, cmd, snapshot);
        assert false;
      }
      assert ReadFrom(cmd, streams) == Ok(snapshot);
      LateAnswer(d, streams, cmd, snapshot, now);
    } else {
      var s := Stream(cmd.stream, []);
      StatedIgnoresSnapshot(d, cmd, snapshot, s, now);
      LateAnswer(d, streams, cmd, s, now);
    }
  }

  lemma NothingToExamine(d: Deployment, cmd: Command, s: Stream)
    requires cmd.CorrectFact? || cmd.ObserveClaimedHolding?
    requires s.facts == []
    ensures Examine(d, cmd, s).Some?
  {
  }

  lemma StatedIgnoresSnapshot(d: Deployment, cmd: Command, s: Stream, t: Stream, now: Instant)
    requires !Reads(cmd)
    ensures Build(d, cmd, s, now) == Build(d, cmd, t, now) && Examine(d, cmd, t).None?
  {
  }

  /** A step grants one write or refuses one or answers nobody; only a grant touches a
      stream, and then it does what the use case alone would do. */
  ghost predicate GrantsAlone(d: Deployment, w: World, w': World) {
    || (w'.log == w.log && w'.streams == w.streams)
    || exists e :: && w'.log == w.log + [e]
                   && if e.result.Ok? then Execute(d, w.streams, e.now, e.cmd) == (w'.streams, e.result)
                      else w'.streams == w.streams
  }

  lemma StepGrantsAlone(c: Config, w: World, a: Action)
    requires Inv(c, w)
    ensures GrantsAlone(c.d, w, Step(c, w, a))
  {
    hide Inv, Precheck, Examine, Build, ReadFrom, MemoryAppend, Execute, LockFree, WriterOk;
    var state, w' := At(w, a.writer), Step(c, w, a);
    if a.AppendFact? && state.Ready? {
      GoodWriter(c, w, a.writer);
      AppendGrows(w.streams, state.cmd.stream, state.request);
      if MemoryAppend(w.streams, state.cmd.stream, state.request).1.Ok? {
        AcceptedIsAlone(c.d, w.streams, state);
      }
      assert w'.log == w.log + [w'.log[|w.log|]];
    } else if w'.log != w.log {
      assert w'.log == w.log + [w'.log[|w.log|]];
    }
  }

  lemma GoodWriter(c: Config, w: World, p: int)
    requires Inv(c, w) && p in w.writers
    ensures GoodStreams(w.streams) && WriterOk(c.d, w.streams, w.writers[p])
  {
    hide WriterOk, Lawful, GoodStream;
  }

  /** With no exclusion and any clock, the store is what the granted commands make of it
      one at a time, in the order of their grants, and each was granted the reference it
      would have got alone.  Refused commands leave no mark. */
  lemma {:induction false} GrantedRunsSerialise(c: Config, run: seq<Action>)
    ensures var w := After(c, run);
            var granted := GrantedOf(w.log);
            && w.streams == StreamsAfter(c.d, granted)
            && forall i :: 0 <= i < |granted| ==>
                 granted[i].result
                   == Execute(c.d, StreamsAfter(c.d, granted[..i]), granted[i].now, granted[i].cmd).1
  {
    hide Step, Execute, Inv;
    if run != [] {
      var before, a := run[..|run| - 1], run[|run| - 1];
      var w, w' := After(c, before), After(c, run);
      GrantedRunsSerialise(c, before);
      assert Explains(c.d, GrantedOf(w.log), w.streams);
      RunKeepsInv(c, before);
      StepGrantsAlone(c, w, a);
      GrantExplains(c.d, w, w');
    }
  }

  lemma GrantExplains(d: Deployment, w: World, w': World)
    requires Explains(d, GrantedOf(w.log), w.streams) && GrantsAlone(d, w, w')
    ensures Explains(d, GrantedOf(w'.log), w'.streams)
  {
    hide Execute, Explains, GrantedOf;
    if w'.log != w.log {
      var e :| && w'.log == w.log + [e]
               && if e.result.Ok? then Execute(d, w.streams, e.now, e.cmd) == (w'.streams, e.result)
                  else w'.streams == w.streams;
      GrantedNext(w.log, e);
      if e.result.Ok? {
        ExplainsNext(d, GrantedOf(w.log), w.streams, e, w'.streams);
      } else {
        assert GrantedOf(w'.log) == GrantedOf(w.log);
      }
    }
  }
}
