/** What exclusive regions and an advancing clock add: every run is a sequential one,
    nothing well-meant is refused, and admission depends on the submission alone. */
module ProtocolExclusion {
  import opened Results
  import opened Temporal
  import opened Identity
  import opened Facts
  import opened Streams
  import opened Resolution
  import opened Provenance
  import opened Stores
  import opened Ledger
  import opened LedgerLaws
  import opened Outcomes
  import opened Protocol
  import opened ProtocolSafety
  import opened ProtocolSerial

  // ---- regions exclude ------------------------------------------------------------------------

  ghost predicate Mutex(c: Config, w: World) {
    forall p, q :: p in w.writers && q in w.writers && p != q && w.writers[p].InRegion() && w.writers[q].InRegion() ==>
      c.lockOf(w.writers[p].cmd.stream) != c.lockOf(w.writers[q].cmd.stream)
  }

  /** Inside a region, what was read is what is there. */
  ghost predicate Current(w: World) {
    forall p :: p in w.writers && (w.writers[p].Decided? || w.writers[p].Ready?) ==>
      ReadFrom(w.writers[p].cmd, w.streams) == Ok(w.writers[p].snapshot)
  }

  /** The log is a sequential history of the store. */
  ghost predicate Serial(d: Deployment, w: World) {
    Explains(d, w.log, w.streams)
  }

  ghost predicate Exclusive(c: Config, w: World) {
    Inv(c, w) && Mutex(c, w) && Current(w) && Serial(c.d, w)
  }

  // ---- one step ------------------------------------------------------------------------------------

  /** A step answers its writer with what the use case would do alone, or logs nothing
      and leaves the store as it is. */
  ghost predicate AnswersAlone(d: Deployment, w: World, w': World) {
    if w'.log == w.log then w'.streams == w.streams
    else
      && |w'.log| == |w.log| + 1 && w'.log[..|w.log|] == w.log
      && var e := w'.log[|w.log|]; Execute(d, w.streams, e.now, e.cmd) == (w'.streams, e.result)
  }

  lemma StepAnswersAlone(c: Config, w: World, a: Action)
    requires WritersOk(c.d, w) && Current(w)
    ensures AnswersAlone(c.d, w, Step(c, w, a))
  {
    hide Precheck, Examine, Build, ReadFrom, MemoryAppend, Execute, LockFree, SnapshotOk;
    var state := At(w, a.writer);
    match a
    case Submit(p, cmd) => EarlyRefusal(c.d, w.streams, cmd, w.clock);
    case Load(p) =>
      if state.Inside? {
        EarlyRefusal(c.d, w.streams, state.cmd, w.clock);
      }
    case ReadClock(p, now) =>
      if state.Decided? {
        LateAnswer(c.d, w.streams, state.cmd, state.snapshot, now);
      }
    case AppendFact(p) =>
      if state.Ready? {
        LateAnswer(c.d, w.streams, state.cmd, state.snapshot, state.now);
      }
    case _ =>
  }

  lemma SerialKept(d: Deployment, w: World, w': World)
    requires Serial(d, w) && AnswersAlone(d, w, w')
    ensures Serial(d, w')
  {
    hide Execute, Explains;
    if w'.log != w.log {
      var e := w'.log[|w.log|];
      assert w'.log == w.log + [e];
      ExplainsNext(d, w.log, w.streams, e, w'.streams);
    }
  }

  lemma MutexKept(c: Config, w: World, a: Action)
    requires c.exclusive && Mutex(c, w)
    ensures Mutex(c, Step(c, w, a))
  {
    hide Precheck, Examine, Build, ReadFrom, MemoryAppend;
  }

  /** What a command reads depends on its own stream only. */
  lemma ReadsOwnStream(cmd: Command, streams: StreamMap, streams': StreamMap)
    requires cmd.stream in streams <==> cmd.stream in streams'
    requires cmd.stream in streams ==> streams'[cmd.stream] == streams[cmd.stream]
    ensures ReadFrom(cmd, streams') == ReadFrom(cmd, streams)
  {
  }

  lemma AppendTouchesOne(streams: StreamMap, name: string, q: Request, other: string)
    requires other != name
    ensures other in streams <==> other in MemoryAppend(streams, name, q).0
    ensures other in streams ==> MemoryAppend(streams, name, q).0[other] == streams[other]
  {
  }

  lemma CurrentKept(c: Config, w: World, a: Action)
    requires c.exclusive && Mutex(c, w) && Current(w)
    ensures Current(Step(c, w, a))
  {
    hide Precheck, Examine, Build, ReadFrom, MemoryAppend, LockFree, Mutex;
    var w' := Step(c, w, a);
    forall p | p in w'.writers && (w'.writers[p].Decided? || w'.writers[p].Ready?)
      ensures ReadFrom(w'.writers[p].cmd, w'.streams) == Ok(w'.writers[p].snapshot)
    {
      if a.AppendFact? && At(w, a.writer).Ready? {
        var state := At(w, a.writer);
        Neighbours(c, w, a.writer, p);
        AppendTouchesOne(w.streams, state.cmd.stream, state.request, w.writers[p].cmd.stream);
        ReadsOwnStream(w.writers[p].cmd, w.streams, w'.streams);
      }
    }
  }

  /** Two writers in regions are on different streams, whatever the lock table. */
  lemma Neighbours(c: Config, w: World, p: int, q: int)
    requires Mutex(c, w) && p != q && At(w, p).InRegion() && At(w, q).InRegion()
    ensures At(w, p).cmd.stream != At(w, q).cmd.stream
  {
  }

  lemma StepKeepsExclusive(c: Config, w: World, a: Action)
    requires c.exclusive && Exclusive(c, w)
    ensures Exclusive(c, Step(c, w, a))
  {
    hide Step, Mutex, Current, Serial, StreamsOk, LogOk, WritersOk, AnswersAlone;
    StepKeepsInv(c, w, a);
    MutexKept(c, w, a);
    CurrentKept(c, w, a);
    StepAnswersAlone(c, w, a);
    SerialKept(c.d, w, Step(c, w, a));
  }

  lemma {:induction false} RunKeepsExclusive(c: Config, run: seq<Action>)
    requires c.exclusive
    ensures Exclusive(c, After(c, run))
  {
    hide Exclusive, Step;
    if run == [] {
      StartIsExclusive(c);
    } else {
      RunKeepsExclusive(c, run[..|run| - 1]);
      StepKeepsExclusive(c, After(c, run[..|run| - 1]), run[|run| - 1]);
    }
  }

  lemma StartIsExclusive(c: Config)
    ensures Exclusive(c, START)
  {
    StartIsOk(c);
  }

  /** Bodies for one stream never overlap, under any lock table. */
  lemma {:induction false} RegionsNeverOverlap(c: Config, run: seq<Action>, p: int, q: int)
    requires c.exclusive && p != q
    requires At(After(c, run), p).InRegion() && At(After(c, run), q).InRegion()
    ensures At(After(c, run), p).cmd.stream != At(After(c, run), q).cmd.stream
  {
    hide After, Inv, Current, Serial;
    RunKeepsExclusive(c, run);
    Neighbours(c, After(c, run), p, q);
  }

  /** Every interleaving is equivalent to running the answered commands one at a time,
      in the order they were answered: same store, same answers. */
  lemma RunsAreSequential(c: Config, run: seq<Action>)
    requires c.exclusive
    ensures var w := After(c, run);
            && w.streams == StreamsAfter(c.d, w.log)
            && forall i :: 0 <= i < |w.log| ==>
                 w.log[i].result == Execute(c.d, StreamsAfter(c.d, w.log[..i]), w.log[i].now, w.log[i].cmd).1
  {
    hide After, Inv, Current, Mutex, Execute;
    RunKeepsExclusive(c, run);
  }

  // ---- an advancing clock ------------------------------------------------------------------------------

  ghost predicate KnownBy(streams: StreamMap, name: string, now: Instant) {
    AllBefore(streams, name, now + 1)
  }

  /** Everything recorded was known by now; a writer with a reading is ahead of its stream. */
  ghost predicate Timely(w: World) {
    && UNSET <= w.clock
    && (forall name :: KnownBy(w.streams, name, w.clock))
    && (forall p :: p in w.writers && w.writers[p].Ready? ==>
          && UNSET < w.writers[p].now <= w.clock
          && AllBefore(w.streams, w.writers[p].cmd.stream, w.writers[p].now))
  }

  predicate RaceRefusal(r: Result<Ref>) {
    r == Err(ErrStaleRead) || r == Err(ErrNonMonotonicKnowledge)
  }

  /** Both admitted, or both refused for the same reason. */
  predicate SameVerdict(r: Result<Ref>, r': Result<Ref>) {
    if r.Ok? then r'.Ok? else r == r'
  }

  /** The answer is no accident of timing: not a race, and for a submission exactly
      what Check says of it. */
  ghost predicate Clean(d: Deployment, cmd: Command, r: Result<Ref>) {
    && !RaceRefusal(r)
    && (cmd.AcceptHoldingClaim? ==> SameVerdict(r, Execute(d, map[], 0, cmd).1))
  }

  ghost predicate LogClean(d: Deployment, w: World) {
    forall i :: 0 <= i < |w.log| ==> Clean(d, w.log[i].cmd, w.log[i].result)
  }

  lemma RefusalsAreNotRaces(d: Deployment, cmd: Command, s: Stream, now: Instant)
    ensures Precheck(cmd).Some? ==> !RaceRefusal(Err(Precheck(cmd).value))
    ensures Examine(d, cmd, s).Some? ==> !RaceRefusal(Err(Examine(d, cmd, s).value))
    ensures Build(d, cmd, s, now).Err? ==> !RaceRefusal(Err(Build(d, cmd, s, now).error))
  {
    hide Precheck, Get, Resolve, MintFor, DeriveHoldingObserved, Seal;
    PrecheckErrors(cmd);
    MintErrors(d, cmd);
    SealErrors();
    if cmd.ObserveClaimedHolding? && Get(s, cmd.claimRef).Ok? {
      ObservationErrors(d, s, Get(s, cmd.claimRef).value, cmd.asOf);
    }
    GetErrors(s);
  }

  lemma PrecheckErrors(cmd: Command)
    ensures Precheck(cmd).Some? ==> !RaceRefusal(Err(Precheck(cmd).value))
  {
  }

  lemma GetErrors(s: Stream)
    ensures forall ref :: Get(s, ref).Err? ==> Get(s, ref).error == ErrNotFound
  {
  }

  lemma SealErrors()
    ensures forall effective, now, o, confidence, references ::
              Seal(effective, now, ObservedBy(o, confidence), references).Err? ==>
                !RaceRefusal(Err(Seal(effective, now, ObservedBy(o, confidence), references).error))
    ensures forall effective, now, o, trace, confidence, references ::
              Seal(effective, now, DerivedBy(o, trace, confidence), references).Err? ==>
                !RaceRefusal(Err(Seal(effective, now, DerivedBy(o, trace, confidence), references).error))
  {
  }

  lemma MintErrors(d: Deployment, cmd: Command)
    ensures cmd.MintIdentity? ==> forall answers ::
              var r := MintFor(d.platform, d.rules, cmd.kind, cmd.claim, answers, cmd.confidence);
              r.Err? ==> !RaceRefusal(Err(r.error))
  {
    hide ClaimPreimage, CanonicaliseSeed, FoldClaim, CanonicalSeed,
         EntityKindName, DerivationPreimage;
  }

  lemma ObservationErrors(d: Deployment, s: Stream, claimed: Fact, asOf: AsOf)
    ensures var r := DeriveHoldingObserved(d.platform, d.rules, s, claimed, asOf);
            r.Err? ==> !RaceRefusal(Err(r.error))
  {
    hide FirstAnswer, VisibleAt, DerivationPreimage;
  }

  /** Run alone on a stream it is ahead of, a use case never loses a race. */
  lemma AloneIsClean(d: Deployment, streams: StreamMap, now: Instant, cmd: Command)
    requires GoodStreams(streams) && AllBefore(streams, cmd.stream, now) && now != UNSET
    ensures Clean(d, cmd, Execute(d, streams, now, cmd).1)
  {
    hide Precheck, Examine, Build, MemoryAppend, Execute, GoodStreams;
    EarlyRefusal(d, streams, cmd, now);
    ReadErrors(cmd, streams);
    if Precheck(cmd).None? && ReadFrom(cmd, streams).Ok? {
      var s := ReadFrom(cmd, streams).value;
      RefusalsAreNotRaces(d, cmd, s, now);
      if Examine(d, cmd, s).None? {
        LateAnswer(d, streams, cmd, s, now);
        if Build(d, cmd, s, now).Ok? {
          BuiltRequest(d, cmd, s, now);
          if Reads(cmd) {
            ReadLength(cmd, streams);
          }
          AppendRefusals(streams, cmd.stream, Build(d, cmd, s, now).value);
        }
      }
    } else {
      RefusalsAreNotRaces(d, cmd, Stream("", []), now);
    }
    if cmd.AcceptHoldingClaim? {
      VerdictIsOwn(d, streams, now, cmd);
    }
  }

  lemma ReadErrors(cmd: Command, streams: StreamMap)
    ensures ReadFrom(cmd, streams).Err? ==> !RaceRefusal(Err(ReadFrom(cmd, streams).error))
  {
  }

  lemma ReadLength(cmd: Command, streams: StreamMap)
    requires Reads(cmd) && ReadFrom(cmd, streams).Ok?
    ensures |ReadFrom(cmd, streams).value.facts| == |FactsOf(streams, cmd.stream)|
  {
  }

  /** An admission verdict depends only on the command. */
  lemma VerdictIsOwn(d: Deployment, streams: StreamMap, now: Instant, cmd: Command)
    requires GoodStreams(streams) && AllBefore(streams, cmd.stream, now) && now != UNSET
    requires cmd.AcceptHoldingClaim?
    ensures SameVerdict(Execute(d, streams, now, cmd).1, Execute(d, map[], 0, cmd).1)
  {
    hide IsContentAddress, Observed;
    var facts := FactsOf(streams, cmd.stream);
    assert facts != [] ==> facts[|facts| - 1].Known() < now;
  }

  // ---- one step, in time ---------------------------------------------------------------------------------

  lemma BeforeGrows(streams: StreamMap, name: string, a: Instant, b: Instant)
    requires AllBefore(streams, name, a) && a <= b
    ensures AllBefore(streams, name, b)
  {
  }

  lemma AppendBefore(d: Deployment, streams: StreamMap, state: Writer, name: string, now: Instant)
    requires GoodStreams(streams) && state.Ready? && WriterOk(d, streams, state)
    requires AllBefore(streams, name, now) && (name == state.cmd.stream ==> state.now < now)
    ensures AllBefore(MemoryAppend(streams, state.cmd.stream, state.request).0, name, now)
  {
    hide Precheck, Examine, Build, MemoryAppend, Get, GoodStreams;
    BuiltRequest(d, state.cmd, state.snapshot, state.now);
    AppendGrows(streams, state.cmd.stream, state.request);
    var streams' := MemoryAppend(streams, state.cmd.stream, state.request).0;
    forall i | 0 <= i < |FactsOf(streams', name)|
      ensures FactsOf(streams', name)[i].Known() < now
    {
      if i < |FactsOf(streams, name)| {
        assert FactsOf(streams', name)[i] == FactsOf(streams, name)[i];
      }
    }
  }

  lemma StepKeepsTimely(c: Config, w: World, a: Action)
    requires c.strictClock && Inv(c, w) && Mutex(c, w) && Timely(w)
    ensures Timely(Step(c, w, a))
  {
    hide Precheck, Examine, Build, ReadFrom, MemoryAppend, LockFree, StreamsOk, LogOk, WritersOk, AllBefore, Mutex;
    var w' := Step(c, w, a);
    if a.AppendFact? && At(w, a.writer).Ready? {
      AppendTimely(c, w, a.writer);
    } else if a.ReadClock? && w'.clock != w.clock {
      forall name
        ensures KnownBy(w.streams, name, w'.clock) && AllBefore(w.streams, name, w'.clock)
      {
        assert KnownBy(w.streams, name, w.clock);
        BeforeGrows(w.streams, name, w.clock + 1, w'.clock + 1);
        BeforeGrows(w.streams, name, w.clock + 1, w'.clock);
      }
    }
  }

  lemma AppendTimely(c: Config, w: World, p: int)
    requires Inv(c, w) && Mutex(c, w) && Timely(w) && At(w, p).Ready?
    ensures Timely(DoAppend(w, p))
  {
    hide MemoryAppend, AllBefore, Mutex, Lawful, LogOk, WriterOk, GoodStreams;
    var w', state := DoAppend(w, p), At(w, p);
    forall name
      ensures KnownBy(w'.streams, name, w'.clock)
    {
      assert KnownBy(w.streams, name, w.clock);
      AppendBefore(c.d, w.streams, state, name, w.clock + 1);
    }
    forall q | q in w'.writers && w'.writers[q].Ready?
      ensures AllBefore(w'.streams, w'.writers[q].cmd.stream, w'.writers[q].now)
    {
      Neighbours(c, w, p, q);
      AppendBefore(c.d, w.streams, state, w.writers[q].cmd.stream, w.writers[q].now);
    }
  }

  lemma StepKeepsClean(c: Config, w: World, a: Action)
    requires c.strictClock && Exclusive(c, w) && Timely(w) && LogClean(c.d, w)
    ensures LogClean(c.d, Step(c, w, a))
  {
    hide Precheck, Examine, Build, ReadFrom, MemoryAppend, LockFree, Execute, Clean, AllBefore, Lawful, LogOk, WriterOk,
         Mutex, Serial, GoodStreams;
    var w' := Step(c, w, a);
    StepAnswersAlone(c, w, a);
    if w'.log != w.log {
      var e := w'.log[|w.log|];
      assert w'.log == w.log + [e];
      AnsweredInTime(c, w, a);
      forall i | 0 <= i < |w'.log|
        ensures Clean(c.d, w'.log[i].cmd, w'.log[i].result)
      {
      }
    }
  }

  /** Whatever a step answers, the use case alone would answer at a reading ahead of its stream. */
  lemma AnsweredInTime(c: Config, w: World, a: Action)
    requires c.strictClock && Exclusive(c, w) && Timely(w) && Step(c, w, a).log != w.log
    ensures var w' := Step(c, w, a);
            |w'.log| == |w.log| + 1 && Clean(c.d, w'.log[|w.log|].cmd, w'.log[|w.log|].result)
  {
    hide Precheck, Examine, Build, ReadFrom, MemoryAppend, LockFree, Execute, Clean, AllBefore, Lawful, LogOk,
         SnapshotOk, Mutex, Serial, GoodStreams;
    var state, later := At(w, a.writer), w.clock + 1;
    match a
    case Submit(p, cmd) =>
      assert KnownBy(w.streams, cmd.stream, w.clock);
      EarlyRefusal(c.d, w.streams, cmd, later);
      AloneIsClean(c.d, w.streams, later, cmd);
    case Load(p) =>
      assert KnownBy(w.streams, state.cmd.stream, w.clock);
      EarlyRefusal(c.d, w.streams, state.cmd, later);
      AloneIsClean(c.d, w.streams, later, state.cmd);
    case ReadClock(p, now) =>
      LateAnswer(c.d, w.streams, state.cmd, state.snapshot, now);
      assert KnownBy(w.streams, state.cmd.stream, w.clock);
      BeforeGrows(w.streams, state.cmd.stream, w.clock + 1, now);
      AloneIsClean(c.d, w.streams, now, state.cmd);
    case AppendFact(p) =>
      LateAnswer(c.d, w.streams, state.cmd, state.snapshot, state.now);
      AloneIsClean(c.d, w.streams, state.now, state.cmd);
    case _ =>
  }

  lemma {:induction false} RunStaysClean(c: Config, run: seq<Action>)
    requires c.exclusive && c.strictClock
    ensures Timely(After(c, run)) && LogClean(c.d, After(c, run))
  {
    hide Step, Timely, LogClean, Mutex, Current, Serial, Inv;
    if run == [] {
      StartIsTimely(c);
    } else {
      var before := run[..|run| - 1];
      RunStaysClean(c, before);
      RunKeepsExclusive(c, before);
      StepKeepsTimely(c, After(c, before), run[|run| - 1]);
      StepKeepsClean(c, After(c, before), run[|run| - 1]);
    }
  }

  lemma StartIsTimely(c: Config)
    ensures Timely(START) && LogClean(c.d, START)
  {
  }

  /** With regions and an advancing clock no writer, in any interleaving, is told its
      read went stale or its knowledge came too late. */
  lemma NothingIsRefused(c: Config, run: seq<Action>, k: nat)
    requires c.exclusive && c.strictClock && k < |After(c, run).log|
    ensures After(c, run).log[k].result != Err(ErrStaleRead)
    ensures After(c, run).log[k].result != Err(ErrNonMonotonicKnowledge)
  {
    hide After, Execute;
    RunStaysClean(c, run);
    assert Clean(c.d, After(c, run).log[k].cmd, After(c, run).log[k].result);
  }

  /** ... and every submission gets the verdict Check gives it on an empty ledger. */
  lemma AdmissionAgreesWithCheck(c: Config, run: seq<Action>, k: nat)
    requires c.exclusive && c.strictClock && k < |After(c, run).log|
    requires After(c, run).log[k].cmd.AcceptHoldingClaim?
    ensures var e := After(c, run).log[k];
            && (e.result.Ok? <==> Execute(c.d, map[], 0, e.cmd).1.Ok?)
            && (e.result.Err? ==> e.result == Execute(c.d, map[], 0, e.cmd).1)
  {
    hide After, Execute;
    RunStaysClean(c, run);
    assert Clean(c.d, After(c, run).log[k].cmd, After(c, run).log[k].result);
  }

  // ---- and why regions exist -------------------------------------------------------------------------------

  /** Where two writers stand after both have read the clock, in that order. */
  ghost predicate BothReady(w: World, cmd: Command, q0: Request, q1: Request) {
    && w.streams == map[] && w.log == []
    && At(w, 0).Ready? && At(w, 0).cmd == cmd && At(w, 0).request == q0
    && At(w, 1).Ready? && At(w, 1).cmd == cmd && At(w, 1).request == q1
  }

  /** Take the exclusion away and two submissions of one valid claim are enough: the
      writer that read the clock first and appended last is refused. */
  lemma RacesWithoutRegions(c: Config, cmd: Command, t0: Instant, t1: Instant) returns (run: seq<Action>)
    requires !c.exclusive && UNSET < t0 < t1
    requires cmd.AcceptHoldingClaim? && Admits(cmd, t0) && cmd.stream != ""
    ensures |After(c, run).log| == 2
    ensures After(c, run).log[0].result.Ok?
    ensures After(c, run).log[1].result == Err(ErrNonMonotonicKnowledge)
  {
    hide After, Step, Precheck, MemoryAppend, BuildStated, BothReady, Admits;
    AdmitsBuilds(cmd, t0);
    var ready := RaceToReady(c, cmd, t0, t1);
    var q0, q1 := BuildStated(cmd, t0).value, BuildStated(cmd, t1).value;
    run := ready + [AppendFact(1)] + [AppendFact(0)];
    Next(c, ready, AppendFact(1));
    Next(c, ready + [AppendFact(1)], AppendFact(0));
    LosingAppend(c, After(c, ready), cmd, t0, t1);
  }

  lemma AdmitsBuilds(cmd: Command, now: Instant)
    requires cmd.AcceptHoldingClaim? && Admits(cmd, now)
    ensures Precheck(cmd).None? && BuildStated(cmd, now).Ok?
  {
    DigestedIffAddress(cmd.origin.source);
  }

  lemma LosingAppend(c: Config, w: World, cmd: Command, t0: Instant, t1: Instant)
    requires cmd.AcceptHoldingClaim? && cmd.stream != "" && t0 < t1
    requires BuildStated(cmd, t0).Ok? && BuildStated(cmd, t1).Ok?
    requires BothReady(w, cmd, BuildStated(cmd, t0).value, BuildStated(cmd, t1).value)
    ensures var w' := Step(c, Step(c, w, AppendFact(1)), AppendFact(0));
            |w'.log| == 2 && w'.log[0].result.Ok? && w'.log[1].result == Err(ErrNonMonotonicKnowledge)
  {
    hide Build, Observed;
    StatedRequest(c.d, cmd, t0);
    StatedRequest(c.d, cmd, t1);
  }

  lemma StatedRequest(d: Deployment, cmd: Command, now: Instant)
    requires cmd.AcceptHoldingClaim? && BuildStated(cmd, now).Ok?
    ensures var q := BuildStated(cmd, now).value;
            && q.precondition == Any && q.envelope.coordinates.knowledge == now
            && NewFact(Ref(cmd.stream, 1), q.envelope, q.kind, q.payload).Ok?
  {
    BuiltRequest(d, cmd, Stream(cmd.stream, []), now);
  }

  lemma RaceToReady(c: Config, cmd: Command, t0: Instant, t1: Instant) returns (run: seq<Action>)
    requires !c.exclusive && UNSET < t0 < t1
    requires cmd.AcceptHoldingClaim? && Precheck(cmd).None? && BuildStated(cmd, t0).Ok?
    ensures BuildStated(cmd, t1).Ok?
    ensures BothReady(After(c, run), cmd, BuildStated(cmd, t0).value, BuildStated(cmd, t1).value)
  {
    hide After, Step, Precheck, BuildStated;
    assert BuildStated(cmd, t1).Ok? by {
      LaterStillBuilds(cmd, t0, t1);
    }
    var s := Stream(cmd.stream, []);
    Beginning(c);
    var first := ToDecided(c, [], 0, cmd);
    var second := ToDecided(c, first, 1, cmd);
    run := second + [ReadClock(0, t0)] + [ReadClock(1, t1)];
    Next(c, second, ReadClock(0, t0));
    Next(c, second + [ReadClock(0, t0)], ReadClock(1, t1));
    ClocksRead(c, After(c, second), cmd, s, t0, t1);
  }

  lemma LaterStillBuilds(cmd: Command, t0: Instant, t1: Instant)
    requires cmd.AcceptHoldingClaim? && BuildStated(cmd, t0).Ok? && t1 != UNSET
    ensures BuildStated(cmd, t1).Ok?
  {
  }

  lemma ClocksRead(c: Config, w: World, cmd: Command, s: Stream, t0: Instant, t1: Instant)
    requires UNSET < t0 < t1 && w.clock == UNSET && w.streams == map[] && w.log == []
    requires At(w, 0) == Decided(cmd, s) && At(w, 1) == Decided(cmd, s)
    requires cmd.AcceptHoldingClaim? && BuildStated(cmd, t0).Ok? && BuildStated(cmd, t1).Ok?
    ensures BothReady(Step(c, Step(c, w, ReadClock(0, t0)), ReadClock(1, t1)), cmd,
                      BuildStated(cmd, t0).value, BuildStated(cmd, t1).value)
  {
    hide BuildStated;
  }

  /** With nobody excluded a writer gets to its decision in three steps. */
  lemma ToDecided(c: Config, run: seq<Action>, p: int, cmd: Command) returns (more: seq<Action>)
    requires !c.exclusive && cmd.AcceptHoldingClaim? && Precheck(cmd).None? && At(After(c, run), p).Idle?
    ensures var w, w' := After(c, run), After(c, more);
            && w' == Move(w, p, Decided(cmd, Stream(cmd.stream, [])))
  {
    hide After, Step, Precheck;
    var a, b, e := Submit(p, cmd), Enter(p), Load(p);
    Next(c, run, a);
    Next(c, run + [a], b);
    Next(c, run + [a] + [b], e);
    more := run + [a] + [b] + [e];
    ThreeSteps(c, After(c, run), p, cmd);
  }

  lemma ThreeSteps(c: Config, w: World, p: int, cmd: Command)
    requires !c.exclusive && cmd.AcceptHoldingClaim? && Precheck(cmd).None? && At(w, p).Idle?
    ensures Step(c, Step(c, Step(c, w, Submit(p, cmd)), Enter(p)), Load(p))
         == Move(w, p, Decided(cmd, Stream(cmd.stream, [])))
  {
    hide Precheck, LockFree;
  }
}
