/** The use cases over the durable store: the same answers as over the reference
    store, for every history of well-formed commands. */
module SqliteLedger {
  import opened Results
  import opened Text
  import opened Temporal
  import opened Sorting
  import opened External
  import opened Identity
  import opened Provenance
  import opened Facts
  import opened Streams
  import opened Resolution
  import opened Stores
  import opened Wire
  import opened Sqlite
  import opened StoreAgreement
  import opened Ledger
  import opened LedgerLaws
  import opened Protocol
  import opened ProtocolSafety
  import opened ProtocolSerial
  import opened ProtocolExclusion

  function SqlReadFrom(d: Deployment, cmd: Command, rows: Table): Result<Stream> {
    if Reads(cmd) then Snapshot(cmd, SqlLoad(d.platform.cases, rows, cmd.stream)) else Ok(Stream(cmd.stream, []))
  }

  /** A whole use case in one SQLite region. */
  function SqlExecute(d: Deployment, rows: Table, now: Instant, cmd: Command): (Table, Result<Ref>) {
    if Precheck(cmd).Some? then (rows, Err(Precheck(cmd).value))
    else
      match SqlReadFrom(d, cmd, rows)
      case Err(e) => (rows, Err(e))
      case Ok(s) =>
        if Examine(d, cmd, s).Some? then (rows, Err(Examine(d, cmd, s).value))
        else
          match Build(d, cmd, s, now)
          case Err(e) => (rows, Err(e))
          case Ok(q) => SqlAppend(rows, cmd.stream, q)
  }

  // ---- what the constructors of a command guarantee ---------------------------------------------

  ghost predicate OriginOk(o: Origin) {
    !Blank(o.source) && !Blank(o.interpreter.name) && !Blank(o.interpreter.version)
  }

  /** The parts of the command came out of the kernel's constructors. */
  ghost predicate CommandOk(cases: CaseTables, cmd: Command) {
    && cmd.stream != "" && OriginOk(cmd.origin)
    && match cmd
       case ObserveHolding(_, h, effective, _, _, references) =>
         WellFormedPayload(cases, HoldingObserved(h)) && effective.Valid() && WellFormedBindings(references)
       case AcceptHoldingClaim(_, a, i, q, effective, _, _, references) =>
         WellFormedPayload(cases, HoldingClaimed(a, i, q)) && effective.Valid() && WellFormedBindings(references)
       case CorrectFact(_, _, _, _, _, _) => true
       case MintIdentity(_, _, claim, _, effective, _, _, references) =>
         ValidClaim(cases, claim) && effective.Valid() && WellFormedBindings(references)
       case ObserveClaimedHolding(_, _, _, _) => true
  }

  lemma ObservedOk(o: Origin, confidence: Confidence)
    requires OriginOk(o)
    ensures ObservedBy(o, confidence).Ok? ==> WellFormedProvenance(ObservedBy(o, confidence).value)
  {
    hide Blank;
  }

  lemma DerivedOk(o: Origin, trace: string, confidence: Confidence)
    requires OriginOk(o) && IsHexDigest(trace)
    ensures DerivedBy(o, trace, confidence).Ok? ==> WellFormedProvenance(DerivedBy(o, trace, confidence).value)
  {
    hide Blank, IsHexDigest;
  }

  lemma SealOk(effective: Interval, now: Instant, prov: Result<Provenance>, references: seq<ReferenceBinding>)
    requires effective.Valid() && WellFormedBindings(references)
    requires prov.Ok? ==> WellFormedProvenance(prov.value)
    ensures Seal(effective, now, prov, references).Ok? ==>
              WellFormedEnvelope(Seal(effective, now, prov, references).value)
  {
    hide WellFormedProvenance, WellFormedBindings;
  }

  lemma MintOk(d: Deployment, kind: EntityKind, claim: Claim, answers: seq<string>, confidence: Confidence)
    requires ValidClaim(d.platform.cases, claim)
    ensures var r := MintFor(d.platform, d.rules, kind, claim, answers, confidence);
            r.Ok? ==> IsHexDigest(r.value.trace) && WellFormedPayload(d.platform.cases, r.value.value)
  {
    hide ClaimPreimage, CanonicaliseSeed, FoldClaim, CanonicalSeed, EntityKindName, DerivationPreimage,
         ValidClaim, IsHexDigest, SortBy, ValidId;
  }

  ghost predicate StreamReadable(cases: CaseTables, s: Stream) {
    forall i :: 0 <= i < |s.facts| ==> WellFormed(cases, s.facts[i])
  }

  lemma AnswerOk(d: Deployment, s: Stream, claim: Claim, a: AsOf)
    requires StreamReadable(d.platform.cases, s)
    ensures var r := ResolveWithTrace(d.platform.cases, d.rules, s, claim, a);
            r.Ok? ==> ValidId(r.value.0)
  {
    hide FirstAnswer, VisibleAt, WellFormedEnvelope, ValidId, Answers;
    var first := FirstAnswer(d.platform.cases, d.rules, VisibleAt(s, a), claim);
    if first.Some? {
      FirstAnswerMeaning(d.platform.cases, d.rules, VisibleAt(s, a), claim);
      VisibleAtMembers(s, a, first.value);
    }
  }

  lemma ObservationOk(d: Deployment, s: Stream, claimed: Fact, a: AsOf)
    requires StreamReadable(d.platform.cases, s) && WellFormed(d.platform.cases, claimed)
    ensures var r := DeriveHoldingObserved(d.platform, d.rules, s, claimed, a);
            r.Ok? ==> IsHexDigest(r.value.trace) && WellFormedPayload(d.platform.cases, HoldingObserved(r.value.value))
  {
    hide ResolveWithTrace, DerivationPreimage, SortBy, IsHexDigest, WellFormedEnvelope, ValidId, ValidClaim,
         WellFormedQuantity, RenderAsOf;
    if claimed.payload.HoldingClaimed? {
      AnswerOk(d, s, claimed.payload.account, a);
      AnswerOk(d, s, claimed.payload.instrument, a);
    }
  }

  /** Everything a use case builds from well-formed parts a decoder will accept. */
  lemma BuiltIsWellFormed(d: Deployment, cmd: Command, s: Stream, now: Instant)
    requires CommandOk(d.platform.cases, cmd) && StreamReadable(d.platform.cases, s) && s.name == cmd.stream
    requires Examine(d, cmd, s).None? && Build(d, cmd, s, now).Ok?
    ensures var q := Build(d, cmd, s, now).value;
            WellFormedEnvelope(q.envelope) && WellFormedPayload(d.platform.cases, q.payload)
  {
    hide Seal, ObservedBy, DerivedBy, MintFor, DeriveHoldingObserved, Resolve, WellFormedProvenance, WellFormedBindings,
         Interval.Valid, ValidClaim, OriginOk, ValidId, WellFormedQuantity;
    match cmd
    case ObserveHolding(_, _, effective, origin, confidence, references) =>
      ObservedOk(origin, confidence);
      SealOk(effective, now, ObservedBy(origin, confidence), references);
    case AcceptHoldingClaim(_, _, _, _, effective, origin, confidence, references) =>
      ObservedOk(origin, confidence);
      SealOk(effective, now, ObservedBy(origin, confidence), references);
    case CorrectFact(_, corrects, _, _, origin, confidence) =>
      ObservedOk(origin, confidence);
      NoBindings();
      var f := Get(s, corrects).value;
      assert WellFormed(d.platform.cases, s.facts[corrects.sequence - 1]);
      SealOk(f.envelope.coordinates.effective, now, ObservedBy(origin, confidence), []);
    case MintIdentity(_, kind, claim, answers, effective, origin, confidence, references) =>
      var names := if answers.stream != "" then [answers.Render()] else [];
      MintOk(d, kind, claim, names, confidence);
      var minted := MintFor(d.platform, d.rules, kind, claim, names, confidence).value;
      DerivedOk(origin, minted.trace, confidence);
      SealOk(effective, now, DerivedBy(origin, minted.trace, confidence), references);
    case ObserveClaimedHolding(_, claimRef, asOf, origin) =>
      var f := Get(s, claimRef).value;
      assert WellFormed(d.platform.cases, s.facts[claimRef.sequence - 1]);
      ObservationOk(d, s, f, asOf);
      BindingsOfEnvelope(f.envelope);
      var observed := DeriveHoldingObserved(d.platform, d.rules, s, f, asOf).value;
      DerivedOk(origin, observed.trace, observed.record.body.confidence);
      SealOk(f.envelope.coordinates.effective, now,
             DerivedBy(origin, observed.trace, observed.record.body.confidence), f.envelope.references);
  }

  lemma NoBindings()
    ensures WellFormedBindings([])
  {
  }

  lemma BindingsOfEnvelope(e: Envelope)
    requires WellFormedEnvelope(e)
    ensures WellFormedBindings(e.references) && e.coordinates.effective.Valid()
  {
  }

  // ---- one use case -----------------------------------------------------------------------------------

  lemma ReadAgrees(d: Deployment, streams: StreamMap, rows: Table, cmd: Command)
    requires Agree(d.platform.cases, streams, rows) && cmd.stream != ""
    ensures SqlReadFrom(d, cmd, rows) == ReadFrom(cmd, streams)
  {
    hide Agree, SqlLoad, MemoryLoad;
    LoadAgrees(d.platform.cases, streams, rows, cmd.stream);
  }

  lemma ReadIsReadable(d: Deployment, streams: StreamMap, rows: Table, cmd: Command)
    requires Agree(d.platform.cases, streams, rows) && ReadFrom(cmd, streams).Ok?
    ensures StreamReadable(d.platform.cases, ReadFrom(cmd, streams).value)
    ensures ReadFrom(cmd, streams).value.name == cmd.stream
  {
    hide WellFormed, Holds, InRange;
  }

  lemma BuiltIsStorable(d: Deployment, streams: StreamMap, rows: Table, cmd: Command, now: Instant)
    requires Agree(d.platform.cases, streams, rows) && CommandOk(d.platform.cases, cmd) && InRange(now)
    requires ReadFrom(cmd, streams).Ok? && Examine(d, cmd, ReadFrom(cmd, streams).value).None?
    requires Build(d, cmd, ReadFrom(cmd, streams).value, now).Ok?
    ensures Storable(d.platform.cases, streams, cmd.stream, Build(d, cmd, ReadFrom(cmd, streams).value, now).value)
  {
    hide Agree, Build, Examine, ReadFrom, WellFormedEnvelope, WellFormedPayload, InRange;
    var s := ReadFrom(cmd, streams).value;
    ReadIsReadable(d, streams, rows, cmd);
    BuiltIsWellFormed(d, cmd, s, now);
    BuiltRequest(d, cmd, s, now);
  }

  /** A use case on a named stream gives the same answer over either store, and leaves
      them in agreement. */
  lemma NamedUseCaseAgrees(d: Deployment, streams: StreamMap, rows: Table, now: Instant, cmd: Command)
    requires Agree(d.platform.cases, streams, rows) && CommandOk(d.platform.cases, cmd)
    requires InRange(now) || Early(d, streams, cmd)
    ensures SqlExecute(d, rows, now, cmd).1 == Execute(d, streams, now, cmd).1
    ensures Agree(d.platform.cases, Execute(d, streams, now, cmd).0, SqlExecute(d, rows, now, cmd).0)
  {
    hide Agree, Precheck, Examine, Build, ReadFrom, SqlReadFrom, MemoryAppend, SqlAppend, Storable, InRange, OriginOk;
    ReadAgrees(d, streams, rows, cmd);
    if Precheck(cmd).None? && ReadFrom(cmd, streams).Ok? {
      var s := ReadFrom(cmd, streams).value;
      if Examine(d, cmd, s).None? && Build(d, cmd, s, now).Ok? {
        BuiltIsStorable(d, streams, rows, cmd, now);
        AppendAgrees(d.platform.cases, streams, rows, cmd.stream, Build(d, cmd, s, now).value);
      }
    }
  }

  /** A use case refused before it looks at the clock. */
  predicate Early(d: Deployment, streams: StreamMap, cmd: Command) {
    || Precheck(cmd).Some? || ReadFrom(cmd, streams).Err?
    || Examine(d, cmd, ReadFrom(cmd, streams).value).Some?
  }

  /** The parts came out of the constructors, or admission or the missing name will
      show: what may be submitted without the stores drifting apart. */
  ghost predicate Submittable(cases: CaseTables, cmd: Command) {
    CommandOk(cases, cmd) || cmd.stream == "" || Precheck(cmd).Some?
  }

  /** What the two stores say alike even without a name: a refusal before the region, a
      mint, and a stated fact whose envelope cannot be built. */
  predicate RefusedAlike(cmd: Command, now: Instant) {
    || Precheck(cmd).Some? || cmd.MintIdentity?
    || ((cmd.ObserveHolding? || cmd.AcceptHoldingClaim?) && BuildStated(cmd, now).Err?)
  }

  lemma NamelessUseCase(d: Deployment, streams: StreamMap, rows: Table, now: Instant, cmd: Command)
    requires Agree(d.platform.cases, streams, rows) && cmd.stream == ""
    ensures SqlExecute(d, rows, now, cmd).1 == Execute(d, streams, now, cmd).1 <==> RefusedAlike(cmd, now)
    ensures Execute(d, streams, now, cmd).0 == streams && Execute(d, streams, now, cmd).1.Err?
    ensures Agree(d.platform.cases, streams, SqlExecute(d, rows, now, cmd).0)
    ensures cmd.CorrectFact? || cmd.ObserveClaimedHolding? ==>
              && Execute(d, streams, now, cmd).1 == Err(ErrStreamNotFound)
              && SqlExecute(d, rows, now, cmd).1 == Err(ErrEmptyType)
  {
    hide Agree, Precheck, BuildStated, MemoryAppend, SqlAppend, SqlLoad, MemoryLoad;
    EmptyNameLoads(d.platform.cases, streams, rows);
    if !Reads(cmd) && BuildStated(cmd, now).Ok? {
      StatedHasPayload(cmd, now);
      EmptyNameDisagrees(d.platform.cases, streams, rows, BuildStated(cmd, now).value);
    }
    if cmd.CorrectFact? || cmd.ObserveClaimedHolding? {
      NoPrecheck(cmd);
    }
  }

  lemma StatedHasPayload(cmd: Command, now: Instant)
    requires (cmd.ObserveHolding? || cmd.AcceptHoldingClaim?) && BuildStated(cmd, now).Ok?
    ensures !BuildStated(cmd, now).value.payload.NilPayload?
  {
  }

  lemma NoPrecheck(cmd: Command)
    requires cmd.CorrectFact? || cmd.ObserveClaimedHolding?
    ensures Precheck(cmd).None?
  {
  }

  /** After any use case the stores still agree on every named stream, and they gave the
      same answer exactly if the stream had a name or both refused for another reason. */
  lemma UseCaseAgrees(d: Deployment, streams: StreamMap, rows: Table, now: Instant, cmd: Command)
    requires Agree(d.platform.cases, streams, rows) && Submittable(d.platform.cases, cmd)
    requires InRange(now) || Early(d, streams, cmd)
    ensures SqlExecute(d, rows, now, cmd).1 == Execute(d, streams, now, cmd).1
       <==> cmd.stream != "" || RefusedAlike(cmd, now)
    ensures Agree(d.platform.cases, Execute(d, streams, now, cmd).0, SqlExecute(d, rows, now, cmd).0)
  {
    hide Agree, Precheck, Early, CommandOk, InRange, BuildStated, SqlReadFrom, ReadFrom, Examine, Build, MemoryAppend,
         SqlAppend;
    if cmd.stream == "" {
      NamelessUseCase(d, streams, rows, now, cmd);
    } else if Precheck(cmd).None? {
      NamedUseCaseAgrees(d, streams, rows, now, cmd);
    }
  }

  // ---- whole runs ----------------------------------------------------------------------------------------

  /** The table after the logged commands ran one region at a time. */
  ghost function RowsAfter(d: Deployment, log: seq<Entry>): Table {
    if log == [] then map[]
    else
      var e := log[|log| - 1];
      SqlExecute(d, RowsAfter(d, log[..|log| - 1]), e.now, e.cmd).0
  }

  /** What the durable store tells the i-th of them. */
  ghost function SqlAnswer(d: Deployment, log: seq<Entry>, i: nat): Result<Ref>
    requires i < |log|
  {
    SqlExecute(d, RowsAfter(d, log[..i]), log[i].now, log[i].cmd).1
  }

  /** A reading that fits the column, or a refusal that never needed one. */
  ghost predicate EntryStorable(d: Deployment, streams: StreamMap, e: Entry) {
    Submittable(d.platform.cases, e.cmd) && (InRange(e.now) || Early(d, streams, e.cmd))
  }

  ghost predicate LogStorable(d: Deployment, log: seq<Entry>) {
    forall i :: 0 <= i < |log| ==> EntryStorable(d, StreamsAfter(d, log[..i]), log[i])
  }

  lemma {:induction false} HistoriesAgree(d: Deployment, log: seq<Entry>)
    requires LogStorable(d, log)
    ensures Agree(d.platform.cases, StreamsAfter(d, log), RowsAfter(d, log))
    ensures forall i :: 0 <= i < |log| ==>
              (SqlAnswer(d, log, i) == Execute(d, StreamsAfter(d, log[..i]), log[i].now, log[i].cmd).1
               <==> log[i].cmd.stream != "" || RefusedAlike(log[i].cmd, log[i].now))
  {
    hide Agree, Execute, SqlExecute, Submittable, InRange, Early, RefusedAlike;
    if log == [] {
      EmptyStoresAgree(d.platform.cases);
    } else {
      var n := |log| - 1;
      var before := log[..n];
      forall i | 0 <= i < n
        ensures before[..i] == log[..i] && before[i] == log[i]
      {
      }
      HistoriesAgree(d, before);
      assert EntryStorable(d, StreamsAfter(d, before), log[n]);
      UseCaseAgrees(d, StreamsAfter(d, before), RowsAfter(d, before), log[n].now, log[n].cmd);
      forall i | 0 <= i < |log|
        ensures SqlAnswer(d, log, i) == Execute(d, StreamsAfter(d, log[..i]), log[i].now, log[i].cmd).1
           <==> log[i].cmd.stream != "" || RefusedAlike(log[i].cmd, log[i].now)
      {
        if i < n {
          assert SqlAnswer(d, log, i) == SqlAnswer(d, before, i);
        }
      }
    }
  }

  // ---- from the inputs of a run to its log ----------------------------------------------------------------

  /** What a run is asked to keep to: submittable commands, and readings that fit. */
  ghost predicate ActionOk(d: Deployment, a: Action) {
    && (a.Submit? ==> Submittable(d.platform.cases, a.cmd))
    && (a.ReadClock? ==> InRange(a.now))
  }

  ghost predicate InputsOk(d: Deployment, run: seq<Action>) {
    forall i :: 0 <= i < |run| ==> ActionOk(d, run[i])
  }

  ghost predicate WriterStorable(d: Deployment, state: Writer) {
    && (!state.Idle? ==> Submittable(d.platform.cases, state.cmd))
    && (state.Ready? ==> InRange(state.now))
  }

  ghost predicate WritersStorable(d: Deployment, w: World) {
    forall p :: p in w.writers ==> WriterStorable(d, w.writers[p])
  }

  /** An answer given by a step rests on a reading that fits, or came before any. */
  lemma StepStorable(c: Config, w: World, a: Action)
    requires WritersStorable(c.d, w) && WritersOk(c.d, w) && ActionOk(c.d, a)
    ensures WritersStorable(c.d, Step(c, w, a))
    ensures var w' := Step(c, w, a);
            || w'.log == w.log
            || (&& |w'.log| == |w.log| + 1 && w'.log == w.log + [w'.log[|w.log|]]
                && EntryStorable(c.d, w.streams, w'.log[|w.log|])
                && (w'.log[|w.log|].result.Ok? ==> InRange(w'.log[|w.log|].now)))
  {
    hide Submittable, InRange, Precheck, Examine, Build, ReadFrom, MemoryAppend, LockFree, SnapshotOk;
  }

  lemma {:induction false} RunStorable(c: Config, run: seq<Action>)
    requires InputsOk(c.d, run)
    ensures WritersStorable(c.d, After(c, run)) && LogStorable(c.d, GrantedOf(After(c, run).log))
    ensures c.exclusive ==> LogStorable(c.d, After(c, run).log)
  {
    hide Step, Inv, Mutex, Current, EntryStorable, WritersStorable, GrantedOf, Execute;
    if run == [] {
      StartStorable(c);
    } else {
      var before, a := run[..|run| - 1], run[|run| - 1];
      var w, w' := After(c, before), After(c, run);
      RunStorable(c, before);
      RunKeepsInv(c, before);
      InvWriters(c, w);
      StepStorable(c, w, a);
      if w'.log != w.log {
        var e := w'.log[|w.log|];
        GrantedNext(w.log, e);
        if e.result.Ok? {
          StorableAnywhere(c.d, w.streams, StreamsAfter(c.d, GrantedOf(w.log)), e);
          LogStorableNext(c.d, GrantedOf(w.log), e);
        } else {
          assert GrantedOf(w'.log) == GrantedOf(w.log);
        }
        if c.exclusive {
          RunsAreSequential(c, before);
          LogStorableNext(c.d, w.log, e);
        }
      }
    }
  }

  lemma StartStorable(c: Config)
    ensures WritersStorable(c.d, START) && LogStorable(c.d, GrantedOf(START.log)) && LogStorable(c.d, START.log)
  {
  }

  lemma InvWriters(c: Config, w: World)
    requires Inv(c, w)
    ensures WritersOk(c.d, w)
  {
  }

  lemma StorableAnywhere(d: Deployment, streams: StreamMap, streams': StreamMap, e: Entry)
    requires EntryStorable(d, streams, e) && InRange(e.now)
    ensures EntryStorable(d, streams', e)
  {
  }

  lemma LogStorableNext(d: Deployment, log: seq<Entry>, e: Entry)
    requires LogStorable(d, log) && EntryStorable(d, StreamsAfter(d, log), e)
    ensures LogStorable(d, log + [e])
  {
    hide EntryStorable, StreamsAfter;
    var more := log + [e];
    forall i | 0 <= i < |more|
      ensures EntryStorable(d, StreamsAfter(d, more[..i]), more[i])
    {
      assert more[..i] == log[..i] || i == |log|;
      assert i == |log| ==> more[..i] == log;
    }
  }

  /** Any interleaving of writers over the reference store, with exclusive regions,
      reads stream for stream like the durable store after the same commands, region by
      region in the order they were answered.  A writer got the same answer exactly if
      its stream had a name or both stores refuse it for another reason. */
  lemma RunsAgreeWithSqlite(c: Config, run: seq<Action>, name: string)
    requires c.exclusive && InputsOk(c.d, run) && name != ""
    ensures var w := After(c, run);
            && SqlLoad(c.d.platform.cases, RowsAfter(c.d, w.log), name) == MemoryLoad(w.streams, name)
            && forall i :: 0 <= i < |w.log| ==>
                 (w.log[i].result == SqlAnswer(c.d, w.log, i)
                  <==> w.log[i].cmd.stream != "" || RefusedAlike(w.log[i].cmd, w.log[i].now))
  {
    hide After, Execute, SqlAnswer, Agree, SqlLoad, MemoryLoad, RowsAfter, StreamsAfter, LogStorable, RefusedAlike;
    var w := After(c, run);
    RunStorable(c, run);
    RunsAreSequential(c, run);
    HistoriesAgree(c.d, w.log);
    LoadAgrees(c.d.platform.cases, w.streams, RowsAfter(c.d, w.log), name);
  }

  /** ... and with nobody excluded and any clock, like the durable store after the
      granted commands alone, which it grants the same references. */
  lemma GrantedRunsAgreeWithSqlite(c: Config, run: seq<Action>, name: string)
    requires InputsOk(c.d, run) && name != ""
    ensures var w := After(c, run);
            var granted := GrantedOf(w.log);
            && SqlLoad(c.d.platform.cases, RowsAfter(c.d, granted), name) == MemoryLoad(w.streams, name)
            && forall i :: 0 <= i < |granted| ==> granted[i].result == SqlAnswer(c.d, granted, i)
  {
    hide After, Execute, SqlAnswer, Agree, SqlLoad, MemoryLoad, RowsAfter, StreamsAfter, LogStorable, RefusedAlike,
         GrantedOf;
    var w := After(c, run);
    var granted := GrantedOf(w.log);
    RunStorable(c, run);
    GrantedRunsSerialise(c, run);
    HistoriesAgree(c.d, granted);
    LoadAgrees(c.d.platform.cases, w.streams, RowsAfter(c.d, granted), name);
    forall i | 0 <= i < |granted|
      ensures granted[i].cmd.stream != ""
    {
      var k := GrantedFrom(w.log, i);
      GrantedIsNamed(c, run, k);
    }
  }

  lemma GrantedIsNamed(c: Config, run: seq<Action>, k: nat)
    requires k < |After(c, run).log| && After(c, run).log[k].result.Ok?
    ensures After(c, run).log[k].cmd.stream != ""
  {
    hide After, Lawful, WriterOk;
    RunKeepsInv(c, run);
    assert Granted(After(c, run).streams, After(c, run).log[k]);
  }

  lemma {:induction false} GrantedFrom(log: seq<Entry>, i: nat) returns (k: nat)
    requires i < |GrantedOf(log)|
    ensures k < |log| && log[k] == GrantedOf(log)[i] && log[k].result.Ok?
  {
    var n := |log| - 1;
    if i < |GrantedOf(log[..n])| {
      k := GrantedFrom(log[..n], i);
    } else {
      k := n;
    }
  }
}
