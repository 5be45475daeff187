/** What holds in every run, whatever the regions exclude and whatever the clock says. */
module ProtocolSafety {
  import opened Results
  import opened Framing
  import opened Temporal
  import opened Identity
  import opened Facts
  import opened Streams
  import opened Resolution
  import opened Positions
  import opened Stores
  import opened Ledger
  import opened LedgerLaws
  import opened Protocol

  // ---- the invariant ---------------------------------------------------------------------------

  ghost predicate StreamsOk(d: Deployment, streams: StreamMap) {
    GoodStreams(streams) && forall name :: name in streams ==> Lawful(d, streams[name])
  }

  /** A snapshot a decision rests on is a prefix of the stream it was taken from. */
  ghost predicate SnapshotOk(streams: StreamMap, cmd: Command, s: Stream) {
    Reads(cmd) ==> s.name == cmd.stream && s.facts <= FactsOf(streams, cmd.stream)
  }

  ghost predicate WriterOk(d: Deployment, streams: StreamMap, state: Writer) {
    match state
    case Idle => true
    case Waiting(cmd) => Precheck(cmd).None?
    case Inside(cmd) => Precheck(cmd).None?
    case Decided(cmd, s) => Precheck(cmd).None? && SnapshotOk(streams, cmd, s) && Examine(d, cmd, s).None?
    case Ready(cmd, s, now, q) =>
      && Precheck(cmd).None? && SnapshotOk(streams, cmd, s) && Examine(d, cmd, s).None?
      && Build(d, cmd, s, now) == Ok(q)
    case Leaving(_) => true
  }

  ghost predicate WritersOk(d: Deployment, w: World) {
    forall p :: p in w.writers ==> WriterOk(d, w.streams, w.writers[p])
  }

  /** A granted reference addresses a fact of the stream its command named. */
  ghost predicate Granted(streams: StreamMap, e: Entry) {
    e.result.Ok? ==> e.result.value.stream == e.cmd.stream
                     && 1 <= e.result.value.sequence <= |FactsOf(streams, e.cmd.stream)|
  }

  ghost predicate LogOk(w: World) {
    && (forall i :: 0 <= i < |w.log| ==> Granted(w.streams, w.log[i]))
    && (forall i, j :: 0 <= i < j < |w.log| && w.log[i].result.Ok? && w.log[j].result.Ok? ==>
          w.log[i].result.value != w.log[j].result.value)
  }

  ghost predicate Inv(c: Config, w: World) {
    StreamsOk(c.d, w.streams) && WritersOk(c.d, w) && LogOk(w)
  }

  /** Facts are only ever added, at the end. */
  ghost predicate Grows(streams: StreamMap, streams': StreamMap) {
    forall name :: FactsOf(streams, name) <= FactsOf(streams', name)
  }

  // ---- one step keeps it -----------------------------------------------------------------------

  lemma WriterOkGrows(d: Deployment, streams: StreamMap, streams': StreamMap, state: Writer)
    requires WriterOk(d, streams, state) && Grows(streams, streams')
    ensures WriterOk(d, streams', state)
  {
    hide Precheck, Examine, Build;
  }

  lemma ReadIsPrefix(cmd: Command, streams: StreamMap)
    requires GoodStreams(streams) && ReadFrom(cmd, streams).Ok?
    ensures SnapshotOk(streams, cmd, ReadFrom(cmd, streams).value)
  {
  }

  /** A refusal is logged without touching anything a claim rests on. */
  lemma RefusalKeeps(w: World, e: Entry)
    requires LogOk(w) && e.result.Err?
    ensures LogOk(w.(log := w.log + [e]))
  {
  }

  /** The append step, with the snapshot it decided on no longer than the stream. */
  lemma AppendStepLawful(c: Config, streams: StreamMap, state: Writer)
    requires StreamsOk(c.d, streams) && state.Ready? && WriterOk(c.d, streams, state)
    ensures StreamsOk(c.d, MemoryAppend(streams, state.cmd.stream, state.request).0)
  {
    hide Build, Examine, Precheck, Lawful, MemoryAppend, Get;
    var Ready(cmd, snapshot, now, q) := state;
    var (streams', r) := MemoryAppend(streams, cmd.stream, q);
    AppendGrows(streams, cmd.stream, q);
    if r.Ok? {
      var facts := FactsOf(streams, cmd.stream);
      var s, f := Stream(cmd.stream, facts), Fact(r.value, q.envelope, q.kind, q.payload);
      AcceptedAppend(c.d, streams, state);
      EmptyIsLawful(c.d, cmd.stream);
      BuiltAppendLawful(c.d, cmd, snapshot, now, s, f);
      assert streams'[cmd.stream] == Stream(cmd.stream, facts + [f]);
    }
  }

  lemma EmptyIsLawful(d: Deployment, name: string)
    ensures Lawful(d, Stream(name, []))
  {
  }

  /** An accepted append was decided on the very stream it extends, and is later
      than all of it: this is what AtLength and the knowledge check buy. */
  lemma AcceptedAppend(d: Deployment, streams: StreamMap, state: Writer)
    requires GoodStreams(streams) && state.Ready? && WriterOk(d, streams, state)
    requires MemoryAppend(streams, state.cmd.stream, state.request).1.Ok?
    ensures Reads(state.cmd) ==> state.snapshot == Stream(state.cmd.stream, FactsOf(streams, state.cmd.stream))
    ensures forall i :: 0 <= i < |FactsOf(streams, state.cmd.stream)| ==>
              FactsOf(streams, state.cmd.stream)[i].Known() < state.now
  {
    hide Build, Examine, Precheck;
    BuiltRequest(d, state.cmd, state.snapshot, state.now);
    AppendRefusals(streams, state.cmd.stream, state.request);
    var facts := FactsOf(streams, state.cmd.stream);
    if Reads(state.cmd) {
      assert state.snapshot.facts <= facts && |state.snapshot.facts| == |facts|;
      assert state.snapshot.facts == facts;
    }
  }

  lemma AppendStepLog(w: World, name: string, q: Request, e: Entry)
    requires GoodStreams(w.streams) && LogOk(w)
    requires e.cmd.stream == name && e.result == MemoryAppend(w.streams, name, q).1
    ensures Grows(w.streams, MemoryAppend(w.streams, name, q).0)
    ensures LogOk(w.(streams := MemoryAppend(w.streams, name, q).0, log := w.log + [e]))
  {
    hide MemoryAppend, Get, GoodStreams;
    AppendGrows(w.streams, name, q);
    var streams' := MemoryAppend(w.streams, name, q).0;
    assert Grows(w.streams, streams');
    var log := w.log + [e];
    forall i | 0 <= i < |log|
      ensures Granted(streams', log[i])
    {
      if i < |w.log| {
        assert Granted(w.streams, w.log[i]);
        assert FactsOf(w.streams, log[i].cmd.stream) <= FactsOf(streams', log[i].cmd.stream);
      }
    }
    forall i, j | 0 <= i < j < |log| && log[i].result.Ok? && log[j].result.Ok?
      ensures log[i].result.value != log[j].result.value
    {
      if j == |w.log| {
        assert Granted(w.streams, w.log[i]);
      }
    }
  }

  lemma AppendKeepsInv(c: Config, w: World, p: int)
    requires Inv(c, w) && At(w, p).Ready?
    ensures Inv(c, DoAppend(w, p)) && Grows(w.streams, DoAppend(w, p).streams)
  {
    hide MemoryAppend, StreamsOk, WriterOk, LogOk, Grows;
    var state := At(w, p);
    var (streams', r) := MemoryAppend(w.streams, state.cmd.stream, state.request);
    var e := Entry(p, state.cmd, state.now, r);
    AppendStepLawful(c, w.streams, state);
    StreamsAreGood(c.d, w.streams);
    AppendStepLog(w, state.cmd.stream, state.request, e);
    var w' := DoAppend(w, p);
    LogIgnoresRest(w.(streams := streams', log := w.log + [e]), w');
    forall q | q in w'.writers
      ensures WriterOk(c.d, streams', w'.writers[q])
    {
      if q != p {
        WriterOkGrows(c.d, w.streams, streams', w.writers[q]);
      } else {
        LeavingIsOk(c.d, streams', state.cmd);
      }
    }
  }

  lemma StreamsAreGood(d: Deployment, streams: StreamMap)
    requires StreamsOk(d, streams)
    ensures GoodStreams(streams)
  {
  }

  lemma LeavingIsOk(d: Deployment, streams: StreamMap, cmd: Command)
    ensures WriterOk(d, streams, Leaving(cmd)) && WriterOk(d, streams, Idle)
  {
  }

  lemma LogIgnoresRest(w: World, w': World)
    requires LogOk(w) && w'.streams == w.streams && w'.log == w.log
    ensures LogOk(w')
  {
  }

  /** A step that appends nothing moves one writer and may log one refusal. */
  lemma QuietKeepsInv(c: Config, w: World, w': World, p: int)
    requires Inv(c, w)
    requires w'.streams == w.streams && w'.writers.Keys == w.writers.Keys + {p}
    requires forall q :: q in w.writers && q != p ==> w'.writers[q] == w.writers[q]
    requires WriterOk(c.d, w.streams, w'.writers[p])
    requires w'.log == w.log || (|w'.log| == |w.log| + 1 && w'.log[..|w.log|] == w.log && w'.log[|w.log|].result.Err?)
    ensures Inv(c, w')
  {
    hide StreamsOk, WriterOk, Granted;
    if w'.log != w.log {
      var e := w'.log[|w.log|];
      assert w'.log == w.log + [e];
      RefusalKeeps(w, e);
      LogIgnoresRest(w.(log := w.log + [e]), w');
    } else {
      LogIgnoresRest(w, w');
    }
  }

  lemma StepKeepsInv(c: Config, w: World, a: Action)
    requires Inv(c, w)
    ensures Inv(c, Step(c, w, a)) && Grows(w.streams, Step(c, w, a).streams)
  {
    hide Inv, WriterOk, Precheck, Examine, Build, ReadFrom, MemoryAppend, LockFree;
    var p, w' := a.writer, Step(c, w, a);
    if a.AppendFact? && At(w, p).Ready? {
      AppendKeepsInv(c, w, p);
    } else if w' != w {
      if a.Submit? && Precheck(a.cmd).Some? {
        SubmitRefusal(c, w, Entry(p, a.cmd, w.clock, Err(Precheck(a.cmd).value)));
      } else {
        QuietWriter(c, w, a);
        QuietKeepsInv(c, w, w', p);
      }
    }
  }

  lemma SubmitRefusal(c: Config, w: World, e: Entry)
    requires Inv(c, w) && e.result.Err?
    ensures Inv(c, w.(log := w.log + [e]))
  {
    hide StreamsOk, WriterOk, LogOk;
    RefusalKeeps(w, e);
  }

  lemma QuietWriter(c: Config, w: World, a: Action)
    requires Inv(c, w) && Step(c, w, a) != w && !(a.AppendFact? && At(w, a.writer).Ready?)
    requires !(a.Submit? && Precheck(a.cmd).Some?)
    ensures a.writer in Step(c, w, a).writers
    ensures WriterOk(c.d, w.streams, Step(c, w, a).writers[a.writer])
  {
    hide Precheck, Examine, Build, LockFree, LogOk, Lawful, SnapshotOk, ReadFrom, GoodStream;
    if a.Load? && At(w, a.writer).Inside? && ReadFrom(At(w, a.writer).cmd, w.streams).Ok? {
      ReadIsPrefix(At(w, a.writer).cmd, w.streams);
    }
  }

  // ---- every run ---------------------------------------------------------------------------------

  lemma {:induction false} RunKeepsInv(c: Config, run: seq<Action>)
    ensures Inv(c, After(c, run))
  {
    hide Inv, Step;
    if run == [] {
      StartIsOk(c);
    } else {
      RunKeepsInv(c, run[..|run| - 1]);
      StepKeepsInv(c, After(c, run[..|run| - 1]), run[|run| - 1]);
    }
  }

  lemma StartIsOk(c: Config)
    ensures Inv(c, START)
  {
  }

  /** In every run every stream is numbered 1..N, strictly later fact by fact, and
      lawful; no two writers are ever granted one reference. */
  lemma RunsAreLawful(c: Config, run: seq<Action>)
    ensures var w := After(c, run);
            && (forall name :: name in w.streams ==>
                  && Numbered(w.streams[name]) && Monotone(w.streams[name]) && w.streams[name].name == name
                  && Lawful(c.d, w.streams[name]))
            && (forall i, j :: 0 <= i < j < |w.log| && w.log[i].result.Ok? && w.log[j].result.Ok? ==>
                  w.log[i].result.value != w.log[j].result.value)
  {
    hide After, Numbered, Monotone, Lawful;
    RunKeepsInv(c, run);
  }

  /** Mint soundness, with no exclusion and any clock: of two mints on one stream with
      one canonical pre-image, the earlier is not in force where the later begins. */
  lemma MintsNeverCollide(c: Config, run: seq<Action>, name: string, i: nat, j: nat)
    requires name in After(c, run).streams
    requires i < j < |After(c, run).streams[name].facts|
    requires var s := After(c, run).streams[name];
             && s.facts[i].payload.EntityMinted? && s.facts[j].payload.EntityMinted?
             && CanonicalPreimage(c.d.platform.cases, c.d.rules, s.facts[i].payload.bornFrom)
                == CanonicalPreimage(c.d.platform.cases, c.d.rules, s.facts[j].payload.bornFrom)
    ensures var s := After(c, run).streams[name];
            !s.facts[i].envelope.coordinates.effective.Contains(s.facts[j].From())
  {
    hide After, CanonicalPreimage, Interval.Contains;
    RunsAreLawful(c, run);
    assert MintsSound(c.d, After(c, run).streams[name]);
  }

  /** Streams grow only by suffix. */
  lemma {:induction false} RunsOnlyAppend(c: Config, run: seq<Action>, more: seq<Action>)
    ensures Grows(After(c, run).streams, After(c, run + more).streams)
  {
    hide Inv, Step;
    if more == [] {
      assert run + more == run;
    } else {
      var n := |more| - 1;
      RunsOnlyAppend(c, run, more[..n]);
      RunKeepsInv(c, run + more[..n]);
      assert (run + more)[..|run + more| - 1] == run + more[..n];
      assert (run + more)[|run + more| - 1] == more[n];
      StepKeepsInv(c, After(c, run + more[..n]), more[n]);
      GrowsTransitive(After(c, run).streams, After(c, run + more[..n]).streams, After(c, run + more).streams);
    }
  }

  lemma GrowsTransitive(a: StreamMap, b: StreamMap, e: StreamMap)
    requires Grows(a, b) && Grows(b, e)
    ensures Grows(a, e)
  {
    hide FactsOf;
    forall name
      ensures FactsOf(a, name) <= FactsOf(e, name)
    {
      assert FactsOf(a, name) <= FactsOf(b, name) && FactsOf(b, name) <= FactsOf(e, name);
    }
  }

  lemma StreamsPersist(c: Config, run: seq<Action>, more: seq<Action>, name: string)
    requires name in After(c, run).streams
    ensures name in After(c, run + more).streams
    ensures Extends(After(c, run).streams[name], After(c, run + more).streams[name])
    ensures Numbered(After(c, run + more).streams[name]) && Monotone(After(c, run + more).streams[name])
    ensures Lawful(c.d, After(c, run + more).streams[name])
    ensures After(c, run).streams[name].facts != [] && After(c, run + more).streams[name].name == name
  {
    hide After, Lawful, Numbered, Monotone;
    RunKeepsInv(c, run);
    RunKeepsInv(c, run + more);
    RunsOnlyAppend(c, run, more);
    assert FactsOf(After(c, run).streams, name) <= FactsOf(After(c, run + more).streams, name);
  }

  /** A granted reference addresses one fact, the same one forever. */
  lemma ReferencesAreForever(c: Config, run: seq<Action>, more: seq<Action>, k: nat)
    requires k < |After(c, run).log| && After(c, run).log[k].result.Ok?
    ensures var ref := After(c, run).log[k].result.value;
            && ref.stream in After(c, run).streams && ref.stream in After(c, run + more).streams
            && Get(After(c, run).streams[ref.stream], ref).Ok?
            && Get(After(c, run + more).streams[ref.stream], ref) == Get(After(c, run).streams[ref.stream], ref)
  {
    hide After, Lawful, WriterOk;
    RunKeepsInv(c, run);
    var w, ref := After(c, run), After(c, run).log[k].result.value;
    assert Granted(w.streams, w.log[k]);
    StreamsPersist(c, run, more, ref.stream);
  }

  /** Frozen past: once a stream knows something at or after K, no continuation of the
      run changes what any query at knowledge K answers, value or trace. */
  lemma AnswersAreFrozen(c: Config, run: seq<Action>, more: seq<Action>, name: string,
                         claim: Claim, account: ID, instrument: ID, a: AsOf)
    requires name in After(c, run).streams
    requires var s := After(c, run).streams[name];
             s.facts != [] && a.knowledge <= s.facts[|s.facts| - 1].Known()
    ensures name in After(c, run + more).streams
    ensures var s, t := After(c, run).streams[name], After(c, run + more).streams[name];
            var p, rules := c.d.platform, c.d.rules;
            && VisibleAt(t, a) == VisibleAt(s, a)
            && Resolve(p.cases, rules, t, claim, a) == Resolve(p.cases, rules, s, claim, a)
            && UnresolvedIn(p.cases, rules, t, a, VisibleAt(t, a)) == UnresolvedIn(p.cases, rules, s, a, VisibleAt(s, a))
            && Projected(p, t, account, instrument, a) == Projected(p, s, account, instrument, a)
  {
    hide After, Lawful, Numbered, VisibleAt, Resolve, UnresolvedIn, Projected;
    StreamsPersist(c, run, more, name);
    var s, t := After(c, run).streams[name], After(c, run + more).streams[name];
    PastIsFrozen(s, t, a);
    QueriesReadVisible(c.d.platform, c.d.rules, t, s, claim, account, instrument, a);
  }

  /** Retraction is complete and rewrites nothing: in every run and every continuation
      a retracted fact is in no projection that knows of the retraction, and every
      projection that does not is what it was before the retraction was appended. */
  lemma RetractionsHold(c: Config, run: seq<Action>, more: seq<Action>, name: string, i: nat,
                        account: ID, instrument: ID, a: AsOf)
    requires name in After(c, run).streams
    requires i < |After(c, run).streams[name].facts|
    requires var f := After(c, run).streams[name].facts[i];
             f.payload.FactCorrected? && f.payload.correction == RETRACTED
    ensures name in After(c, run + more).streams
    ensures var s, t := After(c, run).streams[name], After(c, run + more).streams[name];
            var ref := s.facts[i].payload.corrects;
            && Get(s, ref).Ok?
            && (s.facts[i].Known() <= a.knowledge ==> Get(s, ref).value !in Consumed(t, account, instrument, a))
            && (a.knowledge < s.facts[i].Known() ==>
                  Projected(c.d.platform, t, account, instrument, a)
                  == Projected(c.d.platform, Stream(name, s.facts[..i]), account, instrument, a))
  {
    hide After, VisibleAt, Projected, Consumed, MintsSound, MintsDerived, Complete;
    StreamsPersist(c, run, more, name);
    var s, t := After(c, run).streams[name], After(c, run + more).streams[name];
    assert t.facts[i] == s.facts[i];
    assert CorrectsEarlier(t, i);
    var ref := s.facts[i].payload.corrects;
    var f := t.facts[ref.sequence - 1];
    assert Get(s, ref) == Ok(f) by {
      assert f == s.facts[ref.sequence - 1];
      RunKeepsInv(c, run);
    }
    if s.facts[i].Known() <= a.knowledge {
      RetractionIsComplete(t, f, t.facts[i], account, instrument, a);
    } else {
      UnknownYet(t, i, a);
      assert t.facts[..i] == s.facts[..i];
      SameVisibleSameProjection(c.d, t, Stream(t.name, t.facts[..i]), account, instrument, a);
    }
  }

  lemma SameVisibleSameProjection(d: Deployment, s: Stream, t: Stream, account: ID, instrument: ID, a: AsOf)
    requires VisibleAt(s, a) == VisibleAt(t, a)
    ensures Projected(d.platform, s, account, instrument, a) == Projected(d.platform, t, account, instrument, a)
  {
    hide VisibleAt, Resolve, UnresolvedIn, Projected;
    QueriesReadVisible(d.platform, d.rules, s, t, Claim("", ""), account, instrument, a);
  }

  /** In every run a position is the greatest eligible observation's quantity, and
      missing exactly when nothing is eligible. */
  lemma PositionsOverRuns(c: Config, run: seq<Action>, name: string, account: ID, instrument: ID, a: AsOf)
    requires name in After(c, run).streams
    ensures var s := After(c, run).streams[name];
            var r := Projected(c.d.platform, s, account, instrument, a);
            && (r.Err? ==> r == Err(ErrNoFacts) && forall f :: !Eligible(s, account, instrument, a, f))
            && (r.Ok? ==> exists f :: Greatest(s, account, instrument, a, f) && f.payload.HoldingObserved?
                                      && r.value.value.quantity == f.payload.holding.quantity)
  {
    hide After, Projected, Eligible, Greatest, MintsSound, MintsDerived, CorrectionsSound, Numbered, Monotone;
    RunsAreLawful(c, run);
    ProjectionIsGreatestEligible(c.d.platform, After(c, run).streams[name], account, instrument, a);
  }

  /** Resolution is monotone over runs: what resolves keeps resolving, never waits
      again, and to the same identity while its mints share one kind. */
  lemma ResolutionOverRuns(c: Config, run: seq<Action>, more: seq<Action>, name: string,
                           claim: Claim, a: AsOf, b: AsOf, u: UnresolvedClaim)
    requires name in After(c, run).streams
    requires b.effective == a.effective && a.knowledge <= b.knowledge
    requires Resolve(c.d.platform.cases, c.d.rules, After(c, run).streams[name], claim, a).Ok?
    ensures name in After(c, run + more).streams
    ensures var s, t := After(c, run).streams[name], After(c, run + more).streams[name];
            var cases, rules := c.d.platform.cases, c.d.rules;
            && Resolve(cases, rules, t, claim, b).Ok?
            && (u.claim == claim ==> u !in UnresolvedIn(cases, rules, t, b, VisibleAt(t, b)))
            && (InMemory(CanonicalPreimage(cases, rules, claim)) && OneKind(c.d, t, claim) ==>
                  Resolve(cases, rules, t, claim, b) == Resolve(cases, rules, s, claim, a))
  {
    hide After, Resolve, UnresolvedIn, VisibleAt, Numbered, Monotone, MintsSound, MintsDerived, CorrectionsSound,
         Complete, CanonicalPreimage, InMemory, Answers;
    StreamsPersist(c, run, more, name);
    var s, t := After(c, run).streams[name], After(c, run + more).streams[name];
    var cases, rules := c.d.platform.cases, c.d.rules;
    ResolutionMonotone(cases, rules, s, t, claim, a, b);
    if u.claim == claim {
      NeverWaitsAgain(cases, rules, s, t, a, b, u);
    }
    if InMemory(CanonicalPreimage(cases, rules, claim)) && OneKind(c.d, t, claim) {
      IdentityIsStable(c.d, s, t, claim, a, b);
    }
  }

  /** All mints that answer a claim made the same kind of entity. */
  ghost predicate OneKind(d: Deployment, s: Stream, claim: Claim) {
    forall i, j :: && 0 <= i < |s.facts| && Answers(d.platform.cases, d.rules, s.facts[i], claim)
                   && 0 <= j < |s.facts| && Answers(d.platform.cases, d.rules, s.facts[j], claim)
                   ==> s.facts[i].payload.entity.kind == s.facts[j].payload.entity.kind
  }
}
