/** Which stores are reachable: every sequential history is some run of the protocol,
    so what a history shows to be possible is possible. */
module ProtocolReach {
  import opened Results
  import opened Temporal
  import opened Stores
  import opened Ledger
  import opened LedgerLaws
  import opened Protocol
  import opened ProtocolSerial

  // ---- one writer alone ------------------------------------------------------------------

  ghost predicate Quiet(w: World) {
    forall p :: p in w.writers ==> w.writers[p].Idle?
  }

  /** The clock may still give this reading. */
  ghost predicate Ahead(c: Config, w: World, now: Instant) {
    c.strictClock ==> w.clock < now
  }

  /** The writer has been answered as the whole use case would, and nothing else moved. */
  ghost predicate Answered(c: Config, w: World, p: int, cmd: Command, now: Instant, w': World) {
    && (w'.clock == w.clock || w'.clock == now)
    && |w'.log| == |w.log| + 1 && w'.log[..|w.log|] == w.log
    && w'.log[|w.log|].cmd == cmd && Execute(c.d, w.streams, now, cmd) == (w'.streams, w'.log[|w.log|].result)
    && forall q :: q in w'.writers && q != p ==> q in w.writers && w'.writers[q] == w.writers[q]
  }

  /** From the region on: read, look at the clock, append. */
  ghost function Body(c: Config, w: World, p: int, now: Instant): World {
    Step(c, Step(c, Step(c, w, Load(p)), ReadClock(p, now)), AppendFact(p))
  }

  lemma BodyAnswers(c: Config, w: World, p: int, cmd: Command, now: Instant)
    requires At(w, p) == Inside(cmd) && Precheck(cmd).None? && Ahead(c, w, now)
    ensures var w' := Body(c, w, p, now); Answered(c, w, p, cmd, now, w') && At(w', p).Leaving?
  {
    hide Precheck, Examine, Build, ReadFrom, MemoryAppend, Execute;
    EarlyRefusal(c.d, w.streams, cmd, now);
    if ReadFrom(cmd, w.streams).Ok? && Examine(c.d, cmd, ReadFrom(cmd, w.streams).value).None? {
      LateAnswer(c.d, w.streams, cmd, ReadFrom(cmd, w.streams).value, now);
    }
  }

  lemma EntersAlone(c: Config, w: World, p: int, cmd: Command)
    requires Quiet(w)
    ensures var w' := Step(c, Step(c, w, Submit(p, cmd)), Enter(p));
            if Precheck(cmd).Some? then w' == w.(log := w.log + [Entry(p, cmd, w.clock, Err(Precheck(cmd).value))])
            else w' == Move(w, p, Inside(cmd))
  {
    hide Precheck;
  }

  /** Six steps of one writer, among idle ones, are its use case. */
  lemma RunsAlone(c: Config, run: seq<Action>, p: int, cmd: Command, now: Instant) returns (more: seq<Action>)
    requires Quiet(After(c, run)) && Ahead(c, After(c, run), now)
    ensures var w, w' := After(c, run), After(c, more);
            Quiet(w') && Answered(c, w, p, cmd, now, w')
  {
    hide After, Step, Precheck, Execute;
    var w := After(c, run);
    var entered := run + [Submit(p, cmd)] + [Enter(p)];
    Next(c, run, Submit(p, cmd));
    Next(c, run + [Submit(p, cmd)], Enter(p));
    EntersAlone(c, w, p, cmd);
    if Precheck(cmd).Some? {
      EarlyRefusal(c.d, w.streams, cmd, now);
      more := entered;
    } else {
      var loaded, read := entered + [Load(p)], entered + [Load(p)] + [ReadClock(p, now)];
      var answered := read + [AppendFact(p)];
      Next(c, entered, Load(p));
      Next(c, loaded, ReadClock(p, now));
      Next(c, read, AppendFact(p));
      Next(c, answered, Leave(p));
      BodyAnswers(c, After(c, entered), p, cmd, now);
      more := answered + [Leave(p)];
      LeavesQuiet(c, w, p, After(c, answered));
    }
  }

  lemma LeavesQuiet(c: Config, w: World, p: int, w': World)
    requires Quiet(w) && At(w', p).Leaving?
    requires forall q :: q in w'.writers && q != p ==> q in w.writers && w'.writers[q] == w.writers[q]
    ensures Step(c, w', Leave(p)) == Move(w', p, Idle) && Quiet(Move(w', p, Idle))
  {
  }

  // ---- every history ------------------------------------------------------------------------

  ghost predicate Advancing(log: seq<Entry>) {
    && (forall i :: 0 <= i < |log| ==> UNSET < log[i].now)
    && (forall i, j :: 0 <= i < j < |log| ==> log[i].now < log[j].now)
  }

  /** The run told its writers exactly what the history says. */
  ghost predicate SameAnswers(log: seq<Entry>, told: seq<Entry>) {
    |told| == |log| && forall i :: 0 <= i < |log| ==> told[i].cmd == log[i].cmd && told[i].result == log[i].result
  }

  /** The clock stands where some entry read it, if any did. */
  ghost predicate ClockFrom(log: seq<Entry>, clock: Instant) {
    clock == UNSET || exists i :: 0 <= i < |log| && clock == log[i].now
  }

  ghost predicate Realises(c: Config, w: World, log: seq<Entry>) {
    w.streams == StreamsAfter(c.d, log) && SameAnswers(log, w.log) && Quiet(w) && ClockFrom(log, w.clock)
  }

  /** Every sequential history, at readings that advance where the clock must, is
      reached by some run. */
  lemma {:induction false} HistoriesAreReachable(c: Config, log: seq<Entry>) returns (run: seq<Action>)
    requires Sequential(c.d, log) && (c.strictClock ==> Advancing(log))
    ensures Realises(c, After(c, run), log)
  {
    hide After, Execute, Realises, Sequential, Advancing, Quiet, Ahead, Answered;
    if log == [] {
      run := [];
      Beginning(c);
      StartRealises(c);
    } else {
      var n := |log| - 1;
      HistoryPrefix(c, log);
      var before := HistoriesAreReachable(c, log[..n]);
      StillAhead(c, After(c, before), log);
      run := RunsAlone(c, before, log[n].writer, log[n].cmd, log[n].now);
      RealisesNext(c, After(c, before), log, After(c, run));
    }
  }

  lemma StartRealises(c: Config)
    ensures Realises(c, START, [])
  {
  }

  lemma HistoryPrefix(c: Config, log: seq<Entry>)
    requires Sequential(c.d, log) && (c.strictClock ==> Advancing(log)) && log != []
    ensures Sequential(c.d, log[..|log| - 1]) && (c.strictClock ==> Advancing(log[..|log| - 1]))
  {
    hide Execute, StreamsAfter;
    var before := log[..|log| - 1];
    forall i | 0 <= i < |before|
      ensures before[i].result == Execute(c.d, StreamsAfter(c.d, before[..i]), before[i].now, before[i].cmd).1
    {
      assert before[..i] == log[..i];
    }
  }

  lemma StillAhead(c: Config, w: World, log: seq<Entry>)
    requires log != [] && Realises(c, w, log[..|log| - 1]) && (c.strictClock ==> Advancing(log))
    ensures Quiet(w) && Ahead(c, w, log[|log| - 1].now)
  {
  }

  lemma RealisesNext(c: Config, w: World, log: seq<Entry>, w': World)
    requires log != [] && Sequential(c.d, log) && Realises(c, w, log[..|log| - 1]) && Quiet(w')
    requires var e := log[|log| - 1]; Answered(c, w, e.writer, e.cmd, e.now, w')
    ensures Realises(c, w', log)
  {
    hide Execute;
    var n := |log| - 1;
    assert log[..n] == log[..|log| - 1];
    forall i | 0 <= i < |log|
      ensures w'.log[i].cmd == log[i].cmd && w'.log[i].result == log[i].result
    {
      if i < n {
        assert w'.log[i] == w.log[i] && log[i] == log[..n][i];
      }
    }
  }
}
