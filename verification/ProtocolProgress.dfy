/** No run is a dead end: whatever the regions and the clock, every writer can still be
    answered. */
module ProtocolProgress {
  import opened Temporal
  import opened Stores
  import opened Ledger
  import opened Protocol
  import opened ProtocolReach

  /** One writer went on inside its region, perhaps to its answer; nobody else moved. */
  ghost predicate Moves(w: World, w': World, p: int) {
    && (forall q :: q != p ==> At(w', q) == At(w, q))
    && At(w, p).InRegion() && At(w', p).InRegion() && At(w', p).cmd == At(w, p).cmd
    && (At(w, p).Leaving? ==> At(w', p).Leaving?)
    && if At(w', p).Leaving? && !At(w, p).Leaving?
       then |w'.log| == |w.log| + 1 && w'.log[..|w.log|] == w.log && AnswerTo(w'.log[|w.log|], p, At(w, p).cmd)
       else w'.log == w.log
  }

  ghost predicate AnswerTo(e: Entry, p: int, cmd: Command) {
    e.writer == p && e.cmd == cmd
  }

  lemma MovesOn(a: World, b: World, e: World, p: int)
    requires Moves(a, b, p) && Moves(b, e, p)
    ensures Moves(a, e, p)
  {
    hide At;
  }

  lemma LoadMoves(c: Config, w: World, p: int)
    requires At(w, p).InRegion()
    ensures Moves(w, Step(c, w, Load(p)), p) && !At(Step(c, w, Load(p)), p).Inside?
  {
    hide Examine, ReadFrom;
  }

  lemma ClockMoves(c: Config, w: World, p: int, now: Instant)
    requires At(w, p).InRegion() && !At(w, p).Inside? && w.clock < now
    ensures var w' := Step(c, w, ReadClock(p, now));
            Moves(w, w', p) && !At(w', p).Inside? && !At(w', p).Decided?
  {
    hide Build;
  }

  lemma AppendMoves(c: Config, w: World, p: int)
    requires At(w, p).InRegion() && !At(w, p).Inside? && !At(w, p).Decided?
    ensures Moves(w, Step(c, w, AppendFact(p)), p) && At(Step(c, w, AppendFact(p)), p).Leaving?
  {
    hide MemoryAppend;
  }

  /** One writer got its answer, if it still waited for one, and is idle. */
  ghost predicate Finishes(w: World, w': World, p: int) {
    && (forall q :: q != p ==> At(w', q) == At(w, q))
    && At(w', p).Idle? && !At(w, p).Idle? && w.log <= w'.log
    && (!At(w, p).Leaving? ==> |w'.log| == |w.log| + 1 && AnswerTo(w'.log[|w.log|], p, At(w, p).cmd))
  }

  lemma LeaveFinishes(c: Config, w: World, w': World, p: int)
    requires Moves(w, w', p) && At(w', p).Leaving?
    ensures Finishes(w, Step(c, w', Leave(p)), p)
  {
  }

  /** Whoever is in a region can finish without help. */
  lemma FinishInside(c: Config, run: seq<Action>, p: int) returns (more: seq<Action>)
    requires At(After(c, run), p).InRegion()
    ensures Finishes(After(c, run), After(c, run + more), p)
  {
    hide After, Step, Moves, Finishes;
    var w := After(c, run);
    var load, append, leave := Load(p), AppendFact(p), Leave(p);
    Next(c, run, load);
    var w1 := Step(c, w, load);
    LoadMoves(c, w, p);
    MovesInRegion(w, w1, p);
    var read := ReadClock(p, w1.clock + 1);
    Next(c, run + [load], read);
    var w2 := Step(c, w1, read);
    ClockMoves(c, w1, p, w1.clock + 1);
    MovesInRegion(w1, w2, p);
    Next(c, run + [load] + [read], append);
    var w3 := Step(c, w2, append);
    AppendMoves(c, w2, p);
    MovesOn(w, w1, w2, p);
    MovesOn(w, w2, w3, p);
    Next(c, run + [load] + [read] + [append], leave);
    LeaveFinishes(c, w, w3, p);
    more := [load, read, append, leave];
    assert run + more == run + [load] + [read] + [append] + [leave];
  }

  lemma MovesInRegion(w: World, w': World, p: int)
    requires Moves(w, w', p)
    ensures At(w', p).InRegion()
  {
  }

  /** With nobody in a region the lock is free to anyone who waits. */
  lemma FinishWaiting(c: Config, run: seq<Action>, p: int) returns (more: seq<Action>)
    requires At(After(c, run), p).Waiting?
    requires forall q :: q in After(c, run).writers ==> !After(c, run).writers[q].InRegion()
    ensures Finishes(After(c, run), After(c, run + more), p)
  {
    hide After, Step, Finishes;
    var w, enter := After(c, run), Enter(p);
    Next(c, run, enter);
    EnterMoves(c, w, p);
    var rest := FinishInside(c, run + [enter], p);
    more := [enter] + rest;
    assert run + more == run + [enter] + rest;
    FinishAfterEnter(w, After(c, run + [enter]), After(c, run + more), p);
  }

  lemma EnterMoves(c: Config, w: World, p: int)
    requires At(w, p).Waiting? && forall q :: q in w.writers ==> !w.writers[q].InRegion()
    ensures Step(c, w, Enter(p)) == Move(w, p, Inside(At(w, p).cmd))
  {
  }

  lemma FinishAfterEnter(w: World, w1: World, w2: World, p: int)
    requires At(w, p).Waiting? && w1 == Move(w, p, Inside(At(w, p).cmd)) && Finishes(w1, w2, p)
    ensures Finishes(w, w2, p)
  {
    assert forall q :: q != p ==> At(w1, q) == At(w, q);
  }

  // ---- everybody ----------------------------------------------------------------------------------

  ghost function Pending(w: World): set<int> {
    set p | p in w.writers && !w.writers[p].Idle?
  }

  /** A writer that waited for an answer at w has it by w'. */
  ghost predicate Told(w: World, w': World, p: int) {
    At(w, p).Idle? || At(w, p).Leaving?
    || exists i :: |w.log| <= i < |w'.log| && AnswerTo(w'.log[i], p, At(w, p).cmd)
  }

  lemma PendingShrinks(w: World, w': World, p: int)
    requires Finishes(w, w', p)
    ensures Pending(w') == Pending(w) - {p} && p in Pending(w)
  {
    forall q
      ensures q in Pending(w') <==> q in Pending(w) && q != p
    {
      assert q in Pending(w') <==> !At(w', q).Idle?;
      assert q in Pending(w) <==> !At(w, q).Idle?;
    }
  }

  lemma ToldBefore(w: World, w1: World, w2: World, p: int)
    requires Finishes(w, w1, p) && w1.log <= w2.log && forall q :: Told(w1, w2, q)
    ensures forall q :: Told(w, w2, q)
  {
    forall q
      ensures Told(w, w2, q)
    {
      if q == p && !At(w, p).Leaving? {
        assert w2.log[|w.log|] == w1.log[|w.log|];
      } else if q != p {
        assert Told(w1, w2, q);
      }
    }
  }

  /** From every reachable world the run can go on so that every writer that waits for an
      answer gets one, all are idle, and no earlier answer is lost.  Regions never lock
      each other out, under any lock table. */
  lemma {:induction false} EveryoneCanBeAnswered(c: Config, run: seq<Action>) returns (more: seq<Action>)
    ensures var w, w' := After(c, run), After(c, run + more);
            Quiet(w') && w.log <= w'.log && forall p :: Told(w, w', p)
    decreases |Pending(After(c, run))|
  {
    hide After, Finishes, Told;
    var w := After(c, run);
    if Pending(w) == {} {
      more := [];
      assert run + more == run;
      NobodyPending(w);
    } else {
      var p, first := FinishSomeone(c, run);
      var w1 := After(c, run + first);
      PendingShrinks(w, w1, p);
      FinishKeepsLog(w, w1, p);
      var rest := EveryoneCanBeAnswered(c, run + first);
      more := first + rest;
      assert run + more == run + first + rest;
      ToldBefore(w, w1, After(c, run + more), p);
    }
  }

  lemma FinishSomeone(c: Config, run: seq<Action>) returns (p: int, more: seq<Action>)
    requires Pending(After(c, run)) != {}
    ensures Finishes(After(c, run), After(c, run + more), p)
  {
    hide After, Finishes;
    var w := After(c, run);
    if q :| q in w.writers && w.writers[q].InRegion() {
      p := q;
      more := FinishInside(c, run, p);
    } else {
      assert (forall q :: q !in Pending(w)) ==> Pending(w) == {};
      p :| p in Pending(w);
      more := FinishWaiting(c, run, p);
    }
  }

  lemma FinishKeepsLog(w: World, w': World, p: int)
    requires Finishes(w, w', p)
    ensures w.log <= w'.log
  {
  }

  lemma NobodyPending(w: World)
    requires Pending(w) == {}
    ensures Quiet(w) && forall p :: Told(w, w, p)
  {
    forall p
      ensures At(w, p).Idle?
    {
      assert p !in Pending(w);
    }
    assert forall p :: p in w.writers ==> w.writers[p] == At(w, p);
  }
}
