/** Any number of writers over the reference store, interleaved step by step (ledger/app
    usecases.go).  The regions stand for either adapter's Serialise; what the durable
    store makes of the same commands is compared in SqliteLedger.  A run is any sequence
    of actions; an action that cannot happen leaves the world as it is. */
module Protocol {
  import opened Results
  import opened Temporal
  import opened Facts
  import opened Streams
  import opened Stores
  import opened Ledger

  /** Where a writer stands in its use case. */
  datatype Writer =
    | Idle
    | Waiting(cmd: Command)                                              // not yet in the region
    | Inside(cmd: Command)                                               // in the region, nothing read
    | Decided(cmd: Command, snapshot: Stream)                            // read and examined
    | Ready(cmd: Command, snapshot: Stream, now: Instant, request: Request)  // clock read, envelope built
    | Leaving(cmd: Command)                                              // answered, still in the region
  {
    predicate InRegion() {
      !Idle? && !Waiting?
    }
  }

  /** `lockOf` is any lock table: the 256 shards of the memory store, or one lock for
      a whole SQLite file.  Without `exclusive` a region excludes nobody; without
      `strictClock` a reading may be anything at all. */
  datatype Config = Config(d: Deployment, lockOf: string -> int, exclusive: bool, strictClock: bool)

  /** What a writer was told, and the clock reading it acted on. */
  datatype Entry = Entry(writer: int, cmd: Command, now: Instant, result: Result<Ref>)

  datatype World = World(streams: StreamMap, writers: map<int, Writer>, clock: Instant, log: seq<Entry>)

  datatype Action =
    | Submit(writer: int, cmd: Command)
    | Enter(writer: int)
    | Load(writer: int)
    | ReadClock(writer: int, now: Instant)
    | AppendFact(writer: int)
    | Leave(writer: int)

  const START: World := World(map[], map[], UNSET, [])

  function At(w: World, p: int): Writer {
    if p in w.writers then w.writers[p] else Idle
  }

  function Move(w: World, p: int, state: Writer): World {
    w.(writers := w.writers[p := state])
  }

  /** The writer is answered and about to leave its region. */
  function Answer(w: World, p: int, cmd: Command, now: Instant, result: Result<Ref>): World {
    w.(writers := w.writers[p := Leaving(cmd)], log := w.log + [Entry(p, cmd, now, result)])
  }

  ghost predicate LockFree(c: Config, w: World, p: int, name: string) {
    forall q :: q in w.writers && q != p && w.writers[q].InRegion() ==>
      c.lockOf(w.writers[q].cmd.stream) != c.lockOf(name)
  }

  ghost function DoSubmit(w: World, p: int, cmd: Command): World {
    if !At(w, p).Idle? then w
    else if Precheck(cmd).Some? then w.(log := w.log + [Entry(p, cmd, w.clock, Err(Precheck(cmd).value))])
    else Move(w, p, Waiting(cmd))
  }

  ghost function DoEnter(c: Config, w: World, p: int): World {
    if At(w, p).Waiting? && (c.exclusive ==> LockFree(c, w, p, At(w, p).cmd.stream))
    then Move(w, p, Inside(At(w, p).cmd))
    else w
  }

  ghost function DoLoad(c: Config, w: World, p: int): World {
    if !At(w, p).Inside? then w
    else
      var cmd := At(w, p).cmd;
      match ReadFrom(cmd, w.streams)
      case Err(e) => Answer(w, p, cmd, w.clock, Err(e))
      case Ok(s) =>
        if Examine(c.d, cmd, s).Some? then Answer(w, p, cmd, w.clock, Err(Examine(c.d, cmd, s).value))
        else Move(w, p, Decided(cmd, s))
  }

  ghost function DoReadClock(c: Config, w: World, p: int, now: Instant): World {
    if !At(w, p).Decided? || (c.strictClock && now <= w.clock) then w
    else
      var cmd, s := At(w, p).cmd, At(w, p).snapshot;
      match Build(c.d, cmd, s, now)
      case Err(e) => Answer(w.(clock := now), p, cmd, now, Err(e))
      case Ok(q) => Move(w.(clock := now), p, Ready(cmd, s, now, q))
  }

  ghost function DoAppend(w: World, p: int): World {
    if !At(w, p).Ready? then w
    else
      var Ready(cmd, _, now, q) := At(w, p);
      var (streams, r) := MemoryAppend(w.streams, cmd.stream, q);
      Answer(w.(streams := streams), p, cmd, now, r)
  }

  ghost function Step(c: Config, w: World, a: Action): World {
    match a
    case Submit(p, cmd) => DoSubmit(w, p, cmd)
    case Enter(p) => DoEnter(c, w, p)
    case Load(p) => DoLoad(c, w, p)
    case ReadClock(p, now) => DoReadClock(c, w, p, now)
    case AppendFact(p) => DoAppend(w, p)
    case Leave(p) => if At(w, p).Leaving? then Move(w, p, Idle) else w
  }

  /** The world after a run. */
  ghost function After(c: Config, run: seq<Action>): World {
    if run == [] then START else Step(c, After(c, run[..|run| - 1]), run[|run| - 1])
  }

  lemma Beginning(c: Config)
    ensures After(c, []) == START
  {
  }

  lemma Next(c: Config, run: seq<Action>, a: Action)
    ensures After(c, run + [a]) == Step(c, After(c, run), a)
  {
    hide Step;
    assert (run + [a])[..|run + [a]| - 1] == run;
  }
}
