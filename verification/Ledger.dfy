/** The write use cases (ledger/app usecases.go).  A use case is a decision taken
    inside a store region: what to append, or why not. */
module Ledger {
  import opened Results
  import opened Temporal
  import opened External
  import opened Identity
  import opened Provenance
  import opened Explained
  import opened Facts
  import opened Streams
  import opened Resolution
  import opened Positions
  import opened Stores

  /** Who says so: recorded, never checked beyond its shape. */
  datatype Origin = Origin(source: Source, collectedAt: Instant, interpreter: Interpreter)

  datatype Command =
    | ObserveHolding(stream: string, holding: Holding, effective: Interval, origin: Origin,
                     confidence: Confidence, references: seq<ReferenceBinding>)
    | AcceptHoldingClaim(stream: string, account: Claim, instrument: Claim, quantity: Quantity,
                         effective: Interval, origin: Origin, confidence: Confidence,
                         references: seq<ReferenceBinding>)
    | CorrectFact(stream: string, corrects: Ref, correction: CorrectionKind, reason: string,
                  origin: Origin, confidence: Confidence)
    | MintIdentity(stream: string, kind: EntityKind, claim: Claim, answers: Ref, effective: Interval,
                   origin: Origin, confidence: Confidence, references: seq<ReferenceBinding>)
    | ObserveClaimedHolding(stream: string, claimRef: Ref, asOf: AsOf, origin: Origin)

  /** What a Ledger is wired with. */
  datatype Deployment = Deployment(platform: Platform, rules: Ruleset)

  // ---- the decision, step by step --------------------------------------------------------

  /** Refusals before the region is entered. */
  function Precheck(cmd: Command): Option<Error> {
    match cmd
    case AcceptHoldingClaim(_, account, instrument, _, _, origin, _, _) =>
      if !IsContentAddress(origin.source) then Some(ErrMalformedSource)
      else if account.IsZero() || instrument.IsZero() then Some(ErrIncompleteEnvelope)
      else None
    case MintIdentity(_, kind, claim, _, _, origin, _, _) =>
      if !IsContentAddress(origin.source) then Some(ErrMalformedSource)
      else if !ValidEntityKind(kind) then Some(ErrUnknownEntityKind)
      else if claim.IsZero() then Some(ErrIncompleteEnvelope)
      else None
    case _ => None
  }

  /** Whether the use case reads the stream it writes. */
  predicate Reads(cmd: Command) {
    cmd.CorrectFact? || cmd.MintIdentity? || cmd.ObserveClaimedHolding?
  }

  /** What a reading use case makes of Load: a mint takes an absent stream as empty. */
  function Snapshot(cmd: Command, loaded: Result<Stream>): Result<Stream> {
    if cmd.MintIdentity? && loaded == Err(ErrStreamNotFound) then NewStream(cmd.stream) else loaded
  }

  /** Refusals after the read and before the clock. */
  function Examine(d: Deployment, cmd: Command, s: Stream): Option<Error> {
    match cmd
    case CorrectFact(_, corrects, correction, _, _, _) =>
      if Get(s, corrects).Err? then Some(ErrNotFound)
      else if !ValidCorrectionKind(correction) then Some(ErrUnknownKind)
      else None
    case ObserveClaimedHolding(_, claimRef, asOf, _) =>
      if Get(s, claimRef).Err? then Some(ErrNotFound)
      else
        var observed := DeriveHoldingObserved(d.platform, d.rules, s, Get(s, claimRef).value, asOf);
        if observed.Err? then Some(observed.error) else None
    case _ => None
  }

  /** Coordinates, provenance and envelope, in that order. */
  function Seal(effective: Interval, now: Instant, prov: Result<Provenance>, references: seq<ReferenceBinding>)
    : Result<Envelope>
  {
    var coordinates :- Assign(effective, now);
    var p :- prov;
    NewEnvelope(coordinates, p, references)
  }

  function ObservedBy(o: Origin, confidence: Confidence): Result<Provenance> {
    Observed(o.source, o.collectedAt, o.interpreter, confidence)
  }

  function DerivedBy(o: Origin, trace: string, confidence: Confidence): Result<Provenance> {
    Derived(o.source, o.collectedAt, o.interpreter, trace, confidence)
  }

  /** ObserveHolding and AcceptHoldingClaim: stated by the caller, resting on no read. */
  function BuildStated(cmd: Command, now: Instant): Result<Request>
    requires cmd.ObserveHolding? || cmd.AcceptHoldingClaim?
  {
    var envelope :- Seal(cmd.effective, now, ObservedBy(cmd.origin, cmd.confidence), cmd.references);
    Ok(Request(Any, envelope, OBSERVATION,
               if cmd.ObserveHolding? then HoldingObserved(cmd.holding)
               else HoldingClaimed(cmd.account, cmd.instrument, cmd.quantity)))
  }

  /** CorrectFact: in force over exactly the interval of what it corrects. */
  function BuildCorrection(cmd: Command, s: Stream, now: Instant): Result<Request>
    requires cmd.CorrectFact?
  {
    var corrected :- Get(s, cmd.corrects);
    var envelope :- Seal(corrected.envelope.coordinates.effective, now, ObservedBy(cmd.origin, cmd.confidence), []);
    Ok(Request(AtLength(|s.facts|), envelope, OBSERVATION, FactCorrected(cmd.corrects, cmd.correction, cmd.reason)))
  }

  /** MintIdentity: resolve at the coordinate the mint would occupy, and refuse if
      anything answers. */
  function BuildMint(d: Deployment, cmd: Command, s: Stream, now: Instant): Result<Request>
    requires cmd.MintIdentity?
  {
    var asOf :- NewAsOf(cmd.effective.from, now);
    match Resolve(d.platform.cases, d.rules, s, cmd.claim, asOf)
    case Ok(_) => Err(ErrAlreadyMinted)
    case Err(_) =>
      var answers := if cmd.answers.stream != "" then [cmd.answers.Render()] else [];
      var minted :- MintFor(d.platform, d.rules, cmd.kind, cmd.claim, answers, cmd.confidence);
      var envelope :- Seal(cmd.effective, now, DerivedBy(cmd.origin, minted.trace, cmd.confidence), cmd.references);
      Ok(Request(AtLength(|s.facts|), envelope, OCCURRENCE, minted.value))
  }

  /** ObserveClaimedHolding: derived from the claim and both mints. */
  function BuildObservation(d: Deployment, cmd: Command, s: Stream, now: Instant): Result<Request>
    requires cmd.ObserveClaimedHolding?
  {
    var claimed :- Get(s, cmd.claimRef);
    var observed :- DeriveHoldingObserved(d.platform, d.rules, s, claimed, cmd.asOf);
    var envelope :- Seal(claimed.envelope.coordinates.effective, now,
                         DerivedBy(cmd.origin, observed.trace, observed.record.body.confidence),
                         claimed.envelope.references);
    Ok(Request(AtLength(|s.facts|), envelope, OBSERVATION, HoldingObserved(observed.value)))
  }

  /** What a use case asks the store to append, given its snapshot and the clock. */
  function Build(d: Deployment, cmd: Command, s: Stream, now: Instant): Result<Request> {
    match cmd
    case ObserveHolding(_, _, _, _, _, _) => BuildStated(cmd, now)
    case AcceptHoldingClaim(_, _, _, _, _, _, _, _) => BuildStated(cmd, now)
    case CorrectFact(_, _, _, _, _, _) => BuildCorrection(cmd, s, now)
    case MintIdentity(_, _, _, _, _, _, _, _) => BuildMint(d, cmd, s, now)
    case ObserveClaimedHolding(_, _, _, _) => BuildObservation(d, cmd, s, now)
  }

  /** The snapshot a use case decides on when it runs alone: its stream, or an
      empty one it never looks at. */
  function ReadFrom(cmd: Command, streams: StreamMap): Result<Stream> {
    if Reads(cmd) then Snapshot(cmd, MemoryLoad(streams, cmd.stream)) else Ok(Stream(cmd.stream, []))
  }

  /** A whole use case run alone, its clock reading given. */
  function Execute(d: Deployment, streams: StreamMap, now: Instant, cmd: Command): (StreamMap, Result<Ref>) {
    if Precheck(cmd).Some? then (streams, Err(Precheck(cmd).value))
    else
      match ReadFrom(cmd, streams)
      case Err(e) => (streams, Err(e))
      case Ok(s) =>
        if Examine(d, cmd, s).Some? then (streams, Err(Examine(d, cmd, s).value))
        else
          match Build(d, cmd, s, now)
          case Err(e) => (streams, Err(e))
          case Ok(q) => MemoryAppend(streams, cmd.stream, q)
  }

  // ---- the use cases as they run ----------------------------------------------------------

  class Service {
    const d: Deployment
    const store: MemoryStore

    constructor (d: Deployment, store: MemoryStore)
      ensures this.d == d && this.store == store
    {
      this.d, this.store := d, store;
    }

    method ObserveHolding(cmd: Command, now: Instant) returns (r: Result<Ref>)
      requires cmd.ObserveHolding?
      modifies store
      ensures (store.streams, r) == Execute(d, old(store.streams), now, cmd)
    {
      hide MemoryAppend;
      var coordinates := Assign(cmd.effective, now);
      if coordinates.Err? {
        return Err(coordinates.error);
      }
      var prov := Observed(cmd.origin.source, cmd.origin.collectedAt, cmd.origin.interpreter, cmd.confidence);
      if prov.Err? {
        return Err(prov.error);
      }
      var envelope := NewEnvelope(coordinates.value, prov.value, cmd.references);
      if envelope.Err? {
        return Err(envelope.error);
      }
      r := store.Append(cmd.stream, Request(Any, envelope.value, OBSERVATION, HoldingObserved(cmd.holding)));
    }

    method AcceptHoldingClaim(cmd: Command, now: Instant) returns (r: Result<Ref>)
      requires cmd.AcceptHoldingClaim?
      modifies store
      ensures (store.streams, r) == Execute(d, old(store.streams), now, cmd)
    {
      hide MemoryAppend, IsContentAddress;
      if !IsContentAddress(cmd.origin.source) {
        return Err(ErrMalformedSource);
      }
      if cmd.account.IsZero() || cmd.instrument.IsZero() {
        return Err(ErrIncompleteEnvelope);
      }
      var coordinates := Assign(cmd.effective, now);
      if coordinates.Err? {
        return Err(coordinates.error);
      }
      var prov := Observed(cmd.origin.source, cmd.origin.collectedAt, cmd.origin.interpreter, cmd.confidence);
      if prov.Err? {
        return Err(prov.error);
      }
      var envelope := NewEnvelope(coordinates.value, prov.value, cmd.references);
      if envelope.Err? {
        return Err(envelope.error);
      }
      r := store.Append(cmd.stream, Request(Any, envelope.value, OBSERVATION,
                                            HoldingClaimed(cmd.account, cmd.instrument, cmd.quantity)));
    }

    method CorrectFact(cmd: Command, now: Instant) returns (r: Result<Ref>)
      requires cmd.CorrectFact?
      modifies store
      ensures (store.streams, r) == Execute(d, old(store.streams), now, cmd)
    {
      hide MemoryAppend;
      var stream := store.Load(cmd.stream);
      if stream.Err? {
        return Err(stream.error);
      }
      var corrected := Get(stream.value, cmd.corrects);
      if corrected.Err? {
        return Err(corrected.error);
      }
      if !ValidCorrectionKind(cmd.correction) {
        return Err(ErrUnknownKind);
      }
      var coordinates := Assign(corrected.value.envelope.coordinates.effective, now);
      if coordinates.Err? {
        return Err(coordinates.error);
      }
      var prov := Observed(cmd.origin.source, cmd.origin.collectedAt, cmd.origin.interpreter, cmd.confidence);
      if prov.Err? {
        return Err(prov.error);
      }
      var envelope := NewEnvelope(coordinates.value, prov.value, []);
      if envelope.Err? {
        return Err(envelope.error);
      }
      r := store.Append(cmd.stream, Request(AtLength(|stream.value.facts|), envelope.value, OBSERVATION,
                                            FactCorrected(cmd.corrects, cmd.correction, cmd.reason)));
    }

    /** load: an absent stream is an empty one to a mint. */
    method LoadOrEmpty(name: string) returns (r: Result<Stream>)
      ensures r == if MemoryLoad(store.streams, name) == Err(ErrStreamNotFound) then NewStream(name)
                   else MemoryLoad(store.streams, name)
    {
      r := store.Load(name);
      if r.Err? && r.error == ErrStreamNotFound {
        r := NewStream(name);
      }
    }

    method MintIdentity(cmd: Command, now: Instant) returns (r: Result<Ref>)
      requires cmd.MintIdentity?
      modifies store
      ensures (store.streams, r) == Execute(d, old(store.streams), now, cmd)
    {
      hide MemoryAppend, IsContentAddress, Resolve, MintFor;
      if !IsContentAddress(cmd.origin.source) {
        return Err(ErrMalformedSource);
      }
      if !ValidEntityKind(cmd.kind) {
        return Err(ErrUnknownEntityKind);
      }
      if cmd.claim.IsZero() {
        return Err(ErrIncompleteEnvelope);
      }
      var stream := LoadOrEmpty(cmd.stream);
      if stream.Err? {
        return Err(stream.error);
      }
      var resolvedAt := |stream.value.facts|;
      var asOf := NewAsOf(cmd.effective.from, now);
      if asOf.Err? {
        return Err(asOf.error);
      }
      var existing := Resolve(d.platform.cases, d.rules, stream.value, cmd.claim, asOf.value);
      if existing.Ok? {
        return Err(ErrAlreadyMinted);
      }
      var answers := [];
      if cmd.answers.stream != "" {
        answers := [cmd.answers.Render()];
      }
      var minted := MintFor(d.platform, d.rules, cmd.kind, cmd.claim, answers, cmd.confidence);
      if minted.Err? {
        return Err(minted.error);
      }
      var coordinates := Assign(cmd.effective, now);
      if coordinates.Err? {
        return Err(coordinates.error);
      }
      var prov := Derived(cmd.origin.source, cmd.origin.collectedAt, cmd.origin.interpreter,
                          minted.value.trace, cmd.confidence);
      if prov.Err? {
        return Err(prov.error);
      }
      var envelope := NewEnvelope(coordinates.value, prov.value, cmd.references);
      if envelope.Err? {
        return Err(envelope.error);
      }
      r := store.Append(cmd.stream, Request(AtLength(resolvedAt), envelope.value, OCCURRENCE, minted.value.value));
    }

    method ObserveClaimedHolding(cmd: Command, now: Instant) returns (r: Result<Ref>)
      requires cmd.ObserveClaimedHolding?
      modifies store
      ensures (store.streams, r) == Execute(d, old(store.streams), now, cmd)
    {
      hide MemoryAppend, DeriveHoldingObserved;
      var stream := store.Load(cmd.stream);
      if stream.Err? {
        return Err(stream.error);
      }
      var claimed := Get(stream.value, cmd.claimRef);
      if claimed.Err? {
        return Err(claimed.error);
      }
      var observed := DeriveHoldingObserved(d.platform, d.rules, stream.value, claimed.value, cmd.asOf);
      if observed.Err? {
        return Err(observed.error);
      }
      var coordinates := Assign(claimed.value.envelope.coordinates.effective, now);
      if coordinates.Err? {
        return Err(coordinates.error);
      }
      var prov := Derived(cmd.origin.source, cmd.origin.collectedAt, cmd.origin.interpreter,
                          observed.value.trace, observed.value.record.body.confidence);
      if prov.Err? {
        return Err(prov.error);
      }
      var envelope := NewEnvelope(coordinates.value, prov.value, claimed.value.envelope.references);
      if envelope.Err? {
        return Err(envelope.error);
      }
      r := store.Append(cmd.stream, Request(AtLength(|stream.value.facts|), envelope.value, OBSERVATION,
                                            HoldingObserved(observed.value.value)));
    }

    method UnresolvedClaims(name: string, a: AsOf) returns (r: Result<seq<UnresolvedClaim>>)
      ensures name !in store.streams ==> r == Err(ErrStreamNotFound)
      ensures name in store.streams ==>
                var s := store.streams[name];
                r == Ok(UnresolvedIn(d.platform.cases, d.rules, s, a, VisibleAt(s, a)))
    {
      hide UnresolvedIn, VisibleAt;
      var stream := store.Load(name);
      if stream.Err? {
        return Err(stream.error);
      }
      var waiting := Unresolved(d.platform.cases, d.rules, stream.value, a);
      return Ok(waiting);
    }

    method ProjectPosition(name: string, account: ID, instrument: ID, a: AsOf) returns (r: Result<Value<Position>>)
      ensures name !in store.streams ==> r == Err(ErrStreamNotFound)
      ensures name in store.streams ==> r == Projected(d.platform, store.streams[name], account, instrument, a)
    {
      hide Projected;
      var stream := store.Load(name);
      if stream.Err? {
        return Err(stream.error);
      }
      r := Positions.ProjectPosition(d.platform, stream.value, account, instrument, a);
    }
  }
}
