/** The store port and its reference implementation (ledger/app ports.go,
    ledger/adapters/memory store.go). */
module Stores {
  import opened Results
  import opened Temporal
  import opened Facts
  import opened Streams

  /** The length of the stream a decision was taken on, or that none was looked at. */
  datatype Expectation = Any | AtLength(n: int)

  /** One append, as the port takes it. */
  datatype Request = Request(precondition: Expectation, envelope: Envelope, kind: FactKind, payload: Payload)

  type StreamMap = map<string, Stream>

  function FactsOf(streams: StreamMap, name: string): seq<Fact> {
    if name in streams then streams[name].facts else []
  }

  function MemoryLoad(streams: StreamMap, name: string): Result<Stream> {
    if name in streams then Ok(streams[name]) else Err(ErrStreamNotFound)
  }

  /** Stale reads first, then the knowledge check, then the domain's own checks. */
  function ExtendStream(s: Stream, q: Request): Result<(Stream, Ref)> {
    if q.precondition.AtLength? && |s.facts| != q.precondition.n then Err(ErrStaleRead)
    else if |s.facts| > 0 && q.envelope.coordinates.knowledge <= s.facts[|s.facts| - 1].Known()
    then Err(ErrNonMonotonicKnowledge)
    else Append(s, q.envelope, q.kind, q.payload)
  }

  function MemoryAppend(streams: StreamMap, name: string, q: Request): (StreamMap, Result<Ref>) {
    var held := if name in streams then Ok(streams[name]) else NewStream(name);
    match held
    case Err(e) => (streams, Err(e))
    case Ok(s) =>
      match ExtendStream(s, q)
      case Err(e) => (streams, Err(e))
      case Ok((extended, ref)) => (streams[name := extended], Ok(ref))
  }

  /** What every reachable store satisfies, stream by stream. */
  ghost predicate GoodStream(name: string, s: Stream) {
    s.name == name && name != "" && s.facts != [] && Numbered(s) && Monotone(s)
  }

  ghost predicate GoodStreams(streams: StreamMap) {
    forall name :: name in streams ==> GoodStream(name, streams[name])
  }

  /** Everything on a stream was known before now. */
  ghost predicate AllBefore(streams: StreamMap, name: string, now: Instant) {
    forall i :: 0 <= i < |FactsOf(streams, name)| ==> FactsOf(streams, name)[i].Known() < now
  }

  class MemoryStore {
    var streams: StreamMap

    constructor ()
      ensures streams == map[]
    {
      streams := map[];
    }

    method Load(name: string) returns (r: Result<Stream>)
      ensures r == MemoryLoad(streams, name)
    {
      if name !in streams {
        return Err(ErrStreamNotFound);
      }
      return Ok(streams[name]);
    }

    method Append(name: string, q: Request) returns (r: Result<Ref>)
      modifies this
      ensures (streams, r) == MemoryAppend(old(streams), name, q)
    {
      var stream: Stream;
      if name in streams {
        stream := streams[name];
      } else {
        var created := NewStream(name);
        if created.Err? {
          return Err(created.error);
        }
        stream := created.value;
      }
      if q.precondition.AtLength? && |stream.facts| != q.precondition.n {
        return Err(ErrStaleRead);
      }
      if |stream.facts| > 0 {
        var last := stream.facts[|stream.facts| - 1].Known();
        if !(q.envelope.coordinates.knowledge > last) {
          return Err(ErrNonMonotonicKnowledge);
        }
      }
      var extended := Streams.Append(stream, q.envelope, q.kind, q.payload);
      if extended.Err? {
        return Err(extended.error);
      }
      streams := streams[name := extended.value.0];
      return Ok(extended.value.1);
    }
  }

  /** What a successful append does: one more fact at the end of one stream, known
      later than everything before it, addressed by the returned reference. */
  lemma AppendGrows(streams: StreamMap, name: string, q: Request)
    requires GoodStreams(streams)
    ensures var (streams', r) := MemoryAppend(streams, name, q);
            && GoodStreams(streams')
            && (r.Err? ==> streams' == streams)
            && (r.Ok? ==>
                  && streams'.Keys == streams.Keys + {name}
                  && (forall other :: other in streams && other != name ==> streams'[other] == streams[other])
                  && r.value == Ref(name, |FactsOf(streams, name)| + 1)
                  && streams'[name].facts
                       == FactsOf(streams, name) + [Fact(r.value, q.envelope, q.kind, q.payload)]
                  && Get(streams'[name], r.value) == Ok(Fact(r.value, q.envelope, q.kind, q.payload)))
  {
  }

  /** Exactly when an append is accepted, and exactly when it is stale or too late. */
  lemma AppendRefusals(streams: StreamMap, name: string, q: Request)
    requires GoodStreams(streams)
    ensures var (_, r) := MemoryAppend(streams, name, q);
            var facts := FactsOf(streams, name);
            && (r.Ok? <==>
                  && name != "" && !(q.precondition.AtLength? && q.precondition.n != |facts|)
                  && (facts != [] ==> facts[|facts| - 1].Known() < q.envelope.coordinates.knowledge)
                  && NewFact(Ref(name, |facts| + 1), q.envelope, q.kind, q.payload).Ok?)
            && (r == Err(ErrStaleRead) <==> name != "" && q.precondition.AtLength? && q.precondition.n != |facts|)
            && (r == Err(ErrNonMonotonicKnowledge) <==>
                  && name != "" && !(q.precondition.AtLength? && q.precondition.n != |facts|)
                  && facts != [] && q.envelope.coordinates.knowledge <= facts[|facts| - 1].Known())
  {
  }
}
