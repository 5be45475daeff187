/** What a producer sends, and the check it can run first (ledger-wire submission.go,
    examples/ingest conform.go). */
module Submissions {
  import opened Results
  import opened Text
  import opened Temporal
  import opened External
  import opened Identity
  import opened Provenance
  import opened Facts
  import opened Streams
  import opened Stores
  import opened Wire
  import opened Sqlite
  import opened StoreAgreement
  import opened Ledger
  import opened LedgerLaws
  import opened Outcomes
  import opened Protocol
  import opened ProtocolSerial
  import opened ProtocolExclusion
  import opened SqliteLedger

  datatype WireInterpreter = WireInterpreter(name: string, version: string)

  datatype WireSubmission = WireSubmission(
    stream: string, account: Option<WireClaim>, instrument: Option<WireClaim>, quantity: Option<WireQuantity>,
    effective: Option<WireInterval>, source: Option<string>, collectedAt: Option<Timestamp>,
    interpreter: Option<WireInterpreter>, confidence: WireConfidence, references: seq<Option<WireBinding>>)

  function EncodeSubmission(cmd: Command): WireSubmission
    requires cmd.AcceptHoldingClaim?
  {
    WireSubmission(
      cmd.stream, Some(EncodeClaim(cmd.account)), Some(EncodeClaim(cmd.instrument)),
      Some(EncodeQuantity(cmd.quantity)), Some(EncodeInterval(cmd.effective)), Some(cmd.origin.source),
      EncodeInstant(cmd.origin.collectedAt),
      Some(WireInterpreter(cmd.origin.interpreter.name, cmd.origin.interpreter.version)),
      EncodeConfidence(cmd.confidence), EncodeBindings(cmd.references))
  }

  /** An absent source or interpreter reads as empty text, which the constructors refuse.
      The grammar of the source is left to admission. */
  function DecodeSubmission(cases: CaseTables, w: Option<WireSubmission>): Result<Command> {
    if w.None? then Err(ErrMalformed)
    else
      var account :- DecodeClaim(cases, w.value.account);
      var instrument :- DecodeClaim(cases, w.value.instrument);
      var quantity :- DecodeQuantity(w.value.quantity);
      var effective :- DecodeInterval(w.value.effective);
      var source :- NewSource(if w.value.source.Some? then w.value.source.value else "");
      var collectedAt :- DecodeInstant(w.value.collectedAt);
      var said := if w.value.interpreter.Some? then w.value.interpreter.value else WireInterpreter("", "");
      var interpreter :- NewInterpreter(said.name, said.version);
      var confidence :- DecodeConfidence(w.value.confidence);
      var references :- DecodeBindings(w.value.references);
      Ok(AcceptHoldingClaim(w.value.stream, account, instrument, quantity, effective,
                            Origin(source, collectedAt, interpreter), confidence, references))
  }

  /** What a command must be made of to have come out of a decoder. */
  ghost predicate WellFormedSubmission(cases: CaseTables, cmd: Command)
    requires cmd.AcceptHoldingClaim?
  {
    && ValidClaim(cases, cmd.account) && ValidClaim(cases, cmd.instrument) && WellFormedQuantity(cmd.quantity)
    && cmd.effective.Valid() && OriginOk(cmd.origin) && ValidConfidence(cmd.confidence)
    && WellFormedBindings(cmd.references)
  }

  /** Every field a producer states comes back as stated, and a command with a part the
      kernel would not build does not come back at all. */
  lemma SubmissionRoundTrip(cases: CaseTables, cmd: Command)
    requires cmd.AcceptHoldingClaim?
    ensures var r := DecodeSubmission(cases, Some(EncodeSubmission(cmd)));
            if WellFormedSubmission(cases, cmd) then r == Ok(cmd) else r.Err?
  {
    hide DecodeClaim, EncodeClaim, DecodeQuantity, EncodeQuantity, DecodeInstant, EncodeInstant, DecodeBindings,
         EncodeBindings, ValidClaim, WellFormedQuantity, WellFormedBindings, Blank;
    ClaimRoundTrip(cases, cmd.account);
    ClaimRoundTrip(cases, cmd.instrument);
    QuantityRoundTrip(cmd.quantity);
    InstantRoundTrip(cmd.effective.from);
    InstantRoundTrip(cmd.effective.to);
    InstantRoundTrip(cmd.origin.collectedAt);
    BindingsRoundTrip(cmd.references);
  }

  /** Whatever arrives, a decoded submission to a named stream is a command both stores
      treat alike. */
  lemma DecodedSubmissionIsOk(cases: CaseTables, w: Option<WireSubmission>)
    requires DecodeSubmission(cases, w).Ok?
    ensures var cmd := DecodeSubmission(cases, w).value;
            && cmd.AcceptHoldingClaim? && WellFormedSubmission(cases, cmd)
            && (cmd.stream != "" ==> CommandOk(cases, cmd))
  {
    hide DecodeInstant, CanonicalScheme, IsDecimalText, Blank, DecodeBindings;
    DecodedBindings(w.value.references);
  }

  /** Each part of a decoded submission comes from the field of its own name. */
  lemma DecodedSubmissionFields(cases: CaseTables, w: WireSubmission)
    requires DecodeSubmission(cases, Some(w)).Ok?
    ensures var cmd := DecodeSubmission(cases, Some(w)).value;
            && cmd.AcceptHoldingClaim? && cmd.stream == w.stream
            && SameClaim(w.account, cmd.account) && SameClaim(w.instrument, cmd.instrument)
            && SameQuantity(w.quantity, cmd.quantity) && w.effective.Some?
            && SameInstant(w.effective.value.from, cmd.effective.from)
            && SameInstant(w.effective.value.to, cmd.effective.to)
            && w.source == Some(cmd.origin.source) && SameInstant(w.collectedAt, cmd.origin.collectedAt)
            && w.interpreter == Some(WireInterpreter(cmd.origin.interpreter.name, cmd.origin.interpreter.version))
            && DecodeConfidence(w.confidence) == Ok(cmd.confidence)
            && DecodeBindings(w.references) == Ok(cmd.references)
  {
    hide CanonicalScheme, IsDecimalText, DecodeBindings;
  }

  /** The decoder as it runs: field by field, then the loop over the references. */
  method DecodeHoldingClaimSubmission(cases: CaseTables, w: Option<WireSubmission>) returns (r: Result<Command>)
    ensures r == DecodeSubmission(cases, w)
  {
    if w.None? {
      return Err(ErrMalformed);
    }
    var account :- DecodeClaim(cases, w.value.account);
    var instrument :- DecodeClaim(cases, w.value.instrument);
    var quantity :- DecodeQuantity(w.value.quantity);
    var effective :- DecodeInterval(w.value.effective);
    var source :- NewSource(if w.value.source.Some? then w.value.source.value else "");
    var collectedAt :- DecodeInstant(w.value.collectedAt);
    var said := if w.value.interpreter.Some? then w.value.interpreter.value else WireInterpreter("", "");
    var interpreter :- NewInterpreter(said.name, said.version);
    var confidence :- DecodeConfidence(w.value.confidence);
    var references :- DecodeReferenceList(w.value.references);
    return Ok(AcceptHoldingClaim(w.value.stream, account, instrument, quantity, effective,
                                 Origin(source, collectedAt, interpreter), confidence, references));
  }

  // ---- the conformance check ------------------------------------------------------------------

  /** The verdict on a submission: what an empty ledger with its clock at the Unix epoch
      says to the decoded command. */
  function Verdict(p: Platform, w: Option<WireSubmission>): Option<Error> {
    match DecodeSubmission(p.cases, w)
    case Err(e) => Some(e)
    case Ok(cmd) =>
      match Execute(Deployment(p, Canonicalisation()), map[], 0, cmd).1
      case Err(e) => Some(e)
      case Ok(_) => None
  }

  /** Check: decode, then run admission itself on a store nobody will see. */
  method Check(p: Platform, w: Option<WireSubmission>) returns (r: Option<Error>)
    ensures r == Verdict(p, w)
  {
    hide Execute;
    var cmd := DecodeHoldingClaimSubmission(p.cases, w);
    if cmd.Err? {
      return Some(cmd.error);
    }
    DecodedSubmissionIsOk(p.cases, w);
    var store := new MemoryStore();
    var service := new Service(Deployment(p, Canonicalisation()), store);
    var admitted := service.AcceptHoldingClaim(cmd.value, 0);
    if admitted.Err? {
      return Some(admitted.error);
    }
    return None;
  }

  /** Admission consults no rules. */
  lemma AdmissionIgnoresRules(d: Deployment, d': Deployment, streams: StreamMap, now: Instant, cmd: Command)
    requires cmd.AcceptHoldingClaim?
    ensures Execute(d, streams, now, cmd) == Execute(d', streams, now, cmd)
  {
    hide MemoryAppend, Precheck;
  }

  /** The answer a writer got is the verdict. */
  predicate Says(verdict: Option<Error>, r: Result<Ref>) {
    verdict == match r { case Ok(_) => None case Err(error) => Some(error) }
  }

  /** Over the reference store: in every run with exclusive regions and an advancing
      clock, on whatever stream and among whatever writers, a submission is admitted
      exactly when Check passes it, and otherwise refused for the reason Check gives. */
  lemma CheckNeverMisleads(c: Config, run: seq<Action>, k: nat, w: Option<WireSubmission>)
    requires c.exclusive && c.strictClock && k < |After(c, run).log|
    requires DecodeSubmission(c.d.platform.cases, w) == Ok(After(c, run).log[k].cmd)
    ensures Says(Verdict(c.d.platform, w), After(c, run).log[k].result)
  {
    hide After, Execute, DecodeSubmission;
    DecodedSubmissionIsOk(c.d.platform.cases, w);
    AdmissionAgreesWithCheck(c, run, k);
    AdmissionIgnoresRules(c.d, Deployment(c.d.platform, Canonicalisation()), map[], 0, After(c, run).log[k].cmd);
  }

  // ---- and the durable ledger --------------------------------------------------------------------

  /** What a producer can see of a submission before sending it: it names a stream, or
      it would be refused whatever it named. */
  predicate CheckApplies(cmd: Command) {
    cmd.stream != "" || !Digested(cmd.origin.source) || cmd.origin.collectedAt == UNSET
  }

  lemma DecodedAdmits(cases: CaseTables, cmd: Command, now: Instant)
    requires cmd.AcceptHoldingClaim? && WellFormedSubmission(cases, cmd) && now != UNSET
    ensures Admits(cmd, now) <==> Digested(cmd.origin.source) && cmd.origin.collectedAt != UNSET
  {
    hide Digested;
    DigestedIffAddress(cmd.origin.source);
    BlankEmpty(cmd.origin.interpreter.name);
    BlankEmpty(cmd.origin.source);
  }

  lemma DecodedBuilds(cases: CaseTables, cmd: Command, now: Instant)
    requires cmd.AcceptHoldingClaim? && WellFormedSubmission(cases, cmd) && now != UNSET
    ensures Precheck(cmd).Some? <==> !Digested(cmd.origin.source)
    ensures BuildStated(cmd, now).Err? <==> cmd.origin.collectedAt == UNSET
    ensures Submittable(cases, cmd) && (RefusedAlike(cmd, now) || cmd.stream != "" <==> CheckApplies(cmd))
  {
    hide WellFormedQuantity, WellFormedBindings, Digested, IsContentAddress, Blank;
    DigestedIffAddress(cmd.origin.source);
    BlankEmpty(cmd.origin.interpreter.name);
    BlankEmpty(cmd.origin.source);
  }

  /** What Check passes, and what it says of the rest: a submission that decodes is
      refused for its source, for its missing collection time, for its missing stream,
      in that order, and for nothing else. */
  lemma VerdictIff(p: Platform, w: Option<WireSubmission>, cmd: Command)
    requires DecodeSubmission(p.cases, w) == Ok(cmd)
    ensures var v := Verdict(p, w);
            && (v == None <==> Digested(cmd.origin.source) && cmd.origin.collectedAt != UNSET && cmd.stream != "")
            && (v == Some(ErrMalformedSource) <==> !Digested(cmd.origin.source))
            && (v == Some(ErrEmptyType) <==>
                  Digested(cmd.origin.source) && cmd.origin.collectedAt != UNSET && cmd.stream == "")
  {
    hide DecodeSubmission, Execute, Digested, Admits, WellFormedSubmission;
    DecodedSubmissionIsOk(p.cases, w);
    DecodedAdmits(p.cases, cmd, 0);
    SubmissionOutcome(Deployment(p, Canonicalisation()), map[], 0, cmd);
  }

  /** The reference ledger gives the verdict on any stream the reading is ahead of. */
  lemma ReferenceGivesVerdict(d: Deployment, streams: StreamMap, now: Instant, w: Option<WireSubmission>, cmd: Command)
    requires GoodStreams(streams) && AllBefore(streams, cmd.stream, now) && now != UNSET
    requires DecodeSubmission(d.platform.cases, w) == Ok(cmd)
    ensures Says(Verdict(d.platform, w), Execute(d, streams, now, cmd).1)
  {
    hide Execute, DecodeSubmission, AllBefore, GoodStreams;
    DecodedSubmissionIsOk(d.platform.cases, w);
    VerdictIsOwn(d, streams, now, cmd);
    AdmissionIgnoresRules(d, Deployment(d.platform, Canonicalisation()), map[], 0, cmd);
  }

  /** The durable ledger gives Check's verdict exactly where the check applies.  A
      submission it does not apply to fails the check as nameless, and is admitted if
      its reading is ahead of what the durable store keeps without a name. */
  lemma DurableCheckIff(d: Deployment, streams: StreamMap, rows: Table, now: Instant, w: Option<WireSubmission>,
                        cmd: Command)
    requires Agree(d.platform.cases, streams, rows) && AllBefore(streams, cmd.stream, now) && InRange(now)
    requires DecodeSubmission(d.platform.cases, w) == Ok(cmd)
    ensures Says(Verdict(d.platform, w), SqlExecute(d, rows, now, cmd).1) <==> CheckApplies(cmd)
    ensures !CheckApplies(cmd) ==> Verdict(d.platform, w) == Some(ErrEmptyType)
  {
    hide Execute, SqlExecute, DecodeSubmission, AllBefore, Agree, RefusedAlike, Verdict, CheckApplies, Submittable,
         WellFormedSubmission;
    DecodedSubmissionIsOk(d.platform.cases, w);
    AgreeIsGood(d.platform.cases, streams, rows);
    ReferenceGivesVerdict(d, streams, now, w, cmd);
    DecodedBuilds(d.platform.cases, cmd, now);
    UseCaseAgrees(d, streams, rows, now, cmd);
    VerdictIff(d.platform, w, cmd);
    NamelessIff(cmd);
  }

  lemma NamelessIff(cmd: Command)
    ensures !CheckApplies(cmd) <==>
              Digested(cmd.origin.source) && cmd.origin.collectedAt != UNSET && cmd.stream == ""
  {
    hide Digested;
  }

  /** ... so the durable ledger admits what Check refuses, for every such submission. */
  lemma AdmittedThoughRefused(d: Deployment, rows: Table, facts: seq<Fact>, now: Instant, w: Option<WireSubmission>,
                              cmd: Command)
    requires Holds(rows, "", facts) && InRange(now)
    requires forall i :: 0 <= i < |facts| ==> InRange(facts[i].Known()) && facts[i].Known() < now
    requires DecodeSubmission(d.platform.cases, w) == Ok(cmd) && !CheckApplies(cmd)
    ensures Verdict(d.platform, w) == Some(ErrEmptyType)
    ensures SqlExecute(d, rows, now, cmd).1 == Ok(Ref("", |facts| + 1))
  {
    hide DecodeSubmission, Holds, InRange, Precheck, WellFormedSubmission, SqlAppend, BuildStated;
    DecodedSubmissionIsOk(d.platform.cases, w);
    NotUnset(now);
    DecodedBuilds(d.platform.cases, cmd, now);
    VerdictIff(d.platform, w, cmd);
    BuiltRequest(d, cmd, Stream("", []), now);
    EmptyNameGrows(d.platform.cases, rows, facts, BuildStated(cmd, now).value);
  }

  lemma NotUnset(now: Instant)
    requires InRange(now)
    ensures now != UNSET
  {
  }

  /** Over runs: after any interleaving with exclusive regions and an advancing clock,
      the durable ledger having run the same commands, its answer to a submission is
      Check's verdict exactly where the check applies. */
  lemma DurableCheckOverRuns(c: Config, run: seq<Action>, k: nat, w: Option<WireSubmission>)
    requires c.exclusive && c.strictClock && InputsOk(c.d, run) && k < |After(c, run).log|
    requires DecodeSubmission(c.d.platform.cases, w) == Ok(After(c, run).log[k].cmd)
    ensures Says(Verdict(c.d.platform, w), SqlAnswer(c.d, After(c, run).log, k))
       <==> CheckApplies(After(c, run).log[k].cmd)
  {
    hide After, DecodeSubmission, SqlAnswer, RefusedAlike, Verdict, CheckApplies, WellFormedSubmission, Submittable,
         Precheck, BuildStated, StreamsAfter;
    var log := After(c, run).log;
    CheckNeverMisleads(c, run, k, w);
    RunsAgreeWithSqlite(c, run, "a");
    RunStorable(c, run);
    assert EntryStorable(c.d, StreamsAfter(c.d, log[..k]), log[k]);
    DecodedSubmissionIsOk(c.d.platform.cases, w);
    if log[k].result.Ok? {
      GrantedIsNamed(c, run, k);
    }
    if Precheck(log[k].cmd).None? {
      NotUnset(log[k].now);
      DecodedBuilds(c.d.platform.cases, log[k].cmd, log[k].now);
    } else {
      DecodedBuilds(c.d.platform.cases, log[k].cmd, 0);
      RefusedEverywhere(log[k].cmd, log[k].now);
    }
  }

  lemma RefusedEverywhere(cmd: Command, now: Instant)
    requires Precheck(cmd).Some?
    ensures RefusedAlike(cmd, now) && RefusedAlike(cmd, 0)
  {
    hide Precheck;
  }
}
