# FDOS ledger: a verified model

FDOS keeps financial facts in append-only, bitemporal streams. A fact has an effective
interval (when it was true) and a knowledge instant (when FDOS learned it). Producers
submit claims, operators mint identities for them, observations are derived from both,
and positions are projected at an as-of coordinate with the derivation that explains
them. This project models that system in Dafny and proves what it promises.

| files | what they model |
|---|---|
| `Text`, `Framing`, `Sorting` | runes, whitespace fields, case folding, UTF-8; the length-prefixed encoding; sorts |
| `Temporal`, `External`, `Results` | the two time axes; hash functions, Unicode tables and RFC 3339 text as parameters; error classes |
| `Identity`, `IdentityLaws` | claims, folds, rules, rulesets, pre-images, identifiers |
| `Provenance`, `DerivationLaws`, `Renderings`, `Explained` | confidence, derivation records, their content addresses and what those fix, explained values |
| `Facts`, `Streams`, `Resolution`, `Positions`, `TraceLaws` | the pure ledger domain, and what its traces pin down |
| `Wire` | the protobuf shapes and codecs of a fact |
| `Stores`, `Sqlite`, `StoreAgreement` | the in-memory store and the SQLite store as classes, and why they mean the same |
| `Ledger`, `LedgerLaws` | the five write use cases and two queries as methods, and what every stream they write satisfies |
| `Outcomes`, `Effects` | exactly when each write is granted, the fact it adds and the refusal it gives otherwise; what that changes in later answers |
| `Protocol`, `ProtocolSafety`, `ProtocolSerial`, `ProtocolExclusion` | any number of writers interleaved step by step over the reference store |
| `ProtocolReach`, `ProtocolOrder`, `ProtocolProgress`, `ProtocolLimits` | which stores are reachable, that nobody is locked out, and what is not promised |
| `SqliteLedger` | the same commands over the durable store |
| `Submissions` | the wire form of a submission, and the conformance check a producer runs on it |

A run of the protocol is any sequence of actions by any number of writers (submit, enter
the region, load, read the clock, append, leave); an action that is not possible leaves
the world unchanged, so a statement about all action sequences is a statement about all
interleavings. The lock table is an arbitrary function from stream names to locks, which
covers the 256 shards of the memory store and the single writer lock of a SQLite file.

Where the code and its comments differ the model follows the code:

- A claim may be minted twice: a mint is refused only if an earlier mint of its
  pre-image is in force where the new one begins (`LedgerLaws.MintRefusedIff`,
  `LedgerLaws.EarlierMintIsAccepted`; `ProtocolLimits.OneClaimMintedTwice` is a run).
- The confidence of a derived observation is the claim's, not the weakest of all it
  consumed (`Resolution.ObservationConfidence` gives the exact condition,
  `ProtocolLimits.StrongerThanItsMints` a run that ends outside it).
- A method or reference binding reads back from its "name@version" rendering only if
  every other "@" leaves a blank side (`Renderings.RenderingIsUniqueIff`); a derivation
  is the only one with its pre-image only if that holds of its method and no reference
  can be re-read in its place (`Renderings.PreimageIsUniqueIff`). A derivation address
  ignores argument order only if equal names carry equal values
  (`DerivationLaws.ConflictingParametersAmbiguous`).
- Adjacent intervals compose only if neither is degenerate
  (`Temporal.AdjacentIntervalsCompose`).
- The two stores agree for non-empty names, decodable facts, instants that fit int64
  nanoseconds, and regions that do not fail after appending; on every pair of agreeing
  stores each condition has a lemma saying exactly what happens without it
  (`StoreAgreement.EmptyNameDisagrees`, `UnreadableFactDisagrees`, `OutOfRangeDisagrees`,
  `RegionAgreesIff`).
- Check runs admission over the in-memory store, and the deployed service
  (`apps/submitd/main.go`) over SQLite. Its answer is the service's exactly for
  submissions that name a stream or that both refuse for another reason; a sound
  submission to the empty name fails the check and is admitted
  (`Submissions.DurableCheckIff`, `Submissions.AdmittedThoughRefused`).
- Nothing is refused for timing only under exclusive regions and an advancing clock:
  `ProtocolExclusion.RacesWithoutRegions` and `ProtocolLimits.RefusedWithoutClock` are
  runs with one of the two missing.

`InMemory` in a precondition says that a byte string is shorter than 2^63, which every Go
string is.

## Model

| member | source | states |
|---|---|---|
| ProtocolSafety.MintsNeverCollide | libs/ledger/app/usecases.go:427-492 | for every interleaving, even with no exclusion and any clock: of two mints with one canonical pre-image on a stream, the earlier is not in force where the later begins |
| ProtocolSafety.RunsAreLawful | libs/ledger/adapters/memory/store.go:89-132 | in every run each stream is numbered 1..N, strictly later fact by fact, its mints sound and derived from their claims, its corrections aimed at earlier facts over the same interval, every fact complete in coordinates, provenance and kind; no two writers are granted one reference |
| ProtocolSafety.RunsOnlyAppend | libs/ledger/domain/stream.go:51-67 | in every continuation every stream only gains a suffix |
| ProtocolSafety.ReferencesAreForever | libs/ledger/domain/stream.go:73-78 | a granted reference addresses one fact, the same one in every continuation |
| ProtocolSafety.AnswersAreFrozen | libs/ledger/domain/stream.go:91-111 | once a stream knows something at or after K, no continuation changes VisibleAt, Resolve, Unresolved or ProjectPosition (value and trace) at knowledge K |
| ProtocolSafety.RetractionsHold | libs/ledger/app/usecases.go:155-194 | in every run and continuation a retracted fact enters no projection that knows of the retraction, and projections that do not are what they were before it |
| ProtocolSafety.PositionsOverRuns | libs/ledger/domain/position.go:54-117 | in every run a position is the quantity of the greatest eligible observation, and ErrNoFacts says that nothing is eligible |
| ProtocolSafety.ResolutionOverRuns | libs/ledger/domain/resolve.go:160-176 | what resolves keeps resolving at every later knowledge in every continuation, never waits again, and to the same identity while its mints share a kind |
| ProtocolSafety.AcceptedAppend | libs/ledger/app/usecases.go:481-487 | an accepted append was decided on the very stream it extends and is later than all of it |
| ProtocolSerial.GrantedRunsSerialise | libs/ledger/app/ports.go:51-75 | with no exclusion and any clock, the store of every run is what the granted commands make of it one at a time in grant order, each granted what it would get alone; refused commands leave no mark |
| ProtocolSerial.AcceptedIsAlone | libs/ledger/app/usecases.go:481-487 | an accepted append is the whole use case run alone on the store it lands in |
| ProtocolReach.HistoriesAreReachable | libs/ledger/app/usecases.go:88-125 | every sequential history at admissible clock readings is reached by some run, with the same store and answers |
| ProtocolOrder.RunsFollowTheClock | libs/ledger/adapters/memory/store.go:109-124 | under an advancing clock, with or without exclusion, the store is what the granted commands make of it in the order of their clock readings, whatever order they were appended in |
| ProtocolOrder.UseCasesCommute | libs/ledger/app/usecases.go:88-125 | use cases on different streams commute, in store and in answers |
| ProtocolOrder.ReachableIff | libs/ledger/app/ports.go:133-170 | a store is reachable if and only if it is the store of a sequential history, at advancing readings where the clock advances |
| ProtocolProgress.EveryoneCanBeAnswered | libs/ledger/adapters/memory/streamlocks.go:79-96 | every reachable world has a continuation in which every waiting writer is answered and all are idle: regions never lock each other out |
| ProtocolLimits.OneClaimMintedTwice | libs/ledger/app/usecases.go:436-451 | a run of two commands that ends with exactly two mints of one claim, both facts written out |
| ProtocolLimits.StrongerThanItsMints | libs/ledger/domain/resolve.go:143-155 | a run whose observation is recorded as more trustworthy than the mint it was resolved through |
| ProtocolExclusion.RegionsNeverOverlap | libs/ledger/adapters/memory/streamlocks.go:79-96 | under any lock table that is a function of the name, two writers in regions are never on one stream |
| ProtocolExclusion.RunsAreSequential | libs/ledger/app/ports.go:133-170 | with exclusive regions every interleaving equals running the answered commands one at a time: same store, same answers |
| ProtocolExclusion.NothingIsRefused | libs/ledger/adapters/memory/streamlocks.go:35-42 | with exclusive regions and an advancing clock no writer in any interleaving gets ErrStaleRead or ErrNonMonotonicKnowledge |
| ProtocolExclusion.AdmissionAgreesWithCheck | examples/ingest/conform.go:42-67 | over the reference store every submission in every such run gets exactly the verdict of an empty ledger |
| ProtocolExclusion.VerdictIsOwn | libs/ledger/app/usecases.go:275-326 | an admission verdict depends only on the command, not on the stream or the clock |
| ProtocolExclusion.RacesWithoutRegions | libs/ledger/adapters/memory/streamlocks.go:35-42 | without exclusion two submissions of any valid claim suffice for one to be refused with ErrNonMonotonicKnowledge |
| ProtocolLimits.RefusedWithoutClock | libs/ledger/adapters/memory/streamlocks.go:65-70 | even with exclusive regions two submissions that read one instant are one admission and one refusal with ErrNonMonotonicKnowledge |
| ProtocolExclusion.StepAnswersAlone | libs/ledger/app/usecases.go:275-326 | each step answers its writer with what the whole use case would do alone, or changes no stream |
| SqliteLedger.RunsAgreeWithSqlite | libs/ledger-sqlite/store.go:277-304 | every exclusive run over submittable commands and int64 readings reads stream for stream as the SQLite store does after the same commands region by region, and a writer got the same answer if and only if its stream had a name or both refuse it for another reason |
| SqliteLedger.GrantedRunsAgreeWithSqlite | libs/ledger-sqlite/store.go:277-304 | with no exclusion every run over such inputs reads stream for stream as the SQLite store does after the granted commands alone, which it grants the same references |
| SqliteLedger.RunStorable | libs/ledger-sqlite/store.go:583 | from the inputs of a run to its log: every answer rests on a reading that fits the column, or came before any |
| SqliteLedger.UseCaseAgrees | libs/ledger-sqlite/store.go:306-330 | after any use case the stores agree on every named stream, and gave the same answer if and only if the stream had a name or both refused for another reason |
| SqliteLedger.NamelessUseCase | libs/ledger/app/usecases.go:150-200 | on the empty name a correction is ErrStreamNotFound over one store and ErrEmptyType over the other, a mint is refused alike, and a stated fact is answered alike exactly if its envelope cannot be built |
| SqliteLedger.BuiltIsWellFormed | libs/ledger/domain/fact.go:92-108 | everything a use case builds from constructor-made parts a decoder accepts |
| StoreAgreement.RunsAgree | libs/ledger-sqlite/store.go:380-569 | for every sequence of disciplined regions the two stores return the same references, streams and error classes, and every stream reads the same from both |
| StoreAgreement.AppendAgrees | libs/ledger-sqlite/store.go:495-569 | COUNT, MAX(sequence) and MAX(knowledge) decide as the stream's length and last fact do |
| StoreAgreement.LoadAgrees | libs/ledger-sqlite/store.go:380-443 | replaying the rows rebuilds exactly the memory stream, or the same refusal |
| StoreAgreement.RegionAgreesIff | libs/ledger-sqlite/store.go:288-303 | after a region the stores agree if and only if the callback succeeded or had appended nothing |
| StoreAgreement.EmptyNameDisagrees | libs/ledger-sqlite/store.go:552-556 | on any agreeing stores memory refuses every append to the empty name; SQLite gives that refusal only to a request without a payload; either way every named stream still agrees |
| StoreAgreement.EmptyNameLoads | libs/ledger-sqlite/store.go:380-394 | without a name memory finds no stream and SQLite refuses to look: two different errors on any agreeing stores |
| StoreAgreement.EmptyNameGrows | libs/ledger-sqlite/store.go:495-569 | under the empty name SQLite accepts exactly what is fresh, later than all it holds there and a fact, holds one more, and can load none of it |
| StoreAgreement.UnreadableFactDisagrees | libs/ledger-sqlite/store.go:403-406 | after an append both accept, on any stream of any agreeing stores, the stream reads the same from both if and only if the fact is well formed; otherwise SQLite can no longer load it |
| StoreAgreement.OutOfRangeDisagrees | libs/ledger-sqlite/store.go:530-540 | on any stream of any agreeing stores both answer an append alike if and only if it is stale or its wrapped instant falls on the same side of the last one |
| StoreAgreement.OneTurnLater | libs/ledger-sqlite/store.go:583 | every stream has an instant that memory appends and SQLite refuses as not after the last |
| Sqlite.CountIsMaxIffContiguous | libs/ledger-sqlite/store.go:514-523 | for distinct positive sequences COUNT equals MAX if and only if they are 1..N |
| Sqlite.AppendRefusesExactlyGaps | libs/ledger-sqlite/store.go:519-523 | append refuses with ErrGap exactly the streams with a hole |
| Sqlite.LoadIff | libs/ledger-sqlite/store.go:396-442 | load succeeds exactly on named, contiguous, readable rows; then every reference returns the row stored under it; readable rows with a hole give ErrGap |
| Sqlite.SqliteStore.Append | libs/ledger-sqlite/store.go:495-569 | the row store's new table and answer, as a function of the old table |
| Sqlite.SqliteStore.Load | libs/ledger-sqlite/store.go:380-443 | the replay loop computes SqlLoad |
| Stores.MemoryStore.Append | libs/ledger/adapters/memory/store.go:89-132 | the reference store's new streams and answer, as a function of the old streams |
| Stores.MemoryStore.Load | libs/ledger/adapters/memory/store.go:68-77 | the held stream or ErrStreamNotFound |
| Stores.AppendGrows | libs/ledger/adapters/memory/store.go:126-131 | a successful append adds one fact at the end of one stream under the next reference and touches no other stream |
| Stores.AppendRefusals | libs/ledger/adapters/memory/store.go:109-124 | exactly when an append is accepted, exactly when it is stale and exactly when its knowledge is not after the last |
| Ledger.Service.ObserveHolding | libs/ledger/app/usecases.go:88-125 | the use case as it runs equals its specification on the store |
| Ledger.Service.AcceptHoldingClaim | libs/ledger/app/usecases.go:275-326 | the use case as it runs equals its specification on the store |
| Ledger.Service.CorrectFact | libs/ledger/app/usecases.go:150-200 | the use case as it runs equals its specification on the store |
| Ledger.Service.MintIdentity | libs/ledger/app/usecases.go:410-498 | the use case as it runs equals its specification on the store |
| Ledger.Service.ObserveClaimedHolding | libs/ledger/app/usecases.go:546-607 | the use case as it runs equals its specification on the store |
| Ledger.Service.LoadOrEmpty | libs/ledger/app/usecases.go:508-517 | an absent stream is an empty one to a mint |
| Ledger.Service.UnresolvedClaims | libs/ledger/app/usecases.go:343-352 | the waiting claims of the held stream, or ErrStreamNotFound |
| Ledger.Service.ProjectPosition | libs/ledger/app/usecases.go:218-227 | the projection of the held stream, or ErrStreamNotFound |
| Outcomes.ObserveHoldingOutcome | libs/ledger/app/usecases.go:88-125 | granted if and only if the stream is named, the start set, the origin full, the level one of five and the reading ahead; then the stream gains exactly the stated holding with its interval, origin and references |
| Outcomes.SubmissionOutcome | libs/ledger/app/usecases.go:275-326 | admitted if and only if the source is "sha256:" and 64 lowercase hex digits, both schemes are set and the rest is full and ahead; ErrMalformedSource exactly for any other source; the claim is recorded as stated |
| Outcomes.CorrectionOutcome | libs/ledger/app/usecases.go:150-200 | granted if and only if the reference is one of the stream's facts, the kind is 1, 2 or 3 and the rest is full and ahead; recorded over the corrected interval; ErrStreamNotFound, ErrNotFound and ErrUnknownKind exactly otherwise |
| Outcomes.MintOutcome | libs/ledger/app/usecases.go:410-498 | granted if and only if source, kind and scheme are sound and no known mint of the pre-image is in force where it begins; the identifier is the one the claim derives under the kind asked for; each refusal exactly |
| Outcomes.ClaimedHoldingOutcome | libs/ledger/app/usecases.go:546-607 | granted if and only if the reference is a claim fact of the stream whose two parties are minted at the coordinate asked at; the observation names who answered for account and for instrument; each refusal exactly |
| Outcomes.DeriveOutcome | libs/ledger/domain/resolve.go:105-156 | the whole derivation of an observation: method, the three facts consumed in order, the four parameters by name, the claim's confidence |
| Outcomes.MintForOutcome | libs/ledger/domain/resolve.go:200-234 | the whole derivation of a mint: method, the fact answered, the four parameters by name, the confidence |
| Outcomes.DigestedIffAddress | libs/kernel/provenance/provenance.go:152-168 | the content-address check is "sha256:" and 64 lowercase hexadecimal digits |
| Effects.ObservedIsProjected | libs/ledger/app/usecases.go:108-113 | wherever a granted observation is in force and known its position is its quantity, unless an observation that starts later already counted, whose quantity then stays |
| Effects.RetractedIsGone | libs/ledger/app/usecases.go:165-193 | after a granted retraction every projection that knows of it consumes what it would have without exactly that fact; every other projection is as it was |
| Effects.MintedResolves | libs/ledger/app/usecases.go:453-487 | after a granted mint every claim of its pre-image resolves wherever the mint is in force and known, to the minted identifier if nothing answered there before |
| Effects.OthersMoveNothing | libs/ledger/domain/position.go:60-92 | claims, mints, corrections of the other two kinds and observations of other holdings move no position, value or trace |
| Submissions.Check | examples/ingest/conform.go:42-67 | the decoded submission run through admission on an empty store with the clock at the epoch |
| Submissions.VerdictIff | examples/ingest/conform.go:42-67 | a submission that decodes passes if and only if its source is a digest, its collection time set and its stream named; which refusal otherwise |
| Submissions.CheckNeverMisleads | examples/ingest/conform.go:19-41 | over the reference store, in every run with exclusive regions and an advancing clock, a submission is admitted exactly when Check passes it, and refused for the reason Check gives |
| Submissions.DurableCheckIff | apps/submitd/main.go:65-82 | over SQLite the answer is Check's verdict if and only if the submission names a stream, has a malformed source or states no collection time |
| Submissions.AdmittedThoughRefused | libs/ledger-sqlite/store.go:495-569 | every other submission ahead of what SQLite keeps without a name is refused by Check and admitted by the durable ledger |
| Submissions.DurableCheckOverRuns | apps/submitd/main.go:65-82 | the same if and only if for every submission of every run, the durable ledger having run the same commands |
| Submissions.SubmissionRoundTrip | libs/ledger-wire/submission.go:14-109 | a submission comes back as stated if every part is one the kernel would build, and otherwise not at all |
| Submissions.DecodedSubmissionFields | libs/ledger-wire/submission.go:50-109 | each part of a decoded submission comes from the field of its own name |
| Submissions.DecodedSubmissionIsOk | libs/ledger-wire/submission.go:41-49 | whatever arrives, a decoded submission is made of constructor-made parts, so both stores treat it alike |
| Submissions.DecodeHoldingClaimSubmission | libs/ledger-wire/submission.go:50-109 | field by field and the loop over references compute the decoded command |
| LedgerLaws.BuiltAppendLawful | libs/ledger/app/usecases.go:427-492 | appending what a use case built from the stream it extends keeps every law of the stream |
| LedgerLaws.BuiltRequest | libs/ledger/app/usecases.go:453-492 | knowledge time is the clock reading, the envelope is complete, a request resting on a read carries AtLength, only mints mint (as derived occurrences) and only corrections correct |
| LedgerLaws.BuiltCorrection | libs/ledger/app/usecases.go:166-193 | a correction is in force over exactly the interval of the fact it corrects |
| LedgerLaws.BuiltObservation | libs/ledger/app/usecases.go:570-599 | a derived observation has its claim's interval, references, quantity and confidence, and the identities that resolved |
| LedgerLaws.MintRefusedIff | libs/ledger/app/usecases.go:436-451 | a mint is refused as a duplicate if and only if an earlier mint of its pre-image is in force where it begins |
| LedgerLaws.EarlierMintIsAccepted | libs/ledger/app/usecases.go:436-451 | on a stream of any length a well-formed mint is appended if and only if no known mint of its pre-image is in force where it begins; in particular whenever they all start later |
| LedgerLaws.IdentityIsStable | libs/ledger/domain/resolve.go:78-90 | a claim keeps its identity as the stream grows while the mints that answer it share a kind |
| Streams.ListVisible | libs/ledger/domain/stream.go:91-111 | the filtering loop and the stable sort compute VisibleAt |
| Streams.VisibleAtUnique | libs/ledger/domain/stream.go:99-108 | VisibleAt is the only arrangement of the visible facts sorted by (effective from, knowledge, sequence): any correct sort yields it |
| Streams.VisibleAtBySequence | libs/ledger/domain/stream.go:80-86 | where knowledge follows append order, sorting by (effective from, sequence) gives the same |
| Streams.VisibleAtMembers | libs/ledger/domain/fact.go:197-199 | exactly the facts already known and in force are visible |
| Streams.VisibleAtInOrder | libs/ledger/domain/stream.go:99-108 | of two listed facts the first starts earlier, or as early and was known earlier, or has the lower sequence |
| Streams.PastIsFrozen | libs/ledger/domain/stream.go:88-97 | later facts, whatever their effective time, change nothing visible at an earlier knowledge |
| Streams.Corrections | libs/ledger/domain/stream.go:120-128 | the loop collects the visible corrections in query order |
| Streams.CorrectionsInConcat | libs/ledger/domain/stream.go:120-128 | corrections are listed fact by fact in the order of the facts |
| Resolution.ResolvesIffAnswered | libs/ledger/domain/resolve.go:160-176 | a claim resolves if and only if a visible mint has its canonical pre-image; kind and retraction play no part |
| Resolution.ResolveIsLeast | libs/ledger/domain/resolve.go:78-81 | the mint that answers is the least answering one in query order |
| Resolution.ResolutionMonotone | libs/ledger/domain/resolve.go:160-176 | what resolves at K resolves at every later knowledge in every extension |
| Resolution.Unresolved | libs/ledger/domain/unresolved.go:37-52 | the nested loops compute the list of waiting claims in stream order |
| Resolution.UnresolvedIsExact | libs/ledger/domain/unresolved.go:27-36 | exactly the claims of visible claim facts that resolve to nothing are listed |
| Resolution.UnresolvedInConcat | libs/ledger/domain/unresolved.go:37-52 | the list follows the facts, fact by fact in their order |
| Resolution.UnresolvedInOne | libs/ledger/domain/unresolved.go:41-50 | each claim fact contributes its account and then its instrument, where they wait |
| Resolution.ObservationConfidence | libs/ledger/domain/resolve.go:143-155 | the confidence is the claim's, and the weakest of all inputs if and only if neither mint is weaker |
| Positions.ProjectPosition | libs/ledger/domain/position.go:54-117 | the retraction loop, the observation loop and the fold compute Projected |
| Positions.ProjectionIsGreatestEligible | libs/ledger/domain/position.go:40-53 | the quantity is that of the greatest visible, matching, unretracted observation, and ErrNoFacts exactly when there is none |
| Positions.ProjectionOfConsumed | libs/ledger/domain/position.go:69-117 | one recorded input per consumed observation, in order, and confidence the weakest consumed |
| Positions.ConsumedIsExact | libs/ledger/domain/position.go:60-92 | exactly the eligible observations are consumed, each once, sorted |
| Positions.RetractionIsComplete | libs/ledger/domain/position.go:62-73 | a retraction over the same interval removes its fact from every projection that knows of it |
| TraceLaws.ObservationTracePins | libs/ledger/domain/resolve.go:132-155 | two observations share a derivation only if they come from one claim fact through the same mints, at one rendered coordinate, for the same rendered claims, under one ruleset version; coordinate and claims are equal where RFC 3339 tells the instants apart and schemes hold no colon |
| TraceLaws.MintTracePins | libs/ledger/domain/resolve.go:220-232 | two mints share a derivation only if they mint one rendered claim as one kind under one ruleset version for the same answered fact |
| TraceLaws.PositionTracePins | libs/ledger/domain/position.go:102-111 | two positions share a derivation only if they answer the same rendered question about the same identifiers from equally many observations, pairwise the same reference and confidence wherever SHA-256 separates their pre-images |
| TraceLaws.PositionRecords | libs/ledger/domain/position.go:94-117 | the whole derivation of a position: method, one address per consumed observation, the three parameters by name |
| Explained.Fold | libs/kernel/explained/explained.go:197-229 | the three-accumulator loop computes Folded |
| Explained.FoldExplainsEverything | libs/kernel/explained/explained.go:188-229 | a fold names every input in order and is as trustworthy as its weakest input; folding nothing is ErrNoTrace |
| Explained.FoldLeftIsChain | libs/kernel/explained/explained.go:207-221 | a fold succeeds if and only if each accumulator is made of the one before and the next input, and gives the last |
| Explained.CombineIsNoStronger | libs/kernel/explained/explained.go:157-186 | a combination names both operands and is as trustworthy as the weaker |
| Provenance.Weakest | libs/kernel/provenance/provenance.go:88-101 | no level is weaker than the result, which is one of the levels or asserted |
| Provenance.WeakestOf | libs/kernel/provenance/provenance.go:93-101 | the loop computes Weakest |
| Provenance.ContentAddress | libs/kernel/provenance/provenance.go:529-552 | the loops hash the nested pre-image |
| DerivationLaws.BuildDerivation | libs/kernel/provenance/provenance.go:450-475 | what NewDerivation refuses, that it keeps method, inputs and confidence, sorts the rest and hashes what it sorted, and that any sort agrees with a stable one when no names conflict |
| DerivationLaws.PreimagesEqualIffRenderedAlike | libs/kernel/provenance/provenance.go:510-548 | two derivations share a pre-image if and only if rendered method, inputs, sorted parameters, rendered references and confidence are equal |
| DerivationLaws.PreimageFixesDerivation | libs/kernel/provenance/provenance.go:529-548 | with "@"-free names and datasets a pre-image fixes the whole derivation |
| Renderings.RenderingIsUniqueIff | libs/kernel/provenance/provenance.go:404-413 | among values the constructors accept, a rendering has one reading if and only if every other "@" leaves a blank side |
| Renderings.ReferencesUniqueIff | libs/kernel/provenance/provenance.go:472 | a sorted list of bindings is fixed by its texts if and only if no single binding can be re-read between its neighbours |
| Renderings.PreimageIsUniqueIff | libs/kernel/provenance/provenance.go:529-548 | a derivation is the only constructor-made one with its pre-image if and only if its method has one reading and its references one ordered reading |
| Renderings.MadeIffBuilt | libs/kernel/provenance/provenance.go:450-475 | constructor-made means exactly what NewDerivation returns for a method and bindings their constructors accept |
| DerivationLaws.AddressIgnoresArgumentOrder | libs/kernel/provenance/provenance.go:444-449 | for every correct sort, stable or not, permuting parameters and references changes nothing |
| DerivationLaws.ConflictingParametersAmbiguous | libs/kernel/provenance/provenance.go:471 | if two parameters share a name and differ, two correct sorts hash different pre-images |
| DerivationLaws.ConflictingReferencesAmbiguous | libs/kernel/provenance/provenance.go:472 | if two references share a dataset and differ, two correct sorts hash different pre-images |
| Framing.Frame | libs/kernel/internal/framing/framing.go:45-68 | the builder loop computes the framed bytes |
| Framing.FrameInjective | libs/kernel/internal/framing/framing.go:16-27 | a framed byte string determines its tag and its components |
| Framing.PrefixIsLength | libs/kernel/internal/framing/framing.go:45-68 | the eight bytes before a component read, most significant first, as its length |
| Framing.TextFrameInjective | libs/kernel/identity/preimage.go:43-47 | the same for text tags and components, through UTF-8 |
| Identity.FoldIsSafe | libs/kernel/identity/canonical.go:91-98 | the loop decides whether any rune of the alphabet is altered |
| Identity.NewRule | libs/kernel/identity/canonical.go:135-169 | a rule is accepted exactly when scheme, standard, length and every fold pass |
| Identity.NewRuleset | libs/kernel/identity/canonical.go:235-252 | a ruleset is accepted exactly when versioned with distinct non-empty schemes |
| Identity.FoldValue | libs/kernel/identity/canonical.go:211-216 | the loop applies the folds in declaration order |
| Identity.FoldClaim | libs/kernel/identity/canonical.go:285-295 | folding keeps the scheme and never empties a value |
| Identity.NewClaim | libs/kernel/identity/claim.go:41-53 | a claim is accepted exactly with a canonical scheme and a value, both verbatim |
| Identity.Restore | libs/kernel/identity/identity.go:183-191 | an identifier is restored exactly from a valid kind and a canonical UUID |
| Identity.DeriveFromClaim | libs/kernel/identity/identity.go:146-162 | a derived identifier is well formed and of the kind asked for |
| IdentityLaws.AcceptedRuleKeepsCanonical | libs/kernel/identity/canonical.go:84-98 | an accepted rule is the identity on canonical values |
| IdentityLaws.AcceptedRuleIdempotent | libs/kernel/identity/canonical.go:135-169 | an accepted rule is idempotent on every value |
| IdentityLaws.AcceptedRuleNeverMerges | libs/kernel/identity/canonical.go:103-115 | an accepted rule never merges two canonical values |
| IdentityLaws.StripSpaceKeepsMarks | libs/kernel/identity/canonical.go:54-63 | stripping whitespace keeps every other rune, in order |
| IdentityLaws.RuledClaimsMeetIff | libs/kernel/identity/canonical.go:320-334 | under accepted rules two claims share a pre-image if and only if their schemes agree and their values hold the same runes apart from whitespace and case |
| IdentityLaws.ShippedValuesMeetIff | libs/kernel/identity/canonical.go:354-364 | the same for two values of a governed scheme under the shipped ruleset |
| IdentityLaws.ShippedSchemes | libs/kernel/identity/canonical.go:354-364 | exactly isin, cusip, sedol and figi are governed |
| IdentityLaws.ClaimAcceptedIff | libs/kernel/identity/claim.go:41-53 | rune by rune: no upper case, no whitespace at the ends, a value |
| IdentityLaws.UuidIsFiveGroups | libs/kernel/identity/identity.go:193-212 | a canonical UUID is five groups of 8, 4, 4, 4 and 12 lowercase hexadecimal digits between hyphens |
| IdentityLaws.PreimageParts | libs/kernel/identity/identity.go:146-162 | what minting hashes and what resolution compares, part by part |
| IdentityLaws.RuleOrderIrrelevant | libs/kernel/identity/canonical.go:239-250 | folding does not depend on the order of the rules |
| IdentityLaws.ShippedRulesetAccepted | libs/kernel/identity/canonical.go:354-364 | the shipped rules and ruleset are ones the constructors accept |
| IdentityLaws.SeedFactors | libs/kernel/identity/identity.go:232-234 | the canonical form of a claim is its canonical scheme, a colon and its right part |
| Text.RightPartEnds | libs/kernel/identity/identity.go:137-145 | the right part keeps one leading space and drops trailing space; an all-blank value leaves nothing |
| Text.CollapseKeepsMarks | libs/kernel/identity/identity.go:232-234 | collapsing loses whitespace and nothing else |
| Text.AsciiCase | libs/kernel/identity/identity.go:232-234 | upper case takes a..z to A..Z and leaves the rest of ASCII alone, lower case goes the other way |
| IdentityLaws.PreimageEquality | libs/kernel/identity/canonical.go:320-334 | equal pre-images mean equal canonical schemes and equal right parts: no colon moves the boundary |
| IdentityLaws.ResolutionAgreesWithMinting | libs/ledger/domain/resolve.go:46-58 | two claims resolve together if and only if minting them under one kind hashes one pre-image |
| IdentityLaws.KindsNeverShare | libs/kernel/identity/identity.go:158-161 | different kinds never share a pre-image |
| IdentityLaws.ClaimNeverMeetsSeed | libs/kernel/identity/preimage.go:36-40 | a claim pre-image never equals a bare-seed pre-image |
| IdentityLaws.ValidClaimsDerive | libs/kernel/identity/identity.go:146-162 | every valid claim derives under every valid kind |
| IdentityLaws.SeedsDerive | libs/kernel/identity/identity.go:113-122 | a seed derives exactly if it is not blank, and two seeds hash alike exactly when kind and canonical form are the same |
| Facts.RenderInjective | libs/ledger/domain/fact.go:132 | two references never share a rendering |
| Text.DecimalReads | libs/ledger/domain/fact.go:132 | a rendered sequence number reads back as that number |
| Wire.FactRoundTrip | libs/ledger-wire/codec.go:128-184 | encode then decode is the identity on well-formed facts, and every other fact is refused |
| Wire.DecodedIsWellFormed | libs/ledger-wire/codec.go:146-184 | whatever arrives, a decoded fact is well formed and of its declared type and version |
| Wire.DecodedPayloadFields | libs/ledger-wire/codec.go:216-311 | each part of a decoded payload comes from the field of its own name |
| Wire.DecodedEnvelopeFields | libs/ledger-wire/codec.go:77-123 | each part of a decoded envelope comes from the field of its own name |
| Wire.TimestampMeans | libs/kernel-wire/codec.go:252-275 | a timestamp is whole seconds and nanoseconds since the Unix epoch |
| Wire.WireVocabulary | libs/kernel-wire/codec.go:331-365 | which wire name stands for which level, kind and correction |
| Wire.Names | libs/kernel/provenance/provenance.go:60-75 | the names of levels, kinds and fact types as hashed and sent |
| Wire.PayloadRoundTrip | libs/ledger-wire/codec.go:216-311 | all four payloads survive exactly when well formed |
| Wire.EnvelopeRoundTrip | libs/ledger-wire/codec.go:77-123 | envelope and reference survive exactly when well formed |
| Wire.ProvenanceRoundTrip | libs/kernel-wire/codec.go:385-446 | observed and derived provenance, with or without a publication time, survive exactly when well formed |
| Wire.CoordinatesRoundTrip | libs/kernel-wire/codec.go:252-326 | open and closed intervals and knowledge survive exactly when the constructors accept them |
| Wire.DecodeReferenceList | libs/ledger-wire/codec.go:109-116 | the loop decodes the bindings or returns the first failure |
| Temporal.NewInterval | libs/kernel/temporal/temporal.go:92-100 | an interval is built exactly from a set start and an end not before it |
| Temporal.AdjacentIntervalsCompose | libs/kernel/temporal/temporal.go:80-85 | two adjacent intervals, the second possibly open, cover their union once each if and only if neither is degenerate |

## Left out

- SHA-1, SHA-256, FNV-1a, Unicode tables above ASCII and RFC 3339 rendering: functions the model takes as parameters; injectivity is stated on pre-images, never on digests.
- Strings that are not valid UTF-8: text is a sequence of runes.
- Decimal arithmetic and rounding: a quantity is its canonical decimal text; the removal of leading zeros by the decimal library is not modelled.
- The protobuf runtime and Any packing: wire messages are datatypes with optional fields, marshalling a row is storing its message, and Check starts from the unmarshalled submission.
- SQL, pragmas, busy timeouts, crash durability, the encoding-version check and column types: the table is a map with a unique (stream, sequence) key.
- Clock adapters: a clock reading is a parameter of a use case and an action of a run.
- Serialise as a higher-order method: regions are the enter and leave steps of the protocol and the Region datatype of the store comparison.
- Map and TryMap of explained values: no use case modelled here applies them; the projections use Fold alone.
- The rounding-context and money codecs: not part of a fact.
- HTTP service, command-line tools, static analysers and scripts: outside the ledger.
- Fairness of the regions: that every writer can be answered is stated, that it will be is not.
