# Verification of the match runtime and the release checkers

Dafny models of the parts of TrillionniumGame whose correctness is hardest to see
from the code, with proofs that hold for every input, every run and every
interleaving. `dafny verify dfyconfig.toml` checks everything.

**The fenced match runtime.** Several runtime generations of one logical match
share a storage record that is written by compare-and-swap only. `MatchEngine`,
`Snapshot` and `SnapshotValidation` model the deterministic engine and its restore
validation, and `EngineAuthority` says who may act on it and when; `MatchCallbacks`
says what each callback does, the classes of `MatchRuntime` are proved to do it, and
`MatchDelivery` says what clients are sent. `Protocol` is the cluster: operator calls and
callbacks interleave at their storage calls, anything may stop at any time, a call
may be lost before or after it takes effect, and a write that failed at its client
may be performed later. `ProtocolInvariant` and `ProtocolProofs` establish what all
steps keep; `ProtocolTheorems`, `ProtocolChain`, `ProtocolRecovery`,
`ProtocolDelivery` and `ProtocolCompletion` hold the results. The version of a stored value is a digest of that value, not a counter.

**The World profile.** Under it a command commits the World document and the match
record together. `WorldStore`, `WorldAgreement` and `WorldStorage` model the
document, the storage calls and what they keep; `TargetMatch` in `WorldCommit` is
the instance with the coordinator and the two-object commit, and `WorldOutcome` says
how a command ends and what it leaves. `WorldProtocol` adds
the World documents and the delayed commits of both objects to the cluster, and
`WorldRefinement` proves that the methods of the class make its steps.
`WorldSafety`, `WorldTheorems` and `Witnesses` hold the results.

**The release checkers.** Kahn's algorithm and gate derivation (`DependencyGraph`,
`GateDerivation`, `ExecutionAcceptance`); the workflow run gate (`WorkflowGate`);
the log artifact envelope (`Base64`, `LogText`, `LogArtifact`,
`LogArtifactProofs`, `LogArtifactExact`); the duplicate-key machine (`WorkflowKeys`, `WorkflowTrees`,
`WorkflowDuplicates`, `WorkflowPrinting`); the Proto lexer and parser
(`ProtoLexer`, `ProtoCutting`, `ProtoLexerProofs`, `ProtoLayout`, `ProtoParser`,
`ProtoParserClass`, `ProtoStatements`, `ProtoPrinting`, `ProtoExpected`,
`ProtoTermination`, `ProtoRoundTrip`);
archive paging (`ArchivePaging`, `ArchiveReading`).

## Findings

Six properties fail as the documentation or the code around them suggests them.
Each has an input that shows it and the exact condition under which it holds.

- After an ambiguous commit of both objects the comment at
  runtime/world_command_storage.go:166-169 asks for a restart, but the coordinator
  reports the failure as retryable (runtime/internal/worldcommand/coordinator.go:91-100)
  and the instance goes on with an engine that is not its record. This happens
  exactly when the commit of an accepted command is not acknowledged
  (`InstanceOutlivesAmbiguousCommit`), seven steps from an empty cluster reach it
  (`WedgedInstanceIsReachable`), the instance is then spent (`WedgedNeverWrites`),
  and while it lives no resume gets past it (`LiveRuntimeBlocksResume`).
- A completion signal may create the World document before both participants have
  joined; a later join ends the agreement of the two objects for good
  (`EarlyDocumentIsReachable`, `JoinAfterStoreDiverges`). They agree exactly while
  no join is durable that the creator had not seen (`AgreementExactly`), so always
  if no such signal comes early (`RestartFindsAgreement`).
- The restore validation does not compare the two admission intervals, so it
  accepts documents that no match can have produced (`DisjointAdmissionExists`);
  with overlapping intervals it is exact (`RestorableIffReachable`).
- The artifact name check admits the reserved token, and such an envelope is never
  read back (`TokenInNameNeverParses`, `AcceptedNameIsLost`); without it the round
  trip holds (`EnvelopeRoundTrip`).
- A sequence item that opens with a block scalar hides its other keys from the
  duplicate check (`HiddenDuplicateIsMissed`); the check is exact on what it sees
  (`CheckerAgreesWithTree`).
- A closing brace at the top level of a Proto file keeps the parser from returning;
  it returns on exactly all other token lists (`ReturnsUnlessStuck`).

## Model

| member | source | states |
|---|---|---|
| MatchEngine.PayloadUsedSplit | runtime/internal/core/core.go:359-388 | the total payload of the recorded commands is the same in whatever order Go's map iteration visits them |
| MatchEngine.CheckCommandQuota | runtime/internal/core/core.go:359-374 | the quota loop, in any order, allows a command exactly when there are fewer than 512 records and the total payload with the next one stays within 2 MiB |
| MatchEngine.RunCommand | runtime/internal/core/core.go:224-290 | the imperative ApplyCommand computes the specified engine and outcome, and a command that it does not reject comes from the joined subject of a seat, for the agent, key and slot of that claim, while commands are taken |
| MatchEngine.RunPreflight | runtime/internal/core/world_command.go:60-121 | preflight applies every check of ApplyCommand that precedes the event, and lets nobody else through either |
| EngineAuthority.CreationIsExact | runtime/internal/core/core.go:118-172 | a match is made exactly of two active authorizations for different slots on the same terms that have no identity in common |
| EngineAuthority.OnlySubjectsCommand | runtime/internal/core/core.go:224-250 | a command is accepted or replayed only for the subject of a joined seat whose claim names its authorization, agent, key and slot |
| EngineAuthority.AcceptanceIsExact | runtime/internal/core/core.go:224-290 | a command is accepted exactly with that authority, a new id, quota, its turn, the current version and an admissible event, and its event says what was commanded |
| EngineAuthority.ReplayIsExact | runtime/internal/core/core.go:252-262 | a command is replayed exactly with that authority and if it is recorded under its id with the same fingerprint; what is not accepted changes nothing |
| EngineAuthority.PreflightIsExact | runtime/internal/core/world_command.go:60-121 | preflight is fresh exactly for what would be accepted but for its event, and replays exactly what is replayed |
| EngineAuthority.JoinIsExact | runtime/internal/core/core.go:174-222 | a join is accepted exactly for the subject of a free seat with an active authorization, and replayed exactly for the subject of a taken one |
| EngineAuthority.CompletionIsExact | runtime/internal/core/core.go:292-357 | a completion is answered exactly as the first one of an active match that closes a valid archive, or as a repetition of the facts that are there |
| EngineProgress.AdvanceGrows | runtime/internal/core/core.go:174-357 | an accepted join, command or completion finds an incomplete engine, appends exactly the next numbered event and raises the version by one; the history, seats and records are kept |
| EngineProgress.CompletedAcceptsNothing | runtime/internal/core/core.go:292-357 | a completed engine accepts nothing new |
| SnapshotValidation.ValidateRestoredState | runtime/internal/core/snapshot.go:178-403 | the loops over records and events accept a document exactly when it is restorable |
| SnapshotReplay.RestorableIffReachable | runtime/internal/core/snapshot.go:178-403 | the validator accepts exactly the engines that accepted operations produce from a new match, given that the two admission intervals overlap |
| SnapshotReplay.DisjointAdmissionExists | runtime/internal/core/snapshot.go:178-215 | without overlapping admission intervals a document restores that no match can have produced |
| ProtocolTheorems.RunKeeps | runtime/nakama_match.go:46-329 | the protocol invariant holds after every interleaving of operator calls, callbacks, crashes, lost acknowledgements and late writes |
| ProtocolTheorems.NoAba | runtime/nakama_rpc.go:213-218 | a value of a match record that has been left never recurs, so each committed write leaves the value or replaces it for good |
| ProtocolTheorems.StaleVersionIsNeverAdmitted | runtime/nakama_storage.go:116-150 | although versions are digests of values, a version that storage has replaced never matches again |
| ProtocolTheorems.GenerationsNeverDecrease | runtime/nakama_rpc.go:205-218 | the runtime generation of a match never decreases |
| ProtocolTheorems.SingleWriter | runtime/nakama_match.go:46-100 | at most one live instance of a logical match holds the current version |
| ProtocolTheorems.OnlyTheCurrentInstanceWrites | runtime/nakama_match.go:306-320 | storage refuses every mutation of an instance that does not hold the current version |
| ProtocolTheorems.OnceFencedAlwaysFenced | runtime/nakama_match.go:306-320 | an instance that lost the current version never holds it again, and the record it believes durable is frozen |
| ProtocolTheorems.DurableLogIsExtended | runtime/nakama_match.go:161-219 | across generations, crashes and resumes the durable event log only grows by extension |
| ProtocolTheorems.DurableBeforeVisible | runtime/nakama_match.go:116-153 | whatever any instance has sent, to everybody or to one sender, fenced ones included, is durable at that moment and ever after |
| ProtocolDelivery.NothingIsWithheld | runtime/nakama_match.go:102-219 | over any run, each event that an instance commits while it lives has been sent to everybody, waits for the session that caused it, or is the end of an announced completion, given that a session belongs to one user |
| ProtocolTheorems.CompletionIsFinal | runtime/nakama_rpc.go:197-199 | once a durable snapshot is completed its record never changes again and gets no further generation |
| ProtocolTheorems.AnswersAgree | runtime/nakama_rpc.go:364-418 | all completions that are ever announced by a match or returned by a call are one and the same, and the durable one |
| ProtocolCompletion.CompletionIsReturned | runtime/nakama_rpc.go:364-418 | in every reachable state an undisturbed complete call on a match with a current instance makes the completion durable, has it announced and returns it |
| ProtocolChain.CommittedSnapshotsFormAChain | runtime/nakama_match.go:306-320 | each committed snapshot is the one before it or that one after a single accepted engine operation; a first one is a new match |
| ProtocolChain.DurableSnapshotsAreReachable | runtime/nakama_match.go:306-320 | every durable snapshot is an engine that accepted operations produce from a new match |
| ProtocolRecovery.EveryDurableRecordLoads | runtime/nakama_rpc.go:420-440 | whatever was interleaved or lost, every durable record restores |
| ProtocolRecovery.ResumeRecovers | runtime/nakama_rpc.go:176-233 | in every reachable state an undisturbed resume brings an incomplete match without a live runtime back under one current instance, in the next generation, at exactly the durable engine |
| ProtocolRecovery.LiveRuntimeBlocksResume | runtime/nakama_rpc.go:200-212 | a live instance that its record names ends every resume at the look-up, also when it can no longer commit |
| MatchRuntime.MatchState.PersistMutation | runtime/nakama_match.go:306-329 | memory takes the new record and version only when acknowledged; otherwise the engine before is restored if it restores, and record and version stay |
| MatchRuntime.MatchState.MatchJoinAttempt | runtime/nakama_match.go:102-133 | the callback has exactly the effect of the protocol; it stays alive exactly if an accepted join is acknowledged by a storage that holds its record, and then the engine is the one after the join, durable, with its event pending for the session |
| MatchRuntime.MatchState.MatchJoin | runtime/nakama_match.go:135-153 | the pending join events of these presences are delivered once each |
| MatchRuntime.MatchState.MatchLoop | runtime/nakama_match.go:161-219 | the messages are played in order; the instance lives on exactly if it is incomplete, unexpired and every command that its engine accepts is stored, and then everybody was sent exactly the events that the engine gained, in order |
| MatchRuntime.MatchState.PlayMessage | runtime/nakama_match.go:192-216 | an accepted command ends the instance or is durable and sent to everybody, a replayed one goes to its sender only, a refused one changes nothing |
| MatchRuntime.MatchState.Complete | runtime/nakama_match.go:262-304 | completion behind the binding of match and generation: when the instance lives on, what is durable, announced and answered |
| MatchRuntime.MatchInit | runtime/nakama_match.go:46-100 | a state is made exactly when the record loads at this generation, is incomplete, and the binding write is acknowledged |
| MatchRefinement.MatchJoinIsARun | runtime/nakama_match.go:135-153 | one MatchJoin call is the run of its deliveries in the protocol |
| MatchRefinement.MatchLoopIsARun | runtime/nakama_match.go:161-219 | one MatchLoop call is the run of its command steps in the protocol, with the same storage, survivor and broadcasts |
| WorldStore.LatestAcceptedReceipt | runtime/internal/worldcommand/completion.go:6-22 | whatever the map order, the receipt found is an accepted one with the greatest event sequence, and none is found only if there is none |
| WorldAgreement.CommitIsAllOrNothing | runtime/world_command_storage.go:167-211 | a commit of both objects takes effect on both or on neither, and agreeing objects go on agreeing |
| WorldAgreement.CursorsNeverDiverge | runtime/world_authoritative_match.go:230-249 | with agreeing cursors the core event carries the sequence and version that the World receipt promises |
| WorldAgreement.AgreementIsExact | runtime/world_authoritative_match.go:348-362 | the two objects of an incomplete match agree exactly while no join is durable that the creator of the World document had not seen |
| WorldAgreement.DocBelowAntisymmetric | runtime/internal/worldcommand/store_commit.go:61-157 | no two different values of a World document follow each other both ways in the order of receipts, retired reservations and attempts |
| WorldCommit.TargetMatch.PersistAtomic | runtime/world_command_storage.go:132-211 | what each storage outcome does to both objects, engine, record and version; before the write the engine is rolled back, after it nothing is |
| WorldCommit.TargetMatch.PersistAccepted | runtime/world_authoritative_match.go:209-262 | the persister for an accepted receipt commits exactly if the engine accepts the command and the call reaches a storage that holds both known values; then both objects are replaced |
| WorldCommit.TargetMatch.EnsureStore | runtime/world_authoritative_match.go:281-346 | the document is opened if it agrees with the engine, or created at the engine's cursors while at most two events exist, and in no other case |
| WorldCommit.TargetMatch.Reserve | runtime/internal/worldcommand/store_prepare.go:10-110 | when a reservation is made or found and its attempt begun, and what the document then holds; a new generation exceeds all retired ones |
| WorldCommit.TargetMatch.Execute | runtime/internal/worldcommand/coordinator.go:19-102 | how one fresh command ends, in full, and what a commit, a rejection for good, a failure and a stale fence leave in both objects |
| WorldCommit.TargetMatch.ExecuteTargetCommand | runtime/world_authoritative_match.go:134-279 | the callback has the target effect of the protocol, and its ending is given in full; a command that meets nothing in its way is committed: its event sent, the match record with the engine after it, the document with state, tick, cursors and receipt and no reservation; everybody is sent what the record gained; the two objects go on agreeing |
| WorldOutcome.CleanCommits | runtime/internal/worldcommand/coordinator.go:19-102 | a command with working storage and World service, agreeing cursors and no entry of its own is committed |
| WorldOutcome.CandidateRecords | runtime/internal/worldcommand/store_commit.go:84-157 | the candidate exists exactly for a committable verdict, and is the document with one receipt more, the reservation gone, and on acceptance the next cursors, state and tick |
| WorldCommit.TargetMatch.CompletionGate | runtime/world_authoritative_match.go:376-408 | a completion passes only with nothing reserved and the outcome of the latest accepted transition, never for an instance ahead of its document, and does pass when the document opens with that |
| WorldRefinement.TargetCallIsAStep | runtime/world_authoritative_match.go:134-279 | what executeTargetCommand is proved to do is one step of the cluster that holds its instance |
| WorldRefinement.GateCallIsAStep | runtime/world_authoritative_match.go:376-408 | so is what the completion gate is proved to do |
| WorldRefinement.MatchLoop | runtime/world_authoritative_match.go:80-132 | a MatchLoop call of a target instance is a run of target steps, and everybody was sent what its record gained |
| WorldSafety.ProjectionIsARun | runtime/world_command_storage.go:167-211 | on the match records, every run with World documents and delayed commits of both objects is a run of the fencing protocol, so all its theorems hold there |
| WorldSafety.WorldNoAba | runtime/world_command_storage.go:62-93 | a value of a World document that has been left never recurs |
| WorldSafety.StaleWorldVersionIsNeverAdmitted | runtime/world_command_storage.go:62-93 | a World version that storage has replaced is never admitted again |
| WorldSafety.AgreementExactly | runtime/world_authoritative_match.go:305-362 | at every moment of every run, the objects of an incomplete match agree if and only if its durable joins are those that the creator of the document had seen |
| WorldSafety.RestartFindsAgreement | runtime/world_authoritative_match.go:281-303 | unless a completion signal reaches a target instance before both have joined, the two objects of every incomplete match stand at the same cursors at every moment of every run |
| WorldTheorems.InstanceOutlivesAmbiguousCommit | runtime/internal/worldcommand/coordinator.go:82-100 | an instance goes on with an engine that is not its record exactly when the commit of an accepted command is not acknowledged |
| WorldTheorems.WedgedNeverWrites | runtime/world_authoritative_match.go:171-180 | in every reachable state such an instance writes nothing, issues nothing and concludes nothing until it stops |
| Witnesses.WedgedInstanceIsReachable | runtime/internal/worldcommand/coordinator.go:91-100 | a run of seven steps from an empty cluster reaches such an instance, and no resume gets past it |
| Witnesses.EarlyDocumentIsReachable | runtime/world_authoritative_match.go:394-397 | a run from an empty cluster creates the World document after one join; after the second join no instance will open it |
| ArchivePaging.PageContinues | runtime/nakama_rpc.go:326-362 | a page continues the prefix before its cursor, is cut at the limit only, and says truly whether more follows |
| ArchivePaging.PagingIsExact | runtime/nakama_rpc.go:326-362 | following the cursor from zero collects every event once and in order, also when the log grows between pages |
| ArchivePaging.PagingTerminates | runtime/nakama_rpc.go:326-362 | on a log that no longer grows every page moves the cursor until it is at the end |
| ArchiveReading.ReadingAcrossARun | runtime/nakama_rpc.go:269-305 | over any run of the cluster every page request is answered and the reader holds the durable log up to its cursor |
| DependencyGraph.TopologicalOrder | scripts/derive-gates.py:102-126 | Kahn's loop answers exactly for the closed acyclic graphs, repeated edges included, with a permutation that puts dependencies first |
| DependencyGraph.RequireDag | scripts/check-status-transitions.py:117-137 | the counting variant accepts exactly the same graphs |
| GateDerivation.Derive | scripts/derive-gates.py:129-236 | it succeeds exactly on derivable registers; a gate is passed if and only if it and all below it are earned by accepted, fresh entries of the register for every evidence type, blocked or open exactly as its gaps and dependencies say |
| GateDerivation.PassedMeansEarned | scripts/derive-gates.py:167-213 | the recursive status is passed if and only if the gate and all below it are earned by entries of the register, blocked if and only if a gap is open or some gate below is not earned, and open if only its own evidence is missing |
| GateDerivation.AcceptedRecords | scripts/derive-gates.py:58-85 | the records that count are exactly the accepted entries of the register |
| GateDerivation.PassedShrinksWithTime | scripts/derive-gates.py:87-99 | for a fixed register the passed gates only shrink as time goes by |
| GateDerivation.PassedGrowsAsGapsClose | scripts/derive-gates.py:167-213 | closing gaps never takes a passed gate back |
| ExecutionAcceptance.ValidateExecution | scripts/check-status-transitions.py:554-618 | the loops, in any order of the rows, accept exactly the locally accepted claims |
| ExecutionAcceptance.LocalIsGlobal | scripts/check-status-transitions.py:334-369 | checking each claim against its neighbours accepts exactly the statuses whose accepted tasks are closed downwards and show all they need |
| ExecutionAcceptance.AcceptedTaskClosure | scripts/check-status-transitions.py:334-369 | an accepted task has its whole transitive dependency closure accepted for the same candidate |
| ExecutionAcceptance.AcceptedStreamClosure | scripts/check-status-transitions.py:554-590 | an accepted workstream has every task of every workstream below it, and all they depend on, accepted for one candidate |
| ExecutionAcceptance.AcceptanceReachesGates | scripts/check-status-transitions.py:452-501 | every gate below any gate of any task below an accepted task has its gaps closed and its evidence fresh |
| WorkflowGate.LatestIsNewest | scripts/check-required-workflow-runs-core.py:200-212 | the run kept per workflow is an eligible one with the greatest id and attempt |
| WorkflowGate.LatestIgnoresOrder | scripts/check-required-workflow-runs-core.py:200-212 | the order of the listing does not matter when ids and attempts tell runs apart |
| WorkflowGate.SelectRuns | scripts/check-required-workflow-runs-core.py:215-250 | the selection follows the manifest, and it reports no failure exactly for acceptable listings |
| WorkflowGate.JobFailures | scripts/check-required-workflow-runs-hardened-core.py:66-146 | no failure is reported exactly when enough jobs and all their steps succeeded |
| WorkflowGate.RunGate | scripts/check-required-workflow-runs-hardened-core.py:234-457 | the poll loop passes exactly when a streak of steady polls is reached before a failure or the deadline |
| WorkflowGate.LookIsExact | scripts/check-required-workflow-runs-hardened-core.py:269-457 | a poll fails exactly on a missing answer, a broken listing or ended runs without evidence, and is steady exactly when both listings ended and show the same verified runs |
| WorkflowGate.PassedMeansVerified | scripts/check-required-workflow-runs-hardened-core.py:269-457 | if it passed, each of the last polls saw in both listings every required workflow succeeded at one identity, with all jobs of it verified |
| Base64.DecodeEncode | scripts/emit-actions-log-artifact.py:48-88 | decoding inverts encoding (section 4 of RFC 4648) |
| Base64.DecodesExactly | scripts/emit-actions-log-artifact.py:190-193 | a text decodes to some data exactly when it is its encoding but for the unused bits of the last quantum (section 3.5 of RFC 4648) |
| Base64.AlphabetIsStandard | scripts/emit-actions-log-artifact.py:48-88 | the alphabet is the one of table 1 of RFC 4648 |
| LogArtifact.CanonicalMarkerLines | scripts/emit-actions-log-artifact.py:100-147 | the line loop returns exactly the marker lines of a log in which all are good, of one style and monotone |
| LogArtifact.Parse | scripts/emit-actions-log-artifact.py:150-220 | the parser answers exactly as the specification of a recovered envelope does |
| LogArtifactExact.EnvelopePrints | scripts/emit-actions-log-artifact.py:48-88 | the envelope is printed exactly for a valid name and an archive within the bound: the text of header and trailer, and the payload in lines of 76 characters |
| LogArtifactExact.AcceptanceIsExact | scripts/emit-actions-log-artifact.py:150-220 | a log is accepted, with its result, exactly if it shows the text of that envelope in one block, bare or behind rising timestamps, with the same identity, size and count throughout and no token elsewhere |
| LogArtifactExact.BomIsIgnored | scripts/emit-actions-log-artifact.py:109-110 | byte order marks before the first line change nothing |
| LogText.LinesAreSplit | scripts/emit-actions-log-artifact.py:103 | a text is split at every line break of whatever kind and nowhere else |
| LogArtifactProofs.EnvelopeRoundTrip | scripts/emit-actions-log-artifact.py:48-220 | the parser returns the archive from any log that holds its envelope, bare or stamped, among lines without the token, if the name lacks the token |
| LogArtifactProofs.TextRoundTrip | scripts/emit-actions-log-artifact.py:150-220 | the same for the text of the log, through Python's splitting of lines |
| LogArtifactProofs.AcceptedIsNearCanonical | scripts/emit-actions-log-artifact.py:150-220 | whatever is accepted holds one contiguous envelope of the declared size and digest whose payload lines are those of re-emission but for unused bits |
| LogArtifactProofs.TokenInNameNeverParses | scripts/emit-actions-log-artifact.py:42-45 | an envelope whose name contains the token is never read back |
| LogArtifactProofs.AcceptedNameIsLost | scripts/emit-actions-log-artifact.py:42-45 | such a name passes the name check |
| WorkflowKeys.StructureFailures | scripts/check-workflow-action-policy.py:96-176 | the one-pass stack machine reports exactly the lines with a tab, the keys whose identity was met before, each with the line where it was first met, and the required root keys that are not there once |
| WorkflowPrinting.CheckerAgreesWithTree | scripts/check-workflow-action-policy.py:96-176 | on every printed tree it reports a duplicate exactly when a mapping that it sees repeats a key |
| WorkflowPrinting.CheckerIsExact | scripts/check-workflow-action-policy.py:96-176 | a report is always right, and without a sequence item that opens with a block scalar every repeated key is reported |
| WorkflowPrinting.CheckPrinted | scripts/check-workflow-action-policy.py:96-176 | the whole verdict on a printed tree: tabs, repeats and required root keys |
| WorkflowPrinting.HiddenDuplicateIsMissed | scripts/check-workflow-action-policy.py:110-135 | a tree with a repeated key in a step that opens with a block scalar passes |
| ProtoLexer.LexProto | scripts/generate-api-rtapi-denominator.py:142-196 | the index and line loop ends on every text with the specified tokens or error |
| ProtoLexerProofs.LexerIsFaithful | scripts/generate-api-rtapi-denominator.py:142-196 | tokens are placed in order and cover the text but for whitespace and comments, with their line numbers; it fails only on an unterminated comment or string |
| ProtoLexerProofs.LexerIsExact | scripts/generate-api-rtapi-denominator.py:142-196 | it returns a list of tokens if and only if they cover the text, so no other cutting is possible |
| ProtoLayout.LayoutLexes | scripts/generate-api-rtapi-denominator.py:142-196 | any layout of words with whitespace and comments lexes to exactly these words |
| ProtoParserClass.Parser.CollectStatement | scripts/generate-api-rtapi-denominator.py:426-453 | the cursor loop collects the statement up to its end at bracket depth zero |
| ProtoParserClass.Parser.SkipDeclaration | scripts/generate-api-rtapi-denominator.py:490-507 | the cursor loop skips one declaration to the specified position, and steps back onto a closing brace |
| ProtoParserClass.Parser.ParseOneof | scripts/generate-api-rtapi-denominator.py:295-310 | the recursive-descent method moves cursor and items as the specification of oneof does |
| ProtoParserClass.Parser.ParseMessage | scripts/generate-api-rtapi-denominator.py:268-293 | the same for messages with everything nested in them |
| ProtoParserClass.Parser.ParseEnum | scripts/generate-api-rtapi-denominator.py:312-345 | the same for enums |
| ProtoParserClass.Parser.Parse | scripts/generate-api-rtapi-denominator.py:245-258 | the whole parse has the specified outcome; where the loop of the source would never return, the method ends and says so |
| ProtoTermination.FileIsTheLoop | scripts/generate-api-rtapi-denominator.py:245-258 | the outcome of a parse is what its loop arrives at, turn by turn |
| ProtoTermination.BraceStandsStill | scripts/generate-api-rtapi-denominator.py:490-507 | at a top-level closing brace no number of turns changes anything |
| ProtoTermination.ReturnsUnlessStuck | scripts/generate-api-rtapi-denominator.py:245-258 | the parse fails to return if and only if its declarations, read one after the other without an error, lead to a closing brace |
| ProtoExpected.TypeComesBack | scripts/generate-api-rtapi-denominator.py:523-534 | a field type is read as the dotted name or the map that was written |
| ProtoExpected.TypeIsText | scripts/generate-api-rtapi-denominator.py:523-534 | the text of a type is its words in order, with a blank between two of them unless a dot, comma or angle bracket keeps them together |
| ProtoExpected.QualifiedIsSymbol | scripts/generate-api-rtapi-denominator.py:242-243 | a qualified symbol is the dotted path of package, enclosing names and name |
| ProtoStatements.FieldIsExact | scripts/generate-api-rtapi-denominator.py:455-488 | a statement is read as a field exactly if it has the shape of one |
| ProtoStatements.StatementIsKept | scripts/generate-api-rtapi-denominator.py:455-521 | a statement becomes one item, or is kept whole with its place for a human |
| ProtoStatements.EnumStatementIsKept | scripts/generate-api-rtapi-denominator.py:312-345 | the same of the statements of an enum |
| ProtoStatements.NumbersAreRead | scripts/generate-api-rtapi-denominator.py:465-471 | a number is read in the base that its prefix names |
| ProtoRoundTrip.FileParses | scripts/generate-api-rtapi-denominator.py:245-488 | tokens of declarations parse to the pre-order list of items, each with its dotted symbol, the text of its type, label, oneof, number and lines, and nothing is left over |
| ProtoRoundTrip.PrintLexParse | scripts/generate-api-rtapi-denominator.py:142-488 | for every declaration list and every layout of its words, lexing and parsing the text yields those items |
| ProtoRoundTrip.StrayBraceHangs | scripts/generate-api-rtapi-denominator.py:490-507 | a closing brace after complete declarations keeps the loop from returning |

## Left out

- MatchRuntime.MatchState.MatchLoop: label updates, error broadcasts and logging are not modelled; a failed broadcast is not told apart from a delivered one.
- SnapshotValidation.ValidateRestoredState: does not model the 64 MiB snapshot capacity (`ensureSnapshotCapacity`, runtime/internal/core/snapshot.go:77-89), which the operations and the restore also check; the theorems on loading and reachability are about snapshots within it.
- EngineProgress.AdvanceGrows: the engine is a value, so its internal copying and locking are not modelled; signatures, digests and canonical encodings are injective or predicates of the configuration.
- ProtocolDelivery.NothingIsWithheld: a session is taken to belong to one user, which Nakama provides; `SharedSessionLoses` shows what is lost otherwise. What a stopped instance had pending is recovered by reading the log, not delivered.
- ProtocolTheorems.RunKeeps: operator authorization, evidence reading by participants, health and readiness calls and the module configuration are not part of the cluster.
- WorldCommit.TargetMatch.Execute: cancellation of the request between reservation and attempt, which records a retryable failure, is not modelled, nor are the fault hooks.
- WorldCommit.TargetMatch.EnsureStore: the branch that opens the document after losing the race to create it is modelled as a failure of the call; what it would open passes the same cursor check.
- WorldStore.LatestAcceptedReceipt: the takeover and abort operations of the store (runtime/internal/worldcommand/store_ops.go) are left out; no callback of the match uses them.
- WorldRefinement.TargetCallIsAStep: the storage calls of one target command are one step; a write of another instance that lands between them can only make the later ones be refused, which the faults of the later ones cover.
- World execution, its transport and the canonical JSON codec: their verdicts are arguments.
- Storage reads of an archive page: modelled as reading the durable value; the operator token and the JSON wire limits are not.
- GateDerivation.Derive: retention rules that decide whether an evidence record is accepted are a flag of the record, and the backing of gaps by evidence is a function of the register.
- ExecutionAcceptance.ValidateExecution: stage gates and the rows and milestone of the roadmap (scripts/check-status-transitions.py:504-533, 592-618) are left out; they repeat the same checks on other tables.
- WorkflowGate.RunGate: the API pages, clocks and file contents are inputs; failure messages are reduced to their kinds.
- LogArtifact.Parse: regular expressions are predicates on characters, Python's base64 decoder is taken as padded base64 of RFC 4648, and decimal digits outside ASCII are not modelled.
- WorkflowPrinting.CheckerAgreesWithTree: the printed trees have block scalars as values of keys, not as sequence items; every other text is covered by WorkflowKeys.StructureFailures.
- ProtoParserClass.Parser.Parse: services and their calls with HTTP bindings (scripts/generate-api-rtapi-denominator.py:347-424) end the model with an outcome of their own; Unicode tables of identifiers and whitespace are parameters.
- OpenAPI walking, manifest writing, the marker-scanning checkers and the Rust crates: they would add easy members only.
