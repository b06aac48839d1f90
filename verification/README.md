# Verified model of mcpeval's hard cores

mcpeval records, probes and scores Model Context Protocol servers. Most of it is
I/O; this project models the machines inside it in Dafny and proves what each of
them promises. `dafny verify dfyconfig.toml` checks the whole project.

Every lemma over parameters carries `{:induction false}`: inductions are written
out, never guessed.

## What is modelled

**The recording shim.** Two pump threads take sequence numbers, forward bytes and
post events; one consumer puts completions back into reservation order and feeds a
correlator keyed by JSON-RPC id (JSON-RPC 2.0, sections 4 and 5). `FrameOrder.dfy`
is the reorder buffer, proved against a ledger of reservations; `Correlator.dfy`
is the correlator and the event handler; `ShimProtocol.dfy` is the whole as a step
system over pumps, child and consumer. The child answers only requests already
written to it, each at most once, and the agent reuses an id only after an answer
to it was written to the agent. Over every interleaving the records are those the
history alone dictates, even when an answer's completion is posted first, and each
says of its call what the request and the answer said. A request whose completion never comes has no record, and neither has its answer:
such frames are retired, not recorded.

**The catalog contract.** `Canonical.dfy` is the canonical JSON text, proved to
print two values alike exactly when they are equal with objects as finite maps, and
to be read back by `JsonReader.dfy`, a reader written from the grammar of RFC 8259
alone. `Constraints.dfy` is the schema normaliser with bounded local references;
`Pointers.dfy` says what a pointer addresses (RFC 6901, sections 4 and 5).
`ConstraintsExact.dfy` gives both halves of what a constraint shows: references
followed and prose dropped, everything else, and nothing else. `Contract.dfy` is the
comparison of two catalogs and what its severities mean to a caller, and
`ContractExact.dfy` says which definitions have equal contracts. Digests are any
function on text, injective where two texts must be told apart, so no claim rests on
SHA-256. Comparison loses one thing: a required name
that is no declared parameter (`StrayRequirementIsUnseen`). Rewording prose is
invisible (`ProseEditsAreInvisible`) unless a `$ref` leads into it, which shows
(`ReferencedProseShows`), or ends at a map of names, from where a name that is also
a keyword is read as one and prose below it as a name (`ReferencedNamesShow`).

**The readiness fold.** `Score.dfy` folds observations into six areas;
`ScoreMeanings.dfy` says what each area is worth in percentages and averages and
which checks it lists; `ScoreLaws.dfy` proves that skipping never pays, that no loss
is silent, and that one score is free of latency. Scores are over the reals with rounding half away
from zero; `ln` is any increasing function. Coverage can lose points silently when
a callable tool has neither a success nor an outcome; `CoverageSilentWhen` says
exactly when.

**Lifecycle evidence.** `Lifecycle.dfy` records verifications under run identities
and keeps the query tables up to date one result at a time; `Migration.dfy` is the
identity migration; `LifecycleTraces.dfy` runs whole traces of promotions, with
their migrations, and verifications, and gives the closed form of a finding's
state; `LifecycleStore.dfy` holds the tables and their transactions. A migration
that finds the new identity held by a row of another key fails, and with it the
whole promotion.

**Smaller cores.** `EvaluationBudget.dfy`: the lock-free request budget as
interleaved atomic steps with stale loads and spurious failures. `Client.dfy`,
`ClientVerdicts.dfy`, `ClientLaws.dfy`, `ClientBuffer.dfy`, `ClientReplies.dfy`,
`Paging.dfy`: the sequential client, what it makes of an answer, its sessions, its
notification buffer, its reply matching and catalog discovery. `Wilson.dfy`: the Wilson bound, for any positive quantile.
`Trends.dfy`: the streaming history scan. `Shape.dfy`, `Records.dfy`,
`RecordMeanings.dfy`, `Generate.dfy`: an argument's shape, sanitised and filled in
again. `Manifest.dfy`, `Scaffold.dfy`, `ScaffoldMeanings.dfy`: the scaffolder, which
always passes its validator, and what it writes for which tool.

Two places where the code does less than its comments suggest are kept as they
are. A tool call observed for server requests takes its verdict from any response
under its id, without checking the envelope or that only one of `result` and
`error` is present (`ObservedCallChecksLess`, `ErrorBesideAResultIsUnseen`). And an
update is not always there for the wait that comes after it. It is exactly when a
plain request, or a wait for another resource, read it while it still fitted the
buffer (`UpdateFoundIff`): observed and cancelled calls drop what they read
(`DeafCallsBufferNothing`), and a full buffer ends the operation.

## Model

| member | source | states |
|---|---|---|
| FrameOrder.Buffer.Reserve | src/shim.rs:76-92 | a reservation is taken only for the next sequence; otherwise "out of order" and no change |
| FrameOrder.Buffer.Complete | src/shim.rs:94-111 | a completion settles a waiting reservation once; unknown, repeated and retired ones are errors |
| FrameOrder.Buffer.RetireUnfinished | src/shim.rs:113-125 | every unfinished frame of one direction is given up, nothing else moves |
| FrameOrder.Buffer.DrainReady | src/shim.rs:127-152 | releases the completed frames of the settled front, in sequence order |
| FrameOrder.DrainRepresents | src/shim.rs:127-152 | what is drained is exactly the completed reservations of the newly settled stretch, once each and in order |
| FrameOrder.HandleRefines | src/shim.rs:575-598 | an allowed event raises no error and keeps the buffer equal to its ledger |
| FrameOrder.ErrorsAreViolations | src/shim.rs:76-111 | each of the four errors arises exactly for the protocol violation it names, and changes nothing |
| FrameOrder.NothingLeftBehind | src/shim.rs:583-598 | with every reservation settled nothing is pending and the ready mark has caught up |
| Correlator.Correlator.Outbound | src/correlate.rs:55-95 | a request with an id becomes pending under its scope and id; all else is ignored |
| Correlator.Correlator.Inbound | src/correlate.rs:112-187 | a response takes its pending request away and yields its record; one without a request yields none |
| Correlator.Correlator.Unparsed | src/correlate.rs:189-206 | a line that is no message still takes a record number |
| Correlator.HandleEvent | src/shim.rs:575-618 | one event through buffer and correlator appends exactly the records of the released frames |
| Correlator.CallReports | src/correlate.rs:112-187 | the record of an answered request names its method, its tool or "unlisted" and the delay cut off at zero; its outcome is an error exactly for an `error` or a true `isError`, unknown exactly for a tool result that is no object or has a non-boolean `isError`, else ok |
| Correlator.MessagesMean | src/correlate.rs:55-128 | which messages are requests and responses, and that two ids are matched exactly when they are the same JSON value |
| Correlator.SlotsAreDistinct | src/correlate.rs:55-95 | pending keys of two scopes and ids never collide while scopes hold no colon |
| ShimProtocol.HistoryKept | src/shim.rs:418-507 | every step keeps the history well formed: answers follow the requests they answer, ids reused only after an answer |
| ShimProtocol.EventsKept | src/shim.rs:176-199 | every event a pump posts is one the reorder buffer allows |
| ShimProtocol.ReachableInv | src/shim.rs:418-535 | all three invariants hold in every reachable state |
| ShimProtocol.CorrelationIsExact | src/correlate.rs:55-187 | feeding completed frames in reservation order yields the records read off the history and leaves exactly the live requests pending |
| ShimProtocol.RecordsAreExact | src/shim.rs:575-618 | in every reachable state no error was raised and the stored records are exactly those of the frames released so far |
| ShimProtocol.StoredRecordsReport | src/shim.rs:575-618 | the j-th stored record has number j and reports exactly the released frame it stands for, told from the request and the answer alone |
| ShimProtocol.ConsumerIsNeverStuck | src/shim.rs:127-152 | whenever an event waits, handling it is defined: the drain never meets a frame without its data |
| ShimProtocol.QuietLeavesNothing | src/shim.rs:583-598 | after both pumps finished and their events were consumed nothing is pending and every frame had its turn |
| ShimProtocol.AnsweredRequestsAreRecorded | src/correlate.rs:112-187 | every completed request with a completed answer has one call record, whichever completion was posted first |
| ShimProtocol.CallRecordsAreAnswers | src/correlate.rs:112-187 | and every call record comes from one answer to one completed request |
| ShimProtocol.AnswerCanOvertake | src/shim.rs:429-503 | for any request and answer some run completes the answer first |
| Canonical.CanonicalIsExact | src/catalog_contract.rs:216-243 | two documents print alike if and only if they are the same value with objects as finite maps |
| Canonical.CanonicalReadsBack | src/catalog_contract.rs:216-243 | read by the grammar alone, the text is one value that means the same and lists the keys of every object in ascending order |
| Canonical.ReadsBack | src/catalog_contract.rs:216-243 | a printed value is read back whatever follows it |
| Canonical.EscapesMean | src/catalog_contract.rs:226-239 | each character of a string is written as itself or with the one escape section 7 of RFC 8259 gives it, and is read back |
| Canonical.PrintUnique | src/catalog_contract.rs:216-243 | printed values are self-delimiting: equal texts have equal values and equal remainders |
| Canonical.AppendCanonical | src/catalog_contract.rs:216-243 | the recursive appender adds exactly the canonical text to what it was given |
| Constraints.KeysKept | src/catalog_contract.rs:182-212 | keyword position keeps exactly the keys that are not prose; among names every key is kept |
| Constraints.ProseEditsAreInvisible | src/catalog_contract.rs:182-212 | rewording prose that no reference points at leaves every constraint as it was |
| Constraints.ReferencedProseShows | src/catalog_contract.rs:182-212 | for every prose keyword, rewording it where a reference points at it does change the constraint |
| Constraints.ReferencedNamesShow | src/catalog_contract.rs:182-212 | for every pair of name maps and every prose keyword, rewording below a reference to the outer map does change the constraint, though it points at no prose |
| Constraints.NamesKept | src/catalog_contract.rs:195-202 | below the five name-map keywords, and only there, a key that is a prose keyword elsewhere stays |
| Constraints.HopsMean | src/catalog_contract.rs:182-194 | eight references are followed and the ninth is kept as it stands |
| ConstraintsExact.ConstraintsAreExact | src/catalog_contract.rs:182-212 | two schemas have one constraint if and only if they read alike: alike with references followed and prose keywords left out, down to every number, text, flag and key |
| ConstraintsExact.OnlyProseIsInvisible | src/catalog_contract.rs:182-212 | without visited references, constraints are equal if and only if the schemas differ in prose alone |
| ConstraintsExact.OnlyProseOfTargetsIsInvisible | src/catalog_contract.rs:182-212 | two references have equal constraints if and only if their targets differ in prose alone |
| ConstraintsExact.TextsAreExact | src/catalog_contract.rs:245-249 | and so it is for the text that is digested |
| Pointers.PointersReadBack | src/catalog_contract.rs:186-192 | any list of tokens, written as RFC 6901 section 3 has it, is read back |
| Pointers.ResolveMeans | src/catalog_contract.rs:186-192 | a pointer resolves to a value exactly when its tokens lead there: member names in objects, plain decimal indices in arrays |
| Contract.ProseEditKeepsContract | src/catalog_contract.rs:251-279 | the same for a whole tool contract, over any digest |
| ContractExact.ContractsAreExact | src/catalog_contract.rs:251-279 | over an injective digest two definitions have equal contracts if and only if name, class, required names and parameters agree, constraints read alike, and outputs do |
| Contract.CompareCatalogs | src/catalog_contract.rs:357-451 | collecting tool by tool and sorting computes the comparison |
| Contract.CompareIsOrdered | src/catalog_contract.rs:440-451 | the list is ordered by severity and then tool, and sorting loses no change |
| Contract.ListedIffHappened | src/catalog_contract.rs:357-451 | a kind of change is listed for a tool if and only if it happened |
| Contract.HappenedAffects | src/catalog_contract.rs:384-418 | a parameter change happened exactly when some parameter is newly required, newly optional, removed, added or reconstrained |
| Contract.NoBreakingMeans | src/catalog_contract.rs:108-131 | nothing breaking is exactly: tools kept, no new requirement, no parameter or output schema lost, none turned dangerous |
| Contract.NothingBreaksItself | src/catalog_contract.rs:108-131 | no catalog breaks itself |
| Contract.NoBreakingComposes | src/catalog_contract.rs:108-131 | nothing breaking from one version to the next and on means nothing breaking overall |
| Contract.OldCallsStillWork | src/catalog_contract.rs:108-131 | with no breaking and no review change every call accepted before is accepted after |
| Contract.AffectedCallFails | src/catalog_contract.rs:108-131 | each change that affects calls has a call that worked and now fails |
| Contract.CallsFailIffListed | src/catalog_contract.rs:108-131 | some working call fails if and only if a call-affecting change is listed |
| Contract.OutputsStillPromised | src/catalog_contract.rs:108-131 | with no breaking and no review change every declared output is still declared, and as it was |
| Contract.SilentIff | src/catalog_contract.rs:357-451 | the comparison is empty exactly when the same tools are there and look the same |
| Contract.SilentMeansEqual | src/catalog_contract.rs:357-451 | with required names declared, the comparison is empty if and only if the contracts are equal |
| Contract.StrayRequirementIsUnseen | src/catalog_contract.rs:384-418 | without that, dropping an undeclared required name goes unlisted, for every tool and name |
| Score.FoldCatalog | src/score.rs:518-592 | the catalog loop computes the mean of the tools' shares and lists each failed fact |
| Score.FoldHonesty | src/score.rs:636-680 | the honesty loop computes the share of judged tools that refused with words |
| Score.FoldCoverage | src/score.rs:827-872 | the coverage loop computes the share of callable tools with a success |
| Score.FoldReliability | src/score.rs:682-825 | the reliability loop computes the mean over tools and server cases, zeros forced by a skip |
| ScoreMeanings.LoneToolScores | src/score.rs:682-825 | a lone exercised tool scores its success rate times the mean of its marks: nothing without a success, the mean of consistency, latency band and conformance with successes only |
| ScoreMeanings.LoneToolPercentage | src/score.rs:682-825 | with full marks k successes of n calls score k / n in percent |
| ScoreMeanings.ReliabilityLists | src/score.rs:682-825 | the checks reliability lists, each with its tool, score and reason, and no others |
| ScoreMeanings.ShareMeans | src/score.rs:518-592 | a tool's catalog score is the facts it meets over the facts that apply, in percent |
| ScoreMeanings.CurveMeans | src/score.rs:437-447 | the logarithmic scale gives full marks up to one anchor, none from the other on, and between them the share of the distance in logarithms |
| ScoreMeanings.ContextMeans | src/score.rs:594-631 | three parts catalog weight and one part heaviest entry, each on its logarithmic scale, and the checks listed |
| ScoreMeanings.HonestyMeans | src/score.rs:636-680 | honest tools over judged tools in percent, and a check for each that was not honest |
| ScoreMeanings.CoverageMeans | src/score.rs:827-872 | covered tools over callable tools in percent, and a check for each uncovered one |
| ScoreMeanings.ProtocolMeans | src/score.rs:477-516 | passed checks over all checks in percent, and each failure listed |
| ScoreLaws.SkippingNeverPays | src/score.rs:374-421 | skipping any set of callable tools raises none of the six areas, not the score and not the latency-free score |
| ScoreLaws.SkippingReliability | src/score.rs:682-825 | the same for reliability, although a skip changes what the mean divides by |
| ScoreLaws.WeightNeverPays | src/score.rs:594-631 | a catalog none of whose entries grew scores no lower for context |
| ScoreLaws.NoSilentLoss | src/score.rs:386-475 | when callable tools have outcomes, every area below full marks lists a lost check, and so does the fold when the score is |
| ScoreLaws.CoverageSilentWhen | src/score.rs:827-872 | coverage loses points without a listed check exactly when no listed tool failed and over one callable tool in two hundred has neither success nor outcome |
| ScoreLaws.LatencyOnlyCosts | src/score.rs:386-388 | the score never exceeds the latency-free score, which is at most 100 |
| ScoreLaws.WithoutLatencyIsPortable | src/score.rs:360-365 | the latency-free score is the same whatever the latencies were |
| ScoreLaws.AreaCostsItsWeight | src/score.rs:63-73 | between any area scores the score moves by their weighted differences, to within a point, and exactly when those are whole points |
| ScoreLaws.HeaviestIsHeaviest | src/score.rs:596-599 | the tool named heaviest has the most tokens, and the first name among equals |
| ScoreLaws.CatalogListsFailures | src/score.rs:580-584 | a check is listed for the catalog if and only if some tool fails that fact |
| Lifecycle.StreakIsLongest | src/lifecycle.rs:357-377 | the streak is the longest passing suffix under one probe and definition |
| LifecycleTraces.ClosedForm | src/lifecycle.rs:305-354 | over any promotions, migrations and verifications, with replays and refusals, each finding's row is what the verdicts that count for it make it; without a migration all count |
| LifecycleTraces.GatheredVerdicts | src/promote.rs:492-537 | a migration carries on with the verdicts of the newest row it gathers, and leaves those on other findings alone |
| LifecycleTraces.StatesMean | src/lifecycle.rs:357-377 | closed means three or more passes in a row, verifying one or two, open nothing yet or one failure right after a pass |
| LifecycleTraces.ReplayChangesNothing | src/lifecycle.rs:306-326 | a recorded run sent again after anything else changes nothing: the same evidence is acknowledged under the finding that holds it by then, other evidence refused |
| Lifecycle.ProjectionKeepsUp | src/lifecycle.rs:153-175 | for any evidence, showing one result rebuilds the query tables if and only if they lacked the run columns or agreed before but for that result |
| LifecycleStore.Store.RecordRun | src/lifecycle.rs:274-355 | a verification updates the authoritative tables as specified and shows its result |
| LifecycleStore.Store.Migrate | src/promote.rs:492-537 | the migration gathers a key's rows under one identity, or fails and changes nothing exactly when another row holds it |
| LifecycleStore.Store.Promote | src/promote.rs:257-478 | a promotion does all its migrations and insertions and then rebuilds the query tables, or nothing at all |
| LifecycleStore.AgreementHolds | src/lifecycle.rs:332-349 | from any evidence, over any promotions, migrations and verifications, the query tables are what a rebuild gives once anything was written |
| Migration.OneAnswer | src/promote.rs:497-512 | the query for the rows of a key has exactly one answer |
| Migration.MigrationConserves | src/promote.rs:516-535 | every verification survives in its place, only re-attributed |
| Migration.MigrationKeepsNewest | src/promote.rs:497-535 | one row is left for the key, the most recently updated, and other findings keep theirs |
| Migration.MigrationIsIdempotent | src/promote.rs:513-515 | migrating again changes nothing |
| EvaluationBudget.GrantsWithinLimit | src/evaluation_budget.rs:91-109 | the counter is the number of grants, at most the limit, and a count denial happens only at the limit |
| EvaluationBudget.GrantsAreAcquired | src/evaluation_budget.rs:91-109 | the counter is how often an acquire went through, counted along the run |
| EvaluationBudget.StepMeans | src/evaluation_budget.rs:83-109 | a thread is granted exactly by its own exchange, and each refusal names its cause: the deadline, an earlier denial, or the limit reached |
| EvaluationBudget.LoneThread | src/evaluation_budget.rs:83-109 | one thread alone is granted every request up to the limit and refused the next |
| EvaluationBudget.LateThread | src/evaluation_budget.rs:83-90 | whenever the deadline passes the next acquire is refused for it, and the one after |
| EvaluationBudget.DenialIsFinal | src/evaluation_budget.rs:83-109 | once any thread was denied no acquire is granted, not even one under way |
| EvaluationBudget.MissMeansProgress | src/evaluation_budget.rs:99-107 | a retry on a changed count means another thread was granted that request |
| EvaluationBudget.MissRaisesCount | src/evaluation_budget.rs:99-107 | each such retry raises the thread's count, which stays within the limit |
| EvaluationBudget.OwnGrantsAreSeen | src/evaluation_budget.rs:93-108 | a thread never reads the counter below its own grants |
| Client.McpClient.SendRequest | src/mcp_client.rs:778-848 | a request issues the next id and ends as its wait over the incoming frames specifies, keeping the client sound |
| Client.McpClient.ObserveToolCall | src/mcp_client.rs:450-538 | the same for a tool call that answers server requests up to a bound |
| Client.McpClient.CancelToolCall | src/mcp_client.rs:602-682 | a cancelled call is honored by silence or -32800, ignored by a result, errored otherwise |
| ClientVerdicts.CancelVerdict | src/mcp_client.rs:602-682 | once both frames are written a cancellation is honored by silence or an error alone of code -32800, ignored by a result alone that reports no failure, and errored by any other well-formed reply |
| ClientVerdicts.CallToolVerdict | src/mcp_client.rs:450-538 | an observed call's verdict is that on the fields of the last frame it read: success, tool error with its text or code, or malformed |
| Client.McpClient.WaitForResourceUpdate | src/mcp_client.rs:696-744 | the buffer is drained before the wire is read |
| Client.McpClient.RememberNotification | src/mcp_client.rs:907-917 | the buffer stays within 128 entries and 4 MiB and its byte count equals its entries |
| Client.McpClient.RemoveNotification | src/mcp_client.rs:705-712 | taking an entry out never runs the byte count under |
| ClientLaws.PerformSound | src/mcp_client.rs:851-917 | every operation keeps given-up ids older than any still to come and the buffer bounded, and all but a wait issue one id |
| ClientLaws.RepliesAreNotShared | src/mcp_client.rs:778-848 | in any session two requests never return the same reply, and later ones return larger ids |
| ClientLaws.ReplyAnswers | src/mcp_client.rs:833-846 | a returned reply is the last frame read, carries the outstanding id and exactly one of result and error |
| ClientReplies.LateRepliesAreDiscarded | src/mcp_client.rs:778-868 | noise, notifications that fit, roots requests the client may still answer and late replies, each once, never keep a request from its own reply |
| ClientReplies.LateResponsesAreDiscarded | src/mcp_client.rs:464-537 | the same for a tool call that answers server requests, up to its bound |
| ClientReplies.NinthRequestEnds | src/mcp_client.rs:810-832 | eight roots requests are answered while one request waits and the ninth ends the wait |
| ClientReplies.LateReplyTwiceFails | src/mcp_client.rs:861-868 | a second frame under a late reply's id, whatever the first was, ends the wait |
| ClientBuffer.BufferAfter | src/mcp_client.rs:907-917 | after any operation the buffer holds what it left of the old one and exactly the frames it took that fitted |
| ClientBuffer.UpdateFoundIff | src/mcp_client.rs:696-744 | after any operation an update is there for the next wait if and only if one was left over or one was read while it fitted, by a request or by a wait for another resource |
| ClientBuffer.UpdateIsNotLost | src/mcp_client.rs:286-291 | an update that a request read and that fitted is found by the wait after it without reading on |
| ClientBuffer.DeafCallsBufferNothing | src/mcp_client.rs:517-522 | observed and cancelled calls leave the notification buffer as it was |
| ClientLaws.ObservedCallChecksLess | src/mcp_client.rs:487-514 | under its id it takes its verdict from any response; a request needs a 2.0 envelope with one of result and error |
| Paging.DiscoverCatalog | src/mcp_client.rs:155-203 | the paging loop computes discovery from any page source |
| Paging.PageCatalog | src/mcp_client.rs:138-146 | only a complete catalog of at most twenty pages is handed on |
| Paging.DiscoveryRefinesConcatenation | src/mcp_client.rs:155-203 | discovery is all pages concatenated with later listings dropped; complete exactly when all pages listed and the last allowed named no further one |
| Paging.DiscoveredOnce | src/mcp_client.rs:182-187 | each listed name is there once, as its first listing |
| Wilson.BoundIsWilson | src/promote.rs:31-44 | the bound is the smallest solution of (rate - p)^2 = z^2 p (1 - p) / n, lies between 0 and the rate, and is 0 only without failures |
| Wilson.BoundIncreases | src/promote.rs:31-44 | for as many calls, more failures give a strictly larger bound |
| Trends.Scan | src/trends.rs:143-163 | each server's answer is the newest points of its stably sorted history, server by server; one bad profile refuses the journal |
| Trends.RecentMeans | src/trends.rs:154-158 | a server's answer is in ascending order of time, has as many points as allowed, and no point left out is later than a kept one |
| Trends.NoneLost | src/trends.rs:143-163 | what is kept and what is left out are together exactly the server's points |
| Trends.SuffixInsert | src/trends.rs:154-158 | bounded insertion keeps what the last part of the full sorted list would hold |
| Trends.SortKeepsArrival | src/trends.rs:154-155 | points of one instant keep the order they arrived in |
| Shape.WalkSchema | src/shape.rs:90-120 | the walk learns exactly the words the schema declares at each path below it |
| Shape.DeclaresMean | src/shape.rs:90-120 | a word is declared at a path by the enum there, by any branch of `oneOf`, `anyOf` or `allOf`, below the property the path goes on with, or below the items |
| Shape.EnumIndex.Learn | src/shape.rs:26-30 | learning a schema replaces what was known of its tool, and of no other |
| Shape.BucketMeans | src/shape.rs:166-173 | a text is in the bucket of the first bound its UTF-8 bytes do not exceed |
| Shape.EveryPathHasAnAddress | src/shape.rs:50-88 | every path of keys and items has a text that parses back to it, whatever the keys hold |
| Records.SanitizeIsProjection | src/record.rs:247-303 | sanitising twice is sanitising once, and it leaves alone exactly the clean shapes |
| Records.RecordIsProjection | src/record.rs:63-97 | whatever comes in, what is kept may be stored: well-formed labels or stand-ins, clean arguments, an opaque session, a safe error; exactly such records are kept as they are |
| Records.SanitizeRecord | src/record.rs:63-97 | the fields are replaced one by one as the specification of a stored record has it |
| RecordMeanings.RawIsShaped | src/record.rs:247-273 | raw arguments are reduced to the shape they would have with no text read |
| RecordMeanings.ShapesStay | src/record.rs:247-303 | a recorded shape is clean, so sanitising leaves it, when learned words are labels and domains are hosts |
| RecordMeanings.SessionsMean | src/privacy.rs:5-15 | a session that is a digest already is kept in lower case, any other replaced by its digest |
| RecordMeanings.MethodsMean | src/privacy.rs:17-66 | a method is label characters and single slashes inside, a server one label, both of at most 128 characters |
| Records.SafeCodeIsProjection | src/record.rs:328-347 | reducing an error code twice is reducing it once |
| Generate.BuildSkeleton | src/generate.rs:216-243 | filling in a shape yields the specified arguments and adds the blanks to the list it was given |
| Generate.PipelineFills | src/generate.rs:216-285 | for every argument, filling in its sanitised shape succeeds and blanks exactly the other strings and the non-empty arrays |
| Generate.BlanksMean | src/generate.rs:251-285 | a place is listed as blank exactly when a chain of keys leads to a string or non-empty array there that cannot be filled, with the marker recorded for it |
| Generate.StoredIsNoArray | src/generate.rs:245-249 | the shape of an object is never mistaken for that of an array |
| Generate.LeavesComeBack | src/generate.rs:251-285 | nulls, booleans, numbers and declared identifiers outside arrays come back under the same keys |
| Generate.NothingBlankIsExact | src/generate.rs:213-215 | with nothing to supply by hand the rebuilt arguments are the recorded ones |
| Manifest.Validate | src/manifest.rs:582-901 | the validator accepts exactly the acceptable manifests, and turns any other down for its first fault in the order faults are looked for |
| Manifest.ValidateKind | src/manifest.rs:647-824 | the kinds that must be read-only, and the limits of each kind |
| Scaffold.BuildScaffold | src/init.rs:294-460 | the scaffold loop builds the specified cases, and every candidate gets cases or is listed as skipped |
| ScaffoldMeanings.DecisionsMean | src/init.rs:208-248 | what keeps each tool from being called, in order, and exactly which tools are called |
| ScaffoldMeanings.VerifiedMeans | src/init.rs:294-460 | verified are the callable tools that answered, the first twenty of them |
| ScaffoldMeanings.ToolCasesMean | src/init.rs:386-424 | a verified tool gets one case of each kind with the arguments it was called with, its latency budget four times the measured time in whole tenths of a second within bounds |
| ScaffoldMeanings.BudgetsMean | src/init.rs:306-323 | the token budgets are twice what was measured in whole hundreds within bounds, the entry budget never above the total |
| ScaffoldMeanings.CatalogCasesMean | src/init.rs:300-345 | the cases every catalog gets: twice the tools and bytes within bounds, the two token budgets, paging, negotiation, and surfaces when declared |
| ScaffoldMeanings.PayloadToolMeans | src/init.rs:434-448 | the payload goes to the first verified tool with a nameable string property, else to the first under `payload` |
| Scaffold.CaseIdsDiffer | src/init.rs:161-169 | two case ids agree only in one kind and for one tool or one ordinal, fallbacks included |
| Scaffold.ScaffoldIsAcceptable | src/init.rs:294-460 | whatever was measured and however the calls went, the scaffold passes the validator |
| Scaffold.SizesFit | src/init.rs:306-323 | the budgets derived from sizes held in memory fit 64 bits |
| Scaffold.LatencyFitsWhen | src/init.rs:415 | the latency budget fits 64 bits exactly up to the stated latency |

## Left out

- Process, thread, socket, file, lock and SQLite mechanics: abstract steps, maps and sequences stand for them. SQLite row numbers are counted from zero.
- `src/index.rs`, rendering, command line, reports and the probes themselves: text and transport.
- Floating-point error: scores and the Wilson bound are over the reals; the square root is any number whose square is the radicand.
- SHA-256, UUID, URL, timestamp and number syntax: any functions; a number's text parses as itself.
- `score`, the severity ranks and the promotion threshold of `src/promote.rs`: a product of factors and three comparisons around the Wilson bound.
- Correlator.Correlator.Outbound: argument shapes and the capture time are not part of the record modelled.
- Correlator.Correlator.Inbound: error details, the shim's own time in a record, declared tools and enum words learnt from a catalog are not modelled.
- ShimProtocol.ReachableInv: a failing event channel and cancellation of a blocked pump appear only as a pump that stops; the frames it left are retired.
- Contract.CompareCatalogs: reading and writing a stored contract as JSON is not modelled.
- Score.FoldReliability: the measurement map beside an area is not modelled, nor is the observation of the server that the fold starts from.
- LifecycleTraces.ClosedForm: evidence imported from databases that predate run identities is not part of the runs.
- LifecycleStore.Store.Promote: which findings a promotion opens is given; the failures, issues and scores it derives them from are not modelled.
- LifecycleStore.Store.Migrate: the selected identities are the answer of the query by its own conditions and order; the 64-bit finding hash is an opaque label.
- EvaluationBudget.GrantsWithinLimit: the deadline appears as a refusal at the check; wall-clock time is not modelled.
- Client.McpClient.SendRequest: the budget appears only as a declined write; an id counter beyond 64 bits is not modelled.
- Client.McpClient.ObserveToolCall: what the client answers to a server request, and the count of such requests it returns, are not kept.
- Paging.DiscoverCatalog: a tool's definition is a label beside its name; the encoded size is not computed.
- Trends.Scan: a line that does not parse, and the derived cache in front of the scan, are not modelled.
- Records.RecordIsProjection: capture and event ids pass through unchanged and are left out.
- Generate.BuildSkeleton: a placeholder keeps the recorded shape itself, not its printed text.
- Manifest.Validate: the nine probe kinds a scaffold never writes, and their expectations, are not modelled; faults of two sandboxes are one rejection, and which of a kind's limits failed is not told apart.
- Scaffold.BuildScaffold: schema synthesis is any function to argument objects; the wording of skip reasons is reduced to whether the tool limit was met.
