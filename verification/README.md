# DuckJeu optimized execution, verified

DuckJeu answers yes/no and multiple-choice questions about table rows by asking an outside judgment
service. In optimized mode it groups the rows of a chunk by judgment, lets concurrent executions of one
query share the work on equal judgments, sends distinct judgments in batches under count and byte limits,
keeps validated answers in a bounded cache, and writes every answer back to the rows that asked. This
project is a Dafny model of that engine with proofs of what it promises. `dafny verify dfyconfig.toml`
checks all of it.

## Layout

| files | what they model |
|---|---|
| `Decimal`, `Utf8`, `Json`, `Canonical` | the canonical state encoder, with a decoder that reads every encoding back |
| `Judgment`, `Errors`, `ProviderProtocol` | requests, identities, result validation, validation of batch answers, the errors reported |
| `CacheLog`, `Cache`, `CacheRuns`, `CacheRecency` | the cache: a class over a map, a queue and a counter; the list it stands for; freshness and recency over whole runs |
| `Grouping`, `Planning`, `Batching` | grouping by identity, compatible partitions, the greedy split, the size estimate |
| `WorkerRuntime`, `Executor`, `BatchExecutor`, `BatchQuery` | both executors, against a runtime that other workers change between any two calls |
| `RowReading`, `RowFunctions` | reading a row's arguments into a request; the chunk loops of row mode and optimized mode |
| `Histogram`, `Host` | the per-connection state as a class, each method equal to a function on its state |
| `Protocol`, `ProtocolInv`, `ProtocolSteps`, `ProtocolSafety`, `ProtocolSuccess`, `ProtocolProgress`, `ProtocolStall` | any number of workers taking those critical sections in any order |
| `ProtocolHost` | runs of the protocol performed on the host's own objects |
| `ProtocolCounters`, `ProtocolTotals`, `ProtocolUsage`, `ProtocolProfile`, `Metrics` | what the counters and the profile say, against what happened in the run |
| `ProtocolView`, `ProtocolCache` | the protocol as one worker sees it, which is what the executors are proved against; the protocol together with the shared cache and the clock |
| `ProtocolExamples` | concrete runs that stall or whose profile is overtaken |
| `CredentialScopes` | credential scopes over any number of connections |
| `Typesafe`, `TypesafeBodies` | request bodies and response reading of the TypeSafe adapter; what a posted body says |

The engine is described three times, each time for what it is good for. The executors are imperative
methods over a `Runtime` object whose other users act according to an arbitrary script that may claim and
complete other entries, replace the cache by any admissible contents, move the clock and end the query; it
also keeps the worker's own history of permits, calls and cache requests, in which their contracts speak. The
protocol is a step relation in which each locked section of the host is one step, so that a statement
about every run covers every interleaving. The host class has the source's methods, and
`ProtocolHost.Perform` shows that any run of the protocol, carried out by calling them, leaves the objects
in the protocol's state. `ProtocolCache.OthersAreAScript` joins the first two: whatever other workers, users and
the host do in the protocol between two steps of a worker, to entries, cache, clock and lifecycle, is for that
worker a script of the kind the executors are proved against. Its hypothesis is an honest service: every reply
answers its judgments by the model it reports. Nothing is assumed of the cache, whose hits are proved to be
answers because workers only store what they were told. All workers of such a run use one configuration
of the adapter.

A service answers through models. A provider asks for a model, which the service may serve with any of
several effective models, and a response may report which one it was; its answers, in any order and under
any keys, are what that model says to the requests under the provider's credential. A call may also fail.
A cached value is what the model in its key says under the credential in its key, and nothing relates it
to what other models say. Time is a natural number, and a float is its text or a real number.

## What the proofs found

* Unbatched optimized execution does not make the capability checks that row mode and batched execution
  make. A row it serves equals row mode's answer exactly when row mode's check would pass
  (`RowFunctions.ServedIsRowMode`), and for every row that fails the check and is answered all the same the
  two modes do differ (`RowFunctions.UncheckedRowIsServed`). `RowFunctions.UnverifiedKindDiverges` is one
  such input; it needs an adapter that answers what it does not declare, and the adapters of this
  repository do not: for a provider that enforces what it declares, every served row is row mode's
  (`RowFunctions.EnforcedIsRowMode`).
* The adapter refuses a request over its choice limit (255 labels for local-jev) only when it is handed over.
  Unbatched execution does hand such requests over, so each counts as a request sent although nothing is
  posted (`Typesafe.SingleCallsArePosted`); batched execution never does (`Typesafe.SentBatchesArePosted`).
* A capability check that fails midway through the batch claim loop leaves the entries claimed so far
  without an outcome, and other workers waiting for them stay blocked until the query ends. This happens
  exactly for chunks whose first group passes the check and a later one does not
  (`ProtocolStall.StallsIffMidway`), for example a label question within the service's label limit followed by
  one above it (`ProtocolExamples.FitThenLongStalls`); without such a chunk there is no deadlock
  (`ProtocolProgress.NoDeadlock`), and the end of the query frees whoever is stuck
  (`ProtocolProgress.QueryEndReleases`). No adapter of this repository declares capabilities under which it can
  happen (`ProtocolProgress.NeverMidway`).
* A worker that holds a permit when its query ends or is displaced still sends its request, and nothing counts
  it (`ProtocolProfile.LateRequestEscapes`). A profile that reports complete usage, as every profile with a cost
  does, therefore states the tokens and the cost of every request ever sent for its query, however the run goes
  on, exactly when no worker held an unused permit at the end (`ProtocolProfile.ProfileIsFinalIff`). Runs
  whose profile gives a cost that leaves a later request out do exist (`ProtocolExamples.CostLeavesRequestOut`).
* A query scope taken while no query is active is the id of the next query, whose counts it then reaches
  (`ProtocolSafety.ScopeNamesNextQueryIffIdle`). Optimized mode never uses such a scope: asking for the
  credential scope fails first.
* The byte counter of the cache stays exact exactly when the sizes can be counted (`Cache.JudgmentCache.InsertSuccess`).
  Every limit below the largest machine integer ensures that, and in a cache of more than one entry no other does
  (`CacheRuns.ByteLimitKeepsAccountingExact`); configuration only allows such limits.
* Some error exits of the code cannot be taken: the final key-set comparison of batch validation, the
  missing-answer and re-validation errors after it, and popping from an empty recency queue.

## Model

| member | source | states |
|---|---|---|
| Decimal.FormatDecimal | crates/judgment-core/src/serialize.rs:94-118 | the three branches produce one uniform text: sign, digits padded to more than `scale`, point `scale` digits from the right |
| Decimal.DecimalRoundTrip | crates/judgment-core/src/serialize.rs:94-118 | parsing the text gives back integer and scale, negatives and short magnitudes included |
| Decimal.DecimalTextInjective | crates/judgment-core/src/serialize.rs:94-118 | different integers or scales never share a text |
| Decimal.DecimalExact | crates/judgment-core/src/serialize.rs:94-118 | the text denotes raw / 10^scale exactly |
| Json.StringReadsBack | crates/judgment-core/src/serialize.rs:191-249 | an escaped string literal is read back exactly, whatever follows, by a reader that takes every character in one form only and no raw control character |
| Canonical.WriteValue | crates/judgment-core/src/serialize.rs:191-249 | the buffer grows by exactly the encoding of the value, nested structs included |
| Canonical.ValueDecodes | crates/judgment-core/src/serialize.rs:191-249 | a decoder recovers value and remainder from the encoding followed by anything: the format is unambiguous and self-delimiting |
| Canonical.ValueEncodingInjective | crates/judgment-core/src/serialize.rs:191-249 | equal encodings mean equal values |
| Canonical.BuildFieldsCorrect | crates/judgment-core/src/serialize.rs:153-169 | inserting columns in any order gives the ascending list of their map, the last value of a name winning |
| Canonical.StructBytesCompareFieldMaps | crates/judgment-core/src/serialize.rs:153-169 | two structs have equal canonical bytes if and only if they are the same field map, whatever the insertion order |
| Canonical.EncodeStruct | crates/judgment-core/src/serialize.rs:153-189 | a non-finite float anywhere is an error; otherwise the state carries version, kind, bytes and value |
| Canonical.BytesDetermineState | crates/judgment-core/src/serialize.rs:42-62 | kind and canonical bytes determine the whole typed state |
| Canonical.TextIsRaw | crates/judgment-core/src/serialize.rs:141-151 | a text's canonical bytes are its own UTF-8 bytes with nothing around them |
| Canonical.StructTextReads | crates/judgment-core/src/serialize.rs:171-189 | a struct's canonical text is a version 1 document around a value that reads back |
| Canonical.VersionedCanonicalBytes | crates/judgment-core/src/serialize.rs:66-77 | the bytes written, followed by anything, open again to version, kind, payload and remainder |
| Canonical.EnvelopeOpens | crates/judgment-core/src/serialize.rs:66-77 | the envelope is self-delimiting and gives back version, kind and payload |
| Canonical.EnvelopeLayout | crates/judgment-core/src/serialize.rs:66-77 | byte by byte: the magic, version and length most significant byte first, 1 for a text and 2 for a struct, the payload |
| Canonical.EnvelopeDeterminesState | crates/judgment-core/src/serialize.rs:66-77 | equal envelopes mean equal states, text and struct states never mixed up |
| Canonical.BeforeIsLexicographic | crates/judgment-core/src/serialize.rs:153-169 | fields are ordered by the first character in which their names differ, a name before its extensions |
| Judgment.WhitespaceIsUnicode | crates/judgment-core/src/judgment.rs:243-245 | blank means nothing but Unicode white space |
| Judgment.CheckLabelsExact | crates/judgment-core/src/judgment.rs:131-172 | the label loop accepts exactly labels that are not blank and not repeated |
| Judgment.ChoiceRequestExact | crates/judgment-core/src/judgment.rs:131-172 | a choice request exists if and only if the question is not blank and there are at least two labels, none blank, none equal |
| Judgment.ValidateResultExact | crates/judgment-core/src/judgment.rs:193-236 | validation accepts exactly finite probabilities in [0, 1] for yes/no questions and candidate labels for choices |
| Judgment.SameContextIsErasure | crates/judgment-core/src/judgment.rs:82-94 | sharing a batch context is equality up to the state, hence an equivalence: comparing with one member is comparing with all |
| Judgment.IdentityDeterminesRequest | crates/judgment-core/src/judgment.rs:58-78 | one identity stands for one request up to its key, typed state included: deduplication is sound |
| Judgment.IdentityExact | crates/judgment-core/src/judgment.rs:26-78 | two identities are equal if and only if the requests are, up to their keys, and service, requested model, credential, effective model and, while that is unknown, the binding scope agree |
| ProviderProtocol.ValidateBatchResult | crates/judgment-core/src/provider.rs:67-117 | accepts if and only if request keys are distinct, answer keys are the same keys, and every answer fits its own request; the last set comparison never fails |
| ProviderProtocol.ByKeyIgnoresOrder | crates/judgment-core/src/executor.rs:450-464 | permuted answers give the same assignment of answers to keys |
| ProviderProtocol.ValidatedBatchAssigns | crates/judgment-core/src/executor.rs:448-464 | after validation every request finds, under its own key, an answer from the response that fits it |
| CacheLog.ShedIsLongestSuffix | crates/judgment-core/src/cache.rs:79-97 | eviction keeps exactly the longest suffix in recency order that meets both limits |
| CacheLog.EntryBytesAreCapped | crates/judgment-core/src/cache.rs:174-207 | the size estimate is a fixed part, six bytes for every byte of the identity's state and texts, and the result, capped at the machine maximum |
| Cache.JudgmentCache.ReconcilePolicy | crates/judgment-core/src/cache.rs:79-97 | refines the list: expiry times tightened, expired entries dropped, longest fitting suffix kept; eviction and expiry counters exact; an invalid policy changes nothing |
| Cache.JudgmentCache.LookupEntry | crates/judgment-core/src/cache.rs:49-63 | a live hit moves to the recent end, an expired entry is removed and counted, a miss changes nothing |
| Cache.JudgmentCache.LookupWithPolicy | crates/judgment-core/src/cache.rs:65-77 | the active policy is applied before anything is served |
| Cache.JudgmentCache.InsertSuccess | crates/judgment-core/src/cache.rs:112-155 | own identity displaced, longest suffix leaving room kept, entry appended, an oversized entry only displaces; map and queue always agree, and the byte counter stays exact if and only if the sizes can be counted, which every limit below the machine maximum ensures; the expiration and eviction counters account for every entry that is gone and did not have the same identity |
| Cache.JudgmentCache.MakeRoom | crates/judgment-core/src/cache.rs:132-141 | the eviction loop stops where the saturating test says, which is the longest suffix with room whenever the sum does not saturate, and never meets an empty queue |
| Cache.JudgmentCache.Touch | crates/judgment-core/src/cache.rs:209-214 | the identity moves to the recent end, everything else keeps its order |
| Cache.JudgmentCache.PruneExpired | crates/judgment-core/src/cache.rs:229-240 | exactly the expired entries go, in order, each counted |
| Cache.JudgmentCache.Len | crates/judgment-core/src/cache.rs:165-168 | the number of entries that have not expired, after the others have gone |
| Cache.JudgmentCache.Clear | crates/judgment-core/src/cache.rs:157-163 | empties the cache and returns how many entries there were |
| CacheRuns.RunProvenance | crates/judgment-core/src/cache.rs:49-155 | in every reachable state each entry is the latest accepted insert of its identity, with the expiry that all policies since then leave it |
| CacheRuns.HitIsFresh | crates/judgment-core/src/cache.rs:49-97 | a hit returns the latest accepted insert, before its time plus every time-to-live imposed since: raising the limit revives nothing |
| CacheRuns.PolicyHitIsFresh | src/host/mod.rs:608-623 | the same for the lookup the executors use, whose own policy counts too |
| CacheRuns.InsertThenLookup | crates/judgment-core/src/cache.rs:49-155 | an accepted insert is served until its time is up and not after |
| CacheRuns.OversizedReplacementLeavesNothing | crates/judgment-core/src/cache.rs:112-155 | replacing an entry by one that is too large leaves no stale value behind |
| CacheRuns.LimitsHold | crates/judgment-core/src/cache.rs:79-155 | both limits hold after every applied policy and every accepted insert |
| CacheRuns.ByteLimitKeepsAccountingExact | crates/judgment-core/src/cache.rs:133-143 | in a cache of more than one entry a byte limit keeps the counter exact for all contents and inserts if and only if it is below the machine maximum |
| CacheRecency.ByLastUse | crates/judgment-core/src/cache.rs:49-155 | over every run the cache lists its entries, none twice, by their last use, a hit or an accepted insert |
| CacheRecency.RunUnique | crates/judgment-core/src/cache.rs:49-155 | nothing is ever cached twice |
| CacheRecency.AcceptedIff | crates/judgment-core/src/cache.rs:112-155 | an insert is accepted if and only if the policy has no zero, the clock can tell the end of its time, and the entry fits on its own; a policy with a zero changes nothing |
| CacheRecency.TimeIsCut | crates/judgment-core/src/cache.rs:83-87 | a policy cuts an entry's time to its own, counted from the insert, and never extends it |
| CacheRecency.AliveMembers | crates/judgment-core/src/cache.rs:83-88 | alive under a policy are exactly the entries whose cut time is not past |
| CacheRecency.EvictsLeastRecent | crates/judgment-core/src/cache.rs:79-97 | of the entries alive when a policy is applied, each one evicted was last used before each one kept |
| CacheRecency.InsertEvictsLeastRecent | crates/judgment-core/src/cache.rs:131-141 | the same when an insert makes room |
| CacheRecency.PolicyKeeps | crates/judgment-core/src/cache.rs:79-97 | applying a policy keeps an entry if and only if it is alive and, with every live entry used after it, within both limits |
| CacheRecency.LookupKeeps | crates/judgment-core/src/cache.rs:49-63 | a lookup loses nothing but the entry looked for, and that only when its time is up |
| CacheRecency.InsertKeeps | crates/judgment-core/src/cache.rs:112-155 | an accepted insert keeps another entry if and only if, with every other entry used after it, it leaves room; an oversized one keeps all others |
| Grouping.GroupByIdentity | crates/judgment-core/src/executor.rs:49-67 | a stable partition: distinct identities in first-occurrence order, first request kept, exactly the targets of each identity in input order, all targets kept |
| Grouping.OneStablePartition | crates/judgment-core/src/executor.rs:49-67 | that description determines the groups |
| Planning.PlaceKeeps | crates/judgment-core/src/executor.rs:289-297 | comparing with each partition's first member keeps partitions one-context, pairwise separate and in order, and adds exactly the newcomer |
| Planning.GreedySplits | crates/judgment-core/src/executor.rs:300-362 | a successful greedy split puts every member in exactly one batch, in order, and every batch meets the limits |
| Planning.GreedyIsOptimal | crates/judgment-core/src/executor.rs:300-362 | for limits that survive dropping members no order-preserving split has fewer batches |
| Planning.GreedySucceedsIff | crates/judgment-core/src/executor.rs:306-344 | the split succeeds if every judgment fits alone, whatever the limits, and only then for limits that survive dropping members |
| Batching.FirstKey | crates/judgment-core/src/judgment.rs:11-13 | the first positional key is the one a request on its own carries |
| Batching.BatchKeysDistinct | crates/judgment-core/src/executor.rs:383-400 | positional keys are distinct |
| Batching.DefaultEstimateIsCapped | crates/judgment-core/src/provider.rs:141-155 | the estimate is 1024 plus, for each request, 512 and six bytes for every byte of state, texts, labels and key, capped at the machine maximum |
| Batching.DefaultFitsIsHereditary | crates/judgment-core/src/provider.rs:141-155 | under the default estimate a fitting batch still fits after members are dropped at either end, although the rest is re-keyed |
| Batching.DefaultSplitIsOptimal | crates/judgment-core/src/provider.rs:141-155 | so with that estimate the greedy split uses the fewest batches, and fails exactly when some judgment does not fit alone |
| WorkerRuntime.Runtime.Wait | crates/judgment-core/src/runtime.rs:30-47 | returns the stored outcome; fails only for a stored failure or when no outcome is left to come |
| WorkerRuntime.Runtime.Complete | crates/judgment-core/src/runtime.rs:23-29 | the first completion of an entry stands |
| WorkerRuntime.Runtime.CacheLookup | src/host/mod.rs:608-623 | the policy is applied and the key looked up on the cache the others left; a hit is what the model in its key says |
| WorkerRuntime.Runtime.Judge | src/host/mod.rs:531-546 | every call uses a permit that no other call used |
| WorkerRuntime.Runtime.CacheInsert | src/host/mod.rs:625-637 | the cache takes or refuses the value as `insert_success` does; only answers of the model in the key are offered |
| Executor.HitAnswers | crates/judgment-core/src/executor.rs:184-203 | a hit needs no revalidation: it is what the pinned model validly says to the current judgment under the current credential, hence an answer of the provider |
| Executor.KeysSeparate | crates/judgment-core/src/executor.rs:184-190 | two groups share a cache key only if they ask the same judgment of the same service, requested model and credential |
| Executor.StorableIsKeyed | crates/judgment-core/src/executor.rs:159-171 | an answer reported by the key's own model is the answer of the model in the key, which is why the check precedes the insert |
| Executor.StoreAnswer | crates/judgment-core/src/executor.rs:159-171 | an answer is offered to the cache exactly when the response names the very model its key is pinned to; then the cache takes or refuses it, otherwise nothing changes |
| Executor.JudgeOne | crates/judgment-core/src/executor.rs:136-173 | one permit, one call with the one request, its validated answer; failure only from a lost permit or a failed or unusable response |
| Executor.LeadOneGroup | crates/judgment-core/src/executor.rs:111-182 | whatever happens the leader's entry ends with the outcome returned; with caching on it looks under its key first, a find is returned without a call, only otherwise the provider is asked, under the configured limit, and an answer of the very model the key names is offered to the cache; success is the provider's valid answer; no call beyond the byte limit; every failure has one of the listed causes |
| Executor.ExecuteOneGroup | crates/judgment-core/src/executor.rs:97-182 | at most one call, made only as leader and after the cache was looked into; a follower neither looks nor asks; an entry is left without outcome only when the query has ended |
| Executor.ExecuteGroups | crates/judgment-core/src/executor.rs:71-95 | success outputs every target exactly once per request with its own valid answer and every own entry successful; failure has one of the listed causes |
| BatchExecutor.CollectResults | crates/judgment-core/src/executor.rs:450-464 | each group gets the answer keyed by its own batch position, in whatever order answers came; neither error exit can be taken |
| BatchExecutor.AttemptBatch | crates/judgment-core/src/executor.rs:428-466 | one call with exactly the re-keyed requests of the batch; failure only from a lost permit or a failed or invalid response |
| BatchExecutor.CompleteWithError | crates/judgment-core/src/executor.rs:377-381 | every listed entry ends with an outcome and earlier outcomes stand |
| BatchExecutor.Dispatch | crates/judgment-core/src/executor.rs:414-512 | every member ends with an outcome; on success each with its own valid answer, expanded to exactly its targets, and what the call answered, and nothing else, is offered to the cache member by member when it comes from the model the key names |
| BatchExecutor.SplitPartition | crates/judgment-core/src/executor.rs:300-362 | on success the batches sent are the greedy split; on failure too only batches within the limits were sent, and the cause is a misfit or a failed call |
| BatchQuery.PlanIsRight | crates/judgment-core/src/executor.rs:289-362 | every leader lies in exactly one batch; every batch fits and shares one context pairwise |
| BatchQuery.ClaimOne | crates/judgment-core/src/executor.rs:256-291 | led after a look into the cache that found nothing, answered with what that look found, followed, or given up with the entry completed unless the query is over |
| BatchQuery.ClaimGroups | crates/judgment-core/src/executor.rs:243-298 | every judgment is a hit, led or followed, leaders are exactly the partition members; no entry of a running query is abandoned unless a check fails midway |
| BatchQuery.ExecuteBatchGroups | crates/judgment-core/src/executor.rs:207-375 | output association, leader completion after the claim loop on every return, success of every own entry on Ok, every batch sent within the configured count, the service's count and the byte limit, batches sent are the plan, and every failure has one of the listed causes |
| BatchQuery.FewestBatches | crates/judgment-core/src/executor.rs:226-362 | with the default estimate no order-preserving way of splitting the partitions within the configured count, the service's count and the byte limit sends fewer batches than the plan |
| RowReading.ReadRequestExact | src/functions/mod.rs:239-371 | no request if and only if an argument is NULL, before anything is validated; otherwise a request if and only if the state can be encoded, the text is not blank and a choice has two or more labels, none NULL, blank or repeated; it carries the text or exactly the columns by name, the caller's text and the labels in order |
| RowReading.RequestIsItsRow | src/functions/mod.rs:239-371 | two rows read to the same request if and only if their arguments are the same, columns compared by name and last value |
| RowReading.SharedExactlyBySameArguments | src/functions/mod.rs:459-545 | in one context two rows share an identity, and so a call, if and only if their arguments are the same |
| RowReading.ReadRequestsAreWellMade | src/functions/mod.rs:334-371 | every request read from a row is well made and its state is one the encoder produced |
| RowFunctions.EvaluateRow | src/functions/mod.rs:373-457 | gives a validated answer of a model that may serve the call, exactly when settings and provider are usable, the checks pass, the permit is given and the response answers the request; a row that asks nothing needs none of that |
| RowFunctions.RunRows | src/functions/mod.rs:638-684 | rows before the first failure carry the evaluator's answers, each cell NULL for a NULL argument and otherwise showing an answer to the row's own arguments, later ones are untouched; the counters take in every row looked at, the NULL rows written and the answered rows, and a failed row only as input |
| RowFunctions.RunOptimized | src/functions/mod.rs:459-577 | on success every cell is NULL for a NULL argument and otherwise shows, of some model that may serve the call, a valid answer to the row's own arguments, whatever the mode, the cache and the other workers did: the probability, whether it is at least one half, or one of the row's own labels; this is row mode's cell exactly when row mode's capability check passes, which batched mode guarantees, and on every row for a provider that enforces what it declares; on failure nothing is written, and the cause is listed |
| RowFunctions.ServedTells | src/functions/mod.rs:580-607 | a cell is a served one if and only if it is NULL for a NULL argument or shows such an answer: `jev_prob` the probability itself, `jev_bool` whether it is at least one half, `jev_choice` the label |
| RowFunctions.ServedIsRowMode | src/functions/mod.rs:373-577 | what optimized mode serves is what row mode may give if and only if row mode's capability checks let the row through |
| RowFunctions.EnforcedIsRowMode | src/provider/typesafe.rs:527-536 | for a provider that answers nothing its declared capabilities exclude, whatever optimized mode serves is what row mode may give |
| RowFunctions.OneModelOneCell | src/functions/mod.rs:373-457 | when one model serves every call, what row mode gives for a row is a single cell, so equality is equality of cells |
| RowFunctions.UncheckedRowIsServed | src/functions/mod.rs:396-411 | running both modes on any row that fails the check and is answered all the same: optimized writes the answer, row mode returns an error |
| RowFunctions.UnverifiedKindDiverges | src/functions/mod.rs:396-411 | running both modes on a concrete service and row: optimized returns one quarter, row mode an error |
| Host.ConnectionRuntime.BeginQuery | src/host/mod.rs:170-189 | afterwards every judgment is led anew under the new query and nothing can be claimed or recorded under any other |
| Host.ConnectionRuntime.EndQuery | src/host/mod.rs:191-216 | afterwards nothing can be claimed or recorded, and the snapshot holds the counts as they stood |
| Host.ConnectionRuntime.ClaimQueryEntry | src/host/mod.rs:477-511 | a leader gets a new open entry, every later claim of the judgment follows it, other judgments are not affected, a refused claim changes nothing |
| Host.ConnectionRuntime.RecordOptimizedRows | src/host/mod.rs:242-264 | the rows not counted as duplicates grow by exactly the judgments still to be claimed; another query's counts do not change |
| Host.ConnectionRuntime.RecordProviderAttempt | src/host/mod.rs:301-318 | the difference between requests and histogram stays, and the histogram's judgments grow by the batch size |
| Host.ConnectionRuntime.CredentialScope | src/host/mod.rs:450-471 | a credential other than the last gets a new scope from the shared counter and clears the cache; an ended query gets none |
| Host.ConnectionRuntime.CacheLookup | src/host/mod.rs:608-623 | refines applying the policy and then looking up on the cache's list |
| Host.ConnectionRuntime.CacheInsert | src/host/mod.rs:625-637 | refines the insert on the cache's list; the cache stays consistent if and only if the sizes can be counted |
| Histogram.SumsSettle | src/host/mod.rs:301-318 | the sums over the histogram do not depend on the bound once it is above every size |
| ProtocolInv.ReachableInv | src/host/mod.rs:168-519 | in every reachable state: one entry per identity and query, owed entries exist and are open, cancelled queries are exactly the past ones |
| ProtocolSteps.StepIsShaped | src/host/mod.rs:80-127 | every step of a worker moves the permit pool exactly with its own permit, gives permits only while its query runs, touches no other query, and has one stated effect on entries |
| ProtocolSafety.SingleFlight | src/host/mod.rs:477-511 | over every interleaving an identity has one entry and one leader per query and is in at most one provider call |
| ProtocolSafety.AttemptedExactly | crates/judgment-core/src/executor.rs:137-141 | a judgment counts as sent exactly when some provider call contained it |
| ProtocolSafety.WaitsAgree | crates/judgment-core/src/runtime.rs:23-47 | all waits for one judgment of one query that returned its outcome returned the same one, and it is the stored one |
| ProtocolSafety.LeadersComplete | crates/judgment-core/src/executor.rs:300-381 | a finished worker left an own entry open only after a capability failure or the end of its query; after success all its entries are successes |
| ProtocolSuccess.SuccessIsComplete | crates/judgment-core/src/executor.rs:71-375 | an execution that has returned successfully has, over every interleaving, a success in its query for each of its judgments, whoever led it |
| ProtocolSafety.OutcomesStand | crates/judgment-core/src/runtime.rs:23-29 | no step ever replaces a stored outcome |
| ProtocolSafety.PermitsExact | src/host/mod.rs:80-127 | the pool's count is exactly the permits held and its peak never exceeds a common limit |
| ProtocolSafety.EndedQueryIsInert | src/host/mod.rs:191-216 | once a query is over its workers claim nothing and change no other query's counts, entries or snapshot |
| ProtocolSafety.FreshQueryId | src/host/mod.rs:170-189 | a new query's id is larger than that of every worker, entry and query before it |
| ProtocolSafety.ScopeNamesNextQueryIffIdle | src/host/mod.rs:441-448 | a scope names the next query if and only if it was taken while none was active |
| ProtocolProgress.StepsRunOut | crates/judgment-core/src/executor.rs:71-375 | without new executions workers take at most a computed number of further steps, however they interleave |
| ProtocolProgress.ReadyCanStep | src/host/mod.rs:93-127 | a worker that is not waiting for a permit or an entry has a step to take |
| ProtocolProgress.WaitersOweNothing | crates/judgment-core/src/executor.rs:364-374 | a waiting worker holds no permit and has completed every entry it leads |
| ProtocolProgress.OnlyAbandonmentBlocks | crates/judgment-core/src/executor.rs:244-260 | when no worker can step, each has finished or waits for an entry of the running query that its leader abandoned at a failed check |
| ProtocolProgress.NoDeadlock | src/host/mod.rs:93-127 | unless some chunk's check fails midway, some worker can step until all have finished |
| ProtocolProgress.QueryEndReleases | src/host/mod.rs:170-216 | the end of the query, or the next begin, makes every stuck worker ready |
| ProtocolProgress.NeverMidway | src/provider/typesafe.rs:372-381 | no check fails midway without batching, with both kinds supported and no choice limit, or in a chunk that asks one question |
| ProtocolHost.TakeTurn | src/host/mod.rs:80-546 | a worker's turn on the connection's objects moves exactly when the protocol says it can, and leaves worker, runtime and permit pool as the protocol's step does |
| ProtocolHost.Perform | src/host/mod.rs:80-546 | any run of the protocol, performed by calling the objects' methods in that order, leaves them in the protocol's state |
| ProtocolStall.StallsIffMidway | crates/judgment-core/src/executor.rs:244-260 | executions of a chunk and of its first question can stall if and only if execution is batched under a valid cache policy and the check passes on the chunk's first group and fails on a later one |
| ProtocolExamples.FitThenLongStalls | crates/judgment-core/src/executor.rs:244-260 | a batched chunk of two label questions, one within the label limit and one above it, fails midway and has a run that stalls |
| ProtocolView.StaysValid | crates/judgment-core/src/executor.rs:97-182 | with a truthful cache and service every outcome any worker stores or carries is a valid answer |
| ProtocolView.ForeignStep | src/host/mod.rs:168-519 | each step of another worker or of the host is for a worker at most one admissible event on entries or lifecycle |
| ProtocolCache.LookupsAreTruthful | src/host/mod.rs:608-623 | what a worker finds in the shared cache is a valid answer to the judgment it looks for; only the service is trusted |
| ProtocolCache.StoredIsKeyed | crates/judgment-core/src/executor.rs:157-173 | what a worker may store is the answer of the very model its key names |
| ProtocolCache.StaysSound | src/host/mod.rs:608-637 | every move keeps entries, cached values and answers under way valid as long as the service is honest |
| ProtocolCache.OutcomesAnswer | crates/judgment-core/src/executor.rs:97-182 | in every run of any number of workers sharing a cache, with clears and the clock in between, every stored outcome is a valid answer to its judgment |
| ProtocolCache.OthersAreAScript | src/host/mod.rs:168-637 | whatever others do in the protocol between two steps of a worker, to entries, cache, clock and lifecycle, is for it an admissible script of the executors' runtime |
| ProtocolCache.SeenHolds | src/host/mod.rs:168-637 | what a worker sees of a reachable state is what the executors require of their runtime, cache included |
| ProtocolTotals.CountersAreTotals | src/host/mod.rs:242-430 | at every state of a query input, NULL and valid rows, provider calls and batched requests are what the run did, and so are failed requests but for those whose worker has yet to record them |
| ProtocolCounters.RowsConserved | src/host/mod.rs:242-264 | at every state of a query valid rows are unique judgments plus deduplicated rows plus groups recorded but not yet claimed, and unique judgments are its entries |
| ProtocolCounters.JudgmentsConserved | src/host/mod.rs:291-318 | with an external provider unique judgments are cache hits plus the sizes in the batch histogram plus those never attempted, and requests are the histogram's counts |
| Metrics.CostKnownIff | crates/judgment-core/src/metrics.rs:49-73 | a cost is given if and only if the provider is TypeSafe, usage is complete with tokens, and no request failed |
| Metrics.CostReasonExact | crates/judgment-core/src/metrics.rs:61-73 | when there is no cost the reason named is the first that applies |
| Metrics.CostIsPerToken | crates/judgment-core/src/metrics.rs:75-78 | a cost is 42 dollars for every thousand million input tokens, token by token |
| ProtocolUsage.ReplyReconciles | src/host/mod.rs:320-405 | recording a reply keeps the usage counters equal to what was really sent and returned |
| ProtocolUsage.UsageIsExact | crates/judgment-core/src/metrics.rs:49-53 | usage is reported if and only if requests were sent and every one was answered with both counts; then the tokens are the exact sums over all of them |
| ProtocolUsage.CostIsOfEveryRequest | crates/judgment-core/src/metrics.rs:61-78 | at every point of a running query the counters would give a cost if and only if every request sent so far came back with its tokens and none failed, and then it is the rate times their exact sum |
| ProtocolProfile.SnapshotIsExact | src/host/mod.rs:191-216 | the snapshot taken when a query ends holds its last counts, and its completeness, both token counts and its cost are exact for the requests sent until then |
| ProtocolProfile.NoLateRequest | src/host/mod.rs:531-546 | after the end of a query no request is sent for it if no worker holds an unused permit; its requests only come back, and each is either back or still in flight |
| ProtocolProfile.ProfileIsFinalIff | src/functions/profile.rs:46-50 | a profile with complete usage states the tokens and the cost of every request ever sent for its query, in every continuation of the run, if and only if no worker of the query held an unused permit at its end |
| ProtocolProfile.ReadProfileIsWhole | src/functions/profile.rs:58-77 | the profile read at any point of any run is that of an ended query, and its complete usage and its cost are those of every request ever sent for that query unless a worker held an unused permit at its end |
| ProtocolProfile.LateRequestEscapes | src/host/mod.rs:170-216 | a worker holding an unused permit when its query ends or is displaced sends one request more, and counters and last profile stay as they are |
| ProtocolExamples.CostLeavesRequestOut | src/functions/profile.rs:46-50 | every unbatched chunk of two judgments has a run whose profile gives a cost and after which one more request is sent for the query |
| CredentialScopes.OneScopeOneCredential | src/host/mod.rs:450-471 | equal scopes mean the same connection, the same credential, and no other credential presented there in between: scopes are never reused |
| CredentialScopes.HitStaysInEpoch | src/host/mod.rs:608-637 | a hit comes from an insert under the same credential epoch of the same connection, even when an insert lands after a rotation cleared the cache, and made after every clear by a user |
| CredentialScopes.RotationHidesOldAnswers | src/host/mod.rs:464-470 | after a rotation the cache is empty and the new scope was never given to anyone |
| Typesafe.ToJsonValue | crates/judgment-core/src/serialize.rs:252-272 | the loop builds the tagged tree of the value |
| Typesafe.RowDeterminesState | src/provider/typesafe.rs:278-283 | different states are never sent as the same row |
| Typesafe.BuildBody | src/provider/typesafe.rs:146-189 | the single body is the one-row case of the batch body |
| Typesafe.BuildBatchBody | src/provider/typesafe.rs:192-276 | accepts exactly nonempty batches with distinct keys asking one complete question within the choice limit, or one judgment; the body has one row and one keyed question per judgment |
| Typesafe.EstimateRequestBytes | src/provider/typesafe.rs:415-420 | the size of that body, or the machine maximum when there is none |
| Typesafe.PostedBody | src/provider/typesafe.rs:422-459 | what is posted is the batch body of the requests, exactly when it can be built and serialized and, for one request, the choice limit, for several, the verified capability allows it |
| Typesafe.SentIsMeasured | src/provider/typesafe.rs:415-459 | a body measured within a limit is buildable, and what is posted has the measured size |
| Typesafe.ExecutorBatchesBuild | src/provider/typesafe.rs:192-224 | the builder accepts every batch the executor makes |
| Typesafe.PlanBuilds | crates/judgment-core/src/executor.rs:289-362 | the builder accepts every batch of the executor's plan, whatever its size |
| Typesafe.SentBatchesArePosted | crates/judgment-core/src/executor.rs:300-362 | every batch handed to the adapter, in successful and failed runs, meets every condition under which it is posted, at the measured size, within the byte limit |
| Typesafe.SingleCallsArePosted | crates/judgment-core/src/executor.rs:118-141 | every request handed over on its own is buildable within the byte limit, and is posted if and only if it is within the choice limit; the others come back as errors |
| TypesafeBodies.BodySays | src/provider/typesafe.rs:146-276 | a body holds the model, a row per request in order, the condition of a yes/no question, and under each request's key the question about its own row, with the caller's text and the labels, and nothing else |
| TypesafeBodies.BodyDetermines | src/provider/typesafe.rs:146-276 | equal bodies are those of the same model and of requests that agree position by position in key, kind, state, criterion, question and set of labels |
| TypesafeBodies.PostsIff | src/provider/typesafe.rs:192-224 | well-made requests are posted if and only if their keys differ, they share one question, each is within the label limit, the body can be serialized and, for several, batching is verified |
| TypesafeBodies.BatchSays | crates/judgment-core/src/executor.rs:383-459 | the body of every batch the executor makes says what the batch's groups ask |
| Typesafe.KeyRefersToRow | src/provider/typesafe.rs:242-269 | key `r{i}` asks the question of the i-th group about row i, which is that group's state |
| Typesafe.QuestionNamesRow | src/provider/typesafe.rs:244-266 | the text of a question names one row and no other |
| Typesafe.ParseBatchResponse | src/provider/typesafe.rs:295-368 | a response is accepted if and only if it holds exactly the distinct request keys, each with a valid typed answer to its own request; the answers come out in request order, with the model and both token counts the response names |
| Typesafe.ReceiveReply | src/provider/typesafe.rs:513-520 | a batch is accepted only from the model batching was verified for |

## Left out

- DuckDB's C interface, vectors and chunk memory: rows are sequences, cells an array.
- HTTP transport, status codes, timeouts, JSON text parsing and serialization: a response is an arbitrary parsed document, and the serialized size of a body is a parameter.
- Float printing: a finite float is its text, of which only the character set is used.
- Lock poisoning, memory ordering and hash functions: each locked section is one step, and a credential is its fingerprint.
- Saturation of the 64-bit counters and wrap-around of 64-bit ids: both are unbounded here; byte accounting in the cache does model saturation.
- Timing counters, reported model names and the rendered text of a profile: only the usage and cost decisions are modelled, over exact numbers.
- Whether the listed price applies to the configured endpoint, which the code does not check.
- Prompt cancellation in row mode: waiters see an interruption only when the query ends.
- The mock provider's hash, provider selection, option parsing and registration.
- Cache.JudgmentCache.InsertSuccess: when the sum of sizes saturates, only possible at a byte limit of the machine maximum, it promises that map and queue agree and that the counter is wrong, not how later calls go on.
- RowFunctions.EvaluateRow: the permit, the settings and the provider are given as results, and the recording of its request and reply is left out; the protocol model has those calls as steps.
- RowFunctions.RunRows: only with a connection, without which the source counts nothing.
- WorkerRuntime.Runtime.Wait: a script that ends before the entry has an outcome stands for the cancellation that frees the waiter.
- Executor.ExecuteGroups: the recording calls are not part of the runtime the executors see; the protocol model has them as steps.
- BatchExecutor.Dispatch: keeps the batch's cache keys by recomputing them, where the source keeps a map.
- Typesafe.ParseBatchResponse: gives one message for the several ways an answer can be ill-typed, all of the same kind.
- ProtocolProgress.NoDeadlock: assumes that provider calls return.
