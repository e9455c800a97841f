# Adaptive OS mesh controller — a Dafny model

This project models the coordination core of the adaptive OS mesh
(`internal/controller` of the Go repository) and proves its behaviour:

- **MeshRegistry** (`mesh.dfy`, module `Mesh`): the agent directory. Each agent
  gets up to two initial neighbours, a utility score, performance counters and
  a five-slot failure log (newest first). A source → target contribution
  ledger clamps at 1.0, and re-evaluation prunes the last neighbour when the
  utility is low.
- **Arbiter** (`arbiter.dfy`, module `Arbitration`): one strategic-planning
  lease with a 30 s time-to-live, plus the last action saved per agent.
- **RoleSwitcher** (`roles.dfy`, module `Roles`): a first-match-wins choice of
  an agent's role.
- **ScheInfer** (`scheinfer.dfy`, module `Scheduling`): the router from
  hardware flags and tensor size or layer index to one of four execution
  labels.
- **SoftThrottle and the search fallback chain** (`qdrant.dfy`, module
  `Qdrant`):
  - exact-query de-duplication over 5 s;
  - the remote-search decision chain;
  - the local keyword-scan post-processing.
- **Inference path selection** (`inference.dfy`), **local grep
  post-processing** (`search.dfy`) and **synthesis** (`synthesis.dfy`).
- Shared pieces:
  - `proto.dfy` holds the message types and 32-bit wrap-around;
  - `text.dfy` holds the Go `strings` and `fmt` behaviour the core relies on:
    upper-casing, substring search, split, trim, first field, decimal
    printing and UTF-8 byte length;
  - `wrappers.dfy` holds `Option` and `Result`.

How the model is built:

- Objects whose fields the Go code updates in place are classes:
  `MeshRegistry`, `Arbiter` and `SoftThrottle` (whose map of recent queries
  changes).
  - `QdrantController` is a class too. Its fields are set once by
    `NewQdrantController`, and it owns the mutable `SoftThrottle`, which
    `Search` advances.
  - Each method states its new state as a pure transition function of the old
    state; `MeshRegistry` also keeps its invariant `Valid()`.
  - The properties are proved as lemmas about those functions.
- Loops in the source stay loops, each with its invariants: registration,
  the statistics summary, the contribution copy, the grep scan, the result
  copy and synthesis.
- Inputs the Go code takes from the outside world are parameters:
  - wall-clock time (integer nanoseconds `now`);
  - the remote search outcome;
  - the grep output (a function from keyword to output);
  - the context-cancellation race;
  - the CPU count;
  - Go's map iteration order (a nondeterministic choice, specified loosely).
- Floats are mathematical reals. The `uint32` counters wrap explicitly.

## Model

| member | source | states |
|---|---|---|
| Mesh.AddContribution | internal/controller/mesh.go:41-53 | the pair's score becomes min(1, old + x), 0 for an unseen pair, with no lower clamp; the row gains the target; every other row and pair is unchanged |
| Mesh.MeshRegistry.constructor | internal/controller/mesh.go:33-38 | NewMeshRegistry: no agents and an empty ledger, so the registry invariant holds from the start |
| Mesh.AddContributionBounded | internal/controller/mesh.go:48-52 | recording any contribution keeps every ledger score ≤ 1.0 |
| Mesh.AddAllClamped | internal/controller/mesh.go:49-52 | a run of non-negative contributions gives min(1, start + sum): clamping each step equals clamping once |
| Mesh.LedgerScenarios | internal/controller/mesh_test.go:44-95 | 0.5 then 0.25 give 0.75; a hundred 0.01s give 1.0; an unknown source has an empty row |
| Mesh.NoLowerClamp | internal/controller/mesh.go:49-52 | a negative contribution is stored as is (−2 stays −2) |
| Mesh.MeshRegistry.RecordContribution | internal/controller/mesh.go:41-53 | the ledger becomes AddContribution of the old ledger; agents unchanged; invariant kept |
| Mesh.MeshRegistry.GetContributionDetail | internal/controller/mesh.go:56-67 | returns exactly the stored row, or the empty map for an unseen source; changes nothing |
| Mesh.PushFailure | internal/controller/mesh.go:155-161 | the log after a failure has length min(old+1, 5), the task in front and the old entries shifted back by one |
| Mesh.PushAllKeepsNewest | internal/controller/mesh.go:155-161 | after any run of failures the log is the newest five of (failures reversed, then the old log) |
| Mesh.WithTaskResult | internal/controller/mesh.go:145-162 | tool calls grow by toolCount (mod 2^32) on success and failure alike; only a failure pushes onto the log; nothing else changes |
| Mesh.TaskAuditScenario | internal/controller/mesh_test.go:97-132 | 3 + 2 + 6×1 tool calls give 11; the log is FAIL_6 … FAIL_2, so FAIL_1 is evicted |
| Mesh.MeshRegistry.RecordTaskResult | internal/controller/mesh.go:145-162 | a known id's record becomes WithTaskResult of it; an unknown id changes nothing |
| Mesh.WithMetrics | internal/controller/mesh.go:165-176 | latency and tokens add up, requests grow by exactly 1 (mod 2^32), the peak throughput is max(old, new) and never decreases; nothing else changes |
| Mesh.MeshRegistry.RecordMetrics | internal/controller/mesh.go:165-176 | a known id's record becomes WithMetrics of it; an unknown id changes nothing |
| Mesh.StatsOf | internal/controller/mesh.go:191-201 | average latency × requests = total latency when requests > 0, and 0 otherwise; the counters are copied |
| Mesh.MetricsScenario | internal/controller/mesh_test.go:9-42 | latencies 100 and 200 with tokens 50 and 150 summarise as 2 requests, 200 tokens, average 150 |
| Mesh.MeshRegistry.GetStatsSummary | internal/controller/mesh.go:186-204 | exactly one entry per registered agent, each its StatsOf, with distinct ids in some order |
| Mesh.Reevaluated | internal/controller/mesh.go:207-235 | utility +0.1 when novel and −0.05 otherwise; the last neighbour is dropped exactly when the nudged utility is < 0.5 with more than one neighbour, and the utility is then reset to 0.8; the list is a prefix of the old one; afterwards utility < 0.5 implies at most one neighbour |
| Mesh.RedundantRunKeepsNeighbors | internal/controller/mesh.go:217-234 | while the utility stays ≥ 0.5, k redundant re-evaluations lower it by 0.05·k and keep every neighbour |
| Mesh.PruneOnTenthRedundant | internal/controller/mesh.go:217-234 | from utility 0.98 with two neighbours, nine redundant re-evaluations keep both neighbours at utility 0.53; the tenth, at 0.48, prunes one and resets to 0.8 |
| Mesh.MeshRegistry.ReevaluateNeighbors | internal/controller/mesh.go:207-235 | a known id's record becomes Reevaluated of it; an unknown id changes nothing |
| Mesh.MeshRegistry.UpdateRole | internal/controller/mesh.go:237-243 | a known id gets the new role with all else kept; an unknown id changes nothing |
| Mesh.MeshRegistry.GetAgent | internal/controller/mesh.go:70-100 | found exactly for registered ids; the copy equals the record except that its peak throughput is 0 |
| Mesh.Handshake | internal/controller/mesh.go:134-141 | the handshake is approved, grants 75 % CPU and 512 MiB, and its session id is "mesh_sess_" followed by the id |
| Mesh.ChooseNeighbors | internal/controller/mesh.go:110-118 | the neighbour loop picks distinct registered ids other than the newcomer, exactly min(2, number of other registered agents) of them |
| Mesh.MeshRegistry.RegisterAgent | internal/controller/mesh.go:103-141 | the new record has at most 2 distinct neighbours, as many as there are other agents up to 2, none of them itself, all already registered; utility 1.0, zero counters, empty log; it replaces any earlier record under the id; the response is Handshake(id) |
| Mesh.RegisterKeepsWellFormed | internal/controller/mesh.go:110-132 | registration keeps every record filed under its id, with ≤ 5 failures and ≤ 2 distinct registered neighbours other than itself |
| Mesh.UpdateKeepsWellFormed | internal/controller/mesh.go:154-160 | replacing a record by one with the same id, ≤ 5 failures and a prefix of its neighbours keeps the directory well formed |
| Mesh.UpdatesKeepWellFormed | internal/controller/mesh.go:145-243 | recording a task or metrics, re-evaluating and changing the role all keep the directory well formed |
| Arbitration.Request | internal/controller/arbiter.go:28-49 | granted iff the lease is free, already the caller's, or older than 30 s; a grant sets holder := caller and time := now; a denial changes nothing |
| Arbitration.Arbiter.constructor | internal/controller/arbiter.go:21-25 | NewArbiter: a free lease and no saved states |
| Arbitration.LeaseExcludes | internal/controller/arbiter.go:33-48 | while a held lease is at most 30 s old, every other agent is denied and the state is unchanged |
| Arbitration.ExactTtlNotStale | internal/controller/arbiter.go:11-34 | an age of exactly 30 s is not stale (denied); 1 ns more is (granted) |
| Arbitration.NewHolderOnlyAfterExpiry | internal/controller/arbiter.go:33-44 | a lease passes to another agent only when it was stale |
| Arbitration.RenewalExtendsLease | internal/controller/arbiter.go:40-45 | the holder's re-request renews the lease from that moment, so others are denied for a further 30 s |
| Arbitration.CounterbalanceScenario | cmd/test_phase4/main.go:35-46 | the harness's two requests, extended by a release and an expiry: boss-a is granted a free lease and boss-b is denied within 30 s; boss-b's release is then a no-op, and once the lease is stale boss-b is granted |
| Arbitration.EmptyIdLeavesLeaseFree | internal/controller/arbiter.go:40-44 | a request by the empty id on a free lease is granted and leaves the lease free |
| Arbitration.Release | internal/controller/arbiter.go:52-59 | the holder's release frees the lease; anyone else's changes nothing |
| Arbitration.Arbiter.RequestStrategicLock | internal/controller/arbiter.go:28-49 | verdict and new holder/time equal Request of the old lease |
| Arbitration.Arbiter.ReleaseLock | internal/controller/arbiter.go:52-59 | the new lease equals Release of the old one |
| Arbitration.SaveThenGet | internal/controller/arbiter.go:62-73 | after saving an action its own id finds it; other ids find what they found before; a never-saved id finds nothing |
| Arbitration.Arbiter.SaveState | internal/controller/arbiter.go:62-66 | the state map gains or replaces the entry of the action's agent, and nothing else |
| Arbitration.Arbiter.GetState | internal/controller/arbiter.go:68-73 | the saved action for the id, or None when there is none |
| Roles.EvaluateTransition | internal/controller/roles.go:23-46 | a Strategic agent stays Strategic iff its upper-cased intent has neither LONG_HORIZON nor COMPILATION and there is no load over a threshold; an Operational one becomes Strategic iff the intent has STRATEGIC_REASONING, whatever the load; Strategic results only from these two cases |
| Roles.IntentCaseInsensitive | internal/controller/roles.go:24 | an intent and its upper-cased form give the same role |
| Roles.LowerCaseLongHorizonDemotes | internal/controller/roles.go:24-31 | a Strategic agent whose intent contains "long_horizon" in lower case is demoted whatever its load |
| Roles.ThresholdsAreStrict | internal/controller/roles.go:17-18 | exactly 800 MiB at 70 % CPU is no pressure; one byte more demotes a Strategic agent |
| Scheduling.NewScheInfer | internal/controller/scheinfer.go:35-45 | CUDA iff a GPU name and capability ≥ 70; Vulkan iff a GPU name and 60 ≤ capability < 70; never both; neither without a GPU name |
| Scheduling.RouteTask | internal/controller/scheinfer.go:48-74 | one of the four labels; below L3 size always CPU_AVX2; at or above it CUDA, then Vulkan, then AVX-512, then CPU_AVX2, each characterised by iff |
| Scheduling.RoutingExamples | internal/controller/scheinfer_test.go:7-74 | with a 16 MiB L3 cache: 1 MiB tasks go to CPU_AVX2 on an Ampere (86) and a Pascal (61) GPU; 32 MiB tasks go to GPU_CUDA, GPU_VULKAN, CPU_AVX512 (no GPU, AVX-512) and CPU_AVX2 (neither) |
| Scheduling.RouteTaskSizeClasses | internal/controller/scheinfer.go:50-53 | two sizes on the same side of the L3 size are routed alike |
| Scheduling.RouteLayer | internal/controller/scheinfer.go:77-86 | GPU_CUDA iff the layer is below 16 and CUDA is present, CPU_AVX2 otherwise |
| Scheduling.ScheinferRouteTask | internal/controller/scheinfer.go:18-24 | without a global scheduler the route is CPU_AVX2; with one it is its RouteTask |
| Scheduling.GetMeshCapability | internal/controller/scheinfer.go:89-97 | "CPU:<n> cores", then " \| GPU:CUDA(Ampere)" iff CUDA, else " \| CPU:AVX-512" iff AVX-512, else nothing |
| Qdrant.Observe | internal/controller/qdrant.go:33-42 | a query is novel iff not seen within the window; a novel query records now for itself only; a repeat records nothing |
| Qdrant.SoftThrottle.constructor | internal/controller/qdrant.go:26-31 | NewSoftThrottle: no recent queries and a 5 s window |
| Qdrant.ThrottleLifecycle | internal/controller/qdrant.go:33-42 | first query novel; repeat within 5 s throttled without refreshing the time; novel again 5 s after the recorded time |
| Qdrant.SoftThrottle.IsNovel | internal/controller/qdrant.go:33-42 | verdict and new map equal Observe of the old map |
| Qdrant.QdrantController.constructor | internal/controller/qdrant.go:49-54 | NewQdrantController: a fresh throttle of its own, empty with a 5 s window, and the fixed local search URL |
| Qdrant.FallbackKeywordChoice | internal/controller/qdrant.go:124-129 | about FallbackKeyword (`strings.Fields(query)[0]`, or "mesh"): the scan keyword is "mesh" for an all-space query, else the query's first non-empty space-free word |
| Qdrant.ParseLine | internal/controller/qdrant.go:139-150 | the result of one matching line always scores 0.5; how the line is cut is stated by ParseLineSplits |
| Qdrant.ParseLineSplits | internal/controller/qdrant.go:139-150 | a line with ':' splits at its first ':' into source and trimmed content; one without is all content from "Research Corpus" |
| Qdrant.BlankLineKept | internal/controller/qdrant.go:138-150 | only the empty line is skipped: a line of white space only is kept, as a Research Corpus result with empty content |
| Qdrant.ScanStop | internal/controller/qdrant.go:137-153 | once the scan has stopped, at the end or with three results, it holds the first three results of all lines |
| Qdrant.KeptResults | internal/controller/qdrant.go:137-161 | the line results cut at three, or the single no-match result when there are none: always between 1 and 3 results |
| Qdrant.FallbackResults | internal/controller/qdrant.go:134-161 | KeptResults of the output split at newlines: between 1 and 3 results for any scan output |
| Qdrant.KeptResultsNoMatch | internal/controller/qdrant.go:155-161 | the fallback reports the single no-match result iff every line is empty |
| Qdrant.KeptResultsFromLines | internal/controller/qdrant.go:137-151 | every kept result is ParseLine of some non-empty line |
| Qdrant.KeptResultsScores | internal/controller/qdrant.go:147-151 | kept line results all score 0.5 |
| Qdrant.FallbackOnEmptyOutput | internal/controller/qdrant.go:134-161 | empty scan output yields the single no-match result |
| Qdrant.ScanLines | internal/controller/qdrant.go:135-153 | the loop returns the parses of the first `limit` non-empty lines, in order (three, parsed by ParseLine, in performGrepFallback) |
| Qdrant.QdrantController.PerformGrepFallback | internal/controller/qdrant.go:123-167 | the response is the fallback results of the scan output for the query's keyword, with the fallback context |
| Qdrant.QdrantController.Search | internal/controller/qdrant.go:57-120 | the throttle state advances as Observe; a throttled query gets no results and the THROTTLED context; a remote success is passed through unchanged; every remote failure gives the local fallback |
| Inference.DataSize | internal/controller/inference.go:29-32 | the expected KV-cache bytes when positive, otherwise the prompt's UTF-8 byte length |
| Inference.ProfileOf | internal/controller/inference.go:42-53 | AVX-512: 35 ms, 12.5 GB/s, flag set; a GPU: 120 ms, 25 GB/s; anything else: 50 ms, 8.2 GB/s; the flag is set only for AVX-512 |
| Inference.SimulatedTextLength | internal/controller/inference.go:39-63 | the simulated text is 37 + route length + prompt bytes long |
| Inference.Generate | internal/controller/inference.go:23-69 | a done context gives its error; otherwise the route is RouteTask of the data size, the tokens are the text's bytes / 4, the AVX-512 flag is set iff size ≥ L3 with no GPU and AVX-512, and a GPU route takes ≥ 120 ms |
| LocalSearch.CacheContent | internal/controller/search.go:33-38 | empty output becomes the no-match sentinel; output longer than 1000 is cut to 1000 plus "..."; other output is kept; the content is never empty |
| LocalSearch.CacheContentKeepsPrefix | internal/controller/search.go:36-38 | the content starts with the first min(1000, length) characters of the output and is longer than 1000 iff the output is |
| LocalSearch.PerformSearch | internal/controller/search.go:23-50 | exactly one result from "Local Operational Cache (Grep)" with score 0.7 and the processed output, plus the fast-path context |
| Synthesis.Synthesize | internal/controller/synthesis.go:17-31 | the prefix "Merged State: " then one "[id: chain] " segment per action in order, with confidence 0.88 |
| Synthesis.SegmentsAppend | internal/controller/synthesis.go:23-25 | merging two batches in turn gives the concatenation of their segments |
| Text.JoinSplit | internal/controller/qdrant.go:134 | splitting at a separator loses nothing: joining the parts gives back the text |
| Text.TrimSpaceTrims | internal/controller/qdrant.go:149 | trimming keeps a middle piece cut only at white space, which neither starts nor ends with white space |
| Text.FirstFieldFinds | internal/controller/qdrant.go:125-128 | the first field is absent iff the text is all white space, and otherwise is a non-empty space-free word preceded only by white space |
| Text.SplitFirstCuts | internal/controller/qdrant.go:139 | SplitN(line, ":", 2) gives two parts iff ':' occurs, cut at its first occurrence |
| Text.ToUpperIdempotent | internal/controller/roles.go:24 | upper-casing twice is upper-casing once |
| Text.Utf8LengthAppend | internal/controller/inference.go:29 | the byte length of a concatenation is the sum of the byte lengths |
| Text.DecimalRoundTrip | internal/controller/scheinfer.go:90 | the decimal printing of a count reads back as that count |

## Left out

- Concurrency: the mutexes of MeshRegistry, Arbiter and SoftThrottle are left out. Each method is modelled as one atomic step.
- The concurrent-contribution test runs 100 goroutines. It is modelled as 100 sequential contributions.
- `log.Printf` has no effect, including the "utility below 0.7" message of `ReevaluateNeighbors`.
- Float32 and float64 rounding is left out: latencies, utility, throughput, CPU percentages and scores are exact reals.
- Mesh.RedundantRunKeepsNeighbors: over reals, its requires admits the case where the utility reaches exactly 0.5, which does not prune. In Go's float64 the same run can land just below 0.5 and prune. From the initial utility 1.0, ten subtractions of 0.05 give 0.4999999999999996, so Go prunes on the tenth redundant re-evaluation, where the model prunes on the eleventh. Mesh.PruneOnTenthRedundant starts from 0.98, so that every step stays clear of the threshold.
- Mesh.LedgerScenarios: the concurrency test accepts 0.99–1.01 because of rounding; over reals the model proves exactly 1.0.
- Contribution scores are clamped only from above (`RecordContribution`, mesh.go:49-52, caps the sum at 1.0). A negative contribution is stored and lowers the score. Mesh.NoLowerClamp shows this.
- Go pointer aliasing is left out:
  - the registry shares `Capabilities` with the handshake request;
  - `SaveState` stores the caller's action pointer;
  - agents hold pointers to their records.
  All records are values here. The deep copy in `GetAgent` exists in Go to stop aliasing, so it is a plain copy here.
- Mesh.MeshRegistry.ReevaluateNeighbors: the `arbiter` argument is unused by the source and is omitted.
- Mesh.MeshRegistry.RegisterAgent: the choice of neighbours is specified only as "any that Go's map order could give". The nondeterministic pick does not fix an order.
- Mesh.MeshRegistry.GetStatsSummary: the order of the entries is left open, as Go's map iteration order is.
- Wall-clock time: `time.Now` and `time.Since` become the parameter `now` in nanoseconds. The Go zero `time.Time` of a fresh arbiter is 0.
- Qdrant.QdrantController.Search: the HTTP request, the 2 s client timeout and the JSON decoding are an input `RemoteOutcome`.
  - Its two error returns cannot fire for the fixed URL and request body, and are left out: the `json.Marshal` failure and the request-construction failure.
  - The decoded results are `float32` scores in Go; here they are reals.
- The grep runs in `performGrepFallback` and `PerformSearch`, with their fixed paths, become function parameters from keyword to output.
- Inference.Generate: the timer race against `ctx.Done()` becomes the parameter `contextDoneFirst`, and the measured latency becomes `overheadMs`.
  - The `nil` scheduler case of `InferenceController` is left out: in Go it is a nil dereference, and here the scheduler is a value.
- LocalSearch.CacheContent: Go's `len` and slicing count bytes. The model truncates at 1000 characters, so for output that is not ASCII it keeps more bytes than Go does.
- Scheduling.GetMeshCapability: `runtime.NumCPU()` is the parameter `numCpu`.
- Case mapping in `strings.ToUpper` covers ASCII plus the two non-ASCII letters whose upper case is ASCII (U+0131 and U+017F). Other non-ASCII characters are kept, which cannot change an ASCII keyword match.
- Mesh.MeshRegistry.GetAgent: Go returns a zero `AgentInfo` and false for an unknown id. The model returns `None`.
- `HandshakeRequest` and the other protobuf messages carry only the fields the controller reads or writes. `uint64` sizes are unbounded naturals.
