/** The agent directory (internal/controller/mesh.go): agents keyed by id, each
    with a small neighbourhood, performance counters, a utility score and a
    bounded log of failed tasks, plus a source -> target contribution ledger. */
module Mesh {

  import opened Wrappers
  import opened Proto

  /** Failed tasks kept per agent, newest first. */
  const MaxFailureLog: nat := 5
  /** Neighbours chosen at registration. */
  const MaxInitialNeighbors: nat := 2
  /** The utility of a newly registered agent. */
  const InitialUtility: real := 1.0
  /** Utility gained by a re-evaluation in a novel context, lost otherwise. */
  const NoveltyReward: real := 0.1
  const RedundancyPenalty: real := 0.05
  /** Below this utility an agent with several neighbours loses one ... */
  const PruneBelow: real := 0.5
  /** ... and its utility is reset to this. */
  const UtilityAfterPrune: real := 0.8
  /** The ceiling of an accumulated contribution score. */
  const ContributionCap: real := 1.0
  const SessionPrefix: string := "mesh_sess_"
  /** The limits every handshake grants: 75 % CPU and 512 MiB of memory. */
  const GrantedLimits: OSResources := OSResources(75.0, 0, 512 * 1024 * 1024)

  /** One registered agent. Latencies, utility and throughput are reals; the
      token, request and tool counters are 32-bit and wrap. */
  datatype AgentInfo = AgentInfo(
    id: string,
    role: AgentRole,
    capabilities: seq<string>,
    neighbors: seq<string>,
    utilityScore: real,
    totalLatency: real,
    totalTokens: uint32,
    requestCount: uint32,
    toolCalls: uint32,
    failedTasks: seq<string>,
    maxThroughput: real)

  /** One entry of GetStatsSummary. */
  datatype AgentStats = AgentStats(id: string, avgLatency: real, requests: uint32, tokens: uint32)

  function Min(a: real, b: real): real
  {
    if a <= b then a else b
  }

  function MinNat(a: nat, b: nat): nat
  {
    if a <= b then a else b
  }

  predicate Distinct<T(==)>(s: seq<T>)
  {
    forall i, j :: 0 <= i < j < |s| ==> s[i] != s[j]
  }

  // ---------------------------------------------------------------------
  // The contribution ledger

  /** Source -> {target: score}. */
  type Ledger = map<string, map<string, real>>

  /** The row of `source`, empty when it never contributed. */
  function Row(ledger: Ledger, source: string): map<string, real>
  {
    if source in ledger then ledger[source] else map[]
  }

  /** The score of source -> target; a pair never recorded reads as 0, as a
      missing entry of a Go map does. */
  function Score(ledger: Ledger, source: string, target: string): real
  {
    if target in Row(ledger, source) then Row(ledger, source)[target] else 0.0
  }

  /** The ledger after RecordContribution(source, target, score): that pair's
      score becomes min(1, old + score), with no lower clamp; the row gains the
      target if it lacked it, and every other pair and row is as it was. */
  function AddContribution(ledger: Ledger, source: string, target: string, score: real): (r: Ledger)
    ensures Score(r, source, target) == Min(ContributionCap, Score(ledger, source, target) + score)
    ensures r.Keys == ledger.Keys + {source}
    ensures Row(r, source).Keys == Row(ledger, source).Keys + {target}
    ensures forall s :: s in ledger && s != source ==> r[s] == ledger[s]
    ensures forall t :: t != target && t in Row(ledger, source) ==> Row(r, source)[t] == Row(ledger, source)[t]
  {
    var sum := Score(ledger, source, target) + score;
    ledger[source := Row(ledger, source)[target := if sum > ContributionCap then ContributionCap else sum]]
  }

  /** No stored score exceeds the cap. */
  predicate LedgerBounded(ledger: Ledger)
  {
    forall s, t :: s in ledger && t in ledger[s] ==> ledger[s][t] <= ContributionCap
  }

  /** Recording a contribution keeps every score at most 1, whatever the
      score recorded. */
  lemma AddContributionBounded(ledger: Ledger, source: string, target: string, score: real)
    requires LedgerBounded(ledger)
    ensures LedgerBounded(AddContribution(ledger, source, target, score))
  {
    var r := AddContribution(ledger, source, target, score);
    forall s, t | s in r && t in r[s]
      ensures r[s][t] <= ContributionCap
    {
      if s == source && t == target {
        assert r[s][t] == Score(r, source, target);
      } else if s == source {
        assert r[s][t] == Row(ledger, source)[t];
      }
    }
  }

  /** The contributions `scores`, recorded one after another for one pair. */
  function AddAll(ledger: Ledger, source: string, target: string, scores: seq<real>): Ledger
  {
    if scores == [] then ledger
    else AddContribution(AddAll(ledger, source, target, scores[..|scores| - 1]), source, target, scores[|scores| - 1])
  }

  function Sum(xs: seq<real>): real
  {
    if xs == [] then 0.0 else Sum(xs[..|xs| - 1]) + xs[|xs| - 1]
  }

  /** Non-negative contributions accumulate as one clamped sum: clamping after
      every step gives the same score as clamping once at the end. */
  lemma {:induction false} AddAllClamped(ledger: Ledger, source: string, target: string, scores: seq<real>)
    requires Score(ledger, source, target) <= ContributionCap
    requires forall k :: 0 <= k < |scores| ==> scores[k] >= 0.0
    ensures Score(AddAll(ledger, source, target, scores), source, target)
            == Min(ContributionCap, Score(ledger, source, target) + Sum(scores))
  {
    if scores != [] {
      var init := scores[..|scores| - 1];
      assert forall k :: 0 <= k < |init| ==> init[k] == scores[k];
      AddAllClamped(ledger, source, target, init);
    }
  }

  /** n equal contributions of x sum to n * x. */
  lemma {:induction false} SumOfEqual(n: nat, x: real)
    ensures Sum(seq(n, _ => x)) == n as real * x
  {
    if n > 0 {
      assert seq(n, _ => x)[..n - 1] == seq(n - 1, _ => x);
      SumOfEqual(n - 1, x);
    }
  }

  /** The ledger scenarios of the registry's tests: 0.5 then 0.25 give 0.75,
      a hundred contributions of 0.01 give 1.0, and an unseen source has an
      empty row. */
  lemma LedgerScenarios()
    ensures Score(AddContribution(AddContribution(map[], "scout", "coder", 0.5), "scout", "coder", 0.25), "scout", "coder") == 0.75
    ensures Score(AddAll(map[], "parallel-source", "target", seq(100, _ => 0.01)), "parallel-source", "target") == 1.0
    ensures Row(AddContribution(map[], "scout", "coder", 0.5), "unknown") == map[]
  {
    SumOfEqual(100, 0.01);
    AddAllClamped(map[], "parallel-source", "target", seq(100, _ => 0.01));
  }

  /** Nothing clamps a score from below: a negative contribution is stored as is. */
  lemma NoLowerClamp()
    ensures Score(AddContribution(map[], "a", "b", -2.0), "a", "b") == -2.0
  {
  }

  // ---------------------------------------------------------------------
  // The failure log

  /** The log after a failure of `task`: the task in front, the older entries
      behind it, and the oldest dropped once there are more than five. */
  function PushFailure(log: seq<string>, task: string): (r: seq<string>)
    ensures |r| == MinNat(|log| + 1, MaxFailureLog)
    ensures r[0] == task
    ensures forall k :: 1 <= k < |r| ==> r[k] == log[k - 1]
  {
    var pushed := [task] + log;
    if |pushed| > MaxFailureLog then pushed[..MaxFailureLog] else pushed
  }

  function Reverse<T>(s: seq<T>): (r: seq<T>)
    ensures |r| == |s|
  {
    if s == [] then [] else [s[|s| - 1]] + Reverse(s[..|s| - 1])
  }

  /** The log after the failures `tasks`, in order. */
  function PushAll(log: seq<string>, tasks: seq<string>): seq<string>
  {
    if tasks == [] then log else PushFailure(PushAll(log, tasks[..|tasks| - 1]), tasks[|tasks| - 1])
  }

  /** After any run of failures the log holds the newest five entries of the
      whole history, newest first: the failures in reverse, then the old log. */
  lemma {:induction false} PushAllKeepsNewest(log: seq<string>, tasks: seq<string>)
    requires |log| <= MaxFailureLog
    ensures PushAll(log, tasks) == (Reverse(tasks) + log)[..MinNat(|tasks| + |log|, MaxFailureLog)]
  {
    if tasks == [] {
      assert Reverse(tasks) + log == log;
      assert log[..|log|] == log;
    } else {
      var init := tasks[..|tasks| - 1];
      var t := tasks[|tasks| - 1];
      PushAllKeepsNewest(log, init);
      var prev := PushAll(log, init);
      var whole := Reverse(tasks) + log;
      assert whole == [t] + (Reverse(init) + log);
      var r := PushAll(log, tasks);
      assert r == PushFailure(prev, t);
      assert |r| == MinNat(|tasks| + |log|, MaxFailureLog);
      forall k | 0 <= k < |r|
        ensures r[k] == whole[k]
      {
        if k > 0 {
          assert r[k] == prev[k - 1];
        }
      }
    }
  }

  // ---------------------------------------------------------------------
  // Updates of one agent record

  /** The record after RecordTaskResult: the tool calls grow by `toolCount`
      (wrapping), a failure is pushed on the log, and nothing else changes. */
  function WithTaskResult(a: AgentInfo, success: bool, taskName: string, toolCount: uint32): (r: AgentInfo)
    ensures r == a.(toolCalls := r.toolCalls, failedTasks := r.failedTasks)
    ensures r.toolCalls == Add32(a.toolCalls, toolCount)
    ensures r.failedTasks == if success then a.failedTasks else PushFailure(a.failedTasks, taskName)
  {
    var failed := if success then a.failedTasks else PushFailure(a.failedTasks, taskName);
    a.(toolCalls := Add32(a.toolCalls, toolCount), failedTasks := failed)
  }

  /** The task audit of the registry's tests: two successes with 3 and 2 tool
      calls, then six failures with one each, leave 11 tool calls and the log
      FAIL_6 .. FAIL_2, FAIL_1 having been evicted. */
  lemma TaskAuditScenario(a: AgentInfo)
    requires a.toolCalls == 0 && a.failedTasks == []
    ensures var fails := ["FAIL_1", "FAIL_2", "FAIL_3", "FAIL_4", "FAIL_5", "FAIL_6"];
            var b := WithTaskResult(WithTaskResult(a, true, "TASK_1", 3), true, "TASK_2", 2);
            var c := WithTaskResult(WithTaskResult(WithTaskResult(b, false, fails[0], 1), false, fails[1], 1), false, fails[2], 1);
            var d := WithTaskResult(WithTaskResult(WithTaskResult(c, false, fails[3], 1), false, fails[4], 1), false, fails[5], 1);
            d.toolCalls == 11 && d.failedTasks == ["FAIL_6", "FAIL_5", "FAIL_4", "FAIL_3", "FAIL_2"]
  {
  }

  /** The record after RecordMetrics: latency and tokens add up, one more
      request is counted, and the peak throughput is the larger of the old peak
      and this throughput, so it never decreases. Nothing else changes. */
  function WithMetrics(a: AgentInfo, latency: real, tokens: uint32, throughput: real): (r: AgentInfo)
    ensures r == a.(totalLatency := r.totalLatency, totalTokens := r.totalTokens,
                    requestCount := r.requestCount, maxThroughput := r.maxThroughput)
    ensures r.totalLatency == a.totalLatency + latency
    ensures r.totalTokens == Add32(a.totalTokens, tokens)
    ensures r.requestCount == Add32(a.requestCount, 1)
    ensures r.maxThroughput >= a.maxThroughput && r.maxThroughput >= throughput
    ensures r.maxThroughput == a.maxThroughput || r.maxThroughput == throughput
  {
    a.(totalLatency := a.totalLatency + latency,
       totalTokens := Add32(a.totalTokens, tokens),
       requestCount := Add32(a.requestCount, 1),
       maxThroughput := if throughput > a.maxThroughput then throughput else a.maxThroughput)
  }

  /** The score a re-evaluation moves the utility to before any pruning. */
  function NudgedUtility(utility: real, novelContext: bool): real
  {
    if novelContext then utility + NoveltyReward else utility - RedundancyPenalty
  }

  /** The record after ReevaluateNeighbors. The neighbour list never grows and
      loses at most its last entry; it is pruned exactly when the nudged
      utility is below 0.5 with more than one neighbour, and then the utility
      is reset to 0.8. Afterwards a utility below 0.5 means at most one
      neighbour. Nothing else changes. */
  function Reevaluated(a: AgentInfo, novelContext: bool): (r: AgentInfo)
    ensures r == a.(neighbors := r.neighbors, utilityScore := r.utilityScore)
    ensures r.neighbors <= a.neighbors && |r.neighbors| >= |a.neighbors| - 1
    ensures |r.neighbors| < |a.neighbors| <==>
              NudgedUtility(a.utilityScore, novelContext) < PruneBelow && |a.neighbors| > 1
    ensures r.utilityScore == if |r.neighbors| < |a.neighbors| then UtilityAfterPrune
                              else NudgedUtility(a.utilityScore, novelContext)
    ensures r.utilityScore < PruneBelow ==> |r.neighbors| <= 1
  {
    var u := NudgedUtility(a.utilityScore, novelContext);
    if u < PruneBelow && |a.neighbors| > 1 then
      a.(neighbors := a.neighbors[..|a.neighbors| - 1], utilityScore := UtilityAfterPrune)
    else
      a.(utilityScore := u)
  }

  /** `k` re-evaluations in redundant contexts, one after another. */
  function RedundantRun(a: AgentInfo, k: nat): AgentInfo
  {
    if k == 0 then a else Reevaluated(RedundantRun(a, k - 1), false)
  }

  /** While the utility stays at or above 0.5, redundant re-evaluations only
      lower it by 0.05 each and keep every neighbour. */
  lemma {:induction false} RedundantRunKeepsNeighbors(a: AgentInfo, k: nat)
    requires a.utilityScore - k as real * RedundancyPenalty >= PruneBelow
    ensures RedundantRun(a, k).neighbors == a.neighbors
    ensures RedundantRun(a, k).utilityScore == a.utilityScore - k as real * RedundancyPenalty
  {
    if k > 0 {
      RedundantRunKeepsNeighbors(a, k - 1);
    }
  }

  /** From utility 0.98 with two neighbours, nine redundant re-evaluations keep
      both neighbours (utility 0.53), and the tenth, at 0.48, prunes one and
      resets the utility to 0.8. Every step stays at least 0.02 away from the
      0.5 threshold, so float64 rounding cannot move the pruning step. */
  lemma PruneOnTenthRedundant(a: AgentInfo)
    requires a.utilityScore == 0.98 && |a.neighbors| == 2
    ensures RedundantRun(a, 9).neighbors == a.neighbors
    ensures RedundantRun(a, 9).utilityScore == 0.53
    ensures RedundantRun(a, 10).neighbors == a.neighbors[..1]
    ensures RedundantRun(a, 10).utilityScore == UtilityAfterPrune
  {
    RedundantRunKeepsNeighbors(a, 9);
  }

  // ---------------------------------------------------------------------
  // Registration and the directory invariant

  /** A neighbourhood RegisterAgent may choose: distinct registered agents
      other than the newcomer, as many as there are up to two. Which ones
      depends on Go's map iteration order, which is left open. */
  predicate InitialNeighborhood(registered: set<string>, self: string, neighbors: seq<string>)
  {
    && Distinct(neighbors)
    && (forall n :: n in neighbors ==> n in registered && n != self)
    && |neighbors| == MinNat(MaxInitialNeighbors, |registered - {self}|)
  }

  /** The neighbour loop of RegisterAgent: walks the registered ids in some
      order, taking every one other than the newcomer until two are taken. */
  method ChooseNeighbors(registered: set<string>, self: string) returns (neighbors: seq<string>)
    ensures InitialNeighborhood(registered, self, neighbors)
  {
    neighbors := [];
    var unvisited := registered;
    while unvisited != {} && |neighbors| < MaxInitialNeighbors
      invariant unvisited <= registered
      invariant Distinct(neighbors)
      invariant forall n :: n in neighbors ==> n in registered && n != self && n !in unvisited
      invariant |neighbors| + |unvisited - {self}| == |registered - {self}|
      invariant |neighbors| <= MaxInitialNeighbors
      decreases unvisited
    {
      var id :| id in unvisited;
      if id != self {
        assert (unvisited - {id}) - {self} == (unvisited - {self}) - {id};
        neighbors := neighbors + [id];
      } else {
        assert (unvisited - {id}) - {self} == unvisited - {self};
      }
      unvisited := unvisited - {id};
    }
  }

  /** The record a handshake creates: utility 1.0, zero counters, an empty log. */
  function NewAgent(req: HandshakeRequest, neighbors: seq<string>): AgentInfo
  {
    AgentInfo(req.agentId, req.initialRole, req.capabilities, neighbors, InitialUtility,
              0.0, 0, 0, 0, [], 0.0)
  }

  /** The handshake answer: always approved, with session "mesh_sess_<id>". */
  function Handshake(agentId: string): (resp: HandshakeResponse)
    ensures resp.approved && resp.resourceLimits == GrantedLimits
    ensures SessionPrefix <= resp.sessionId && resp.sessionId[|SessionPrefix|..] == agentId
  {
    HandshakeResponse(SessionPrefix + agentId, true, GrantedLimits)
  }

  /** What the registry keeps true of each record: it is filed under its own
      id, its log has at most five entries, and its neighbours are at most two
      distinct registered agents other than itself. */
  predicate WellFormed(id: string, a: AgentInfo, registered: set<string>)
  {
    && a.id == id
    && |a.failedTasks| <= MaxFailureLog
    && |a.neighbors| <= MaxInitialNeighbors
    && Distinct(a.neighbors)
    && (forall n :: n in a.neighbors ==> n in registered && n != id)
  }

  predicate DirectoryWellFormed(agents: map<string, AgentInfo>)
  {
    forall id :: id in agents ==> WellFormed(id, agents[id], agents.Keys)
  }

  /** Registering (or re-registering) an agent keeps the directory well formed. */
  lemma RegisterKeepsWellFormed(agents: map<string, AgentInfo>, req: HandshakeRequest, neighbors: seq<string>)
    requires DirectoryWellFormed(agents)
    requires InitialNeighborhood(agents.Keys, req.agentId, neighbors)
    ensures DirectoryWellFormed(agents[req.agentId := NewAgent(req, neighbors)])
  {
    var r := agents[req.agentId := NewAgent(req, neighbors)];
    forall id | id in r
      ensures WellFormed(id, r[id], r.Keys)
    {
      if id != req.agentId {
        assert WellFormed(id, agents[id], agents.Keys);
      }
    }
  }

  /** Replacing a record by one with the same id, a log of at most five and a
      prefix of its neighbours keeps the directory well formed. */
  lemma UpdateKeepsWellFormed(agents: map<string, AgentInfo>, id: string, b: AgentInfo)
    requires DirectoryWellFormed(agents) && id in agents
    requires b.id == id && |b.failedTasks| <= MaxFailureLog && b.neighbors <= agents[id].neighbors
    ensures DirectoryWellFormed(agents[id := b])
  {
    var a := agents[id];
    assert WellFormed(id, a, agents.Keys);
    forall n | n in b.neighbors
      ensures n in agents && n != id
    {
      var k :| 0 <= k < |b.neighbors| && b.neighbors[k] == n;
      assert a.neighbors[k] == n;
    }
    var r := agents[id := b];
    forall other | other in r
      ensures WellFormed(other, r[other], r.Keys)
    {
      if other != id {
        assert WellFormed(other, agents[other], agents.Keys);
      }
    }
  }

  /** Each update of a record keeps it well formed. */
  lemma UpdatesKeepWellFormed(agents: map<string, AgentInfo>, id: string)
    requires DirectoryWellFormed(agents) && id in agents
    ensures forall success, taskName, toolCount ::
              DirectoryWellFormed(agents[id := WithTaskResult(agents[id], success, taskName, toolCount)])
    ensures forall latency, tokens, throughput ::
              DirectoryWellFormed(agents[id := WithMetrics(agents[id], latency, tokens, throughput)])
    ensures forall novel :: DirectoryWellFormed(agents[id := Reevaluated(agents[id], novel)])
    ensures forall role :: DirectoryWellFormed(agents[id := agents[id].(role := role)])
  {
    var a := agents[id];
    assert WellFormed(id, a, agents.Keys);
    forall success, taskName, toolCount
      ensures DirectoryWellFormed(agents[id := WithTaskResult(a, success, taskName, toolCount)])
    {
      UpdateKeepsWellFormed(agents, id, WithTaskResult(a, success, taskName, toolCount));
    }
    forall latency, tokens, throughput
      ensures DirectoryWellFormed(agents[id := WithMetrics(a, latency, tokens, throughput)])
    {
      UpdateKeepsWellFormed(agents, id, WithMetrics(a, latency, tokens, throughput));
    }
    forall novel
      ensures DirectoryWellFormed(agents[id := Reevaluated(a, novel)])
    {
      UpdateKeepsWellFormed(agents, id, Reevaluated(a, novel));
    }
    forall role
      ensures DirectoryWellFormed(agents[id := a.(role := role)])
    {
      UpdateKeepsWellFormed(agents, id, a.(role := role));
    }
  }

  // ---------------------------------------------------------------------
  // Statistics

  /** An agent's summary entry: average latency total / requests, or 0 before
      the first request. */
  function StatsOf(id: string, a: AgentInfo): (s: AgentStats)
    ensures s.id == id && s.requests == a.requestCount && s.tokens == a.totalTokens
    ensures a.requestCount == 0 ==> s.avgLatency == 0.0
    ensures a.requestCount > 0 ==> s.avgLatency * a.requestCount as real == a.totalLatency
  {
    AgentStats(id, if a.requestCount > 0 then a.totalLatency / a.requestCount as real else 0.0,
               a.requestCount, a.totalTokens)
  }

  /** `stats` has exactly one entry per registered agent, each its StatsOf, in
      some order (Go's map iteration order is left open). */
  predicate StatsSummaryOf(agents: map<string, AgentInfo>, stats: seq<AgentStats>)
  {
    && |stats| == |agents|
    && (forall k :: 0 <= k < |stats| ==> stats[k].id in agents && stats[k] == StatsOf(stats[k].id, agents[stats[k].id]))
    && (forall i, j :: 0 <= i < j < |stats| ==> stats[i].id != stats[j].id)
    && (forall id :: id in agents ==> exists k :: 0 <= k < |stats| && stats[k].id == id)
  }

  /** The metrics scenario of the registry's tests: a fresh record after
      latencies 100 and 200 and tokens 50 and 150 summarises as 2 requests,
      200 tokens and an average latency of 150. */
  lemma MetricsScenario(req: HandshakeRequest, throughput1: real, throughput2: real)
    ensures var a := WithMetrics(WithMetrics(NewAgent(req, []), 100.0, 50, throughput1), 200.0, 150, throughput2);
            StatsOf(req.agentId, a) == AgentStats(req.agentId, 150.0, 2, 200)
  {
  }

  // ---------------------------------------------------------------------
  // The registry

  class MeshRegistry {
    var agents: map<string, AgentInfo>
    var contributionMatrix: Ledger

    predicate Valid()
      reads this
    {
      DirectoryWellFormed(agents) && LedgerBounded(contributionMatrix)
    }

    /** NewMeshRegistry: no agents, an empty ledger. */
    constructor ()
      ensures Valid() && agents == map[] && contributionMatrix == map[]
    {
      agents := map[];
      contributionMatrix := map[];
    }

    /** RecordContribution: the pair's score becomes min(1, old + score). */
    method RecordContribution(sourceId: string, targetId: string, score: real)
      requires Valid()
      modifies this`contributionMatrix
      ensures Valid()
      ensures contributionMatrix == AddContribution(old(contributionMatrix), sourceId, targetId, score)
      ensures agents == old(agents)
    {
      var row := if sourceId in contributionMatrix then contributionMatrix[sourceId] else map[];
      var sum := (if targetId in row then row[targetId] else 0.0) + score;
      if sum > ContributionCap {
        sum := ContributionCap;
      }
      assert contributionMatrix[sourceId := row[targetId := sum]] == AddContribution(contributionMatrix, sourceId, targetId, score);
      AddContributionBounded(contributionMatrix, sourceId, targetId, score);
      contributionMatrix := contributionMatrix[sourceId := row[targetId := sum]];
    }

    /** GetContributionDetail: a copy of the source's row, empty for a source
      that never contributed. */
    method GetContributionDetail(id: string) returns (detail: map<string, real>)
      ensures detail == Row(contributionMatrix, id)
    {
      detail := map[];
      if id in contributionMatrix {
        var targets := contributionMatrix[id];
        var pending := targets.Keys;
        while pending != {}
          invariant pending <= targets.Keys
          invariant detail.Keys == targets.Keys - pending
          invariant forall t :: t in detail ==> detail[t] == targets[t]
          decreases pending
        {
          var target :| target in pending;
          detail := detail[target := targets[target]];
          pending := pending - {target};
        }
      }
    }

    /** GetAgent: a copy of the record, which leaves out the peak throughput
      (the copy's is 0), or None for an unknown id. */
    method GetAgent(id: string) returns (info: Option<AgentInfo>)
      ensures info.Some? <==> id in agents
      ensures info.Some? ==> info.value == agents[id].(maxThroughput := 0.0)
    {
      if id !in agents {
        return None;
      }
      var a := agents[id];
      info := Some(AgentInfo(a.id, a.role, a.capabilities, a.neighbors, a.utilityScore, a.totalLatency,
                             a.totalTokens, a.requestCount, a.toolCalls, a.failedTasks, 0.0));
    }

    /** RegisterAgent: the newcomer gets up to two neighbours among the other
      registered agents and a fresh record, which replaces any earlier record
      under its id. */
    method RegisterAgent(req: HandshakeRequest) returns (resp: HandshakeResponse)
      requires Valid()
      modifies this
      ensures Valid()
      ensures req.agentId in agents
      ensures InitialNeighborhood(old(agents).Keys, req.agentId, agents[req.agentId].neighbors)
      ensures agents == old(agents)[req.agentId := NewAgent(req, agents[req.agentId].neighbors)]
      ensures contributionMatrix == old(contributionMatrix)
      ensures resp == Handshake(req.agentId)
    {
      var self := req.agentId;
      var neighbors := ChooseNeighbors(agents.Keys, self);
      RegisterKeepsWellFormed(agents, req, neighbors);
      agents := agents[self := NewAgent(req, neighbors)];
      resp := Handshake(self);
    }

    /** RecordTaskResult: counts the tool calls and logs a failure; an unknown
      id changes nothing. */
    method RecordTaskResult(id: string, success: bool, taskName: string, toolCount: uint32)
      requires Valid()
      modifies this
      ensures Valid()
      ensures agents == if id in old(agents) then old(agents)[id := WithTaskResult(old(agents)[id], success, taskName, toolCount)]
                        else old(agents)
      ensures contributionMatrix == old(contributionMatrix)
    {
      if id !in agents {
        return;
      }
      UpdatesKeepWellFormed(agents, id);
      var agent := agents[id];
      agent := agent.(toolCalls := Add32(agent.toolCalls, toolCount));
      if !success {
        var failed := [taskName] + agent.failedTasks;
        if |failed| > MaxFailureLog {
          failed := failed[..MaxFailureLog];
        }
        agent := agent.(failedTasks := failed);
      }
      agents := agents[id := agent];
    }

    /** RecordMetrics: adds one request's figures; an unknown id changes nothing. */
    method RecordMetrics(id: string, latency: real, tokens: uint32, throughput: real)
      requires Valid()
      modifies this
      ensures Valid()
      ensures agents == if id in old(agents) then old(agents)[id := WithMetrics(old(agents)[id], latency, tokens, throughput)]
                        else old(agents)
      ensures contributionMatrix == old(contributionMatrix)
    {
      if id in agents {
        UpdatesKeepWellFormed(agents, id);
        var agent := agents[id];
        agent := agent.(totalLatency := agent.totalLatency + latency,
                        totalTokens := Add32(agent.totalTokens, tokens),
                        requestCount := Add32(agent.requestCount, 1));
        if throughput > agent.maxThroughput {
          agent := agent.(maxThroughput := throughput);
        }
        agents := agents[id := agent];
      }
    }

    /** GetStatsSummary: one entry per registered agent. */
    method GetStatsSummary() returns (stats: seq<AgentStats>)
      ensures StatsSummaryOf(agents, stats)
    {
      stats := [];
      var unvisited := agents.Keys;
      while unvisited != {}
        invariant unvisited <= agents.Keys
        invariant |stats| + |unvisited| == |agents|
        invariant forall k :: 0 <= k < |stats| ==>
                    stats[k].id in agents && stats[k].id !in unvisited && stats[k] == StatsOf(stats[k].id, agents[stats[k].id])
        invariant forall i, j :: 0 <= i < j < |stats| ==> stats[i].id != stats[j].id
        invariant forall id :: id in agents && id !in unvisited ==> exists k :: 0 <= k < |stats| && stats[k].id == id
        decreases unvisited
      {
        var id :| id in unvisited;
        var agent := agents[id];
        var avg := 0.0;
        if agent.requestCount > 0 {
          avg := agent.totalLatency / agent.requestCount as real;
        }
        var entry := AgentStats(id, avg, agent.requestCount, agent.totalTokens);
        assert entry == StatsOf(id, agent);
        ghost var before := stats;
        stats := stats + [entry];
        unvisited := unvisited - {id};
        forall x | x in agents && x !in unvisited
          ensures exists k :: 0 <= k < |stats| && stats[k].id == x
        {
          if x == id {
            assert stats[|stats| - 1].id == x;
          } else {
            var k :| 0 <= k < |before| && before[k].id == x;
            assert stats[k].id == x;
          }
        }
      }
    }

    /** ReevaluateNeighbors (its arbiter argument is unused): nudges the
      utility and may prune the last neighbour; an unknown id changes nothing. */
    method ReevaluateNeighbors(agentId: string, novelContext: bool)
      requires Valid()
      modifies this
      ensures Valid()
      ensures agents == if agentId in old(agents) then old(agents)[agentId := Reevaluated(old(agents)[agentId], novelContext)]
                        else old(agents)
      ensures contributionMatrix == old(contributionMatrix)
    {
      if agentId !in agents {
        return;
      }
      UpdatesKeepWellFormed(agents, agentId);
      var agent := agents[agentId];
      if novelContext {
        agent := agent.(utilityScore := agent.utilityScore + NoveltyReward);
      } else {
        agent := agent.(utilityScore := agent.utilityScore - RedundancyPenalty);
      }
      if agent.utilityScore < PruneBelow && |agent.neighbors| > 1 {
        agent := agent.(neighbors := agent.neighbors[..|agent.neighbors| - 1], utilityScore := UtilityAfterPrune);
      }
      agents := agents[agentId := agent];
    }

    /** UpdateRole: sets the role; an unknown id changes nothing. */
    method UpdateRole(id: string, role: AgentRole)
      requires Valid()
      modifies this
      ensures Valid()
      ensures agents == if id in old(agents) then old(agents)[id := old(agents)[id].(role := role)] else old(agents)
      ensures contributionMatrix == old(contributionMatrix)
    {
      if id in agents {
        UpdatesKeepWellFormed(agents, id);
        agents := agents[id := agents[id].(role := role)];
      }
    }
  }
}
