/** The synthesis step (internal/controller/synthesis.go): parallel agent
    outputs merged into one state string. */
module Synthesis {

  import opened Proto

  datatype SynthesisRequest = SynthesisRequest(agentIds: seq<string>, targetGoal: string, actionsToMerge: seq<AgentAction>)

  datatype SynthesisResponse = SynthesisResponse(synthesizedState: string, confidenceScore: real)

  const MergedPrefix: string := "Merged State: "
  const Confidence: real := 0.88

  /** One action's segment: "[<agent id>: <reasoning chain>] ". */
  function Segment(a: AgentAction): string
  {
    "[" + a.agentId + ": " + a.reasoningChain + "] "
  }

  /** The segments of `actions`, one per action, in order. */
  function Segments(actions: seq<AgentAction>): string
  {
    if actions == [] then ""
    else Segments(actions[..|actions| - 1]) + Segment(actions[|actions| - 1])
  }

  /** Merging two batches one after the other gives the concatenation of their
      segments. */
  lemma {:induction false} SegmentsAppend(a: seq<AgentAction>, b: seq<AgentAction>)
    ensures Segments(a + b) == Segments(a) + Segments(b)
    decreases |b|
  {
    if b == [] {
      assert a + b == a;
    } else {
      var b', x := b[..|b| - 1], b[|b| - 1];
      assert (a + b)[..|a + b| - 1] == a + b' && (a + b)[|a + b| - 1] == x;
      assert Segments(a + b) == Segments(a + b') + Segment(x);
      SegmentsAppend(a, b');
      assert Segments(b) == Segments(b') + Segment(x);
    }
  }

  /** SynthesisController.Synthesize: the fixed prefix followed by one segment
      per action, in input order, with confidence 0.88; the agent ids and the
      goal play no part. It never fails. */
  method Synthesize(req: SynthesisRequest) returns (resp: SynthesisResponse)
    ensures resp.synthesizedState == MergedPrefix + Segments(req.actionsToMerge)
    ensures MergedPrefix <= resp.synthesizedState
    ensures req.actionsToMerge == [] ==> resp.synthesizedState == MergedPrefix
    ensures resp.confidenceScore == Confidence
  {
    var actions := req.actionsToMerge;
    var synthesized := MergedPrefix;
    for i := 0 to |actions|
      invariant synthesized == MergedPrefix + Segments(actions[..i])
    {
      var action := actions[i];
      assert actions[..i + 1][..i] == actions[..i];
      synthesized := synthesized + "[" + action.agentId + ": " + action.reasoningChain + "] ";
    }
    assert actions[..|actions|] == actions;
    resp := SynthesisResponse(synthesized, Confidence);
  }
}
