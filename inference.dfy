/** The simulated inference path (internal/controller/inference.go): a request is
    sized, routed, and answered after a delay that depends on the route, unless
    the caller's context is done first. */
module Inference {

  import opened Wrappers
  import opened Proto
  import opened Text
  import opened Scheduling

  datatype InferenceRequest = InferenceRequest(agentId: string, prompt: string, expectedKvCacheBytes: nat)

  datatype InferenceResponse = InferenceResponse(
    text: string, tokensUsed: uint32, hardwarePath: string,
    latencyMs: nat, throughputGbs: real, avx512Usage: bool)

  /** Why a context is done: Go's context.Canceled or context.DeadlineExceeded. */
  datatype ContextError = Canceled | DeadlineExceeded

  /** The size used for routing: the expected KV-cache size when one is given,
      else the prompt's length in bytes. */
  function DataSize(req: InferenceRequest): (n: nat)
    ensures req.expectedKvCacheBytes > 0 ==> n == req.expectedKvCacheBytes
    ensures req.expectedKvCacheBytes == 0 ==> n == Utf8Length(req.prompt)
  {
    if req.expectedKvCacheBytes > 0 then req.expectedKvCacheBytes else Utf8Length(req.prompt)
  }

  /** What a route costs in the simulation: its delay, its nominal throughput and
      whether it uses AVX-512. */
  datatype PathProfile = PathProfile(delayMs: nat, throughputGbs: real, avx512: bool)

  function ProfileOf(path: string): (p: PathProfile)
    ensures p.avx512 <==> path == CpuAvx512
    ensures path == CpuAvx512 ==> p == PathProfile(35, 12.5, true)
    ensures path == GpuCuda || path == GpuVulkan ==> p == PathProfile(120, 25.0, false)
    ensures path != CpuAvx512 && path != GpuCuda && path != GpuVulkan ==> p == PathProfile(50, 8.2, false)
  {
    if path == CpuAvx512 then PathProfile(35, 12.5, true)
    else if path == GpuCuda || path == GpuVulkan then PathProfile(120, 25.0, false)
    else PathProfile(50, 8.2, false)
  }

  const TextHead: string := "[Hardware: "
  const TextMiddle: string := "] Simulated response for: "

  function SimulatedText(path: string, prompt: string): string
  {
    TextHead + path + TextMiddle + prompt
  }

  /** The simulated text is 37 bytes of framing, the route label and the prompt. */
  lemma SimulatedTextLength(path: string, prompt: string)
    requires IsLabel(path)
    ensures Utf8Length(SimulatedText(path, prompt)) == 37 + |path| + Utf8Length(prompt)
  {
    var head := TextHead + path + TextMiddle;
    assert forall k :: 0 <= k < |head| ==> (head[k] as int) < 0x80;
    Utf8LengthAscii(head);
    Utf8LengthAppend(head, prompt);
  }

  /** InferenceController.Generate. `contextDoneFirst` says whether the caller's
      context was done before the simulated delay elapsed (the `select` race),
      and why; `overheadMs` is the wall-clock time measured beyond that delay.
      A done context yields its error and no response. Otherwise the route is
      the scheduler's RouteTask of the data size, AVX-512 is reported exactly
      when that route is the AVX-512 tier (a CPU without GPU and a size beyond
      L3), and the measured latency is at least the route's delay. */
  method Generate(scheduler: ScheInfer, req: InferenceRequest, contextDoneFirst: Option<ContextError>, overheadMs: nat)
    returns (r: Result<InferenceResponse, ContextError>)
    ensures contextDoneFirst.Some? ==> r == Err(contextDoneFirst.value)
    ensures contextDoneFirst.None? ==> r.Ok?
    ensures r.Ok? ==>
      var resp := r.value;
      var profile := ProfileOf(resp.hardwarePath);
      && resp.hardwarePath == RouteTask(scheduler, DataSize(req))
      && resp.text == SimulatedText(resp.hardwarePath, req.prompt)
      && resp.tokensUsed == ToUint32(Utf8Length(resp.text) / 4)
      && resp.throughputGbs == profile.throughputGbs
      && resp.latencyMs == profile.delayMs + overheadMs
      && (resp.avx512Usage <==> resp.hardwarePath == CpuAvx512)
      && (resp.avx512Usage <==> DataSize(req) >= scheduler.l3CacheSize && !scheduler.hasCuda
                                && !scheduler.hasVulkan && scheduler.hasAvx512)
      && (DataSize(req) >= scheduler.l3CacheSize && (scheduler.hasCuda || scheduler.hasVulkan) ==> resp.latencyMs >= 120)
  {
    var dataSize := Utf8Length(req.prompt);
    if req.expectedKvCacheBytes > 0 {
      dataSize := req.expectedKvCacheBytes;
    }
    var hardwarePath := RouteTask(scheduler, dataSize);
    var simulatedText := TextHead + hardwarePath + TextMiddle + req.prompt;

    var latency := 50;
    var throughput := 8.2;
    var avx512Used := false;
    if hardwarePath == CpuAvx512 {
      latency := 35;
      throughput := 12.5;
      avx512Used := true;
    } else if hardwarePath == GpuCuda || hardwarePath == GpuVulkan {
      latency := 120;
      throughput := 25.0;
    }

    if contextDoneFirst.Some? {
      return Err(contextDoneFirst.value);
    }
    r := Ok(InferenceResponse(simulatedText, ToUint32(Utf8Length(simulatedText) / 4), hardwarePath,
                              latency + overheadMs, throughput, avx512Used));
  }
}
