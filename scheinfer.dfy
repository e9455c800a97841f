/** The hardware-aware router (internal/controller/scheinfer.go): a static
    policy from a tensor size or a layer index to one of four execution labels. */
module Scheduling {

  import opened Wrappers
  import opened Text

  const CpuAvx2: string := "CPU_AVX2"
  const CpuAvx512: string := "CPU_AVX512"
  const GpuCuda: string := "GPU_CUDA"
  const GpuVulkan: string := "GPU_VULKAN"

  /** The four labels the router can answer with. */
  predicate IsLabel(r: string)
  {
    r == CpuAvx2 || r == CpuAvx512 || r == GpuCuda || r == GpuVulkan
  }

  /** The layers routed to the GPU when CUDA is present are those below this index. */
  const GpuLayerLimit: int := 16

  /** A hardware profile, fixed at construction. */
  datatype ScheInfer = ScheInfer(l3CacheSize: nat, hasCuda: bool, hasVulkan: bool, hasAvx512: bool, gpuName: string)

  /** NewScheInfer: CUDA needs compute capability 70 or more, Vulkan is the
      fallback for 60..69; neither without a GPU name, and never both. */
  function NewScheInfer(l3Size: nat, gpuName: string, computeCap: int, avx512: bool): (s: ScheInfer)
    ensures s.l3CacheSize == l3Size && s.gpuName == gpuName && s.hasAvx512 == avx512
    ensures s.hasCuda <==> gpuName != "" && computeCap >= 70
    ensures s.hasVulkan <==> gpuName != "" && 60 <= computeCap < 70
    ensures !(s.hasCuda && s.hasVulkan)
    ensures gpuName == "" ==> !s.hasCuda && !s.hasVulkan
  {
    ScheInfer(l3Size, gpuName != "" && computeCap >= 70, gpuName != "" && computeCap >= 60 && computeCap < 70, avx512, gpuName)
  }

  /** ScheInfer.RouteTask: a cache-resident size (strictly below the L3 size)
      always goes to AVX2; a larger one to the best tier present, in the order
      CUDA, Vulkan, AVX-512, AVX2. Each label is characterised both ways. */
  function RouteTask(s: ScheInfer, dataSizeBytes: nat): (r: string)
    ensures IsLabel(r)
    ensures dataSizeBytes < s.l3CacheSize ==> r == CpuAvx2
    ensures r == GpuCuda <==> dataSizeBytes >= s.l3CacheSize && s.hasCuda
    ensures r == GpuVulkan <==> dataSizeBytes >= s.l3CacheSize && !s.hasCuda && s.hasVulkan
    ensures r == CpuAvx512 <==> dataSizeBytes >= s.l3CacheSize && !s.hasCuda && !s.hasVulkan && s.hasAvx512
    ensures r == CpuAvx2 <==> dataSizeBytes < s.l3CacheSize || (!s.hasCuda && !s.hasVulkan && !s.hasAvx512)
  {
    if dataSizeBytes < s.l3CacheSize then CpuAvx2
    else if s.hasCuda then GpuCuda
    else if s.hasVulkan then GpuVulkan
    else if s.hasAvx512 then CpuAvx512
    else CpuAvx2
  }

  /** The route depends on the size only through the comparison with the L3 size. */
  lemma RouteTaskSizeClasses(s: ScheInfer, a: nat, b: nat)
    requires (a < s.l3CacheSize) == (b < s.l3CacheSize)
    ensures RouteTask(s, a) == RouteTask(s, b)
  {
  }

  /** ScheInfer.RouteLayer: layers below 16 go to CUDA when present; everything
      else to AVX2. Vulkan and AVX-512 are never chosen for a layer. */
  function RouteLayer(s: ScheInfer, layerId: int): (r: string)
    ensures r == GpuCuda || r == CpuAvx2
    ensures r == GpuCuda <==> layerId < GpuLayerLimit && s.hasCuda
  {
    if layerId < GpuLayerLimit && s.hasCuda then GpuCuda else CpuAvx2
  }

  /** The exported scheinfer_route_task: the global scheduler, when one was
      installed by InitializeGlobalScheduler, routes the task; without one the
      answer is AVX2. */
  function ScheinferRouteTask(globalScheduler: Option<ScheInfer>, dataSizeBytes: nat): (r: string)
    ensures IsLabel(r)
    ensures globalScheduler.None? ==> r == CpuAvx2
    ensures globalScheduler.Some? ==> r == RouteTask(globalScheduler.value, dataSizeBytes)
  {
    match globalScheduler
    case None => CpuAvx2
    case Some(s) => RouteTask(s, dataSizeBytes)
  }

  const CudaTag: string := " | GPU:CUDA(Ampere)"
  const Avx512Tag: string := " | CPU:AVX-512"

  /** ScheInfer.GetMeshCapability, with the CPU count `runtime.NumCPU()` as a
      parameter: "CPU:<n> cores", then the CUDA tag when CUDA is present, else
      the AVX-512 tag when AVX-512 is present, else nothing. */
  function GetMeshCapability(s: ScheInfer, numCpu: nat): (profile: string)
    ensures var head := "CPU:" + NatToString(numCpu) + " cores";
            && head <= profile
            && (s.hasCuda <==> profile == head + CudaTag)
            && (!s.hasCuda && s.hasAvx512 <==> profile == head + Avx512Tag)
            && (!s.hasCuda && !s.hasAvx512 <==> profile == head)
  {
    var head := "CPU:" + NatToString(numCpu) + " cores";
    if s.hasCuda then head + CudaTag
    else if s.hasAvx512 then head + Avx512Tag
    else head
  }

  /** The cases of the routing tests: a 16 MiB L3 cache, 1 MiB and 32 MiB tasks,
      an Ampere (86), a Pascal (61) and no GPU; and the layer partition test. */
  lemma RoutingExamples()
    ensures var mib := 1024 * 1024;
            var ampere := NewScheInfer(16 * mib, "NVIDIA GeForce RTX 3070 Laptop GPU", 86, false);
            var pascal := NewScheInfer(16 * mib, "NVIDIA GeForce GTX 1070", 61, false);
            && RouteTask(ampere, mib) == CpuAvx2
            && RouteTask(ampere, 32 * mib) == GpuCuda
            && RouteTask(pascal, mib) == CpuAvx2
            && RouteTask(pascal, 32 * mib) == GpuVulkan
            && RouteTask(NewScheInfer(16 * mib, "", 0, true), 32 * mib) == CpuAvx512
            && RouteTask(NewScheInfer(16 * mib, "", 0, false), 32 * mib) == CpuAvx2
            && RouteTask(ampere, 16 * mib) == GpuCuda
            && RouteLayer(ampere, 0) == GpuCuda && RouteLayer(ampere, 10) == GpuCuda
            && RouteLayer(ampere, 20) == CpuAvx2 && RouteLayer(ampere, 30) == CpuAvx2
  {
  }
}
