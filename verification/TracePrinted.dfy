/** What a trace line says, field by field, under the names it is printed with. */
module TracePrinted {
  import opened Options
  import opened Numerals
  import opened TraceText
  import opened TraceFields

  /** Looking up this name in the printed line gives this text. */
  predicate Prints(t: LaunchTrace, w: Workload, name: string, text: string) {
    ParseTraceField(TraceLine(t, w), name) == Some(text)
  }

  lemma PrintsKey(t: LaunchTrace, w: Workload, k: Key, name: string, text: string)
    requires NoWhite(t.kernel) && Name(k) == name && ValueText(t, w, k) == text
    ensures Prints(t, w, name, text)
  {
    hide NoWhite, ParseTraceField, TraceLine, Name, ValueText;
    KeyRoundTrip(t, w, k);
  }

  lemma ShapeNames0()
    ensures Name(Kernel) == "kernel"
    ensures Name(RuntimeSequence) == "runtime_sequence"
    ensures Name(RuntimeHeadDim) == "runtime_head_dim"
  {
  }

  lemma ShapeTexts0(t: LaunchTrace, w: Workload)
    ensures ValueText(t, w, Kernel) == t.kernel
    ensures ValueText(t, w, RuntimeSequence) == Decimal(w.runtimeSequence)
    ensures ValueText(t, w, RuntimeHeadDim) == Decimal(w.runtimeHeadDim)
  {
    hide Decimal, TripletText, MismatchMask, FlagText, BackendText;
  }

  lemma ShapeNames1()
    ensures Name(QueryTile) == "query_tile"
    ensures Name(KeyTile) == "key_tile"
    ensures Name(CompiledSequence) == "compiled_sequence"
  {
  }

  lemma ShapeTexts1(t: LaunchTrace, w: Workload)
    ensures ValueText(t, w, QueryTile) == Decimal(w.queryTile)
    ensures ValueText(t, w, KeyTile) == Decimal(w.keyTile)
    ensures ValueText(t, w, CompiledSequence) == Decimal(w.compiledSequence)
  {
    hide Decimal, TripletText, MismatchMask, FlagText, BackendText;
  }

  lemma ShapeNames2()
    ensures Name(CompiledHeadDim) == "compiled_head_dim"
    ensures Name(HeadDimTile) == "head_dim_tile"
    ensures Name(LogicalMacs) == "logical_macs"
  {
  }

  lemma ShapeTexts2(t: LaunchTrace, w: Workload)
    ensures ValueText(t, w, CompiledHeadDim) == Decimal(w.compiledHeadDim)
    ensures ValueText(t, w, HeadDimTile) == Decimal(w.headDimTile)
    ensures ValueText(t, w, LogicalMacs) == Decimal(w.logicalMacs)
  {
    hide Decimal, TripletText, MismatchMask, FlagText, BackendText;
  }

  lemma ShapeNames3()
    ensures Name(LoweredMacs) == "lowered_macs"
    ensures Name(EstimatedGlobalBytesRead) == "estimated_" + "global_bytes_read"
    ensures Name(EstimatedGlobalBytesWritten) == "estimated_" + "global_bytes_written"
  {
  }

  lemma ShapeTexts3(t: LaunchTrace, w: Workload)
    ensures ValueText(t, w, LoweredMacs) == Decimal(w.loweredMacs)
    ensures ValueText(t, w, EstimatedGlobalBytesRead) == Decimal(w.estimatedGlobalBytesRead)
    ensures ValueText(t, w, EstimatedGlobalBytesWritten) == Decimal(w.estimatedGlobalBytesWritten)
  {
    hide Decimal, TripletText, MismatchMask, FlagText, BackendText;
  }

  lemma ShapeNames4()
    ensures Name(EstimatedLocalMemoryBytesPerWorkgroup) == "estimated_" + "local_memory_bytes_per_workgroup"
  {
  }

  lemma ShapeTexts4(t: LaunchTrace, w: Workload)
    ensures ValueText(t, w, EstimatedLocalMemoryBytesPerWorkgroup) == Decimal(w.estimatedLocalMemoryBytesPerWorkgroup)
  {
    hide Decimal, TripletText, MismatchMask, FlagText, BackendText;
  }

  /** The kernel, its shapes and tiles, and the static estimates. */
  lemma ShapePrinted(t: LaunchTrace, w: Workload)
    requires NoWhite(t.kernel)
    ensures Prints(t, w, "kernel", t.kernel)
    ensures Prints(t, w, "runtime_sequence", Decimal(w.runtimeSequence))
    ensures Prints(t, w, "runtime_head_dim", Decimal(w.runtimeHeadDim))
    ensures Prints(t, w, "query_tile", Decimal(w.queryTile))
    ensures Prints(t, w, "key_tile", Decimal(w.keyTile))
    ensures Prints(t, w, "compiled_sequence", Decimal(w.compiledSequence))
    ensures Prints(t, w, "compiled_head_dim", Decimal(w.compiledHeadDim))
    ensures Prints(t, w, "head_dim_tile", Decimal(w.headDimTile))
    ensures Prints(t, w, "logical_macs", Decimal(w.logicalMacs))
    ensures Prints(t, w, "lowered_macs", Decimal(w.loweredMacs))
    ensures Prints(t, w, "estimated_" + "global_bytes_read", Decimal(w.estimatedGlobalBytesRead))
    ensures Prints(t, w, "estimated_" + "global_bytes_written", Decimal(w.estimatedGlobalBytesWritten))
    ensures Prints(t, w, "estimated_" + "local_memory_bytes_per_workgroup", Decimal(w.estimatedLocalMemoryBytesPerWorkgroup))
  {
    hide NoWhite, Prints, Name, ValueText, Decimal, TripletText, MismatchMask, FlagText, BackendText;
    ShapeNames0();
    ShapeTexts0(t, w);
    ShapeNames1();
    ShapeTexts1(t, w);
    ShapeNames2();
    ShapeTexts2(t, w);
    ShapeNames3();
    ShapeTexts3(t, w);
    ShapeNames4();
    ShapeTexts4(t, w);
    PrintsKey(t, w, Kernel, "kernel", t.kernel);
    PrintsKey(t, w, RuntimeSequence, "runtime_sequence", Decimal(w.runtimeSequence));
    PrintsKey(t, w, RuntimeHeadDim, "runtime_head_dim", Decimal(w.runtimeHeadDim));
    PrintsKey(t, w, QueryTile, "query_tile", Decimal(w.queryTile));
    PrintsKey(t, w, KeyTile, "key_tile", Decimal(w.keyTile));
    PrintsKey(t, w, CompiledSequence, "compiled_sequence", Decimal(w.compiledSequence));
    PrintsKey(t, w, CompiledHeadDim, "compiled_head_dim", Decimal(w.compiledHeadDim));
    PrintsKey(t, w, HeadDimTile, "head_dim_tile", Decimal(w.headDimTile));
    PrintsKey(t, w, LogicalMacs, "logical_macs", Decimal(w.logicalMacs));
    PrintsKey(t, w, LoweredMacs, "lowered_macs", Decimal(w.loweredMacs));
    PrintsKey(t, w, EstimatedGlobalBytesRead, "estimated_" + "global_bytes_read", Decimal(w.estimatedGlobalBytesRead));
    PrintsKey(t, w, EstimatedGlobalBytesWritten, "estimated_" + "global_bytes_written", Decimal(w.estimatedGlobalBytesWritten));
    PrintsKey(t, w, EstimatedLocalMemoryBytesPerWorkgroup, "estimated_" + "local_memory_bytes_per_workgroup", Decimal(w.estimatedLocalMemoryBytesPerWorkgroup));
  }

  lemma RequestedNames0()
    ensures Name(RequestedTargetBackend) == "requested_target_" + "backend"
    ensures Name(RequestedTargetXlen) == "requested_target_" + "xlen"
    ensures Name(RequestedTargetMaxWorkgroupThreads) == "requested_target_" + "max_workgroup_threads"
  {
  }

  lemma RequestedTexts0(t: LaunchTrace, w: Workload)
    ensures ValueText(t, w, RequestedTargetBackend) == BackendText(w.requested.backend)
    ensures ValueText(t, w, RequestedTargetXlen) == Decimal(w.requested.xlen)
    ensures ValueText(t, w, RequestedTargetMaxWorkgroupThreads) == Decimal(w.requested.maxWorkgroupThreads)
  {
    hide Decimal, TripletText, MismatchMask, FlagText, BackendText;
  }

  lemma RequestedNames1()
    ensures Name(RequestedTargetPreferredSubgroupWidth) == "requested_target_" + "preferred_subgroup_width"
    ensures Name(RequestedTargetLocalMemoryBytes) == "requested_target_" + "local_memory_bytes"
    ensures Name(RequestedTargetSupportsInt8) == "requested_target_" + "supports_int8"
  {
  }

  lemma RequestedTexts1(t: LaunchTrace, w: Workload)
    ensures ValueText(t, w, RequestedTargetPreferredSubgroupWidth) == Decimal(w.requested.preferredSubgroupWidth)
    ensures ValueText(t, w, RequestedTargetLocalMemoryBytes) == Decimal(w.requested.localMemoryBytes)
    ensures ValueText(t, w, RequestedTargetSupportsInt8) == FlagText(w.requested.supportsInt8)
  {
    hide Decimal, TripletText, MismatchMask, FlagText, BackendText;
  }

  lemma RequestedNames2()
    ensures Name(RequestedTargetSupportsFloat32) == "requested_target_" + "supports_float32"
    ensures Name(RequestedTargetSupportsTensorCores) == "requested_target_" + "supports_tensor_cores"
    ensures Name(RequestedTargetSupportsAsyncCopy) == "requested_target_" + "supports_async_copy"
  {
  }

  lemma RequestedTexts2(t: LaunchTrace, w: Workload)
    ensures ValueText(t, w, RequestedTargetSupportsFloat32) == FlagText(w.requested.supportsFloat32)
    ensures ValueText(t, w, RequestedTargetSupportsTensorCores) == FlagText(w.requested.supportsTensorCores)
    ensures ValueText(t, w, RequestedTargetSupportsAsyncCopy) == FlagText(w.requested.supportsAsyncCopy)
  {
    hide Decimal, TripletText, MismatchMask, FlagText, BackendText;
  }

  /** The requested target. */
  lemma RequestedPrinted(t: LaunchTrace, w: Workload)
    requires NoWhite(t.kernel)
    ensures Prints(t, w, "requested_target_" + "backend", BackendText(w.requested.backend))
    ensures Prints(t, w, "requested_target_" + "xlen", Decimal(w.requested.xlen))
    ensures Prints(t, w, "requested_target_" + "max_workgroup_threads", Decimal(w.requested.maxWorkgroupThreads))
    ensures Prints(t, w, "requested_target_" + "preferred_subgroup_width", Decimal(w.requested.preferredSubgroupWidth))
    ensures Prints(t, w, "requested_target_" + "local_memory_bytes", Decimal(w.requested.localMemoryBytes))
    ensures Prints(t, w, "requested_target_" + "supports_int8", FlagText(w.requested.supportsInt8))
    ensures Prints(t, w, "requested_target_" + "supports_float32", FlagText(w.requested.supportsFloat32))
    ensures Prints(t, w, "requested_target_" + "supports_tensor_cores", FlagText(w.requested.supportsTensorCores))
    ensures Prints(t, w, "requested_target_" + "supports_async_copy", FlagText(w.requested.supportsAsyncCopy))
  {
    hide NoWhite, Prints, Name, ValueText, Decimal, TripletText, MismatchMask, FlagText, BackendText;
    RequestedNames0();
    RequestedTexts0(t, w);
    RequestedNames1();
    RequestedTexts1(t, w);
    RequestedNames2();
    RequestedTexts2(t, w);
    PrintsKey(t, w, RequestedTargetBackend, "requested_target_" + "backend", BackendText(w.requested.backend));
    PrintsKey(t, w, RequestedTargetXlen, "requested_target_" + "xlen", Decimal(w.requested.xlen));
    PrintsKey(t, w, RequestedTargetMaxWorkgroupThreads, "requested_target_" + "max_workgroup_threads", Decimal(w.requested.maxWorkgroupThreads));
    PrintsKey(t, w, RequestedTargetPreferredSubgroupWidth, "requested_target_" + "preferred_subgroup_width", Decimal(w.requested.preferredSubgroupWidth));
    PrintsKey(t, w, RequestedTargetLocalMemoryBytes, "requested_target_" + "local_memory_bytes", Decimal(w.requested.localMemoryBytes));
    PrintsKey(t, w, RequestedTargetSupportsInt8, "requested_target_" + "supports_int8", FlagText(w.requested.supportsInt8));
    PrintsKey(t, w, RequestedTargetSupportsFloat32, "requested_target_" + "supports_float32", FlagText(w.requested.supportsFloat32));
    PrintsKey(t, w, RequestedTargetSupportsTensorCores, "requested_target_" + "supports_tensor_cores", FlagText(w.requested.supportsTensorCores));
    PrintsKey(t, w, RequestedTargetSupportsAsyncCopy, "requested_target_" + "supports_async_copy", FlagText(w.requested.supportsAsyncCopy));
  }

  lemma ObservedNames0()
    ensures Name(ObservedTargetBackend) == "observed_target_" + "backend"
    ensures Name(ObservedTargetXlen) == "observed_target_" + "xlen"
    ensures Name(ObservedTargetPreferredSubgroupWidth) == "observed_target_" + "preferred_subgroup_width"
  {
  }

  lemma ObservedTexts0(t: LaunchTrace, w: Workload)
    ensures ValueText(t, w, ObservedTargetBackend) == BackendText(w.observed.backend)
    ensures ValueText(t, w, ObservedTargetXlen) == Decimal(w.observed.xlen)
    ensures ValueText(t, w, ObservedTargetPreferredSubgroupWidth) == Decimal(w.observed.preferredSubgroupWidth)
  {
    hide Decimal, TripletText, MismatchMask, FlagText, BackendText;
  }

  lemma ObservedNames1()
    ensures Name(ObservedTargetSupportsInt8) == "observed_target_" + "supports_int8"
    ensures Name(ObservedTargetSupportsFloat32) == "observed_target_" + "supports_float32"
    ensures Name(ObservedTargetSupportsTensorCores) == "observed_target_" + "supports_tensor_cores"
  {
  }

  lemma ObservedTexts1(t: LaunchTrace, w: Workload)
    ensures ValueText(t, w, ObservedTargetSupportsInt8) == FlagText(w.observed.supportsInt8)
    ensures ValueText(t, w, ObservedTargetSupportsFloat32) == FlagText(w.observed.supportsFloat32)
    ensures ValueText(t, w, ObservedTargetSupportsTensorCores) == FlagText(w.observed.supportsTensorCores)
  {
    hide Decimal, TripletText, MismatchMask, FlagText, BackendText;
  }

  lemma ObservedNames2()
    ensures Name(ObservedTargetSupportsAsyncCopy) == "observed_target_" + "supports_async_copy"
    ensures Name(TargetCompatible) == "target_compatible"
    ensures Name(TargetMismatchMask) == "target_mismatch_mask"
  {
  }

  lemma ObservedTexts2(t: LaunchTrace, w: Workload)
    ensures ValueText(t, w, ObservedTargetSupportsAsyncCopy) == FlagText(w.observed.supportsAsyncCopy)
    ensures ValueText(t, w, TargetCompatible) == FlagText(MismatchMask(w.requested, w.observed) == 0)
    ensures ValueText(t, w, TargetMismatchMask) == Decimal(MismatchMask(w.requested, w.observed))
  {
    hide Decimal, TripletText, MismatchMask, FlagText, BackendText;
  }

  lemma ObservedNames3()
    ensures Name(TargetThreadsPerWarp) == "target_threads_per_warp"
    ensures Name(TargetWarpsPerCore) == "target_warps_per_core"
    ensures Name(TargetMaxWorkgroupThreads) == "target_max_workgroup_threads"
  {
  }

  lemma ObservedTexts3(t: LaunchTrace, w: Workload)
    ensures ValueText(t, w, TargetThreadsPerWarp) == Decimal(w.caps.threadsPerWarp)
    ensures ValueText(t, w, TargetWarpsPerCore) == Decimal(w.caps.warpsPerCore)
    ensures ValueText(t, w, TargetMaxWorkgroupThreads) == Decimal(w.caps.threadsPerWarp * w.caps.warpsPerCore)
  {
    hide Decimal, TripletText, MismatchMask, FlagText, BackendText;
  }

  lemma ObservedNames4()
    ensures Name(TargetLocalMemoryBytes) == "target_local_memory_bytes"
  {
  }

  lemma ObservedTexts4(t: LaunchTrace, w: Workload)
    ensures ValueText(t, w, TargetLocalMemoryBytes) == Decimal(w.caps.localMemoryBytes)
  {
    hide Decimal, TripletText, MismatchMask, FlagText, BackendText;
  }

  /** The observed target and the device capabilities. */
  lemma ObservedPrinted(t: LaunchTrace, w: Workload)
    requires NoWhite(t.kernel)
    ensures Prints(t, w, "observed_target_" + "backend", BackendText(w.observed.backend))
    ensures Prints(t, w, "observed_target_" + "xlen", Decimal(w.observed.xlen))
    ensures Prints(t, w, "observed_target_" + "preferred_subgroup_width", Decimal(w.observed.preferredSubgroupWidth))
    ensures Prints(t, w, "observed_target_" + "supports_int8", FlagText(w.observed.supportsInt8))
    ensures Prints(t, w, "observed_target_" + "supports_float32", FlagText(w.observed.supportsFloat32))
    ensures Prints(t, w, "observed_target_" + "supports_tensor_cores", FlagText(w.observed.supportsTensorCores))
    ensures Prints(t, w, "observed_target_" + "supports_async_copy", FlagText(w.observed.supportsAsyncCopy))
    ensures Prints(t, w, "target_compatible", FlagText(MismatchMask(w.requested, w.observed) == 0))
    ensures Prints(t, w, "target_mismatch_mask", Decimal(MismatchMask(w.requested, w.observed)))
    ensures Prints(t, w, "target_threads_per_warp", Decimal(w.caps.threadsPerWarp))
    ensures Prints(t, w, "target_warps_per_core", Decimal(w.caps.warpsPerCore))
    ensures Prints(t, w, "target_max_workgroup_threads", Decimal(w.caps.threadsPerWarp * w.caps.warpsPerCore))
    ensures Prints(t, w, "target_local_memory_bytes", Decimal(w.caps.localMemoryBytes))
  {
    hide NoWhite, Prints, Name, ValueText, Decimal, TripletText, MismatchMask, FlagText, BackendText;
    ObservedNames0();
    ObservedTexts0(t, w);
    ObservedNames1();
    ObservedTexts1(t, w);
    ObservedNames2();
    ObservedTexts2(t, w);
    ObservedNames3();
    ObservedTexts3(t, w);
    ObservedNames4();
    ObservedTexts4(t, w);
    PrintsKey(t, w, ObservedTargetBackend, "observed_target_" + "backend", BackendText(w.observed.backend));
    PrintsKey(t, w, ObservedTargetXlen, "observed_target_" + "xlen", Decimal(w.observed.xlen));
    PrintsKey(t, w, ObservedTargetPreferredSubgroupWidth, "observed_target_" + "preferred_subgroup_width", Decimal(w.observed.preferredSubgroupWidth));
    PrintsKey(t, w, ObservedTargetSupportsInt8, "observed_target_" + "supports_int8", FlagText(w.observed.supportsInt8));
    PrintsKey(t, w, ObservedTargetSupportsFloat32, "observed_target_" + "supports_float32", FlagText(w.observed.supportsFloat32));
    PrintsKey(t, w, ObservedTargetSupportsTensorCores, "observed_target_" + "supports_tensor_cores", FlagText(w.observed.supportsTensorCores));
    PrintsKey(t, w, ObservedTargetSupportsAsyncCopy, "observed_target_" + "supports_async_copy", FlagText(w.observed.supportsAsyncCopy));
    PrintsKey(t, w, TargetCompatible, "target_compatible", FlagText(MismatchMask(w.requested, w.observed) == 0));
    PrintsKey(t, w, TargetMismatchMask, "target_mismatch_mask", Decimal(MismatchMask(w.requested, w.observed)));
    PrintsKey(t, w, TargetThreadsPerWarp, "target_threads_per_warp", Decimal(w.caps.threadsPerWarp));
    PrintsKey(t, w, TargetWarpsPerCore, "target_warps_per_core", Decimal(w.caps.warpsPerCore));
    PrintsKey(t, w, TargetMaxWorkgroupThreads, "target_max_workgroup_threads", Decimal(w.caps.threadsPerWarp * w.caps.warpsPerCore));
    PrintsKey(t, w, TargetLocalMemoryBytes, "target_local_memory_bytes", Decimal(w.caps.localMemoryBytes));
  }

  lemma RunNames0()
    ensures Name(WorkgroupCount) == "workgroup_count"
    ensures Name(ThreadsPerWorkgroup) == "threads_per_workgroup"
    ensures Name(TotalThreads) == "total_threads"
  {
  }

  lemma RunTexts0(t: LaunchTrace, w: Workload)
    ensures ValueText(t, w, WorkgroupCount) == Decimal(w.workgroupCount)
    ensures ValueText(t, w, ThreadsPerWorkgroup) == Decimal(w.threadsPerWorkgroup)
    ensures ValueText(t, w, TotalThreads) == Decimal(w.totalThreads)
  {
    hide Decimal, TripletText, MismatchMask, FlagText, BackendText;
  }

  lemma RunNames1()
    ensures Name(RuntimeQElements) == "runtime_q_elements"
    ensures Name(RuntimeKvElements) == "runtime_kv_elements"
    ensures Name(RuntimeOutputElements) == "runtime_output_elements"
  {
  }

  lemma RunTexts1(t: LaunchTrace, w: Workload)
    ensures ValueText(t, w, RuntimeQElements) == Decimal(w.runtimeQElements)
    ensures ValueText(t, w, RuntimeKvElements) == Decimal(w.runtimeKvElements)
    ensures ValueText(t, w, RuntimeOutputElements) == Decimal(w.runtimeOutputElements)
  {
    hide Decimal, TripletText, MismatchMask, FlagText, BackendText;
  }

  lemma RunNames2()
    ensures Name(RuntimeQBytes) == "runtime_q_bytes"
    ensures Name(RuntimeKvBytes) == "runtime_kv_bytes"
    ensures Name(RuntimeOutputBytes) == "runtime_output_bytes"
  {
  }

  lemma RunTexts2(t: LaunchTrace, w: Workload)
    ensures ValueText(t, w, RuntimeQBytes) == Decimal(w.runtimeQBytes)
    ensures ValueText(t, w, RuntimeKvBytes) == Decimal(w.runtimeKvBytes)
    ensures ValueText(t, w, RuntimeOutputBytes) == Decimal(w.runtimeOutputBytes)
  {
    hide Decimal, TripletText, MismatchMask, FlagText, BackendText;
  }

  /** The work and the buffers of the run. */
  lemma RunPrinted(t: LaunchTrace, w: Workload)
    requires NoWhite(t.kernel)
    ensures Prints(t, w, "workgroup_count", Decimal(w.workgroupCount))
    ensures Prints(t, w, "threads_per_workgroup", Decimal(w.threadsPerWorkgroup))
    ensures Prints(t, w, "total_threads", Decimal(w.totalThreads))
    ensures Prints(t, w, "runtime_q_elements", Decimal(w.runtimeQElements))
    ensures Prints(t, w, "runtime_kv_elements", Decimal(w.runtimeKvElements))
    ensures Prints(t, w, "runtime_output_elements", Decimal(w.runtimeOutputElements))
    ensures Prints(t, w, "runtime_q_bytes", Decimal(w.runtimeQBytes))
    ensures Prints(t, w, "runtime_kv_bytes", Decimal(w.runtimeKvBytes))
    ensures Prints(t, w, "runtime_output_bytes", Decimal(w.runtimeOutputBytes))
  {
    hide NoWhite, Prints, Name, ValueText, Decimal, TripletText, MismatchMask, FlagText, BackendText;
    RunNames0();
    RunTexts0(t, w);
    RunNames1();
    RunTexts1(t, w);
    RunNames2();
    RunTexts2(t, w);
    PrintsKey(t, w, WorkgroupCount, "workgroup_count", Decimal(w.workgroupCount));
    PrintsKey(t, w, ThreadsPerWorkgroup, "threads_per_workgroup", Decimal(w.threadsPerWorkgroup));
    PrintsKey(t, w, TotalThreads, "total_threads", Decimal(w.totalThreads));
    PrintsKey(t, w, RuntimeQElements, "runtime_q_elements", Decimal(w.runtimeQElements));
    PrintsKey(t, w, RuntimeKvElements, "runtime_kv_elements", Decimal(w.runtimeKvElements));
    PrintsKey(t, w, RuntimeOutputElements, "runtime_output_elements", Decimal(w.runtimeOutputElements));
    PrintsKey(t, w, RuntimeQBytes, "runtime_q_bytes", Decimal(w.runtimeQBytes));
    PrintsKey(t, w, RuntimeKvBytes, "runtime_kv_bytes", Decimal(w.runtimeKvBytes));
    PrintsKey(t, w, RuntimeOutputBytes, "runtime_output_bytes", Decimal(w.runtimeOutputBytes));
  }

  lemma LaunchNames0()
    ensures Name(ModuleCacheHit) == "module_cache_hit"
    ensures Name(KernelCacheHit) == "kernel_cache_hit"
    ensures Name(Grid) == "grid"
  {
  }

  lemma LaunchTexts0(t: LaunchTrace, w: Workload)
    ensures ValueText(t, w, ModuleCacheHit) == FlagText(t.moduleCacheHit)
    ensures ValueText(t, w, KernelCacheHit) == FlagText(t.kernelCacheHit)
    ensures ValueText(t, w, Grid) == TripletText(t.grid)
  {
    hide Decimal, TripletText, MismatchMask, FlagText, BackendText;
  }

  lemma LaunchNames1()
    ensures Name(Block) == "block"
    ensures Name(SharedMemoryBytes) == "shared_memory_bytes"
    ensures Name(HostToDeviceBytes) == "host_to_device_bytes"
  {
  }

  lemma LaunchTexts1(t: LaunchTrace, w: Workload)
    ensures ValueText(t, w, Block) == TripletText(t.block)
    ensures ValueText(t, w, SharedMemoryBytes) == Decimal(t.sharedMemoryBytes)
    ensures ValueText(t, w, HostToDeviceBytes) == Decimal(t.hostToDeviceBytes)
  {
    hide Decimal, TripletText, MismatchMask, FlagText, BackendText;
  }

  lemma LaunchNames2()
    ensures Name(DeviceToHostBytes) == "device_to_host_bytes"
  {
  }

  lemma LaunchTexts2(t: LaunchTrace, w: Workload)
    ensures ValueText(t, w, DeviceToHostBytes) == Decimal(t.deviceToHostBytes)
  {
    hide Decimal, TripletText, MismatchMask, FlagText, BackendText;
  }

  /** The launch itself. */
  lemma LaunchPrinted(t: LaunchTrace, w: Workload)
    requires NoWhite(t.kernel)
    ensures Prints(t, w, "module_cache_hit", FlagText(t.moduleCacheHit))
    ensures Prints(t, w, "kernel_cache_hit", FlagText(t.kernelCacheHit))
    ensures Prints(t, w, "grid", TripletText(t.grid))
    ensures Prints(t, w, "block", TripletText(t.block))
    ensures Prints(t, w, "shared_memory_bytes", Decimal(t.sharedMemoryBytes))
    ensures Prints(t, w, "host_to_device_bytes", Decimal(t.hostToDeviceBytes))
    ensures Prints(t, w, "device_to_host_bytes", Decimal(t.deviceToHostBytes))
  {
    hide NoWhite, Prints, Name, ValueText, Decimal, TripletText, MismatchMask, FlagText, BackendText;
    LaunchNames0();
    LaunchTexts0(t, w);
    LaunchNames1();
    LaunchTexts1(t, w);
    LaunchNames2();
    LaunchTexts2(t, w);
    PrintsKey(t, w, ModuleCacheHit, "module_cache_hit", FlagText(t.moduleCacheHit));
    PrintsKey(t, w, KernelCacheHit, "kernel_cache_hit", FlagText(t.kernelCacheHit));
    PrintsKey(t, w, Grid, "grid", TripletText(t.grid));
    PrintsKey(t, w, Block, "block", TripletText(t.block));
    PrintsKey(t, w, SharedMemoryBytes, "shared_memory_bytes", Decimal(t.sharedMemoryBytes));
    PrintsKey(t, w, HostToDeviceBytes, "host_to_device_bytes", Decimal(t.hostToDeviceBytes));
    PrintsKey(t, w, DeviceToHostBytes, "device_to_host_bytes", Decimal(t.deviceToHostBytes));
  }
}
