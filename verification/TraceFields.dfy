/** The runtime trace record as it is printed (crates/xtask/src/attention/metrics.rs): its fields, their names,
    and each field found again by its name. */
module TraceFields {
  import opened Options
  import opened Numerals
  import opened TraceText

  const U16: nat := 0x1_0000
  const U32: nat := 0x1_0000_0000
  const U64: nat := 0x1_0000_0000_0000_0000

  // ----- what is printed -----

  datatype Backend = HostReference | VortexRtl | VortexFpga

  /** A target without its display name. */
  datatype Target = Target(backend: Backend, xlen: nat, maxWorkgroupThreads: nat, preferredSubgroupWidth: nat,
                           localMemoryBytes: nat, supportsInt8: bool, supportsFloat32: bool, supportsTensorCores: bool,
                           supportsAsyncCopy: bool)

  datatype Caps = Caps(threadsPerWarp: nat, warpsPerCore: nat, localMemoryBytes: nat) {
    function MaxWorkgroupThreads(): nat { threadsPerWarp * warpsPerCore }
  }

  datatype LaunchTrace = LaunchTrace(kernel: string, grid: Dim3, block: Dim3, sharedMemoryBytes: nat, hostToDeviceBytes: nat,
                                     deviceToHostBytes: nat, moduleCacheHit: bool, kernelCacheHit: bool)

  datatype Workload = Workload(
    runtimeSequence: nat, runtimeHeadDim: nat, queryTile: nat, keyTile: nat, compiledSequence: nat,
    compiledHeadDim: nat, headDimTile: nat, logicalMacs: nat, loweredMacs: nat, estimatedGlobalBytesRead: nat,
    estimatedGlobalBytesWritten: nat, estimatedLocalMemoryBytesPerWorkgroup: nat, workgroupCount: nat,
    threadsPerWorkgroup: nat, totalThreads: nat, runtimeQElements: nat, runtimeKvElements: nat,
    runtimeOutputElements: nat, runtimeQBytes: nat, runtimeKvBytes: nat, runtimeOutputBytes: nat, requested: Target,
    observed: Target, caps: Caps)

  /** One bit for each capability in which two targets differ. */
  function MismatchMask(a: Target, b: Target): (mask: nat)
    ensures mask < 512 && (mask == 0 <==> a == b)
  {
    (if a.backend != b.backend then 1 else 0) + (if a.xlen != b.xlen then 2 else 0)
    + (if a.maxWorkgroupThreads != b.maxWorkgroupThreads then 4 else 0)
    + (if a.preferredSubgroupWidth != b.preferredSubgroupWidth then 8 else 0)
    + (if a.localMemoryBytes != b.localMemoryBytes then 16 else 0) + (if a.supportsInt8 != b.supportsInt8 then 32 else 0)
    + (if a.supportsFloat32 != b.supportsFloat32 then 64 else 0)
    + (if a.supportsTensorCores != b.supportsTensorCores then 128 else 0)
    + (if a.supportsAsyncCopy != b.supportsAsyncCopy then 256 else 0)
  }

  /** The keys of a trace line, and the order they are printed in. */
  datatype Key =
    | Kernel | RuntimeSequence | RuntimeHeadDim | QueryTile | KeyTile | CompiledSequence | CompiledHeadDim
    | HeadDimTile | LogicalMacs | LoweredMacs | EstimatedGlobalBytesRead | EstimatedGlobalBytesWritten
    | EstimatedLocalMemoryBytesPerWorkgroup | RequestedTargetBackend | RequestedTargetXlen
    | RequestedTargetMaxWorkgroupThreads | RequestedTargetPreferredSubgroupWidth | RequestedTargetLocalMemoryBytes
    | RequestedTargetSupportsInt8 | RequestedTargetSupportsFloat32 | RequestedTargetSupportsTensorCores
    | RequestedTargetSupportsAsyncCopy | ObservedTargetBackend | ObservedTargetXlen
    | ObservedTargetPreferredSubgroupWidth | ObservedTargetSupportsInt8 | ObservedTargetSupportsFloat32
    | ObservedTargetSupportsTensorCores | ObservedTargetSupportsAsyncCopy | TargetCompatible | TargetMismatchMask
    | TargetThreadsPerWarp | TargetWarpsPerCore | TargetMaxWorkgroupThreads | TargetLocalMemoryBytes | WorkgroupCount
    | ThreadsPerWorkgroup | TotalThreads | RuntimeQElements | RuntimeKvElements | RuntimeOutputElements
    | RuntimeQBytes | RuntimeKvBytes | RuntimeOutputBytes | ModuleCacheHit | KernelCacheHit | Grid | Block
    | SharedMemoryBytes | HostToDeviceBytes | DeviceToHostBytes

  const COUNT: nat := 51

  function KeyAt(n: nat): Key
    requires n < COUNT
  {
    match n
    case 0 => Kernel case 1 => RuntimeSequence case 2 => RuntimeHeadDim case 3 => QueryTile case 4 => KeyTile
    case 5 => CompiledSequence case 6 => CompiledHeadDim case 7 => HeadDimTile case 8 => LogicalMacs
    case 9 => LoweredMacs case 10 => EstimatedGlobalBytesRead case 11 => EstimatedGlobalBytesWritten
    case 12 => EstimatedLocalMemoryBytesPerWorkgroup case 13 => RequestedTargetBackend case 14 => RequestedTargetXlen
    case 15 => RequestedTargetMaxWorkgroupThreads case 16 => RequestedTargetPreferredSubgroupWidth
    case 17 => RequestedTargetLocalMemoryBytes case 18 => RequestedTargetSupportsInt8
    case 19 => RequestedTargetSupportsFloat32 case 20 => RequestedTargetSupportsTensorCores
    case 21 => RequestedTargetSupportsAsyncCopy case 22 => ObservedTargetBackend case 23 => ObservedTargetXlen
    case 24 => ObservedTargetPreferredSubgroupWidth case 25 => ObservedTargetSupportsInt8
    case 26 => ObservedTargetSupportsFloat32 case 27 => ObservedTargetSupportsTensorCores
    case 28 => ObservedTargetSupportsAsyncCopy case 29 => TargetCompatible case 30 => TargetMismatchMask
    case 31 => TargetThreadsPerWarp case 32 => TargetWarpsPerCore case 33 => TargetMaxWorkgroupThreads
    case 34 => TargetLocalMemoryBytes case 35 => WorkgroupCount case 36 => ThreadsPerWorkgroup case 37 => TotalThreads
    case 38 => RuntimeQElements case 39 => RuntimeKvElements case 40 => RuntimeOutputElements case 41 => RuntimeQBytes
    case 42 => RuntimeKvBytes case 43 => RuntimeOutputBytes case 44 => ModuleCacheHit case 45 => KernelCacheHit
    case 46 => Grid case 47 => Block case 48 => SharedMemoryBytes case 49 => HostToDeviceBytes
    case _ => DeviceToHostBytes
  }

  function ShapeName(k: Key): string {
    match k
    case Kernel => "kernel" case RuntimeSequence => "runtime_sequence" case RuntimeHeadDim => "runtime_head_dim"
    case QueryTile => "query_tile" case KeyTile => "key_tile" case CompiledSequence => "compiled_sequence"
    case CompiledHeadDim => "compiled_head_dim" case HeadDimTile => "head_dim_tile" case LogicalMacs => "logical_macs"
    case LoweredMacs => "lowered_macs"
    case _ => ""
  }

  function EstimatedQuantity(k: Key): string {
    match k
    case EstimatedGlobalBytesRead => "global_bytes_read"
    case EstimatedGlobalBytesWritten => "global_bytes_written"
    case EstimatedLocalMemoryBytesPerWorkgroup => "local_memory_bytes_per_workgroup"
    case _ => ""
  }

  function EstimateName(k: Key): string { "estimated_" + EstimatedQuantity(k) }

  /** The capabilities of the requested and of the observed target share their names after a prefix. */
  function CapabilityName(k: Key): string {
    match k
    case RequestedTargetBackend | ObservedTargetBackend => "backend"
    case RequestedTargetXlen | ObservedTargetXlen => "xlen"
    case RequestedTargetMaxWorkgroupThreads => "max_workgroup_threads"
    case RequestedTargetPreferredSubgroupWidth | ObservedTargetPreferredSubgroupWidth => "preferred_subgroup_width"
    case RequestedTargetLocalMemoryBytes => "local_memory_bytes"
    case RequestedTargetSupportsInt8 | ObservedTargetSupportsInt8 => "supports_int8"
    case RequestedTargetSupportsFloat32 | ObservedTargetSupportsFloat32 => "supports_float32"
    case RequestedTargetSupportsTensorCores | ObservedTargetSupportsTensorCores => "supports_tensor_cores"
    case RequestedTargetSupportsAsyncCopy | ObservedTargetSupportsAsyncCopy => "supports_async_copy"
    case _ => ""
  }

  function RequestedName(k: Key): string { "requested_target_" + CapabilityName(k) }

  function ObservedName(k: Key): string { "observed_target_" + CapabilityName(k) }

  function TargetName(k: Key): string {
    match k
    case TargetCompatible => "target_compatible" case TargetMismatchMask => "target_mismatch_mask"
    case TargetThreadsPerWarp => "target_threads_per_warp" case TargetWarpsPerCore => "target_warps_per_core"
    case TargetMaxWorkgroupThreads => "target_max_workgroup_threads"
    case TargetLocalMemoryBytes => "target_local_memory_bytes"
    case _ => ""
  }

  function RunName(k: Key): string {
    match k
    case WorkgroupCount => "workgroup_count" case ThreadsPerWorkgroup => "threads_per_workgroup"
    case TotalThreads => "total_threads" case RuntimeQElements => "runtime_q_elements"
    case RuntimeKvElements => "runtime_kv_elements" case RuntimeOutputElements => "runtime_output_elements"
    case RuntimeQBytes => "runtime_q_bytes" case RuntimeKvBytes => "runtime_kv_bytes"
    case RuntimeOutputBytes => "runtime_output_bytes"
    case _ => ""
  }

  function LaunchName(k: Key): string {
    match k
    case ModuleCacheHit => "module_cache_hit" case KernelCacheHit => "kernel_cache_hit" case Grid => "grid"
    case Block => "block" case SharedMemoryBytes => "shared_memory_bytes"
    case HostToDeviceBytes => "host_to_device_bytes" case DeviceToHostBytes => "device_to_host_bytes"
    case _ => ""
  }

  function Name(k: Key): string {
    var p := Position(k);
    if p < 10 then ShapeName(k)
    else if p < 13 then EstimateName(k)
    else if p < 22 then RequestedName(k)
    else if p < 29 then ObservedName(k)
    else if p < 35 then TargetName(k)
    else if p < 44 then RunName(k)
    else LaunchName(k)
  }

  /** The type of a numeric field, as its number of values; no type for the other fields. */
  function Limit(k: Key): Option<nat> {
    match k
    case TargetMismatchMask => Some(U16)
    case RuntimeSequence => Some(U32) case RuntimeHeadDim => Some(U32) case QueryTile => Some(U32)
    case KeyTile => Some(U32) case CompiledSequence => Some(U32) case CompiledHeadDim => Some(U32)
    case HeadDimTile => Some(U32) case RequestedTargetXlen => Some(U32)
    case RequestedTargetMaxWorkgroupThreads => Some(U32) case RequestedTargetPreferredSubgroupWidth => Some(U32)
    case RequestedTargetLocalMemoryBytes => Some(U32) case ObservedTargetXlen => Some(U32)
    case ObservedTargetPreferredSubgroupWidth => Some(U32) case SharedMemoryBytes => Some(U32)
    case Kernel => None case RequestedTargetBackend => None case RequestedTargetSupportsInt8 => None
    case RequestedTargetSupportsFloat32 => None case RequestedTargetSupportsTensorCores => None
    case RequestedTargetSupportsAsyncCopy => None case ObservedTargetBackend => None
    case ObservedTargetSupportsInt8 => None case ObservedTargetSupportsFloat32 => None
    case ObservedTargetSupportsTensorCores => None case ObservedTargetSupportsAsyncCopy => None
    case TargetCompatible => None case ModuleCacheHit => None case KernelCacheHit => None case Grid => None
    case Block => None
    case _ => Some(U64)
  }

  function Number(t: LaunchTrace, w: Workload, k: Key): nat {
    match k
    case RuntimeSequence => w.runtimeSequence case RuntimeHeadDim => w.runtimeHeadDim case QueryTile => w.queryTile
    case KeyTile => w.keyTile case CompiledSequence => w.compiledSequence case CompiledHeadDim => w.compiledHeadDim
    case HeadDimTile => w.headDimTile case LogicalMacs => w.logicalMacs case LoweredMacs => w.loweredMacs
    case EstimatedGlobalBytesRead => w.estimatedGlobalBytesRead
    case EstimatedGlobalBytesWritten => w.estimatedGlobalBytesWritten
    case EstimatedLocalMemoryBytesPerWorkgroup => w.estimatedLocalMemoryBytesPerWorkgroup
    case RequestedTargetXlen => w.requested.xlen
    case RequestedTargetMaxWorkgroupThreads => w.requested.maxWorkgroupThreads
    case RequestedTargetPreferredSubgroupWidth => w.requested.preferredSubgroupWidth
    case RequestedTargetLocalMemoryBytes => w.requested.localMemoryBytes case ObservedTargetXlen => w.observed.xlen
    case ObservedTargetPreferredSubgroupWidth => w.observed.preferredSubgroupWidth
    case TargetMismatchMask => MismatchMask(w.requested, w.observed)
    case TargetThreadsPerWarp => w.caps.threadsPerWarp case TargetWarpsPerCore => w.caps.warpsPerCore
    case TargetMaxWorkgroupThreads => w.caps.MaxWorkgroupThreads()
    case TargetLocalMemoryBytes => w.caps.localMemoryBytes case WorkgroupCount => w.workgroupCount
    case ThreadsPerWorkgroup => w.threadsPerWorkgroup case TotalThreads => w.totalThreads
    case RuntimeQElements => w.runtimeQElements case RuntimeKvElements => w.runtimeKvElements
    case RuntimeOutputElements => w.runtimeOutputElements case RuntimeQBytes => w.runtimeQBytes
    case RuntimeKvBytes => w.runtimeKvBytes case RuntimeOutputBytes => w.runtimeOutputBytes
    case SharedMemoryBytes => t.sharedMemoryBytes case HostToDeviceBytes => t.hostToDeviceBytes
    case DeviceToHostBytes => t.deviceToHostBytes
    case _ => 0
  }

  function Flag(t: LaunchTrace, w: Workload, k: Key): Option<bool> {
    match k
    case RequestedTargetSupportsInt8 => Some(w.requested.supportsInt8)
    case RequestedTargetSupportsFloat32 => Some(w.requested.supportsFloat32)
    case RequestedTargetSupportsTensorCores => Some(w.requested.supportsTensorCores)
    case RequestedTargetSupportsAsyncCopy => Some(w.requested.supportsAsyncCopy)
    case ObservedTargetSupportsInt8 => Some(w.observed.supportsInt8)
    case ObservedTargetSupportsFloat32 => Some(w.observed.supportsFloat32)
    case ObservedTargetSupportsTensorCores => Some(w.observed.supportsTensorCores)
    case ObservedTargetSupportsAsyncCopy => Some(w.observed.supportsAsyncCopy)
    case TargetCompatible => Some(MismatchMask(w.requested, w.observed) == 0)
    case ModuleCacheHit => Some(t.moduleCacheHit) case KernelCacheHit => Some(t.kernelCacheHit)
    case _ => None
  }

  function BackendOf(w: Workload, k: Key): Option<Backend> {
    match k
    case RequestedTargetBackend => Some(w.requested.backend)
    case ObservedTargetBackend => Some(w.observed.backend)
    case _ => None
  }

  function FlagText(b: bool): string { if b then "true" else "false" }

  function BackendText(b: Backend): string {
    match b case HostReference => "host_reference" case VortexRtl => "vortex_rtl" case VortexFpga => "vortex_fpga"
  }

  function ValueText(t: LaunchTrace, w: Workload, k: Key): string {
    if Limit(k).Some? then Decimal(Number(t, w, k))
    else if Flag(t, w, k).Some? then FlagText(Flag(t, w, k).value)
    else if BackendOf(w, k).Some? then BackendText(BackendOf(w, k).value)
    else match k
      case Grid => TripletText(t.grid)
      case Block => TripletText(t.block)
      case _ => t.kernel
  }

  function Fields(t: LaunchTrace, w: Workload): (fields: seq<Field>)
    ensures |fields| == COUNT
    ensures forall i :: 0 <= i < COUNT ==> fields[i] == Field(Name(KeyAt(i)), ValueText(t, w, KeyAt(i)))
  {
    seq(COUNT, i requires 0 <= i < COUNT => Field(Name(KeyAt(i)), ValueText(t, w, KeyAt(i))))
  }

  /** `format_mandrel_runtime_trace_line`. */
  function TraceLine(t: LaunchTrace, w: Workload): string { Line(Fields(t, w)) }

  // ----- the names -----

  function Position(k: Key): nat {
    match k
    case Kernel => 0 case RuntimeSequence => 1 case RuntimeHeadDim => 2 case QueryTile => 3 case KeyTile => 4
    case CompiledSequence => 5 case CompiledHeadDim => 6 case HeadDimTile => 7 case LogicalMacs => 8
    case LoweredMacs => 9 case EstimatedGlobalBytesRead => 10 case EstimatedGlobalBytesWritten => 11
    case EstimatedLocalMemoryBytesPerWorkgroup => 12 case RequestedTargetBackend => 13 case RequestedTargetXlen => 14
    case RequestedTargetMaxWorkgroupThreads => 15 case RequestedTargetPreferredSubgroupWidth => 16
    case RequestedTargetLocalMemoryBytes => 17 case RequestedTargetSupportsInt8 => 18
    case RequestedTargetSupportsFloat32 => 19 case RequestedTargetSupportsTensorCores => 20
    case RequestedTargetSupportsAsyncCopy => 21 case ObservedTargetBackend => 22 case ObservedTargetXlen => 23
    case ObservedTargetPreferredSubgroupWidth => 24 case ObservedTargetSupportsInt8 => 25
    case ObservedTargetSupportsFloat32 => 26 case ObservedTargetSupportsTensorCores => 27
    case ObservedTargetSupportsAsyncCopy => 28 case TargetCompatible => 29 case TargetMismatchMask => 30
    case TargetThreadsPerWarp => 31 case TargetWarpsPerCore => 32 case TargetMaxWorkgroupThreads => 33
    case TargetLocalMemoryBytes => 34 case WorkgroupCount => 35 case ThreadsPerWorkgroup => 36 case TotalThreads => 37
    case RuntimeQElements => 38 case RuntimeKvElements => 39 case RuntimeOutputElements => 40 case RuntimeQBytes => 41
    case RuntimeKvBytes => 42 case RuntimeOutputBytes => 43 case ModuleCacheHit => 44 case KernelCacheHit => 45
    case Grid => 46 case Block => 47 case SharedMemoryBytes => 48 case HostToDeviceBytes => 49
    case DeviceToHostBytes => 50
  }

  lemma ListedLow(k: Key)
    requires Position(k) < 26
    ensures KeyAt(Position(k)) == k
  {
  }

  lemma ListedHigh(k: Key)
    requires 26 <= Position(k)
    ensures Position(k) < COUNT && KeyAt(Position(k)) == k
  {
  }

  lemma Listed(k: Key)
    ensures Position(k) < COUNT && KeyAt(Position(k)) == k
  {
    hide Position, KeyAt;
    if Position(k) < 26 {
      ListedLow(k);
    } else {
      ListedHigh(k);
    }
  }

  lemma PositionOf(i: nat)
    requires i < COUNT
    ensures Position(KeyAt(i)) == i
  {
  }

  function Length(k: Key): nat {
    match k
    case Kernel => 6 case RuntimeSequence => 16 case RuntimeHeadDim => 16 case QueryTile => 10 case KeyTile => 8
    case CompiledSequence => 17 case CompiledHeadDim => 17 case HeadDimTile => 13 case LogicalMacs => 12
    case LoweredMacs => 12 case EstimatedGlobalBytesRead => 27 case EstimatedGlobalBytesWritten => 30
    case EstimatedLocalMemoryBytesPerWorkgroup => 42 case RequestedTargetBackend => 24 case RequestedTargetXlen => 21
    case RequestedTargetMaxWorkgroupThreads => 38 case RequestedTargetPreferredSubgroupWidth => 41
    case RequestedTargetLocalMemoryBytes => 35 case RequestedTargetSupportsInt8 => 30
    case RequestedTargetSupportsFloat32 => 33 case RequestedTargetSupportsTensorCores => 38
    case RequestedTargetSupportsAsyncCopy => 36 case ObservedTargetBackend => 23 case ObservedTargetXlen => 20
    case ObservedTargetPreferredSubgroupWidth => 40 case ObservedTargetSupportsInt8 => 29
    case ObservedTargetSupportsFloat32 => 32 case ObservedTargetSupportsTensorCores => 37
    case ObservedTargetSupportsAsyncCopy => 35 case TargetCompatible => 17 case TargetMismatchMask => 20
    case TargetThreadsPerWarp => 23 case TargetWarpsPerCore => 21 case TargetMaxWorkgroupThreads => 28
    case TargetLocalMemoryBytes => 25 case WorkgroupCount => 15 case ThreadsPerWorkgroup => 21 case TotalThreads => 13
    case RuntimeQElements => 18 case RuntimeKvElements => 19 case RuntimeOutputElements => 23 case RuntimeQBytes => 15
    case RuntimeKvBytes => 16 case RuntimeOutputBytes => 20 case ModuleCacheHit => 16 case KernelCacheHit => 16
    case Grid => 4 case Block => 5 case SharedMemoryBytes => 19 case HostToDeviceBytes => 20
    case DeviceToHostBytes => 20
  }

  /** Two character positions that tell names of the same length apart; a length of its own needs none. */
  function MarksAt(length: nat): (nat, nat) {
    if length == 12 then (6, 6)
    else if length == 13 then (12, 12)
    else if length == 15 then (14, 14)
    else if length == 16 then (15, 5)
    else if length == 17 then (15, 15)
    else if length == 19 then (17, 17)
    else if length == 20 then (12, 12)
    else if length == 21 then (20, 20)
    else if length == 23 then (22, 22)
    else if length == 30 then (29, 29)
    else if length == 35 then (34, 34)
    else if length == 38 then (36, 36)
    else (length, length)
  }

  /** The characters at these positions. */
  function Marks(k: Key): (char, char) {
    match k
    case RuntimeSequence => ('e', 'm') case RuntimeHeadDim => ('m', 'm') case CompiledSequence => ('c', 'c')
    case CompiledHeadDim => ('i', 'i') case HeadDimTile => ('e', 'e') case LogicalMacs => ('l', 'l')
    case LoweredMacs => ('d', 'd') case EstimatedGlobalBytesWritten => ('n', 'n')
    case RequestedTargetXlen => ('n', 'n') case RequestedTargetMaxWorkgroupThreads => ('d', 'd')
    case RequestedTargetLocalMemoryBytes => ('s', 's') case RequestedTargetSupportsInt8 => ('8', '8')
    case RequestedTargetSupportsTensorCores => ('e', 'e') case ObservedTargetBackend => ('d', 'd')
    case ObservedTargetXlen => ('g', 'g') case ObservedTargetSupportsAsyncCopy => ('y', 'y')
    case TargetCompatible => ('l', 'l') case TargetMismatchMask => ('t', 't') case TargetThreadsPerWarp => ('p', 'p')
    case TargetWarpsPerCore => ('e', 'e') case WorkgroupCount => ('t', 't') case ThreadsPerWorkgroup => ('p', 'p')
    case TotalThreads => ('s', 's') case RuntimeKvElements => ('t', 't') case RuntimeOutputElements => ('s', 's')
    case RuntimeQBytes => ('s', 's') case RuntimeKvBytes => ('s', 'm') case RuntimeOutputBytes => ('u', 'u')
    case ModuleCacheHit => ('t', 'e') case KernelCacheHit => ('t', 'l') case SharedMemoryBytes => ('e', 'e')
    case HostToDeviceBytes => ('c', 'c') case DeviceToHostBytes => ('s', 's')
    case _ => ('_', '_')
  }

  function CharAt(s: string, i: nat): char { if i < |s| then s[i] else '_' }

  /** A name has its length and its marks. */
  ghost predicate NamedAs(k: Key) {
    var (p, q) := MarksAt(Length(k));
    |Name(k)| == Length(k) && CharAt(Name(k), p) == Marks(k).0 && CharAt(Name(k), q) == Marks(k).1
  }

  lemma ShapeNameFacts(k: Key)
    requires 0 <= Position(k) < 10
    ensures NamedAs(k)
  {
    hide EstimateName, RequestedName, ObservedName, TargetName, RunName, LaunchName;
  }

  lemma EstimateNameFacts(k: Key)
    requires 10 <= Position(k) < 13
    ensures NamedAs(k)
  {
    hide ShapeName, RequestedName, ObservedName, TargetName, RunName, LaunchName;
  }

  lemma RequestedNameFacts(k: Key)
    requires 13 <= Position(k) < 22
    ensures NamedAs(k)
  {
    hide ShapeName, EstimateName, ObservedName, TargetName, RunName, LaunchName;
  }

  lemma ObservedNameFacts(k: Key)
    requires 22 <= Position(k) < 29
    ensures NamedAs(k)
  {
    hide ShapeName, EstimateName, RequestedName, TargetName, RunName, LaunchName;
  }

  lemma TargetNameFacts(k: Key)
    requires 29 <= Position(k) < 35
    ensures NamedAs(k)
  {
    hide ShapeName, EstimateName, RequestedName, ObservedName, RunName, LaunchName;
  }

  lemma RunNameFacts(k: Key)
    requires 35 <= Position(k) < 44
    ensures NamedAs(k)
  {
    hide ShapeName, EstimateName, RequestedName, ObservedName, TargetName, LaunchName;
  }

  lemma LaunchNameFacts(k: Key)
    requires 44 <= Position(k) < 51
    ensures NamedAs(k)
  {
    hide ShapeName, EstimateName, RequestedName, ObservedName, TargetName, RunName;
  }

  lemma NameFacts(k: Key)
    ensures NamedAs(k)
  {
    hide NamedAs, Position, KeyAt;
    Listed(k);
    var p := Position(k);
    if p < 10 {
      ShapeNameFacts(k);
    } else if p < 13 {
      EstimateNameFacts(k);
    } else if p < 22 {
      RequestedNameFacts(k);
    } else if p < 29 {
      ObservedNameFacts(k);
    } else if p < 35 {
      TargetNameFacts(k);
    } else if p < 44 {
      RunNameFacts(k);
    } else {
      LaunchNameFacts(k);
    }
  }

  lemma MarksDecide0(k: Key, k': Key)
    requires 0 <= Position(k) < 9 && Length(k) == Length(k') && Marks(k) == Marks(k')
    ensures Position(k) == Position(k')
  {
  }

  lemma MarksDecide9(k: Key, k': Key)
    requires 9 <= Position(k) < 18 && Length(k) == Length(k') && Marks(k) == Marks(k')
    ensures Position(k) == Position(k')
  {
  }

  lemma MarksDecide18(k: Key, k': Key)
    requires 18 <= Position(k) < 27 && Length(k) == Length(k') && Marks(k) == Marks(k')
    ensures Position(k) == Position(k')
  {
  }

  lemma MarksDecide27(k: Key, k': Key)
    requires 27 <= Position(k) < 36 && Length(k) == Length(k') && Marks(k) == Marks(k')
    ensures Position(k) == Position(k')
  {
  }

  lemma MarksDecide36(k: Key, k': Key)
    requires 36 <= Position(k) < 44 && Length(k) == Length(k') && Marks(k) == Marks(k')
    ensures Position(k) == Position(k')
  {
  }

  lemma MarksDecide44(k: Key, k': Key)
    requires 44 <= Position(k) < 51 && Length(k) == Length(k') && Marks(k) == Marks(k')
    ensures Position(k) == Position(k')
  {
  }

  lemma MarksDecide(k: Key, k': Key)
    requires Length(k) == Length(k') && Marks(k) == Marks(k')
    ensures Position(k) == Position(k')
  {
    hide Position, Length, Marks, KeyAt;
    Listed(k);
    var p := Position(k);
    if p < 9 {
      MarksDecide0(k, k');
    } else if p < 18 {
      MarksDecide9(k, k');
    } else if p < 27 {
      MarksDecide18(k, k');
    } else if p < 36 {
      MarksDecide27(k, k');
    } else if p < 44 {
      MarksDecide36(k, k');
    } else if p < 51 {
      MarksDecide44(k, k');
    }
  }

  /** No two keys are printed under the same name. */
  lemma NamesDistinct(k: Key, k': Key)
    ensures Name(k) == Name(k') <==> k == k'
  {
    hide Name, Length, Marks, MarksAt, CharAt, Position, KeyAt;
    if Name(k) == Name(k') {
      NameFacts(k);
      NameFacts(k');
      MarksDecide(k, k');
      Listed(k);
      Listed(k');
    }
  }

  predicate NameChar(c: char) { c == '_' || 'a' <= c <= 'z' || '0' <= c <= '9' }

  lemma RuntimeShapeChars(k: Key, c: char)
    requires Position(k) < 5 && c in ShapeName(k)
    ensures NameChar(c)
  {
  }

  lemma CompiledShapeChars(k: Key, c: char)
    requires Position(k) >= 5 && c in ShapeName(k)
    ensures NameChar(c)
  {
  }

  lemma EstimatedQuantityChars(k: Key, c: char)
    requires c in EstimatedQuantity(k)
    ensures NameChar(c)
  {
  }

  lemma EstimateNameChars(k: Key, c: char)
    requires c in EstimateName(k)
    ensures NameChar(c)
  {
    hide EstimatedQuantity;
    if c in EstimatedQuantity(k) {
      EstimatedQuantityChars(k, c);
    }
  }

  /** Whether the capability is an operation the target supports. */
  predicate IsSupport(k: Key) { 18 <= Position(k) < 22 || 25 <= Position(k) < 29 }

  predicate IsWidth(k: Key) { k.RequestedTargetPreferredSubgroupWidth? || k.ObservedTargetPreferredSubgroupWidth? }

  lemma WidthNameChars(k: Key, c: char)
    requires IsWidth(k) && c in CapabilityName(k)
    ensures NameChar(c)
  {
  }

  lemma LimitNameChars(k: Key, c: char)
    requires !IsSupport(k) && !IsWidth(k) && c in CapabilityName(k)
    ensures NameChar(c)
  {
  }

  lemma SupportNameChars(k: Key, c: char)
    requires IsSupport(k) && c in CapabilityName(k)
    ensures NameChar(c)
  {
  }

  lemma CapabilityChars(k: Key, c: char)
    requires c in RequestedName(k) || c in ObservedName(k)
    ensures NameChar(c)
  {
    hide CapabilityName, IsSupport, IsWidth;
    if c in CapabilityName(k) {
      if IsSupport(k) {
        SupportNameChars(k, c);
      } else if IsWidth(k) {
        WidthNameChars(k, c);
      } else {
        LimitNameChars(k, c);
      }
    }
  }

  lemma TargetNameChars(k: Key, c: char)
    requires c in TargetName(k)
    ensures NameChar(c)
  {
  }

  lemma LaunchNameChars(k: Key, c: char)
    requires c in LaunchName(k)
    ensures NameChar(c)
  {
  }

  lemma RunNameChars(k: Key, c: char)
    requires c in RunName(k)
    ensures NameChar(c)
  {
  }

  lemma PlainChars(k: Key, c: char)
    requires c in Name(k)
    ensures NameChar(c)
  {
    hide ShapeName, EstimateName, RequestedName, ObservedName, TargetName, RunName, LaunchName, NameChar, Position;
    var p := Position(k);
    if p < 5 {
      RuntimeShapeChars(k, c);
    } else if p < 10 {
      CompiledShapeChars(k, c);
    } else if p < 13 {
      EstimateNameChars(k, c);
    } else if p < 29 {
      CapabilityChars(k, c);
    } else if p < 35 {
      TargetNameChars(k, c);
    } else if p < 44 {
      RunNameChars(k, c);
    } else {
      LaunchNameChars(k, c);
    }
  }

  lemma NameIsPlain(k: Key)
    ensures PlainName(Name(k))
  {
    hide Name;
    forall i | 0 <= i < |Name(k)| ensures NameChar(Name(k)[i]) {
      PlainChars(k, Name(k)[i]);
    }
  }

  // ----- the line is readable -----

  lemma ValueIsPlain(t: LaunchTrace, w: Workload, k: Key)
    requires NoWhite(t.kernel)
    ensures NoWhite(ValueText(t, w, k))
  {
    hide Decimal, Number, Limit, Flag, BackendOf;
    DecimalHasNoX(Number(t, w, k));
    DecimalHasNoX(t.grid.0);
    DecimalHasNoX(t.grid.1);
    DecimalHasNoX(t.grid.2);
    DecimalHasNoX(t.block.0);
    DecimalHasNoX(t.block.1);
    DecimalHasNoX(t.block.2);
  }

  lemma FieldsPrintable(t: LaunchTrace, w: Workload)
    requires NoWhite(t.kernel)
    ensures Printable(Fields(t, w))
  {
    hide Name, ValueText, KeyAt, PlainName, NoWhite;
    var fields := Fields(t, w);
    forall i | 0 <= i < COUNT ensures PlainName(fields[i].name) && NoWhite(fields[i].value) {
      NameIsPlain(KeyAt(i));
      ValueIsPlain(t, w, KeyAt(i));
    }
    forall i, j | 0 <= i < j < COUNT ensures fields[i].name != fields[j].name {
      PositionOf(i);
      PositionOf(j);
      NamesDistinct(KeyAt(i), KeyAt(j));
    }
  }

  /** Every key is parsed back to the text printed for it, whatever the other fields are. */
  lemma KeyRoundTrip(t: LaunchTrace, w: Workload, k: Key)
    requires NoWhite(t.kernel)
    ensures ParseTraceField(TraceLine(t, w), Name(k)) == Some(ValueText(t, w, k))
  {
    hide Name, ValueText, KeyAt, NoWhite, Position, ParseTraceField, Printable, Line;
    Listed(k);
    FieldsPrintable(t, w);
    FieldRoundTrip(Fields(t, w), Position(k));
  }
}
