/** The runtime trace record as it is read back: typed fields, the launch summary, and the target contract
    (crates/xtask/src/attention/trace, crates/profiler/src/trace.rs, crates/target-ir/src/lib.rs). */
module TraceRecord {
  import opened Options
  import opened Numerals
  import opened TraceText
  import opened TraceFields

  // ----- the typed field parsers -----

  function NumberField(line: string, k: Key): Option<nat> {
    var raw := ParseTraceField(line, Name(k));
    if raw.None? || Limit(k).None? then None else ParseUnsigned(raw.value, Limit(k).value)
  }

  function ParseFlag(s: string): Option<bool> {
    if s == "true" || s == "1" then Some(true) else if s == "false" || s == "0" then Some(false) else None
  }

  function FlagField(line: string, k: Key): Option<bool> {
    var raw := ParseTraceField(line, Name(k));
    if raw.None? then None else ParseFlag(raw.value)
  }

  function ParseBackend(s: string): Option<Backend> {
    if s == "host_reference" then Some(HostReference)
    else if s == "vortex_rtl" then Some(VortexRtl)
    else if s == "vortex_fpga" then Some(VortexFpga)
    else None
  }

  function BackendField(line: string, k: Key): Option<Backend> {
    var raw := ParseTraceField(line, Name(k));
    if raw.None? then None else ParseBackend(raw.value)
  }

  lemma FlagRoundTrip(b: bool)
    ensures ParseFlag(FlagText(b)) == Some(b)
  {
    assert "true"[0] == 't' && "false"[0] == 'f';
  }

  lemma BackendRoundTrip(b: Backend)
    ensures ParseBackend(BackendText(b)) == Some(b)
  {
    assert "host_reference"[0] == 'h' && "vortex_rtl"[7] == 'r' && "vortex_fpga"[7] == 'f' && "vortex_rtl"[0] == 'v';
    assert "vortex_fpga"[0] == 'v';
  }

  /** Every number is within its type, and the kernel symbol has no spaces. */
  ghost predicate Typed(t: LaunchTrace, w: Workload) {
    && NoWhite(t.kernel) && t.grid.0 < U32 && t.grid.1 < U32 && t.grid.2 < U32
    && t.block.0 < U32 && t.block.1 < U32 && t.block.2 < U32
    && w.observed.maxWorkgroupThreads < U32 && w.observed.localMemoryBytes < U32
    && forall k :: Limit(k).Some? ==> Number(t, w, k) < Limit(k).value
  }

  /** Every numeric field, flag and backend of the printed record is read back with its own value. */
  lemma MetadataRoundTrip(t: LaunchTrace, w: Workload, k: Key)
    requires Typed(t, w)
    ensures Limit(k).Some? ==> NumberField(TraceLine(t, w), k) == Some(Number(t, w, k))
    ensures Flag(t, w, k).Some? ==> FlagField(TraceLine(t, w), k) == Flag(t, w, k)
    ensures BackendOf(w, k).Some? ==> BackendField(TraceLine(t, w), k) == BackendOf(w, k)
  {
    KindsApart(t, w, k);
    hide Name, Decimal, Number, ParseTraceField, TraceLine, Flag, BackendOf, ParseFlag, ParseBackend, FlagText, BackendText;
    KeyRoundTrip(t, w, k);
    if Limit(k).Some? {
      ParseDecimal(Number(t, w, k), Limit(k).value);
    } else if Flag(t, w, k).Some? {
      FlagRoundTrip(Flag(t, w, k).value);
    } else if BackendOf(w, k).Some? {
      BackendRoundTrip(BackendOf(w, k).value);
    }
  }

  lemma KindsApart(t: LaunchTrace, w: Workload, k: Key)
    ensures Flag(t, w, k).Some? ==> Limit(k).None?
    ensures BackendOf(w, k).Some? ==> Limit(k).None? && Flag(t, w, k).None?
  {
  }

  // ----- the launch summary -----

  datatype TraceError =
    | MissingPrefix | MissingKernelSymbol | UnexpectedKernelSymbol | MissingGrid | MissingBlock | MissingSharedMemoryBytes
    | MissingHostToDeviceBytes | MissingDeviceToHostBytes | InvalidGrid | InvalidBlock | InvalidSharedMemoryBytes
    | InvalidHostToDeviceBytes | InvalidDeviceToHostBytes

  datatype Summary = Summary(kernel: string, grid: Dim3, block: Dim3, sharedMemoryBytes: nat, hostToDeviceBytes: nat,
                             deviceToHostBytes: nat)

  /** What is known of a field after some tokens: nothing, or the parse of its last value. */
  function TripletSeen(v: Option<string>): Option<Option<Dim3>> {
    if v.None? then None else Some(ParseTriplet(v.value, U32))
  }

  function UnsignedSeen(v: Option<string>, limit: nat): Option<Option<nat>> {
    if v.None? then None else Some(ParseUnsigned(v.value, limit))
  }

  /** The result once all fields have been seen; the first missing or invalid one decides the error. */
  function Conclude(kernel: Option<string>, grid: Option<Option<Dim3>>, block: Option<Option<Dim3>>, shared: Option<Option<nat>>,
                    toDevice: Option<Option<nat>>, toHost: Option<Option<nat>>, expected: string): Result<Summary, TraceError>
  {
    if kernel.None? then Err(MissingKernelSymbol)
    else if kernel.value != expected then Err(UnexpectedKernelSymbol)
    else if grid.None? then Err(MissingGrid)
    else if grid.value.None? then Err(InvalidGrid)
    else if block.None? then Err(MissingBlock)
    else if block.value.None? then Err(InvalidBlock)
    else if shared.None? then Err(MissingSharedMemoryBytes)
    else if shared.value.None? then Err(InvalidSharedMemoryBytes)
    else if toDevice.None? then Err(MissingHostToDeviceBytes)
    else if toDevice.value.None? then Err(InvalidHostToDeviceBytes)
    else if toHost.None? then Err(MissingDeviceToHostBytes)
    else if toHost.value.None? then Err(InvalidDeviceToHostBytes)
    else Ok(Summary(expected, grid.value.value, block.value.value, shared.value.value, toDevice.value.value, toHost.value.value))
  }

  function SummaryOf(line: string, expected: string): Result<Summary, TraceError> {
    var fields := StripPrefix(Trim(line), PREFIX);
    if fields.None? then Err(MissingPrefix)
    else
      var ts := Tokens(fields.value);
      Conclude(LastValue(ts, Name(Kernel)), TripletSeen(LastValue(ts, Name(Grid))), TripletSeen(LastValue(ts, Name(Block))),
               UnsignedSeen(LastValue(ts, Name(SharedMemoryBytes)), U32),
               UnsignedSeen(LastValue(ts, Name(HostToDeviceBytes)), U64),
               UnsignedSeen(LastValue(ts, Name(DeviceToHostBytes)), U64), expected)
  }

  /** What one more token makes of the value seen for a name. */
  function SeenAfter(token: string, name: string, before: Option<string>): Option<string> {
    var f := SplitOnce(token);
    if f.Some? && f.value.name == name then Some(f.value.value) else before
  }

  lemma LastNext(ts: seq<string>, i: nat, name: string)
    requires i < |ts|
    ensures LastValue(ts[..i + 1], name) == SeenAfter(ts[i], name, LastValue(ts[..i], name))
  {
    assert ts[..i + 1][..i] == ts[..i];
  }

  /** The loop over the fields: later occurrences overwrite earlier ones. */
  method ParseSummary(line: string, expected: string) returns (r: Result<Summary, TraceError>)
    ensures r == SummaryOf(line, expected)
  {
    hide Name, ParseTriplet, ParseUnsigned, SplitOnce, LastValue, Tokens, Trim, StripPrefix;
    var fields := StripPrefix(Trim(line), PREFIX);
    if fields.None? {
      return Err(MissingPrefix);
    }
    var ts := Tokens(fields.value);
    var kernel: Option<string> := None;
    var grid, block: Option<Option<Dim3>> := None, None;
    var shared, toDevice, toHost: Option<Option<nat>> := None, None, None;
    NothingSeen();
    for i := 0 to |ts|
      invariant kernel == LastValue(ts[..i], Name(Kernel))
      invariant grid == TripletSeen(LastValue(ts[..i], Name(Grid)))
      invariant block == TripletSeen(LastValue(ts[..i], Name(Block)))
      invariant shared == UnsignedSeen(LastValue(ts[..i], Name(SharedMemoryBytes)), U32)
      invariant toDevice == UnsignedSeen(LastValue(ts[..i], Name(HostToDeviceBytes)), U64)
      invariant toHost == UnsignedSeen(LastValue(ts[..i], Name(DeviceToHostBytes)), U64)
    {
      SixNames(ts, i);
      var f := SplitOnce(ts[i]);
      if f.None? {
        continue;
      }
      var value := f.value.value;
      if f.value.name == Name(Kernel) {
        kernel := Some(value);
      } else if f.value.name == Name(Grid) {
        grid := Some(ParseTriplet(value, U32));
      } else if f.value.name == Name(Block) {
        block := Some(ParseTriplet(value, U32));
      } else if f.value.name == Name(SharedMemoryBytes) {
        shared := Some(ParseUnsigned(value, U32));
      } else if f.value.name == Name(HostToDeviceBytes) {
        toDevice := Some(ParseUnsigned(value, U64));
      } else if f.value.name == Name(DeviceToHostBytes) {
        toHost := Some(ParseUnsigned(value, U64));
      }
    }
    assert ts[..|ts|] == ts;
    r := Conclude(kernel, grid, block, shared, toDevice, toHost, expected);
  }

  lemma NothingSeen()
    ensures forall name :: LastValue([], name) == None
  {
  }

  lemma SixNames(ts: seq<string>, i: nat)
    requires i < |ts|
    ensures forall k :: LastValue(ts[..i + 1], Name(k)) == SeenAfter(ts[i], Name(k), LastValue(ts[..i], Name(k)))
    ensures forall k, k' :: Name(k) == Name(k') ==> k == k'
  {
    hide Name, LastValue, SeenAfter;
    forall k ensures LastValue(ts[..i + 1], Name(k)) == SeenAfter(ts[i], Name(k), LastValue(ts[..i], Name(k))) {
      LastNext(ts, i, Name(k));
    }
    forall k, k' | Name(k) == Name(k') ensures k == k' {
      NamesDistinct(k, k');
    }
  }

  lemma LastOfKey(t: LaunchTrace, w: Workload, k: Key)
    requires NoWhite(t.kernel)
    ensures LastValue(Texts(Fields(t, w)), Name(k)) == Some(ValueText(t, w, k))
  {
    hide Name, ValueText, KeyAt, NoWhite, Position, LastValue, Printable;
    Listed(k);
    FieldsPrintable(t, w);
    LastIsOwnValue(Fields(t, w), Position(k));
  }

  lemma LaunchTexts(t: LaunchTrace, w: Workload)
    ensures ValueText(t, w, Kernel) == t.kernel
    ensures ValueText(t, w, Grid) == TripletText(t.grid) && ValueText(t, w, Block) == TripletText(t.block)
  {
    hide Decimal, TripletText, MismatchMask, Number;
  }

  lemma LaunchNumbers(t: LaunchTrace, w: Workload)
    ensures ValueText(t, w, SharedMemoryBytes) == Decimal(t.sharedMemoryBytes)
    ensures ValueText(t, w, HostToDeviceBytes) == Decimal(t.hostToDeviceBytes)
    ensures ValueText(t, w, DeviceToHostBytes) == Decimal(t.deviceToHostBytes)
  {
    hide Decimal, TripletText, MismatchMask, Flag, BackendOf;
  }

  /** The printed launch and byte counts are read back from the line, for the expected kernel; for any other
      kernel the line is refused. */
  lemma SummaryRoundTrip(t: LaunchTrace, w: Workload, expected: string)
    requires Typed(t, w)
    ensures SummaryOf(TraceLine(t, w), expected)
            == if expected == t.kernel
               then Ok(Summary(t.kernel, t.grid, t.block, t.sharedMemoryBytes, t.hostToDeviceBytes, t.deviceToHostBytes))
               else Err(UnexpectedKernelSymbol)
  {
    LaunchLimits(t, w);
    hide Name, ValueText, NoWhite, LastValue, Printable, Tokens, Trim, StripPrefix, FieldsText, ParseTriplet, ParseUnsigned, Decimal,
         TripletText, Typed;
    FieldsPrintable(t, w);
    LineTrimmed(Fields(t, w));
    TokensOfFields(Fields(t, w));
    forall k ensures LastValue(Texts(Fields(t, w)), Name(k)) == Some(ValueText(t, w, k)) {
      LastOfKey(t, w, k);
    }
    LaunchTexts(t, w);
    LaunchNumbers(t, w);
    TripletRoundTrip(t.grid, U32);
    TripletRoundTrip(t.block, U32);
    ParseDecimal(t.sharedMemoryBytes, U32);
    ParseDecimal(t.hostToDeviceBytes, U64);
    ParseDecimal(t.deviceToHostBytes, U64);
  }

  lemma LaunchLimits(t: LaunchTrace, w: Workload)
    requires Typed(t, w)
    ensures NoWhite(t.kernel) && t.grid.0 < U32 && t.grid.1 < U32 && t.grid.2 < U32
    ensures t.block.0 < U32 && t.block.1 < U32 && t.block.2 < U32
    ensures t.sharedMemoryBytes < U32 && t.hostToDeviceBytes < U64 && t.deviceToHostBytes < U64
  {
    hide NoWhite;
    assert Number(t, w, SharedMemoryBytes) < U32 && Number(t, w, HostToDeviceBytes) < U64 && Number(t, w, DeviceToHostBytes) < U64;
  }

  // ----- the target contract -----

  datatype Contract = Contract(requested: Target, observed: Target)

  const DEFAULT_TARGET := Target(VortexRtl, 64, 16, 4, 16384, true, true, false, false)

  /** The target fields of a parsed record; each may be missing. */
  datatype Metadata = Metadata(
    requestedBackend: Option<Backend>, requestedXlen: Option<nat>, requestedThreads: Option<nat>, requestedWidth: Option<nat>,
    requestedMemory: Option<nat>, requestedInt8: Option<bool>, requestedFloat32: Option<bool>, requestedTensorCores: Option<bool>,
    requestedAsyncCopy: Option<bool>, observedBackend: Option<Backend>, observedXlen: Option<nat>, observedWidth: Option<nat>,
    observedInt8: Option<bool>, observedFloat32: Option<bool>, observedTensorCores: Option<bool>, observedAsyncCopy: Option<bool>,
    compatible: Option<bool>, mismatchMask: Option<nat>, threadsPerWarp: Option<nat>, maxThreads: Option<nat>, localMemory: Option<nat>)

  function MetadataOf(line: string): Metadata {
    Metadata(
      BackendField(line, RequestedTargetBackend), NumberField(line, RequestedTargetXlen),
      NumberField(line, RequestedTargetMaxWorkgroupThreads), NumberField(line, RequestedTargetPreferredSubgroupWidth),
      NumberField(line, RequestedTargetLocalMemoryBytes), FlagField(line, RequestedTargetSupportsInt8),
      FlagField(line, RequestedTargetSupportsFloat32), FlagField(line, RequestedTargetSupportsTensorCores),
      FlagField(line, RequestedTargetSupportsAsyncCopy), BackendField(line, ObservedTargetBackend),
      NumberField(line, ObservedTargetXlen), NumberField(line, ObservedTargetPreferredSubgroupWidth),
      FlagField(line, ObservedTargetSupportsInt8), FlagField(line, ObservedTargetSupportsFloat32),
      FlagField(line, ObservedTargetSupportsTensorCores), FlagField(line, ObservedTargetSupportsAsyncCopy),
      FlagField(line, TargetCompatible), NumberField(line, TargetMismatchMask), NumberField(line, TargetThreadsPerWarp),
      NumberField(line, TargetMaxWorkgroupThreads), NumberField(line, TargetLocalMemoryBytes))
  }

  function UnwrapOr<T>(v: Option<T>, default: T): T { if v.Some? then v.value else default }

  function Narrowed(v: Option<nat>, default: nat): Option<nat> {
    if v.None? then Some(default) else if v.value < U32 then v else None
  }

  /** Missing capabilities fall back: requested ones to the default target, observed ones to the requested. */
  function RequestedOf(m: Metadata): Target {
    Target(UnwrapOr(m.requestedBackend, DEFAULT_TARGET.backend), UnwrapOr(m.requestedXlen, DEFAULT_TARGET.xlen),
           UnwrapOr(m.requestedThreads, DEFAULT_TARGET.maxWorkgroupThreads),
           UnwrapOr(m.requestedWidth, DEFAULT_TARGET.preferredSubgroupWidth),
           UnwrapOr(m.requestedMemory, DEFAULT_TARGET.localMemoryBytes), UnwrapOr(m.requestedInt8, DEFAULT_TARGET.supportsInt8),
           UnwrapOr(m.requestedFloat32, DEFAULT_TARGET.supportsFloat32),
           UnwrapOr(m.requestedTensorCores, DEFAULT_TARGET.supportsTensorCores),
           UnwrapOr(m.requestedAsyncCopy, DEFAULT_TARGET.supportsAsyncCopy))
  }

  /** None where a printed limit does not fit its type. */
  function ObservedOf(m: Metadata, q: Target): Option<Target> {
    var threads, memory := Narrowed(m.maxThreads, q.maxWorkgroupThreads), Narrowed(m.localMemory, q.localMemoryBytes);
    if threads.None? || memory.None? then None
    else
      Some(Target(UnwrapOr(m.observedBackend, q.backend), UnwrapOr(m.observedXlen, q.xlen), threads.value,
                  UnwrapOr(m.observedWidth, UnwrapOr(WarpWidth(m), q.preferredSubgroupWidth)), memory.value,
                  UnwrapOr(m.observedInt8, q.supportsInt8), UnwrapOr(m.observedFloat32, q.supportsFloat32),
                  UnwrapOr(m.observedTensorCores, q.supportsTensorCores), UnwrapOr(m.observedAsyncCopy, q.supportsAsyncCopy)))
  }

  function WarpWidth(m: Metadata): Option<nat> {
    if m.threadsPerWarp.Some? && m.threadsPerWarp.value < U32 then m.threadsPerWarp else None
  }

  /** The printed compatibility, where there is one, must be that of the rebuilt targets. */
  predicate CrossChecked(m: Metadata, q: Target, o: Target) {
    && (m.compatible.Some? ==> m.compatible.value == (MismatchMask(q, o) == 0))
    && (m.mismatchMask.Some? ==> m.mismatchMask.value == MismatchMask(q, o))
  }

  function ContractOf(m: Metadata): Option<Contract> {
    var q := RequestedOf(m);
    var o := ObservedOf(m, q);
    if o.None? || !CrossChecked(m, q, o.value) then None else Some(Contract(q, o.value))
  }

  /** A local target record, with its fields overwritten one by one. */
  method OverwriteRequested(m: Metadata) returns (requested: Target)
    ensures requested == RequestedOf(m)
  {
    hide UnwrapOr;
    requested := DEFAULT_TARGET;
    requested := requested.(backend := UnwrapOr(m.requestedBackend, requested.backend));
    requested := requested.(xlen := UnwrapOr(m.requestedXlen, requested.xlen));
    requested := requested.(maxWorkgroupThreads := UnwrapOr(m.requestedThreads, requested.maxWorkgroupThreads));
    requested := requested.(preferredSubgroupWidth := UnwrapOr(m.requestedWidth, requested.preferredSubgroupWidth));
    requested := requested.(localMemoryBytes := UnwrapOr(m.requestedMemory, requested.localMemoryBytes));
    requested := requested.(supportsInt8 := UnwrapOr(m.requestedInt8, requested.supportsInt8));
    requested := requested.(supportsFloat32 := UnwrapOr(m.requestedFloat32, requested.supportsFloat32));
    requested := requested.(supportsTensorCores := UnwrapOr(m.requestedTensorCores, requested.supportsTensorCores));
    requested := requested.(supportsAsyncCopy := UnwrapOr(m.requestedAsyncCopy, requested.supportsAsyncCopy));
  }

  method OverwriteObserved(m: Metadata, requested: Target) returns (r: Option<Target>)
    ensures r == ObservedOf(m, requested)
  {
    hide UnwrapOr, Narrowed, WarpWidth;
    var observed := requested;
    observed := observed.(backend := UnwrapOr(m.observedBackend, observed.backend));
    observed := observed.(xlen := UnwrapOr(m.observedXlen, observed.xlen));
    var threads := Narrowed(m.maxThreads, observed.maxWorkgroupThreads);
    if threads.None? {
      return None;
    }
    observed := observed.(maxWorkgroupThreads := threads.value);
    var width := UnwrapOr(m.observedWidth, UnwrapOr(WarpWidth(m), observed.preferredSubgroupWidth));
    observed := observed.(preferredSubgroupWidth := width);
    var memory := Narrowed(m.localMemory, observed.localMemoryBytes);
    if memory.None? {
      return None;
    }
    observed := observed.(localMemoryBytes := memory.value);
    observed := observed.(supportsInt8 := UnwrapOr(m.observedInt8, observed.supportsInt8));
    observed := observed.(supportsFloat32 := UnwrapOr(m.observedFloat32, observed.supportsFloat32));
    observed := observed.(supportsTensorCores := UnwrapOr(m.observedTensorCores, observed.supportsTensorCores));
    observed := observed.(supportsAsyncCopy := UnwrapOr(m.observedAsyncCopy, observed.supportsAsyncCopy));
    r := Some(observed);
  }

  method TargetContractFromRecord(m: Metadata) returns (r: Option<Contract>)
    ensures r == ContractOf(m)
  {
    hide MismatchMask, RequestedOf, ObservedOf;
    var requested := OverwriteRequested(m);
    var observed := OverwriteObserved(m, requested);
    if observed.None? {
      return None;
    }
    if m.compatible.Some? && m.compatible.value != (MismatchMask(requested, observed.value) == 0) {
      return None;
    }
    if m.mismatchMask.Some? && m.mismatchMask.value != MismatchMask(requested, observed.value) {
      return None;
    }
    r := Some(Contract(requested, observed.value));
  }

  lemma NumberRead(t: LaunchTrace, w: Workload, k: Key, n: nat)
    requires Typed(t, w) && Limit(k).Some? && Number(t, w, k) == n
    ensures NumberField(TraceLine(t, w), k) == Some(n)
  {
    hide Typed, NumberField, TraceLine, Number, Limit;
    MetadataRoundTrip(t, w, k);
  }

  lemma FlagRead(t: LaunchTrace, w: Workload, k: Key, b: bool)
    requires Typed(t, w) && Flag(t, w, k) == Some(b)
    ensures FlagField(TraceLine(t, w), k) == Some(b)
  {
    hide Typed, FlagField, TraceLine, Flag;
    MetadataRoundTrip(t, w, k);
  }

  lemma RequestedNumbers(t: LaunchTrace, w: Workload)
    requires Typed(t, w)
    ensures var m := MetadataOf(TraceLine(t, w));
            && m.requestedXlen == Some(w.requested.xlen) && m.requestedThreads == Some(w.requested.maxWorkgroupThreads)
            && m.requestedWidth == Some(w.requested.preferredSubgroupWidth)
            && m.requestedMemory == Some(w.requested.localMemoryBytes)
  {
    hide Typed, NumberField, FlagField, BackendField, TraceLine, MismatchMask, Flag, BackendOf;
    NumberRead(t, w, RequestedTargetXlen, w.requested.xlen);
    NumberRead(t, w, RequestedTargetMaxWorkgroupThreads, w.requested.maxWorkgroupThreads);
    NumberRead(t, w, RequestedTargetPreferredSubgroupWidth, w.requested.preferredSubgroupWidth);
    NumberRead(t, w, RequestedTargetLocalMemoryBytes, w.requested.localMemoryBytes);
  }

  lemma RequestedFlags(t: LaunchTrace, w: Workload)
    requires Typed(t, w)
    ensures var m := MetadataOf(TraceLine(t, w));
            && m.requestedBackend == Some(w.requested.backend)
            && m.requestedInt8 == Some(w.requested.supportsInt8) && m.requestedFloat32 == Some(w.requested.supportsFloat32)
            && m.requestedTensorCores == Some(w.requested.supportsTensorCores)
            && m.requestedAsyncCopy == Some(w.requested.supportsAsyncCopy)
  {
    hide Typed, NumberField, FlagField, BackendField, TraceLine, MismatchMask, Number, Limit;
    MetadataRoundTrip(t, w, RequestedTargetBackend);
    FlagRead(t, w, RequestedTargetSupportsInt8, w.requested.supportsInt8);
    FlagRead(t, w, RequestedTargetSupportsFloat32, w.requested.supportsFloat32);
    FlagRead(t, w, RequestedTargetSupportsTensorCores, w.requested.supportsTensorCores);
    FlagRead(t, w, RequestedTargetSupportsAsyncCopy, w.requested.supportsAsyncCopy);
  }

  lemma RequestedRead(t: LaunchTrace, w: Workload)
    requires Typed(t, w)
    ensures RequestedOf(MetadataOf(TraceLine(t, w))) == w.requested
  {
    hide Typed, MetadataOf, TraceLine;
    RequestedNumbers(t, w);
    RequestedFlags(t, w);
  }

  /** The observed target as the line tells it: its two limits come from the device capabilities. */
  function ObservedPrinted(w: Workload): Target {
    w.observed.(maxWorkgroupThreads := w.caps.MaxWorkgroupThreads(), localMemoryBytes := w.caps.localMemoryBytes)
  }

  lemma ObservedNumbers(t: LaunchTrace, w: Workload)
    requires Typed(t, w)
    ensures var m := MetadataOf(TraceLine(t, w));
            && m.observedXlen == Some(w.observed.xlen) && m.observedWidth == Some(w.observed.preferredSubgroupWidth)
            && m.maxThreads == Some(w.caps.MaxWorkgroupThreads()) && m.localMemory == Some(w.caps.localMemoryBytes)
  {
    hide Typed, NumberField, FlagField, BackendField, TraceLine, MismatchMask, Caps.MaxWorkgroupThreads, Flag, BackendOf;
    NumberRead(t, w, ObservedTargetXlen, w.observed.xlen);
    NumberRead(t, w, ObservedTargetPreferredSubgroupWidth, w.observed.preferredSubgroupWidth);
    NumberRead(t, w, TargetMaxWorkgroupThreads, w.caps.MaxWorkgroupThreads());
    NumberRead(t, w, TargetLocalMemoryBytes, w.caps.localMemoryBytes);
  }

  lemma ObservedFlags(t: LaunchTrace, w: Workload)
    requires Typed(t, w)
    ensures var m := MetadataOf(TraceLine(t, w));
            && m.observedBackend == Some(w.observed.backend)
            && m.observedInt8 == Some(w.observed.supportsInt8) && m.observedFloat32 == Some(w.observed.supportsFloat32)
            && m.observedTensorCores == Some(w.observed.supportsTensorCores)
            && m.observedAsyncCopy == Some(w.observed.supportsAsyncCopy)
  {
    hide Typed, NumberField, FlagField, BackendField, TraceLine, MismatchMask, Number, Limit;
    MetadataRoundTrip(t, w, ObservedTargetBackend);
    FlagRead(t, w, ObservedTargetSupportsInt8, w.observed.supportsInt8);
    FlagRead(t, w, ObservedTargetSupportsFloat32, w.observed.supportsFloat32);
    FlagRead(t, w, ObservedTargetSupportsTensorCores, w.observed.supportsTensorCores);
    FlagRead(t, w, ObservedTargetSupportsAsyncCopy, w.observed.supportsAsyncCopy);
  }

  lemma ObservedRead(t: LaunchTrace, w: Workload, q: Target)
    requires Typed(t, w)
    ensures ObservedOf(MetadataOf(TraceLine(t, w)), q)
            == if w.caps.MaxWorkgroupThreads() < U32 && w.caps.localMemoryBytes < U32 then Some(ObservedPrinted(w)) else None
  {
    hide Typed, MetadataOf, TraceLine, Caps.MaxWorkgroupThreads;
    ObservedNumbers(t, w);
    ObservedFlags(t, w);
  }

  lemma CompatibilityRead(t: LaunchTrace, w: Workload, q: Target, o: Target)
    requires Typed(t, w)
    ensures CrossChecked(MetadataOf(TraceLine(t, w)), q, o) <==> MismatchMask(q, o) == MismatchMask(w.requested, w.observed)
  {
    hide Typed, NumberField, FlagField, BackendField, TraceLine, MismatchMask;
    FlagRead(t, w, TargetCompatible, MismatchMask(w.requested, w.observed) == 0);
    NumberRead(t, w, TargetMismatchMask, MismatchMask(w.requested, w.observed));
  }

  /** The contract is rebuilt from the line, and passes the compatibility cross-check, exactly when its observed
      thread and memory limits are those of the printed device capabilities. */
  lemma ContractRoundTrip(t: LaunchTrace, w: Workload)
    requires Typed(t, w)
    ensures ContractOf(MetadataOf(TraceLine(t, w))) == Some(Contract(w.requested, w.observed))
            <==> w.observed.maxWorkgroupThreads == w.caps.MaxWorkgroupThreads()
                 && w.observed.localMemoryBytes == w.caps.localMemoryBytes
  {
    hide MetadataOf, TraceLine, MismatchMask, RequestedOf, ObservedOf, CrossChecked, Caps.MaxWorkgroupThreads, Number, Limit, NoWhite;
    RequestedRead(t, w);
    ObservedRead(t, w, w.requested);
    CompatibilityRead(t, w, w.requested, ObservedPrinted(w));
  }

  /** `observed_vortex_rtl_target`: the observed target is made from the device capabilities. */
  function ObservedTarget(xlen: nat, caps: Caps): Option<Target> {
    if caps.MaxWorkgroupThreads() < U32 && caps.threadsPerWarp < U32 && caps.localMemoryBytes < U32
    then Some(DEFAULT_TARGET.(xlen := xlen, maxWorkgroupThreads := caps.MaxWorkgroupThreads(),
                              preferredSubgroupWidth := caps.threadsPerWarp, localMemoryBytes := caps.localMemoryBytes))
    else None
  }

  /** So a workload whose contract was made from the same capabilities always gets its contract back. */
  lemma RuntimeContractSurvives(t: LaunchTrace, w: Workload, xlen: nat)
    requires Typed(t, w) && ObservedTarget(xlen, w.caps) == Some(w.observed)
    ensures ContractOf(MetadataOf(TraceLine(t, w))) == Some(Contract(w.requested, w.observed))
  {
    hide ContractOf, MetadataOf, TraceLine, Number, Limit, NoWhite, Caps.MaxWorkgroupThreads;
    ContractRoundTrip(t, w);
  }

  /** In which capabilities two targets differ, in the order of the mask's bits. */
  function Differences(a: Target, b: Target): (r: seq<bool>)
    ensures |r| == 9
  {
    [ a.backend != b.backend, a.xlen != b.xlen, a.maxWorkgroupThreads != b.maxWorkgroupThreads,
      a.preferredSubgroupWidth != b.preferredSubgroupWidth, a.localMemoryBytes != b.localMemoryBytes,
      a.supportsInt8 != b.supportsInt8, a.supportsFloat32 != b.supportsFloat32, a.supportsTensorCores != b.supportsTensorCores,
      a.supportsAsyncCopy != b.supportsAsyncCopy ]
  }

  function ShiftRight(n: nat, i: nat): nat { if i == 0 then n else ShiftRight(n / 2, i - 1) }

  /** `n` is written with these bits, the lowest first. */
  predicate HasBits(n: nat, bits: seq<bool>) {
    if bits == [] then n == 0 else (n % 2 == 1) == bits[0] && HasBits(n / 2, bits[1..])
  }

  lemma {:induction false} BitIs(n: nat, bits: seq<bool>, i: nat)
    requires HasBits(n, bits) && i < |bits|
    ensures ShiftRight(n, i) % 2 == 1 <==> bits[i]
  {
    if i > 0 {
      BitIs(n / 2, bits[1..], i - 1);
    }
  }

  lemma LowHalf(b: bool, n: nat)
    ensures var m := 2 * n + if b then 1 else 0; m / 2 == n && (m % 2 == 1 <==> b)
  {
  }

  lemma {:induction false} Push(b: bool, n: nat, bits: seq<bool>)
    requires HasBits(n, bits)
    ensures HasBits(2 * n + if b then 1 else 0, [b] + bits)
  {
    LowHalf(b, n);
    assert ([b] + bits)[1..] == bits;
  }

  /** Bit `i` of the mask tells whether capability `i` differs. */
  lemma MaskBits(a: Target, b: Target, i: nat)
    requires i < 9
    ensures ShiftRight(MismatchMask(a, b), i) % 2 == 1 <==> Differences(a, b)[i]
  {
    hide HasBits, ShiftRight;
    MaskWritten(a, b);
    BitIs(MismatchMask(a, b), Differences(a, b), i);
  }

  /** The mask as nine bits, each pushed below the ones before. */
  function Packed(bits: seq<bool>): nat { if bits == [] then 0 else 2 * Packed(bits[1..]) + if bits[0] then 1 else 0 }

  lemma {:induction false} PackedBits(bits: seq<bool>)
    ensures HasBits(Packed(bits), bits)
  {
    if bits != [] {
      PackedBits(bits[1..]);
      Push(bits[0], Packed(bits[1..]), bits[1..]);
      assert [bits[0]] + bits[1..] == bits;
    } else {
      assert HasBits(0, bits);
    }
  }

  lemma MaskWritten(a: Target, b: Target)
    ensures HasBits(MismatchMask(a, b), Differences(a, b))
  {
    var d := Differences(a, b);
    PackedBits(d);
    NinePacked(d);
  }

  lemma NinePacked(d: seq<bool>)
    requires |d| == 9
    ensures Packed(d) == (if d[0] then 1 else 0) + (if d[1] then 2 else 0) + (if d[2] then 4 else 0) + (if d[3] then 8 else 0)
                         + (if d[4] then 16 else 0) + (if d[5] then 32 else 0) + (if d[6] then 64 else 0)
                         + (if d[7] then 128 else 0) + (if d[8] then 256 else 0)
  {
    hide Packed;
    PackedNext(d, 0);
    PackedNext(d, 1);
    PackedNext(d, 2);
    PackedNext(d, 3);
    PackedNext(d, 4);
    PackedNext(d, 5);
    PackedNext(d, 6);
    PackedNext(d, 7);
    PackedNext(d, 8);
    assert d[0..] == d && d[9..] == [];
    PackedNone();
  }

  lemma PackedNone()
    ensures Packed([]) == 0
  {
  }

  lemma PackedNext(d: seq<bool>, i: nat)
    requires i < |d|
    ensures Packed(d[i..]) == 2 * Packed(d[i + 1..]) + if d[i] then 1 else 0
  {
    assert d[i..][1..] == d[i + 1..];
  }

  /** A record without any target field stands for the default target, requested and observed. */
  lemma NothingRecorded()
    ensures var m := Metadata(None, None, None, None, None, None, None, None, None, None, None, None, None, None, None, None,
                              None, None, None, None, None);
            var target := Target(VortexRtl, 64, 16, 4, 16384, true, true, false, false);
            ContractOf(m) == Some(Contract(target, target))
  {
    hide MismatchMask;
  }
}
