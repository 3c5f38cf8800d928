# Mandrel attention verification

A Dafny model of the attention-prefill path of Mandrel and of the reference code around it, with proofs.
`dafny verify dfyconfig.toml` checks everything.

## What is modelled

- **The generated attention kernel.** The code generator's builders are methods that push operations into
  blocks (`AttentionKernel`). Device IR has a small-step semantics in which missing registers, signed overflow
  under `nsw`, out-of-range accesses and impossible conversions trap (`DeviceIr`, `DeviceSemantics`). A launch
  is a set of threads over one memory, stepped in any order (`LaunchMachine`). The proofs go from single
  operations (`StraightLine`, `AttentionThread`) over the three dot loops and the key loops (`AttentionLoops`,
  `AttentionRun`) and the strided dimension loop (`AttentionDims`) to a whole thread (`AttentionEntry`), the grid
  (`AttentionGrid`, `AttentionTiles`), the launch (`AttentionLaunch`) and the compiled plan (`AttentionPlan`, `DeviceLaunch`).
  The host reference is a loop nest with its own specification (`AttentionReference`), which over exact arithmetic is
  the textbook formula (`ExactArithmetic`, `AttentionAveraging`, `AttentionFormula`).
- **The renderer to block arguments.** Its output is a syntax tree with its own semantics (`MlirForm`); the
  emitter is a class with a growing output and a constant counter (`MlirEmitter`). `PhiLowering`,
  `PhiEdges`, `PhiSimulation` and `PhiConverse` prove that rendering preserves every interleaved run in which no
  thread traps, and adds none. `MlirNames`, `MlirNaming` and `MlirModule` write the result out with names as text and
  carry both directions over to it. `AttentionNames` and `AttentionDefinitions` give the code generator's own names,
  `AttentionMlir` applies all this to the attention kernel, `MlirOutline` says what rendering leaves as it is, and `MlirText` treats escaping and symbols.
- **The host kernels.** In-place top-k (`TopK`), softmax (`Softmax`), causal grouped-query attention
  (`CausalAttention`), and the mixture-of-experts kernels and block (`MoeKernels`, `MoeBlock`); each against its plain
  formula over real numbers (`TopKFormula`, `SoftmaxFormula`, `CausalFormula`, `MoeFormula`).
- **Smaller pieces.** The kernel cache (`KernelCache`), launch validation (`Occupancy`), tile layouts
  (`TileLayout`), and the runtime trace record with its parsers (`TraceText`, `TraceFields`,
  `TracePrinted`, `TraceRecord`, `TraceWorkload`, `Numerals`).

`Floats` describes binary32 arithmetic as an exact real operation followed by a rounding that is monotone and
exact on integers up to 2^24, with `exp` non-negative and `exp(0) = 1`. Kernel and reference agree for every such
rounding and every such `exp`.

Lemmas about whole kernels switch Dafny's automatic induction off; no lemma of the project needs it.

## What the proofs turned up

- The launch-shape overflow error of the compiler is unreachable: the checked byte estimate already bounds the
  shape (`AttentionPlan.CompileExact`).
- The kernel computes its query row from the `query_tile` argument, in wrapping 32-bit arithmetic, while the grid
  is sized for the compiled tile, and the backend does not compare the two. A launch then ends with the reference
  output, whatever the buffer held, exactly when every row is still computed by some thread
  (`DeviceLaunch.LaunchCorrectIff`); rows that are not keep their initial bytes (`AttentionLaunch.LaunchUntouched`).
  `DeviceLaunch.LaunchCorrectClosedForm` gives the arguments in closed form, `AttentionTiles.WrappingCanReach` shows
  why that form needs its guard, and `DeviceLaunch.TileFiveFails` is an input that fails.
- The overflow behaviour of the dot product starts exactly at head dimension 131072
  (`AttentionReference.SmallHeadDimFits`, `AttentionReference.HeadDimBoundIsSharp`).
- Top-k leaves a `usize::MAX` index exactly when fewer than k inputs are above negative infinity, and the
  mixture-of-experts block then panics exactly if its experts have weights (`TopK.NoSentinelLeft`,
  `MoeBlock.PanicsIff`); a NaN input does it (`TopK.NaNLeavesSentinel`, `MoeBlock.NaNPanics`).
- The rendered entry block has no label, so a kernel that branched to its entry would name an undefined block, and a
  uniform coordinate read without a second register would define its result twice. Well-formedness excludes both;
  the attention kernel does neither (`AttentionMlir.AttentionWellFormed`).
- Sanitizing block labels is not injective in general (`MlirText.SanitizeIsNotInjective`); on identifier-shaped
  labels, which the attention kernel uses, it is.
- `covers_tile` refuses some covering maps because a product overflows (`TileLayout.OverflowRefused`).
- Two occupancy rejections can never be given (`Occupancy.UnreachableRejections`).

## Model

| member | source | states |
|---|---|---|
| `DeviceLaunch.CompiledLaunchIsCorrect` | crates/compiler/src/attention.rs:103-178 | After a successful compile, for every runtime shape within the compiled one, every accepted input, every initial output buffer and every interleaving of all threads of the grid: the launch takes a bounded number of steps, and once all threads have returned memory is the initial memory with the output buffer equal to the host reference |
| `AttentionMlir.EmittedModuleIsCorrect` | crates/vortex-codegen/src/codegen/device_ir_mlir.rs:170-212 | The same guarantee for the emitted module with its names written out as text, under every interleaving of its own steps |
| `DeviceLaunch.LaunchCorrectIff` | crates/vortex-backend/src/backend.rs:207-272 | The backend passes on any nonzero query_tile. On every compiled plan and accepted input, launches always end with the reference output, whatever the buffer held, if and only if every query row is (bx * query_tile + ty) mod 2^32 for some bx < grid.x and ty < 4 |
| `DeviceLaunch.LaunchCorrectClosedForm` | crates/vortex-backend/src/backend.rs:207-272 | Where the grid has no workgroup to spare, or the last workgroup offset does not wrap, that is: sequence <= 4, or query_tile <= 4 and sequence <= (grid.x - 1) * query_tile + 4 |
| `DeviceLaunch.TileFiveFails` | crates/vortex-backend/src/backend.rs:383-392 | An accepted input of 8 rows with query_tile 5 whose launch does not end with the reference output |
| `AttentionMlir.EmittedCorrectIff` | crates/vortex-codegen/src/codegen/device_ir_mlir.rs:170-212 | The same if and only if for launches of the emitted module |
| `DeviceLaunch.CompiledLaunchCost` | crates/profiler/src/estimate.rs:78-117 | On a compiled plan with its own tile, what all threads of a complete run have multiplied, loaded and stored adds up to the lowered_macs, global_bytes_read and global_bytes_written that the profiler returns for the shape run; for the compiled shape these are the plan metrics, and its thread_count is the number of threads |
| `DeviceLaunch.DeviceLaunches` | crates/vortex-codegen/src/codegen/attention_mlir.rs:86-116 | On a compiled plan every thread of the device-IR kernel, run alone, returns with its expected log, and the system meets the premises of the interleaving theorem |
| `DeviceLaunch.LaunchExists` | crates/vortex-backend/src/backend.rs:207-272 | The premises of the launch theorems can be met for every accepted input and every initial output buffer |
| `AttentionLaunch.LaunchTerminates` | crates/vortex-backend/src/backend.rs:207-272 | Every run that only steps unfinished threads ends within a bound that does not depend on the order |
| `AttentionLaunch.LaunchComputesReference` | crates/vortex-backend/src/backend.rs:340-368 | If the tile argument reaches every row, any complete run leaves the output buffer equal to the reference output and changes nothing else in memory |
| `AttentionLaunch.LaunchElement` | crates/vortex-backend/src/backend.rs:340-368 | Each output element whose row some thread computes holds the reference value of its (query, dim) once all threads have returned, also when several threads store it |
| `AttentionLaunch.LaunchUntouched` | crates/vortex-codegen/src/codegen/attention_mlir.rs:134-149 | An output element whose row no thread computes keeps its initial value under every schedule |
| `AttentionLaunch.ReferenceIff` | crates/vortex-backend/src/backend.rs:207-272 | For either form of the kernel: launches always compute the reference if and only if every query row is computed by some thread |
| `AttentionLaunch.LaunchCompletes` | crates/vortex-backend/src/backend.rs:207-272 | Some order of steps lets every thread of a launch return |
| `AttentionLaunch.LaunchCost` | crates/profiler/src/estimate.rs:78-117 | Summed over all threads of a complete run: data multiplications equal lowered_macs, element bytes loaded equal global_bytes_read, stores equal sequence * head_dim |
| `LaunchMachine.InvariantAlways` | crates/vortex-backend/src/backend.rs:207-272 | After any schedule every thread is where it would be on its own, readable buffers are untouched, and every store made so far is still in memory |
| `LaunchMachine.RunsAreFinite` | crates/vortex-backend/src/backend.rs:207-272 | A schedule of unfinished threads is no longer than the sum of the threads' own step counts |
| `LaunchMachine.FinalState` | crates/vortex-backend/src/backend.rs:207-272 | A returned thread is in its own final state, whatever the order, and all its stores are in memory |
| `LaunchMachine.UntouchedCell` | crates/vortex-backend/src/backend.rs:207-272 | A cell that no thread stores to on its own is unchanged after every schedule |
| `LaunchMachine.CompleteRunExists` | crates/vortex-backend/src/backend.rs:207-272 | Threads that each return on their own can all return together |
| `AttentionEntry.ThreadRuns` | crates/vortex-codegen/src/codegen/attention_mlir.rs:134-562 | Every thread returns without trapping, having stored exactly the reference values of its own strided dimensions with exactly the expected operation counts |
| `AttentionEntry.EntryRuns` | crates/vortex-codegen/src/codegen/attention_mlir.rs:134-149 | The entry block loads the arguments, computes the query row in wrapping and the dimensions in unwrapped 32-bit arithmetic, and leaves for the strided loop exactly when the query row exists, for any tile argument |
| `AttentionDims.DimRuns` | crates/vortex-codegen/src/codegen/attention_mlir.rs:151-186 | The strided loop stores one element per visited dimension and leaves when the tile or the head dimension ends |
| `AttentionDims.DimBodyRuns` | crates/vortex-codegen/src/codegen/attention_mlir.rs:188-562 | From the first dot loop of a dimension back to the strided loop: one store, of the reference value for (query, dim) |
| `AttentionLoops.DotRuns` | crates/vortex-codegen/src/codegen/attention_mlir.rs:188-238 | A dot loop ends with the exact dot product of query row and key row after one multiply and two loads per component |
| `AttentionLoops.MaxRuns` | crates/vortex-codegen/src/codegen/attention_mlir.rs:240-347 | The max loop, peeled at key 0 and selecting on ordered-greater, ends with the fold of max that the reference starts from negative infinity |
| `AttentionRun.SumsRuns` | crates/vortex-codegen/src/codegen/attention_mlir.rs:349-500 | The softmax loop ends with the reference denominator and numerator, the same left-to-right rounded prefix sums |
| `AttentionRun.StoreExec` | crates/vortex-codegen/src/codegen/attention_mlir.rs:502-562 | Quotient, the two clamping selects, fptosi and truncation give the reference byte, stored at row * head_dim + col |
| `AttentionThread.QkDotExec` | crates/vortex-codegen/src/codegen/attention_mlir.rs:662-716 | One dot step adds the exact product without signed overflow and counts one multiply and two byte loads |
| `AttentionThread.MatrixLoadExec` | crates/vortex-codegen/src/codegen/attention_mlir.rs:718-762 | The address arithmetic of a matrix access does not wrap and the loaded byte is the addressed element, sign-extended |
| `AttentionKernel.Builder.BuildKernel` | crates/vortex-codegen/src/codegen/attention_mlir.rs:86-116 | The builder pushes the fourteen blocks of the specification in emission order |
| `AttentionKernel.BlockFound` | crates/vortex-codegen/src/codegen/device_ir_mlir.rs:501-504 | Every label of the kernel resolves to its own block |
| `SoundSteps.StepSame` | crates/vortex-codegen/src/codegen/device_ir.rs:135-239 | A step depends on memory only through readable buffers |
| `SoundSteps.StepStores` | crates/vortex-codegen/src/codegen/device_ir.rs:135-239 | A step stores only inside writable buffers |
| `StraightLine.VisitRuns` | crates/vortex-codegen/src/codegen/device_ir.rs:97-114 | Entering a block binds its phis in parallel and then runs its operations and its jump |
| `AttentionGrid.ExactlyOneThread` | crates/vortex-codegen/src/codegen/attention_mlir.rs:596-660 | Of all threads in the plan's grid and block exactly one visits (query, dim), for every runtime shape within the compiled one |
| `AttentionGrid.StoredExactlyOnce` | crates/vortex-codegen/src/codegen/attention_mlir.rs:151-186 | A thread stores (query, dim) in exactly one iteration of its strided loop, and only if it visits it |
| `AttentionGrid.FinalLogShape` | crates/vortex-codegen/src/codegen/attention_mlir.rs:151-186 | How many stores a thread makes, which ones, and what they cost |
| `AttentionGrid.GridElements` | crates/schedule/src/attention.rs:78-88 | The stores of all threads add up to sequence * head_dim |
| `AttentionTiles.RowsHitIff` | crates/vortex-codegen/src/codegen/attention_mlir.rs:596-640 | Which query_tile arguments reach every query row of a grid, in the kernel's wrapping 32-bit arithmetic: with a grid sized for the rows, or offsets that do not wrap, exactly those with sequence <= 4, or tile <= 4 and sequence <= (grid.x - 1) * tile + 4 |
| `AttentionTiles.WrappingCanReach` | crates/vortex-codegen/src/codegen/attention_mlir.rs:596-640 | With workgroups to spare an offset that wraps can also reach every row: tile 0xAAAAAAAC, grid.x 4, 8 rows |
| `AttentionGrid.JobsFit` | crates/compiler/src/attention.rs:134-163 | On a compiled plan the workgroup coordinates, dimensions and element indices of every thread stay below 2^31, for any tile argument |
| `AttentionPlan.EstimateExact` | crates/profiler/src/estimate.rs:78-117 | The checked estimate exists exactly when 4*S^2*D^2 + S^2*D fits a 64-bit usize, and then every count in it is exact |
| `AttentionPlan.CompileExact` | crates/compiler/src/attention.rs:103-178 | Exactly when compilation succeeds; the plan is then launchable; the launch-shape overflow error is never given |
| `AttentionPlan.CompileErrors` | crates/compiler/src/attention.rs:103-152 | Exactly which error a refused compilation gives |
| `AttentionPlan.ShapeBounds` | crates/compiler/src/attention.rs:134-152 | A shape whose byte estimate fits has sequence * head_dim below 2^31 |
| `AttentionReference.ReferenceAttentionPrefillI8` | crates/vortex-backend/src/backend.rs:340-392 | Fails on rejected inputs, reports overflow exactly when a partial dot product leaves i32, and otherwise returns the reference output |
| `AttentionReference.QkDot` | crates/vortex-backend/src/backend.rs:407-415 | The exact dot product, or overflow exactly when a partial sum leaves i32 |
| `AttentionReference.QkDotWrapping` | crates/vortex-backend/src/backend.rs:407-415 | Without overflow checks: the dot product modulo 2^32, which is the exact one exactly when that fits i32 |
| `AttentionReference.RowMax` | crates/vortex-backend/src/backend.rs:346-351 | The row maximum over all keys |
| `AttentionReference.RowSums` | crates/vortex-backend/src/backend.rs:353-361 | Denominator and numerator as left-to-right rounded sums |
| `AttentionReference.OutputUnique` | crates/vortex-backend/src/backend.rs:340-368 | The element-wise description determines the whole output |
| `AttentionReference.DotBound` | crates/vortex-backend/src/backend.rs:407-415 | Every partial sum stays within 16384 times its depth |
| `AttentionReference.SmallHeadDimFits` | crates/vortex-backend/src/backend.rs:407-415 | No dot product overflows for a head dimension up to 131071 |
| `AttentionReference.HeadDimBoundIsSharp` | crates/vortex-backend/src/backend.rs:407-415 | From head dimension 131072 on some input overflows |
| `AttentionReference.QuotientFinite` | crates/vortex-backend/src/backend.rs:353-364 | Under every admissible rounding the denominator is at least 1 and the quotient is finite |
| `AttentionAveraging.OutputIsAverage` | crates/vortex-backend/src/backend.rs:346-364 | Over exact arithmetic each output is the truncation of a value between the least and the greatest entry of its column of V |
| `AttentionAveraging.ClampsAreRedundant` | crates/vortex-backend/src/backend.rs:421-423 | Over exact arithmetic neither clamp ever changes the value |
| `AttentionAveraging.EqualScoresGiveMean` | crates/vortex-backend/src/backend.rs:346-364 | Equal scores give the plain mean of the column, truncated |
| `AttentionAveraging.ScoreOrder` | crates/vortex-backend/src/backend.rs:346-351 | Up to head dimension 1024 scores convert exactly, so comparing them is comparing the integers, whatever the rounding |
| `AttentionFormula.OutputIsSoftmaxAverage` | crates/vortex-backend/src/backend.rs:340-368 | Over exact arithmetic, with exp positive and turning sums into products, each output is trunc(sum of exp(q.k) * v / sum of exp(q.k)), written out over the input buffers with plain sums: no maximum, no shift, larger scores weigh more |
| `MlirModule.ModulePreservesRuns` | crates/vortex-codegen/src/codegen/device_ir_mlir.rs:163-225 | Any well-formed kernel whose names are kept apart is rendered without a panic to a module, and for any number of threads, any memory and any interleaving in which none traps some interleaving of the module, with names as text, ends with the same memory and logs, no thread trapped, the same threads returned, and inside blocks the same values under all original names |
| `MlirModule.ModuleAddsNoRuns` | crates/vortex-codegen/src/codegen/device_ir_mlir.rs:163-225 | If no interleaving of such a kernel traps, no interleaving of its module traps, and each one ends with the memory and logs of some interleaving of the kernel with the same threads returned |
| `MlirModule.TextIsModule` | crates/vortex-codegen/src/codegen/device_ir_mlir.rs:187-225 | Labels are distinct, no name is defined twice, only labelled blocks are branched to, and every branch passes its target one value of the right type per parameter |
| `MlirModule.SpelledApart` | crates/vortex-codegen/src/codegen/device_ir_mlir.rs:532-550 | Two definitions of a rendered kernel, registers and constants alike, are spelled alike only if they are the same one |
| `MlirModule.StepSameText` | crates/vortex-codegen/src/codegen/device_ir_mlir.rs:244-530 | A step that does not trap is the same step when all names are written out |
| `MlirNames.KernelNames` | crates/vortex-codegen/src/codegen/device_ir_mlir.rs:532-550 | A rendered kernel defines the registers of its source in the same order, and constants no two of which share block and number |
| `MlirOutline.RenderedOutline` | crates/vortex-codegen/src/codegen/device_ir_mlir.rs:244-459 | Rendered, every operation keeps its kind, types, predicates, overflow and inbounds flags, fields and element type; a coordinate read ends in the uniform call exactly when it is uniform |
| `MlirOutline.WrittenOutline` | crates/vortex-codegen/src/codegen/device_ir_mlir.rs:244-459 | Writing names out changes none of these, nor any literal |
| `PhiSimulation.RenderingPreservesRuns` | crates/vortex-codegen/src/codegen/device_ir_mlir.rs:163-225 | Before names are written out: every non-trapping interleaving of a well-formed kernel is matched by one of its rendering with the same outcome |
| `PhiConverse.RenderingAddsNoRuns` | crates/vortex-codegen/src/codegen/device_ir_mlir.rs:163-225 | Before names are written out: if the kernel never traps, every interleaving of its rendering has the outcome of some interleaving of the kernel |
| `PhiConverse.ScheduleBack` | crates/vortex-codegen/src/codegen/device_ir_mlir.rs:187-225 | Every interleaving of the block-argument form, stopped at any step, comes from an interleaving of the device IR with the same memory and logs |
| `PhiSimulation.ScheduleSim` | crates/vortex-codegen/src/codegen/device_ir_mlir.rs:187-225 | For any well-formed kernel, every interleaving of the device IR in which no thread traps is matched by an interleaving of the block-argument form with the same memory, the same logs and the same values of all original names |
| `PhiSimulation.StepSim` | crates/vortex-codegen/src/codegen/device_ir_mlir.rs:244-530 | Each device-IR step is matched by silent steps and at most one step with the same effect on memory |
| `PhiSimulation.AloneSim` | crates/vortex-codegen/src/codegen/device_ir_mlir.rs:187-225 | A thread on its own behaves the same in both forms |
| `PhiSimulation.EdgeStepSim` | crates/vortex-codegen/src/codegen/device_ir_mlir.rs:468-530 | Crossing an edge: parallel phi evaluation equals parallel argument passing, also when phis read phis of the same block |
| `PhiEdges.BindSim` | crates/vortex-codegen/src/codegen/device_ir_mlir.rs:564-573 | Binding parameters gives every phi result the value its phi would have had |
| `PhiEdges.TerminatorSim` | crates/vortex-codegen/src/codegen/device_ir_mlir.rs:468-493 | A rendered terminator branches the same way, with all arguments of the taken edge prepared |
| `PhiEdges.LowerSucceeds` | crates/vortex-codegen/src/codegen/device_ir_mlir.rs:495-530 | Rendering reaches no panic when every edge covers every phi |
| `PhiEdges.LowerLookup` | crates/vortex-codegen/src/codegen/device_ir_mlir.rs:501-504 | A label resolves to the rendering of the block it resolved to before |
| `PhiLowering.OpSim` | crates/vortex-codegen/src/codegen/device_ir_mlir.rs:244-436 | Every operation that does not trap is matched by the operations rendered for it, the last with the same effect |
| `PhiLowering.EnsureSim` | crates/vortex-codegen/src/codegen/device_ir_mlir.rs:532-550 | Materialising a literal keeps its value and touches only fresh constants |
| `PhiLowering.SimCsr` | crates/vortex-codegen/src/codegen/device_ir_mlir.rs:438-466 | The rendered CSR read, truncation and uniform call give the coordinate |
| `AttentionMlir.AttentionWellFormed` | crates/vortex-codegen/src/codegen/attention_mlir.rs:86-116 | The attention kernel has distinct labels, defines every register once, has no phi and no predecessor at its entry, puts phis first, and has a value on every edge for every phi |
| `AttentionMlir.AttentionGoodNames` | crates/vortex-codegen/src/codegen/attention_mlir.rs:86-116 | Its registers are spelled differently from each other and from every constant the renderer can add, and its labels differently even after sanitizing |
| `AttentionMlir.AttentionIsModule` | crates/vortex-codegen/src/codegen/device_ir_mlir.rs:187-225 | It is written out as a module |
| `AttentionNames.ReadBack` | crates/vortex-codegen/src/codegen/attention_mlir.rs:562-830 | Every register the builder uses can be read back from its spelling |
| `AttentionNames.ConstantsApart` | crates/vortex-codegen/src/codegen/device_ir_mlir.rs:537-550 | No register is spelled like a generated constant of any block |
| `AttentionDefinitions.DefinedOnce` | crates/vortex-codegen/src/codegen/attention_mlir.rs:86-116 | No register is defined by two operations of the kernel, and the argument register by none |
| `AttentionMlir.RenderingSucceeds` | crates/vortex-codegen/src/codegen/device_ir_mlir.rs:495-530 | Rendering the attention kernel never panics |
| `AttentionMlir.RenderedLaunches` | crates/vortex-codegen/src/codegen/device_ir_mlir.rs:170-212 | Every thread of the emitted module ends with the log of its device-IR form, so launches of it meet the launch theorems |
| `MlirEmitter.MlirBlockEmitter.RenderSuccessor` | crates/vortex-codegen/src/codegen/device_ir_mlir.rs:495-530 | One typed value per phi of the target, in order; fails exactly where the renderer panics |
| `MlirEmitter.EmitMlirKernel` | crates/vortex-codegen/src/codegen/device_ir_mlir.rs:170-185 | Renders all blocks in order, or fails as soon as one fails |
| `MlirText.MlirStringLiteral` | crates/vortex-codegen/src/codegen/mlir.rs:27-41 | The escaping loop writes every byte by its own rule |
| `MlirText.MlirStringLiteralWithNul` | crates/vortex-codegen/src/codegen/mlir.rs:43-47 | The literal of the bytes followed by a zero byte |
| `MlirText.LiteralRoundTrip` | crates/vortex-codegen/src/codegen/mlir.rs:27-41 | Any bytes written between quotes are read back unchanged and the closing quote is found where it was written, whatever follows |
| `MlirText.MetadataLength` | crates/vortex-codegen/src/codegen/device_ir_mlir.rs:59-66 | The declared array length is the number of bytes the literal denotes |
| `MlirText.SymbolRoundTrip` | crates/vortex-codegen/src/codegen/mlir.rs:49-66 | A symbol name is read back from its reference, bare or quoted |
| `MlirText.SymbolRefInjective` | crates/vortex-codegen/src/codegen/mlir.rs:49-66 | Distinct symbols have distinct references |
| `MlirText.SanitizeSsaComponent` | crates/vortex-codegen/src/codegen/device_ir_mlir.rs:657-667 | The prefix v, then each character kept or replaced by an underscore |
| `MlirText.SanitizeCollides` | crates/vortex-codegen/src/codegen/device_ir_mlir.rs:657-667 | Exactly when two labels get the same prefix; for identifier-shaped labels only when they are equal |
| `MlirText.SanitizeIsNotInjective` | crates/vortex-codegen/src/codegen/device_ir_mlir.rs:657-667 | Two different labels that get the same prefix |
| `MlirText.ValueNamesAgree` | crates/vortex-codegen/src/codegen/device_ir_mlir.rs:537-550 | Two generated names agree exactly when sanitized label, counter and type agree |
| `MlirText.ValueNamesDistinct` | crates/vortex-codegen/src/codegen/device_ir_mlir.rs:537-550 | For identifier-shaped labels: exactly when label, counter and type agree |
| `MlirText.ValueNameIs` | crates/vortex-codegen/src/codegen/device_ir_mlir.rs:537-550 | The constant numbered 12 of block dim_loop, of type i32, is spelled %vdim_loop_c12_i32 |
| `TopK.InsertTopk` | crates/kernels/src/lib.rs:491-508 | The in-place shift inserts at the first smaller slot, drops the last entry, and leaves everything outside the row alone |
| `TopK.RowTopk` | crates/kernels/src/lib.rs:369-392 | Every output row is the stable descending ranking of its input row, cut or padded to k |
| `TopK.RankedIsSorted` | crates/kernels/src/lib.rs:491-508 | Repeated insertion yields all inputs above negative infinity in stable descending order |
| `TopK.SortedUnique` | crates/kernels/src/lib.rs:491-508 | That order determines the row |
| `TopK.SelectedIsTop` | crates/kernels/src/lib.rs:369-392 | Selected indices are distinct and in range, carry their own values, are ranked with ties to the smaller index, and rank before every index left out |
| `TopK.NoSentinelLeft` | crates/kernels/src/lib.rs:382-391 | No usize::MAX index is left exactly when at least k inputs are above negative infinity |
| `TopK.NaNLeavesSentinel` | crates/kernels/src/lib.rs:382-391 | The best of a single NaN keeps the sentinel |
| `TopK.AllSelectable` | crates/kernels/src/lib.rs:491-508 | Inputs that are neither NaN nor negative infinity all count towards that number |
| `TopKFormula.TopOverReals` | crates/kernels/src/lib.rs:369-392 | On finite inputs, in plain comparisons of real numbers: k different positions with their own values, each greater than the next ones and than every position left out, or equal with a smaller index |
| `Softmax.SoftmaxInPlace` | crates/kernels/src/lib.rs:510-530 | Three passes overwrite the slice with its softmax and leave the rest of the buffer alone |
| `Softmax.WeightsFinite` | crates/kernels/src/lib.rs:510-530 | On finite values the sum is at least 1 and every weight is finite and non-negative |
| `SoftmaxFormula.SoftmaxIsExponential` | crates/kernels/src/lib.rs:510-530 | Over exact arithmetic each weight is the exponential of its own entry divided by the sum of all exponentials |
| `CausalAttention.CausalSelfAttention` | crates/kernels/src/lib.rs:326-367 | Every output row is the attention of its own head, whatever the score row and the output held before |
| `CausalAttention.AttendHead` | crates/kernels/src/lib.rs:344-365 | One head writes exactly its own output row |
| `CausalAttention.DotProduct` | crates/kernels/src/lib.rs:347-351 | The left-to-right rounded dot product, with every offset in range |
| `CausalAttention.GroupOf` | crates/kernels/src/lib.rs:345-345 | Head h reads key/value head floor(h / (query_heads / key_value_heads)), which exists |
| `CausalAttention.ElementOf` | crates/kernels/src/lib.rs:473-480 | Where element (token, head, dim) of the result is found |
| `CausalAttention.EveryElement` | crates/kernels/src/lib.rs:473-480 | Every flat output position belongs to one (token, head, dim), so every element is written |
| `CausalAttention.Causality` | crates/kernels/src/lib.rs:346-364 | A token's output depends on its own query row and on keys and values up to itself, and on nothing later |
| `CausalAttention.CausalRows` | crates/kernels/src/lib.rs:326-367 | Two results from inputs that agree on all tokens up to t have the same rows up to t |
| `CausalFormula.ElementIsSoftmaxAverage` | crates/kernels/src/lib.rs:326-367 | Over exact arithmetic, element (token, head, dim) is the sum over tokens up to its own of exp(q.k / sqrt(head_dim)) times the value entry of head floor(h / group), divided by the sum of those exponentials, in plain sums over the buffers |
| `MoeKernels.SwigluMlp` | crates/kernels/src/lib.rs:246-285 | Each output row is the expert applied to that token alone, whatever the scratch held |
| `MoeKernels.GateAndUp` | crates/kernels/src/lib.rs:262-270 | Both accumulators are left-to-right dot products with the same weight row |
| `MoeKernels.MoeRouterTopk` | crates/kernels/src/lib.rs:397-429 | Each token gets the top-k of its own logits and their softmax |
| `MoeKernels.MoeCombineTopk` | crates/kernels/src/lib.rs:449-471 | Each output row is the weighted sum over the token's own slots |
| `MoeBlock.RunTinyMoeReference` | crates/runtime/src/lib.rs:1028-1105 | Returns the token-by-token results, or panics exactly when some token alone would |
| `MoeBlock.Dispatch` | crates/runtime/src/lib.rs:1064-1087 | Through reused buffers every slot gets the output of its own expert on its own token; fails exactly when some selected expert cannot be sliced |
| `MoeBlock.RunOfTokens` | crates/runtime/src/lib.rs:1028-1105 | Routing, dispatch and combination together refine the pure formula: the sum over slots of routing weight times expert output |
| `MoeBlock.PanicsIff` | crates/runtime/src/lib.rs:1066-1076 | A token panics exactly when experts have weights and fewer than top_k of its logits are above negative infinity |
| `MoeBlock.NaNPanics` | crates/runtime/src/lib.rs:1066-1076 | An accepted one-token fixture with finite weights and a NaN input on which the block panics |
| `MoeBlock.BatchIsSingles` | crates/runtime/src/lib.rs:1028-1105 | Running a batch fails exactly when some single-token run fails, and otherwise gives the concatenation of the single-token outputs, weights and selections, slot by slot with the same expert outputs |
| `MoeFormula.ExpertsLead` | crates/kernels/src/lib.rs:397-429 | Over exact arithmetic on finite fixtures each token gets the top_k experts with the greatest plain router products, in descending order, ties to the smaller index |
| `MoeFormula.WeightsAreSoftmax` | crates/kernels/src/lib.rs:397-429 | Each routing weight is the exponential of its expert's logit divided by the sum over the token's selected experts |
| `MoeFormula.SlotIsExpert` | crates/runtime/src/lib.rs:1064-1087 | Each slot holds sum over i of silu(gate_i . x) * (up_i . x) * down[d, i] with the expert's own slices of the three weight buffers, in plain sums with explicit offsets |
| `MoeFormula.OutputIsReal` | crates/runtime/src/lib.rs:1089-1097 | Each element of the block output is the sum over the token's slots of weight times that expert sum |
| `MoeFormula.FiniteRuns` | crates/runtime/src/lib.rs:1028-1105 | On finite fixtures the block never panics |
| `MoeFormula.SlotIsLinear` | crates/kernels/src/lib.rs:258-272 | Multiplying the up weights by c multiplies every selected expert output by c |
| `MoeFormula.OutputIsLinear` | crates/runtime/src/lib.rs:1028-1105 | Multiplying the up weights by c multiplies the block output by c and leaves selections and routing weights as they were |
| `KernelCache.VortexExecutor.EnsureKernel` | crates/vortex-backend/src/executor.rs:18-58 | Extends the history by this request and gives its answer; the missing-module error is never returned |
| `KernelCache.VortexExecutor.GetKernel` | crates/vortex-backend/src/executor.rs:60-64 | After any history of requests: the kernel a fresh load would give if some request for the key was ever answered, and the missing-kernel error only if none was |
| `KernelCache.AlwaysFaithful` | crates/vortex-backend/src/executor.rs:18-58 | After any requests, with loads and lookups failing anywhere, every cached kernel has its module cached and everything cached is what a fresh load gives |
| `KernelCache.ReturnedKeysResolve` | crates/vortex-backend/src/executor.rs:60-64 | A key that was ever returned resolves at any later time to the kernel a fresh load would give |
| `KernelCache.RefinesUncached` | crates/vortex-backend/src/executor.rs:18-58 | Whatever uncached loading would answer with a kernel is answered with that kernel |
| `KernelCache.CachedIff` | crates/vortex-backend/src/executor.rs:29-52 | What is cached is exactly what the history of requests obtained |
| `KernelCache.HitFlags` | crates/vortex-backend/src/executor.rs:29-57 | Both hit flags say exactly whether an earlier request had got that far |
| `KernelCache.LoadedOnce` | crates/vortex-backend/src/executor.rs:38-41 | No path is loaded successfully twice |
| `KernelCache.AnswerExactly` | crates/vortex-backend/src/executor.rs:18-58 | From the requests alone: a request is answered if and only if some request for its key, up to itself, found the symbol and some request for its path, up to that one, could load the module; if none for its path could, it is a load error, and otherwise a lookup error |
| `Occupancy.AcceptedIff` | crates/vortex-backend/src/backend.rs:455-518 | Exactly which launches are accepted |
| `Occupancy.OccupancyGuarantee` | crates/vortex-backend/src/backend.rs:488-515 | An accepted launch with shared memory has R >= 1 resident workgroups whose warps and whose shared memory fit the core |
| `Occupancy.UnreachableRejections` | crates/vortex-backend/src/backend.rs:489-504 | Two of the rejections can never be given |
| `Occupancy.RejectionsIff` | crates/vortex-backend/src/backend.rs:455-487 | Which rejection is given for zero dimensions, missing resources, overflowing products and too many threads |
| `TileLayout.CoversIff` | crates/schedule/src/layout.rs:195-208 | covers_tile holds exactly when both products fit a word and every tile coordinate comes from exactly one thread and value slot |
| `TileLayout.OverflowRefused` | crates/schedule/src/layout.rs:195-208 | A map that reaches every coordinate but is refused because a product overflows |
| `TileLayout.CoveredOnce` | crates/schedule/src/layout.rs:166-208 | A covered coordinate comes from exactly one (thread_x, thread_y, value_row, value_col) |
| `TileLayout.RowMajorOffset` | crates/schedule/src/layout.rs:69-85 | With a span that fits a word no row-major offset overflows and the span is rows * cols |
| `TileLayout.TileBijection` | crates/schedule/src/layout.rs:69-208 | Map and row-major layout together are a bijection from slots onto [0, span) |
| `TileLayout.CoordSteps` | crates/schedule/src/layout.rs:166-193 | The first value of the first thread is the origin, a thread's next value is the next coordinate, and the next thread starts where its values end |
| `TileLayout.OffsetSteps` | crates/schedule/src/layout.rs:69-77 | In any layout, padded ones included, an offset is zero at the origin and moves by the column stride to the right and by the row stride down |
| `TileLayout.ColumnMajorTransposes` | crates/schedule/src/layout.rs:40-63 | A column-major layout is the row-major layout of the transposed shape, overflow included |
| `TraceText.FieldRoundTrip` | crates/xtask/src/attention/trace/collect.rs:277-281 | Any printed field is parsed back by name: no field name captures another's value |
| `TraceText.FindsOwnValue` | crates/xtask/src/attention/trace/collect.rs:277-281 | Among fields with distinct names every name finds its own value, and an absent name finds none |
| `TraceText.LastIsOwnValue` | crates/profiler/src/trace.rs:171-205 | The last-occurrence parser finds the same value |
| `TraceText.TripletRoundTrip` | crates/profiler/src/trace.rs:242-251 | A printed triplet is parsed back |
| `Numerals.ParseDecimal` | crates/xtask/src/attention/trace/collect.rs:199-241 | A printed number is parsed back when it fits the type and refused when it does not |
| `TraceFields.NamesDistinct` | crates/xtask/src/attention/metrics.rs:147-148 | The 51 field names are pairwise distinct |
| `TraceFields.FieldsPrintable` | crates/xtask/src/attention/metrics.rs:143-205 | Names and values of a printed record contain nothing that would break a field |
| `TraceFields.KeyRoundTrip` | crates/xtask/src/attention/metrics.rs:143-205 | Every field of a printed record is found again by its name |
| `TraceRecord.MetadataRoundTrip` | crates/xtask/src/attention/trace/collect.rs:92-190 | Every number, flag and backend of the printed record is read back with its own value |
| `TraceRecord.ParseSummary` | crates/profiler/src/trace.rs:156-230 | The parsing loop returns the launch summary, or the first error in the order of the checks |
| `TraceRecord.SummaryRoundTrip` | crates/profiler/src/trace.rs:156-230 | The printed launch and byte counts are read back for the expected kernel, and refused for any other |
| `TraceRecord.TargetContractFromRecord` | crates/xtask/src/attention/trace/mod.rs:135-210 | Overwriting the two target records field by field gives the specified contract |
| `TraceRecord.ContractRoundTrip` | crates/xtask/src/attention/trace/mod.rs:135-210 | The printed contract is rebuilt, cross-check included, exactly when its observed limits are those of the printed device capabilities |
| `TraceRecord.RuntimeContractSurvives` | crates/xtask/src/attention/runtime.rs:333-351 | A contract made from the device capabilities of the run is always rebuilt |
| `TraceWorkload.ReportsAreTyped` | crates/xtask/src/attention/metrics.rs:43-130 | Every workload that a run reports is within the types the parsers expect |
| `TraceWorkload.ReportNumbers` | crates/xtask/src/attention/metrics.rs:43-130 | What a run reports, as formulas over the run: shape and tiles, 2*S^2*D logical and 2*S^2*D^2 + S^2*D lowered multiplications, bytes read and written, workgroups, threads and buffer sizes |
| `TracePrinted.ShapePrinted` | crates/xtask/src/attention/metrics.rs:143-162 | Under its literal name each shape, tile and estimate field of the printed line holds the decimal of that quantity |
| `TracePrinted.RequestedPrinted` | crates/xtask/src/attention/metrics.rs:162-171 | The same for the requested target |
| `TracePrinted.ObservedPrinted` | crates/xtask/src/attention/metrics.rs:172-185 | The same for the observed target, the compatibility verdict and the device capabilities |
| `TracePrinted.RunPrinted` | crates/xtask/src/attention/metrics.rs:185-194 | The same for the work and the buffers of the run |
| `TracePrinted.LaunchPrinted` | crates/xtask/src/attention/metrics.rs:194-205 | The same for cache hits, grid, block, shared memory and transfers |
| `TraceRecord.MaskBits` | crates/target-ir/src/lib.rs:156-197 | Bit i of the mask is set exactly when capability i differs |
| `TraceRecord.NothingRecorded` | crates/xtask/src/attention/trace/mod.rs:135-210 | A record without target fields stands for the default target, written out |
| `TraceWorkload.ReportRoundTrip` | crates/xtask/src/attention/metrics.rs:43-205 | The line printed for any workload built from a run, with its contract made from the run's own capabilities, is read back whole: numbers, flags, backends, launch, and contract with its cross-check |
| `TraceFields.MismatchMask` | crates/target-ir/src/lib.rs:167-197 | The mask is zero exactly for equal targets |

## Left out

- AttentionReference.ReferenceAttentionPrefillI8: models the overflow-checked build; of a build without checks only the dot product is modelled (`AttentionReference.QkDotWrapping`).
- TileLayout.TileBijection: row-major layouts, and column-major ones by `TileLayout.ColumnMajorTransposes`; padded strides have `TileLayout.OffsetSteps` but no bijection.
- The scalar-launch debugging override (crates/xtask/src/attention/runtime.rs:207-217), which shrinks the grid on purpose.
- The IR operations for barriers, local memory and raw 64-bit CSR reads, which the attention builder never emits.
- Device addresses are an object and a byte offset: buffers do not overlap, alignment is ignored, and each field of the argument struct is one cell.
- Float details below the rounding model: signed zeros, subnormals, overflow of finite operands to infinity. The device and the host share one rounding and one `exp`.
- Literals are numbers that have already been parsed. That definitions dominate their uses is not part of what makes a module here; instead, no thread of the emitted kernel reads a name that has no value.
- The module text around the kernels (header, attributes, metadata arrays, type spelling) and the text of each operation; only literals, symbols, array lengths and generated names are modelled as text.
- Machine-width overflow of offsets in the host kernels; their buffers are in memory, so the products are those of existing lengths.
- Field checks of the plan ABI, dynamic loading, device handles, queues and transfers; loading a module and looking up a kernel are deterministic functions that may fail at any request.
- Comparing a rebuilt contract with a given experiment specification (crates/xtask/src/attention/trace/mod.rs:97-133): equality tests on fields already read.
- Finding the trace line in a larger output, the correctness and performance counter lines, and the wall-clock field; spaces are ASCII.
- Embedding, linear layers, RMS norm, rotary embedding, the full Mixtral layer, checkpoint loading, configuration, reports and the command line: they would only add easy members or library formats.
