# BabelStream, verified

BabelStream runs five elementwise kernels (copy, mul, add, triad, nstream) and a
dot product on three arrays, in many parallel implementations, and checks the
result by replaying the run on a few scalars. This project models the parallel
implementations as machines whose threads interleave freely, and proves when
they agree with the single-threaded stream, when they do not, and that the
driver's check sees exactly what the machines do.

Numbers are exact reals: rounding is not modelled. Indices are unbounded.
`dafny verify dfyconfig.toml` checks everything.

## How it is built

- `Sums`: finite sums and counts, and how to reorder them.
- `Kernels`: what each kernel assigns, and the serial stream as a class with loops over its buffers.
- `Interleave`: threads that load and later store, in any order. `Step` is one thread's
  step, `Reaches` says which memories a complete run can end with, `Suits` when that is the
  serial one, and `Execute` runs the threads on live buffers.
- `Outcomes`: which runs come to an end, and exactly which memories they can end with.
- `Fill`: the init kernels, store by store.
- `Partition`: which indices each implementation deals to which thread (`ThreadRanges`,
  `ZippedChunks`, `ClippedRanges`, `GridStride`, `BlockStride`, `Guarded`).
- `Tree`: the halving loop of every dot kernel, for every group size. `Kept` says which slots it folds in.
- `DotLaunch`: which products each lane of a launch accumulates, unrolling included. `Counted`
  says which elements take part; `ExactLaunch` is the condition on the configuration.
- `DotMachine`: the dot kernel as lanes with program counters, local memories and barriers
  (`LaneStep`, `OpenBarrier`, `Step`), with its invariant, races, progress and termination.
- `ThreadedDot`: the dot product of the Rust threads.
- `Chunks`: arrays in chunks, and the flat arrays they stand for.
- `ArcMachine`: threads that lock the chunks they work on, load and store in them, and unlock them,
  in any order; on the flat arrays their runs are runs of `Interleave`.
- `ArcStream`: the stream that keeps one locked chunk per thread.
- `Driver`: the table of kernels, their schedule, a stream on any device, `run_all` and `check_solution`.
- `DriverLaws`: closed forms of the final values, and exactly which runs pass the check.
- `SyclTuner`: the self-tuning SYCL stream, from environment to a finished benchmark run.
- `Backends`: the conclusions for each implementation.
- `RustDriver`: the driver and the check of the Rust streams, with whole runs of the Unsafe,
  Crossbeam and Arc streams.

## What was found

- The halving loop keeps 2^floor(log2 L) of L slots. A dot launch is exact for all arrays of
  its length if and only if the group size is a power of two or the arrays end before the
  first dropped slot, and the unroll factor is at most eight or no unrolled turn ever fits
  (`LaunchExactIff`). Group sizes and unroll factors taken from the environment or from the
  device are not checked for either; `OverrideLosesElements` and `UnrollLosesElements` give inputs.
- The solution check fails exactly when a dot ran that left out too many elements (`RunBench`).
  In double precision, up to 450359962 elements, that is exactly when its launch is not exact
  (`DoublePassesIff`; `ThreeLaneRunFails` is an input); in single precision its tolerance for the
  dot is above one and it accepts any sum that is not negative (`FloatDotAlwaysPasses`).
- The Unsafe threads can all be joined, and then equal the single thread, if and only if their
  full chunks fit (`UnsafeSerialIff`, `ChunksFitIff`): with five elements on four cores a thread
  runs out of the arrays. The Arc stream has its chunks in the same cases (`InitArrays`), and then
  equals the single thread too. The comment on `chunk_size` says the last core gets less work;
  otherwise its share is negative. Crossbeam runs need one element only (`CrossbeamRun`).
- The Arc threads never wait for a mutex (`NeverWaits`): each locks only its own chunks.
- The block-strided CUDA nstream equals the serial one if and only if the block width divides
  the block length or one block covers the array (`CudaNstreamIff`); elsewhere neighbouring
  blocks update the same element. 2000 elements in blocks of 1000 are an input
  (`UnalignedNstream`), and such an element can end with any number of its updates
  (`AnyOutcome`), independently of all other elements (`PossibleMemories`). The other four
  kernels cannot tell (`CudaBlockStrideSerial`).
- The dot search of the self-tuning stream probes inexact configurations if and only if the device
  cannot take groups of 256, the stream size is not a power of two, and the arrays go on past the
  first lane that groups of the stream size drop (`SearchExactIff`).
- `for_each` divides by zero for fewer than four elements (`ForEachShapeOk`).
- A second `init_arrays` on the Arc stream changes nothing (`LaterInitChangesNothing`), because
  resizing a full vector is a no-op.

## Model

| member | source | states |
|---|---|---|
| Kernels.SerialStream.constructor | src/serial/SerialStream.cpp:15-26 | a new serial stream holds its initial values everywhere |
| Kernels.SerialStream.InitArrays | src/serial/SerialStream.cpp:37-46 | the loop leaves three uniform arrays |
| Kernels.SerialStream.Copy | src/serial/SerialStream.cpp:57-63 | the loop equals the whole-array kernel, and changes c only |
| Kernels.SerialStream.Mul | src/serial/SerialStream.cpp:66-73 | the loop equals the whole-array kernel, and changes b only |
| Kernels.SerialStream.Add | src/serial/SerialStream.cpp:76-82 | the loop equals the whole-array kernel, and changes c only |
| Kernels.SerialStream.Triad | src/serial/SerialStream.cpp:85-92 | the loop equals the whole-array kernel, and changes a only |
| Kernels.SerialStream.Nstream | src/serial/SerialStream.cpp:95-102 | the loop adds b + scalar*c to each old a once, and changes a only |
| Kernels.SerialStream.Dot | src/serial/SerialStream.cpp:105-113 | the loop returns the sum of all products |
| Kernels.UniformDot | src/main.cpp:339 | on uniform arrays the dot product is the closed form the check uses |
| Interleave.SpawnInv | src/rust/rust-stream/src/unsafe_stream.rs:111-130 | before any step no visit is complete and the invariant holds |
| Interleave.StepKeepsInv | src/rust/rust-stream/src/unsafe_stream.rs:123-125 | whichever thread steps next, every element is the result of between one and all of its completed visits, and every pending store is one visit ahead of what it read |
| Interleave.StepDecreases | src/rust/rust-stream/src/unsafe_stream.rs:123-125 | every step uses up remaining work, so every run ends |
| Interleave.ActiveInBounds | src/rust/rust-stream/src/unsafe_stream.rs:20-20 | a thread that is not finished can always step, and its index is inside the shared slice |
| Interleave.CompleteOutcome | src/cuda/CUDAStream.cu:237-275 | a complete run leaves at each index the result of between one and m updates, where m is how often it is visited, and leaves the other arrays alone |
| Interleave.FullOutcomeReached | src/cuda/CUDAStream.cu:237-275 | some run applies all m visits of every index in full |
| Interleave.SerialIff | src/cuda/CUDAStream.cu:237-275 | every interleaving gives the serial result if and only if each index is visited once, or more often by a kernel that does not read its target, or would not change |
| Interleave.SuitsIff | src/cuda/CUDAStream.cu:237-275 | the launch is serial for all arrays and all interleavings if and only if its threads suit the kernel |
| Interleave.ExecuteStep | src/rust/rust-stream/src/unsafe_stream.rs:212-237 | a step on live buffers is the machine's step |
| Interleave.Execute | src/rust/rust-stream/src/unsafe_stream.rs:108-237 | a launch on live buffers, scheduled arbitrarily, equals the serial kernel when its threads suit the kernel: every index visited once, or more often where the kernel does not read its target |
| Outcomes.CompletesIff | src/rust/rust-stream/src/unsafe_stream.rs:111-130 | some run of the threads comes to an end if and only if none of them leaves the arrays |
| Outcomes.PossibleMemories | src/cuda/CUDAStream.cu:237-275 | the memories complete runs can end with are exactly those that differ from the old one in the target only, where every index, whatever the others hold, has the result of between one and m updates, or its old value if no thread visits it |
| Outcomes.AnyOutcome | src/cuda/CUDAStream.cu:270-275 | the bound is tight: for every r from one to m some complete run leaves r updates at an index that m threads visit |
| Outcomes.PossibleOutcomes | src/cuda/CUDAStream.cu:237-275 | the values an index can end with are exactly the results of between one and m updates, or its old value if no thread visits it |
| Fill.FillKeepsInv | src/rust/rust-stream/src/unsafe_stream.rs:84-105 | whichever thread stores next, filling index by index or array by array, every thread keeps what it has filled at the initial values, because all threads store the same ones |
| Fill.FillDecreases | src/rust/rust-stream/src/unsafe_stream.rs:96-100 | every store of an init thread uses up remaining work |
| Fill.FillDone | src/hip/HIPStream.cpp:113-120 | when no init thread has anything left, arrays whose every index is visited at all are uniform |
| Fill.ExecuteFill | src/sycl-ai/SYCLStream.cpp:579-600 | an init kernel on live buffers, its three stores an index interleaved arbitrarily with those of all other threads, index by index or array by array, leaves three uniform arrays |
| Partition.ThreadRangesTileIff | src/rust/rust-stream/src/unsafe_stream.rs:62-69 | the thread ranges cover every index once and nothing else, if and only if all full chunks but the last fit |
| Partition.RangesInBounds | src/rust/rust-stream/src/unsafe_stream.rs:62-69 | and the threads stay inside the arrays if and only if the full chunks fit |
| Partition.ChunksFitIff | src/rust/rust-stream/src/arc_stream.rs:45-53 | the full chunks fit if and only if the length is a multiple of the cores or quotient plus remainder reaches cores - 1 |
| Partition.LongArraysFit | src/rust/rust-stream/src/arc_stream.rs:45-53 | every length from (cores-1)(cores-2) on fits, and one less does not |
| Partition.CrossbeamTiles | src/rust/rust-stream/src/crossbeam_stream.rs:31-42 | slices and clipped ranges cover every index once for every length and core count, and zipping with the cores drops no slice |
| Partition.GridStrideTiles | src/cuda/CUDAStream.cu:164-170 | grid striding covers every index once for any number of blocks and threads |
| Partition.BlockStrideCovers | src/cuda/CUDAStream.cu:171-178 | block striding visits every index at least once |
| Partition.BlockStrideOverlaps | src/cuda/CUDAStream.cu:171-178 | where a block ends inside a row its neighbour's first element is visited twice |
| Partition.BlockStrideTilesIff | src/cuda/CUDAStream.cu:171-178 | block striding covers every index once if and only if the block width divides the block length or one block covers the array |
| Partition.ForEachShapeOk | src/cuda/CUDAStream.cu:196-197 | a launch shape exists if and only if there are at least four elements; it has the fewest blocks for four elements a thread and the shortest blocks that cover the array |
| Partition.CudaBlockStrideSerial | src/cuda/CUDAStream.cu:184-267 | copy, mul, add and triad equal the serial kernels in every interleaving of every block-strided launch |
| Partition.CudaNstreamIff | src/cuda/CUDAStream.cu:270-275 | the block-strided nstream equals the serial one for all arrays and interleavings if and only if the block width divides the block length or one block covers the array |
| Partition.UnalignedNstream | src/cuda/CUDAStream.cu:184-275 | an input: with 2000 elements and 256 threads the launch has two blocks of 1000, and some interleaving of nstream on some arrays is not serial |
| Partition.AlignedNstream | src/cuda/CUDAStream.cu:184-275 | an input whose blocks align: with 1536 elements and 256 threads the launch has two blocks of 768, and every interleaving of nstream is serial |
| Partition.BlockStrideSuitsIff | src/cuda/CUDAStream.cu:171-198 | every block-strided launch covers the arrays without leaving them; it suits every kernel but nstream, and nstream if and only if the blocks align |
| Partition.RoundUpLeast | src/sycl-ai/SYCLStream.cpp:20-26 | the rounded size is the least multiple that covers the value |
| Partition.GuardedTiles | src/sycl-ai/SYCLStream.cpp:375-386 | the guarded work items of a rounded-up range cover every index once, for any group size |
| Partition.DotElementsPerLane | src/hip/HIPStream.h:31-36 | the most elements whose bytes fit four dwords, and one for element types larger than that |
| Partition.HipLaneBound | src/hip/HIPStream.cpp:53 | with the computed count of blocks of 1024 no lane of the dot loop takes more than its allotted elements, and one block fewer would not do |
| Tree.PhaseKeeps | src/ocl/OCLStream.cpp:86-93 | one phase of the halving loop keeps the total of the slots that count |
| Tree.FoldKeeps | src/ocl/OCLStream.cpp:86-93 | after any number of phases the remaining slots hold the total of the kept ones |
| Tree.RootHoldsKeptSum | src/sycl/SYCLStream.cpp:200-209 | at the end slot 0 holds the sum of the kept slots, each once |
| Tree.PhaseCount | src/cuda/CUDAStream.cu:289-292 | the loop runs exactly floor(log2 L) phases |
| Tree.KeptCount | src/cuda/CUDAStream.cu:289-292 | exactly 2^floor(log2 L) of L slots are kept |
| Tree.FirstDroppedIsFirst | src/cuda/CUDAStream.cu:289-292 | for other sizes than powers of two, the first slot that is lost |
| Tree.AllKeptIff | src/cuda/CUDAStream.cu:283-292 | the first n elements of a strided deal are all kept if and only if L is a power of two or n ends before the first dropped slot |
| DotLaunch.TurnSum | src/sycl-ai/SYCLStream.cpp:534-546 | a turn of the unrolled loop adds the lane's next products, the first eight of them |
| DotLaunch.TailStep | src/sycl-ai/SYCLStream.cpp:548-551 | the remainder loop adds the next product and never reaches the end of an unrolled turn |
| DotLaunch.LaneFinished | src/sycl-ai/SYCLStream.cpp:548-551 | when the index is past the end the lane holds its whole share |
| DotLaunch.UnrollTransparent | src/sycl-ai/SYCLStream.cpp:528-551 | up to eight, unrolling changes no lane's total compared with the plain grid-stride loop |
| DotLaunch.LaunchTotal | src/sycl-ai/SYCLStream.cpp:553-573 | kept lanes of all groups together hold each counted element's product exactly once |
| DotLaunch.LostIndex | src/sycl-ai/SYCLStream.cpp:537-544 | a configuration that is not exact leaves out some element |
| DotLaunch.LaunchExactIff | src/sycl-ai/SYCLStream.cpp:517-576 | the launch is the dot product on all arrays of its length if and only if the configuration is exact |
| DotLaunch.AllCountedIff | src/sycl-ai/SYCLStream.cpp:517-576 | every element takes part if and only if the configuration is exact |
| DotLaunch.CountedUniform | src/main.cpp:339 | on uniform arrays a launch returns the product once per counted element |
| DotLaunch.ThreeLanesCount | src/sycl-ai/SYCLStream.cpp:553-559 | groups of three lanes count all but every third element |
| DotMachine.StepKeepsInv | src/sycl-ai/SYCLStream.cpp:526-563 | every step of every lane and every barrier keeps: accumulating lanes hold their share so far, folding lanes hold the slot of the phase their barrier count says |
| DotMachine.PartnerUnchanged | src/sycl-ai/SYCLStream.cpp:557-558 | the partner slot a folding lane reads still holds the value from the last barrier |
| DotMachine.RaceFree | src/cuda/CUDAStream.cu:289-295 | no lane is about to write a slot another lane of its group is about to read or write, and all reads are inside local memory |
| DotMachine.FetchesInBounds | src/sycl-ai/SYCLStream.cpp:534-551 | every element a lane fetches in either loop is inside the arrays |
| DotMachine.FetchesAreAll | src/sycl-ai/SYCLStream.cpp:534-551 | and a lane's step depends on no other element |
| DotMachine.Progress | src/hip/HIPStream.cpp:264-271 | until all lanes are done some lane can step or some barrier can open; no lane is left waiting |
| DotMachine.StepDecreases | src/sycl-ai/SYCLStream.cpp:534-562 | every lane step and every barrier uses up remaining work |
| DotMachine.FinishedSum | src/sycl-ai/SYCLStream.cpp:561-573 | when all lanes are done the published partial sums add up to the counted dot and every group passed floor(log2 L) barriers |
| DotMachine.EveryInterleaving | src/sycl-ai/SYCLStream.cpp:517-576 | from any leftover memory every run is bounded, and a run that cannot continue has finished with the counted dot |
| DotMachine.ManualDot | src/sycl-ai/SYCLStream.cpp:517-576 | launch, arbitrary scheduling and host loop return the counted dot, whatever the buffers held |
| ThreadedDot.LoopAddsHits | src/rust/rust-stream/src/unsafe_stream.rs:254-258 | a thread's accumulator is the sum over the indices of its loop |
| ThreadedDot.JoinedDot | src/rust/rust-stream/src/unsafe_stream.rs:261-264 | joined accumulators count each product as often as its index is visited |
| ThreadedDot.TiledDot | src/rust/rust-stream/src/crossbeam_stream.rs:194-219 | threads that tile the arrays add up to the dot product |
| ThreadedDot.Dot | src/rust/rust-stream/src/unsafe_stream.rs:239-265 | the loops and the joins return the dot product |
| Chunks.FlatLength | src/rust/rust-stream/src/arc_stream.rs:45-53 | the chunk sizes add up to the array length |
| Chunks.FlatUpdate | src/rust/rust-stream/src/arc_stream.rs:113-115 | a store in one chunk is a store in the flat array, at the start of the chunk plus the index |
| Chunks.RangesTile | src/rust/rust-stream/src/arc_stream.rs:45-53 | chunks of any lengths, read as ranges of the flat array, cover every index once |
| Chunks.SameDeal | src/rust/rust-stream/src/arc_stream.rs:45-53 | the chunks of the Arc threads are the ranges of the threads that share whole arrays |
| Chunks.FlatApply | src/rust/rust-stream/src/arc_stream.rs:99-226 | a kernel on every chunk is the kernel on the concatenation |
| ArcMachine.LocksAscend | src/rust/rust-stream/src/arc_stream.rs:111-217 | every kernel locks its chunks in the order a, b, c; copy does without b, mul without a, and the others lock all three |
| ArcMachine.StepKeepsInv | src/rust/rust-stream/src/arc_stream.rs:99-226 | every lock, load, store and unlock of every thread keeps the chunk lengths, and the taken mutexes are exactly those of the chunks of the threads that took them |
| ArcMachine.NeverWaits | src/rust/rust-stream/src/arc_stream.rs:111-112 | a thread that is not done can always take its next step: its mutexes are never held by another |
| ArcMachine.LoadsOwned | src/rust/rust-stream/src/arc_stream.rs:161-166 | what a thread loads depends only on chunks whose mutexes it holds |
| ArcMachine.StoresOwned | src/rust/rust-stream/src/arc_stream.rs:161-166 | a step changes no chunk but the target chunk of its own thread, whose mutex it holds |
| ArcMachine.Stutters | src/rust/rust-stream/src/arc_stream.rs:108-116 | locking, unlocking and leaving the loop change nothing in the flat view |
| ArcMachine.Refines | src/rust/rust-stream/src/arc_stream.rs:108-116 | a load or store at i of chunk t is, on the flat arrays, the step of thread t of the sharing threads at the start of the chunk plus i |
| ArcMachine.StepDecreases | src/rust/rust-stream/src/arc_stream.rs:108-116 | every step, of mutexes too, uses up remaining work |
| ArcMachine.RunRefines | src/rust/rust-stream/src/arc_stream.rs:99-226 | every run of the locking threads is a run of the sharing threads on the flat arrays |
| ArcMachine.EveryInterleaving | src/rust/rust-stream/src/arc_stream.rs:99-226 | every interleaving is bounded, and one that cannot go on has every thread done, every mutex free and the flat arrays as the serial kernel leaves them |
| ArcMachine.EachChunkSerial | src/rust/rust-stream/src/arc_stream.rs:99-226 | and then each target chunk is the serial kernel of its own three chunks, all other chunks unchanged |
| ArcStream.ArcStream.constructor | src/rust/rust-stream/src/arc_stream.rs:31-35 | a new stream has one empty chunk per thread and array |
| ArcStream.ArcStream.InitArrays | src/rust/rust-stream/src/arc_stream.rs:62-84 | init succeeds if and only if the full chunks fit; only what a resize adds is set |
| ArcStream.ArcStream.StepThread | src/rust/rust-stream/src/arc_stream.rs:108-116 | a step on the live chunks and mutexes is the machine's step |
| ArcStream.FirstInitIsUniform | src/rust/rust-stream/src/arc_stream.rs:62-84 | from empty chunks the concatenation is the flat initial array |
| ArcStream.LaterInitChangesNothing | src/rust/rust-stream/src/arc_stream.rs:76-78 | a later init leaves every chunk as it is |
| ArcStream.ArcStream.RunThreads | src/rust/rust-stream/src/arc_stream.rs:99-226 | a thread per chunk, scheduled step by step in any order on the live chunks, ends with the serial kernel on the flat arrays |
| ArcStream.ArcStream.RunKernel | src/rust/rust-stream/src/arc_stream.rs:99-226 | with the shares the stream deals out, the abstract arrays end as the serial kernel leaves them |
| ArcStream.ArcStream.ReadArrays | src/rust/rust-stream/src/arc_stream.rs:85-97 | reading copies exactly the abstract arrays out and changes no chunk |
| ArcStream.ArcStream.Dot | src/rust/rust-stream/src/arc_stream.rs:228-253 | the joined chunk sums are the dot product of the abstract arrays |
| Driver.StepMatches | src/main.cpp:332-344 | one kernel run keeps arrays uniform and equal to the gold scalars; a dot over k of n elements keeps the sum at k parts of the gold sum's n |
| Driver.RunMatches | src/main.cpp:346-369 | arrays, sum and scalars stay so over every schedule, for every way of computing the dot, exact or not |
| Driver.Stream.constructor | src/main.cpp:273-274 | a new stream, filled by the interleaved threads of its init kernel, holds its start values |
| Driver.Stream.RunKernel | src/main.cpp:130-134 | a kernel launched with threads that suit it equals the serial kernel |
| Driver.Stream.RunDot | src/main.cpp:133 | a manual dot returns its counted elements' products for every valid launch, the other dots the dot product; the arrays stay |
| Driver.RunOne | src/main.cpp:126-139 | one run changes the arrays by its kernel, or the sum by the dot, and nothing else |
| Driver.AveragesAddUp | src/main.cpp:169-175 | the readings of a kernel timed as a whole are equal and add up to its elapsed time |
| Driver.ReadingsMean | src/main.cpp:150-175 | what is recorded for each entry of the table: the reading of every round, or equal readings that add up to the time of all runs, or nothing |
| Driver.RunRound | src/main.cpp:155-164 | a pass over the table runs the selected kernels in table order and records that round's reading for each |
| Driver.RunAll | src/main.cpp:120-184 | arrays and last sum are those of the whole schedule; each selected kernel has as many readings as repetitions: the k-th is that of round k in turn, and in isolation they are equal and add up to the time of all runs |
| Driver.Replay | src/main.cpp:331-369 | the scalar replay is the same schedule on scalars |
| Driver.SameBand | src/main.cpp:375-383 | the tolerance test of a value that should not be negative is a band on both sides: too small and too large values both fail |
| Driver.ElementBands | src/main.cpp:402-407 | the check of the arrays accepts if and only if every element of all three is in the band of its gold value |
| Driver.CheckSolution | src/main.cpp:322-411 | no failure is counted if and only if the sum (when selected) and every element of all three arrays are within tolerance of the replayed values, which is to say in their bands; the program exits on failures unless silenced |
| Driver.MatchesAccepted | src/main.cpp:375-407 | after any run the check accepts if and only if no dot was selected, or its gold value is zero, or the elements left out are within tolerance |
| Driver.FloatDotAlwaysPasses | src/main.cpp:373-398 | in single precision the dot tolerance exceeds one and the check accepts every sum that is not negative |
| Driver.DoubleToleratesIff | src/main.cpp:373-398 | in double precision the check tolerates no loss at all up to 450359962 elements, and one lost element of one more |
| Driver.DoubleNoticesThird | src/main.cpp:373-398 | in double precision a dot that loses a third of its elements is rejected |
| Driver.RunAndCheck | src/main.cpp:192-286 | from the start values, any selection, order and repetition ends with uniform arrays, a last sum in proportion to the elements counted, and the readings of its order; a failure is reported if and only if a dot ran and left out more than the tolerance |
| DriverLaws.SelectedIds | src/benchmark.h:32-66 | what every selection runs, in order |
| DriverLaws.OneClassicRound | src/benchmark.h:32-39 | one classic round depends on a alone and multiplies it by s*s + 2s |
| DriverLaws.ClassicClosedForm | src/main.cpp:349-357 | the values after k classic rounds |
| DriverLaws.ClassicFinalDot | src/rust/rust-stream/src/lib.rs:108-110 | the gold sum equals the product recomputed from the final a and b |
| DriverLaws.ClassicDecays | src/benchmark.h:9-12 | with the built-in scalar, a stays positive and shrinks every round |
| DriverLaws.DefaultClassic | src/benchmark.h:9-12 | the default run in numbers: after k rounds a is (24/25)^k / 10, and b, c and the dot follow from the a before |
| DriverLaws.DefaultAlone | src/benchmark.h:9-12 | nstream alone adds 0.2 every time from 0.1 on, and the dot alone is a fiftieth of the length |
| DriverLaws.GeometricIsPow | src/main.cpp:349-357 | k rounds multiply by the k-th power of the factor |
| DriverLaws.AllInTurnClosedForm | src/main.cpp:349-357 | with nstream in every round a is multiplied by twice the factor |
| DriverLaws.IsolatedClassic | src/main.cpp:359-365 | run in isolation the classic kernels end as after one round, whatever the repetitions |
| DriverLaws.IsolatedAll | src/main.cpp:359-365 | run in isolation all kernels end with k+1 times the a of one classic round |
| DriverLaws.NstreamAlone | src/rust/rust-stream/src/stream.rs:176-178 | nstream alone adds the same increment every time, in either order |
| Sums.LinearIsScaled | src/rust/rust-stream/src/lib.rs:91-93 | k equal increments are k times the increment |
| DriverLaws.FinalDotPositive | src/benchmark.h:9-39 | every benchmark run that runs a dot on any elements has a positive gold sum, in every selection and order |
| DriverLaws.RunBench | src/main.cpp:192-286 | on the built-in table, with arrays, sum and readings as above, the check fails if and only if a dot ran at least once and the elements it leaves out exceed the tolerance |
| DriverLaws.DoublePassesIff | src/main.cpp:373-398 | in double precision, up to that length, a run that includes a manual dot passes if and only if the launch is the dot product on all arrays |
| SyclTuner.ConfigurationFits | src/sycl-ai/SYCLStream.cpp:90-133 | for every environment the configured sizes are between one and the device limit, and the groups fit the partial-sum buffer, which has room for 32 groups for each compute unit |
| SyclTuner.OverridesHonoured | src/sycl-ai/SYCLStream.cpp:90-121 | for the stream, each of the five kernels by its own setting, and the dot: a requested size is used, cut to the device limit; unset, unreadable and zero requests fall back to the stream size and its default of 1024, 256 or 64; the dot's unrolling, groups and mode are the requested ones or their defaults |
| SyclTuner.TunesWhen | src/sycl-ai/SYCLStream.cpp:165-192 | the kernels are searched only when asked for; the dot when asked for, and on an Intel GPU also when none of its four settings is set |
| SyclTuner.TrialsAre | src/sycl-ai/SYCLStream.cpp:231-275 | how often each candidate and each probe is run under the clock |
| SyclTuner.ReadingsBefore | src/sycl-ai/SYCLStream.cpp:166-189 | the dot search reads the clock after five readings for each kernel candidate, or from the start |
| SyclTuner.DefaultsArePowers | src/sycl-ai/SYCLStream.cpp:94-121 | without size overrides on a power-of-two device every group size is a power of two and unrolling is at most eight, whatever groups per unit are asked for |
| SyclTuner.OverrideLosesElements | src/sycl-ai/SYCLStream.cpp:113-121 | an override to a manual dot of three lanes makes it inexact from three elements on |
| SyclTuner.UnrollLosesElements | src/sycl-ai/SYCLStream.cpp:119-121 | an unroll override above eight makes a manual dot inexact as soon as one unrolled turn fits |
| SyclTuner.ThreeLaneRunFails | src/sycl-ai/SYCLStream.cpp:113-121 | an environment with which every double-precision run of three or more elements that includes the dot fails its check |
| SyclTuner.CandidatesOk | src/sycl-ai/SYCLStream.cpp:277-284 | every candidate size is between one and the device limit, the fallback included |
| SyclTuner.CandidatesComplete | src/sycl-ai/SYCLStream.cpp:223-230 | every listed size the device can take is a candidate, and there is always one |
| SyclTuner.StreamCandidates | src/sycl-ai/SYCLStream.cpp:223-230 | the sizes the kernel searches try, in order: 128, 256, 512 and 1024 as far as the device takes them, or the stream size |
| SyclTuner.DotCandidates | src/sycl-ai/SYCLStream.cpp:277-284 | the sizes the dot search tries: 256, 512 and 1024 as far as the device takes them, or the stream size |
| SyclTuner.CandidatesPowers | src/sycl-ai/SYCLStream.cpp:277-284 | all dot candidates are powers of two if and only if the device takes 256 or the stream size that stands in is one |
| SyclTuner.BestNext | src/sycl-ai/SYCLStream.cpp:337-345 | keeping the strictly faster of best and next keeps the first fastest of all probes, for every clock |
| SyclTuner.BestMeans | src/sycl-ai/SYCLStream.cpp:236-258 | from the times alone: if any probe took less than 1e308 seconds the search ends with the first of the fastest, and if none took less than the largest double with what it began with |
| SyclTuner.EveryCombinationTried | src/sycl-ai/SYCLStream.cpp:328-348 | the search order contains every combination of size, groups and unrolling |
| SyclTuner.SearchAt | src/sycl-ai/SYCLStream.cpp:314-348 | the dot search position by position: the native reduction first, then for each size and each of 4, 6, 8, 12 (or 2, 4, 8) groups a compute unit, unrolling by 1, 2 and 4 |
| SyclTuner.SearchTriesIff | src/sycl-ai/SYCLStream.cpp:277-348 | a manual configuration is tried if and only if its size is a candidate, its groups are 4, 6, 8 or 12 (elsewhere 2, 4 or 8) times the compute units, and it unrolls by 1, 2 or 4 |
| SyclTuner.SearchExactIff | src/sycl-ai/SYCLStream.cpp:277-353 | every manual dot of the search is exact if and only if the candidates are powers of two or the only one loses nothing of n elements |
| SyclTuner.SearchDots | src/sycl-ai/SYCLStream.cpp:297-312 | then every dot run during the search returned twice the number of elements |
| SyclTuner.SyclStream.constructor | src/sycl-ai/SYCLStream.cpp:74-164 | all work-group sizes, the dot configuration and the buffers are as the device and environment say, no dot has been run, and the arrays hold their initial values |
| SyclTuner.SyclStream.InitArrays | src/sycl-ai/SYCLStream.cpp:579-600 | the interleaved guarded work items leave three uniform arrays |
| SyclTuner.SyclStream.RunKernel | src/sycl-ai/SYCLStream.cpp:369-482 | a kernel in any live configuration equals the serial kernel, entered in the record of kernels run |
| SyclTuner.SyclStream.Dot | src/sycl-ai/SYCLStream.cpp:485-576 | the counted dot in manual mode, the dot product in native mode, entered in the record of dots run |
| SyclTuner.SyclStream.TuneOne | src/sycl-ai/SYCLStream.cpp:234-258 | one kernel's size ends as the first fastest candidate, the other sizes are untouched, and every candidate has been run trials + 1 times |
| SyclTuner.SyclStream.AutotuneStreamKernels | src/sycl-ai/SYCLStream.cpp:216-265 | each of the five sizes ends as its own first fastest candidate, the kernels run are exactly those of the five searches, and the arrays are zero |
| SyclTuner.AllTuned | src/sycl-ai/SYCLStream.cpp:260-264 | which readings each of the five kernels is searched by |
| SyclTuner.AllSearchRuns | src/sycl-ai/SYCLStream.cpp:260-264 | the five searches are those of copy, mul, add, triad and nstream, in this order |
| SyclTuner.SyclStream.BenchOnce | src/sycl-ai/SYCLStream.cpp:297-312 | a probe changes the mode only and runs the probed configuration's dot trials + 1 times, each returning what that configuration computes |
| SyclTuner.SyclStream.AutotuneDot | src/sycl-ai/SYCLStream.cpp:268-354 | probes are made in the search order, the dots run are exactly those of the probes, the configuration ends as the first fastest and fits device and buffer; all probes are exact if and only if the candidates allow it, and then every dot run returned 2n |
| SyclTuner.SyclStream.Tune | src/sycl-ai/SYCLStream.cpp:166-192 | for every clock the enabled searches leave a configuration that fits and is the first fastest, the kernels and dots run are those of the searches, and the arrays are back at their initial values |
| SyclTuner.BestIsSearched | src/sycl-ai/SYCLStream.cpp:277-353 | the winner of a search through powers of two has a power-of-two size and unrolls at most eight times |
| SyclTuner.Benchmark | src/sycl-ai/SYCLStream.cpp:68-192 | construct, tune, run and check, for every environment: the configuration is the initial one or the first fastest of the search; the run leaves the readings of its order, the final gold values and the share of the gold sum its dot counts; and there is a failure if and only if that dot ran and leaves out more than the tolerance; none with power-of-two sizes and at most eight-fold unrolling configured |
| Backends.TiledSerial | src/rust/rust-stream/src/unsafe_stream.rs:72 | threads that tile the arrays end with the serial result in every interleaving |
| Backends.UnsafeIsSerial | src/rust/rust-stream/src/unsafe_stream.rs:72-237 | the sharing threads equal the single thread when the full chunks fit |
| Backends.UnsafeSerialIff | src/rust/rust-stream/src/unsafe_stream.rs:72-237 | the sharing threads can all be joined if and only if the full chunks fit, and then every run equals the single thread |
| Backends.CrossbeamIsSerial | src/rust/rust-stream/src/crossbeam_stream.rs:47-192 | the scoped threads equal the single thread for every length and core count |
| Backends.GridStrideIsSerial | src/hip/HIPStream.cpp:160-165 | grid-strided kernels equal the serial ones for every launch |
| Backends.FixedGroupsExact | src/cuda/CUDAStream.cu:278-309 | fixed groups of 1024 or 256 lanes give the dot product for every array and group count |
| Backends.DeviceGroupsExactIff | src/sycl/SYCLStream.cpp:39-49 | with the group size from the device the dot is exact if and only if that size is a power of two or the arrays are short enough |
| Backends.CudaLaunch | src/cuda/CUDAStream.cu:161-198 | every CUDA launch has 256 threads to a block and covers the arrays, and suits its kernel unless it is a block-strided nstream with blocks that do not align |
| Backends.CudaBenchmark | src/cuda/CUDAStream.cu:80-309 | a CUDA run with either loop and a block size for each kernel, from its init kernel on, leaves the readings of its order, the final gold values and the gold sum, and passes the check; only a selected nstream with the block-strided loop needs aligned blocks |
| Backends.HipLaunch | src/hip/HIPStream.cpp:122-130 | a HIP launch is the fewest blocks of 1024 threads that have one for every element, and tiles the arrays |
| Backends.HipBenchmark | src/hip/HIPStream.cpp:28-290 | a HIP run from its init kernel on leaves the readings of its order, the final gold values and the gold sum, and passes the check, for every element size, selection and order |
| RustDriver.TriadValues | src/rust/rust-stream/src/stream.rs:168-174 | only triad: a ends as b + s*c, and b and c as they began |
| RustDriver.NstreamValues | src/rust/rust-stream/src/stream.rs:176-178 | only nstream: a ends as a + k*(b + s*c), and b and c as they began |
| RustDriver.AllValues | src/rust/rust-stream/src/stream.rs:147-166 | all kernels: a is multiplied by s*s + 2s at every repetition |
| RustDriver.AverageOkIff | src/rust/rust-stream/src/lib.rs:97-104 | the average test holds if and only if the total error is at most the tolerance times the length |
| RustDriver.DotOkIff | src/rust/rust-stream/src/lib.rs:108-121 | the dot test holds if and only if the error is at most a hundred-millionth of the gold value |
| RustDriver.Validate | src/rust/rust-stream/src/lib.rs:97-104 | the loop accepts an array if and only if its average error is within tolerance |
| RustDriver.AverageBounds | src/rust/rust-stream/src/lib.rs:97-104 | an accepted array has no error above the tolerance times its length |
| RustDriver.ReplayGold | src/rust/rust-stream/src/lib.rs:79-95 | the replay on three scalars is the schedule of the chosen benchmark |
| RustDriver.CheckSolution | src/rust/rust-stream/src/lib.rs:76-122 | the check accepts if and only if the three total errors are within the tolerance times the length and, for all kernels, the dot is within a hundred-millionth of the one recomputed from the final values |
| RustDriver.RunAllShared | src/rust/rust-stream/src/stream.rs:147-166 | the repetitions of all kernels leave the arrays and the last sum of the whole schedule |
| RustDriver.RunShared | src/rust/rust-stream/src/stream.rs:147-178 | each of the three benchmarks leaves the arrays of its schedule |
| RustDriver.RunArc | src/rust/rust-stream/src/stream.rs:147-178 | the same on the abstract arrays of the Arc stream |
| RustDriver.UnsafeRun | src/rust/rust-stream/src/lib.rs:124-157 | an Unsafe run panics if and only if its full chunks do not fit; otherwise it ends with the gold values, a last dot equal to the recomputed one, and a check that accepts |
| RustDriver.CrossbeamRun | src/rust/rust-stream/src/crossbeam_stream.rs:51-219 | a Crossbeam run panics on empty arrays only, and otherwise ends the same way |
| RustDriver.ArcRun | src/rust/rust-stream/src/arc_stream.rs:62-253 | an Arc run panics if and only if the last share underflows, and otherwise ends the same way |

## Left out

- Rounding and NaN: reals are exact. The precisions of the two element types are those of `numeric_limits`.
- The chunk size of the Rust threads is computed in floating point; the model takes the exact ceiling of the quotient.
- Wrap-around of index arithmetic and the sizes of integer types.
- The native SYCL reduction and other library reductions: modelled as the sum they promise.
- HC's dot has its barriers before the loop and after each phase, one more than the other kernels; the extra one only removes interleavings and is not modelled.
- CUDA's dot sums into a register and stores it once before the first barrier; the model sums into the lane's own slot.
- Loads of arrays that a kernel does not write are one step with the load of the target; they cannot change under a running kernel.
- Local memory of all work groups exists at once in the model; a device may run groups in turn.
- Threads that only read, or only resize chunks of their own (the dots of the Rust streams and the init of the Arc stream), run one after another; nothing they touch is written by another thread.
- Command line and environment parsing, device discovery, allocation failures, thread pinning, output, and the choice of CUDA's block size by the runtime.
- Element kernels of OpenCL, Aparapi and the plain SYCL stream: one work item per index, the same as the guarded ranges without rounding.
- RustDriver.UnsafeRun: decides that a thread panics from the condition for it (`UnsafeSerialIff`) before the run, not at the step that leaves the arrays.
- The Rayon stream, whose scheduling belongs to its library, and the plain Rust stream, which repeats the serial loops.
- The Futhark and TornadoVM streams, which compute different kernels, and the Fortran and plain Java streams, which repeat the serial loops.
