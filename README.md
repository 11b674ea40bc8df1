# CURAND random streams, modelled in Dafny

This project models the core of Theano's CURAND-backed random streams
(`theano/sandbox/cuda/rng_curand.py`). Generator state is treated as a graph value. A sampling
node takes the old generator value and a size vector, and produces a new generator value and a
sample. The model covers four parts:

- **The sampling-op descriptor** (`CurandOps`, file `curand_ops.dfy`). `CURAND_Base` with its
  classes `CURAND_Uniform` and `CURAND_Normal` becomes a value `(kind, outputType, seed,
  destructive)`. It comes with the op's equality and hash, `destroy_map`, `as_destructive`,
  `make_node` and `new_auto_update`, over a small graph of variables and apply nodes.
- **The destructive rewrite** (`DestructiveRewrite`, file `rewrite.dfy`). `local_destructive` is
  modelled node by node. The graph pass applies it to every node of an abstract list of nodes.
- **The stream** (`RandomStreams`, file `streams.dfy`). `CURAND_RandomStreams` is a class whose
  methods update its four fields: the start seed, the seed counter, the log of update pairs and
  the lost-states flag.
- **The generated kernel** (`CurandKernel`, file `kernel.dfy`). This is what the C code returned
  by `c_code` does on one execution. The pure function `Step` states it. `KernelState.Perform` is
  the imperative version, with the loop over the size vector, proved equal to `Step`. A
  generator value is `Unallocated` (the shared `False` placeholder) or `Allocated(id)`, a handle
  on context `id` of an arena of CURAND contexts.
- `errors.dfy` (`Errors`) holds the error cases and the `Result`/`Outcome`/`Option` wrappers.

Framework services the core calls are not modelled. Their answers are passed in as parameters:

- the identity of the shared variable created by `theano.shared(False)` (`generatorId`). The
  variable is new, so the id is one the stream has not used before;
- the variable `cast(as_tensor_variable(size), 'int32')` returns, and the length
  `get_vector_length` finds for the tensor (`SizeArg.int32Tensor`, `SizeArg.vectorLength`).
  When the size is already int32, `cast` returns its argument unchanged. The model does not
  care which case it is: it passes on whatever variable it is given;
- whether the scaled result's broadcast pattern differs from the raw draw's
  (`broadcastMismatch`);
- which native CUDA/CURAND calls succeed on an execution (`Native`).

Where the documentation and the code disagree, the model follows the code:

- The `normal` docstring says `size` may be a list. The code asserts a tuple or a rank-1
  variable, so a list is refused (`SizeAccepted`).
- `new_auto_update` takes a `dtype` argument but never uses it. The output type is
  `CudaNdarrayType((False,)*ndim)`, which is always float32 (`AutoUpdateIgnoresDtype`).
- The stream takes its seed before `new_auto_update` runs. So when `get_vector_length` fails,
  the seed is used up anyway. The update pair is also recorded before the broadcast check, so a
  broadcast mismatch leaves the pair in the log (`Draw`).
- The op's seed is a Python integer, but it reaches CURAND as a C literal converted to
  `unsigned long long`. The arena records that converted value, the seed modulo 2^64
  (`CurandSeed`), so seed -1 seeds CURAND with 2^64 - 1.
- A negative `ndim` is accepted. `(False,) * ndim` is then the empty tuple, so the sample has
  rank 0 (`CudaNdarrayType`).
- A "lost state" is a flag and nothing more. Pickling returns the start seed and the counter
  unchanged, so a restored stream hands out the same seeds the original still hands out.

## Model

| member | source | states |
|---|---|---|
| `CurandOps.CudaNdarrayType` | theano/sandbox/cuda/rng_curand.py:92 | the op's output type is a float32 device type of rank ndim (rank 0 for a negative ndim) that broadcasts in no dimension |
| `CurandOps.NewOp` | theano/sandbox/cuda/rng_curand.py:40-52 | construction succeeds exactly when the output dtype is float32, else raises AssertionError; the op keeps the kind, output type, seed and destructive flag it was given |
| `CurandOps.DestroyMap` | theano/sandbox/cuda/rng_curand.py:49-50 | a destroy map exists exactly for destructive ops, and it says output 0 overwrites input 0 |
| `CurandOps.AsDestructive` | theano/sandbox/cuda/rng_curand.py:54-56 | the result has the same class, output type and seed, is destructive, and has destroy map {0: [0]} |
| `CurandOps.Config` | theano/sandbox/cuda/rng_curand.py:58-64 | the config tuple (destructive, output type, seed), together with the class, determines the op |
| `CurandOps.Equal` | theano/sandbox/cuda/rng_curand.py:66-67 | two ops are equal under `__eq__` (same class and same config tuple) exactly when they are the same op; output types of different type classes differ |
| `CurandOps.Hash` | theano/sandbox/cuda/rng_curand.py:69-70 | the hash is the given hash function applied to (class, config), and every op equal to this one has that same pair |
| `CurandOps.EqualOpsHashEqually` | theano/sandbox/cuda/rng_curand.py:66-70 | equal ops have equal hashes, whatever hash function is used for (class, config) |
| `CurandOps.AsDestructiveEqualIff` | theano/sandbox/cuda/rng_curand.py:54-67 | an op equals its destructive twin exactly when it is already destructive; `as_destructive` is idempotent |
| `CurandOps.Outputs` | theano/sandbox/cuda/rng_curand.py:76-78 | a node has one output variable per output type, and output k is the k-th output of that node |
| `CurandOps.MakeNode` | theano/sandbox/cuda/rng_curand.py:76-78 | the node has inputs [generator, size] and outputs a generator of the input generator's type and a sample of the op's output type |
| `CurandOps.Inputs` | theano/sandbox/cuda/rng_curand.py:76-78 | a CURAND node's inputs are its generator, then its size; any other node's inputs are its own |
| `CurandOps.OutputTypes` | theano/sandbox/cuda/rng_curand.py:76-78 | a CURAND node yields a new generator of its input generator's type, then a sample of the op's output type; any other node's output types are its own |
| `CurandOps.NewAutoUpdate` | theano/sandbox/cuda/rng_curand.py:81-101 | succeeds exactly when ndim is given or the vector length is known; builds a non-destructive op of the given class and seed, of rank ndim (or the vector length), applied to the generator and the cast size the framework returned; the sample is output 1 and the update pair is (generator, output 0) |
| `CurandOps.AutoUpdateIgnoresDtype` | theano/sandbox/cuda/rng_curand.py:81-94 | the result does not depend on the dtype argument, and the sample is always float32 |
| `DestructiveRewrite.LocalDestructive` | theano/sandbox/cuda/rng_curand.py:349-356 | a rewrite is returned exactly for a non-destructive CURAND node; it is the outputs of a destructive node with the same class, output type, seed and inputs, typed like the original outputs |
| `DestructiveRewrite.Rewritten` | theano/sandbox/cuda/rng_curand.py:349-356 | a candidate node is replaced by the node owning the rewrite's outputs; any other node is kept |
| `DestructiveRewrite.LocalDestructiveIdempotent` | theano/sandbox/cuda/rng_curand.py:349-356 | the rewrite does not apply to its own result, so rewriting twice equals rewriting once |
| `DestructiveRewrite.DestructivePass` | theano/sandbox/cuda/rng_curand.py:357-359 | the pass keeps the graph's length and rewrites each node on its own, node k becoming the rewrite of node k |
| `DestructiveRewrite.DestructivePassComplete` | theano/sandbox/cuda/rng_curand.py:349-359 | after the pass no node is left for the rewrite; every node keeps its inputs and output types; non-candidates are untouched |
| `DestructiveRewrite.DestructivePassIdempotent` | theano/sandbox/cuda/rng_curand.py:349-359 | running the pass a second time changes nothing |
| `RandomStreams.SeedsFrom` | theano/sandbox/cuda/rng_curand.py:282-286 | after n calls the counter has handed out n seeds, the last one being start + n - 1 |
| `RandomStreams.SeedsFromAt` | theano/sandbox/cuda/rng_curand.py:282-286 | the k-th seed handed out after the counter starts at `start` is start + k |
| `RandomStreams.SeedsStrictlyIncreasing` | theano/sandbox/cuda/rng_curand.py:268-286 | seeds are handed out strictly increasing, and the next one has never been handed out |
| `RandomStreams.SizeAccepted` | theano/sandbox/cuda/rng_curand.py:300-306 | a tuple size is accepted exactly when each item is an int or a variable; a variable exactly when it has rank 1; anything else is refused |
| `RandomStreams.SharedFalse` | theano/sandbox/cuda/rng_curand.py:307 | the placeholder generator is a leaf variable of generic type |
| `RandomStreams.DistinctGeneratorsAppend` | theano/sandbox/cuda/rng_curand.py:307-311 | making a generator with an unused id, and recording its pair, keeps the log's generators distinct shared variables |
| `RandomStreams.RecordedTargetsDistinct` | theano/sandbox/cuda/rng_curand.py:309-311 | in a log ordered by seed, no two pairs update to the same generator value |
| `RandomStreams.RecordedInOrderAppend` | theano/sandbox/cuda/rng_curand.py:309-311 | appending the pair of an op seeded with the current counter keeps the log in strictly increasing seed order |
| `RandomStreams.CurandRandomStreams.constructor` | theano/sandbox/cuda/rng_curand.py:268-274 | start seed and counter are the given seed, the log is empty and no state is lost |
| `RandomStreams.CurandRandomStreams.Restore` | theano/sandbox/cuda/rng_curand.py:288-293 | unpickling sets the four fields back from the saved state |
| `RandomStreams.CurandRandomStreams.Updates` | theano/sandbox/cuda/rng_curand.py:276-280 | the result holds exactly the recorded pairs, in order, as an unaliased value |
| `RandomStreams.CurandRandomStreams.NextSeed` | theano/sandbox/cuda/rng_curand.py:282-286 | returns the old counter and increments it; the seed is larger than every seed handed out before |
| `RandomStreams.CurandRandomStreams.GetState` | theano/sandbox/cuda/rng_curand.py:288-293 | the saved state keeps both seeds, has an empty log and the lost-states flag set; the object is not changed |
| `RandomStreams.CurandRandomStreams.Draw` | theano/sandbox/cuda/rng_curand.py:300-311 | a refused size raises AssertionError and changes nothing; otherwise a fresh generator is made, exactly one seed is taken, and exactly the auto-update's pair is appended when it is built; earlier entries are unchanged; a broadcast mismatch still raises after recording; the recorded generators stay distinct |
| `RandomStreams.CurandRandomStreams.Uniform` | theano/sandbox/cuda/rng_curand.py:295-318 | as Draw, for the uniform class |
| `RandomStreams.CurandRandomStreams.Normal` | theano/sandbox/cuda/rng_curand.py:320-346 | as Draw, for the normal class |
| `RandomStreams.SaveAndRestore` | theano/sandbox/cuda/rng_curand.py:288-293 | a restored copy keeps both seeds, has no pairs and is marked as having lost them; the saved stream is unchanged |
| `CurandKernel.ValidateSize` | theano/sandbox/cuda/rng_curand.py:153-168 | passes exactly for a rank-1 int32 vector of length ndim; otherwise fails at the first check that fails, in the order rank, length, dtype |
| `CurandKernel.Product` | theano/sandbox/cuda/rng_curand.py:148-172 | n_elements, the left-to-right product of the dimensions, is zero when some dimension is zero and not negative when no dimension is |
| `CurandKernel.NeedsNewSample` | theano/sandbox/cuda/rng_curand.py:149-174 | the sample is reallocated exactly unless the slot already holds a device buffer with the requested dimensions |
| `CurandKernel.ComputeDims` | theano/sandbox/cuda/rng_curand.py:169-175 | the loop reads the dimensions from the size vector, gives n_elements as their product, and gives must_alloc_sample as the reallocation condition |
| `CurandKernel.CurandSeed` | theano/sandbox/cuda/rng_curand.py:196-197 | CURAND receives the seed as an unsigned 64-bit value: congruent to the op's seed modulo 2^64 and in [0, 2^64), equal to it when it is already in range, 2^64 - k for a seed -k |
| `CurandKernel.Generate` | theano/sandbox/cuda/rng_curand.py:218-228 | a successful draw appends exactly one call of the op's class and count to the handle's context and reports success; a failed one reports GenerationFailed; no other context, no seed and no output slot changes |
| `CurandKernel.Step` | theano/sandbox/cuda/rng_curand.py:145-228 | one execution adds at most one context and reseeds none; on success the sample slot holds a buffer of the requested dimensions and the output generator is a live handle |
| `CurandKernel.StepValidatesFirst` | theano/sandbox/cuda/rng_curand.py:153-168 | a failing size check returns its failure with the state unchanged, before the sample or the generator is touched |
| `CurandKernel.StepSample` | theano/sandbox/cuda/rng_curand.py:176-184 | a failed allocation empties the slot and fails; otherwise the slot holds a buffer of the requested dimensions, which is the old one exactly when that one fit |
| `CurandKernel.StepAllocates` | theano/sandbox/cuda/rng_curand.py:185-204 | the placeholder creates a new arena context seeded with the op's seed modulo 2^64 and outputs a handle on it; earlier contexts are kept; a failed create or seed produces no handle |
| `CurandKernel.StepDestructivePassesHandle` | theano/sandbox/cuda/rng_curand.py:205-228 | a destructive op outputs the input handle itself; no context is created; only that handle's context changes, by the one draw |
| `CurandKernel.StepNonDestructiveFails` | theano/sandbox/cuda/rng_curand.py:212-217 | a non-destructive op on a live handle fails with NotImplementedError, drawing nothing and creating no context |
| `CurandKernel.StepPreservesValid` | theano/sandbox/cuda/rng_curand.py:185-228 | an execution keeps the output handle live; the arena never shrinks and no context is reseeded |
| `CurandKernel.ThreadedExecutions` | theano/sandbox/cuda/rng_curand.py:185-217 | a first run from the placeholder allocates a handle; feeding it back into the non-destructive op fails; its destructive twin reuses the handle and draws on the same context again |
| `CurandKernel.KernelState.Perform` | theano/sandbox/cuda/rng_curand.py:145-228 | the imperative kernel leaves the arena and the output slots exactly as `Step` says |

## Left out

- The native CUDA/CURAND calls are left out: `curandCreateGenerator`, `curandSetPseudoRandomGeneratorSeed`, `curandGenerateUniform`/`curandGenerateNormal`, `CudaNdarray_NewDims` and `cudaThreadSynchronize`. Each one is reduced to a success flag in `Native`, and a draw is recorded as its class and count, not its values.
- The random values are left out, and so is the affine scaling `u*(high-low)+low` / `u*std+avg`. These are floating-point numerics. `Uniform` and `Normal` return the raw sample variable.
- The broadcast-pattern comparison in `uniform`/`normal` is left out. It depends on Theano's tensor type system, so its answer is the parameter `broadcastMismatch`.
- Theano graph plumbing is left out: `theano.shared`, `as_tensor_variable`, `get_vector_length`, `cast`, `Apply` objects, `generator.default_update` and `sample.generator`. Their results are parameters (the generator id, `SizeArg`), and the update pair stands for the default update.
- Theano types other than tensor types are left out. An output type is its class (a device `CudaNdarrayType` or a host `TensorType`), its dtype and its broadcast pattern, and type equality compares exactly those three.
- The optimizer registration (`optdb.register`, priority 99, tags, `in2out`) is left out. The pass is a map over a list of nodes. Consumers' inputs are not re-pointed to the new outputs. That splicing is done by the framework, and the model only proves the replacement has the same inputs and output types.
- `DestructiveRewrite.DestructivePassComplete`: the model's pass applies every rewrite, so no candidate is left in the result. The registered `in2out` pass can decline a replacement that the framework's validation refuses, so the registered pass may leave candidates behind.
- Python reference counting (`Py_XDECREF`/`Py_INCREF`) and the destruction of contexts by `free_generator` are left out, so the arena only grows. On the failure paths the old output generator slot is left as it was.
- The memory leak of `gen` on the create/seed failure paths is left out. The model does not claim that contexts are never leaked: on a seed failure an unseeded context stays in the arena with no handle on it.
- The C `assert(i_generator == Py_False)` is left out. Only the placeholder and real handles are modelled as generator values.
- `c_headers`, `c_libraries`, `c_code_cache_version`, `__str__`, `free_generator`'s stderr message and the PY3 `PyCObject`→`NpyCapsule` substitution are left out. They are build and C-API glue.
- Python `assert` statements are modelled as always enabled: the float32 check in the op constructor and the size checks in `uniform`/`normal` always run. Under `python -O` they are skipped, and that behaviour is not modelled.
- `CurandKernel.KernelState` holds the context arena together with the two output slots of one node. So the imperative model shows one node's executions. Two CURAND nodes drawing on one handle (say, two compiled functions over the same shared generator) are shown only by the pure `Step`, applied in turn to one `DeviceState`.
- Only float32 is modelled: `c_code`'s branch for `double` output is unreachable as long as assertions run, since construction asserts float32.
- `CurandKernel.ComputeDims`: `n_elements` and `odims` are C `int`s. Overflow of their product is not modelled; the product is unbounded.
- `CurandKernel.Step`: the size array's elements are assumed to be read in order, one per dimension. Strides are left out.
- `RandomStreams.CurandRandomStreams.Restore`: Python's default unpickling copies the dictionary back; the model requires the restored log to be ordered by seed, as every saved state's empty log is, and its generators to be distinct shared variables.
- `CurandKernel.CurandSeed`: a seed of magnitude 2^64 or more does not fit in any C integer literal. The model reduces it modulo 2^64 like any other seed, and what the C compiler does with such a literal is not modelled.
