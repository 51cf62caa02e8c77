# BackendModel: the model descriptor of an inference-server backend

This project models the core of a backend's `BackendModel` class
(`src/backend_model.cc`). A backend builds one `BackendModel` per loaded model.
The constructor reads the model configuration that the server hands over. It
takes the name, version, maximum batch size and repository path from the server,
and reads the pinned-memory flags from the `optimization` section. It builds the
index from batch-output names to batch outputs, and sorts the declared inputs
into a ragged set and an optional set. After construction the object is
read-only, except for one memoized answer: whether the model batches along its
first dimension. The server can only answer that once the model is loaded, so
the answer is fetched on first use and cached.

Modules:

- `Wrappers`: the `Result`/`Option` types and the server's error object (a kind and a message).
- `HostApi`: what the server and the parsed configuration would answer. There is one
  `Result` for each host call or accessor that can fail, and one `Option` for each key that may be absent.
- `InputClassification`: the input loop. `Classify` is the loop as a function, and
  `ClassifyInputs` is the loop itself. The lemmas say what the two name sets contain
  and when classification fails.
- `BatchOutputs`: the batch-output index. `Index` folds `emplace` over the target names,
  and `BuildIndex` is the nested registration loop. A lemma proves that the first registration wins.
- `CapabilityCache`: `Cache = Unresolved | Resolved(bool)`. It also holds the history of
  batch-properties queries sent to the server, and the cache that history determines.
- `Backend`: the pinned-flag reader, `Build` (construction as a value), and the class
  `BackendModel` with `Create`, `SupportsFirstDimBatching` and `FindBatchOutput`.

Some behaviour follows the code even where a reader might expect something else:

- An absent `max_batch_size` is not defaulted to 0. The code reads it with a strict
  integer accessor and raises that accessor's error. Here, the accessor's outcome is an input.
- When two batch outputs declare the same target name, the earliest one keeps it.
  This is because the index is built with `emplace`, which never overwrites. It is not last-wins.
- The error for a disallowed optional input names the input only, not the model.
  The code's message is `'optional' is set to true for input '<name>' while the backend model doesn't support optional input`.
- The first failing step decides the error. If releasing the configuration message
  fails, that error is raised before the parse error (lines 54-56).
- The answer to the capability query is cached as a `Cache` value. The source's pair of
  fields (`supports_batching_initialized_`, `supports_batching_`) is the same two-state value.

## Model

| member | source | states |
|---|---|---|
| `InputClassification.ClassifyInputs` | src/backend_model.cc:118-150 | The input loop returns what `Classify` specifies: the ragged and optional name sets, or the first error raised by an accessor or by the optional-input check. |
| `InputClassification.FirstErrorStands` | src/backend_model.cc:121-149 | An error raised while reading the first k inputs is the error of the whole loop, because a throw ends the loop. |
| `InputClassification.ClassifySucceedsIff` | src/backend_model.cc:121-149 | Classification succeeds exactly when every input's name and flags can be read and, unless optional inputs are allowed, no input is marked `optional: true`. |
| `InputClassification.ClassifiedSetsExact` | src/backend_model.cc:126-142 | After success, a name is in the ragged set exactly when some declared input with that name has `allow_ragged_batch: true`. It is in the optional set exactly when some declared input with that name has `optional: true`. An absent key counts as false. |
| `InputClassification.FirstOptionalRejected` | src/backend_model.cc:139-148 | Without optional-input support, the first input marked optional fails the loop with an INVALID_ARG error naming that input, provided every input before it is readable and not optional. |
| `BatchOutputs.EmplaceAllKeeps` | src/backend_model.cc:114-116 | Emplacing names adds exactly the new names, with the given owner. A name that is already a key keeps its owner. |
| `BatchOutputs.IndexFirstWins` | src/backend_model.cc:113-117 | The index keys are exactly the target names of the batch outputs. Each key maps to the earliest batch output that declares it. |
| `BatchOutputs.BuildIndex` | src/backend_model.cc:113-117 | The nested registration loop builds `Index(outs)`. So every target name is a key, no other name is, and each maps to its first declaring batch output. |
| `CapabilityCache.MemoExtend` | src/backend_model.cc:159-164 | A query history that leaves the cache unresolved holds no successful query. One more query resolves the cache to `(flags & FIRST_DIM) != 0` when it succeeds and leaves it unresolved when it fails. Afterwards there is at most one success. |
| `CapabilityCache.MemoStable` | src/backend_model.cc:159-167 | Once a history resolves the cache, no later query changes the cached value. |
| `Backend.ReadPinnedFlags` | src/backend_model.cc:92-107 | Each pinned flag is false unless both `optimization` and its own `*_pinned_memory` section are present. In that case the flag is the section's `enable`. A present section whose `enable` cannot be read fails, the input section first. The two flags are independent. |
| `Backend.Build` | src/backend_model.cc:36-150 | On success the descriptor carries the server's name, version, server and memory-manager handles, the configured max batch size and the repository path. A non-filesystem repository always fails, and fails with UNSUPPORTED naming the model once every earlier call succeeded. Past the checks, construction succeeds exactly when classification does. |
| `Backend.BuiltDescriptorInvariants` | src/backend_model.cc:113-150 | A built descriptor's ragged and optional sets hold exactly the names declared with the matching flag. No optional input exists unless optional inputs are allowed. The batch-output index holds every target name, mapped to its earliest declaring batch output. |
| `Backend.OptionalInputRejected` | src/backend_model.cc:135-149 | Take a model that passes every step before the input loop, where input i is the first marked optional and every input before it is readable. Building it without optional-input support fails with the INVALID_ARG error naming input i. |
| `Backend.BackendModel.constructor` | src/backend_model.cc:36-39 | A new object holds the built configuration with the batching capability unresolved and no query sent. |
| `Backend.BackendModel.Create` | src/backend_model.cc:36-150 | Construction returns an object whose state is `Build`'s descriptor and that satisfies `Valid()`, with the cache unresolved. Otherwise it returns exactly `Build`'s error. |
| `Backend.BackendModel.SupportsFirstDimBatching` | src/backend_model.cc:153-169 | A resolved cache answers its value with no query. An unresolved cache sends one query for this model's server, name and version. Success caches and returns `(flags & FIRST_DIM) != 0`. Failure returns the error and leaves the cache unresolved. `Valid()` is kept, so across all calls at most one query succeeds. |
| `Backend.BackendModel.FindBatchOutput` | src/backend_model.cc:171-176 | It returns a batch output exactly when some batch output declares the name, and then the earliest one. Otherwise it returns None. It reads only, and never fails. |

## Left out

- Host calls (`TRITONBACKEND_ModelConfig`, `ModelName`, `ModelVersion`, `ModelRepository`, `ModelServer`, `ModelBackend`, `BackendMemoryManager`, `TRITONSERVER_MessageSerializeToJson`, `TRITONSERVER_MessageDelete`, `TRITONSERVER_ServerModelBatchProperties`) are foreign calls. Each is an abstract `Result` input. The model handle is not stored: the `Host` value stands for it.
- The memory manager is a single answer in `Host`. The model does not capture that the server derives it from the backend handle.
- The JSON library (`Parse`, `Find`, `MemberAsInt`, `MemberAsBool`, `MemberAsString`, `MemberAsArray`, `IndexAsObject`, `AsBool`) is a foreign library. The parsed configuration is a record with one `Result`/`Option` per accessor. Its relation to the serialized text is not modelled.
- `BatchInput::ParseFromModelConfig` and `BatchOutput::ParseFromModelConfig` are not part of this model. Their outcomes are given sequences, and a batch output is reduced to its target names.
- Message-buffer lifetime is not modelled. When serialization fails at lines 51-52, the configuration message is not released. That leak is resource plumbing.
- Concurrency of the first capability query, and C++ exception mechanics, are not modelled. A throw is an `Err` result.
- `Backend.BackendModel.Create`: does not model the object being written field by field before a later step throws, because a throwing constructor discards the object. The values are computed in source order and stored once at the end.
- `Backend.Build`: does not model the narrowing of the 64-bit `max_batch_size` into the field's type. The header that declares that field is not part of this model.
- The value `2` of the first-dimension batch flag comes from the server's API header, which is not part of this model.
- The accessors declared in the header (`Name()`, `IsRaggedInput`, `IsOptionalInput`, …) are not part of this model. They read the fields that `Snapshot` exposes.
