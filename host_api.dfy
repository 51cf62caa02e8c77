/**
  The collaborators of the model descriptor, reduced to the answers they give.
  Every host call and every accessor of the parsed configuration document is an
  abstract input: the value it would produce, or the error it would raise.
 */
module HostApi {
  import opened Wrappers

  /** Handles owned by the server: stored by the descriptor, never inspected. */
  datatype MessageHandle = MessageHandle(id: nat)
  datatype ServerHandle = ServerHandle(id: nat)
  datatype BackendHandle = BackendHandle(id: nat)
  datatype MemoryManagerHandle = MemoryManagerHandle(id: nat)

  /** Where the model's repository lives. */
  datatype ArtifactType = Filesystem | RemoteFilesystem

  datatype Repository = Repository(artifact: ArtifactType, path: string)

  /** A batch input as its own parser produces it; opaque to this core. */
  datatype BatchInput = BatchInput(targetNames: seq<string>)

  /** A batch output as its own parser produces it: the output names it owns. */
  datatype BatchOutput = BatchOutput(targetNames: seq<string>)

  /**
    One entry of the configuration's `input` array. `name` is the outcome of
    reading the string member `name`; each flag is None when its key is absent,
    otherwise the outcome of reading the key's value as a boolean.
   */
  datatype InputDecl = InputDecl(
    name: Result<string>,
    allowRaggedBatch: Option<Result<bool>>,
    optional: Option<Result<bool>>)

  /** A `*_pinned_memory` section: the outcome of reading its boolean `enable`. */
  datatype PinnedMemory = PinnedMemory(enable: Result<bool>)

  /** The `optimization` section: each pinned-memory sub-section, when present. */
  datatype Optimization = Optimization(
    inputPinnedMemory: Option<PinnedMemory>,
    outputPinnedMemory: Option<PinnedMemory>)

  /**
    The parsed model configuration, as seen through its accessors:
    the integer member `max_batch_size`, the `optimization` section when present,
    the batch-input and batch-output parsers' outcomes, and the `input` array
    (the array accessor's outcome, then each element's object accessor's outcome).
   */
  datatype ModelConfig = ModelConfig(
    maxBatchSize: Result<int>,
    optimization: Option<Optimization>,
    batchInputs: Result<seq<BatchInput>>,
    batchOutputs: Result<seq<BatchOutput>>,
    inputs: Result<seq<Result<InputDecl>>>)

  /**
    What the server answers, at load time, about the model being built:
    the configuration message, its JSON serialization, the parse of that text,
    the release of the message, then the model's name, version, repository,
    server handle, backend handle and the backend's memory manager.
   */
  datatype Host = Host(
    configMessage: Result<MessageHandle>,
    serializedConfig: Result<string>,
    parsedConfig: Result<ModelConfig>,
    messageDelete: Result<()>,
    modelName: Result<string>,
    modelVersion: Result<nat>,
    modelRepository: Result<Repository>,
    modelServer: Result<ServerHandle>,
    modelBackend: Result<BackendHandle>,
    memoryManager: Result<MemoryManagerHandle>)
}
