/**
  The model descriptor a backend builds once per loaded model: validated
  configuration fields, the classified inputs, the batch-output index, and the
  lazily resolved first-dimension batching capability.
 */
module Backend {
  import opened Wrappers
  import opened HostApi
  import opened InputClassification
  import opened BatchOutputs
  import opened CapabilityCache

  /** The error raised when the model's repository is not on a filesystem. */
  function UnsupportedRepository(modelName: string): Error
  {
    Error(Unsupported, "unsupported repository artifact type for model '" + modelName + "'")
  }

  /** The `input_pinned_memory` section, present only inside a present `optimization`. */
  function InputPinnedSection(optimization: Option<Optimization>): Option<PinnedMemory>
  {
    if optimization.Some? then optimization.value.inputPinnedMemory else None
  }

  /** The `output_pinned_memory` section, present only inside a present `optimization`. */
  function OutputPinnedSection(optimization: Option<Optimization>): Option<PinnedMemory>
  {
    if optimization.Some? then optimization.value.outputPinnedMemory else None
  }

  /** A section is absent, or its `enable` member reads as a boolean. */
  predicate EnableReadable(section: Option<PinnedMemory>)
  {
    section.None? || section.value.enable.Ok?
  }

  /** A section is present and its `enable` member is true. */
  predicate Enabled(section: Option<PinnedMemory>)
  {
    section.Some? && section.value.enable == Ok(true)
  }

  /** The input and output pinned-memory flags. */
  datatype PinnedFlags = PinnedFlags(input: bool, output: bool)

  /**
    Reads the pinned-memory flags. Each flag is false unless its section is
    present, and then it is that section's `enable`; a present section whose
    `enable` cannot be read as a boolean is an error, the input section's first.
   */
  function ReadPinnedFlags(optimization: Option<Optimization>): (r: Result<PinnedFlags>)
    ensures r.Ok? <==> EnableReadable(InputPinnedSection(optimization)) && EnableReadable(OutputPinnedSection(optimization))
    ensures r.Ok? ==> r.value.input == Enabled(InputPinnedSection(optimization))
    ensures r.Ok? ==> r.value.output == Enabled(OutputPinnedSection(optimization))
    ensures !EnableReadable(InputPinnedSection(optimization)) ==>
      r == Err(InputPinnedSection(optimization).value.enable.error)
    ensures EnableReadable(InputPinnedSection(optimization)) && !EnableReadable(OutputPinnedSection(optimization)) ==>
      r == Err(OutputPinnedSection(optimization).value.enable.error)
  {
    match optimization
    case None => Ok(PinnedFlags(false, false))
    case Some(o) =>
      var input :- if o.inputPinnedMemory.Some? then o.inputPinnedMemory.value.enable else Ok(false);
      var output :- if o.outputPinnedMemory.Some? then o.outputPinnedMemory.value.enable else Ok(false);
      Ok(PinnedFlags(input, output))
  }

  /** The state a successful construction leaves, as a value. */
  datatype Descriptor = Descriptor(
    config: ModelConfig,
    name: string,
    version: nat,
    maxBatchSize: int,
    repositoryPath: string,
    server: ServerHandle,
    memoryManager: MemoryManagerHandle,
    pinnedInput: bool,
    pinnedOutput: bool,
    batchInputs: seq<BatchInput>,
    batchOutputs: seq<BatchOutput>,
    batchOutputIndex: map<string, nat>,
    raggedInputs: set<string>,
    optionalInputs: set<string>)

  /** Every host call and accessor up to and including the repository query succeeds. */
  predicate ReachesRepositoryCheck(host: Host)
  {
    && host.configMessage.Ok?
    && host.serializedConfig.Ok?
    && host.messageDelete.Ok?
    && host.parsedConfig.Ok?
    && host.modelName.Ok?
    && host.modelVersion.Ok?
    && host.parsedConfig.value.maxBatchSize.Ok?
    && host.modelRepository.Ok?
  }

  /**
    Every step before the input loop succeeds: the repository is on a filesystem,
    the handles, the pinned flags, both batch parsers and the `input` array can be read.
   */
  predicate ReachesInputLoop(host: Host)
  {
    && ReachesRepositoryCheck(host)
    && host.modelRepository.value.artifact == Filesystem
    && host.modelServer.Ok?
    && host.modelBackend.Ok?
    && host.memoryManager.Ok?
    && ReadPinnedFlags(host.parsedConfig.value.optimization).Ok?
    && host.parsedConfig.value.batchInputs.Ok?
    && host.parsedConfig.value.batchOutputs.Ok?
    && host.parsedConfig.value.inputs.Ok?
  }

  /**
    Construction as a value: the descriptor built from what the host answers, or
    the first error raised on the way.
   */
  function Build(host: Host, allowOptional: bool): (r: Result<Descriptor>)
    ensures r.Ok? ==> ReachesInputLoop(host)
    ensures r.Ok? ==>
      && r.value.config == host.parsedConfig.value
      && r.value.name == host.modelName.value
      && r.value.version == host.modelVersion.value
      && r.value.maxBatchSize == host.parsedConfig.value.maxBatchSize.value
      && r.value.server == host.modelServer.value
      && r.value.memoryManager == host.memoryManager.value
    ensures r.Ok? ==> r.value.repositoryPath == host.modelRepository.value.path
    ensures host.modelRepository.Ok? && host.modelRepository.value.artifact != Filesystem ==> r.Err?
    ensures ReachesRepositoryCheck(host) && host.modelRepository.value.artifact != Filesystem ==>
      r == Err(UnsupportedRepository(host.modelName.value))
    ensures r.Ok? ==>
      ReadPinnedFlags(host.parsedConfig.value.optimization) == Ok(PinnedFlags(r.value.pinnedInput, r.value.pinnedOutput))
    ensures r.Ok? ==>
      && host.parsedConfig.value.batchInputs == Ok(r.value.batchInputs)
      && host.parsedConfig.value.batchOutputs == Ok(r.value.batchOutputs)
      && r.value.batchOutputIndex == Index(r.value.batchOutputs)
    ensures ReachesInputLoop(host) ==>
      (r.Ok? <==> Classify(host.parsedConfig.value.inputs.value, allowOptional).Ok?)
    ensures ReachesInputLoop(host) && r.Err? ==> r == Classify(host.parsedConfig.value.inputs.value, allowOptional).PropagateFailure()
    ensures r.Ok? ==>
      Classify(host.parsedConfig.value.inputs.value, allowOptional) == Ok(Classification(r.value.raggedInputs, r.value.optionalInputs))
  {
    var message :- host.configMessage;
    var json :- host.serializedConfig;
    var deleted :- host.messageDelete;
    var config :- host.parsedConfig;
    var name :- host.modelName;
    var version :- host.modelVersion;
    var maxBatchSize :- config.maxBatchSize;
    var repository :- host.modelRepository;
    if repository.artifact != Filesystem then Err(UnsupportedRepository(name))
    else
      var server :- host.modelServer;
      var backend :- host.modelBackend;
      var memoryManager :- host.memoryManager;
      var pinned :- ReadPinnedFlags(config.optimization);
      var batchInputs :- config.batchInputs;
      var batchOutputs :- config.batchOutputs;
      var decls :- config.inputs;
      var classes :- Classify(decls, allowOptional);
      Ok(Descriptor(config, name, version, maxBatchSize, repository.path, server, memoryManager,
                    pinned.input, pinned.output, batchInputs, batchOutputs, Index(batchOutputs),
                    classes.ragged, classes.optional))
  }

  /**
    What a built descriptor promises its callers: the ragged and optional sets
    hold exactly the names of the inputs declared with the matching flag, no
    optional input exists unless optional inputs are allowed, and the batch-output
    index holds every target name, mapped to the earliest batch output declaring it.
   */
  lemma BuiltDescriptorInvariants(host: Host, allowOptional: bool)
    requires Build(host, allowOptional).Ok?
    ensures var d := Build(host, allowOptional).value;
      var decls := host.parsedConfig.value.inputs.value;
      && (forall n :: n in d.raggedInputs <==> exists i :: 0 <= i < |decls| && MarkedRagged(decls[i], n))
      && (forall n :: n in d.optionalInputs <==> exists i :: 0 <= i < |decls| && MarkedOptional(decls[i], n))
      && (forall i :: 0 <= i < |decls| ==> WellFormed(decls[i]) && (allowOptional || !IsOptional(decls[i])))
      && (forall n :: n in d.batchOutputIndex <==> exists i :: Declares(d.batchOutputs, i, n))
      && (forall n :: n in d.batchOutputIndex ==> IsFirstOwner(d.batchOutputs, n, d.batchOutputIndex[n]))
  {
    var decls := host.parsedConfig.value.inputs.value;
    ClassifiedSetsExact(decls, allowOptional);
    ClassifySucceedsIff(decls, allowOptional);
    IndexFirstWins(Build(host, allowOptional).value.batchOutputs);
  }

  /**
    A backend that does not support optional inputs fails to build for a model
    whose first optional input (every input before it being readable) is number
    `i`, with the invalid-argument error naming that input.
   */
  lemma OptionalInputRejected(host: Host, i: nat)
    requires ReachesInputLoop(host)
    requires var decls := host.parsedConfig.value.inputs.value;
      && i < |decls|
      && (forall k :: 0 <= k < i ==> WellFormed(decls[k]) && !IsOptional(decls[k]))
      && WellFormed(decls[i]) && IsOptional(decls[i])
    ensures var decls := host.parsedConfig.value.inputs.value;
      Build(host, false) == Err(OptionalNotSupported(decls[i].value.name.value))
  {
    FirstOptionalRejected(host.parsedConfig.value.inputs.value, i);
  }

  /** The descriptor object: built once, then only its capability cache changes. */
  class BackendModel {
    var config: ModelConfig
    var name: string
    var version: nat
    var maxBatchSize: int
    var repositoryPath: string
    var server: ServerHandle
    var memoryManager: MemoryManagerHandle
    var pinnedInput: bool
    var pinnedOutput: bool
    var batchInputs: seq<BatchInput>
    var batchOutputs: seq<BatchOutput>
    var batchOutputIndex: map<string, nat>
    var raggedInputs: set<string>
    var optionalInputs: set<string>
    var supportsBatching: Cache
    /** The batch-properties queries this object has sent to the server, in order. */
    ghost var hostQueries: seq<BatchPropertiesQuery>

    /**
      The index matches the batch outputs, the cache is what the queries sent so
      far leave behind, and at most one of those queries succeeded.
     */
    ghost predicate Valid()
      reads this
    {
      && batchOutputIndex == Index(batchOutputs)
      && supportsBatching == Memo(hostQueries)
      && Successes(hostQueries) <= 1
    }

    /** The configuration part of the object's state, as a value. */
    function Snapshot(): Descriptor
      reads this
    {
      Descriptor(config, name, version, maxBatchSize, repositoryPath, server, memoryManager,
                 pinnedInput, pinnedOutput, batchInputs, batchOutputs, batchOutputIndex,
                 raggedInputs, optionalInputs)
    }

    /**
      An object holding the built descriptor `d`, with the capability not yet
      known and no query sent.
     */
    constructor (d: Descriptor)
      ensures Snapshot() == d
      ensures supportsBatching == Unresolved && hostQueries == []
    {
      config, name, version, maxBatchSize := d.config, d.name, d.version, d.maxBatchSize;
      repositoryPath, server, memoryManager := d.repositoryPath, d.server, d.memoryManager;
      pinnedInput, pinnedOutput := d.pinnedInput, d.pinnedOutput;
      batchInputs, batchOutputs, batchOutputIndex := d.batchInputs, d.batchOutputs, d.batchOutputIndex;
      raggedInputs, optionalInputs := d.raggedInputs, d.optionalInputs;
      supportsBatching := Unresolved;
      hostQueries := [];
    }

    /**
      Builds the descriptor for the model the host describes, or returns the first
      error met. It agrees with `Build` in every case.
     */
    static method Create(host: Host, allowOptional: bool) returns (r: Result<BackendModel>)
      ensures r.Ok? ==> fresh(r.value) && r.value.Valid()
      ensures r.Ok? ==> r.value.supportsBatching == Unresolved && r.value.hostQueries == []
      ensures Build(host, allowOptional) == if r.Ok? then Ok(r.value.Snapshot()) else Err(r.error)
    {
      var message :- host.configMessage;
      var json :- host.serializedConfig;
      var parsed := host.parsedConfig;
      var deleted :- host.messageDelete;
      var config :- parsed;

      var name :- host.modelName;
      var version :- host.modelVersion;
      var maxBatchSize :- config.maxBatchSize;

      var repository :- host.modelRepository;
      if repository.artifact != Filesystem {
        return Err(UnsupportedRepository(name));
      }

      var server :- host.modelServer;
      var backend :- host.modelBackend;
      var memoryManager :- host.memoryManager;

      var pinnedInput := false;
      var pinnedOutput := false;
      if config.optimization.Some? {
        var pinnedMemory := config.optimization.value.inputPinnedMemory;
        if pinnedMemory.Some? {
          pinnedInput :- pinnedMemory.value.enable;
        }
        pinnedMemory := config.optimization.value.outputPinnedMemory;
        if pinnedMemory.Some? {
          pinnedOutput :- pinnedMemory.value.enable;
        }
      }

      var batchInputs :- config.batchInputs;
      var batchOutputs :- config.batchOutputs;
      var batchOutputIndex := BuildIndex(batchOutputs);

      var decls :- config.inputs;
      var classes :- ClassifyInputs(decls, allowOptional);

      var m := new BackendModel(Descriptor(
        config, name, version, maxBatchSize, repository.path, server, memoryManager,
        pinnedInput, pinnedOutput, batchInputs, batchOutputs, batchOutputIndex,
        classes.ragged, classes.optional));
      r := Ok(m);
    }

    /**
      Whether the model batches along its first dimension. The first call that
      finds the cache unresolved sends the batch-properties query, given here as
      its `answer`; a failed query is returned and leaves the cache unresolved,
      a successful one resolves it for good. A resolved cache answers without
      a query.
     */
    method SupportsFirstDimBatching(answer: Result<bv32>) returns (r: Result<bool>)
      requires Valid()
      modifies this`supportsBatching, this`hostQueries
      ensures Valid()
      ensures old(supportsBatching).Resolved? ==>
        && hostQueries == old(hostQueries)
        && supportsBatching == old(supportsBatching)
        && r == Ok(old(supportsBatching).value)
      ensures old(supportsBatching).Unresolved? ==>
        hostQueries == old(hostQueries) + [BatchPropertiesQuery(server, name, version, answer)]
      ensures old(supportsBatching).Unresolved? && answer.Ok? ==>
        supportsBatching == Resolved(FirstDim(answer.value)) && r == Ok(FirstDim(answer.value))
      ensures old(supportsBatching).Unresolved? && answer.Err? ==>
        supportsBatching == Unresolved && r == Err(answer.error)
    {
      if supportsBatching.Unresolved? {
        var query := BatchPropertiesQuery(server, name, version, answer);
        MemoExtend(hostQueries, query);
        hostQueries := hostQueries + [query];
        if answer.Err? {
          return Err(answer.error);
        }
        supportsBatching := Resolved(FirstDim(answer.value));
      }
      r := Ok(supportsBatching.value);
    }

    /**
      The batch output that owns `outputName`, as its position in the batch-output
      list, or None for a name no batch output declares.
     */
    function FindBatchOutput(outputName: string): (r: Option<nat>)
      reads this
      requires Valid()
      ensures r.Some? <==> exists i :: Declares(batchOutputs, i, outputName)
      ensures r.Some? ==> IsFirstOwner(batchOutputs, outputName, r.value)
    {
      IndexFirstWins(batchOutputs);
      if outputName in batchOutputIndex then Some(batchOutputIndex[outputName]) else None
    }
  }
}
