/**
  The memo behind the first-dimension batching query. The server can only
  answer the batch-properties query once the model is loaded, so the answer is
  asked for on first use and kept for the descriptor's lifetime.
 */
module CapabilityCache {
  import opened Wrappers
  import opened HostApi

  /** The bit of the batch-properties flags that means "batches along the first dimension". */
  const BATCH_FIRST_DIM: bv32 := 2

  /** Whether a batch-properties bitmask has the first-dimension bit set. */
  function FirstDim(flags: bv32): bool
  {
    flags & BATCH_FIRST_DIM != 0
  }

  /** The cached capability: not yet known, or known for good. */
  datatype Cache = Unresolved | Resolved(value: bool)

  /** One batch-properties query sent to the server, with the answer it got. */
  datatype BatchPropertiesQuery = BatchPropertiesQuery(
    server: ServerHandle, modelName: string, modelVersion: nat, answer: Result<bv32>)

  /** The cache that a history of queries leaves behind: the first successful answer decides. */
  function Memo(log: seq<BatchPropertiesQuery>): Cache
  {
    if log == [] then Unresolved
    else if log[0].answer.Ok? then Resolved(FirstDim(log[0].answer.value))
    else Memo(log[1..])
  }

  /** The number of queries in `log` that the server answered successfully. */
  function Successes(log: seq<BatchPropertiesQuery>): nat
  {
    if log == [] then 0
    else (if log[0].answer.Ok? then 1 else 0) + Successes(log[1..])
  }

  /**
    A history that leaves the cache unresolved holds no successful query, and one
    more query resolves the cache exactly when that query succeeds.
   */
  lemma {:induction false} MemoExtend(log: seq<BatchPropertiesQuery>, q: BatchPropertiesQuery)
    requires Memo(log) == Unresolved
    ensures Successes(log) == 0
    ensures Memo(log + [q]) == if q.answer.Ok? then Resolved(FirstDim(q.answer.value)) else Unresolved
    ensures Successes(log + [q]) == if q.answer.Ok? then 1 else 0
  {
    if log != [] {
      assert (log + [q])[1..] == log[1..] + [q];
      MemoExtend(log[1..], q);
    }
  }

  /** Once a history resolves the cache, no later query can change what it holds. */
  lemma {:induction false} MemoStable(log: seq<BatchPropertiesQuery>, later: seq<BatchPropertiesQuery>)
    requires Memo(log).Resolved?
    ensures Memo(log + later) == Memo(log)
  {
    assert log != [];
    if !log[0].answer.Ok? {
      assert (log + later)[1..] == log[1..] + later;
      MemoStable(log[1..], later);
    }
  }
}
