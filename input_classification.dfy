/**
  Classification of the declared inputs: which names may be ragged across a
  batch and which may be omitted by a caller.
 */
module InputClassification {
  import opened Wrappers
  import opened HostApi

  /** The two name sets the input loop fills. */
  datatype Classification = Classification(ragged: set<string>, optional: set<string>)

  /** The error raised for an optional input when the backend does not support them. */
  function OptionalNotSupported(inputName: string): Error
  {
    Error(InvalidArg, "'optional' is set to true for input '" + inputName
                      + "' while the backend model doesn't support optional input")
  }

  /** Reads an optional boolean property: an absent key reads as false. */
  function FlagOrFalse(property: Option<Result<bool>>): Result<bool>
  {
    match property
    case None => Ok(false)
    case Some(b) => b
  }

  /** Every accessor the loop applies to `d` succeeds. */
  predicate WellFormed(d: Result<InputDecl>)
  {
    && d.Ok?
    && d.value.name.Ok?
    && FlagOrFalse(d.value.allowRaggedBatch).Ok?
    && FlagOrFalse(d.value.optional).Ok?
  }

  /** `d` is an input marked `optional: true`. */
  predicate IsOptional(d: Result<InputDecl>)
  {
    d.Ok? && d.value.optional == Some(Ok(true))
  }

  /** `d` declares input `n` with `allow_ragged_batch: true`. */
  predicate MarkedRagged(d: Result<InputDecl>, n: string)
  {
    d.Ok? && d.value.name == Ok(n) && d.value.allowRaggedBatch == Some(Ok(true))
  }

  /** `d` declares input `n` with `optional: true`. */
  predicate MarkedOptional(d: Result<InputDecl>, n: string)
  {
    IsOptional(d) && d.value.name == Ok(n)
  }

  /** One iteration of the input loop, applied to the sets built so far. */
  function ClassifyOne(d: Result<InputDecl>, allowOptional: bool, acc: Classification): Result<Classification>
  {
    var io :- d;
    var name :- io.name;
    var ragged :- FlagOrFalse(io.allowRaggedBatch);
    var acc' := if ragged then acc.(ragged := acc.ragged + {name}) else acc;
    var optional :- FlagOrFalse(io.optional);
    if !optional then Ok(acc')
    else if allowOptional then Ok(acc'.(optional := acc'.optional + {name}))
    else Err(OptionalNotSupported(name))
  }

  /** The input loop run over `decls` in declaration order; the first error ends it. */
  function Classify(decls: seq<Result<InputDecl>>, allowOptional: bool): Result<Classification>
    decreases |decls|
  {
    if decls == [] then Ok(Classification({}, {}))
    else
      var acc :- Classify(decls[..|decls| - 1], allowOptional);
      ClassifyOne(decls[|decls| - 1], allowOptional, acc)
  }

  /**
    Classification succeeds exactly when every declared input can be read and,
    unless optional inputs are allowed, none is marked optional.
   */
  lemma {:induction false} ClassifySucceedsIff(decls: seq<Result<InputDecl>>, allowOptional: bool)
    ensures Classify(decls, allowOptional).Ok? <==>
      forall i :: 0 <= i < |decls| ==> WellFormed(decls[i]) && (allowOptional || !IsOptional(decls[i]))
  {
    if decls != [] {
      var prefix := decls[..|decls| - 1];
      ClassifySucceedsIff(prefix, allowOptional);
      assert forall i :: 0 <= i < |prefix| ==> prefix[i] == decls[i];
    }
  }

  /**
    After a successful classification the ragged set is exactly the names of the
    inputs marked `allow_ragged_batch: true`, and the optional set exactly the
    names of the inputs marked `optional: true`.
   */
  lemma {:induction false} ClassifiedSetsExact(decls: seq<Result<InputDecl>>, allowOptional: bool)
    requires Classify(decls, allowOptional).Ok?
    ensures forall n :: n in Classify(decls, allowOptional).value.ragged <==>
      exists i :: 0 <= i < |decls| && MarkedRagged(decls[i], n)
    ensures forall n :: n in Classify(decls, allowOptional).value.optional <==>
      exists i :: 0 <= i < |decls| && MarkedOptional(decls[i], n)
  {
    if decls != [] {
      var prefix := decls[..|decls| - 1];
      var last := decls[|decls| - 1];
      ClassifiedSetsExact(prefix, allowOptional);
      assert forall i :: 0 <= i < |prefix| ==> prefix[i] == decls[i];
      var c := Classify(decls, allowOptional).value;
      forall n
        ensures n in c.ragged <==> exists i :: 0 <= i < |decls| && MarkedRagged(decls[i], n)
      {
        if MarkedRagged(last, n) {
          assert MarkedRagged(decls[|decls| - 1], n);
        }
        if n in c.ragged && !MarkedRagged(last, n) {
          var i :| 0 <= i < |prefix| && MarkedRagged(prefix[i], n);
          assert MarkedRagged(decls[i], n);
        }
      }
      forall n
        ensures n in c.optional <==> exists i :: 0 <= i < |decls| && MarkedOptional(decls[i], n)
      {
        if MarkedOptional(last, n) {
          assert MarkedOptional(decls[|decls| - 1], n);
        }
        if n in c.optional && !MarkedOptional(last, n) {
          var i :| 0 <= i < |prefix| && MarkedOptional(prefix[i], n);
          assert MarkedOptional(decls[i], n);
        }
      }
    }
  }

  /**
    When optional inputs are not allowed, the first input marked optional (all
    inputs before it being readable and not optional) fails the classification
    with the invalid-argument error naming that input.
   */
  lemma {:induction false} FirstOptionalRejected(decls: seq<Result<InputDecl>>, i: nat)
    requires i < |decls|
    requires forall k :: 0 <= k < i ==> WellFormed(decls[k]) && !IsOptional(decls[k])
    requires WellFormed(decls[i]) && IsOptional(decls[i])
    ensures Classify(decls, false) == Err(OptionalNotSupported(decls[i].value.name.value))
  {
    var prefix := decls[..|decls| - 1];
    assert forall k :: 0 <= k < |prefix| ==> prefix[k] == decls[k];
    if i == |decls| - 1 {
      ClassifySucceedsIff(prefix, false);
    } else {
      FirstOptionalRejected(prefix, i);
    }
  }

  /** An error met on a prefix of the inputs is the error of the whole loop. */
  lemma {:induction false} FirstErrorStands(decls: seq<Result<InputDecl>>, k: nat, allowOptional: bool)
    requires k <= |decls|
    ensures Classify(decls[..k], allowOptional).Err? ==>
      Classify(decls, allowOptional) == Classify(decls[..k], allowOptional)
  {
    if k < |decls| {
      var prefix := decls[..|decls| - 1];
      assert prefix[..k] == decls[..k];
      FirstErrorStands(prefix, k, allowOptional);
    } else {
      assert decls[..k] == decls;
    }
  }

  /** The input loop: walks the declared inputs and fills the two sets. */
  method ClassifyInputs(decls: seq<Result<InputDecl>>, allowOptional: bool) returns (r: Result<Classification>)
    ensures r == Classify(decls, allowOptional)
  {
    var ragged: set<string> := {};
    var optional: set<string> := {};
    for i := 0 to |decls|
      invariant Classify(decls[..i], allowOptional) == Ok(Classification(ragged, optional))
    {
      assert decls[..i + 1][..i] == decls[..i];
      FirstErrorStands(decls, i + 1, allowOptional);
      if decls[i].Err? {
        return Err(decls[i].error);
      }
      var io := decls[i].value;
      if io.name.Err? {
        return Err(io.name.error);
      }
      var ioName := io.name.value;
      var allowRaggedBatch := false;
      if io.allowRaggedBatch.Some? {
        if io.allowRaggedBatch.value.Err? {
          return Err(io.allowRaggedBatch.value.error);
        }
        allowRaggedBatch := io.allowRaggedBatch.value.value;
      }
      if allowRaggedBatch {
        ragged := ragged + {ioName};
      }
      var isOptional := false;
      if io.optional.Some? {
        if io.optional.value.Err? {
          return Err(io.optional.value.error);
        }
        isOptional := io.optional.value.value;
      }
      if isOptional {
        if allowOptional {
          optional := optional + {ioName};
        } else {
          return Err(OptionalNotSupported(ioName));
        }
      }
    }
    assert decls[..|decls|] == decls;
    r := Ok(Classification(ragged, optional));
  }
}
