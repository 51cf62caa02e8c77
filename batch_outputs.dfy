/**
  The index from output name to the batch output that owns it. A batch output
  is identified by its position in the descriptor's list, which stands for the
  non-owning reference the index holds.
 */
module BatchOutputs {
  import opened HostApi

  /** Batch output number `i` lists `n` among its target names. */
  predicate Declares(outs: seq<BatchOutput>, i: int, n: string)
  {
    0 <= i < |outs| && n in outs[i].targetNames
  }

  /** Batch output number `i` is the earliest one that lists `n`. */
  predicate IsFirstOwner(outs: seq<BatchOutput>, n: string, i: int)
  {
    Declares(outs, i, n) && forall k :: 0 <= k < i ==> !Declares(outs, k, n)
  }

  /**
    Emplaces every name of `names`, in order, with owner `owner`: a name that is
    already a key keeps the owner it has.
   */
  function EmplaceAll(m: map<string, nat>, names: seq<string>, owner: nat): map<string, nat>
    decreases |names|
  {
    if names == [] then m
    else
      var m' := EmplaceAll(m, names[..|names| - 1], owner);
      var n := names[|names| - 1];
      if n in m' then m' else m'[n := owner]
  }

  /** The index after registering the target names of every batch output in order. */
  function Index(outs: seq<BatchOutput>): map<string, nat>
    decreases |outs|
  {
    if outs == [] then map[]
    else EmplaceAll(Index(outs[..|outs| - 1]), outs[|outs| - 1].targetNames, |outs| - 1)
  }

  /** Emplacing never overwrites: old keys keep their owner, new keys get `owner`. */
  lemma {:induction false} EmplaceAllKeeps(m: map<string, nat>, names: seq<string>, owner: nat)
    ensures forall n :: n in EmplaceAll(m, names, owner) <==> n in m || n in names
    ensures forall n :: n in m ==> EmplaceAll(m, names, owner)[n] == m[n]
    ensures forall n :: n !in m && n in names ==> EmplaceAll(m, names, owner)[n] == owner
  {
    if names != [] {
      var init := names[..|names| - 1];
      EmplaceAllKeeps(m, init, owner);
      assert names == init + [names[|names| - 1]];
    }
  }

  /**
    Every target name of every batch output is a key of the index, no other name
    is, and each key maps to the earliest batch output that declares it.
   */
  lemma {:induction false} IndexFirstWins(outs: seq<BatchOutput>)
    ensures forall n :: n in Index(outs) <==> exists i :: Declares(outs, i, n)
    ensures forall n :: n in Index(outs) ==> IsFirstOwner(outs, n, Index(outs)[n])
  {
    if outs != [] {
      var prefix := outs[..|outs| - 1];
      var last := |outs| - 1;
      IndexFirstWins(prefix);
      EmplaceAllKeeps(Index(prefix), outs[last].targetNames, last);
      assert forall i, n :: Declares(prefix, i, n) <==> Declares(outs, i, n) && i < last;
      forall n | n in Index(outs)
        ensures IsFirstOwner(outs, n, Index(outs)[n])
      {
        if n !in Index(prefix) {
          assert forall k :: 0 <= k < last ==> !Declares(prefix, k, n);
        }
      }
    }
  }

  /** Builds the index with the nested registration loop. */
  method BuildIndex(outs: seq<BatchOutput>) returns (index: map<string, nat>)
    ensures index == Index(outs)
    ensures forall n :: n in index <==> exists i :: Declares(outs, i, n)
    ensures forall n :: n in index ==> IsFirstOwner(outs, n, index[n])
  {
    index := map[];
    for i := 0 to |outs|
      invariant index == Index(outs[..i])
    {
      var names := outs[i].targetNames;
      for j := 0 to |names|
        invariant index == EmplaceAll(Index(outs[..i]), names[..j], i)
      {
        assert names[..j + 1][..j] == names[..j];
        if names[j] !in index {
          index := index[names[j] := i];
        }
      }
      assert names[..|names|] == names;
      assert outs[..i + 1][..i] == outs[..i];
    }
    assert outs[..|outs|] == outs;
    IndexFirstWins(outs);
  }
}
