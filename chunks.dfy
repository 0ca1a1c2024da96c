/** Cutting a sequence into consecutive chunks of a fixed size, the last
    one possibly shorter: the re-batching `_prepare_chunked_actions` of
    src/etl/load.py performs. */
module Chunking {
  import opened Seqs

  /** The reference cut: chunks of `size` from the front, the rest in a
      final shorter chunk; a size below 1 never closes a chunk, so all of
      `xs` lands in one. */
  function Chunks<T>(xs: seq<T>, size: int): seq<seq<T>>
    decreases |xs|
  {
    if xs == [] then []
    else if size < 1 || |xs| <= size then [xs]
    else [xs[..size]] + Chunks(xs[size..], size)
  }

  /** `cs` cuts `xs` into non-empty chunks in order, every chunk but the
      last of exactly `size`, none longer than `size`. */
  ghost predicate IsChunking<T>(cs: seq<seq<T>>, xs: seq<T>, size: int)
  {
    && Flatten(cs) == xs
    && (forall i :: 0 <= i < |cs| ==> cs[i] != [])
    && (forall i :: 0 <= i < |cs| - 1 ==> |cs[i]| == size)
    && (size >= 1 ==> forall i :: 0 <= i < |cs| ==> |cs[i]| <= size)
  }

  /** Every chunk is non-empty and, when `size` >= 1, at most `size` long. */
  predicate SizedChunks<T>(cs: seq<seq<T>>, size: int)
  {
    forall i :: 0 <= i < |cs| ==> cs[i] != [] && (size >= 1 ==> |cs[i]| <= size)
  }

  lemma SizedChunksAppend<T>(cs: seq<seq<T>>, ds: seq<seq<T>>, size: int)
    requires SizedChunks(cs, size) && SizedChunks(ds, size)
    ensures SizedChunks(cs + ds, size)
  {
    assert forall i :: |cs| <= i < |cs + ds| ==> (cs + ds)[i] == ds[i - |cs|];
  }

  lemma {:induction false} ChunksIsChunking<T>(xs: seq<T>, size: int)
    ensures IsChunking(Chunks(xs, size), xs, size)
    decreases |xs|
  {
    if xs != [] && !(size < 1 || |xs| <= size) {
      var rest := Chunks(xs[size..], size);
      ChunksIsChunking(xs[size..], size);
      FlattenCons(xs[..size], rest);
      assert xs[..size] + xs[size..] == xs;
      var cs := [xs[..size]] + rest;
      assert forall i :: 1 <= i < |cs| ==> cs[i] == rest[i - 1];
    } else if xs != [] {
      assert Flatten([xs]) == Flatten([xs][..0]) + xs;
    }
  }

  /** A chunking with a first chunk splits into that chunk and a chunking
      of the rest. */
  lemma ChunkingTail<T>(cs: seq<seq<T>>, xs: seq<T>, size: int)
    requires IsChunking(cs, xs, size) && cs != []
    ensures xs == cs[0] + Flatten(cs[1..])
    ensures IsChunking(cs[1..], xs[|cs[0]|..], size)
  {
    assert cs == [cs[0]] + cs[1..];
    FlattenCons(cs[0], cs[1..]);
  }

  /** There is only one way to chunk a sequence. */
  lemma {:induction false} ChunkingUnique<T>(cs: seq<seq<T>>, ds: seq<seq<T>>, xs: seq<T>, size: int)
    requires IsChunking(cs, xs, size) && IsChunking(ds, xs, size)
    ensures cs == ds
    decreases |xs|
  {
    if cs == [] || ds == [] {
      if cs != [] {
        ChunkingTail(cs, xs, size);
      } else if ds != [] {
        ChunkingTail(ds, xs, size);
      }
    } else {
      ChunkingTail(cs, xs, size);
      ChunkingTail(ds, xs, size);
      if |cs| == 1 || |ds| == 1 {
        ShortChunking(cs, xs, size);
        ShortChunking(ds, xs, size);
        if |cs| == 1 && |ds| == 1 {
          assert Flatten(cs[1..]) == [] && Flatten(ds[1..]) == [];
        }
      } else {
        assert cs[0] == xs[..size] == ds[0];
        ChunkingUnique(cs[1..], ds[1..], xs[size..], size);
        assert cs == [cs[0]] + cs[1..] && ds == [ds[0]] + ds[1..];
      }
    }
  }

  /** A chunking has a single chunk exactly when `xs` fits in one. */
  lemma ShortChunking<T>(cs: seq<seq<T>>, xs: seq<T>, size: int)
    requires IsChunking(cs, xs, size) && cs != []
    ensures |cs| == 1 <==> (size < 1 || |xs| <= size)
  {
    ChunkingTail(cs, xs, size);
    if |cs| > 1 {
      ChunkingTail(cs[1..], xs[|cs[0]|..], size);
      assert cs[1..][0] == cs[1];
    } else {
      assert cs[1..] == [];
    }
  }

  /** The number of chunks is the ceiling of |xs| / size. */
  lemma {:induction false} ChunkCount<T>(cs: seq<seq<T>>, xs: seq<T>, size: int)
    requires size >= 1 && IsChunking(cs, xs, size) && cs != []
    ensures (|cs| - 1) * size < |xs| <= |cs| * size
  {
    var init := cs[..|cs| - 1];
    assert forall i :: 0 <= i < |init| ==> init[i] == cs[i];
    FlattenLength(init, size);
    assert xs == Flatten(init) + cs[|cs| - 1];
    assert 0 < |cs[|cs| - 1]| <= size;
  }
}
