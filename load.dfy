/** The loader of src/etl/load.py: index creation for missing indices,
    re-batching of each transformed part into chunks of `batch_size`
    outputs, and one bulk call per chunk against the search sink. */
module Load {
  import opened Wrappers
  import opened Seqs
  import opened Chunking
  import opened Transform

  /** Python truthiness of an item a transform generator yields: `None` and
      an empty action list are false; a films payload always ends with a
      newline and so is never empty. */
  predicate FalsyItem(o: Option<Output>) { o.None? || (o.value.Actions? && o.value.actions == []) }

  /** The index of the first falsy item, or |s| when the stream ran out
      without one (its generator raised). */
  function FirstFalsyItem(s: seq<Option<Output>>): (k: nat)
    ensures k <= |s|
    ensures forall i :: 0 <= i < k ==> !FalsyItem(s[i])
    ensures k < |s| ==> FalsyItem(s[k])
  {
    if s == [] || FalsyItem(s[0]) then 0 else 1 + FirstFalsyItem(s[1..])
  }

  /** What the chunker sees of a transform stream: the truthy items before
      the first falsy one, and whether that falsy sentinel came (`ends`) or
      the generator raised instead. */
  datatype Part<T> = Part(items: seq<T>, ends: bool)

  function Cut(s: seq<Option<Output>>): Part<Output>
  {
    if s == [] then Part([], false)
    else if FalsyItem(s[0]) then Part([], true)
    else var rest := Cut(s[1..]); Part([s[0].value] + rest.items, rest.ends)
  }

  /** The part holds the values of the items before the first falsy one,
      and ends exactly when there is a falsy item. */
  lemma {:induction false} CutIsPrefix(s: seq<Option<Output>>)
    ensures Cut(s).ends <==> FirstFalsyItem(s) < |s|
    ensures |Cut(s).items| == FirstFalsyItem(s)
    ensures forall i :: 0 <= i < |Cut(s).items| ==> s[i] == Some(Cut(s).items[i])
  {
    if s != [] && !FalsyItem(s[0]) {
      CutIsPrefix(s[1..]);
    }
  }

  /** The chunks of a part that reach the sink: all of them when the part
      ends with its sentinel; otherwise only the full ones, since the
      exception ends the chunker before it flushes a remainder. */
  function PartChunks<T>(p: Part<T>, size: int): seq<seq<T>>
  {
    var cs := Chunks(p.items, size);
    if p.ends || cs == [] || |cs[|cs| - 1]| == size then cs else cs[..|cs| - 1]
  }

  /** Whether the chunker flushes a non-empty remainder for this part. */
  predicate FlushesRemainder<T>(p: Part<T>, size: int)
  {
    var cs := Chunks(p.items, size);
    p.ends && cs != [] && |cs[|cs| - 1]| != size
  }

  /** What chunking one part hands to `load`: its bulk calls, whether the
      part ended with its sentinel, and whether a remainder was flushed. */
  datatype Loaded<T> = Loaded(calls: seq<seq<T>>, ends: bool, flushes: bool)

  function Summary<T>(p: Part<T>, size: int): (l: Loaded<T>)
    ensures l.ends == p.ends
  {
    Loaded(PartChunks(p, size), p.ends, FlushesRemainder(p, size))
  }

  function Summaries<T>(parts: seq<Part<T>>, size: int): (ls: seq<Loaded<T>>)
    ensures |ls| == |parts| && forall i :: 0 <= i < |parts| ==> ls[i] == Summary(parts[i], size)
  {
    seq(|parts|, i requires 0 <= i < |parts| => Summary(parts[i], size))
  }

  /** `_prepare_chunked_actions` as a recursive function over the stream,
      with the chunk it has open: each truthy item joins the open chunk,
      which is handed on once it holds `size` items; a falsy item hands on
      a non-empty open chunk and ends; running out of items (the generator
      raised) loses the open chunk. */
  function Chunker(s: seq<Option<Output>>, size: int, open: seq<Output>): Loaded<Output>
    decreases |s|
  {
    if s == [] then Loaded([], false, false)
    else if FalsyItem(s[0]) then (if open == [] then Loaded([], true, false) else Loaded([open], true, true))
    else
      var chunk := open + [s[0].value];
      if |chunk| == size then
        var r := Chunker(s[1..], size, []);
        Loaded([chunk] + r.calls, r.ends, r.flushes)
      else Chunker(s[1..], size, chunk)
  }

  /** A full chunk in front comes out as the first chunk. */
  lemma ChunksCons<T>(c: seq<T>, ys: seq<T>, size: int)
    requires size >= 1 && |c| == size
    ensures Chunks(c + ys, size) == [c] + Chunks(ys, size)
  {
    var xs := c + ys;
    if ys == [] {
      assert xs == c;
    } else {
      assert xs[..size] == c && xs[size..] == ys;
    }
  }

  lemma PartChunksCons<T>(c: seq<T>, ys: seq<T>, e: bool, size: int)
    requires size >= 1 && |c| == size
    ensures PartChunks(Part(c + ys, e), size) == [c] + PartChunks(Part(ys, e), size)
    ensures FlushesRemainder(Part(c + ys, e), size) == FlushesRemainder(Part(ys, e), size)
  {
    ChunksCons(c, ys, size);
    var cs := Chunks(ys, size);
    var all := [c] + cs;
    if cs != [] {
      assert all[|all| - 1] == cs[|cs| - 1];
      assert all[..|all| - 1] == [c] + cs[..|cs| - 1];
    }
  }

  /** A part shorter than one chunk: one call if it ended, none otherwise. */
  lemma ShortPart<T>(o: seq<T>, e: bool, size: int)
    requires size < 1 || |o| < size
    ensures Summary(Part(o, e), size) ==
            if o == [] then Loaded([], e, false) else if e then Loaded([o], true, true) else Loaded([], false, false)
  {
  }

  lemma {:induction false} ChunkerIsSummary(s: seq<Option<Output>>, size: int, o: seq<Output>)
    requires size < 1 || |o| < size
    ensures Chunker(s, size, o) == Summary(Part(o + Cut(s).items, Cut(s).ends), size)
    decreases |s|
  {
    if s == [] || FalsyItem(s[0]) {
      assert o + Cut(s).items == o;
      ShortPart(o, Cut(s).ends, size);
    } else {
      var v := s[0].value;
      var rest := Cut(s[1..]);
      assert o + Cut(s).items == (o + [v]) + rest.items;
      if |o| + 1 == size {
        ChunkerIsSummary(s[1..], size, []);
        assert [] + rest.items == rest.items;
        PartChunksCons(o + [v], rest.items, rest.ends, size);
      } else {
        ChunkerIsSummary(s[1..], size, o + [v]);
      }
    }
  }

  /** The chunker, run from an empty chunk, hands on exactly the reference
      chunking of the part the stream makes. */
  lemma ChunkerAgrees(s: seq<Option<Output>>, size: int)
    ensures Chunker(s, size, []) == Summary(Cut(s), size)
  {
    ChunkerIsSummary(s, size, []);
    assert [] + Cut(s).items == Cut(s).items;
  }

  /** The first part whose stream raised, or |ls|. */
  function FirstRaising<T>(ls: seq<Loaded<T>>): (k: nat)
    ensures k <= |ls|
    ensures forall i :: 0 <= i < k ==> ls[i].ends
    ensures k < |ls| ==> !ls[k].ends
  {
    if ls == [] || !ls[0].ends then 0 else 1 + FirstRaising(ls[1..])
  }

  /** The bulk calls of the first `p` parts, in order. */
  function CallsUpTo<T>(ls: seq<Loaded<T>>, p: nat): seq<seq<T>>
    requires p <= |ls|
  {
    if p == 0 then [] else CallsUpTo(ls, p - 1) + ls[p - 1].calls
  }

  /** Some part among the first `p` flushed a remainder. */
  predicate FlushedUpTo<T>(ls: seq<Loaded<T>>, p: nat)
    requires p <= |ls|
  {
    p > 0 && (FlushedUpTo(ls, p - 1) || ls[p - 1].flushes)
  }

  /** How many parts `load` processes: up to and including the first part
      whose generator raised. */
  function Processed<T>(ls: seq<Loaded<T>>): (n: nat)
    ensures n <= |ls|
  {
    Min(FirstRaising(ls) + 1, |ls|)
  }

  /** The items of the first `p` parts, concatenated in order. */
  function ItemsUpTo<T>(parts: seq<Part<T>>, p: nat): seq<T>
    requires p <= |parts|
  {
    if p == 0 then [] else ItemsUpTo(parts, p - 1) + parts[p - 1].items
  }

  /** A part that ended hands on all its items, in order. */
  lemma EndedPartDelivers<T>(p: Part<T>, size: int)
    requires p.ends
    ensures Flatten(PartChunks(p, size)) == p.items
  {
    ChunksIsChunking(p.items, size);
  }

  /** Every chunk handed on is non-empty and at most `size` long. */
  lemma PartChunksBounded<T>(p: Part<T>, size: int)
    ensures SizedChunks(PartChunks(p, size), size)
  {
    ChunksIsChunking(p.items, size);
  }

  /** The calls of the first `p` parts are those of the first `p - 1`,
      then the chunks of part `p - 1`. */
  lemma CallsUpToStep<T>(parts: seq<Part<T>>, size: int, p: nat)
    requires 0 < p <= |parts|
    ensures CallsUpTo(Summaries(parts, size), p) ==
              CallsUpTo(Summaries(parts, size), p - 1) + PartChunks(parts[p - 1], size)
  {
    var ls := Summaries(parts, size);
    assert ls[p - 1].calls == PartChunks(parts[p - 1], size);
  }

  /** Part `p - 1`, ended, adds its items to what the bulk calls carry. */
  lemma DeliverStep<T>(parts: seq<Part<T>>, size: int, p: nat)
    requires 0 < p <= |parts| && parts[p - 1].ends
    ensures Flatten(CallsUpTo(Summaries(parts, size), p)) ==
              Flatten(CallsUpTo(Summaries(parts, size), p - 1)) + parts[p - 1].items
  {
    CallsUpToStep(parts, size, p);
    FlattenAppend(CallsUpTo(Summaries(parts, size), p - 1), PartChunks(parts[p - 1], size));
    EndedPartDelivers(parts[p - 1], size);
  }

  /** With every part ending with its sentinel, the sink receives every
      output of every part, in order, and nothing else. */
  lemma {:induction false} LoadDeliversAll<T>(parts: seq<Part<T>>, size: int, p: nat)
    requires p <= |parts| && forall i :: 0 <= i < |parts| ==> parts[i].ends
    ensures Flatten(CallsUpTo(Summaries(parts, size), p)) == ItemsUpTo(parts, p)
  {
    if p > 0 {
      DeliverStep(parts, size, p);
      LoadDeliversAll(parts, size, p - 1);
    }
  }

  /** Every bulk call carries between one and `size` outputs (a size below
      1 makes one call of a whole part). */
  lemma {:induction false} LoadCallsBounded<T>(parts: seq<Part<T>>, size: int, p: nat)
    requires p <= |parts|
    ensures SizedChunks(CallsUpTo(Summaries(parts, size), p), size)
  {
    if p > 0 {
      var prev := CallsUpTo(Summaries(parts, size), p - 1);
      var last := PartChunks(parts[p - 1], size);
      assert SizedChunks(prev + last, size) by {
        PartChunksBounded(parts[p - 1], size);
        LoadCallsBounded(parts, size, p - 1);
        SizedChunksAppend(prev, last, size);
      }
      CallsUpToStep(parts, size, p);
    }
  }

  // ---- index creation ----

  /** What `index_exist` does to the sink: for each (name, index) pair in
      order, an index the sink lacks is created from the scheme file of its
      name; a name without a scheme path makes `open(None)` raise. */
  datatype Creation = Creation(created: seq<(string, string)>, ok: bool)

  function Creations(names: seq<(string, string)>, existing: set<string>, paths: map<string, string>): (c: Creation)
    ensures forall i :: 0 <= i < |c.created| ==> c.created[i].0 !in existing
  {
    if names == [] then Creation([], true)
    else
      var (name, index) := names[0];
      if index in existing then Creations(names[1..], existing, paths)
      else if name !in paths then Creation([], false)
      else
        var rest := Creations(names[1..], existing + {index}, paths);
        Creation([(index, paths[name])] + rest.created, rest.ok)
  }

  /** A pair whose index is absent when its turn comes (neither in
      `existing` nor named by an earlier pair) and whose name has no scheme
      path makes index creation fail. */
  lemma {:induction false} CreationsFail(names: seq<(string, string)>, existing: set<string>, paths: map<string, string>, k: nat)
    requires k < |names| && names[k].0 !in paths && names[k].1 !in existing
    requires forall i :: 0 <= i < k ==> names[i].1 != names[k].1
    ensures !Creations(names, existing, paths).ok
  {
    if k > 0 {
      var (name, index) := names[0];
      assert forall i :: 0 <= i < k - 1 ==> names[1..][i] == names[i + 1];
      if index in existing {
        CreationsFail(names[1..], existing, paths, k - 1);
      } else if name in paths {
        CreationsFail(names[1..], existing + {index}, paths, k - 1);
      }
    }
  }

  /** The index names of `names`. */
  function IndexNames(names: seq<(string, string)>): set<string>
  {
    if names == [] then {} else {names[0].1} + IndexNames(names[1..])
  }

  /** The indices a sequence of `indices.create` calls made. */
  function CreatedIndices(created: seq<(string, string)>): set<string>
  {
    if created == [] then {} else CreatedIndices(created[..|created| - 1]) + {created[|created| - 1].0}
  }

  /** The indices of `names` that `existing` lacks, each once, in first-occurrence order. */
  function Missing(names: seq<(string, string)>, existing: set<string>): seq<string>
  {
    if names == [] then []
    else if names[0].1 in existing then Missing(names[1..], existing)
    else [names[0].1] + Missing(names[1..], existing + {names[0].1})
  }

  /** When every name has a scheme path, exactly the missing indices are
      created, each once, in order. */
  lemma {:induction false} CreatesExactlyMissing(names: seq<(string, string)>, existing: set<string>, paths: map<string, string>)
    requires forall i :: 0 <= i < |names| ==> names[i].0 in paths
    ensures Creations(names, existing, paths).ok
    ensures |Creations(names, existing, paths).created| == |Missing(names, existing)|
    ensures forall i :: 0 <= i < |Missing(names, existing)| ==>
              Creations(names, existing, paths).created[i].0 == Missing(names, existing)[i]
  {
    if names != [] {
      var (name, index) := names[0];
      if index in existing {
        CreatesExactlyMissing(names[1..], existing, paths);
      } else {
        CreatesExactlyMissing(names[1..], existing + {index}, paths);
      }
    }
  }

  /** The missing list holds every index of `names` that `existing` lacks
      and nothing else, without repetition. */
  lemma {:induction false} MissingIsExact(names: seq<(string, string)>, existing: set<string>)
    ensures forall x :: x in Missing(names, existing) <==> x in IndexNames(names) && x !in existing
    ensures forall i, j :: 0 <= i < j < |Missing(names, existing)| ==> Missing(names, existing)[i] != Missing(names, existing)[j]
  {
    if names != [] {
      var index := names[0].1;
      if index in existing {
        MissingIsExact(names[1..], existing);
      } else {
        MissingIsExact(names[1..], existing + {index});
        var m := Missing(names, existing);
        assert forall i :: 1 <= i < |m| ==> m[i] == Missing(names[1..], existing + {index})[i - 1];
      }
    }
  }

  // ---- the sink and the loader ----

  /** The search engine, as far as the loader sees it. */
  class Sink {
    var indices: set<string>
    /** `indices.create` calls: the index and the scheme path it was built from. */
    var created: seq<(string, string)>
    /** `bulk` calls, each with its actions. */
    var bulks: seq<seq<Output>>

    constructor (indices: set<string>)
      ensures this.indices == indices && created == [] && bulks == []
    {
      this.indices := indices;
      created := [];
      bulks := [];
    }

    /** `indices.exists`. */
    method Exists(index: string) returns (b: bool)
      ensures b <==> index in indices
    {
      b := index in indices;
    }

    /** `indices.create`. */
    method Create(index: string, schemePath: string)
      modifies this
      ensures indices == old(indices) + {index}
      ensures created == old(created) + [(index, schemePath)] && bulks == old(bulks)
    {
      indices := indices + {index};
      created := created + [(index, schemePath)];
    }

    /** `helpers.bulk`. */
    method Bulk(actions: seq<Output>)
      modifies this
      ensures bulks == old(bulks) + [actions]
      ensures indices == old(indices) && created == old(created)
    {
      bulks := bulks + [actions];
    }
  }

  class ElasticLoader {
    const sink: Sink
    /** Part name to index name, in dictionary order. */
    const indexNames: seq<(string, string)>
    const schemePaths: map<string, string>
    const batchSize: int
    /** The transformed parts, in dictionary order: what each generator yields. */
    const data: seq<seq<Option<Output>>>
    var isLoaded: bool

    constructor FromParts(sink: Sink, indexNames: seq<(string, string)>, schemePaths: map<string, string>,
                          batchSize: int, data: seq<seq<Option<Output>>>)
      ensures this.sink == sink && this.indexNames == indexNames && this.schemePaths == schemePaths
      ensures this.batchSize == batchSize && this.data == data && !isLoaded
    {
      this.sink := sink;
      this.indexNames := indexNames;
      this.schemePaths := schemePaths;
      this.batchSize := batchSize;
      this.data := data;
      isLoaded := false;
    }

    /** `ElasticLoader(...)`: make sure the indices exist, then start with
        `is_loaded` false; an exception from index creation propagates. */
    static method Open(sink: Sink, indexNames: seq<(string, string)>, schemePaths: map<string, string>,
                       batchSize: int, data: seq<seq<Option<Output>>>)
      returns (r: Result<ElasticLoader, Error>)
      modifies sink
      ensures var c := Creations(indexNames, old(sink.indices), schemePaths);
              && (r.Success? <==> c.ok)
              && sink.created == old(sink.created) + c.created
              && sink.indices == old(sink.indices) + CreatedIndices(c.created)
              && sink.bulks == old(sink.bulks)
      ensures r.Success? ==> fresh(r.value) && r.value.sink == sink && r.value.data == data &&
                             r.value.batchSize == batchSize && !r.value.isLoaded
    {
      var l := new ElasticLoader.FromParts(sink, indexNames, schemePaths, batchSize, data);
      var ok := l.IndexExist();
      if !ok {
        return Failure(TypeError);
      }
      r := Success(l);
    }

    /** `index_exist`, followed by `create_index` for each absent index. */
    method IndexExist() returns (ok: bool)
      modifies sink
      ensures var c := Creations(indexNames, old(sink.indices), schemePaths);
              && ok == c.ok
              && sink.created == old(sink.created) + c.created
              && sink.indices == old(sink.indices) + CreatedIndices(c.created)
              && sink.bulks == old(sink.bulks)
    {
      ghost var plan := Creations(indexNames, sink.indices, schemePaths);
      ghost var done: seq<(string, string)> := [];
      var n := 0;
      while n < |indexNames|
        invariant n <= |indexNames|
        invariant sink.bulks == old(sink.bulks)
        invariant sink.created == old(sink.created) + done
        invariant sink.indices == old(sink.indices) + CreatedIndices(done)
        invariant CreationsFrom(indexNames, n, sink.indices, schemePaths, plan, done)
      {
        var created;
        ok, created, done := IndexNext(n, plan, done);
        if !ok {
          return false;
        }
        n := n + 1;
      }
      CreationsDone(indexNames, sink.indices, schemePaths, plan, done);
      ok := true;
    }

    /** The body of the loop of `index_exist` for pair `n`: create the index
        if the sink lacks it; `ok` is false when its scheme path is missing. */
    method IndexNext(n: nat, ghost plan: Creation, ghost done: seq<(string, string)>)
      returns (ok: bool, created: bool, ghost done': seq<(string, string)>)
      requires n < |indexNames| && CreationsFrom(indexNames, n, sink.indices, schemePaths, plan, done)
      modifies sink
      ensures sink.bulks == old(sink.bulks)
      ensures !created ==> sink.created == old(sink.created) && sink.indices == old(sink.indices) && done' == done
      ensures created ==> |done'| == |done| + 1 && done' == done + [done'[|done|]] &&
                          sink.created == old(sink.created) + [done'[|done|]] &&
                          sink.indices == old(sink.indices) + {done'[|done|].0}
      ensures ok ==> CreationsFrom(indexNames, n + 1, sink.indices, schemePaths, plan, done')
      ensures !ok ==> plan == Creation(done, false) && !created
    {
      var (name, index) := indexNames[n];
      CreationsStep(indexNames, n, sink.indices, schemePaths, plan, done);
      done' := done;
      created := false;
      var present := sink.Exists(index);
      if present {
        return true, false, done;
      }
      if name !in schemePaths {
        return false, false, done;
      }
      sink.Create(index, schemePaths[name]);
      done' := done + [(index, schemePaths[name])];
      ok, created := true, true;
    }

    /** `_prepare_chunked_actions`, pulled to its end: the chunks it yields,
        and whether it ended with its `None` sentinel (it ends with an
        exception instead when `actions` raised). */
    method PrepareChunkedActions(actions: seq<Option<Output>>) returns (chunks: seq<seq<Output>>, sentinel: bool)
      modifies this
      ensures chunks == PartChunks(Cut(actions), batchSize)
      ensures sentinel == Cut(actions).ends
      ensures isLoaded == (old(isLoaded) || FlushesRemainder(Cut(actions), batchSize))
    {
      var chunk, n;
      chunks, chunk, n := Rebatch(actions, batchSize);
      FinalPartChunks(chunks, chunk, Cut(actions), batchSize);
      if n == |actions| {
        return chunks, false;
      }
      if chunk != [] {
        isLoaded := true;
        chunks := chunks + [chunk];
      }
      sentinel := true;
    }

    /** `load`: every chunk of every part goes to one bulk call, in order;
        the first part whose generator raised ends the run (`raised`). */
    method Load() returns (raised: bool)
      modifies this, sink
      ensures var ls := Summaries(Cuts(data), batchSize);
              && sink.bulks == old(sink.bulks) + CallsUpTo(ls, Processed(ls))
              && (raised <==> FirstRaising(ls) < |data|)
              && isLoaded == (old(isLoaded) || FlushedUpTo(ls, Processed(ls)))
      ensures sink.indices == old(sink.indices) && sink.created == old(sink.created)
    {
      SummariesLink(data, batchSize, 0);
      raised := LoadAll(Summaries(Cuts(data), batchSize));
    }

    /** The `for` loop of `load`, over the summaries `ls` of the parts. */
    method LoadAll(ghost ls: seq<Loaded<Output>>) returns (raised: bool)
      requires SummarizedFrom(ls, data, batchSize, 0)
      modifies this, sink
      ensures sink.bulks == old(sink.bulks) + CallsUpTo(ls, Processed(ls))
      ensures raised <==> FirstRaising(ls) < |data|
      ensures isLoaded == (old(isLoaded) || FlushedUpTo(ls, Processed(ls)))
      ensures sink.indices == old(sink.indices) && sink.created == old(sink.created)
    {
      ghost var calls: seq<seq<Output>> := [];
      ghost var rem := false;
      var p := 0;
      while p < |data|
        invariant p <= |data| && SummarizedFrom(ls, data, batchSize, p)
        invariant sink.bulks == old(sink.bulks) + calls
        invariant sink.indices == old(sink.indices) && sink.created == old(sink.created)
        invariant isLoaded == (old(isLoaded) || rem)
        invariant p <= FirstRaising(ls) && LoadedPrefix(ls, p, calls, rem)
      {
        var sentinel;
        sentinel, calls, rem := LoadNext(ls, p, calls, rem);
        LoadStep(ls, p, calls, rem);
        if !sentinel {
          return true;
        }
        p := p + 1;
      }
      LoadEnd(ls, p, calls, rem);
      raised := false;
    }

    /** The body of the `for` loop of `load` for part `p`, given what `load`
        has done so far (`calls`, `rem`). */
    method LoadNext(ghost ls: seq<Loaded<Output>>, p: nat, ghost calls: seq<seq<Output>>, ghost rem: bool)
      returns (sentinel: bool, ghost calls': seq<seq<Output>>, ghost rem': bool)
      requires p < |data| && SummarizedFrom(ls, data, batchSize, p)
      requires LoadedPrefix(ls, p, calls, rem)
      modifies this, sink
      ensures sink.bulks == old(sink.bulks) + ls[p].calls
      ensures sink.indices == old(sink.indices) && sink.created == old(sink.created)
      ensures isLoaded == (old(isLoaded) || ls[p].flushes)
      ensures calls' == calls + ls[p].calls && rem' == (rem || ls[p].flushes)
      ensures sentinel == ls[p].ends && LoadedPrefix(ls, p + 1, calls', rem')
      ensures SummarizedFrom(ls, data, batchSize, p + 1)
    {
      ChunkerAgrees(data[p], batchSize);
      sentinel := LoadPart(data[p]);
      calls' := calls + ls[p].calls;
      rem' := rem || ls[p].flushes;
    }

    /** One pass of the `for` loop of `load`: chunk one part and bulk each chunk. */
    method LoadPart(actions: seq<Option<Output>>) returns (sentinel: bool)
      modifies this, sink
      ensures var l := Summary(Cut(actions), batchSize);
              && sink.bulks == old(sink.bulks) + l.calls
              && sentinel == l.ends
              && isLoaded == (old(isLoaded) || l.flushes)
      ensures sink.indices == old(sink.indices) && sink.created == old(sink.created)
    {
      var chunks;
      chunks, sentinel := PrepareChunkedActions(actions);
      BulkAll(chunks);
    }

    /** The `while actions := next(chunked_actions)` loop: one bulk call per
        chunk, in order (chunks are never empty, so none is falsy). */
    method BulkAll(chunks: seq<seq<Output>>)
      modifies sink
      ensures sink.bulks == old(sink.bulks) + chunks
      ensures sink.indices == old(sink.indices) && sink.created == old(sink.created)
    {
      var c := 0;
      while c < |chunks|
        invariant c <= |chunks|
        invariant sink.bulks == old(sink.bulks) + chunks[..c]
        invariant sink.indices == old(sink.indices) && sink.created == old(sink.created)
      {
        sink.Bulk(chunks[c]);
        assert chunks[..c + 1] == chunks[..c] + [chunks[c]];
        c := c + 1;
      }
      assert chunks[..c] == chunks;
    }
  }

  /** From part `k` on, `ls` holds the summaries of the parts of `data`. */
  ghost predicate SummarizedFrom(ls: seq<Loaded<Output>>, data: seq<seq<Option<Output>>>, size: int, k: nat)
    decreases |data| - k
  {
    |ls| == |data| && (k < |data| ==> ls[k] == Chunker(data[k], size, []) && SummarizedFrom(ls, data, size, k + 1))
  }

  lemma {:induction false} SummariesLink(data: seq<seq<Option<Output>>>, size: int, k: nat)
    ensures SummarizedFrom(Summaries(Cuts(data), size), data, size, k)
    decreases |data| - k
  {
    if k < |data| {
      ChunkerAgrees(data[k], size);
      SummariesLink(data, size, k + 1);
    }
  }

  /** `calls` and `rem` are what `load` did for the first `p` parts. */
  ghost predicate LoadedPrefix<T>(ls: seq<Loaded<T>>, p: nat, calls: seq<seq<T>>, rem: bool)
  {
    p <= |ls| && calls == CallsUpTo(ls, p) && rem == FlushedUpTo(ls, p)
  }

  /** After part `p`: a part that raised is the first to, and ends the
      run; one that ended lets the run go on. */
  lemma LoadStep<T>(ls: seq<Loaded<T>>, p: nat, calls: seq<seq<T>>, rem: bool)
    requires p < |ls| && p <= FirstRaising(ls) && LoadedPrefix(ls, p + 1, calls, rem)
    ensures !ls[p].ends ==> FirstRaising(ls) == p && Processed(ls) == p + 1 &&
                            calls == CallsUpTo(ls, Processed(ls)) && rem == FlushedUpTo(ls, Processed(ls))
    ensures ls[p].ends ==> p + 1 <= FirstRaising(ls)
  {
  }

  /** A run over every part: none raised. */
  lemma LoadEnd<T>(ls: seq<Loaded<T>>, p: nat, calls: seq<seq<T>>, rem: bool)
    requires p == |ls| && p <= FirstRaising(ls) && LoadedPrefix(ls, p, calls, rem)
    ensures FirstRaising(ls) == |ls| && Processed(ls) == p
    ensures calls == CallsUpTo(ls, Processed(ls)) && rem == FlushedUpTo(ls, Processed(ls))
  {
  }

  /** The plan of `index_exist` is what the first `n` pairs created
      (`done`) followed by what the remaining pairs create from `existing`. */
  ghost predicate CreationsFrom(names: seq<(string, string)>, n: nat, existing: set<string>,
                                paths: map<string, string>, plan: Creation, done: seq<(string, string)>)
  {
    n <= |names| &&
    var rest := Creations(names[n..], existing, paths);
    plan == Creation(done + rest.created, rest.ok)
  }

  lemma CreationsStep(names: seq<(string, string)>, n: nat, existing: set<string>,
                      paths: map<string, string>, plan: Creation, done: seq<(string, string)>)
    requires n < |names| && CreationsFrom(names, n, existing, paths, plan, done)
    ensures names[n].1 in existing ==> CreationsFrom(names, n + 1, existing, paths, plan, done)
    ensures names[n].1 !in existing && names[n].0 in paths ==>
              CreationsFrom(names, n + 1, existing + {names[n].1}, paths, plan, done + [(names[n].1, paths[names[n].0])])
    ensures names[n].1 !in existing && names[n].0 !in paths ==> plan == Creation(done, false)
  {
    assert names[n..] == [names[n]] + names[n + 1..];
    assert names[n..][1..] == names[n + 1..];
  }

  lemma CreationsDone(names: seq<(string, string)>, existing: set<string>,
                      paths: map<string, string>, plan: Creation, done: seq<(string, string)>)
    requires CreationsFrom(names, |names|, existing, paths, plan, done)
    ensures plan == Creation(done, true)
  {
    assert names[|names|..] == [];
    assert done + [] == done;
  }

  /** The parts of the transformed data, in dictionary order. */
  function Cuts(data: seq<seq<Option<Output>>>): (parts: seq<Part<Output>>)
    ensures |parts| == |data| && forall i :: 0 <= i < |data| ==> parts[i] == Cut(data[i])
  {
    seq(|data|, i requires 0 <= i < |data| => Cut(data[i]))
  }

  /** The loop of `_prepare_chunked_actions`: append each truthy item to the
      open chunk and close the chunk when it reaches `size`.  It stops at
      the first falsy item or, when there is none, at the end (`n`). */
  method Rebatch(actions: seq<Option<Output>>, size: int) returns (chunks: seq<seq<Output>>, chunk: seq<Output>, n: nat)
    ensures n == |Cut(actions).items| <= |actions| && (Cut(actions).ends <==> n < |actions|)
    ensures Flatten(chunks) + chunk == Cut(actions).items
    ensures forall i :: 0 <= i < |chunks| ==> |chunks[i]| == size
    ensures size < 1 ==> chunks == []
    ensures size >= 1 ==> |chunk| < size
  {
    ghost var xs := Cut(actions).items;
    CutIsPrefix(actions);
    chunk := [];
    chunks := [];
    n := 0;
    while n < |actions| && !FalsyItem(actions[n])
      invariant n <= |xs|
      invariant Flatten(chunks) + chunk == xs[..n]
      invariant forall i :: 0 <= i < |chunks| ==> |chunks[i]| == size
      invariant size < 1 ==> chunks == []
      invariant size >= 1 ==> |chunk| < size
    {
      assert xs[..n + 1] == xs[..n] + [actions[n].value];
      chunk := chunk + [actions[n].value];
      n := n + 1;
      if |chunk| == size {
        assert Flatten(chunks + [chunk]) == Flatten(chunks) + chunk by {
          assert (chunks + [chunk])[..|chunks|] == chunks;
        }
        chunks := chunks + [chunk];
        chunk := [];
      }
    }
    assert xs[..n] == xs;
  }

  /** What the chunker hands on at the end, from its final loop state: the
      full chunks, plus the open chunk when the part ended and it is not
      empty. */
  lemma FinalPartChunks<T>(chunks: seq<seq<T>>, chunk: seq<T>, p: Part<T>, size: int)
    requires Flatten(chunks) + chunk == p.items
    requires forall i :: 0 <= i < |chunks| ==> |chunks[i]| == size
    requires size < 1 ==> chunks == []
    requires size >= 1 ==> |chunk| < size
    ensures PartChunks(p, size) == if p.ends && chunk != [] then chunks + [chunk] else chunks
    ensures FlushesRemainder(p, size) == (p.ends && chunk != [])
  {
    FinalChunking(chunks, chunk, p.items, size);
    if chunk != [] {
      var all := chunks + [chunk];
      assert all[..|all| - 1] == chunks && all[|all| - 1] == chunk;
    }
  }

  /** The loop state of `_prepare_chunked_actions` at the end: the full
      chunks plus the non-empty open chunk are the reference chunking. */
  lemma FinalChunking<T>(chunks: seq<seq<T>>, chunk: seq<T>, xs: seq<T>, size: int)
    requires Flatten(chunks) + chunk == xs
    requires forall i :: 0 <= i < |chunks| ==> |chunks[i]| == size
    requires size < 1 ==> chunks == []
    requires size >= 1 ==> |chunk| < size
    ensures Chunks(xs, size) == if chunk == [] then chunks else chunks + [chunk]
  {
    var all := if chunk == [] then chunks else chunks + [chunk];
    if chunk == [] {
      assert Flatten(chunks) == xs;
    } else {
      assert all[..|chunks|] == chunks;
      assert Flatten(all) == xs;
    }
    assert IsChunking(all, xs, size);
    ChunksIsChunking(xs, size);
    ChunkingUnique(all, Chunks(xs, size), xs, size);
  }
}
