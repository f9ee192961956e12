/** Batched calls to the embedding service and the vector store: inputs are cut
    into consecutive slices (10 texts per embedding call, 100 documents per
    upsert), the calls are made one slice at a time in order, and an exception
    from any call ends the loop. The fast store constructor's readiness guard is
    here too. */
module Batching {
  import opened Errors
  import opened Registry

  function Min(a: int, b: int): int {
    if a <= b then a else b
  }

  // ---------------------------------------------------------------------------
  // Slicing
  // ---------------------------------------------------------------------------

  const EmbedBatchSize := 10
  const UpsertBatchSize := 100

  /** `xs` cut into consecutive slices of `size`, the last one possibly shorter. */
  function Batches<T>(xs: seq<T>, size: nat): (bs: seq<seq<T>>)
    requires size > 0
    decreases |xs|
  {
    if |xs| == 0 then [] else [xs[..Min(size, |xs|)]] + Batches(xs[Min(size, |xs|)..], size)
  }

  /** The slices put back together, in order. */
  function Flatten<T>(bs: seq<seq<T>>): seq<T> {
    if |bs| == 0 then [] else bs[0] + Flatten(bs[1..])
  }

  lemma {:induction false} FlattenAppend<T>(a: seq<seq<T>>, b: seq<seq<T>>)
    ensures Flatten(a + b) == Flatten(a) + Flatten(b)
    decreases |a|
  {
    if |a| > 0 {
      assert Flatten(a + b) == (a + b)[0] + Flatten((a + b)[1..]);
      assert (a + b)[0] == a[0];
      assert (a + b)[1..] == a[1..] + b;
      FlattenAppend(a[1..], b);
      assert a[0] + (Flatten(a[1..]) + Flatten(b)) == (a[0] + Flatten(a[1..])) + Flatten(b);
    } else {
      assert a + b == b;
    }
  }

  /** Concatenating the slices gives back the input. */
  lemma {:induction false} BatchesFlatten<T>(xs: seq<T>, size: nat)
    requires size > 0
    ensures Flatten(Batches(xs, size)) == xs
    decreases |xs|
  {
    if |xs| > 0 {
      var m := Min(size, |xs|);
      var bs := Batches(xs, size);
      assert bs == [xs[..m]] + Batches(xs[m..], size);
      assert bs[0] == xs[..m] && bs[1..] == Batches(xs[m..], size);
      BatchesFlatten(xs[m..], size);
      assert Flatten(bs) == xs[..m] + xs[m..];
      assert xs[..m] + xs[m..] == xs;
    }
  }

  /** No slice is empty, none is longer than `size`, and every slice but the
      last has exactly `size` elements. */
  predicate WellCut<T>(bs: seq<seq<T>>, size: nat) {
    && (forall j :: 0 <= j < |bs| ==> 0 < |bs[j]| <= size)
    && (forall j :: 0 <= j < |bs| - 1 ==> |bs[j]| == size)
  }

  lemma {:induction false} BatchesShape<T>(xs: seq<T>, size: nat)
    requires size > 0
    ensures WellCut(Batches(xs, size), size)
    decreases |xs|
  {
    if |xs| > 0 {
      var m := Min(size, |xs|);
      var rest := Batches(xs[m..], size);
      BatchesShape(xs[m..], size);
      assert WellCut(rest, size);
      var bs := Batches(xs, size);
      assert bs == [xs[..m]] + rest;
      assert |rest| > 0 ==> m == size;
      forall j | 0 <= j < |bs| ensures 0 < |bs[j]| <= size && (j < |bs| - 1 ==> |bs[j]| == size) {
        if j > 0 {
          assert bs[j] == rest[j - 1];
        }
      }
    }
  }

  /** `j * size`, built by repeated addition so that the induction below stays linear. */
  function Offset(j: nat, size: nat): nat {
    if j == 0 then 0 else Offset(j - 1, size) + size
  }

  lemma {:induction false} OffsetIsProduct(j: nat, size: nat)
    ensures Offset(j, size) == j * size
  {
    if j > 0 {
      OffsetIsProduct(j - 1, size);
      assert (j - 1) * size + size == j * size;
    }
  }

  lemma SliceOfSuffix<T>(xs: seq<T>, m: nat, k: nat, e: nat)
    requires m <= |xs| && k <= e <= |xs| - m
    ensures xs[m..][k..e] == xs[m + k..m + e]
  {
  }

  lemma {:induction false} BatchAtOffset<T>(xs: seq<T>, size: nat, j: nat)
    requires size > 0 && j < |Batches(xs, size)|
    ensures Offset(j, size) < |xs|
    ensures Batches(xs, size)[j] == xs[Offset(j, size)..Min(Offset(j, size) + size, |xs|)]
    decreases |xs|
  {
    var m := Min(size, |xs|);
    var rest := xs[m..];
    var bs := Batches(xs, size);
    assert bs == [xs[..m]] + Batches(rest, size);
    if j > 0 {
      BatchAtOffset(rest, size, j - 1);
      var k := Offset(j - 1, size);
      assert m == size && Offset(j, size) == m + k;
      var e := Min(k + size, |rest|);
      assert bs[j] == Batches(rest, size)[j - 1] == rest[k..e];
      SliceOfSuffix(xs, m, k, e);
    }
  }

  /** Slice `j` is the Python slice `xs[j*size : j*size + size]`, as the list
      comprehension over `range(0, len(xs), size)` builds it. */
  lemma BatchAt<T>(xs: seq<T>, size: nat, j: nat)
    requires size > 0 && j < |Batches(xs, size)|
    ensures j * size < |xs|
    ensures Batches(xs, size)[j] == xs[j * size..Min(j * size + size, |xs|)]
  {
    BatchAtOffset(xs, size, j);
    OffsetIsProduct(j, size);
  }

  // ---------------------------------------------------------------------------
  // One call per slice
  // ---------------------------------------------------------------------------

  /** The outputs of calling `call` on each slice in turn and concatenating
      them, or the first exception raised. */
  function CallAll<X, Y>(bs: seq<seq<X>>, call: seq<X> -> Result<seq<Y>>): Result<seq<Y>> {
    if |bs| == 0 then Ok([])
    else
      match call(bs[0])
      case Err(e) => Err(e)
      case Ok(v) => Prepend(v, CallAll(bs[1..], call))
  }

  function Prepend<Y>(v: seq<Y>, r: Result<seq<Y>>): Result<seq<Y>> {
    if r.Ok? then Ok(v + r.value) else r
  }

  lemma PrependTwice<Y>(u: seq<Y>, v: seq<Y>, r: Result<seq<Y>>)
    ensures Prepend(u, Prepend(v, r)) == Prepend(u + v, r)
  {
    if r.Ok? {
      assert u + (v + r.value) == (u + v) + r.value;
    }
  }

  /** When every call returns one output per input, the outputs line up with
      the concatenated inputs. */
  lemma {:induction false} CallAllLength<X, Y>(bs: seq<seq<X>>, call: seq<X> -> Result<seq<Y>>)
    requires forall b :: call(b).Ok? ==> |call(b).value| == |b|
    ensures CallAll(bs, call).Ok? ==> |CallAll(bs, call).value| == |Flatten(bs)|
    decreases |bs|
  {
    if |bs| > 0 {
      CallAllLength(bs[1..], call);
    }
  }

  /** Every slice's call succeeded exactly when the whole run succeeded. */
  lemma {:induction false} CallAllOkIff<X, Y>(bs: seq<seq<X>>, call: seq<X> -> Result<seq<Y>>)
    ensures CallAll(bs, call).Ok? <==> forall j :: 0 <= j < |bs| ==> call(bs[j]).Ok?
    decreases |bs|
  {
    if |bs| > 0 {
      CallAllOkIff(bs[1..], call);
      if call(bs[0]).Ok? {
        forall j | 0 < j < |bs| ensures call(bs[j]) == call(bs[1..][j - 1]) {
        }
      }
    }
  }

  /** What each slice's call returned, slice by slice. */
  function Outputs<X, Y>(bs: seq<seq<X>>, call: seq<X> -> Result<seq<Y>>): (outs: seq<seq<Y>>)
    requires forall j :: 0 <= j < |bs| ==> call(bs[j]).Ok?
    ensures |outs| == |bs|
  {
    if |bs| == 0 then []
    else
      assert forall j :: 0 <= j < |bs| - 1 ==> bs[1..][j] == bs[j + 1];
      [call(bs[0]).value] + Outputs(bs[1..], call)
  }

  /** A successful batched run returns the outputs of the slices' calls
      concatenated slice by slice, in input order. */
  lemma {:induction false} CallAllConcatenates<X, Y>(bs: seq<seq<X>>, call: seq<X> -> Result<seq<Y>>)
    requires forall j :: 0 <= j < |bs| ==> call(bs[j]).Ok?
    ensures CallAll(bs, call) == Ok(Flatten(Outputs(bs, call)))
    decreases |bs|
  {
    if |bs| > 0 {
      assert forall j :: 0 <= j < |bs| - 1 ==> bs[1..][j] == bs[j + 1];
      CallAllConcatenates(bs[1..], call);
      var outs := Outputs(bs, call);
      assert outs[0] == call(bs[0]).value && outs[1..] == Outputs(bs[1..], call);
    }
  }

  /** The calls a batched loop made and what it returned or raised. */
  datatype BatchRun<X, Y> = BatchRun(result: Result<seq<Y>>, calls: seq<seq<X>>)

  /** The loop `for batch in batches: out.extend(await call(batch))`: the calls
      made are the slices in order up to and including the first that raised,
      and the result is that exception or all the outputs concatenated. */
  method RunBatches<X, Y>(xs: seq<X>, size: nat, call: seq<X> -> Result<seq<Y>>) returns (run: BatchRun<X, Y>)
    requires size > 0
    ensures run.result == CallAll(Batches(xs, size), call)
    ensures |run.calls| <= |Batches(xs, size)| && run.calls == Batches(xs, size)[..|run.calls|]
    ensures forall j :: 0 <= j < |run.calls| - 1 ==> call(run.calls[j]).Ok?
    ensures run.result.Ok? ==> run.calls == Batches(xs, size)
    ensures run.result.Err? ==> |run.calls| > 0 && call(run.calls[|run.calls| - 1]) == Err(run.result.error)
  {
    var bs := Batches(xs, size);
    var out: seq<Y> := [];
    var i := 0;
    assert bs[0..] == bs;
    assert CallAll(bs, call).Ok? ==> [] + CallAll(bs, call).value == CallAll(bs, call).value;
    while i < |bs|
      invariant 0 <= i <= |bs|
      invariant CallAll(bs, call) == Prepend(out, CallAll(bs[i..], call))
      invariant forall j :: 0 <= j < i ==> call(bs[j]).Ok?
    {
      assert bs[i..][1..] == bs[i + 1..];
      match call(bs[i])
      case Err(e) =>
        return BatchRun(Err(e), bs[..i + 1]);
      case Ok(v) =>
        PrependTwice(out, v, CallAll(bs[i + 1..], call));
        out := out + v;
      i := i + 1;
    }
    assert bs[i..] == [];
    assert out + [] == out;
    return BatchRun(Ok(out), bs);
  }

  // ---------------------------------------------------------------------------
  // The two batched operations
  // ---------------------------------------------------------------------------

  type Vector = seq<real>

  /** `batch_embed_documents`: the embeddings client is fetched first (a
      missing one raises before any call), then the texts are embedded ten at a
      time; `embed` is what `aembed_documents` returns or raises for a slice. */
  method BatchEmbedDocuments(r: Registry, texts: seq<string>, embed: seq<string> -> Result<seq<Vector>>)
    returns (run: BatchRun<string, Vector>)
    ensures r.embeddings.None? ==> run == BatchRun(Err(EmbeddingsMissing), [])
    ensures r.embeddings.Some? ==>
              |run.calls| <= |Batches(texts, EmbedBatchSize)| && run.calls == Batches(texts, EmbedBatchSize)[..|run.calls|]
    ensures forall j :: 0 <= j < |run.calls| ==> 0 < |run.calls[j]| <= EmbedBatchSize
    ensures |texts| == 0 ==> run.calls == []
    ensures run.result.Ok? <==>
              r.embeddings.Some? && forall j :: 0 <= j < |run.calls| ==> embed(run.calls[j]).Ok?
    ensures run.result.Ok? ==> Flatten(run.calls) == texts
    ensures run.result.Ok? ==> run.result.value == Flatten(Outputs(run.calls, embed))
    ensures r.embeddings.Some? ==> run.result == CallAll(Batches(texts, EmbedBatchSize), embed)
    ensures forall j :: 0 <= j < |run.calls| - 1 ==> embed(run.calls[j]).Ok?
    ensures run.result.Err? && r.embeddings.Some? ==>
              |run.calls| > 0 && embed(run.calls[|run.calls| - 1]) == Err(run.result.error)
    ensures run.result.Ok? && (forall b :: embed(b).Ok? ==> |embed(b).value| == |b|) ==>
              |run.result.value| == |texts|
    ensures |texts| == 0 && r.embeddings.Some? ==> run.result == Ok([])
  {
    if GetEmbeddings(r).Err? {
      return BatchRun(Err(EmbeddingsMissing), []);
    }
    run := RunBatches(texts, EmbedBatchSize, embed);
    BatchesShape(texts, EmbedBatchSize);
    BatchesFlatten(texts, EmbedBatchSize);
    CallAllOkIff(Batches(texts, EmbedBatchSize), embed);
    if (forall b :: embed(b).Ok? ==> |embed(b).value| == |b|) {
      CallAllLength(Batches(texts, EmbedBatchSize), embed);
    }
    if run.result.Ok? {
      CallAllConcatenates(run.calls, embed);
    }
    if |texts| == 0 {
      assert Batches(texts, EmbedBatchSize) == [];
    }
  }

  /** `bulk_upsert_documents`: `add` is what `add_documents` does with one slice
      of at most 100 documents; a raise ends the loop. */
  method BulkUpsertDocuments<D>(documents: seq<D>, add: seq<D> -> Result<()>) returns (result: Result<()>, calls: seq<seq<D>>)
    ensures |calls| <= |Batches(documents, UpsertBatchSize)| && calls == Batches(documents, UpsertBatchSize)[..|calls|]
    ensures forall j :: 0 <= j < |calls| ==> 0 < |calls[j]| <= UpsertBatchSize
    ensures result.Ok? <==> forall j :: 0 <= j < |calls| ==> add(calls[j]).Ok?
    ensures forall j :: 0 <= j < |calls| - 1 ==> add(calls[j]).Ok?
    ensures result.Ok? ==> Flatten(calls) == documents
    ensures result.Err? ==> |calls| > 0 && add(calls[|calls| - 1]) == Err(result.error)
  {
    var call := (b: seq<D>) => if add(b).Ok? then Ok([]) else Err(add(b).error);
    var run: BatchRun<D, ()> := RunBatches(documents, UpsertBatchSize, call);
    BatchesShape(documents, UpsertBatchSize);
    BatchesFlatten(documents, UpsertBatchSize);
    CallAllOkIff(Batches(documents, UpsertBatchSize), call);
    calls := run.calls;
    result := if run.result.Ok? then Ok(()) else Err(run.result.error);
    assert forall b :: call(b).Ok? <==> add(b).Ok?;
  }

  // ---------------------------------------------------------------------------
  // Fast store constructor
  // ---------------------------------------------------------------------------

  const NotInitializedText :=
    "Global resources not initialized. " +
    "Ensure startup initialization " +
    "completed."

  /** What `create_from_documents_fast` returned or raised, and whether it got as
      far as calling the store constructor. */
  datatype FastStore<S> = FastStore(result: Result<S>, constructed: bool)

  /** `create_from_documents_fast`: a RuntimeError unless every handle is set;
      otherwise whatever the store constructor returned or raised, unwrapped. */
  function CreateFromDocumentsFast<S>(r: Registry, fromDocuments: Result<S>): (f: FastStore<S>)
    ensures f.constructed <==> IsInitialized(r)
    ensures !IsInitialized(r) ==> f.result == Err(Builtin("RuntimeError", NotInitializedText))
    ensures IsInitialized(r) ==> f.result == fromDocuments
  {
    if !IsInitialized(r) then FastStore(Err(Builtin("RuntimeError", NotInitializedText)), false)
    else FastStore(fromDocuments, true)
  }

  /** On a ready registry the fast constructor and `get_vector_store` succeed
      together with the same store; they differ only in how a constructor
      failure surfaces (raw, or as a VectorStoreError). On a registry without
      embeddings both refuse without constructing anything. */
  lemma FastStoreAgreesWithGuardedStore<S>(r: Registry, fromDocuments: Result<S>)
    ensures IsInitialized(r) ==>
              CreateFromDocumentsFast(r, fromDocuments).result.Ok? == GetVectorStore(r, fromDocuments).Ok?
    ensures IsInitialized(r) && fromDocuments.Ok? ==>
              CreateFromDocumentsFast(r, fromDocuments).result == GetVectorStore(r, fromDocuments)
    ensures r.embeddings.None? ==>
              CreateFromDocumentsFast(r, fromDocuments).result.Err? && GetVectorStore(r, fromDocuments).Err?
  {
  }
}
