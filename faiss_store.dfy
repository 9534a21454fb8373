/**
 * The vector store (memory/faiss_store.py): a flat inner-product index with
 * a metadata list kept parallel to it, one entry per stored vector. The
 * index is modelled as the sequence of its vectors; nearest-neighbour search
 * itself is the index's answer, passed in.
 */
module FaissStore {
  import opened Wrappers
  import opened JsonValues

  type Vector = seq<real>

  /** One neighbour `IndexFlatIP.search` reports: its score and position, None for FAISS's -1. */
  datatype IndexHit = IndexHit(score: real, idx: Option<nat>)

  /** A search result: `{**meta, "score": score}`, with `"_index"` added when asked. */
  datatype Found = Found(meta: Dict, score: real, index: nat, withIndex: bool)

  /** `area` as a filter: `if area and meta.get("area") != area: continue` */
  predicate InArea(meta: Dict, area: Option<string>) {
    area.None? || area.value == [] || Get(meta, "area") == Some(JStr(area.value))
  }

  // ===========================================================================
  // Search

  /** The hit loop of `search` from hit `i` on, with `results` found so far; it stops once `k` results are in. */
  function SearchFrom(hits: seq<IndexHit>, i: nat, metadata: seq<Dict>, k: int, area: Option<string>, threshold: real,
                      includeIndices: bool, results: seq<Found>): (r: seq<Found>)
    requires i <= |hits|
    ensures |results| <= |r| <= |results| + |hits| - i
    ensures r[..|results|] == results
    ensures forall j :: |results| <= j < |r| ==>
      r[j].index < |metadata| && r[j].meta == metadata[r[j].index] && InArea(r[j].meta, area)
      && r[j].score >= threshold && r[j].withIndex == includeIndices
    ensures |results| < k ==> |r| <= k
    decreases |hits| - i
  {
    if i == |hits| then results
    else
      var h := hits[i];
      if h.idx.None? || h.score < threshold || h.idx.value >= |metadata| || !InArea(metadata[h.idx.value], area) then
        SearchFrom(hits, i + 1, metadata, k, area, threshold, includeIndices, results)
      else
        var results' := results + [Found(metadata[h.idx.value], h.score, h.idx.value, includeIndices)];
        if |results'| >= k then results'
        else
          var r := SearchFrom(hits, i + 1, metadata, k, area, threshold, includeIndices, results');
          assert r[..|results|] == r[..|results'|][..|results|];
          r
  }

  // ===========================================================================
  // Deletion

  /** The positions `i >= from` whose entry the filter spares: `[i for i, m in enumerate(metadata) if not filter_fn(m)]`. */
  function KeepFrom(ms: seq<Dict>, filter: Dict -> bool, from: nat): (keep: seq<nat>)
    requires from <= |ms|
    ensures |keep| <= |ms| - from
    ensures forall j :: 0 <= j < |keep| ==> from <= keep[j] < |ms| && !filter(ms[keep[j]])
    ensures forall j, l :: 0 <= j < l < |keep| ==> keep[j] < keep[l]
    ensures forall i :: from <= i < |ms| && !filter(ms[i]) ==> i in keep
    decreases |ms| - from
  {
    if from == |ms| then []
    else (if !filter(ms[from]) then [from] else []) + KeepFrom(ms, filter, from + 1)
  }

  function KeepIndices(ms: seq<Dict>, filter: Dict -> bool): seq<nat> {
    KeepFrom(ms, filter, 0)
  }

  /** The entries at the given positions, in that order. */
  function Select<T>(s: seq<T>, idx: seq<nat>): (r: seq<T>)
    requires forall j :: 0 <= j < |idx| ==> idx[j] < |s|
    ensures |r| == |idx| && forall j :: 0 <= j < |idx| ==> r[j] == s[idx[j]]
  {
    seq(|idx|, j requires 0 <= j < |idx| => s[idx[j]])
  }

  /** Every position is below `n`. */
  predicate Below(idx: seq<nat>, n: nat) {
    forall j :: 0 <= j < |idx| ==> idx[j] < n
  }

  /** The metadata `delete(filter_fn)` leaves. */
  function Deleted(ms: seq<Dict>, filter: Dict -> bool): seq<Dict> {
    Select(ms, KeepIndices(ms, filter))
  }

  /** `n` strictly increasing positions below `n` are `0, 1, ..., n - 1`. */
  lemma {:induction false} IncreasingBelow(keep: seq<nat>, n: nat)
    requires |keep| == n
    requires forall j :: 0 <= j < |keep| ==> keep[j] < n
    requires forall j, l :: 0 <= j < l < |keep| ==> keep[j] < keep[l]
    ensures forall j :: 0 <= j < n ==> keep[j] == j
  {
    if n > 0 {
      var init := keep[..n - 1];
      forall j | 0 <= j < |init|
        ensures init[j] < n - 1
      {
        assert init[j] == keep[j] < keep[n - 1];
      }
      IncreasingBelow(init, n - 1);
      if n > 1 {
        assert keep[n - 2] == init[n - 2];
        assert keep[n - 2] < keep[n - 1];
      }
      assert keep == init + [keep[n - 1]];
    }
  }

  /** A filter sparing every position from `from` on keeps all of them. */
  lemma {:induction false} KeepNone(ms: seq<Dict>, filter: Dict -> bool, from: nat)
    requires from <= |ms|
    requires forall i :: from <= i < |ms| ==> !filter(ms[i])
    ensures |KeepFrom(ms, filter, from)| == |ms| - from
    decreases |ms| - from
  {
    if from < |ms| {
      KeepNone(ms, filter, from + 1);
    }
  }

  /** `delete` keeps exactly the entries the filter spares, in their original relative order. */
  lemma DeletedExactly(ms: seq<Dict>, filter: Dict -> bool)
    ensures var keep := KeepIndices(ms, filter);
      Deleted(ms, filter) == Select(ms, keep)
      && (forall j, l :: 0 <= j < l < |keep| ==> keep[j] < keep[l])
      && (forall i :: 0 <= i < |ms| ==> (i in keep <==> !filter(ms[i])))
  {
  }

  /** A filter matching nothing changes nothing. */
  lemma DeleteNothing(ms: seq<Dict>, filter: Dict -> bool)
    requires forall i :: 0 <= i < |ms| ==> !filter(ms[i])
    ensures Deleted(ms, filter) == ms
  {
    KeepNone(ms, filter, 0);
    IncreasingBelow(KeepIndices(ms, filter), |ms|);
  }

  /** A filter matching everything leaves nothing. */
  lemma DeleteEverything(ms: seq<Dict>, filter: Dict -> bool)
    requires forall i :: 0 <= i < |ms| ==> filter(ms[i])
    ensures Deleted(ms, filter) == []
  {
    KeepNothing(ms, filter, 0);
  }

  lemma {:induction false} KeepNothing(ms: seq<Dict>, filter: Dict -> bool, from: nat)
    requires from <= |ms|
    requires forall i :: from <= i < |ms| ==> filter(ms[i])
    ensures KeepFrom(ms, filter, from) == []
    decreases |ms| - from
  {
    if from < |ms| {
      KeepNothing(ms, filter, from + 1);
    }
  }

  // ===========================================================================
  // Bulk metadata updates

  /** `update_metadata_bulk`: each index in range, in turn, has its entry updated. */
  function BulkUpdated(ms: seq<Dict>, indices: seq<int>, update: Dict -> Dict): (r: seq<Dict>)
    ensures |r| == |ms|
  {
    if indices == [] then ms
    else
      var prev := BulkUpdated(ms, indices[..|indices| - 1], update);
      var idx := indices[|indices| - 1];
      if 0 <= idx < |prev| then prev[idx := update(prev[idx])] else prev
  }

  /** Entries whose position is not listed are left as they were; out-of-range indices touch nothing. */
  lemma {:induction false} BulkUntouched(ms: seq<Dict>, indices: seq<int>, update: Dict -> Dict, j: nat)
    requires j < |ms| && j !in indices
    ensures BulkUpdated(ms, indices, update)[j] == ms[j]
  {
    if indices != [] {
      BulkUntouched(ms, indices[..|indices| - 1], update, j);
    }
  }

  /** Indices outside `[0, len)` may be dropped from the list without changing the outcome. */
  lemma {:induction false} BulkIgnoresOutOfRange(ms: seq<Dict>, indices: seq<int>, update: Dict -> Dict, bad: int)
    requires bad < 0 || bad >= |ms|
    ensures BulkUpdated(ms, indices + [bad], update) == BulkUpdated(ms, indices, update)
  {
    assert (indices + [bad])[..|indices|] == indices;
  }

  // ===========================================================================
  // The store

  class FAISSStore {
    var vectors: seq<Vector>   // the contents of `self.index`
    var metadata: seq<Dict>

    /**
     * The metadata list is parallel to the index. Nothing checks this: the
     * two files are loaded independently, and every operation keeps it once
     * it holds.
     */
    predicate Valid()
      reads this
    {
      |vectors| == |metadata|
    }

    /** `count`: `index.ntotal`, which is the number of metadata entries while they stay parallel. */
    function Count(): (n: nat)
      reads this
      ensures n == |vectors|
      ensures Valid() ==> n == |metadata|
    {
      |vectors|
    }

    /** A store loaded from disk (the index and the pickled list, as found), or a new empty one. */
    constructor(vectors: seq<Vector>, metadata: seq<Dict>)
      ensures this.vectors == vectors && this.metadata == metadata
      ensures |vectors| == |metadata| ==> Valid()
    {
      this.vectors := vectors;
      this.metadata := metadata;
    }

    /** `add(vectors, metadata_list)`: the vectors and the entries are appended at the end, unchecked. */
    method Add(vs: seq<Vector>, ms: seq<Dict>)
      modifies this
      ensures vectors == old(vectors) + vs && metadata == old(metadata) + ms
      ensures old(Valid()) && |vs| == |ms| ==> Valid()
    {
      vectors := vectors + vs;
      metadata := metadata + ms;
    }

    /**
     * `search`: `hits` is what the index answers for the `min(k * 5, ntotal)`
     * nearest neighbours. Skipped hits: FAISS's -1, scores under the
     * threshold, positions past the metadata, and entries outside the area.
     */
    method Search(hits: seq<IndexHit>, k: int, area: Option<string>, threshold: real, includeIndices: bool)
      returns (results: seq<Found>)
      ensures |vectors| == 0 ==> results == []
      ensures |vectors| != 0 ==> results == SearchFrom(hits, 0, metadata, k, area, threshold, includeIndices, [])
    {
      if |vectors| == 0 {
        return [];
      }
      results := [];
      var i := 0;
      var full := false;
      while i < |hits| && !full
        invariant 0 <= i <= |hits|
        invariant full ==> results == SearchFrom(hits, 0, metadata, k, area, threshold, includeIndices, [])
        invariant !full ==> SearchFrom(hits, i, metadata, k, area, threshold, includeIndices, results)
                            == SearchFrom(hits, 0, metadata, k, area, threshold, includeIndices, [])
      {
        var h := hits[i];
        if h.idx.None? || h.score < threshold || h.idx.value >= |metadata| || !InArea(metadata[h.idx.value], area) {
        } else {
          results := results + [Found(metadata[h.idx.value], h.score, h.idx.value, includeIndices)];
          if |results| >= k {
            full := true;
          }
        }
        i := i + 1;
      }
    }

    /**
     * `delete(filter_fn)`: the index is rebuilt from the kept vectors.
     * `raised` is the error `reconstruct` raises for a kept position past
     * the end of an index that is out of step with its metadata; nothing
     * changes then.
     */
    method Delete(filter: Dict -> bool) returns (raised: bool)
      modifies this
      ensures var keep := KeepIndices(old(metadata), filter);
        raised <==> 0 < |keep| < |old(metadata)| && !Below(keep, |old(vectors)|)
      ensures raised ==> vectors == old(vectors) && metadata == old(metadata)
      ensures !raised ==> metadata == Deleted(old(metadata), filter)
      ensures var keep := KeepIndices(old(metadata), filter);
        !raised && |keep| < |old(metadata)| ==> Below(keep, |old(vectors)|) && vectors == Select(old(vectors), keep)
      ensures |KeepIndices(old(metadata), filter)| == |old(metadata)| ==> vectors == old(vectors)
      ensures old(Valid()) ==> !raised && Valid() && vectors == Select(old(vectors), KeepIndices(old(metadata), filter))
    {
      var keep := KeepIndices(metadata, filter);
      if |keep| == |metadata| {
        IncreasingBelow(keep, |metadata|);
        assert Select(metadata, keep) == metadata;
        if Valid() {
          assert Select(vectors, keep) == vectors;
        }
        return false;
      }
      if keep == [] {
        vectors := [];
        metadata := [];
        return false;
      }
      if !Below(keep, |vectors|) {
        return true;
      }
      vectors := Select(vectors, keep);
      metadata := Select(metadata, keep);
      raised := false;
    }

    /** `clear()` */
    method Clear()
      modifies this
      ensures Valid() && vectors == [] && metadata == []
    {
      vectors := [];
      metadata := [];
    }

    /** `update_metadata_bulk(indices, update_fn)` */
    method UpdateMetadataBulk(indices: seq<int>, update: Dict -> Dict)
      modifies this
      ensures old(Valid()) ==> Valid()
      ensures vectors == old(vectors) && metadata == BulkUpdated(old(metadata), indices, update)
    {
      var i := 0;
      while i < |indices|
        invariant 0 <= i <= |indices|
        invariant vectors == old(vectors)
        invariant metadata == BulkUpdated(old(metadata), indices[..i], update)
      {
        assert indices[..i + 1][..i] == indices[..i];
        var idx := indices[i];
        if 0 <= idx < |metadata| {
          metadata := metadata[idx := update(metadata[idx])];
        }
        i := i + 1;
      }
      assert indices[..i] == indices;
    }
  }

  /** An empty index answers no search, and a search never yields more than `k` results when `k` is positive. */
  lemma SearchBound(hits: seq<IndexHit>, metadata: seq<Dict>, k: int, area: Option<string>, threshold: real,
                    includeIndices: bool)
    requires k >= 1
    ensures |SearchFrom(hits, 0, metadata, k, area, threshold, includeIndices, [])| <= k
  {
  }
}
