/**
 * The memory manager (memory/memory_manager.py): namespaces, area counts,
 * listing, the documents of the keyword index, and the compaction of old
 * memories into one summary entry. Embeddings, scores and clocks are left
 * abstract: a parsed timestamp is an `int`, and the parser is a parameter.
 */
module MemoryManager {
  import opened Wrappers
  import opened Text
  import opened JsonValues
  import Sorting
  import FS = FaissStore

  const AreaMain := "main"
  const AreaFragments := "fragments"
  const AreaSolutions := "solutions"
  const AreaKnowledge := "knowledge"

  // ===========================================================================
  // Namespaces

  /** `_list_namespaces`: the configured namespaces, or just "default"; never empty. */
  function ListNamespaces(configured: seq<string>): (r: seq<string>)
    ensures r != []
    ensures configured != [] ==> r == configured
    ensures configured == [] ==> r == ["default"]
  {
    if configured != [] then configured else ["default"]
  }

  /** `_resolve_namespace`: an explicit namespace, else a subdirectory other than "default", else the first listed namespace. */
  function ResolveNamespace(namespace: Option<string>, subdir: string, configured: seq<string>): (r: string)
    ensures namespace.Some? && namespace.value != [] ==> r == namespace.value
    ensures !(namespace.Some? && namespace.value != []) && subdir != [] && subdir != "default" ==> r == subdir
    ensures !(namespace.Some? && namespace.value != []) && !(subdir != [] && subdir != "default") ==>
      r == ListNamespaces(configured)[0] && (configured == [] ==> r == "default")
  {
    if namespace.Some? && namespace.value != [] then namespace.value
    else if subdir != [] && subdir != "default" then subdir
    else ListNamespaces(configured)[0]
  }

  /** A namespace resolved once resolves to itself when passed back explicitly, whatever the subdirectory. */
  lemma ResolveStable(namespace: Option<string>, subdir: string, subdir': string, configured: seq<string>)
    requires ResolveNamespace(namespace, subdir, configured) != []
    ensures var ns := ResolveNamespace(namespace, subdir, configured);
      ResolveNamespace(Some(ns), subdir', configured) == ns
  {
  }

  // ===========================================================================
  // Area counts (_count_areas)

  /** `m.get("area", "unknown")` */
  function AreaOf(m: Dict): Json {
    GetOr(m, "area", JStr("unknown"))
  }

  /** The `areas` dict: keys in insertion order, each with its count. */
  type AreaCounts = seq<(Json, nat)>

  predicate DistinctAreas(c: AreaCounts) {
    forall i, j :: 0 <= i < j < |c| ==> c[i].0 != c[j].0
  }

  /** `areas[a] = areas.get(a, 0) + 1` */
  function Bump(c: AreaCounts, a: Json): (r: AreaCounts)
    ensures |r| == |c| || |r| == |c| + 1
  {
    if c == [] then [(a, 1)]
    else if c[0].0 == a then [(a, c[0].1 + 1)] + c[1..]
    else [c[0]] + Bump(c[1..], a)
  }

  /** `areas.get(a, 0)` */
  function CountOf(c: AreaCounts, a: Json): nat {
    if c == [] then 0 else if c[0].0 == a then c[0].1 else CountOf(c[1..], a)
  }

  function Total(c: AreaCounts): nat {
    if c == [] then 0 else c[0].1 + Total(c[1..])
  }

  function CountsOf(ms: seq<Dict>): AreaCounts {
    if ms == [] then [] else Bump(CountsOf(ms[..|ms| - 1]), AreaOf(ms[|ms| - 1]))
  }

  /** How many entries are in area `a`. */
  function Occurrences(ms: seq<Dict>, a: Json): nat {
    if ms == [] then 0 else Occurrences(ms[..|ms| - 1], a) + (if AreaOf(ms[|ms| - 1]) == a then 1 else 0)
  }

  /** One bump adds one to the total and to the bumped area's count only, keeps the areas distinct and adds no other area. */
  lemma BumpCounts(c: AreaCounts, a: Json, b: Json)
    ensures Total(Bump(c, a)) == Total(c) + 1
    ensures CountOf(Bump(c, a), b) == CountOf(c, b) + (if a == b then 1 else 0)
    ensures DistinctAreas(c) ==> DistinctAreas(Bump(c, a))
    ensures forall x :: x in Bump(c, a) ==> x.0 == a || x.0 in Keys(c)
  {
    BumpTotal(c, a, b);
    BumpKeys(c, a);
    if DistinctAreas(c) {
      BumpDistinct(c, a);
    }
  }

  lemma {:induction false} BumpTotal(c: AreaCounts, a: Json, b: Json)
    ensures Total(Bump(c, a)) == Total(c) + 1
    ensures CountOf(Bump(c, a), b) == CountOf(c, b) + (if a == b then 1 else 0)
  {
    if c != [] && c[0].0 != a {
      BumpTotal(c[1..], a, b);
      assert Bump(c, a) == [c[0]] + Bump(c[1..], a);
    }
  }

  lemma {:induction false} BumpKeys(c: AreaCounts, a: Json)
    ensures forall x :: x in Bump(c, a) ==> x.0 == a || x.0 in Keys(c)
  {
    if c != [] && c[0].0 != a {
      BumpKeys(c[1..], a);
      var r := Bump(c, a);
      assert r == [c[0]] + Bump(c[1..], a);
      forall x | x in r
        ensures x.0 == a || x.0 in Keys(c)
      {
        if x != c[0] {
          assert x in Bump(c[1..], a);
          if x.0 != a {
            var k :| 0 <= k < |c[1..]| && c[1..][k].0 == x.0;
            assert c[k + 1].0 == x.0;
          }
        }
      }
    } else if c != [] {
      var r := Bump(c, a);
      forall x | x in r
        ensures x.0 == a || x.0 in Keys(c)
      {
        if x.0 != a {
          var k :| 0 <= k < |r| && r[k] == x;
          assert r[k] == c[k];
        }
      }
    }
  }

  lemma {:induction false} BumpDistinct(c: AreaCounts, a: Json)
    requires DistinctAreas(c)
    ensures DistinctAreas(Bump(c, a))
  {
    if c != [] && c[0].0 != a {
      assert DistinctAreas(c[1..]) by {
        forall i, j | 0 <= i < j < |c[1..]|
          ensures c[1..][i].0 != c[1..][j].0
        {
          assert c[1..][i] == c[i + 1] && c[1..][j] == c[j + 1];
        }
      }
      BumpDistinct(c[1..], a);
      BumpKeys(c[1..], a);
      var r := Bump(c, a);
      assert r == [c[0]] + Bump(c[1..], a);
      forall j | 0 < j < |r|
        ensures r[0].0 != r[j].0
      {
        assert r[j] in Bump(c[1..], a);
        if r[j].0 != a {
          assert r[j].0 in Keys(c[1..]);
          var k :| 0 <= k < |c[1..]| && c[1..][k].0 == r[j].0;
          assert c[k + 1].0 == r[j].0;
        }
      }
    } else if c != [] {
      var r := Bump(c, a);
      forall i, j | 0 <= i < j < |r|
        ensures r[i].0 != r[j].0
      {
        assert r[j] == c[j];
        if i > 0 {
          assert r[i] == c[i];
        }
      }
    }
  }

  function Keys(c: AreaCounts): set<Json> {
    set k | 0 <= k < |c| :: c[k].0
  }

  /** The counts of `_count_areas` add up to the number of entries, each is the number of entries in its area, and no area repeats. */
  lemma {:induction false} CountsOfProperties(ms: seq<Dict>, a: Json)
    ensures Total(CountsOf(ms)) == |ms|
    ensures CountOf(CountsOf(ms), a) == Occurrences(ms, a)
    ensures DistinctAreas(CountsOf(ms))
  {
    if ms != [] {
      CountsOfProperties(ms[..|ms| - 1], a);
      BumpCounts(CountsOf(ms[..|ms| - 1]), AreaOf(ms[|ms| - 1]), a);
    }
  }

  /** Entries without an area are counted under "unknown". */
  lemma UnknownArea(ms: seq<Dict>)
    requires forall i :: 0 <= i < |ms| ==> !HasKey(ms[i], "area")
    ensures CountOf(CountsOf(ms), JStr("unknown")) == |ms|
  {
    CountsOfProperties(ms, JStr("unknown"));
    AllUnknown(ms);
  }

  lemma {:induction false} AllUnknown(ms: seq<Dict>)
    requires forall i :: 0 <= i < |ms| ==> !HasKey(ms[i], "area")
    ensures Occurrences(ms, JStr("unknown")) == |ms|
  {
    if ms != [] {
      AllUnknown(ms[..|ms| - 1]);
      assert !HasKey(ms[|ms| - 1], "area");
    }
  }

  /** The loop of `_count_areas`. */
  method CountAreas(ms: seq<Dict>) returns (areas: AreaCounts)
    ensures areas == CountsOf(ms)
  {
    areas := [];
    var i := 0;
    while i < |ms|
      invariant 0 <= i <= |ms|
      invariant areas == CountsOf(ms[..i])
    {
      assert ms[..i + 1][..i] == ms[..i];
      areas := Bump(areas, AreaOf(ms[i]));
      i := i + 1;
    }
    assert ms[..i] == ms;
  }

  // ===========================================================================
  // First sentences and summaries

  /** `text[:n]` */
  function Prefix(text: string, n: nat): (r: string)
    ensures |r| <= n && |r| <= |text| && r == text[..|r|]
    ensures (|text| >= n ==> |r| == n) && (|text| < n ==> r == text)
  {
    if |text| <= n then text else text[..n]
  }

  /** The prefix through `sep` when `text.find(sep)` lands before index 200. */
  function ThroughSep(text: string, sep: string): (r: Option<string>)
    requires |sep| == 1
    ensures r.Some? ==> 1 <= |r.value| <= 200 && |r.value| <= |text| && r.value == text[..|r.value|]
    ensures r.Some? ==> text[|r.value| - 1..|r.value|] == sep
  {
    var idx := Find(text, sep);
    if idx != -1 && idx < 200 then Some(text[..idx + 1]) else None
  }

  /**
   * `_first_sentence`: ".", "!" and "?" are tried in that order, not by
   * earliest position; failing all three, the first 160 characters.
   */
  function FirstSentence(text: string): (r: string)
    ensures ThroughSep(text, ".").Some? ==> r == ThroughSep(text, ".").value
    ensures ThroughSep(text, ".").None? && ThroughSep(text, "!").Some? ==> r == ThroughSep(text, "!").value
    ensures ThroughSep(text, ".").None? && ThroughSep(text, "!").None? && ThroughSep(text, "?").Some? ==>
      r == ThroughSep(text, "?").value
    ensures ThroughSep(text, ".").None? && ThroughSep(text, "!").None? && ThroughSep(text, "?").None? ==>
      r == Prefix(text, 160)
    ensures |r| <= 200 && r == text[..|r|] && (text != [] ==> r != [])
  {
    match ThroughSep(text, ".")
    case Some(s) => s
    case None =>
      match ThroughSep(text, "!")
      case Some(s) => s
      case None =>
        match ThroughSep(text, "?")
        case Some(s) => s
        case None => Prefix(text, 160)
  }

  /** A period wins over an earlier question mark. */
  lemma FirstSentenceByOrder()
    ensures FirstSentence("Why? Because.") == "Why? Because."
  {
    var t := "Why? Because.";
    var idx := Find(t, ".");
    assert OccursAt(t, ".", 12);
    if idx != 12 {
      CharAt(t, '.', idx);
      assert false;
    }
    assert t[..13] == t;
  }

  lemma CharAt(s: string, c: char, i: int)
    requires OccursAt(s, [c], i)
    ensures 0 <= i < |s| && s[i] == c
  {
    assert s[i..i + 1][0] == s[i];
  }

  const SummaryHeader := "Compacted memory summary:\n"

  /**
   * The summary line of one stripped, non-blank content. The
   * `or content[:160]` fallback never applies: the first sentence of
   * non-empty text is non-empty (FirstSentence's contract).
   */
  function SummaryLine(content: string): string {
    "- " + Strip(FirstSentence(content))
  }

  /** The lines of `_summarize_memories`: one per content that is not blank, in order. */
  function SummaryLines(contents: seq<string>): (lines: seq<string>) {
    if contents == [] then []
    else
      var c := Strip(contents[|contents| - 1]);
      SummaryLines(contents[..|contents| - 1]) + (if c == [] then [] else [SummaryLine(c)])
  }

  function Summarize(contents: seq<string>): string {
    var lines := SummaryLines(contents);
    if lines == [] then "" else SummaryHeader + Join(lines, "\n")
  }

  /** Every content is blank. */
  predicate AllBlank(contents: seq<string>) {
    forall i :: 0 <= i < |contents| ==> IsBlank(contents[i])
  }

  /** There are no summary lines exactly when every content is blank. */
  lemma SummaryLinesEmpty(contents: seq<string>)
    ensures SummaryLines(contents) == [] <==> AllBlank(contents)
  {
    SummaryLinesCount(contents);
    NonBlankCountZero(contents);
  }

  /** How many contents are not blank. */
  function NonBlankCount(contents: seq<string>): nat {
    if contents == [] then 0
    else NonBlankCount(contents[..|contents| - 1]) + (if IsBlank(contents[|contents| - 1]) then 0 else 1)
  }

  /** One summary line per content that is not blank. */
  lemma {:induction false} SummaryLinesCount(contents: seq<string>)
    ensures |SummaryLines(contents)| == NonBlankCount(contents)
  {
    if contents != [] {
      SummaryLinesCount(contents[..|contents| - 1]);
      var blank := LastBlank(contents);
      SummaryLinesStep(contents);
    }
  }

  lemma {:induction false} NonBlankCountZero(contents: seq<string>)
    ensures NonBlankCount(contents) == 0 <==> AllBlank(contents)
  {
    if contents != [] {
      var n := |contents| - 1;
      var init := contents[..n];
      NonBlankCountZero(init);
      if NonBlankCount(contents) == 0 {
        forall i | 0 <= i < |contents|
          ensures IsBlank(contents[i])
        {
          if i < n {
            assert contents[i] == init[i];
          }
        }
      } else if IsBlank(contents[n]) {
        var i :| 0 <= i < |init| && !IsBlank(init[i]);
        assert contents[i] == init[i];
      }
    }
  }

  /** The last content strips to nothing exactly when it is blank. */
  lemma LastBlank(contents: seq<string>) returns (blank: bool)
    requires contents != []
    ensures blank == (Strip(contents[|contents| - 1]) == []) && blank == IsBlank(contents[|contents| - 1])
  {
    StripProperties(contents[|contents| - 1]);
    blank := Strip(contents[|contents| - 1]) == [];
  }

  lemma SummaryLinesStep(contents: seq<string>)
    requires contents != []
    ensures var c := Strip(contents[|contents| - 1]);
      SummaryLines(contents) == SummaryLines(contents[..|contents| - 1]) + (if c == [] then [] else [SummaryLine(c)])
  {
  }

  /** `_summarize_memories` is "" iff every content is blank, and otherwise starts with its header. */
  lemma SummarizeMeans(contents: seq<string>)
    ensures Summarize(contents) == "" <==> AllBlank(contents)
    ensures Summarize(contents) != "" ==> StartsWith(Summarize(contents), SummaryHeader)
  {
    SummaryLinesEmpty(contents);
    var s := Summarize(contents);
    if SummaryLines(contents) != [] {
      assert s == SummaryHeader + Join(SummaryLines(contents), "\n");
      assert s[..|SummaryHeader|] == SummaryHeader;
    }
  }

  /** `_summarize_memories`: the header and the lines, or "" when there is no line. */
  method SummarizeMemories(contents: seq<string>) returns (summary: string)
    ensures summary == Summarize(contents)
  {
    var lines := BuildSummaryLines(contents);
    summary := if lines != [] then SummaryHeader + Join(lines, "\n") else "";
  }

  /** The line-building loop of `_summarize_memories`. */
  method BuildSummaryLines(contents: seq<string>) returns (lines: seq<string>)
    ensures lines == SummaryLines(contents)
  {
    lines := [];
    var i := 0;
    while i < |contents|
      invariant 0 <= i <= |contents|
      invariant lines == SummaryLines(contents[..i])
    {
      SummaryLinesAt(contents, i);
      var content := Strip(contents[i]);
      if content != [] {
        var snippet := FirstSentence(content);
        lines := lines + ["- " + Strip(snippet)];
      }
      i := i + 1;
    }
    assert contents[..i] == contents;
  }

  lemma SummaryLinesAt(contents: seq<string>, i: nat)
    requires i < |contents|
    ensures var c := Strip(contents[i]);
      SummaryLines(contents[..i + 1]) == SummaryLines(contents[..i]) + (if c == [] then [] else [SummaryLine(c)])
  {
    assert contents[..i + 1][..i] == contents[..i];
    SummaryLinesStep(contents[..i + 1]);
  }

  // ===========================================================================
  // Compaction (_maybe_compact)

  /** An entry `_maybe_compact` may fold into a summary, with its position and parsed creation time. */
  datatype Candidate = Candidate(idx: nat, ts: int, meta: Dict)

  /** Knowledge-area and already-compacted entries are never compacted. */
  predicate Eligible(meta: Dict) {
    Get(meta, "area") != Some(JStr(AreaKnowledge)) && !Truthy(GetOr(meta, "compacted", JNull))
  }

  /** `meta.get("created_at") or meta.get("timestamp")` */
  function CreatedField(meta: Dict): Json {
    if Truthy(GetOr(meta, "created_at", JNull)) then GetOr(meta, "created_at", JNull) else GetOr(meta, "timestamp", JNull)
  }

  /** The candidates among the entries, in store order; `parse` is `_parse_timestamp`. */
  function Candidates(ms: seq<Dict>, parse: Json -> Option<int>): (cs: seq<Candidate>)
    ensures forall j :: 0 <= j < |cs| ==>
      cs[j].idx < |ms| && cs[j].meta == ms[cs[j].idx] && Eligible(cs[j].meta) && parse(CreatedField(cs[j].meta)) == Some(cs[j].ts)
    ensures forall j, l :: 0 <= j < l < |cs| ==> cs[j].idx < cs[l].idx
    ensures |cs| <= |ms|
  {
    if ms == [] then []
    else
      var n := |ms| - 1;
      var init := Candidates(ms[..n], parse);
      var m := ms[n];
      var p := parse(CreatedField(m));
      init + (if Eligible(m) && p.Some? then [Candidate(n, p.value, m)] else [])
  }

  /** `candidates.sort(key=lambda item: item[1])`: oldest first, ties in store order. */
  function ByTime(a: Candidate, b: Candidate): bool {
    a.ts <= b.ts
  }

  lemma ByTimeTotal()
    ensures Sorting.TotalPreorder(ByTime)
  {
  }

  /** `max(2, min(50, len(candidates), store.count - threshold + 1))` */
  function BatchSize(candidates: nat, count: int, threshold: int): (b: int)
    ensures 2 <= b
    ensures candidates >= 2 ==> b <= 50 && b <= candidates
    ensures candidates >= 2 && count - threshold + 1 >= 2 ==> b == Min(Min(50, candidates), count - threshold + 1)
  {
    var m := Min(Min(50, candidates), count - threshold + 1);
    if m < 2 then 2 else m
  }

  function Min(a: int, b: int): int {
    if a <= b then a else b
  }

  /**
   * The batch `_maybe_compact` selects, or None when it does nothing:
   * compaction disabled, the count not over the threshold, or fewer than two
   * candidates.
   */
  function CompactBatch(ms: seq<Dict>, count: int, enabled: bool, threshold: int, parse: Json -> Option<int>): Option<seq<Candidate>> {
    if !enabled || count <= threshold then None
    else
      var cs := Candidates(ms, parse);
      if |cs| < 2 then None
      else Some(Sorting.SortBy(cs, ByTime)[..BatchSize(|cs|, count, threshold)])
  }

  /** `_maybe_compact` selects a batch exactly when it is enabled, over its threshold and has two candidates. */
  lemma CompactBatchWhen(ms: seq<Dict>, count: int, enabled: bool, threshold: int, parse: Json -> Option<int>)
    ensures CompactBatch(ms, count, enabled, threshold, parse).Some? <==>
      enabled && count > threshold && |Candidates(ms, parse)| >= 2
  {
  }

  /**
   * A selected batch holds between 2 and 50 candidates. It is the oldest
   * prefix of the candidates sorted by creation time, so no candidate left
   * out is older than one taken.
   */
  lemma CompactBatchOldest(ms: seq<Dict>, count: int, enabled: bool, threshold: int, parse: Json -> Option<int>)
    requires CompactBatch(ms, count, enabled, threshold, parse).Some?
    ensures var b := CompactBatch(ms, count, enabled, threshold, parse).value;
      var cs := Candidates(ms, parse);
      var sorted := Sorting.SortBy(cs, ByTime);
      2 <= |b| <= 50 && |b| == BatchSize(|cs|, count, threshold)
      && b == sorted[..|b|] && multiset(sorted) == multiset(cs)
      && (forall j :: 0 <= j < |b| ==> b[j] in cs)
      && (forall i, j :: 0 <= i < |b| <= j < |sorted| ==> sorted[i].ts <= sorted[j].ts)
  {
    var cs := Candidates(ms, parse);
    OldestPrefix(cs, BatchSize(|cs|, count, threshold));
  }

  /** The first `n` candidates by time are candidates, and none after them is older. */
  lemma OldestPrefix(cs: seq<Candidate>, n: nat)
    requires n <= |cs|
    ensures var sorted := Sorting.SortBy(cs, ByTime);
      (forall j :: 0 <= j < n ==> sorted[j] in cs)
      && (forall i, j :: 0 <= i < n <= j < |sorted| ==> sorted[i].ts <= sorted[j].ts)
  {
    var sorted := Sorting.SortBy(cs, ByTime);
    ByTimeTotal();
    Sorting.SortBySorted(cs, ByTime);
    forall j | 0 <= j < n
      ensures sorted[j] in cs
    {
      Sorting.SortByMember(cs, ByTime, sorted[j]);
    }
  }

  /** `compacted_ids`: the truthy memory ids of the batch, each once, in batch order. */
  function CompactedIds(batch: seq<Candidate>): (ids: seq<Json>)
    ensures forall x :: x in ids ==> Truthy(x)
    ensures forall i, j :: 0 <= i < j < |ids| ==> ids[i] != ids[j]
  {
    if batch == [] then []
    else
      var init := CompactedIds(batch[..|batch| - 1]);
      var id := GetOr(batch[|batch| - 1].meta, "memory_id", JNull);
      if Truthy(id) && id !in init then init + [id] else init
  }

  /** `m.get("memory_id") in compacted_ids` */
  function IdIn(ids: seq<Json>): Dict -> bool {
    (m: Dict) => Get(m, "memory_id").Some? && Get(m, "memory_id").value in ids
  }

  /** The summary entry `_maybe_compact` saves. */
  function SummaryMeta(summary: string, now: string, namespace: string, memoryId: string, batch: seq<Candidate>): Dict {
    [("content", JStr(summary)), ("area", JStr("compacted")), ("timestamp", JStr(now)), ("created_at", JStr(now)),
     ("last_accessed", JStr(now)), ("access_count", JInt(0)), ("namespace", JStr(namespace)),
     ("memory_id", JStr(memoryId)), ("compacted", JBool(true)), ("compacted_count", JInt(|batch|)),
     ("compacted_from", JArray(CompactedIds(batch)))]
  }

  function BatchContents(batch: seq<Candidate>): (r: seq<string>)
    ensures |r| == |batch|
  {
    seq(|batch|, j requires 0 <= j < |batch| => PyStr(GetOr(batch[j].meta, "content", JStr(""))))
  }

  /**
   * `_maybe_compact(namespace, store)`: the batch's summary is added as one
   * entry, then the batch's entries are deleted by memory id. `vector` is the
   * summary's embedding, `now` the clock and `memoryId` the new uuid.
   */
  method MaybeCompact(store: FS.FAISSStore, namespace: string, enabled: bool, threshold: int, parse: Json -> Option<int>,
                      vector: FS.Vector, now: string, memoryId: string)
    requires store.Valid()
    modifies store
    ensures store.Valid()
    ensures var b := CompactBatch(old(store.metadata), old(|store.vectors|), enabled, threshold, parse);
      (b.None? || Summarize(BatchContents(b.value)) == "") ==>
        store.metadata == old(store.metadata) && store.vectors == old(store.vectors)
    ensures var b := CompactBatch(old(store.metadata), old(|store.vectors|), enabled, threshold, parse);
      b.Some? && Summarize(BatchContents(b.value)) != "" ==>
        var added := old(store.metadata) + [SummaryMeta(Summarize(BatchContents(b.value)), now, namespace, memoryId, b.value)];
        var ids := CompactedIds(b.value);
        var addedVectors := old(store.vectors) + [vector];
        store.metadata == (if ids == [] then added else FS.Deleted(added, IdIn(ids)))
        && store.vectors == (if ids == [] then addedVectors else FS.Select(addedVectors, FS.KeepIndices(added, IdIn(ids))))
  {
    var b := CompactBatch(store.metadata, |store.vectors|, enabled, threshold, parse);
    if b.None? {
      return;
    }
    var selected := b.value;
    var summary := SummarizeMemories(BatchContents(selected));
    if summary == "" {
      return;
    }
    var ids := CompactedIds(selected);
    store.Add([vector], [SummaryMeta(summary, now, namespace, memoryId, selected)]);
    if ids != [] {
      var _ := store.Delete(IdIn(ids));
    }
  }

  // ===========================================================================
  // Listing and keyword documents

  /** `list_memories`' sort key: newest first by the parsed timestamp. */
  function Newest(stamp: Dict -> int): (Dict, Dict) -> bool {
    (a: Dict, b: Dict) => stamp(a) >= stamp(b)
  }

  function InAreaItems(ms: seq<Dict>, area: Option<string>): (r: seq<Dict>)
    ensures |r| <= |ms|
    ensures forall x :: x in r ==> x in ms && FS.InArea(x, area)
  {
    if ms == [] then []
    else InAreaItems(ms[..|ms| - 1], area) + (if FS.InArea(ms[|ms| - 1], area) then [ms[|ms| - 1]] else [])
  }

  /** What `list_memories` returns; `stamp` is the parsed `created_at or timestamp or last_accessed`. */
  function MemoriesListed(ms: seq<Dict>, area: Option<string>, limit: int, stamp: Dict -> int): seq<Dict> {
    var sorted := Sorting.SortBy(InAreaItems(ms, area), Newest(stamp));
    sorted[..Min(|sorted|, if limit < 0 then 0 else limit)]
  }

  /** At most `max(limit, 0)` entries, all stored and in the area asked for, newest first. */
  lemma MemoriesListedProperties(ms: seq<Dict>, area: Option<string>, limit: int, stamp: Dict -> int)
    ensures var r := MemoriesListed(ms, area, limit, stamp);
      |r| <= (if limit < 0 then 0 else limit)
      && (forall x :: x in r ==> x in ms && FS.InArea(x, area))
      && Sorting.SortedBy(r, Newest(stamp))
  {
    var items := InAreaItems(ms, area);
    var sorted := Sorting.SortBy(items, Newest(stamp));
    assert Sorting.TotalPreorder(Newest(stamp));
    Sorting.SortBySorted(items, Newest(stamp));
    var r := MemoriesListed(ms, area, limit, stamp);
    forall x | x in r
      ensures x in ms && FS.InArea(x, area)
    {
      assert x in sorted;
      assert x in multiset(items);
    }
  }

  /** `list_memories`: the area filter loop, then the sort and the limit. */
  method ListMemories(ms: seq<Dict>, area: Option<string>, limit: int, stamp: Dict -> int) returns (items: seq<Dict>)
    ensures items == MemoriesListed(ms, area, limit, stamp)
  {
    var kept := FilterArea(ms, area);
    var sorted := Sorting.SortBy(kept, Newest(stamp));
    items := sorted[..Min(|sorted|, if limit < 0 then 0 else limit)];
  }

  /** The area filter loop of `list_memories`. */
  method FilterArea(ms: seq<Dict>, area: Option<string>) returns (items: seq<Dict>)
    ensures items == InAreaItems(ms, area)
  {
    items := [];
    var i := 0;
    while i < |ms|
      invariant 0 <= i <= |ms|
      invariant items == InAreaItems(ms[..i], area)
    {
      assert ms[..i + 1][..i] == ms[..i];
      if FS.InArea(ms[i], area) {
        items := items + [ms[i]];
      }
      i := i + 1;
    }
    assert ms[..i] == ms;
  }

  /** `" ".join(headers)` for a list, `str(headers)` otherwise. */
  function HeaderText(headers: Json): string {
    match headers
    case JArray(items) => Join(seq(|items|, i requires 0 <= i < |items| => PyStr(items[i])), " ")
    case _ => PyStr(headers)
  }

  /** The keyword-index document of one entry: title, headers and content, space-joined and stripped. */
  function DocumentOf(meta: Dict): string {
    Strip(Join([PyStr(GetOr(meta, "title", JStr(""))), HeaderText(GetOr(meta, "section_headers", JArray([]))),
                PyStr(GetOr(meta, "content", JStr("")))], " "))
  }

  /** An entry gives an empty document exactly when its title, header text and content are all blank. */
  lemma DocumentEmptyIff(meta: Dict)
    ensures DocumentOf(meta) == [] <==>
      IsBlank(PyStr(GetOr(meta, "title", JStr("")))) && IsBlank(HeaderText(GetOr(meta, "section_headers", JArray([]))))
      && IsBlank(PyStr(GetOr(meta, "content", JStr(""))))
  {
    var t := PyStr(GetOr(meta, "title", JStr("")));
    var h := HeaderText(GetOr(meta, "section_headers", JArray([])));
    var c := PyStr(GetOr(meta, "content", JStr("")));
    var j := Join([t, h, c], " ");
    assert [t, h, c][1..] == [h, c] && [h, c][1..] == [c];
    assert Join([c], " ") == c;
    assert Join([h, c], " ") == h + " " + c;
    assert j == t + " " + (h + " " + c);
    assert DocumentOf(meta) == Strip(j);
    StripProperties(j);
    BlankConcat(t + " ", h + " " + c);
    BlankConcat(t, " ");
    BlankConcat(h + " ", c);
    BlankConcat(h, " ");
    assert IsBlank(" ");
  }

  /** `_build_bm25_documents`: one document per metadata entry, in order. */
  method BuildBm25Documents(ms: seq<Dict>) returns (docs: seq<string>)
    ensures |docs| == |ms| && forall i :: 0 <= i < |ms| ==> docs[i] == DocumentOf(ms[i])
  {
    docs := [];
    var i := 0;
    while i < |ms|
      invariant 0 <= i <= |ms| && |docs| == i
      invariant forall j :: 0 <= j < i ==> docs[j] == DocumentOf(ms[j])
    {
      docs := docs + [DocumentOf(ms[i])];
      i := i + 1;
    }
  }
}
