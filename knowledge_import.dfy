/**
 * The knowledge importer (memory/knowledge_import.py): it splits documents
 * into overlapping chunks and saves them to the knowledge area. A per-file
 * hash state lets unchanged files be skipped on the next import.
 */
module KnowledgeImport {
  import opened Wrappers
  import opened Text

  const ChunkSize := 500
  const ChunkOverlap := 50
  /** `CHUNK_SIZE - CHUNK_OVERLAP`: where consecutive windows start. */
  const Step := ChunkSize - ChunkOverlap

  const SupportedExtensions: set<string> := {".txt", ".md", ".pdf", ".csv", ".html", ".json"}

  // ===========================================================================
  // Chunking (_chunk_text)

  /** `text[i:i + CHUNK_SIZE]` */
  function Window(text: string, i: nat): (w: string)
    requires i <= |text|
    ensures |w| <= ChunkSize && i + |w| <= |text| && w == text[i..i + |w|]
  {
    if i + ChunkSize <= |text| then text[i..i + ChunkSize] else text[i..]
  }

  /** The chunk the window at `i` contributes: its stripped text, unless that is empty. */
  function Piece(text: string, i: nat): (r: seq<string>)
    requires i <= |text|
    ensures |r| <= 1
    ensures r == [] <==> IsBlank(Window(text, i))
    ensures r != [] ==> r[0] == Strip(Window(text, i))
  {
    var chunk := Strip(Window(text, i));
    if chunk != [] then [chunk] else []
  }

  /** The non-blank stripped windows starting at `i`, `i + 450`, ... */
  function ChunksFrom(text: string, i: nat): seq<string>
    decreases |text| - i
  {
    if i >= |text| then [] else Piece(text, i) + ChunksFrom(text, i + Step)
  }

  /** `chunks if chunks else [text.strip()] if text.strip() else []` */
  function ChunkText(text: string): seq<string> {
    var chunks := ChunksFrom(text, 0);
    if chunks != [] then chunks else if Strip(text) != [] then [Strip(text)] else []
  }

  /** `_chunk_text`: the windows' chunks, or the whole stripped text when no window gave one. */
  method Chunk(text: string) returns (chunks: seq<string>)
    ensures chunks == ChunkText(text)
  {
    chunks := ChunkWindows(text);
    if chunks == [] {
      var whole := Strip(text);
      if whole != [] {
        chunks := [whole];
      }
    }
  }

  /** The loop of `_chunk_text` over the windows. */
  method ChunkWindows(text: string) returns (chunks: seq<string>)
    ensures chunks == ChunksFrom(text, 0)
  {
    chunks := [];
    var i := 0;
    while i < |text|
      invariant chunks + ChunksFrom(text, i) == ChunksFrom(text, 0)
      decreases |text| - i
    {
      var piece := Piece(text, i);
      ChunkStep(text, i, chunks);
      chunks := chunks + piece;
      i := i + Step;
    }
    assert ChunksFrom(text, i) == [];
    assert chunks + [] == chunks;
  }

  lemma ChunkStep(text: string, i: nat, chunks: seq<string>)
    requires i < |text|
    ensures chunks + ChunksFrom(text, i) == (chunks + Piece(text, i)) + ChunksFrom(text, i + Step)
  {
    AppendAssoc(chunks, Piece(text, i), ChunksFrom(text, i + Step));
  }

  /** A string with no white space at either end strips to itself. */
  lemma StripFixed(t: string)
    requires t == [] || (!IsSpace(t[0]) && !IsSpace(t[|t| - 1]))
    ensures Strip(t) == t
  {
    assert LStrip(t) == t;
    assert RStrip(t) == t;
  }

  /** Non-empty, at most CHUNK_SIZE long, and no white space at either end (so `StripFixed` applies). */
  predicate ChunkShaped(c: string) {
    c != [] && !IsSpace(c[0]) && !IsSpace(c[|c| - 1]) && |c| <= ChunkSize
  }

  lemma PieceShaped(text: string, i: nat)
    requires i <= |text|
    ensures Piece(text, i) != [] ==> ChunkShaped(Piece(text, i)[0])
  {
    StripProperties(Window(text, i));
  }

  /** Every chunk is non-empty, already stripped, and at most CHUNK_SIZE characters long. */
  lemma {:induction false} ChunksFromShaped(text: string, i: nat)
    ensures forall c :: c in ChunksFrom(text, i) ==> ChunkShaped(c)
    decreases |text| - i
  {
    if i < |text| {
      var piece := Piece(text, i);
      var rest := ChunksFrom(text, i + Step);
      assert ChunksFrom(text, i) == piece + rest;
      PieceShaped(text, i);
      ChunksFromShaped(text, i + Step);
    }
  }

  /** The number of window starts `i`, `i + 450`, ... below `len`. */
  function Windows(len: nat, i: nat): nat
    decreases len - i
  {
    if i >= len then 0 else 1 + Windows(len, i + Step)
  }

  lemma {:induction false} ChunksFromWindows(text: string, i: nat)
    ensures |ChunksFrom(text, i)| <= Windows(|text|, i)
    decreases |text| - i
  {
    if i < |text| {
      ChunksFromWindows(text, i + Step);
    }
  }

  lemma {:induction false} WindowsBound(len: nat, i: nat)
    ensures Windows(len, i) * 450 <= if i < len then len - i + 449 else 0
    decreases len - i
  {
    if i < len {
      WindowsBound(len, i + Step);
      var n := Windows(len, i + Step);
      assert Windows(len, i) * 450 == n * 450 + 450;
    }
  }

  /**
   * Windows start 450 characters apart, so there are at most ceil(len / 450)
   * of them: the count times 450 stays below the length plus 450.
   */
  lemma ChunksFromCount(text: string, i: nat)
    ensures |ChunksFrom(text, i)| * Step <= if i < |text| then |text| - i + Step - 1 else 0
  {
    ChunksFromWindows(text, i);
    WindowsBound(|text|, i);
    var c := |ChunksFrom(text, i)|;
    var w := Windows(|text|, i);
    assert c * 450 <= w * 450 by {
      MulMonotone(c, w);
    }
  }

  lemma MulMonotone(a: nat, b: nat)
    requires a <= b
    ensures a * 450 <= b * 450
  {
  }

  /** A window reaching a non-space character yields a chunk: the windows cover the whole text. */
  lemma {:induction false} ChunksFromReach(text: string, i: nat, p: nat)
    requires i <= p < |text| && !IsSpace(text[p])
    ensures ChunksFrom(text, i) != []
    decreases |text| - i
  {
    assert ChunksFrom(text, i) == Piece(text, i) + ChunksFrom(text, i + Step);
    if p < i + ChunkSize {
      var w := Window(text, i);
      assert w[p - i] == text[p];
      assert !IsSpace(w[p - i]);
    } else {
      ChunksFromReach(text, i + Step, p);
    }
  }

  /** Blank text yields no windows' worth of content. */
  lemma {:induction false} ChunksFromBlank(text: string, i: nat)
    requires IsBlank(text)
    ensures ChunksFrom(text, i) == []
    decreases |text| - i
  {
    if i < |text| {
      var w := Window(text, i);
      assert IsBlank(w) by {
        forall k | 0 <= k < |w|
          ensures IsSpace(w[k])
        {
          assert w[k] == text[i + k];
        }
      }
      ChunksFromBlank(text, i + Step);
    }
  }

  /**
   * The windows alone decide the chunks: the fallback to the whole stripped
   * text only applies when every window is blank, and then the text is too.
   */
  lemma FallbackUnused(text: string)
    ensures ChunkText(text) == ChunksFrom(text, 0)
  {
    if !IsBlank(text) {
      NonBlankReach(text);
    }
  }

  /** The properties of `_chunk_text`: its chunks are shaped, bounded in number, and absent exactly for blank text. */
  lemma ChunkTextProperties(text: string)
    ensures forall c :: c in ChunkText(text) ==> ChunkShaped(c)
    ensures |ChunkText(text)| * Step <= |text| + Step - 1
    ensures ChunkText(text) == [] <==> IsBlank(text)
    ensures forall c :: c in ChunkText(text) ==> Strip(c) == c
  {
    FallbackUnused(text);
    ChunksFromShaped(text, 0);
    forall c | c in ChunkText(text)
      ensures Strip(c) == c
    {
      StripFixed(c);
    }
    ChunksFromCount(text, 0);
    if IsBlank(text) {
      ChunksFromBlank(text, 0);
    } else {
      NonBlankReach(text);
    }
  }

  lemma NonBlankReach(text: string)
    requires !IsBlank(text)
    ensures ChunksFrom(text, 0) != []
  {
    var p :| 0 <= p < |text| && !IsSpace(text[p]);
    ChunksFromReach(text, 0, p);
  }

  // ===========================================================================
  // File selection

  /**
   * The extension `os.path.splitext` finds: from the last dot on, unless only
   * dots precede that dot in the name.
   */
  function Extension(filename: string): (ext: string)
    ensures ext == [] || (ext[0] == '.' && EndsWith(filename, ext))
  {
    match LastDot(filename)
    case None => ""
    case Some(k) => if exists j :: 0 <= j < k && filename[j] != '.' then filename[k..] else ""
  }

  /** The position of the last '.' in a name. */
  function LastDot(s: string): (r: Option<nat>)
    ensures r.Some? ==> r.value < |s| && s[r.value] == '.' && forall j :: r.value < j < |s| ==> s[j] != '.'
    ensures r.None? ==> forall j :: 0 <= j < |s| ==> s[j] != '.'
  {
    if s == [] then None
    else if s[|s| - 1] == '.' then Some(|s| - 1)
    else LastDot(s[..|s| - 1])
  }

  /** `os.path.splitext(filename)[1].lower() in SUPPORTED_EXTENSIONS` */
  predicate Supported(filename: string) {
    Lower(Extension(filename)) in SupportedExtensions
  }

  // ===========================================================================
  // Importing (import_directory)

  /**
   * One file `os.walk` visits, in walk order with each directory's names
   * sorted. `hash` is its MD5, `parsed` what `_parse_file` returns or the
   * message it raises, and `saveFailure` the chunk index and message of a
   * `memory_manager.save` that raises, if any.
   */
  datatype FileEntry = FileEntry(path: string, filename: string, hash: string, parsed: Result<string>,
                                 saveFailure: Option<(nat, string)>)

  datatype Stats = Stats(imported: nat, skipped: nat, errors: seq<string>)

  /** One `memory_manager.save(content=chunk, area=AREA_KNOWLEDGE, metadata=..., subdir=subdir)`. */
  datatype SavedChunk = SavedChunk(content: string, source: string, chunkIndex: nat, filename: string, subdir: string)

  /** The importer's state after some files: the hash state, the saves made, and the counters. */
  datatype Progress = Progress(state: map<string, string>, saved: seq<SavedChunk>, stats: Stats)

  /** The saves of the first `n` chunks of a file. */
  function Saves(chunks: seq<string>, f: FileEntry, subdir: string, n: nat): (r: seq<SavedChunk>)
    requires n <= |chunks|
    ensures |r| == n
    ensures forall j :: 0 <= j < n ==> r[j] == SavedChunk(chunks[j], f.path, j, f.filename, subdir)
  {
    if n == 0 then [] else Saves(chunks, f, subdir, n - 1) + [SavedChunk(chunks[n - 1], f.path, n - 1, f.filename, subdir)]
  }

  /** How many chunks are saved before a save raises. */
  function SavedCount(chunks: seq<string>, failure: Option<(nat, string)>): (n: nat)
    ensures n <= |chunks|
  {
    if failure.Some? && failure.value.0 < |chunks| then failure.value.0 else |chunks|
  }

  predicate SaveRaises(chunks: seq<string>, failure: Option<(nat, string)>) {
    failure.Some? && failure.value.0 < |chunks|
  }

  /** One iteration of the file loop of `import_directory`. */
  function ImportFile(p: Progress, f: FileEntry, subdir: string): Progress {
    if !Supported(f.filename) then p
    else if f.path in p.state && p.state[f.path] == f.hash then p.(stats := p.stats.(skipped := p.stats.skipped + 1))
    else match f.parsed
      case Failure(e) => p.(stats := p.stats.(errors := p.stats.errors + [f.filename + ": " + e]))
      case Success(text) =>
        var chunks := ChunkText(text);
        var saved := p.saved + Saves(chunks, f, subdir, SavedCount(chunks, f.saveFailure));
        if SaveRaises(chunks, f.saveFailure) then
          var msg := f.filename + ": " + f.saveFailure.value.1;
          Progress(p.state, saved, p.stats.(errors := p.stats.errors + [msg]))
        else
          Progress(p.state[f.path := f.hash], saved, p.stats.(imported := p.stats.imported + 1))
  }

  /**
   * An unsupported file changes nothing; an unchanged one is only counted as
   * skipped; every supported file adds one to exactly one counter; a success
   * records the file's hash, a failure adds one "filename: message" error and
   * leaves the state alone; saves are only ever appended.
   */
  lemma ImportFileProperties(p: Progress, f: FileEntry, subdir: string)
    ensures var q := ImportFile(p, f, subdir);
      && (!Supported(f.filename) ==> q == p)
      && (Supported(f.filename) && f.path in p.state && p.state[f.path] == f.hash ==>
            q == p.(stats := p.stats.(skipped := p.stats.skipped + 1)))
      && q.stats.imported + q.stats.skipped + |q.stats.errors|
         == p.stats.imported + p.stats.skipped + |p.stats.errors| + (if Supported(f.filename) then 1 else 0)
      && (q.stats.imported == p.stats.imported + 1 ==> q.state == p.state[f.path := f.hash] && q.stats.errors == p.stats.errors)
      && (|q.stats.errors| == |p.stats.errors| + 1 ==>
            q.state == p.state && q.stats.imported == p.stats.imported
            && q.stats.errors[..|p.stats.errors|] == p.stats.errors
            && StartsWith(q.stats.errors[|p.stats.errors|], f.filename + ": "))
      && |q.saved| >= |p.saved| && q.saved[..|p.saved|] == p.saved
  {
    if Supported(f.filename) && !(f.path in p.state && p.state[f.path] == f.hash) && f.parsed.Success? {
      var chunks := ChunkText(f.parsed.value);
      var saved := p.saved + Saves(chunks, f, subdir, SavedCount(chunks, f.saveFailure));
      assert saved[..|p.saved|] == p.saved;
    }
  }

  /** The files imported in order. */
  function ImportAll(p: Progress, files: seq<FileEntry>, subdir: string): Progress {
    if files == [] then p else ImportFile(ImportAll(p, files[..|files| - 1], subdir), files[|files| - 1], subdir)
  }

  function SupportedCount(files: seq<FileEntry>): nat {
    if files == [] then 0
    else SupportedCount(files[..|files| - 1]) + (if Supported(files[|files| - 1].filename) then 1 else 0)
  }

  /** Every supported file is counted exactly once: imported, skipped or failed; unsupported ones not at all. */
  lemma {:induction false} ImportAllCounts(files: seq<FileEntry>, subdir: string)
    ensures var q := ImportAll(Progress(map[], [], Stats(0, 0, [])), files, subdir);
      q.stats.imported + q.stats.skipped + |q.stats.errors| == SupportedCount(files)
  {
    if files != [] {
      ImportAllCounts(files[..|files| - 1], subdir);
      ImportFileProperties(ImportAll(Progress(map[], [], Stats(0, 0, [])), files[..|files| - 1], subdir),
                           files[|files| - 1], subdir);
    }
  }

  /** Importing a file again after it succeeded skips it and saves nothing more. */
  lemma ReimportSkips(p: Progress, f: FileEntry, subdir: string)
    requires var q := ImportFile(p, f, subdir); q.stats.imported == p.stats.imported + 1
    ensures var q := ImportFile(p, f, subdir);
      ImportFile(q, f, subdir) == q.(stats := q.stats.(skipped := q.stats.skipped + 1))
  {
    ImportFileProperties(p, f, subdir);
    ImportFileProperties(ImportFile(p, f, subdir), f, subdir);
  }

  /** A file adds at most its own path to the state, and only when it is supported. */
  lemma ImportFileState(p: Progress, f: FileEntry, subdir: string, path: string)
    requires path in ImportFile(p, f, subdir).state
    ensures path in p.state || (path == f.path && Supported(f.filename))
  {
  }

  /** Every hash the state records belongs to an earlier state entry or to a supported file that was imported. */
  lemma {:induction false} StateFromImports(p: Progress, files: seq<FileEntry>, subdir: string, path: string)
    requires path in ImportAll(p, files, subdir).state
    ensures path in p.state || exists i :: 0 <= i < |files| && files[i].path == path && Supported(files[i].filename)
  {
    if files != [] {
      var before := ImportAll(p, files[..|files| - 1], subdir);
      var f := files[|files| - 1];
      ImportFileState(before, f, subdir, path);
      if path in before.state {
        StateFromImports(p, files[..|files| - 1], subdir, path);
        if path !in p.state {
          var i :| 0 <= i < |files| - 1 && files[..|files| - 1][i].path == path && Supported(files[..|files| - 1][i].filename);
          assert files[i] == files[..|files| - 1][i];
        }
      } else {
        assert f.path == path && Supported(f.filename);
      }
    }
  }

  /** The hash state and the saves of `KnowledgeImporter`; the state file's reading and writing are left out. */
  class KnowledgeImporter {
    var state: map<string, string>
    var saved: seq<SavedChunk>

    constructor(state: map<string, string>)
      ensures this.state == state && saved == []
    {
      this.state := state;
      saved := [];
    }

    /** The inner loop: save each chunk with its index until a save raises. */
    method SaveChunks(chunks: seq<string>, f: FileEntry, subdir: string) returns (raised: bool)
      modifies this
      ensures raised == SaveRaises(chunks, f.saveFailure)
      ensures saved == old(saved) + Saves(chunks, f, subdir, SavedCount(chunks, f.saveFailure))
      ensures state == old(state)
    {
      raised := false;
      var i := 0;
      while i < |chunks| && !raised
        invariant 0 <= i <= |chunks|
        invariant !raised ==> saved == old(saved) + Saves(chunks, f, subdir, i)
                              && (f.saveFailure.Some? ==> i <= f.saveFailure.value.0)
        invariant raised ==> SaveRaises(chunks, f.saveFailure) && saved == old(saved) + Saves(chunks, f, subdir, f.saveFailure.value.0)
        invariant state == old(state)
        decreases |chunks| - i, if raised then 0 else 1
      {
        if f.saveFailure.Some? && f.saveFailure.value.0 == i {
          raised := true;
        } else {
          AppendAssoc(old(saved), Saves(chunks, f, subdir, i), [SavedChunk(chunks[i], f.path, i, f.filename, subdir)]);
          saved := saved + [SavedChunk(chunks[i], f.path, i, f.filename, subdir)];
          i := i + 1;
        }
      }
    }

    /** One file of `import_directory`: skip it, record its error, or chunk and save it. */
    method ImportOne(f: FileEntry, subdir: string, stats: Stats) returns (next: Stats)
      modifies this
      ensures Progress(state, saved, next) == ImportFile(Progress(old(state), old(saved), stats), f, subdir)
    {
      next := stats;
      if !Supported(f.filename) {
      } else if f.path in state && state[f.path] == f.hash {
        next := stats.(skipped := stats.skipped + 1);
      } else {
        match f.parsed {
          case Failure(e) =>
            next := stats.(errors := stats.errors + [f.filename + ": " + e]);
          case Success(text) =>
            next := SaveFile(f, text, subdir, stats);
        }
      }
    }

    /** A parsed file: chunk it, save the chunks, then record the hash or the save's error. */
    method SaveFile(f: FileEntry, text: string, subdir: string, stats: Stats) returns (next: Stats)
      modifies this
      ensures saved == old(saved) + Saves(ChunkText(text), f, subdir, SavedCount(ChunkText(text), f.saveFailure))
      ensures SaveRaises(ChunkText(text), f.saveFailure) ==>
        state == old(state) && next == stats.(errors := stats.errors + [f.filename + ": " + f.saveFailure.value.1])
      ensures !SaveRaises(ChunkText(text), f.saveFailure) ==>
        state == old(state)[f.path := f.hash] && next == stats.(imported := stats.imported + 1)
    {
      var chunks := Chunk(text);
      var raised := SaveChunks(chunks, f, subdir);
      if raised {
        next := stats.(errors := stats.errors + [f.filename + ": " + f.saveFailure.value.1]);
      } else {
        state := state[f.path := f.hash];
        next := stats.(imported := stats.imported + 1);
      }
    }

    /** `import_directory` over the files the walk visits. */
    method ImportFiles(files: seq<FileEntry>, subdir: string) returns (stats: Stats)
      modifies this
      ensures Progress(state, saved, stats) == ImportAll(Progress(old(state), old(saved), Stats(0, 0, [])), files, subdir)
    {
      stats := Stats(0, 0, []);
      var i := 0;
      while i < |files|
        invariant 0 <= i <= |files|
        invariant Progress(state, saved, stats) == ImportAll(Progress(old(state), old(saved), Stats(0, 0, [])), files[..i], subdir)
      {
        assert files[..i + 1][..i] == files[..i];
        stats := ImportOne(files[i], subdir, stats);
        i := i + 1;
      }
      assert files[..i] == files;
    }
  }
}
