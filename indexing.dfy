/** The indexing processor (src/utils/file_proceessor_for_indexing.py,
    copied into src/utils/vector_store.py) and the create-or-load choice of
    `VectorStore.get_vector_store`. Every file of the input folder is read
    into cleaned text sections, keyed by its path in an insertion-ordered
    dict; the sections of each file whose extension has a splitter
    configuration are then cut into chunks, and every chunk becomes a
    document carrying that file's entry of the data configuration.
    Reading PDF pages and Markdown text, Unicode's printable table and the
    text splitter are parameters. */
module Indexing {
  import opened Wrappers
  import opened Text
  import opened Json
  import opened Paths
  import opened TextCleaning

  /** Name of the vector store collection. */
  const CollectionName := "sanath_projects_latest"

  /** What the indexing run raises. `__process_file` assigns its result only
      for ".pdf" and ".md", so any other suffix reaches the `return` with
      the local unset; `DATA_CONFIG[name]` raises for a file with no
      configuration entry. */
  datatype IndexError = UnboundLocal(variable: string) | KeyError(key: string)

  /** What the run reads from outside: the text of each page of a PDF, the
      text of a Markdown file, and whether a non-ASCII character is
      printable. */
  datatype IndexSources = IndexSources(
    pdfPages: string -> seq<string>,
    readText: string -> string,
    printable: char -> bool)

  /** `RecursiveCharacterTextSplitter(chunk_size, chunk_overlap).split_text`. */
  type Splitter = (nat, nat, string) -> seq<string>

  /** One item of the dict `process_all_files` returns: a path and the
      cleaned sections of that file. */
  datatype Entry = Entry(path: string, sections: seq<string>)

  /** `Document(page_content, metadata)`. */
  datatype IndexedDoc = IndexedDoc(pageContent: string, metadata: Json)

  /** `splitter_config[ext]`: chunk size and overlap. */
  function SplitterConfig(ext: string): Option<(nat, nat)>
  {
    if ext == ".pdf" then Some((2090, 200))
    else if ext == ".md" then Some((1172, 0))
    else None
  }

  /** `__process_pdf` once the pages are read. */
  function ProcessPdf(pages: seq<string>, printable: char -> bool): seq<string>
  {
    CleanSections(pages, printable)
  }

  /** `__process_markdown` once the text is read. */
  function ProcessMarkdown(text: string, printable: char -> bool): seq<string>
  {
    CleanSections(HeadingSplit(text), printable)
  }

  /** `__process_file`: dispatch on `Path(file).suffix`. */
  function ProcessFile(path: string, src: IndexSources): (r: Result<seq<string>, IndexError>)
    ensures r.Ok? <==> Suffix(path) == ".pdf" || Suffix(path) == ".md"
    ensures r.Err? ==> r.error == UnboundLocal("cleaned_text_sections")
  {
    var ext := Suffix(path);
    if ext == ".pdf" then Ok(ProcessPdf(src.pdfPages(path), src.printable))
    else if ext == ".md" then Ok(ProcessMarkdown(src.readText(path), src.printable))
    else Err(UnboundLocal("cleaned_text_sections"))
  }

  /** A file is processed exactly when its name ends with ".pdf" or ".md"
      and holds something before that ending. */
  lemma ProcessFileAccepts(path: string, src: IndexSources)
    ensures ProcessFile(path, src).Ok? <==>
      (EndsWith(Name(path), ".pdf") && |Name(path)| > 4) || (EndsWith(Name(path), ".md") && |Name(path)| > 3)
    ensures ProcessFile(path, src).Err? ==> ProcessFile(path, src).error == UnboundLocal("cleaned_text_sections")
  {
    SuffixIs(path, ".pdf");
    SuffixIs(path, ".md");
  }

  /** A Markdown file becomes the cleaned non-blank pieces of its text cut
      in front of every heading line, and that cut is the only one with
      the properties of the split. */
  lemma MarkdownSections(path: string, src: IndexSources)
    requires Suffix(path) == ".md"
    ensures var text := src.readText(path);
      HeadingCut(text, HeadingSplit(text))
      && ProcessFile(path, src) == Ok(CleanSections(HeadingSplit(text), src.printable))
    ensures var text := src.readText(path);
      forall pieces :: HeadingCut(text, pieces) ==> ProcessFile(path, src) == Ok(CleanSections(pieces, src.printable))
  {
    var text := src.readText(path);
    HeadingSplitExact(text, HeadingSplit(text));
    forall pieces | HeadingCut(text, pieces)
      ensures ProcessFile(path, src) == Ok(CleanSections(pieces, src.printable))
    {
      HeadingSplitExact(text, pieces);
    }
  }

  /** The paths of the dict, in order. */
  function PathsOf(d: seq<Entry>): (paths: seq<string>)
    ensures |paths| == |d|
    ensures forall i :: 0 <= i < |d| ==> paths[i] == d[i].path
  {
    if d == [] then [] else PathsOf(d[..|d| - 1]) + [d[|d| - 1].path]
  }

  /** A dict holds each key once. */
  predicate DistinctPaths(d: seq<Entry>)
  {
    forall i, j :: 0 <= i < j < |d| ==> d[i].path != d[j].path
  }

  /** `d[k]` as an `Option`. */
  function Lookup(d: seq<Entry>, k: string): (r: Option<seq<string>>)
    ensures r.Some? <==> k in PathsOf(d)
  {
    if d == [] then None
    else if d[|d| - 1].path == k then Some(d[|d| - 1].sections)
    else Lookup(d[..|d| - 1], k)
  }

  /** `d[k] = v`: a new key goes to the end, an existing one keeps its
      place and takes the new value. */
  function Assign(d: seq<Entry>, k: string, v: seq<string>): (r: seq<Entry>)
    requires DistinctPaths(d)
    ensures DistinctPaths(r)
    ensures k !in PathsOf(d) ==> r == d + [Entry(k, v)]
    ensures k in PathsOf(d) ==>
      |r| == |d| && forall i :: 0 <= i < |d| ==> r[i] == (if d[i].path == k then Entry(k, v) else d[i])
  {
    if k in PathsOf(d) then
      seq(|d|, i requires 0 <= i < |d| => if d[i].path == k then Entry(k, v) else d[i])
    else
      d + [Entry(k, v)]
  }

  lemma {:induction false} LookupAt(d: seq<Entry>, i: nat)
    requires DistinctPaths(d) && i < |d|
    ensures Lookup(d, d[i].path) == Some(d[i].sections)
  {
    if i < |d| - 1 {
      LookupAt(d[..|d| - 1], i);
    }
  }

  /** After `d[k] = v`, `d[k]` is `v` and every other key reads as
      before. */
  lemma AssignLookup(d: seq<Entry>, k: string, v: seq<string>, other: string)
    requires DistinctPaths(d)
    ensures Lookup(Assign(d, k, v), k) == Some(v)
    ensures other != k ==> Lookup(Assign(d, k, v), other) == Lookup(d, other)
  {
    AssignFindsKey(d, k, v);
    if other != k {
      if other in PathsOf(d) {
        AssignKeepsOther(d, k, v, other);
      } else {
        AssignAddsNoOther(d, k, v, other);
      }
    }
  }

  lemma AssignFindsKey(d: seq<Entry>, k: string, v: seq<string>)
    requires DistinctPaths(d)
    ensures Lookup(Assign(d, k, v), k) == Some(v)
  {
    var r := Assign(d, k, v);
    if k in PathsOf(d) {
      var i :| 0 <= i < |d| && PathsOf(d)[i] == k;
      assert r[i] == Entry(k, v);
      LookupAt(r, i);
    } else {
      assert r[|d|] == Entry(k, v);
      LookupAt(r, |d|);
    }
  }

  lemma AssignKeepsOther(d: seq<Entry>, k: string, v: seq<string>, other: string)
    requires DistinctPaths(d) && other != k && other in PathsOf(d)
    ensures Lookup(Assign(d, k, v), other) == Lookup(d, other)
  {
    var r := Assign(d, k, v);
    var j :| 0 <= j < |d| && PathsOf(d)[j] == other;
    assert r[j] == d[j];
    LookupAt(r, j);
    LookupAt(d, j);
  }

  lemma AssignAddsNoOther(d: seq<Entry>, k: string, v: seq<string>, other: string)
    requires DistinctPaths(d) && other != k && other !in PathsOf(d)
    ensures Lookup(Assign(d, k, v), other) == None
  {
    AssignPaths(d, k, v);
  }

  /** The dict built from `files` in order, each path processed by
      `process`; the first failure stops the run. */
  function ProcessAllWith(files: seq<string>, process: string -> Result<seq<string>, IndexError>): (r: Result<seq<Entry>, IndexError>)
    ensures r.Ok? ==> DistinctPaths(r.value)
  {
    if files == [] then Ok([])
    else
      match ProcessAllWith(files[..|files| - 1], process)
      case Err(e) => Err(e)
      case Ok(d) =>
        match process(files[|files| - 1])
        case Err(e) => Err(e)
        case Ok(sections) => Ok(Assign(d, files[|files| - 1], sections))
  }

  function Processor(src: IndexSources): string -> Result<seq<string>, IndexError>
  {
    path => ProcessFile(path, src)
  }

  /** `process_all_files` over the globbed paths. */
  function ProcessAll(files: seq<string>, src: IndexSources): (r: Result<seq<Entry>, IndexError>)
    ensures r.Ok? <==> forall i :: 0 <= i < |files| ==> ProcessFile(files[i], src).Ok?
    ensures r.Ok? ==> DistinctPaths(r.value)
  {
    ProcessAllSucceeds(files, Processor(src));
    ProcessAllWith(files, Processor(src))
  }

  /** The run succeeds exactly when every file is processed. */
  lemma {:induction false} ProcessAllSucceeds(files: seq<string>, process: string -> Result<seq<string>, IndexError>)
    ensures ProcessAllWith(files, process).Ok? <==> forall i :: 0 <= i < |files| ==> process(files[i]).Ok?
  {
    if files != [] {
      var init := files[..|files| - 1];
      ProcessAllSucceeds(init, process);
      assert forall i :: 0 <= i < |init| ==> init[i] == files[i];
    }
  }

  /** A successful run holds one entry per listed path, and under each path
      the sections of that file. */
  lemma {:induction false} ProcessAllEntries(files: seq<string>, process: string -> Result<seq<string>, IndexError>)
    requires ProcessAllWith(files, process).Ok?
    ensures forall f :: f in PathsOf(ProcessAllWith(files, process).value) <==> f in files
    ensures forall i :: 0 <= i < |files| ==>
      process(files[i]).Ok? && Lookup(ProcessAllWith(files, process).value, files[i]) == Some(process(files[i]).value)
  {
    ProcessAllPaths(files, process);
    ProcessAllLookups(files, process);
  }

  lemma {:induction false} ProcessAllPaths(files: seq<string>, process: string -> Result<seq<string>, IndexError>)
    requires ProcessAllWith(files, process).Ok?
    ensures forall f :: f in PathsOf(ProcessAllWith(files, process).value) <==> f in files
  {
    if files != [] {
      var init := files[..|files| - 1];
      var last := files[|files| - 1];
      ProcessAllPaths(init, process);
      var d := ProcessAllWith(init, process).value;
      assert ProcessAllWith(files, process) == Ok(Assign(d, last, process(last).value));
      AssignPaths(d, last, process(last).value);
      assert files == init + [last];
    }
  }

  lemma {:induction false} ProcessAllLookups(files: seq<string>, process: string -> Result<seq<string>, IndexError>)
    requires ProcessAllWith(files, process).Ok?
    ensures forall i :: 0 <= i < |files| ==>
      process(files[i]).Ok? && Lookup(ProcessAllWith(files, process).value, files[i]) == Some(process(files[i]).value)
  {
    if files != [] {
      var init := files[..|files| - 1];
      var last := files[|files| - 1];
      ProcessAllStep(files, process);
      ProcessAllLookups(init, process);
      var d := ProcessAllWith(init, process).value;
      var v := process(last).value;
      var r := Assign(d, last, v);
      AssignFindsKey(d, last, v);
      forall i | 0 <= i < |files|
        ensures process(files[i]).Ok? && Lookup(r, files[i]) == Some(process(files[i]).value)
      {
        var f := files[i];
        if i == |files| - 1 || f == last {
          assert f == last && Lookup(r, f) == Some(v);
        } else {
          assert f == init[i];
          assert process(f).Ok? && Lookup(d, f) == Some(process(f).value);
          AssignKeepsOther(d, last, v, f);
        }
      }
    }
  }

  /** A listing that succeeds succeeds on all but its last file, and the
      last file's sections are assigned on top. */
  lemma ProcessAllStep(files: seq<string>, process: string -> Result<seq<string>, IndexError>)
    requires files != [] && ProcessAllWith(files, process).Ok?
    ensures ProcessAllWith(files[..|files| - 1], process).Ok? && process(files[|files| - 1]).Ok?
    ensures ProcessAllWith(files, process).value ==
      Assign(ProcessAllWith(files[..|files| - 1], process).value, files[|files| - 1], process(files[|files| - 1]).value)
  {
  }

  /** `d[k] = v` adds `k` to the keys when it is new and leaves them as they
      are otherwise. */
  lemma AssignPaths(d: seq<Entry>, k: string, v: seq<string>)
    requires DistinctPaths(d)
    ensures PathsOf(Assign(d, k, v)) == if k in PathsOf(d) then PathsOf(d) else PathsOf(d) + [k]
  {
    var r := Assign(d, k, v);
    if k in PathsOf(d) {
      assert PathsOf(r) == PathsOf(d);
    } else {
      assert r[..|r| - 1] == d;
    }
  }

  /** With distinct paths, as `glob` lists them, the dict has one entry per
      file, in the order the files were listed. */
  lemma {:induction false} ProcessAllInOrder(files: seq<string>, process: string -> Result<seq<string>, IndexError>)
    requires forall i, j :: 0 <= i < j < |files| ==> files[i] != files[j]
    requires ProcessAllWith(files, process).Ok?
    ensures |ProcessAllWith(files, process).value| == |files|
    ensures forall i :: 0 <= i < |files| ==>
      ProcessAllWith(files, process).value[i].path == files[i] &&
      process(files[i]) == Ok(ProcessAllWith(files, process).value[i].sections)
  {
    if files != [] {
      var init := files[..|files| - 1];
      ProcessAllInOrder(init, process);
      var d := ProcessAllWith(init, process).value;
      var last := files[|files| - 1];
      assert last !in PathsOf(d) by {
        forall i | 0 <= i < |d| ensures PathsOf(d)[i] != last {
          assert d[i].path == init[i] == files[i];
        }
      }
    }
  }

  /** Once a prefix of the files fails, the whole run fails with the same
      error. */
  lemma {:induction false} ProcessAllFailsFrom(files: seq<string>, k: nat, process: string -> Result<seq<string>, IndexError>)
    requires k <= |files| && ProcessAllWith(files[..k], process).Err?
    ensures ProcessAllWith(files, process) == ProcessAllWith(files[..k], process)
  {
    if k < |files| {
      var init := files[..|files| - 1];
      assert init[..k] == files[..k];
      ProcessAllFailsFrom(init, k, process);
    } else {
      assert files[..k] == files;
    }
  }

  /** `process_all_files`: fills the dict path by path. */
  method ProcessAllFiles(files: seq<string>, src: IndexSources) returns (r: Result<seq<Entry>, IndexError>)
    ensures r == ProcessAll(files, src)
  {
    var textDocuments: seq<Entry> := [];
    var i := 0;
    while i < |files|
      invariant 0 <= i <= |files|
      invariant ProcessAllWith(files[..i], Processor(src)) == Ok(textDocuments)
    {
      assert files[..i + 1][..i] == files[..i];
      var sections := ProcessFile(files[i], src);
      if sections.Err? {
        ProcessAllFailsFrom(files, i + 1, Processor(src));
        return Err(sections.error);
      }
      textDocuments := Assign(textDocuments, files[i], sections.value);
      i := i + 1;
    }
    assert files[..i] == files;
    return Ok(textDocuments);
  }

  /** One document per chunk text, all with the same metadata. */
  function Wrap(texts: seq<string>, metadata: Json): (docs: seq<IndexedDoc>)
    ensures |docs| == |texts|
    ensures forall i :: 0 <= i < |texts| ==> docs[i] == IndexedDoc(texts[i], metadata)
  {
    if texts == [] then [] else Wrap(texts[..|texts| - 1], metadata) + [IndexedDoc(texts[|texts| - 1], metadata)]
  }

  /** The documents of one file's sections: the chunks of the first
      section, then those of the second, and so on. */
  function SectionDocs(sections: seq<string>, size: nat, overlap: nat, metadata: Json, split: Splitter): seq<IndexedDoc>
  {
    if sections == [] then []
    else
      var last := sections[|sections| - 1];
      SectionDocs(sections[..|sections| - 1], size, overlap, metadata, split) + Wrap(split(size, overlap, last), metadata)
  }

  /** The documents of one dict entry: none for an extension with no
      splitter configuration, otherwise the chunks of its sections with the
      file's configuration entry, which must exist. */
  function EntryDocs(e: Entry, dataConfig: map<string, Json>, split: Splitter): (r: Result<seq<IndexedDoc>, IndexError>)
    ensures r.Err? ==> r.error == KeyError(Name(e.path)) && Name(e.path) !in dataConfig
  {
    match SplitterConfig(Suffix(e.path))
    case None => Ok([])
    case Some((size, overlap)) =>
      var name := Name(e.path);
      if name !in dataConfig then Err(KeyError(name))
      else Ok(SectionDocs(e.sections, size, overlap, dataConfig[name], split))
  }

  /** The documents of every entry in dict order, each entry handled by
      `chunk`; the first failure stops the run. */
  function ChunkAllWith(entries: seq<Entry>, chunk: Entry -> Result<seq<IndexedDoc>, IndexError>): Result<seq<IndexedDoc>, IndexError>
  {
    if entries == [] then Ok([])
    else
      match ChunkAllWith(entries[..|entries| - 1], chunk)
      case Err(e) => Err(e)
      case Ok(docs) =>
        match chunk(entries[|entries| - 1])
        case Err(e) => Err(e)
        case Ok(more) => Ok(docs + more)
  }

  function Chunker(dataConfig: map<string, Json>, split: Splitter): Entry -> Result<seq<IndexedDoc>, IndexError>
  {
    e => EntryDocs(e, dataConfig, split)
  }

  /** `chunk_all_files`. */
  function ChunkAll(entries: seq<Entry>, dataConfig: map<string, Json>, split: Splitter): (r: Result<seq<IndexedDoc>, IndexError>)
    ensures r.Ok? <==> forall i :: 0 <= i < |entries| ==> EntryDocs(entries[i], dataConfig, split).Ok?
  {
    ChunkAllSucceeds(entries, Chunker(dataConfig, split));
    ChunkAllWith(entries, Chunker(dataConfig, split))
  }

  /** Documents come in section order. */
  lemma {:induction false} SectionDocsAppend(a: seq<string>, b: seq<string>, size: nat, overlap: nat, metadata: Json, split: Splitter)
    ensures SectionDocs(a + b, size, overlap, metadata, split)
         == SectionDocs(a, size, overlap, metadata, split) + SectionDocs(b, size, overlap, metadata, split)
  {
    if b == [] {
      assert a + b == a;
    } else {
      var b0, x := b[..|b| - 1], b[|b| - 1];
      SectionDocsAppend(a, b0, size, overlap, metadata, split);
      assert (a + b)[..|a + b| - 1] == a + b0;
      assert (a + b)[|a + b| - 1] == x;
      var w := Wrap(split(size, overlap, x), metadata);
      assert SectionDocs(a + b, size, overlap, metadata, split) == SectionDocs(a + b0, size, overlap, metadata, split) + w;
      assert SectionDocs(b, size, overlap, metadata, split) == SectionDocs(b0, size, overlap, metadata, split) + w;
    }
  }

  /** Every document is a chunk of one of the sections with the file's
      metadata, and every chunk of every section is a document. */
  lemma {:induction false} SectionDocsChunks(sections: seq<string>, size: nat, overlap: nat, metadata: Json, split: Splitter)
    ensures forall d :: d in SectionDocs(sections, size, overlap, metadata, split) <==>
      d.metadata == metadata && exists j :: 0 <= j < |sections| && d.pageContent in split(size, overlap, sections[j])
  {
    if sections != [] {
      var init := sections[..|sections| - 1];
      var last := sections[|sections| - 1];
      SectionDocsChunks(init, size, overlap, metadata, split);
      var w := Wrap(split(size, overlap, last), metadata);
      forall d ensures d in SectionDocs(sections, size, overlap, metadata, split) <==>
        d.metadata == metadata && exists j :: 0 <= j < |sections| && d.pageContent in split(size, overlap, sections[j])
      {
        if d.metadata == metadata && exists j :: 0 <= j < |sections| && d.pageContent in split(size, overlap, sections[j]) {
          var j :| 0 <= j < |sections| && d.pageContent in split(size, overlap, sections[j]);
          if j < |init| {
            assert sections[j] == init[j];
          } else {
            var texts := split(size, overlap, last);
            var c :| 0 <= c < |texts| && texts[c] == d.pageContent;
            assert w[c] == d;
          }
        }
        if d in w {
          var c :| 0 <= c < |w| && w[c] == d;
          assert d.pageContent in split(size, overlap, sections[|sections| - 1]);
        }
        if d in SectionDocs(init, size, overlap, metadata, split) {
          var j :| 0 <= j < |init| && d.pageContent in split(size, overlap, init[j]);
          assert init[j] == sections[j];
        }
      }
    }
  }

  /** The fate of one entry: skipped for an extension with no splitter
      configuration, a `KeyError` for a missing configuration entry even
      when the file has no sections, and otherwise documents carrying that
      entry, cut with (2090, 200) for ".pdf" and (1172, 0) for ".md". */
  lemma EntryDocsOutcome(e: Entry, dataConfig: map<string, Json>, split: Splitter)
    ensures Suffix(e.path) != ".pdf" && Suffix(e.path) != ".md" ==> EntryDocs(e, dataConfig, split) == Ok([])
    ensures (Suffix(e.path) == ".pdf" || Suffix(e.path) == ".md") && Name(e.path) !in dataConfig ==>
      EntryDocs(e, dataConfig, split) == Err(KeyError(Name(e.path)))
    ensures Suffix(e.path) == ".pdf" && EntryDocs(e, dataConfig, split).Ok? ==>
      forall d :: d in EntryDocs(e, dataConfig, split).value <==>
        d.metadata == dataConfig[Name(e.path)] && exists j :: 0 <= j < |e.sections| && d.pageContent in split(2090, 200, e.sections[j])
    ensures Suffix(e.path) == ".md" && EntryDocs(e, dataConfig, split).Ok? ==>
      forall d :: d in EntryDocs(e, dataConfig, split).value <==>
        d.metadata == dataConfig[Name(e.path)] && exists j :: 0 <= j < |e.sections| && d.pageContent in split(1172, 0, e.sections[j])
  {
    var name := Name(e.path);
    if name in dataConfig {
      if Suffix(e.path) == ".pdf" {
        SectionDocsChunks(e.sections, 2090, 200, dataConfig[name], split);
      } else if Suffix(e.path) == ".md" {
        SectionDocsChunks(e.sections, 1172, 0, dataConfig[name], split);
      }
    }
  }

  /** Documents come in dict order, and the first failing entry decides
      the error. */
  lemma {:induction false} ChunkAllAppend(a: seq<Entry>, b: seq<Entry>, chunk: Entry -> Result<seq<IndexedDoc>, IndexError>)
    ensures ChunkAllWith(a + b, chunk) ==
      match ChunkAllWith(a, chunk)
      case Err(e) => Err(e)
      case Ok(x) =>
        match ChunkAllWith(b, chunk)
        case Err(e) => Err(e)
        case Ok(y) => Ok(x + y)
  {
    if b == [] {
      assert a + b == a;
      if ChunkAllWith(a, chunk).Ok? {
        assert ChunkAllWith(a, chunk).value + [] == ChunkAllWith(a, chunk).value;
      }
    } else {
      var b0 := b[..|b| - 1];
      assert (a + b)[..|a + b| - 1] == a + b0;
      ChunkAllAppend(a, b0, chunk);
      var ra, rb := ChunkAllWith(a, chunk), ChunkAllWith(b0, chunk);
      var last := chunk(b[|b| - 1]);
      if ra.Ok? && rb.Ok? && last.Ok? {
        assert ra.value + rb.value + last.value == ra.value + (rb.value + last.value);
      }
    }
  }

  /** The run succeeds exactly when every entry does. */
  lemma {:induction false} ChunkAllSucceeds(entries: seq<Entry>, chunk: Entry -> Result<seq<IndexedDoc>, IndexError>)
    ensures ChunkAllWith(entries, chunk).Ok? <==> forall i :: 0 <= i < |entries| ==> chunk(entries[i]).Ok?
  {
    if entries != [] {
      var init := entries[..|entries| - 1];
      ChunkAllSucceeds(init, chunk);
      assert forall i :: 0 <= i < |init| ==> init[i] == entries[i];
    }
  }

  /** The documents of one file's sections, built chunk by chunk. */
  method ChunkSections(sections: seq<string>, size: nat, overlap: nat, metadata: Json, split: Splitter)
    returns (docs: seq<IndexedDoc>)
    ensures docs == SectionDocs(sections, size, overlap, metadata, split)
  {
    docs := [];
    var i := 0;
    while i < |sections|
      invariant 0 <= i <= |sections|
      invariant docs == SectionDocs(sections[..i], size, overlap, metadata, split)
    {
      var texts := split(size, overlap, sections[i]);
      var before := docs;
      var j := 0;
      while j < |texts|
        invariant 0 <= j <= |texts|
        invariant docs == before + Wrap(texts[..j], metadata)
      {
        assert texts[..j + 1][..j] == texts[..j];
        docs := docs + [IndexedDoc(texts[j], metadata)];
        j := j + 1;
      }
      assert texts[..j] == texts;
      assert sections[..i + 1][..i] == sections[..i];
      i := i + 1;
    }
    assert sections[..i] == sections;
  }

  /** One pass of the outer loop of `chunk_all_files`. */
  method ChunkEntry(e: Entry, dataConfig: map<string, Json>, split: Splitter)
    returns (r: Result<seq<IndexedDoc>, IndexError>)
    ensures r == EntryDocs(e, dataConfig, split)
  {
    var config := SplitterConfig(Suffix(e.path));
    if config.None? {
      return Ok([]);
    }
    var (size, overlap) := config.value;
    var name := Name(e.path);
    if name !in dataConfig {
      return Err(KeyError(name));
    }
    var docs := ChunkSections(e.sections, size, overlap, dataConfig[name], split);
    return Ok(docs);
  }

  /** `chunk_all_files`: appends the documents of each entry in turn. */
  method ChunkAllFiles(fileTexts: seq<Entry>, dataConfig: map<string, Json>, split: Splitter)
    returns (r: Result<seq<IndexedDoc>, IndexError>)
    ensures r == ChunkAll(fileTexts, dataConfig, split)
  {
    var documents: seq<IndexedDoc> := [];
    ghost var chunk := Chunker(dataConfig, split);
    var i := 0;
    while i < |fileTexts|
      invariant 0 <= i <= |fileTexts|
      invariant ChunkAllWith(fileTexts[..i], chunk) == Ok(documents)
    {
      var more := ChunkEntry(fileTexts[i], dataConfig, split);
      assert more == chunk(fileTexts[i]);
      ChunkAdvance(fileTexts, i, chunk, documents, more);
      if more.Err? {
        return Err(more.error);
      }
      documents := documents + more.value;
      i := i + 1;
    }
    assert fileTexts[..i] == fileTexts;
    return Ok(documents);
  }

  /** One turn of the `chunk_all_files` loop: either the prefix grows by the entry's documents or the whole run fails. */
  lemma ChunkAdvance(entries: seq<Entry>, i: nat, chunk: Entry -> Result<seq<IndexedDoc>, IndexError>,
                     documents: seq<IndexedDoc>, more: Result<seq<IndexedDoc>, IndexError>)
    requires i < |entries| && ChunkAllWith(entries[..i], chunk) == Ok(documents) && more == chunk(entries[i])
    ensures more.Ok? ==> ChunkAllWith(entries[..i + 1], chunk) == Ok(documents + more.value)
    ensures more.Err? ==> ChunkAllWith(entries, chunk) == Err(more.error)
  {
    ChunkAllStep(entries, i, chunk);
    if more.Err? {
      ChunkAllFailsFrom(entries, i + 1, chunk);
    }
  }

  lemma ChunkAllStep(entries: seq<Entry>, i: nat, chunk: Entry -> Result<seq<IndexedDoc>, IndexError>)
    requires i < |entries| && ChunkAllWith(entries[..i], chunk).Ok?
    ensures ChunkAllWith(entries[..i + 1], chunk) ==
      match chunk(entries[i])
      case Err(e) => Err(e)
      case Ok(more) => Ok(ChunkAllWith(entries[..i], chunk).value + more)
  {
    assert entries[..i + 1][..i] == entries[..i];
  }

  lemma {:induction false} ChunkAllFailsFrom(entries: seq<Entry>, k: nat, chunk: Entry -> Result<seq<IndexedDoc>, IndexError>)
    requires k <= |entries| && ChunkAllWith(entries[..k], chunk).Err?
    ensures ChunkAllWith(entries, chunk) == ChunkAllWith(entries[..k], chunk)
  {
    if k < |entries| {
      var init := entries[..|entries| - 1];
      assert init[..k] == entries[..k];
      ChunkAllFailsFrom(init, k, chunk);
    } else {
      assert entries[..k] == entries;
    }
  }

  /** What `get_vector_store` returns: the existing collection, a new one
      holding the documents of the indexing run, or the error that run
      raised. */
  datatype Store = Loaded(collection: string) | Created(collection: string, documents: seq<IndexedDoc>) | Failed(error: IndexError)

  /** The create branch: process every file, chunk the result. */
  function CreateStore(files: seq<string>, src: IndexSources, dataConfig: map<string, Json>, split: Splitter): (s: Store)
    ensures !s.Loaded?
  {
    match ProcessAll(files, src)
    case Err(e) => Failed(e)
    case Ok(texts) =>
      match ChunkAll(texts, dataConfig, split)
      case Err(e) => Failed(e)
      case Ok(docs) => Created(CollectionName, docs)
  }

  /** `VectorStore.get_vector_store`: load the collection when it exists,
      otherwise build it; exactly one of the two happens. */
  method GetVectorStore(collections: set<string>, files: seq<string>, src: IndexSources,
                        dataConfig: map<string, Json>, split: Splitter)
    returns (store: Store)
    ensures store.Loaded? <==> CollectionName in collections
    ensures store.Loaded? ==> store == Loaded(CollectionName)
    ensures !store.Loaded? ==> store == CreateStore(files, src, dataConfig, split)
  {
    if CollectionName !in collections {
      var texts := ProcessAllFiles(files, src);
      if texts.Err? {
        return Failed(texts.error);
      }
      var documents := ChunkAllFiles(texts.value, dataConfig, split);
      if documents.Err? {
        return Failed(documents.error);
      }
      store := Created(CollectionName, documents.value);
    } else {
      store := Loaded(CollectionName);
    }
  }
}
