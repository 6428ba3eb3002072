/** The ingestion `FileProcessor` (src/vector_store/processor.py, and its
    copy in index.py): every listed file is turned into Markdown, split into
    chunks, and each chunk is enriched in place with a prefix line naming
    the file, its tools and its skills, and with the file's entry of the
    metadata configuration. The two copies differ only in how they list
    files (a bucket listing or a glob, both given here as a sequence of
    paths) and in how they pick the format: `str.endswith` on the path for
    the bucket variant, `Path.suffix` for the local variant. The PDF
    converter, the file reader and the header splitter are parameters. */
module Documents {
  import opened Wrappers
  import opened Text
  import opened Json
  import opened Paths

  /** A LangChain `Document`: its text and metadata are updated in place. */
  class Document {
    var pageContent: string
    var metadata: map<string, Json>

    constructor(pageContent: string, metadata: map<string, Json>)
      ensures this.pageContent == pageContent && this.metadata == metadata
    {
      this.pageContent := pageContent;
      this.metadata := metadata;
    }
  }

  /** A document's text and metadata as a value. */
  datatype Chunk = Chunk(pageContent: string, metadata: map<string, Json>)

  /** The failures the pipeline raises: `ValueError` with its message, and
      the `TypeError` of `" ".join` over a prefix part that is not text. */
  datatype Failure = ValueError(message: string) | TypeError

  /** The two copies of the processor. */
  datatype Variant = BucketFiles | LocalFiles

  datatype Format = Pdf | Markdown

  /** The per-file metadata configuration, keyed by file name, and the
      library code a processor calls. */
  datatype Sources = Sources(
    convertPdf: string -> string,
    readText: string -> string,
    split: string -> seq<Chunk>,
    config: map<string, map<string, Json>>)

  /** The documents' current contents, in order. */
  function Snapshot(docs: seq<Document>): (s: seq<Chunk>)
    reads set d | d in docs
    ensures |s| == |docs|
    ensures forall i :: 0 <= i < |docs| ==> s[i] == Chunk(docs[i].pageContent, docs[i].metadata)
  {
    if docs == [] then []
    else Snapshot(docs[..|docs| - 1]) + [Chunk(docs[|docs| - 1].pageContent, docs[|docs| - 1].metadata)]
  }

  /** `metadata_config.get(file_name, {})`. */
  function MetadataFor(config: map<string, map<string, Json>>, fileName: string): map<string, Json>
  {
    if fileName in config then config[fileName] else map[]
  }

  /** `metadata.get(key, [])`. */
  function Field(metadata: map<string, Json>, key: string): Json
  {
    if key in metadata then metadata[key] else JArray([])
  }

  /** The keys of a JSON object in the order a Python dict keeps them: the
      position of a key's first occurrence. */
  function DistinctKeys(members: seq<Member>): (keys: seq<string>)
    ensures forall k :: k in keys <==> exists i :: 0 <= i < |members| && members[i].key == k
  {
    if members == [] then []
    else
      var keys := DistinctKeys(members[..|members| - 1]);
      var last := members[|members| - 1].key;
      if last in keys then keys else keys + [last]
  }

  function StringValues(items: seq<Json>): Option<seq<string>>
  {
    if items == [] then Some([])
    else
      match (StringValues(items[..|items| - 1]), items[|items| - 1])
      case (Some(init), JString(s)) => Some(init + [s])
      case _ => None
  }

  function JsonStrings(texts: seq<string>): (items: seq<Json>)
    ensures |items| == |texts|
    ensures forall i :: 0 <= i < |texts| ==> items[i] == JString(texts[i])
  {
    if texts == [] then [] else JsonStrings(texts[..|texts| - 1]) + [JString(texts[|texts| - 1])]
  }

  /** The characters of a string, each as a string of its own. */
  function Chars(s: string): (r: seq<string>)
    ensures |r| == |s|
    ensures forall i :: 0 <= i < |s| ==> r[i] == [s[i]]
  {
    if s == [] then [] else Chars(s[..|s| - 1]) + [[s[|s| - 1]]]
  }

  /** What `*value` contributes to a list that `" ".join` then reads:
      the items of a list, the characters of a string, the keys of an
      object; `None` when a part is not text or the value is not iterable
      (the `TypeError`). */
  function Unpack(value: Json): Option<seq<string>>
  {
    match value
    case JArray(items) => StringValues(items)
    case JString(s) => Some(Chars(s))
    case JObject(members) => Some(DistinctKeys(members))
    case _ => None
  }

  /** `[file_name, *tools_used, *skills]`. */
  function PrefixParts(fileName: string, metadata: map<string, Json>): Option<seq<string>>
  {
    match (Unpack(Field(metadata, "tools_used")), Unpack(Field(metadata, "skills")))
    case (Some(tools), Some(skills)) => Some([fileName] + tools + skills)
    case _ => None
  }

  /** The prefix line `" ".join(prefix_parts)`. */
  function Prefix(fileName: string, metadata: map<string, Json>): Option<string>
  {
    match PrefixParts(fileName, metadata)
    case Some(parts) => Some(Join(" ", parts))
    case None => None
  }

  /** The prefix line exists exactly when both metadata fields can be
      unpacked, and it starts with the file name. */
  lemma PrefixOutcome(fileName: string, metadata: map<string, Json>)
    ensures Prefix(fileName, metadata).Some? <==>
      Unpack(Field(metadata, "tools_used")).Some? && Unpack(Field(metadata, "skills")).Some?
    ensures Prefix(fileName, metadata).Some? ==>
      |fileName| <= |Prefix(fileName, metadata).value| && Prefix(fileName, metadata).value[..|fileName|] == fileName
  {
  }

  /** What enriching does to each chunk: the prefix line goes in front of
      the text and the file's metadata is merged in, overwriting. */
  function EnrichChunks(chunks: seq<Chunk>, prefix: string, metadata: map<string, Json>): (r: seq<Chunk>)
    ensures |r| == |chunks|
    ensures forall i :: 0 <= i < |chunks| ==>
      r[i] == Chunk(prefix + "\n" + chunks[i].pageContent, chunks[i].metadata + metadata)
  {
    if chunks == [] then []
    else
      var c := chunks[|chunks| - 1];
      EnrichChunks(chunks[..|chunks| - 1], prefix, metadata) + [Chunk(prefix + "\n" + c.pageContent, c.metadata + metadata)]
  }

  /** A file the configuration does not name is prefixed with its name
      alone and its metadata is left as it is. */
  lemma UnconfiguredFile(config: map<string, map<string, Json>>, fileName: string, chunks: seq<Chunk>)
    requires fileName !in config
    ensures Prefix(fileName, MetadataFor(config, fileName)) == Some(fileName)
    ensures forall i :: 0 <= i < |chunks| ==>
      EnrichChunks(chunks, fileName, MetadataFor(config, fileName))[i].metadata == chunks[i].metadata
  {
    assert MetadataFor(config, fileName) == map[];
    EmptyMetadataPrefix(fileName);
    EmptyMetadataKept(chunks, fileName);
  }

  lemma EmptyMetadataPrefix(fileName: string)
    ensures Prefix(fileName, map[]) == Some(fileName)
  {
    var metadata: map<string, Json> := map[];
    assert Field(metadata, "tools_used") == JArray([]) && Field(metadata, "skills") == JArray([]);
    assert StringValues([]) == Some([]);
    assert [fileName] + [] + [] == [fileName];
    assert PrefixParts(fileName, metadata) == Some([fileName]);
    assert Join(" ", [fileName]) == fileName;
  }

  lemma EmptyMetadataKept(chunks: seq<Chunk>, prefix: string)
    ensures forall i :: 0 <= i < |chunks| ==> EnrichChunks(chunks, prefix, map[])[i].metadata == chunks[i].metadata
  {
    forall i | 0 <= i < |chunks|
      ensures EnrichChunks(chunks, prefix, map[])[i].metadata == chunks[i].metadata
    {
      assert chunks[i].metadata + map[] == chunks[i].metadata;
    }
  }

  /** The prefix lists the file name, then the tools, then the skills, one
      space apart: when none of them holds a space, splitting the prefix on
      spaces gives them back in that order. */
  lemma PrefixReadsBack(fileName: string, metadata: map<string, Json>, tools: seq<string>, skills: seq<string>)
    requires Field(metadata, "tools_used") == JArray(JsonStrings(tools))
    requires Field(metadata, "skills") == JArray(JsonStrings(skills))
    requires ' ' !in fileName
    requires forall i :: 0 <= i < |tools| ==> ' ' !in tools[i]
    requires forall i :: 0 <= i < |skills| ==> ' ' !in skills[i]
    ensures Prefix(fileName, metadata).Some?
    ensures Split(Prefix(fileName, metadata).value, ' ') == [fileName] + tools + skills
  {
    StringValuesOfStrings(tools);
    StringValuesOfStrings(skills);
    var parts := [fileName] + tools + skills;
    assert PrefixParts(fileName, metadata) == Some(parts);
    PartsFree(fileName, tools, skills, ' ');
    SplitJoin(parts, ' ');
  }

  lemma PartsFree(fileName: string, tools: seq<string>, skills: seq<string>, c: char)
    requires c !in fileName
    requires forall i :: 0 <= i < |tools| ==> c !in tools[i]
    requires forall i :: 0 <= i < |skills| ==> c !in skills[i]
    ensures forall i :: 0 <= i < |[fileName] + tools + skills| ==> c !in ([fileName] + tools + skills)[i]
  {
    var parts := [fileName] + tools + skills;
    forall i | 0 <= i < |parts| ensures c !in parts[i] {
      if 1 <= i < 1 + |tools| {
        assert parts[i] == tools[i - 1];
      } else if i >= 1 + |tools| {
        assert parts[i] == skills[i - 1 - |tools|];
      }
    }
  }

  lemma {:induction false} StringValuesOfStrings(texts: seq<string>)
    ensures StringValues(JsonStrings(texts)) == Some(texts)
  {
    if texts != [] {
      var items := JsonStrings(texts);
      assert items[..|items| - 1] == JsonStrings(texts[..|texts| - 1]);
      StringValuesOfStrings(texts[..|texts| - 1]);
      assert texts[..|texts| - 1] + [texts[|texts| - 1]] == texts;
    }
  }

  /** A string where a list is expected is unpacked character by
      character, so each of its letters becomes a word of the prefix. */
  lemma StringValueSpelledOut(fileName: string)
    ensures Prefix(fileName, map["tools_used" := JString("Go")]) == Some(fileName + " G o")
  {
    var m := map["tools_used" := JString("Go")];
    assert Chars("Go") == ["G", "o"];
    assert Field(m, "skills") == JArray([]);
    assert StringValues([]) == Some([]);
    assert [fileName] + ["G", "o"] + [] == [fileName, "G", "o"];
    assert Unpack(Field(m, "tools_used")) == Some(["G", "o"]);
    assert PrefixParts(fileName, m) == Some([fileName, "G", "o"]);
    assert Join(" ", ["G", "o"]) == "G o" by {
      assert ["G", "o"][1..] == ["o"];
    }
    assert [fileName, "G", "o"][1..] == ["G", "o"];
    assert Join(" ", [fileName, "G", "o"]) == fileName + " " + "G o";
    assert fileName + " " + "G o" == fileName + " G o";
  }

  /** A value that cannot be unpacked into text, such as a number, makes
      the prefix fail. */
  lemma NumberValueFails(fileName: string, n: int)
    ensures Prefix(fileName, map["skills" := JInt(n)]) == None
  {
    assert Unpack(JInt(n)) == None;
  }

  /** After enriching, each chunk's first line is the prefix and the rest is
      its old text; its metadata holds every configured key with the
      configured value, and every other key as before. */
  lemma EnrichedChunkReadsBack(chunks: seq<Chunk>, prefix: string, metadata: map<string, Json>, i: nat)
    requires i < |chunks|
    requires '\n' !in prefix
    ensures var c := EnrichChunks(chunks, prefix, metadata)[i];
      Split(c.pageContent, '\n')[0] == prefix
      && c.pageContent[|prefix| + 1..] == chunks[i].pageContent
      && (forall k :: k in c.metadata <==> k in chunks[i].metadata || k in metadata)
      && (forall k :: k in metadata ==> c.metadata[k] == metadata[k])
      && (forall k :: k in chunks[i].metadata && k !in metadata ==> c.metadata[k] == chunks[i].metadata[k])
  {
    var text := chunks[i].pageContent;
    SplitPrefix(prefix, text, '\n');
    assert prefix + "\n" + text == prefix + (['\n'] + text);
  }

  /** The format a processor picks for a path. */
  function FormatOf(variant: Variant, path: string): (r: Result<Format, Failure>)
    ensures r.Err? ==> r.error.ValueError?
    ensures r.Ok? && variant.BucketFiles? ==> EndsWith(path, Extension(r.value))
    ensures r.Ok? && variant.LocalFiles? ==>
      EndsWith(Name(path), Extension(r.value)) && |Extension(r.value)| < |Name(path)|
  {
    match variant
    case BucketFiles =>
      if EndsWith(path, ".pdf") then Ok(Pdf)
      else if EndsWith(path, ".md") then Ok(Markdown)
      else Err(ValueError("Unsupported file format: " + path))
    case LocalFiles =>
      var suffix := Suffix(path);
      if suffix == ".pdf" then Ok(Pdf)
      else if suffix == ".md" then Ok(Markdown)
      else Err(ValueError("Unsupported file format: " + suffix))
  }

  function Extension(f: Format): string
  {
    match f
    case Pdf => ".pdf"
    case Markdown => ".md"
  }

  /** The bucket variant accepts exactly the paths that end in ".pdf" or
      ".md", and names the path when it refuses one. */
  lemma BucketDispatch(path: string, f: Format)
    ensures FormatOf(BucketFiles, path) == Ok(f) <==> EndsWith(path, Extension(f))
    ensures FormatOf(BucketFiles, path).Err? <==> !EndsWith(path, ".pdf") && !EndsWith(path, ".md")
    ensures FormatOf(BucketFiles, path).Err? ==>
      FormatOf(BucketFiles, path).error == ValueError("Unsupported file format: " + path)
  {
    EndingsDisjoint(path);
  }

  lemma EndingsDisjoint(path: string)
    ensures !(EndsWith(path, ".md") && EndsWith(path, ".pdf"))
  {
    if EndsWith(path, ".md") {
      assert path[|path| - 1] == path[|path| - 3..][2] == 'd';
    }
  }

  /** The local variant accepts a path exactly when its name ends in the
      extension and holds something before it, and names the suffix when it
      refuses one. */
  lemma LocalDispatch(path: string, f: Format)
    ensures FormatOf(LocalFiles, path) == Ok(f) <==>
      EndsWith(Name(path), Extension(f)) && |Name(path)| > |Extension(f)|
    ensures FormatOf(LocalFiles, path).Err? ==>
      FormatOf(LocalFiles, path).error == ValueError("Unsupported file format: " + Suffix(path))
  {
    SuffixIs(path, ".pdf");
    SuffixIs(path, ".md");
  }

  /** Where the path's name holds more than the extension, both variants
      pick the same format. */
  lemma VariantsAgree(path: string, f: Format)
    requires FormatOf(BucketFiles, path) == Ok(f)
    requires |Name(path)| > |Extension(f)|
    ensures FormatOf(LocalFiles, path) == Ok(f)
  {
    BucketDispatch(path, f);
    NameOfPlainEnding(path, Extension(f));
    LocalDispatch(path, f);
  }

  /** Where they part, first case: a file named just ".pdf". */
  lemma BareExtensionDiffers()
    ensures FormatOf(BucketFiles, "data/.pdf") == Ok(Pdf)
    ensures FormatOf(LocalFiles, "data/.pdf") == Err(ValueError("Unsupported file format: "))
  {
    BareExtensionHasNoSuffix();
    assert "Unsupported file format: " + "" == "Unsupported file format: ";
  }

  /** Second case: a path with a trailing slash. */
  lemma TrailingSlashDiffers()
    ensures FormatOf(BucketFiles, "data/cv.pdf/") == Err(ValueError("Unsupported file format: data/cv.pdf/"))
    ensures FormatOf(LocalFiles, "data/cv.pdf/") == Ok(Pdf)
  {
    BucketRefusesSlash();
    LocalAcceptsSlash();
  }

  lemma BucketRefusesSlash()
    ensures FormatOf(BucketFiles, "data/cv.pdf/") == Err(ValueError("Unsupported file format: data/cv.pdf/"))
  {
    SlashEndingIsNoExtension("data/cv.pdf/");
    assert "Unsupported file format: " + "data/cv.pdf/" == "Unsupported file format: data/cv.pdf/";
  }

  lemma LocalAcceptsSlash()
    ensures FormatOf(LocalFiles, "data/cv.pdf/") == Ok(Pdf)
  {
    TrailingSlashKeepsSuffix();
  }

  lemma SlashEndingIsNoExtension(path: string)
    requires path != [] && path[|path| - 1] == '/'
    ensures !EndsWith(path, ".pdf") && !EndsWith(path, ".md")
  {
  }

  /** `_to_markdown`. */
  function ToMarkdown(variant: Variant, sources: Sources, path: string): (r: Result<string, Failure>)
    ensures r.Err? <==> FormatOf(variant, path).Err?
    ensures r.Err? ==> r.error.ValueError?
  {
    match FormatOf(variant, path)
    case Ok(Pdf) => Ok(sources.convertPdf(path))
    case Ok(Markdown) => Ok(sources.readText(path))
    case Err(e) => Err(e)
  }

  /** What `_process_file` yields for one path. */
  function FileChunks(variant: Variant, sources: Sources, path: string): Result<seq<Chunk>, Failure>
  {
    match ToMarkdown(variant, sources, path)
    case Err(e) => Err(e)
    case Ok(text) =>
      var name := Name(path);
      var metadata := MetadataFor(sources.config, name);
      match Prefix(name, metadata)
      case None => Err(TypeError)
      case Some(prefix) => Ok(EnrichChunks(sources.split(text), prefix, metadata))
  }

  /** A file yields chunks only when its format is recognised; otherwise
      the failure is the format's `ValueError`, or the `TypeError` of a
      prefix part that cannot be joined. */
  lemma FileChunksOutcome(variant: Variant, sources: Sources, path: string)
    ensures FileChunks(variant, sources, path).Ok? ==> FormatOf(variant, path).Ok?
    ensures FormatOf(variant, path).Err? ==> FileChunks(variant, sources, path) == Err(FormatOf(variant, path).error)
    ensures FileChunks(variant, sources, path).Err? ==>
      FileChunks(variant, sources, path).error.ValueError? || FileChunks(variant, sources, path).error == TypeError
  {
  }

  /** The results of a per-file step over a listing, in listing order, or
      the failure of the first file that fails. */
  function Collect<T>(files: seq<string>, perFile: string -> Result<seq<T>, Failure>): Result<seq<T>, Failure>
  {
    if files == [] then Ok([])
    else
      match Collect(files[..|files| - 1], perFile)
      case Err(e) => Err(e)
      case Ok(init) =>
        match perFile(files[|files| - 1])
        case Err(e) => Err(e)
        case Ok(last) => Ok(init + last)
  }

  function PerFile(variant: Variant, sources: Sources): string -> Result<seq<Chunk>, Failure>
  {
    path => FileChunks(variant, sources, path)
  }

  /** What `build_documents` yields for a listing. */
  function AllChunks(variant: Variant, sources: Sources, files: seq<string>): Result<seq<Chunk>, Failure>
  {
    Collect(files, PerFile(variant, sources))
  }

  /** Collecting two listings one after the other: the first failure wins,
      and otherwise the results are concatenated. */
  lemma {:induction false} CollectAppend<T>(a: seq<string>, b: seq<string>, perFile: string -> Result<seq<T>, Failure>)
    ensures Collect(a + b, perFile) ==
      match Collect(a, perFile)
      case Err(e) => Err(e)
      case Ok(x) =>
        match Collect(b, perFile)
        case Err(e) => Err(e)
        case Ok(y) => Ok(x + y)
  {
    if b == [] {
      assert a + b == a;
      if Collect(a, perFile).Ok? {
        assert Collect(a, perFile).value + [] == Collect(a, perFile).value;
      }
    } else {
      var b0 := b[..|b| - 1];
      assert (a + b)[..|a + b| - 1] == a + b0;
      assert (a + b)[|a + b| - 1] == b[|b| - 1];
      CollectAppend(a, b0, perFile);
      if Collect(a, perFile).Ok? && Collect(b0, perFile).Ok? && perFile(b[|b| - 1]).Ok? {
        var x, y, z := Collect(a, perFile).value, Collect(b0, perFile).value, perFile(b[|b| - 1]).value;
        assert x + (y + z) == x + y + z;
      }
    }
  }

  /** A listing succeeds exactly when every file does; a failure is that of
      the first file that fails. */
  lemma {:induction false} CollectFailure<T>(files: seq<string>, perFile: string -> Result<seq<T>, Failure>)
    ensures Collect(files, perFile).Ok? <==> forall i :: 0 <= i < |files| ==> perFile(files[i]).Ok?
    ensures Collect(files, perFile).Err? ==>
      exists i :: 0 <= i < |files| && perFile(files[i]) == Err(Collect(files, perFile).error)
        && forall j :: 0 <= j < i ==> perFile(files[j]).Ok?
  {
    if files != [] {
      var init := files[..|files| - 1];
      CollectFailure(init, perFile);
      assert forall i :: 0 <= i < |init| ==> init[i] == files[i];
      if Collect(init, perFile).Err? {
        var i :| 0 <= i < |init| && perFile(init[i]) == Err(Collect(init, perFile).error)
          && forall j :: 0 <= j < i ==> perFile(init[j]).Ok?;
        assert perFile(files[i]) == Err(Collect(files, perFile).error);
      } else if perFile(files[|files| - 1]).Err? {
        var i := |files| - 1;
        assert forall j :: 0 <= j < i ==> perFile(files[j]).Ok?;
      }
    }
  }

  /** A successful listing holds each file's results at the place the
      files before it end. */
  lemma CollectPlaces<T>(files: seq<string>, perFile: string -> Result<seq<T>, Failure>, k: nat)
    requires k < |files|
    requires Collect(files, perFile).Ok?
    ensures perFile(files[k]).Ok? && Collect(files[..k], perFile).Ok?
    ensures var before := |Collect(files[..k], perFile).value|;
      var mine := perFile(files[k]).value;
      before + |mine| <= |Collect(files, perFile).value|
      && Collect(files, perFile).value[before..before + |mine|] == mine
  {
    var pre := files[..k + 1];
    CollectStep(files, perFile, k);
    CollectAppend(pre, files[k + 1..], perFile);
    assert pre + files[k + 1..] == files;
    var x := Collect(files[..k], perFile).value;
    var m := perFile(files[k]).value;
    var y := Collect(files[k + 1..], perFile).value;
    assert Collect(files, perFile).value == (x + m) + y;
    assert ((x + m) + y)[|x|..|x| + |m|] == m;
  }

  /** One more file: its results follow those of the files before it. */
  lemma CollectStep<T>(files: seq<string>, perFile: string -> Result<seq<T>, Failure>, k: nat)
    requires k < |files|
    ensures Collect(files[..k + 1], perFile) ==
      match Collect(files[..k], perFile)
      case Err(e) => Err(e)
      case Ok(x) =>
        match perFile(files[k])
        case Err(e) => Err(e)
        case Ok(y) => Ok(x + y)
  {
    assert files[..k + 1][..k] == files[..k];
  }

  /** `doc(...)` for every chunk the splitter returned. */
  method MakeDocuments(chunks: seq<Chunk>) returns (docs: seq<Document>)
    ensures Snapshot(docs) == chunks
    ensures forall i :: 0 <= i < |docs| ==> fresh(docs[i])
    ensures forall i, j :: 0 <= i < j < |docs| ==> docs[i] != docs[j]
  {
    docs := [];
    var k := 0;
    while k < |chunks|
      invariant 0 <= k <= |chunks| && |docs| == k
      invariant forall i :: 0 <= i < k ==> Chunk(docs[i].pageContent, docs[i].metadata) == chunks[i]
      invariant forall i :: 0 <= i < k ==> fresh(docs[i])
      invariant forall i, j :: 0 <= i < j < k ==> docs[i] != docs[j]
    {
      var d := new Document(chunks[k].pageContent, chunks[k].metadata);
      docs := docs + [d];
      k := k + 1;
    }
  }

  /** `_enrich_documents`: the prefix is computed before any document is
      touched; then each document is rewritten in place, and the same list
      is returned. */
  method EnrichDocuments(docs: seq<Document>, fileName: string, config: map<string, map<string, Json>>)
    returns (r: Result<seq<Document>, Failure>)
    requires forall i, j :: 0 <= i < j < |docs| ==> docs[i] != docs[j]
    modifies set d | d in docs
    ensures var metadata := MetadataFor(config, fileName);
      match Prefix(fileName, metadata)
      case None => r == Err(TypeError) && Snapshot(docs) == old(Snapshot(docs))
      case Some(prefix) => r == Ok(docs) && Snapshot(docs) == EnrichChunks(old(Snapshot(docs)), prefix, metadata)
  {
    ghost var before := Snapshot(docs);
    var metadata := MetadataFor(config, fileName);
    var prefix := Prefix(fileName, metadata);
    if prefix.None? {
      return Err(TypeError);
    }
    var p := prefix.value;
    var k := 0;
    while k < |docs|
      invariant 0 <= k <= |docs|
      invariant forall i :: 0 <= i < k ==>
        Chunk(docs[i].pageContent, docs[i].metadata) == Chunk(p + "\n" + before[i].pageContent, before[i].metadata + metadata)
      invariant forall i :: k <= i < |docs| ==> Chunk(docs[i].pageContent, docs[i].metadata) == before[i]
    {
      docs[k].pageContent := p + "\n" + docs[k].pageContent;
      docs[k].metadata := docs[k].metadata + metadata;
      k := k + 1;
    }
    r := Ok(docs);
  }

  /** `_process_file`: fresh documents carrying the file's enriched
      chunks. */
  method ProcessFile(variant: Variant, sources: Sources, path: string) returns (r: Result<seq<Document>, Failure>)
    ensures FileChunks(variant, sources, path).Err? ==> r == Err(FileChunks(variant, sources, path).error)
    ensures FileChunks(variant, sources, path).Ok? ==>
      r.Ok? && Snapshot(r.value) == FileChunks(variant, sources, path).value
      && forall i :: 0 <= i < |r.value| ==> fresh(r.value[i])
  {
    var text := ToMarkdown(variant, sources, path);
    if text.Err? {
      return Err(text.error);
    }
    var docs := MakeDocuments(sources.split(text.value));
    r := EnrichDocuments(docs, Name(path), sources.config);
  }

  /** `build_documents`: the documents of every listed file, extended onto
      one list in listing order. */
  method BuildDocuments(variant: Variant, sources: Sources, files: seq<string>) returns (r: Result<seq<Document>, Failure>)
    ensures AllChunks(variant, sources, files).Err? ==> r == Err(AllChunks(variant, sources, files).error)
    ensures AllChunks(variant, sources, files).Ok? ==>
      r.Ok? && Snapshot(r.value) == AllChunks(variant, sources, files).value
  {
    var documents: seq<Document> := [];
    var k := 0;
    while k < |files|
      invariant 0 <= k <= |files|
      invariant AllChunks(variant, sources, files[..k]).Ok?
      invariant Snapshot(documents) == AllChunks(variant, sources, files[..k]).value
    {
      var extended := ExtendDocuments(variant, sources, files, k, documents);
      ghost var upTo := AllChunks(variant, sources, files[..k + 1]);
      if extended.Err? {
        assert upTo.Err? && extended == Err(upTo.error);
        AllChunksFailsFrom(variant, sources, files, k + 1);
        return extended;
      }
      assert upTo.Ok? && Snapshot(extended.value) == upTo.value;
      documents := extended.value;
      k := k + 1;
    }
    assert files[..k] == files;
    r := Ok(documents);
  }

  /** One turn of `build_documents`: `documents.extend` with the next
      file's documents. */
  method ExtendDocuments(variant: Variant, sources: Sources, files: seq<string>, k: nat, documents: seq<Document>)
    returns (r: Result<seq<Document>, Failure>)
    requires k < |files|
    requires AllChunks(variant, sources, files[..k]).Ok?
    requires Snapshot(documents) == AllChunks(variant, sources, files[..k]).value
    ensures AllChunks(variant, sources, files[..k + 1]).Err? ==> r == Err(AllChunks(variant, sources, files[..k + 1]).error)
    ensures AllChunks(variant, sources, files[..k + 1]).Ok? ==>
      r.Ok? && Snapshot(r.value) == AllChunks(variant, sources, files[..k + 1]).value
  {
    var fileDocs := ProcessFile(variant, sources, files[k]);
    CollectStep(files, PerFile(variant, sources), k);
    assert PerFile(variant, sources)(files[k]) == FileChunks(variant, sources, files[k]);
    if fileDocs.Err? {
      return Err(fileDocs.error);
    }
    SnapshotAppend(documents, fileDocs.value);
    r := Ok(documents + fileDocs.value);
  }

  lemma SnapshotAppend(a: seq<Document>, b: seq<Document>)
    ensures Snapshot(a + b) == Snapshot(a) + Snapshot(b)
  {
    assert |Snapshot(a + b)| == |Snapshot(a) + Snapshot(b)|;
    forall i | 0 <= i < |a + b| ensures Snapshot(a + b)[i] == (Snapshot(a) + Snapshot(b))[i] {
      if i >= |a| {
        assert (a + b)[i] == b[i - |a|];
      }
    }
  }

  /** A listing whose first files already fail fails as they do. */
  lemma AllChunksFailsFrom(variant: Variant, sources: Sources, files: seq<string>, k: nat)
    requires k <= |files|
    requires AllChunks(variant, sources, files[..k]).Err?
    ensures AllChunks(variant, sources, files) == AllChunks(variant, sources, files[..k])
  {
    CollectFailsFrom(files, PerFile(variant, sources), k);
  }

  lemma CollectFailsFrom<T>(files: seq<string>, perFile: string -> Result<seq<T>, Failure>, k: nat)
    requires k <= |files|
    requires Collect(files[..k], perFile).Err?
    ensures Collect(files, perFile) == Collect(files[..k], perFile)
  {
    CollectAppend(files[..k], files[k..], perFile);
    assert files[..k] + files[k..] == files;
  }

  const MissingProcessorConfig: string := "processor_config must be provided to create a new vector store"

  /** `create_collection` in index.py up to the hand-off to the vector
      store: without a processor configuration it fails before any file is
      read; otherwise it builds the documents from the local listing. */
  method CreateCollection(processorConfig: Option<Sources>, files: seq<string>) returns (r: Result<seq<Document>, Failure>)
    ensures processorConfig.None? ==> r == Err(ValueError(MissingProcessorConfig))
    ensures processorConfig.Some? && AllChunks(LocalFiles, processorConfig.value, files).Err? ==>
      r == Err(AllChunks(LocalFiles, processorConfig.value, files).error)
    ensures processorConfig.Some? && AllChunks(LocalFiles, processorConfig.value, files).Ok? ==>
      r.Ok? && Snapshot(r.value) == AllChunks(LocalFiles, processorConfig.value, files).value
  {
    if processorConfig.None? {
      return Err(ValueError(MissingProcessorConfig));
    }
    r := BuildDocuments(LocalFiles, processorConfig.value, files);
  }
}
