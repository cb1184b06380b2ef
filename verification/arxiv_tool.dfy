/** The fetch tool and the ingestion batch: text extraction from PDF pages,
    the filter that turns staged paths into documents, the 0/1 status of an
    index build, the removal of staged files after a successful build, and
    the tool that searches arXiv by title and category, downloads every result
    into the staging directory and hands the staged paths to the build.

    The PDF reader, the arXiv search and the index build (chunking, embedding,
    persistence) are opaque: the page texts a file yields are stored with the
    file, the search is a function parameter, and the build is a function
    parameter that says whether it completed without raising. */
module ArxivTool {
  import opened Py
  import opened Text

  type Path = string

  /** The texts the PDF reader yields for a file, page by page, up to the
      first page it fails on; empty when the file cannot be opened. */
  type Pages = seq<string>

  // ---------------------------------------------------------------------
  // Text extraction (`_extract_text_from_pdf`)
  // ---------------------------------------------------------------------

  /** The pages whose text is kept: those with non-empty text, in page order. */
  function TextPages(pages: Pages): (r: seq<string>)
    ensures |r| <= |pages|
    ensures forall i | 0 <= i < |r| :: r[i] != "" && r[i] in pages
  {
    if pages == [] then []
    else TextPages(pages[..|pages| - 1]) + (if pages[|pages| - 1] != "" then [pages[|pages| - 1]] else [])
  }

  /** The extracted text of a document: its non-empty page texts joined by "\n". */
  function ExtractedText(pages: Pages): string {
    JoinLines(TextPages(pages))
  }

  lemma {:induction false} TextPagesEmpty(pages: Pages)
    ensures TextPages(pages) == [] <==> forall i | 0 <= i < |pages| :: pages[i] == ""
  {
    if pages != [] {
      var init := pages[..|pages| - 1];
      TextPagesEmpty(init);
      assert forall i | 0 <= i < |init| :: init[i] == pages[i];
    }
  }

  lemma {:induction false} TextPagesBlank(pages: Pages)
    ensures (forall i | 0 <= i < |TextPages(pages)| :: IsBlank(TextPages(pages)[i]))
        <==> forall i | 0 <= i < |pages| :: IsBlank(pages[i])
  {
    if pages != [] {
      var init := pages[..|pages| - 1];
      TextPagesBlank(init);
      assert forall i | 0 <= i < |init| :: init[i] == pages[i];
      var last := if pages[|pages| - 1] != "" then [pages[|pages| - 1]] else [];
      var ri := TextPages(init);
      var r := ri + last;
      assert r == TextPages(pages);
      assert forall i | 0 <= i < |ri| :: r[i] == ri[i];
      assert forall i | 0 <= i < |last| :: r[|ri| + i] == last[i];
      if pages[|pages| - 1] == "" {
        assert IsBlank(pages[|pages| - 1]);
      } else {
        assert last[0] == pages[|pages| - 1];
      }
      if forall i | 0 <= i < |pages| :: IsBlank(pages[i]) {
        assert forall i | 0 <= i < |r| :: IsBlank(r[i]) by {
          forall i | 0 <= i < |r| ensures IsBlank(r[i]) {
            if i >= |ri| { assert r[i] == last[i - |ri|]; }
          }
        }
      }
    }
  }

  /** A document yields "" exactly when none of its pages has text. */
  lemma ExtractedTextEmpty(pages: Pages)
    ensures ExtractedText(pages) == "" <==> forall i | 0 <= i < |pages| :: pages[i] == ""
  {
    JoinLinesEmpty(TextPages(pages));
    TextPagesEmpty(pages);
  }

  /** The extracted text is blank exactly when every page's text is blank. */
  lemma ExtractedTextBlank(pages: Pages)
    ensures IsBlank(ExtractedText(pages)) <==> forall i | 0 <= i < |pages| :: IsBlank(pages[i])
  {
    JoinLinesBlank(TextPages(pages));
    TextPagesBlank(pages);
  }

  // ---------------------------------------------------------------------
  // The staging area
  // ---------------------------------------------------------------------

  /** The part of the filesystem the tool and the build touch. */
  class FileSystem {
    /** Regular files, each with the page texts the PDF reader yields for it. */
    var files: map<Path, Pages>
    /** Directories. */
    var dirs: set<Path>
    /** Files the operating system refuses to remove. */
    var locked: set<Path>

    constructor (files: map<Path, Pages>, dirs: set<Path>, locked: set<Path>)
      ensures this.files == files && this.dirs == dirs && this.locked == locked
    {
      this.files := files;
      this.dirs := dirs;
      this.locked := locked;
    }

    /** `os.path.isfile(p)` */
    predicate IsFile(p: Path)
      reads this
    {
      p in files
    }

    /** `os.path.exists(p)` */
    predicate Exists(p: Path)
      reads this
    {
      p in files || p in dirs
    }

    /** `os.remove(p)`; `ok` is false where it raises: `p` is not a regular
        file, or the system refuses. */
    method Remove(p: Path) returns (ok: bool)
      modifies this
      ensures ok <==> p in old(files) && p !in locked
      ensures files == if ok then old(files) - {p} else old(files)
      ensures dirs == old(dirs) && locked == old(locked)
    {
      ok := p in files && p !in locked;
      if ok {
        files := files - {p};
      }
    }

    /** `Path(d).mkdir(exist_ok=True)` */
    method MakeDir(d: Path)
      modifies this
      ensures dirs == old(dirs) + {d}
      ensures files == old(files) && locked == old(locked)
    {
      dirs := dirs + {d};
    }

    /** A download that writes a PDF at `p`, replacing any file there. */
    method Write(p: Path, pages: Pages)
      modifies this
      ensures files == old(files)[p := pages]
      ensures dirs == old(dirs) && locked == old(locked)
    {
      files := files[p := pages];
    }
  }

  /** The pages read from `path`: none when it is not a file (opening fails). */
  function PagesAt(files: map<Path, Pages>, path: Path): Pages {
    if path in files then files[path] else []
  }

  /** `_extract_text_from_pdf(path)` */
  method ExtractText(fs: FileSystem, path: Path) returns (text: string)
    ensures text == ExtractedText(PagesAt(fs.files, path))
  {
    var pages := PagesAt(fs.files, path);
    var chunks: seq<string> := [];
    var i := 0;
    while i < |pages|
      invariant 0 <= i <= |pages|
      invariant chunks == TextPages(pages[..i])
    {
      assert pages[..i + 1][..i] == pages[..i];
      if pages[i] != "" {
        chunks := chunks + [pages[i]];
      }
      i := i + 1;
    }
    assert pages[..|pages|] == pages;
    text := JoinLines(chunks);
  }

  // ---------------------------------------------------------------------
  // From staged paths to documents
  // ---------------------------------------------------------------------

  /** A document handed to the index, with its `source` and `filename` metadata. */
  datatype Document = Document(text: string, source: Path, filename: string)

  /** The document made from one staged path: none when the path is not a
      regular file or its extracted text is blank. */
  function DocumentFor(files: map<Path, Pages>, p: Path): Option<Document> {
    if p !in files || IsBlank(ExtractedText(files[p])) then None
    else Some(Document(ExtractedText(files[p]), p, Basename(p)))
  }

  /** The documents among a list of optional ones, in order. */
  function Present(opts: seq<Option<Document>>): (docs: seq<Document>)
    ensures |docs| <= |opts|
    ensures forall i | 0 <= i < |docs| :: Some(docs[i]) in opts
  {
    if opts == [] then []
    else
      var init := opts[..|opts| - 1];
      var last := opts[|opts| - 1];
      assert forall o | o in init :: o in opts;
      if last.None? then Present(init) else Present(init) + [last.value]
  }

  lemma {:induction false} PresentAppend(a: seq<Option<Document>>, b: seq<Option<Document>>)
    ensures Present(a + b) == Present(a) + Present(b)
  {
    if b == [] {
      assert a + b == a;
    } else {
      var b' := b[..|b| - 1];
      PresentAppend(a, b');
      assert (a + b)[..|a + b| - 1] == a + b';
      assert (a + b)[|a + b| - 1] == b[|b| - 1];
    }
  }

  lemma {:induction false} PresentEmpty(opts: seq<Option<Document>>)
    ensures Present(opts) == [] <==> forall i | 0 <= i < |opts| :: opts[i].None?
  {
    if opts != [] {
      var init := opts[..|opts| - 1];
      PresentEmpty(init);
      assert forall i | 0 <= i < |init| :: init[i] == opts[i];
    }
  }

  /** The document each staged path would make, in path order. */
  function Candidates(files: map<Path, Pages>, paths: seq<Path>): (r: seq<Option<Document>>)
    ensures |r| == |paths|
  {
    seq(|paths|, i requires 0 <= i < |paths| => DocumentFor(files, paths[i]))
  }

  /** The documents made from a list of staged paths, in path order. */
  function Documents(files: map<Path, Pages>, paths: seq<Path>): seq<Document> {
    Present(Candidates(files, paths))
  }

  /** Every document is made from an existing file of the list, carries the
      file's non-blank extracted text, its path as `source` and its basename
      as `filename`; there are at most as many documents as paths. */
  lemma DocumentMetadata(files: map<Path, Pages>, paths: seq<Path>, k: nat)
    requires k < |Documents(files, paths)|
    ensures |Documents(files, paths)| <= |paths|
    ensures var d := Documents(files, paths)[k];
      d.source in paths && d.source in files &&
      d.text == ExtractedText(files[d.source]) && !IsBlank(d.text) &&
      d.filename == Basename(d.source)
  {
    var cands := Candidates(files, paths);
    var d := Documents(files, paths)[k];
    assert Some(d) in cands;
    var i :| 0 <= i < |cands| && cands[i] == Some(d);
    assert DocumentFor(files, paths[i]) == Some(d);
  }

  /** The documents of a concatenation are those of each part in turn: the
      filter keeps the order of the paths. */
  lemma DocumentsAppend(files: map<Path, Pages>, a: seq<Path>, b: seq<Path>)
    ensures Documents(files, a + b) == Documents(files, a) + Documents(files, b)
  {
    var ca, cb, cab := Candidates(files, a), Candidates(files, b), Candidates(files, a + b);
    forall i | 0 <= i < |cab| ensures cab[i] == (ca + cb)[i] {
      if i < |a| {
        assert (a + b)[i] == a[i];
      } else {
        assert (a + b)[i] == b[i - |a|];
      }
    }
    assert cab == ca + cb;
    PresentAppend(ca, cb);
  }

  /** A path contributes a document exactly when it is a regular file with
      non-blank text: the documents list is empty exactly when no path does. */
  lemma DocumentsEmpty(files: map<Path, Pages>, paths: seq<Path>)
    ensures Documents(files, paths) == [] <==> forall i | 0 <= i < |paths| :: DocumentFor(files, paths[i]).None?
  {
    var cands := Candidates(files, paths);
    PresentEmpty(cands);
    forall i | 0 <= i < |paths| ensures cands[i].None? <==> DocumentFor(files, paths[i]).None? {
      assert cands[i] == DocumentFor(files, paths[i]);
    }
  }

  /** A path contributes no document exactly when it is not a regular file or
      every page of it is blank. */
  lemma NoDocumentFor(files: map<Path, Pages>, p: Path)
    ensures DocumentFor(files, p).None? <==> p !in files || forall i | 0 <= i < |files[p]| :: IsBlank(files[p][i])
  {
    if p in files {
      ExtractedTextBlank(files[p]);
    }
  }

  /** The loading loop of `build_vector_store_from_documents`. */
  method CollectDocuments(fs: FileSystem, paths: seq<Path>) returns (documents: seq<Document>)
    ensures documents == Documents(fs.files, paths)
  {
    documents := [];
    var i := 0;
    while i < |paths|
      invariant 0 <= i <= |paths|
      invariant documents == Documents(fs.files, paths[..i])
    {
      var p := paths[i];
      assert Candidates(fs.files, paths[..i + 1]) == Candidates(fs.files, paths[..i]) + [DocumentFor(fs.files, p)];
      if fs.IsFile(p) {
        var text := ExtractText(fs, p);
        if !IsBlank(text) {
          documents := documents + [Document(text, p, Basename(p))];
        }
      }
      i := i + 1;
    }
    assert paths[..|paths|] == paths;
  }

  // ---------------------------------------------------------------------
  // The build and its cleanup (`build_vector_store_from_documents`)
  // ---------------------------------------------------------------------

  /** The index build: true when chunking, embedding and persisting the given
      documents complete without raising. */
  type Indexer = seq<Document> -> bool

  /** The documents handed to the index build, or None when the function
      returns 1 first because a non-empty path list yielded no document. A
      missing or empty path list loads nothing and builds over no documents. */
  function IndexInput(files: map<Path, Pages>, pdfPaths: Option<seq<Path>>): Option<seq<Document>> {
    if pdfPaths.Some? && pdfPaths.value != [] then
      var docs := Documents(files, pdfPaths.value);
      if docs == [] then None else Some(docs)
    else Some([])
  }

  /** The status the build returns: 0 when the index was built and the
      cleanup loop ran, 1 otherwise. A missing path list reaches the cleanup
      loop only to fail iterating over None. */
  function BuildStatus(files: map<Path, Pages>, pdfPaths: Option<seq<Path>>, index: Indexer): (status: int)
    ensures status == 0 || status == 1
    ensures status == 0 ==> pdfPaths.Some?
  {
    match IndexInput(files, pdfPaths)
    case None => 1
    case Some(docs) => if index(docs) && pdfPaths.Some? then 0 else 1
  }

  /** The paths among `paths` whose removal the system allows. */
  function Removable(locked: set<Path>, paths: seq<Path>): set<Path> {
    set p | p in paths && p !in locked
  }

  /** The files after the build: on status 0, every listed path that is a file
      and not locked is gone; otherwise nothing changed. */
  function AfterBuild(files: map<Path, Pages>, locked: set<Path>, pdfPaths: Option<seq<Path>>, index: Indexer): (after: map<Path, Pages>)
    ensures forall p | p in after :: p in files && after[p] == files[p]
    ensures BuildStatus(files, pdfPaths, index) != 0 ==> after == files
    ensures BuildStatus(files, pdfPaths, index) == 0 ==>
      forall p | p in files :: p in after <==> p !in pdfPaths.value || p in locked
  {
    if BuildStatus(files, pdfPaths, index) == 0 then files - Removable(locked, pdfPaths.value) else files
  }

  /** A non-empty path list that yields no document fails with 1 and no file
      is removed. */
  lemma NoDocumentsFails(files: map<Path, Pages>, locked: set<Path>, paths: seq<Path>, index: Indexer)
    requires paths != []
    requires forall i | 0 <= i < |paths| :: paths[i] !in files || forall j | 0 <= j < |files[paths[i]]| :: IsBlank(files[paths[i]][j])
    ensures BuildStatus(files, Some(paths), index) == 1
    ensures AfterBuild(files, locked, Some(paths), index) == files
  {
    forall i | 0 <= i < |paths| ensures DocumentFor(files, paths[i]).None? {
      NoDocumentFor(files, paths[i]);
    }
    DocumentsEmpty(files, paths);
  }

  /** The build succeeds exactly when a path list is given, it is empty or
      some path in it is a file with non-blank text, and the index build over
      its documents completes. */
  lemma BuildSucceeds(files: map<Path, Pages>, pdfPaths: Option<seq<Path>>, index: Indexer)
    ensures BuildStatus(files, pdfPaths, index) == 0 <==>
      pdfPaths.Some? &&
      (pdfPaths.value == [] || exists i | 0 <= i < |pdfPaths.value| :: DocumentFor(files, pdfPaths.value[i]).Some?) &&
      index(Documents(files, pdfPaths.value))
  {
    if pdfPaths.Some? {
      var ps := pdfPaths.value;
      DocumentsEmpty(files, ps);
      if ps != [] {
        assert IndexInput(files, pdfPaths) == if Documents(files, ps) == [] then None else Some(Documents(files, ps));
      } else {
        assert IndexInput(files, pdfPaths) == Some([]);
        assert Documents(files, ps) == [];
      }
    }
  }

  /** The cleanup loop: every listed path that exists is removed, where the
      system allows it; a refused removal is skipped. */
  method RemoveStaged(fs: FileSystem, paths: seq<Path>)
    modifies fs
    ensures fs.files == old(fs.files) - Removable(old(fs.locked), paths)
    ensures fs.dirs == old(fs.dirs) && fs.locked == old(fs.locked)
  {
    var i := 0;
    while i < |paths|
      invariant 0 <= i <= |paths|
      invariant fs.files == old(fs.files) - Removable(fs.locked, paths[..i])
      invariant fs.dirs == old(fs.dirs) && fs.locked == old(fs.locked)
    {
      var p := paths[i];
      assert Removable(fs.locked, paths[..i + 1]) == Removable(fs.locked, paths[..i]) + (if p in fs.locked then {} else {p}) by {
        assert paths[..i + 1] == paths[..i] + [p];
      }
      if fs.Exists(p) {
        var _ := fs.Remove(p);
      }
      i := i + 1;
    }
    assert paths[..|paths|] == paths;
  }

  /** `build_vector_store_from_documents(pdf_paths)` */
  method BuildVectorStoreFromDocuments(fs: FileSystem, pdfPaths: Option<seq<Path>>, index: Indexer) returns (status: int)
    modifies fs
    ensures status == BuildStatus(old(fs.files), pdfPaths, index)
    ensures fs.files == AfterBuild(old(fs.files), old(fs.locked), pdfPaths, index)
    ensures fs.dirs == old(fs.dirs) && fs.locked == old(fs.locked)
  {
    var documents: seq<Document> := [];
    if pdfPaths.Some? && pdfPaths.value != [] {
      documents := CollectDocuments(fs, pdfPaths.value);
      if documents == [] {
        return 1;
      }
    }
    if !index(documents) {
      return 1;
    }
    if pdfPaths.None? {
      return 1;
    }
    RemoveStaged(fs, pdfPaths.value);
    return 0;
  }

  // ---------------------------------------------------------------------
  // The fetch tool (`fetch_paper_tool`)
  // ---------------------------------------------------------------------

  const DefaultCategory: string := "cs.AI"

  /** The number of results the search asks for. */
  const MaxResults: nat := 3

  /** The tool's argument model: the title to search and its category. */
  datatype IntentUse = IntentUse(title: string, category: string)

  /** The tool accepts the model itself or the dict of its fields. */
  datatype ToolArg = Model(intent: IntentUse) | Fields(fields: map<string, Value>)

  /** `IntentUse(**fields)`: "title" is required and must be a string;
      "category" must be a string when present and is "cs.AI" otherwise;
      other keys are ignored. */
  function ValidateIntentUse(fields: map<string, Value>): (r: Result<IntentUse>)
    ensures r.Err? ==> r.error == ValidationError
    ensures r.Ok? ==> "title" in fields && fields["title"] == StrV(r.value.title)
    ensures r.Ok? ==> Get(fields, "category", StrV(DefaultCategory)) == StrV(r.value.category)
  {
    if "title" !in fields || !fields["title"].StrV? then Err(ValidationError)
    else if "category" in fields && !fields["category"].StrV? then Err(ValidationError)
    else Ok(IntentUse(fields["title"].s, if "category" in fields then fields["category"].s else DefaultCategory))
  }

  function Resolve(arg: ToolArg): Result<IntentUse> {
    match arg
    case Model(intent) => Ok(intent)
    case Fields(fields) => ValidateIntentUse(fields)
  }

  /** Validation raises exactly when "title" is missing or not a string, or
      "category" is present and not a string. */
  lemma ValidationFails(fields: map<string, Value>)
    ensures ValidateIntentUse(fields).Err? <==>
      "title" !in fields || !fields["title"].StrV? ||
      ("category" in fields && !fields["category"].StrV?)
  {
  }

  /** Without a "category" field, the search is restricted to cs.AI. */
  lemma CategoryDefault(fields: map<string, Value>, title: string)
    requires "title" in fields && fields["title"] == StrV(title) && "category" !in fields
    ensures Resolve(Fields(fields)) == Ok(IntentUse(title, "cs.AI"))
    ensures SearchQuery(Resolve(Fields(fields)).value) == "ti:\"" + title + "\" AND cat:cs.AI"
  {
  }

  /** The arXiv query: an exact-title search within one category. */
  function SearchQuery(intent: IntentUse): (q: string)
    ensures |q| == |intent.title| + |intent.category| + 14
  {
    "ti:\"" + (intent.title + ("\"" + (" AND cat:" + intent.category)))
  }

  /** Reads a title and a category back from a query of the form SearchQuery builds. */
  function ParseSearchQuery(q: string): Option<IntentUse> {
    if |q| < 4 || q[..4] != "ti:\"" then None
    else
      var rest := q[4..];
      var k := FindFirst(rest, '"');
      if k < 0 then None
      else
        var tail := rest[k + 1..];
        if |tail| < 9 || tail[..9] != " AND cat:" then None
        else Some(IntentUse(rest[..k], tail[9..]))
  }

  /** Reading back a query written out piece by piece. */
  lemma ParseQuoted(t: string, c: string)
    requires '"' !in t
    ensures ParseSearchQuery("ti:\"" + (t + ("\"" + (" AND cat:" + c)))) == Some(IntentUse(t, c))
  {
    var tail := " AND cat:" + c;
    var rest := t + ("\"" + tail);
    var q := "ti:\"" + rest;
    assert q[..4] == "ti:\"" && q[4..] == rest;
    FindQuoteEnd(t, tail);
    assert tail[..9] == " AND cat:" && tail[9..] == c;
  }

  /** The query determines the title and the category, as long as the title
      holds no double quote (which would end the quoted title early). */
  lemma QueryRoundTrip(intent: IntentUse)
    requires '"' !in intent.title
    ensures ParseSearchQuery(SearchQuery(intent)) == Some(intent)
  {
    ParseQuoted(intent.title, intent.category);
  }

  /** A search result: its title and the page texts of its PDF once downloaded. */
  datatype Paper = Paper(title: string, pdf: Pages)

  /** The arXiv search: the results for a query, asking for at most the given number. */
  type Search = (string, nat) -> seq<Paper>

  /** Where a result is downloaded: `<dir>/<title>.pdf`. */
  function StagedPath(dir: Path, title: string): Path {
    PathJoin(dir, title + ".pdf")
  }

  function StagedPaths(dir: Path, results: seq<Paper>): seq<Path> {
    seq(|results|, i requires 0 <= i < |results| => StagedPath(dir, results[i].title))
  }

  function Titles(results: seq<Paper>): seq<string> {
    seq(|results|, i requires 0 <= i < |results| => results[i].title)
  }

  /** The files after downloading every result in order; a later result with
      the same staged path overwrites an earlier one. */
  function Downloaded(files: map<Path, Pages>, dir: Path, results: seq<Paper>): map<Path, Pages> {
    if results == [] then files
    else
      var last := results[|results| - 1];
      Downloaded(files, dir, results[..|results| - 1])[StagedPath(dir, last.title) := last.pdf]
  }

  /** A result whose staged path no later result shares is found at that
      path after the downloads. */
  lemma {:induction false} DownloadedAt(files: map<Path, Pages>, dir: Path, results: seq<Paper>, i: nat)
    requires i < |results|
    requires forall j | i < j < |results| :: StagedPath(dir, results[j].title) != StagedPath(dir, results[i].title)
    ensures StagedPath(dir, results[i].title) in Downloaded(files, dir, results)
    ensures Downloaded(files, dir, results)[StagedPath(dir, results[i].title)] == results[i].pdf
  {
    if i < |results| - 1 {
      var init := results[..|results| - 1];
      assert forall j | 0 <= j < |init| :: init[j] == results[j];
      DownloadedAt(files, dir, init, i);
    }
  }

  /** After the downloads, the staged path of a result with a title free of
      '/' and a staged path of its own yields the document carrying that
      result's text, with `<title>.pdf` as its filename, unless the result's
      text is blank. */
  lemma StagedDocument(files: map<Path, Pages>, dir: Path, results: seq<Paper>, i: nat)
    requires i < |results|
    requires '/' !in results[i].title
    requires forall j | 0 <= j < |results| && j != i :: StagedPath(dir, results[j].title) != StagedPath(dir, results[i].title)
    ensures var text := ExtractedText(results[i].pdf);
      DocumentFor(Downloaded(files, dir, results), StagedPaths(dir, results)[i])
      == if IsBlank(text) then None
         else Some(Document(text, StagedPath(dir, results[i].title), results[i].title + ".pdf"))
  {
    DownloadedAt(files, dir, results, i);
    assert '/' !in results[i].title + ".pdf";
    BasenameOfJoin(dir, results[i].title + ".pdf");
  }

  /** `fetch_paper_tool(intent)`: searches arXiv for the title within the
      category, returns None when nothing matches, and otherwise downloads
      every result into `docsDir`, builds the index over the staged files and
      returns the result titles in result order, whatever the build's status. */
  method FetchPaperTool(fs: FileSystem, arg: ToolArg, search: Search, docsDir: Path, index: Indexer)
    returns (r: Result<Option<seq<string>>>)
    modifies fs
    ensures fs.locked == old(fs.locked)
    ensures Resolve(arg).Err? ==>
      r == Err(Resolve(arg).error) && fs.files == old(fs.files) && fs.dirs == old(fs.dirs)
    ensures Resolve(arg).Ok? && search(SearchQuery(Resolve(arg).value), MaxResults) == [] ==>
      r == Ok(None) && fs.files == old(fs.files) && fs.dirs == old(fs.dirs)
    ensures Resolve(arg).Ok? && search(SearchQuery(Resolve(arg).value), MaxResults) != [] ==>
      var results := search(SearchQuery(Resolve(arg).value), MaxResults);
      r == Ok(Some(Titles(results))) &&
      fs.dirs == old(fs.dirs) + {docsDir} &&
      fs.files == AfterBuild(Downloaded(old(fs.files), docsDir, results), old(fs.locked), Some(StagedPaths(docsDir, results)), index)
  {
    var resolved := Resolve(arg);
    if resolved.Err? {
      return Err(resolved.error);
    }
    var intent := resolved.value;
    var query := SearchQuery(intent);
    var results := search(query, MaxResults);
    if results == [] {
      return Ok(None);
    }
    fs.MakeDir(docsDir);
    var response := DownloadAll(fs, docsDir, results);
    var _ := BuildVectorStoreFromDocuments(fs, Some(StagedPaths(docsDir, results)), index);
    return Ok(Some(response));
  }

  /** The download loop of `fetch_paper_tool`: every result, in order, is
      written to its staged path, and the titles are collected in order. */
  method DownloadAll(fs: FileSystem, docsDir: Path, results: seq<Paper>) returns (response: seq<string>)
    modifies fs
    ensures response == Titles(results)
    ensures fs.files == Downloaded(old(fs.files), docsDir, results)
    ensures fs.dirs == old(fs.dirs) && fs.locked == old(fs.locked)
  {
    response := [];
    var i := 0;
    while i < |results|
      invariant 0 <= i <= |results|
      invariant response == Titles(results[..i])
      invariant fs.files == Downloaded(old(fs.files), docsDir, results[..i])
      invariant fs.dirs == old(fs.dirs) && fs.locked == old(fs.locked)
    {
      assert results[..i + 1][..i] == results[..i];
      fs.Write(StagedPath(docsDir, results[i].title), results[i].pdf);
      response := response + [results[i].title];
      i := i + 1;
    }
    assert results[..|results|] == results;
  }
}
