/** The data-processing stage (`Data_Processing`): it extracts the contexts
    of a SQuAD file or the markdown chunks of a PDF for each uploaded file
    not yet processed, records them in the data context, and moves each
    processed file from the uploaded list to the processed list. File
    contents, PDF conversion and splitting are inputs; writing files is
    left out. */
module DataProcessing {
  import opened Values

  // ------------------------------------------------------------ SQuAD

  /** The contexts of a list of paragraphs: a paragraph without `context`
      is skipped (the KeyError is caught); one that is not an object raises. */
  function ParagraphContexts(ps: seq<Value>): Result<seq<Value>>
    decreases |ps|
  {
    if ps == [] then Ok([])
    else match ParagraphContexts(ps[..|ps| - 1])
      case Err(e) => Err(e)
      case Ok(cs) =>
        var p := ps[|ps| - 1];
        if !p.VDict? then Err("TypeError: paragraph is not an object")
        else if "context" in p.entries then Ok(cs + [p.entries["context"]])
        else Ok(cs)
  }

  /** `item['paragraphs']`, which must be a list; any other shape raises. */
  function Paragraphs(item: Value): (r: Result<seq<Value>>)
    ensures r.Ok? <==> item.VDict? && "paragraphs" in item.entries && item.entries["paragraphs"].VList?
  {
    if item.VDict? && "paragraphs" in item.entries && item.entries["paragraphs"].VList?
    then Ok(item.entries["paragraphs"].items)
    else Err("KeyError: 'paragraphs'")
  }

  /** The contexts of the `data` items, item by item. */
  function ItemContexts(items: seq<Value>): Result<seq<Value>>
    decreases |items|
  {
    if items == [] then Ok([])
    else match ItemContexts(items[..|items| - 1])
      case Err(e) => Err(e)
      case Ok(cs) =>
        match Paragraphs(items[|items| - 1])
        case Err(e) => Err(e)
        case Ok(ps) =>
          match ParagraphContexts(ps)
          case Err(e) => Err(e)
          case Ok(more) => Ok(cs + more)
  }

  /** Every context collected from a list of paragraphs, in order. */
  function SquadContexts(raw: Value): Result<seq<Value>> {
    if raw.VDict? && "data" in raw.entries && raw.entries["data"].VList?
    then ItemContexts(raw.entries["data"].items)
    else Err("KeyError: 'data'")
  }

  /** `extract_squad_document`: the distinct contexts, or the exception. */
  function SquadDocument(raw: Value): Result<seq<Value>> {
    match SquadContexts(raw)
    case Err(e) => Err(e)
    case Ok(cs) =>
      if forall x :: x in cs ==> Hashable(x) then Ok(FirstOccurrences(cs))
      else Err("TypeError: unhashable type")
  }

  /** A paragraph's context is collected exactly when the paragraph has one. */
  lemma {:induction false} ParagraphContextsMembers(ps: seq<Value>)
    requires ParagraphContexts(ps).Ok?
    ensures forall j :: 0 <= j < |ps| ==> ps[j].VDict?
    ensures forall x :: x in ParagraphContexts(ps).value <==>
      exists j :: 0 <= j < |ps| && "context" in ps[j].entries && ps[j].entries["context"] == x
    decreases |ps|
  {
    if ps != [] {
      var init := ps[..|ps| - 1];
      ParagraphContextsMembers(init);
      var p := ps[|ps| - 1];
      forall x ensures x in ParagraphContexts(ps).value <==>
        exists j :: 0 <= j < |ps| && "context" in ps[j].entries && ps[j].entries["context"] == x
      {
        if x in ParagraphContexts(ps).value {
          if x in ParagraphContexts(init).value {
            var j :| 0 <= j < |init| && "context" in init[j].entries && init[j].entries["context"] == x;
            assert ps[j] == init[j];
          } else {
            assert "context" in p.entries && p.entries["context"] == x;
          }
        }
        if exists j :: 0 <= j < |ps| && "context" in ps[j].entries && ps[j].entries["context"] == x {
          var j :| 0 <= j < |ps| && "context" in ps[j].entries && ps[j].entries["context"] == x;
          if j < |init| {
            assert init[j] == ps[j];
          }
        }
      }
    }
  }

  /** An item's contexts come from its own paragraphs. */
  lemma {:induction false} ItemContextsMembers(items: seq<Value>)
    requires ItemContexts(items).Ok?
    ensures forall i :: 0 <= i < |items| ==> Paragraphs(items[i]).Ok? && ParagraphContexts(Paragraphs(items[i]).value).Ok?
    ensures forall x :: x in ItemContexts(items).value <==>
      exists i :: 0 <= i < |items| && x in ParagraphContexts(Paragraphs(items[i]).value).value
    decreases |items|
  {
    if items != [] {
      var init := items[..|items| - 1];
      ItemContextsMembers(init);
      var last := items[|items| - 1];
      assert forall i :: 0 <= i < |init| ==> items[i] == init[i];
      forall x ensures x in ItemContexts(items).value <==>
        exists i :: 0 <= i < |items| && x in ParagraphContexts(Paragraphs(items[i]).value).value
      {
        if x in ItemContexts(items).value && x !in ItemContexts(init).value {
          assert x in ParagraphContexts(Paragraphs(items[|items| - 1]).value).value;
        }
        if exists i :: 0 <= i < |items| && x in ParagraphContexts(Paragraphs(items[i]).value).value {
          var i :| 0 <= i < |items| && x in ParagraphContexts(Paragraphs(items[i]).value).value;
          if i < |init| {
            assert init[i] == items[i];
          }
        }
      }
    }
  }

  /** The extracted document holds each context of the file exactly once,
      and nothing else: an element is in it exactly when some item's
      paragraph has it as its context. */
  lemma SquadDocumentContexts(raw: Value)
    requires SquadDocument(raw).Ok?
    ensures NoDuplicates(SquadDocument(raw).value)
    ensures forall x :: x in SquadDocument(raw).value <==>
      exists i :: 0 <= i < |raw.entries["data"].items| && Paragraphs(raw.entries["data"].items[i]).Ok? &&
        ParagraphContexts(Paragraphs(raw.entries["data"].items[i]).value).Ok? &&
        x in ParagraphContexts(Paragraphs(raw.entries["data"].items[i]).value).value
  {
    var cs := SquadContexts(raw).value;
    FirstOccurrencesMembers(cs);
    ItemContextsMembers(raw.entries["data"].items);
  }

  /** The inner loop over one item's paragraphs. */
  method CollectContexts(ps: seq<Value>) returns (r: Result<seq<Value>>)
    ensures r == ParagraphContexts(ps)
  {
    var contexts: seq<Value> := [];
    var j := 0;
    while j < |ps|
      invariant 0 <= j <= |ps|
      invariant ParagraphContexts(ps[..j]) == Ok(contexts)
    {
      assert ps[..j + 1][..j] == ps[..j];
      var p := ps[j];
      if !p.VDict? {
        ParagraphContextsErrStays(ps, j + 1);
        return Err("TypeError: paragraph is not an object");
      }
      if "context" in p.entries {
        contexts := contexts + [p.entries["context"]];
      }
      j := j + 1;
    }
    assert ps[..j] == ps;
    r := Ok(contexts);
  }

  /** `extract_squad_document` as the nested loops compute it. */
  method ExtractSquadDocument(raw: Value) returns (r: Result<seq<Value>>)
    ensures r == SquadDocument(raw)
  {
    if !(raw.VDict? && "data" in raw.entries && raw.entries["data"].VList?) {
      return Err("KeyError: 'data'");
    }
    var items := raw.entries["data"].items;
    var document: seq<Value> := [];
    var i := 0;
    while i < |items|
      invariant 0 <= i <= |items|
      invariant ItemContexts(items[..i]) == Ok(document)
    {
      assert items[..i + 1][..i] == items[..i];
      var paragraphs := Paragraphs(items[i]);
      if paragraphs.Err? {
        ItemContextsErrStays(items, i + 1);
        return Err(paragraphs.error);
      }
      var contexts := CollectContexts(paragraphs.value);
      if contexts.Err? {
        ItemContextsErrStays(items, i + 1);
        return Err(contexts.error);
      }
      document := document + contexts.value;
      i := i + 1;
    }
    assert items[..i] == items;
    r := Distinct(document);
  }

  /** Once the paragraphs so far raise, so does the whole list. */
  lemma {:induction false} ParagraphContextsErrStays(ps: seq<Value>, n: nat)
    requires n <= |ps| && ParagraphContexts(ps[..n]).Err?
    ensures ParagraphContexts(ps) == ParagraphContexts(ps[..n])
    decreases |ps| - n
  {
    if n < |ps| {
      assert ps[..n + 1][..n] == ps[..n];
      ParagraphContextsErrStays(ps, n + 1);
    } else {
      assert ps[..n] == ps;
    }
  }

  /** Once the items so far raise, so does the whole list. */
  lemma {:induction false} ItemContextsErrStays(items: seq<Value>, n: nat)
    requires n <= |items| && ItemContexts(items[..n]).Err?
    ensures ItemContexts(items) == ItemContexts(items[..n])
    decreases |items| - n
  {
    if n < |items| {
      assert items[..n + 1][..n] == items[..n];
      ItemContextsErrStays(items, n + 1);
    } else {
      assert items[..n] == items;
    }
  }

  // ------------------------------------------------------------ files

  /** `s.endswith(suffix)` */
  predicate EndsWith(s: string, suffix: string) {
    |suffix| <= |s| && s[|s| - |suffix|..] == suffix
  }

  function PdfPath(file: string): string {
    "dags/data/pdf/" + file
  }

  /** The two lists of the config file; None when the key is missing. */
  datatype Config = Config(uploadedFiles: Option<seq<string>>, fileList: Option<seq<string>>)

  /** What the stage reads from outside: the SQuAD file as decoded JSON
      (None when it cannot be read), which PDF paths exist, and the chunks
      the PDF conversion and splitting give for a path (both catch their
      own failures and answer "" and [], so every path has chunks). */
  datatype Env = Env(squad: Option<Value>, pdfExists: string -> bool, pdfChunks: string -> seq<Value>)

  /** The stage's state: the config and the data context. */
  datatype Store = Store(config: Config, dataContext: map<string, seq<Value>>)

  /** The state after some files, and whether an exception ended the loop. */
  datatype Progress = Progress(store: Store, raised: bool)

  /** The document a file yields: an exception, nothing (the file is not
      marked processed), or a non-empty document. */
  function Document(file: string, env: Env): Result<Option<seq<Value>>> {
    if file == "squad.json" then
      match env.squad
      case None => Err("cannot read dags/data/squad.json")
      case Some(raw) =>
        match SquadDocument(raw)
        case Err(e) => Err(e)
        case Ok(doc) => Ok(if doc == [] then None else Some(doc))
    else if EndsWith(file, ".pdf") then
      if !env.pdfExists(PdfPath(file)) then Ok(None)
      else
        var chunks := env.pdfChunks(PdfPath(file));
        Ok(if chunks == [] then None else Some(chunks))
    else Ok(None)
  }

  /** The documents of all files, as the loop's specification sees them. */
  type Documents = string -> Result<Option<seq<Value>>>

  function DocumentsOf(env: Env): Documents {
    file => Document(file, env)
  }

  /** `xs.remove(x)`: the first occurrence goes. */
  function RemoveFirst(xs: seq<string>, x: string): (r: seq<string>)
    ensures x in xs ==> multiset(r) == multiset(xs) - multiset{x}
    ensures x !in xs ==> r == xs
  {
    if xs == [] then []
    else
      assert xs == [xs[0]] + xs[1..];
      if xs[0] == x then xs[1..]
      else [xs[0]] + RemoveFirst(xs[1..], x)
  }

  /** One pass of the loop body: a file with a document is saved into the
      data context, appended to `file_list` and removed from
      `uploaded_files`; a missing key raises (after the save). */
  function StepFile(st: Store, file: string, docs: Documents): Progress {
    match docs(file)
    case Err(_) => Progress(st, true)
    case Ok(None) => Progress(st, false)
    case Ok(Some(doc)) =>
      var saved := st.(dataContext := st.dataContext[file := doc]);
      if st.config.fileList.None? then Progress(saved, true)
      else
        var appended := saved.(config := saved.config.(fileList := Some(st.config.fileList.value + [file])));
        if st.config.uploadedFiles.None? || file !in st.config.uploadedFiles.value then Progress(appended, true)
        else Progress(appended.(config := appended.config.(uploadedFiles :=
                        Some(RemoveFirst(st.config.uploadedFiles.value, file)))), false)
  }

  /** The loop over `files`: it stops at the first exception. */
  function StepFiles(st: Store, files: seq<string>, docs: Documents): Progress
    decreases |files|
  {
    if files == [] then Progress(st, false)
    else
      var p := StepFiles(st, files[..|files| - 1], docs);
      if p.raised then p else StepFile(p.store, files[|files| - 1], docs)
  }

  /** The files to process: the uploaded ones not yet in `file_list`, in
      upload order. */
  function Pending(uploaded: seq<string>, processed: seq<string>): (r: seq<string>)
    ensures forall x :: x in r <==> x in uploaded && x !in processed
    ensures multiset(r) <= multiset(uploaded)
    decreases |uploaded|
  {
    if uploaded == [] then []
    else
      var init := uploaded[..|uploaded| - 1];
      var last := uploaded[|uploaded| - 1];
      assert uploaded == init + [last];
      Pending(init, processed) + (if last in processed then [] else [last])
  }

  /** The files a run moves: those with a document, in loop order. */
  function Moved(files: seq<string>, docs: Documents): (r: seq<string>)
    ensures multiset(r) <= multiset(files)
    decreases |files|
  {
    if files == [] then []
    else
      var init := files[..|files| - 1];
      var last := files[|files| - 1];
      assert files == init + [last];
      Moved(init, docs) + (if docs(last).Ok? && docs(last).value.Some? then [last] else [])
  }

  /** A PDF that does not exist is skipped and changes nothing. */
  lemma MissingPdfIsSkipped(st: Store, file: string, env: Env)
    requires EndsWith(file, ".pdf") && !env.pdfExists(PdfPath(file))
    ensures StepFile(st, file, DocumentsOf(env)) == Progress(st, false)
  {
  }

  /** A file that is neither the SQuAD file nor a PDF is never processed. */
  lemma OtherFilesAreNeverProcessed(st: Store, file: string, env: Env)
    requires file != "squad.json" && !EndsWith(file, ".pdf")
    ensures StepFile(st, file, DocumentsOf(env)) == Progress(st, false)
  {
  }

  /** A processed file is recorded under its name and moves: appended to
      `file_list`, one occurrence removed from `uploaded_files`. */
  lemma ProcessedFileMoves(st: Store, file: string, docs: Documents, u: seq<string>, fl: seq<string>)
    requires docs(file).Ok? && docs(file).value.Some?
    requires st.config == Config(Some(u), Some(fl)) && file in u
    ensures var p := StepFile(st, file, docs);
      !p.raised && p.store.dataContext == st.dataContext[file := docs(file).value.value]
      && p.store.config.fileList == Some(fl + [file]) && p.store.config.uploadedFiles.Some?
      && multiset(p.store.config.uploadedFiles.value) == multiset(u) - multiset{file}
  {
  }

  /** The loop's accounting: with both lists present and no exception
      from reading a document, every file the loop reaches is still in
      `uploaded_files`, so the loop runs to the end; the moved files are
      appended to `file_list` and taken out of `uploaded_files`, one
      occurrence each. */
  lemma {:induction false} StepFilesMoves(st: Store, files: seq<string>, docs: Documents)
    requires st.config.uploadedFiles.Some? && st.config.fileList.Some?
    requires multiset(files) <= multiset(st.config.uploadedFiles.value)
    requires forall f :: f in files ==> docs(f).Ok?
    ensures var p := StepFiles(st, files, docs);
      !p.raised && p.store.config.fileList == Some(st.config.fileList.value + Moved(files, docs))
      && p.store.config.uploadedFiles.Some?
      && multiset(p.store.config.uploadedFiles.value) == multiset(st.config.uploadedFiles.value) - multiset(Moved(files, docs))
    decreases |files|
  {
    var u := st.config.uploadedFiles.value;
    var fl := st.config.fileList.value;
    if files == [] {
      assert fl + [] == fl;
    } else {
      var init := files[..|files| - 1];
      var last := files[|files| - 1];
      assert files == init + [last];
      SubmultisetOfPrefix(files, u);
      StepFilesMoves(st, init, docs);
      var p := StepFiles(st, init, docs);
      var moved := Moved(init, docs);
      if docs(last).value.Some? {
        StillUploaded(u, p.store.config.uploadedFiles.value, moved, init, last);
      }
      MoveStep(p.store, last, docs, fl, u, moved);
    }
  }

  /** One turn of the loop in `StepFilesMoves`' accounting. */
  lemma MoveStep(s: Store, last: string, docs: Documents, fl: seq<string>, u: seq<string>, moved: seq<string>)
    requires docs(last).Ok?
    requires s.config.fileList == Some(fl + moved) && s.config.uploadedFiles.Some?
    requires multiset(s.config.uploadedFiles.value) == multiset(u) - multiset(moved)
    requires docs(last).value.Some? ==> last in s.config.uploadedFiles.value
    ensures var q := StepFile(s, last, docs);
      var moved' := moved + (if docs(last).value.Some? then [last] else []);
      !q.raised && q.store.config.fileList == Some(fl + moved') && q.store.config.uploadedFiles.Some?
      && multiset(q.store.config.uploadedFiles.value) == multiset(u) - multiset(moved')
  {
    if docs(last).value.Some? {
      assert fl + moved + [last] == fl + (moved + [last]);
      assert multiset(moved + [last]) == multiset(moved) + multiset{last};
    } else {
      assert moved + [] == moved;
    }
  }

  /** Dropping the last element keeps a sub-multiset. */
  lemma SubmultisetOfPrefix(files: seq<string>, u: seq<string>)
    requires files != [] && multiset(files) <= multiset(u)
    ensures multiset(files[..|files| - 1]) <= multiset(u)
  {
    assert files == files[..|files| - 1] + [files[|files| - 1]];
    assert multiset(files) == multiset(files[..|files| - 1]) + multiset{files[|files| - 1]};
  }

  /** The counting step of `StepFilesMoves`: a file that occurs once more
      in the loop than among the files moved so far is still uploaded. */
  lemma StillUploaded(u: seq<string>, u': seq<string>, moved: seq<string>, init: seq<string>, last: string)
    requires multiset(u') == multiset(u) - multiset(moved)
    requires multiset(moved) <= multiset(init)
    requires multiset(init + [last]) <= multiset(u)
    ensures last in u'
  {
    assert multiset(init + [last])[last] == multiset(init)[last] + 1;
    assert multiset(u')[last] == multiset(u)[last] - multiset(moved)[last];
  }

  /** Keys of the data context that name no file of the run are left as
      they were. */
  lemma {:induction false} StepFilesKeepsOtherContexts(st: Store, files: seq<string>, docs: Documents, k: string)
    requires k !in files
    ensures var p := StepFiles(st, files, docs);
      (k in p.store.dataContext <==> k in st.dataContext)
      && (k in st.dataContext ==> p.store.dataContext[k] == st.dataContext[k])
    decreases |files|
  {
    if files != [] {
      StepFilesKeepsOtherContexts(st, files[..|files| - 1], docs, k);
    }
  }

  /** The loop over a prefix one element longer takes one more turn. */
  lemma StepFilesSnoc(st: Store, files: seq<string>, docs: Documents, n: nat)
    requires n < |files|
    ensures var p := StepFiles(st, files[..n], docs);
      StepFiles(st, files[..n + 1], docs) == if p.raised then p else StepFile(p.store, files[n], docs)
  {
    assert files[..n + 1][..n] == files[..n];
  }

  /** After an exception the rest of the files are not looked at. */
  lemma {:induction false} RaisedStays(st: Store, files: seq<string>, docs: Documents, n: nat)
    requires n <= |files| && StepFiles(st, files[..n], docs).raised
    ensures StepFiles(st, files, docs) == StepFiles(st, files[..n], docs)
    decreases |files| - n
  {
    if n < |files| {
      assert files[..n + 1][..n] == files[..n];
      RaisedStays(st, files, docs, n + 1);
    } else {
      assert files[..n] == files;
    }
  }

  /** `Data_Processing` with the config and data context it loaded.
      `self.uploaded_files` and `self.file_list` are the config's own lists
      (the same objects), or fresh empty lists when a key is missing, which
      nothing ever changes; both are read off the config here. */
  class DataProcessor {
    var config: Config
    var dataContext: map<string, seq<Value>>

    function UploadedFiles(): seq<string>
      reads this
    {
      config.uploadedFiles.GetOr([])
    }

    function FileList(): seq<string>
      reads this
    {
      config.fileList.GetOr([])
    }

    /** `__init__`: when either file cannot be loaded, the config and the
        data context start empty (and so do both lists). */
    constructor (loadedConfig: Option<Config>, loadedContext: Option<map<string, seq<Value>>>)
      ensures loadedConfig.Some? && loadedContext.Some? ==> config == loadedConfig.value && dataContext == loadedContext.value
      ensures !(loadedConfig.Some? && loadedContext.Some?) ==>
        config == Config(None, None) && dataContext == map[] && UploadedFiles() == [] && FileList() == []
    {
      if loadedConfig.Some? && loadedContext.Some? {
        config := loadedConfig.value;
        dataContext := loadedContext.value;
      } else {
        config := Config(None, None);
        dataContext := map[];
      }
    }

    /** `save_file`: a SQuAD or PDF document is recorded under the file's
        name, every other key is kept; writing the file is left out. */
    method SaveFile(file: string, document: seq<Value>)
      modifies this
      ensures config == old(config)
      ensures dataContext == if file == "squad.json" || EndsWith(file, ".pdf")
                             then old(dataContext)[file := document] else old(dataContext)
    {
      if file == "squad.json" || EndsWith(file, ".pdf") {
        dataContext := dataContext[file := document];
      }
    }

    /** One pass of the loop body. */
    method ProcessFile(file: string, env: Env) returns (raised: bool)
      modifies this
      ensures Store(config, dataContext) == StepFile(old(Store(config, dataContext)), file, DocumentsOf(env)).store
      ensures raised == StepFile(old(Store(config, dataContext)), file, DocumentsOf(env)).raised
    {
      var success := false;
      if file == "squad.json" {
        if env.squad.None? {
          return true;
        }
        var document := ExtractSquadDocument(env.squad.value);
        if document.Err? {
          return true;
        }
        if document.value != [] {
          success := true;
          SaveFile(file, document.value);
        }
      } else if EndsWith(file, ".pdf") {
        if !env.pdfExists(PdfPath(file)) {
          return false;
        }
        var chunks := env.pdfChunks(PdfPath(file));
        if chunks != [] {
          success := true;
          SaveFile(file, chunks);
        }
      }
      if success {
        if config.fileList.None? {
          return true;
        }
        config := config.(fileList := Some(config.fileList.value + [file]));
        if config.uploadedFiles.None? || file !in config.uploadedFiles.value {
          return true;
        }
        config := config.(uploadedFiles := Some(RemoveFirst(config.uploadedFiles.value, file)));
      }
      raised := false;
    }

    /** `data_processing`: the loop over the pending files, which an
        exception ends; the `finally` clause makes every run answer
        "Data processing completed.". */
    method Process(env: Env) returns (message: string)
      modifies this
      ensures message == "Data processing completed."
      ensures Store(config, dataContext) ==
        StepFiles(old(Store(config, dataContext)), Pending(old(UploadedFiles()), old(FileList())), DocumentsOf(env)).store
    {
      var start := Store(config, dataContext);
      var files := Pending(UploadedFiles(), FileList());
      ghost var docs := DocumentsOf(env);
      var i := 0;
      while i < |files|
        invariant 0 <= i <= |files|
        invariant !StepFiles(start, files[..i], docs).raised
        invariant Store(config, dataContext) == StepFiles(start, files[..i], docs).store
      {
        StepFilesSnoc(start, files, docs, i);
        var raised := ProcessFile(files[i], env);
        if raised {
          RaisedStays(start, files, docs, i + 1);
          return "Data processing completed.";
        }
        i := i + 1;
      }
      assert files[..i] == files;
      message := "Data processing completed.";
    }
  }

  /** A run over loaded lists that reads every document without an
      exception moves exactly the pending files that yield a document. */
  lemma ProcessMovesPending(st: Store, env: Env)
    requires st.config.uploadedFiles.Some? && st.config.fileList.Some?
    requires forall f :: f in st.config.uploadedFiles.value ==> Document(f, env).Ok?
    ensures var files := Pending(st.config.uploadedFiles.value, st.config.fileList.value);
      var p := StepFiles(st, files, DocumentsOf(env));
      !p.raised && p.store.config.fileList == Some(st.config.fileList.value + Moved(files, DocumentsOf(env)))
      && p.store.config.uploadedFiles.Some?
      && multiset(p.store.config.uploadedFiles.value) ==
         multiset(st.config.uploadedFiles.value) - multiset(Moved(files, DocumentsOf(env)))
  {
    var files := Pending(st.config.uploadedFiles.value, st.config.fileList.value);
    assert forall f :: f in files ==> DocumentsOf(env)(f).Ok?;
    StepFilesMoves(st, files, DocumentsOf(env));
  }
}
