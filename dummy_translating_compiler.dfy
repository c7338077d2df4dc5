/** The placeholder translator: it accepts files named `*.dummy`, copies each
    one into its module's output directory as `*.java`, and reports what it
    produced. The IDE's module lookup and the file copy are oracles. */
module DummyTranslatingCompiler {
  import opened Wrappers
  import opened Paths

  const Description: string := "DUMMY TRANSLATOR"
  const FiletypeExtension: string := ".dummy"
  const TargetExtension: string := ".java"

  /** A file of the IDE's virtual file system: its name and its full path. */
  datatype VirtualFile = VirtualFile(name: Name, path: string)

  /** A produced artifact: the output root, the artifact's path relative to
      that root, and the source file it was produced from. */
  datatype OutputItem = OutputItem(outputRootDirectory: string, outputPath: string, sourceFile: VirtualFile)

  datatype MessageCategory = Error | Warning | Information | Statistics

  datatype CompilerMessage = CompilerMessage(
    category: MessageCategory, message: string, url: Option<string>, lineNum: int, columnNum: int)

  /** What copying a source path to a destination path does: it succeeds, or
      it raises an IOException with a message. */
  datatype CopyOutcome = Copied | CopyFailed(message: string)

  type FileCopier = (string, string) -> CopyOutcome

  /** The scope a build runs over. */
  datatype CompileScope = CompileScope(files: seq<VirtualFile>)

  /** The result of one `compile` call. */
  datatype ExitStatus = ExitStatus(successfullyCompiled: seq<OutputItem>) {
    function GetSuccessfullyCompiled(): seq<OutputItem> { successfullyCompiled }
    /** Nothing is ever queued for another round, failed files included. */
    function GetFilesToRecompile(): (r: seq<VirtualFile>)
      ensures |r| == 0
    {
      []
    }
  }

  /** The build's context: its module-to-output-directory lookup (`None` when
      the module has no output directory) and the messages reported to it. */
  class CompileContext {
    const outputDirectoryOf: VirtualFile -> Option<string>
    var messages: seq<CompilerMessage>

    constructor (outputDirectoryOf: VirtualFile -> Option<string>)
      ensures this.outputDirectoryOf == outputDirectoryOf
      ensures messages == []
    {
      this.outputDirectoryOf := outputDirectoryOf;
      messages := [];
    }

    method AddMessage(category: MessageCategory, message: string, url: Option<string>, lineNum: int, columnNum: int)
      modifies this
      ensures messages == old(messages) + [CompilerMessage(category, message, url, lineNum, columnNum)]
    {
      messages := messages + [CompilerMessage(category, message, url, lineNum, columnNum)];
    }
  }

  predicate IsCompilableName(name: string)
  {
    EndsWith(name, FiletypeExtension)
  }

  /** A file is compilable exactly when its name ends in ".dummy"; the
      context plays no part. */
  predicate IsCompilableFile(file: VirtualFile, context: CompileContext)
    ensures IsCompilableFile(file, context) <==>
      |FiletypeExtension| <= |file.name| &&
      file.name == file.name[..|file.name| - |FiletypeExtension|] + FiletypeExtension
  {
    IsCompilableName(file.name)
  }

  lemma IsCompilableFileDependsOnNameOnly(f: VirtualFile, g: VirtualFile, c: CompileContext, d: CompileContext)
    requires f.name == g.name
    ensures IsCompilableFile(f, c) == IsCompilableFile(g, d)
  {
  }

  /** Every name of the form base + ".dummy" is compilable, and its compiled
      name is that base. */
  lemma SuffixedNameIsCompilable(base: Name)
    ensures IsCompilableName(base + FiletypeExtension)
    ensures CompiledName(base + FiletypeExtension) == base
  {
    EndsWithAppended(base, FiletypeExtension);
  }

  /** A name that does not end in ".dummy" is not of the form base + ".dummy". */
  lemma UnsuffixedNameIsNotCompilable(name: string, base: string)
    requires !IsCompilableName(name)
    ensures name != base + FiletypeExtension
  {
    if name == base + FiletypeExtension {
      EndsWithAppended(base, FiletypeExtension);
    }
  }

  /** The name with its ".dummy" suffix stripped. */
  function CompiledName(name: Name): (base: Name)
    requires IsCompilableName(name)
    ensures base + FiletypeExtension == name
    ensures |base| == |name| - |FiletypeExtension|
  {
    EndsWithSplits(name, FiletypeExtension);
    var base := name[..|name| - |FiletypeExtension|];
    assert forall k :: 0 <= k < |base| ==> base[k] == name[k];
    base
  }

  /** Where the copy of `name` goes in the output directory: the stripped name
      plus ".java", directly under that directory. */
  function DestinationPath(outputDirPath: string, name: Name): (dest: string)
    requires IsCompilableName(name)
    ensures |Directory(outputDirPath)| + 1 <= |dest|
    ensures |outputDirPath| + |TargetExtension| <= |dest|
    ensures RelativePath(outputDirPath, dest) == CompiledName(name) + TargetExtension
    ensures dest == Directory(outputDirPath) + [Separator] + CompiledName(name) + TargetExtension
  {
    var child: Name := CompiledName(name) + TargetExtension;
    RelativePathOfJoin(outputDirPath, child);
    Join(outputDirPath, child)
  }

  /** The relative path the translator records for the copy of `name`, as
      written: the destination path minus the output-directory path and one
      more character. Under an output root without a trailing separator it is
      `base.java`, and root, "/" and it make up the destination; under a root
      that ends in a separator ("/") it is `base.java` minus its first
      character. */
  function ItemPath(outputDirPath: string, name: Name): (p: string)
    requires IsCompilableName(name)
    ensures !EndsWith(outputDirPath, [Separator]) ==>
      && p == CompiledName(name) + TargetExtension
      && outputDirPath + [Separator] + p == DestinationPath(outputDirPath, name)
    ensures EndsWith(outputDirPath, [Separator]) ==> p == (CompiledName(name) + TargetExtension)[1..]
  {
    var child: Name := CompiledName(name) + TargetExtension;
    assert DestinationPath(outputDirPath, name) == Join(outputDirPath, child);
    if EndsWith(outputDirPath, [Separator]) then
      RelativePathAsWrittenWithTrailingSeparator(outputDirPath, child);
      RelativePathAsWritten(outputDirPath, DestinationPath(outputDirPath, name))
    else
      RelativePathAsWrittenWithoutTrailingSeparator(outputDirPath, child);
      RelativePathAsWritten(outputDirPath, DestinationPath(outputDirPath, name))
  }

  /** The intended relative path, the corrected one, is `base.java` under
      every output root; the path as written agrees with it exactly when the
      root does not end in a separator. */
  lemma ItemPathIsIntendedUnlessRootEndsInSeparator(outputDirPath: string, name: Name)
    requires IsCompilableName(name)
    ensures RelativePath(outputDirPath, DestinationPath(outputDirPath, name)) == CompiledName(name) + TargetExtension
    ensures ItemPath(outputDirPath, name) == RelativePath(outputDirPath, DestinationPath(outputDirPath, name))
        <==> !EndsWith(outputDirPath, [Separator])
  {
    var child := CompiledName(name) + TargetExtension;
    if EndsWith(outputDirPath, [Separator]) {
      assert |child[1..]| < |child|;
    }
  }

  /** The destination's relative path, with ".java" swapped back for
      ".dummy", is the source name: renaming loses nothing. */
  lemma DestinationNameRestoresSourceName(outputDirPath: string, name: Name)
    requires IsCompilableName(name)
    ensures var rel := RelativePath(outputDirPath, DestinationPath(outputDirPath, name));
      |rel| >= |TargetExtension| &&
      rel[|rel| - |TargetExtension|..] == TargetExtension &&
      rel[..|rel| - |TargetExtension|] + FiletypeExtension == name
  {
    var rel := RelativePath(outputDirPath, DestinationPath(outputDirPath, name));
    var base := CompiledName(name);
    assert rel == base + TargetExtension;
    assert rel[..|rel| - |TargetExtension|] == base;
    assert rel[|rel| - |TargetExtension|..] == TargetExtension;
  }

  /** `doCompile`: copy the source to its destination; the destination path
      on success, the IOException's message otherwise. */
  function DoCompile(outputDirPath: string, src: VirtualFile, copy: FileCopier): (r: Result<string, string>)
    requires IsCompilableName(src.name)
    ensures r.Success? <==> copy(src.path, DestinationPath(outputDirPath, src.name)).Copied?
    ensures r.Success? ==> r.value == DestinationPath(outputDirPath, src.name)
    ensures r.Failure? ==> r.error == copy(src.path, DestinationPath(outputDirPath, src.name)).message
  {
    var dest := DestinationPath(outputDirPath, src.name);
    match copy(src.path, dest)
    case Copied => Success(dest)
    case CopyFailed(message) => Failure(message)
  }

  /** What the batch loop does with one file. */
  datatype Step = Skipped | Produced(compiledFile: string, item: OutputItem) | Failed(message: CompilerMessage)

  /** The three ways one file is handled: no output directory, a successful
      copy, a failed one. */
  function ProcessFile(outputDirectoryOf: VirtualFile -> Option<string>, copy: FileCopier, file: VirtualFile): (s: Step)
    requires IsCompilableName(file.name)
    ensures s.Skipped? <==> outputDirectoryOf(file).None?
    ensures s.Produced? <==> Succeeds(outputDirectoryOf, copy, file)
    ensures s.Failed? <==> Fails(outputDirectoryOf, copy, file)
    ensures s.Produced? ==>
      && s.item.sourceFile == file
      && s.item.outputRootDirectory == outputDirectoryOf(file).value
      && s.item.outputPath == ItemPath(s.item.outputRootDirectory, file.name)
      && s.compiledFile == DestinationPath(s.item.outputRootDirectory, file.name)
    ensures s.Failed? ==>
      s.message == CompilerMessage(Error, copy(file.path, DestinationPath(outputDirectoryOf(file).value, file.name)).message, None, 0, 0)
  {
    match outputDirectoryOf(file)
    case None => Skipped
    case Some(outputDirPath) =>
      match DoCompile(outputDirPath, file, copy)
      case Success(compiledFile) =>
        Produced(compiledFile, OutputItem(outputDirPath, RelativePathAsWritten(outputDirPath, compiledFile), file))
      case Failure(message) =>
        Failed(CompilerMessage(Error, message, None, 0, 0))
  }

  /** The file has an output directory and its copy succeeds. */
  predicate Succeeds(outputDirectoryOf: VirtualFile -> Option<string>, copy: FileCopier, file: VirtualFile)
  {
    && IsCompilableName(file.name)
    && outputDirectoryOf(file).Some?
    && copy(file.path, DestinationPath(outputDirectoryOf(file).value, file.name)).Copied?
  }

  /** The file has an output directory and its copy raises an IOException. */
  predicate Fails(outputDirectoryOf: VirtualFile -> Option<string>, copy: FileCopier, file: VirtualFile)
  {
    && IsCompilableName(file.name)
    && outputDirectoryOf(file).Some?
    && copy(file.path, DestinationPath(outputDirectoryOf(file).value, file.name)).CopyFailed?
  }

  /** What the batch loop has accumulated: output items, files to refresh and
      the messages it reported. */
  datatype Batch = Batch(items: seq<OutputItem>, filesToRefresh: seq<string>, messages: seq<CompilerMessage>)

  function Record(b: Batch, s: Step): Batch
  {
    match s
    case Skipped => b
    case Produced(compiledFile, item) => Batch(b.items + [item], b.filesToRefresh + [compiledFile], b.messages)
    case Failed(message) => Batch(b.items, b.filesToRefresh, b.messages + [message])
  }

  function Concat(b: Batch, c: Batch): Batch
  {
    Batch(b.items + c.items, b.filesToRefresh + c.filesToRefresh, b.messages + c.messages)
  }

  predicate AllCompilable(files: seq<VirtualFile>)
  {
    forall f :: f in files ==> IsCompilableName(f.name)
  }

  /** The batch loop over `files`, in order, as a fold. */
  function RunBatch(outputDirectoryOf: VirtualFile -> Option<string>, copy: FileCopier, files: seq<VirtualFile>): (b: Batch)
    requires AllCompilable(files)
    ensures |b.items| == |b.filesToRefresh|
    ensures |b.items| + |b.messages| <= |files|
    decreases |files|
  {
    if files == [] then Batch([], [], [])
    else
      var last := files[|files| - 1];
      assert last in files;
      Record(RunBatch(outputDirectoryOf, copy, files[..|files| - 1]), ProcessFile(outputDirectoryOf, copy, last))
  }

  /** The files of `files` satisfying `keep`, in order. */
  function Filter(files: seq<VirtualFile>, keep: VirtualFile -> bool): (r: seq<VirtualFile>)
    ensures |r| <= |files|
    ensures forall f :: f in r ==> f in files && keep(f)
    decreases |files|
  {
    if files == [] then []
    else
      var rest := Filter(files[..|files| - 1], keep);
      if keep(files[|files| - 1]) then rest + [files[|files| - 1]] else rest
  }

  function Sources(items: seq<OutputItem>): (r: seq<VirtualFile>)
    ensures |r| == |items|
    ensures forall i :: 0 <= i < |items| ==> r[i] == items[i].sourceFile
  {
    seq(|items|, i requires 0 <= i < |items| => items[i].sourceFile)
  }

  /** Recording a step after two concatenated batches records it after the second. */
  lemma RecordConcat(x: Batch, y: Batch, s: Step)
    ensures Record(Concat(x, y), s) == Concat(x, Record(y, s))
  {
    match s
    case Skipped =>
    case Produced(compiledFile, item) =>
      assert x.items + y.items + [item] == x.items + (y.items + [item]);
      assert x.filesToRefresh + y.filesToRefresh + [compiledFile] == x.filesToRefresh + (y.filesToRefresh + [compiledFile]);
    case Failed(message) =>
      assert x.messages + y.messages + [message] == x.messages + (y.messages + [message]);
  }

  /** One step of the fold: the batch over all files is the batch over all
      but the last, with the last file's step recorded. */
  lemma RunBatchUnfold(outputDirectoryOf: VirtualFile -> Option<string>, copy: FileCopier, files: seq<VirtualFile>)
    requires AllCompilable(files) && files != []
    ensures AllCompilable(files[..|files| - 1]) && IsCompilableName(files[|files| - 1].name)
    ensures RunBatch(outputDirectoryOf, copy, files)
         == Record(RunBatch(outputDirectoryOf, copy, files[..|files| - 1]),
                   ProcessFile(outputDirectoryOf, copy, files[|files| - 1]))
  {
    assert files[|files| - 1] in files;
    assert forall f :: f in files[..|files| - 1] ==> f in files;
  }

  /** The step of the loop at index `i`: the batch over the first `i + 1`
      files is the batch over the first `i` with file `i`'s step recorded. */
  lemma RunBatchStep(outputDirectoryOf: VirtualFile -> Option<string>, copy: FileCopier, files: seq<VirtualFile>, i: nat)
    requires AllCompilable(files) && i < |files|
    ensures AllCompilable(files[..i]) && AllCompilable(files[..i + 1]) && IsCompilableName(files[i].name)
    ensures RunBatch(outputDirectoryOf, copy, files[..i + 1])
         == Record(RunBatch(outputDirectoryOf, copy, files[..i]), ProcessFile(outputDirectoryOf, copy, files[i]))
  {
    assert files[..i + 1][..i] == files[..i] && files[..i + 1][i] == files[i];
    assert forall f :: f in files[..i + 1] ==> f in files;
    RunBatchUnfold(outputDirectoryOf, copy, files[..i + 1]);
  }

  /** The batch is a homomorphism on the file list: processing `a + b`
      accumulates what `a` does, then what `b` does on its own. No file's
      outcome stops or alters the processing of the files after it. */
  lemma {:induction false} RunBatchAppend(outputDirectoryOf: VirtualFile -> Option<string>, copy: FileCopier, a: seq<VirtualFile>, b: seq<VirtualFile>)
    requires AllCompilable(a) && AllCompilable(b)
    ensures AllCompilable(a + b)
    ensures RunBatch(outputDirectoryOf, copy, a + b)
         == Concat(RunBatch(outputDirectoryOf, copy, a), RunBatch(outputDirectoryOf, copy, b))
    decreases |b|
  {
    if b == [] {
      assert a + b == a;
    } else {
      var b' := b[..|b| - 1];
      assert (a + b)[..|a + b| - 1] == a + b';
      assert (a + b)[|a + b| - 1] == b[|b| - 1];
      RunBatchUnfold(outputDirectoryOf, copy, b);
      RunBatchAppend(outputDirectoryOf, copy, a, b');
      RunBatchUnfold(outputDirectoryOf, copy, a + b);
      RecordConcat(RunBatch(outputDirectoryOf, copy, a), RunBatch(outputDirectoryOf, copy, b'),
                   ProcessFile(outputDirectoryOf, copy, b[|b| - 1]));
    }
  }

  /** A file without an output directory adds nothing, and the files after
      it are processed as though it were absent. */
  lemma SkippedFileAddsNothing(outputDirectoryOf: VirtualFile -> Option<string>, copy: FileCopier, a: seq<VirtualFile>, f: VirtualFile, b: seq<VirtualFile>)
    requires AllCompilable(a) && IsCompilableName(f.name) && AllCompilable(b)
    requires outputDirectoryOf(f).None?
    ensures AllCompilable(a + [f] + b) && AllCompilable(a + b)
    ensures RunBatch(outputDirectoryOf, copy, a + [f] + b) == RunBatch(outputDirectoryOf, copy, a + b)
  {
    RunBatchAppend(outputDirectoryOf, copy, a, [f]);
    RunBatchAppend(outputDirectoryOf, copy, a + [f], b);
    RunBatchAppend(outputDirectoryOf, copy, a, b);
    assert [f][..0] == [];
    var x := RunBatch(outputDirectoryOf, copy, a);
    assert Concat(x, Batch([], [], [])) == x;
  }

  /** A file whose copy fails adds exactly one ERROR message carrying the
      exception's message, no item and no file to refresh; the files after it
      are still processed. */
  lemma FailedFileAddsOneError(outputDirectoryOf: VirtualFile -> Option<string>, copy: FileCopier, a: seq<VirtualFile>, f: VirtualFile, b: seq<VirtualFile>)
    requires AllCompilable(a) && IsCompilableName(f.name) && AllCompilable(b)
    requires Fails(outputDirectoryOf, copy, f)
    ensures AllCompilable(a + [f] + b)
    ensures RunBatch(outputDirectoryOf, copy, a + [f] + b)
         == Concat(Concat(RunBatch(outputDirectoryOf, copy, a),
                          Batch([], [], [CompilerMessage(Error, copy(f.path, DestinationPath(outputDirectoryOf(f).value, f.name)).message, None, 0, 0)])),
                   RunBatch(outputDirectoryOf, copy, b))
  {
    RunBatchAppend(outputDirectoryOf, copy, a, [f]);
    RunBatchAppend(outputDirectoryOf, copy, a + [f], b);
    assert [f][..0] == [];
  }

  /** A file whose copy succeeds adds exactly one item, for that file, and one
      file to refresh, its destination; the files after it are still processed. */
  lemma SucceededFileAddsOneItem(outputDirectoryOf: VirtualFile -> Option<string>, copy: FileCopier, a: seq<VirtualFile>, f: VirtualFile, b: seq<VirtualFile>)
    requires AllCompilable(a) && IsCompilableName(f.name) && AllCompilable(b)
    requires Succeeds(outputDirectoryOf, copy, f)
    ensures AllCompilable(a + [f] + b)
    ensures var root := outputDirectoryOf(f).value;
      RunBatch(outputDirectoryOf, copy, a + [f] + b)
         == Concat(Concat(RunBatch(outputDirectoryOf, copy, a),
                          Batch([OutputItem(root, ItemPath(root, f.name), f)],
                                [DestinationPath(root, f.name)], [])),
                   RunBatch(outputDirectoryOf, copy, b))
  {
    RunBatchAppend(outputDirectoryOf, copy, a, [f]);
    RunBatchAppend(outputDirectoryOf, copy, a + [f], b);
    assert [f][..0] == [];
  }

  /** After any list of files: one item and one file to refresh per
      successful file, in input order, each item referring back to its file. */
  lemma {:induction false} RunBatchItemSources(outputDirectoryOf: VirtualFile -> Option<string>, copy: FileCopier, files: seq<VirtualFile>)
    requires AllCompilable(files)
    ensures var b := RunBatch(outputDirectoryOf, copy, files);
      && |b.items| == |b.filesToRefresh|
      && Sources(b.items) == Filter(files, f => Succeeds(outputDirectoryOf, copy, f))
    decreases |files|
  {
    if files != [] {
      var init := files[..|files| - 1];
      var last := files[|files| - 1];
      RunBatchUnfold(outputDirectoryOf, copy, files);
      RunBatchItemSources(outputDirectoryOf, copy, init);
      var b := RunBatch(outputDirectoryOf, copy, init);
      var s := ProcessFile(outputDirectoryOf, copy, last);
      if s.Produced? {
        assert Sources(b.items + [s.item]) == Sources(b.items) + [last];
      }
    }
  }

  /** After any list of files: every item's file to refresh is the
      destination of its source under its output root, and its recorded path
      is the one computed from that destination as written. */
  lemma {:induction false} RunBatchItemPaths(outputDirectoryOf: VirtualFile -> Option<string>, copy: FileCopier, files: seq<VirtualFile>)
    requires AllCompilable(files)
    ensures var b := RunBatch(outputDirectoryOf, copy, files);
      && |b.items| == |b.filesToRefresh|
      && forall i :: 0 <= i < |b.items| ==>
        && IsCompilableName(b.items[i].sourceFile.name)
        && b.filesToRefresh[i] == DestinationPath(b.items[i].outputRootDirectory, b.items[i].sourceFile.name)
        && b.items[i].outputPath == ItemPath(b.items[i].outputRootDirectory, b.items[i].sourceFile.name)
    decreases |files|
  {
    if files != [] {
      RunBatchUnfold(outputDirectoryOf, copy, files);
      RunBatchItemPaths(outputDirectoryOf, copy, files[..|files| - 1]);
    }
  }

  /** After any list of files: one message per failed file, each an ERROR at
      line 0, column 0, with no URL. */
  lemma {:induction false} RunBatchMessages(outputDirectoryOf: VirtualFile -> Option<string>, copy: FileCopier, files: seq<VirtualFile>)
    requires AllCompilable(files)
    ensures var b := RunBatch(outputDirectoryOf, copy, files);
      |b.messages| == |Filter(files, f => Fails(outputDirectoryOf, copy, f))|
    ensures var b := RunBatch(outputDirectoryOf, copy, files);
      forall i :: 0 <= i < |b.messages| ==>
        b.messages[i].category == Error && b.messages[i].url == None
        && b.messages[i].lineNum == 0 && b.messages[i].columnNum == 0
    decreases |files|
  {
    if files != [] {
      RunBatchUnfold(outputDirectoryOf, copy, files);
      RunBatchMessages(outputDirectoryOf, copy, files[..|files| - 1]);
    }
  }

  /** Every file is accounted for exactly once: items, messages and skipped
      files together number the files, so items and messages never exceed them. */
  lemma {:induction false} RunBatchAccountsForEveryFile(outputDirectoryOf: VirtualFile -> Option<string>, copy: FileCopier, files: seq<VirtualFile>)
    requires AllCompilable(files)
    ensures var b := RunBatch(outputDirectoryOf, copy, files);
      && |b.items| + |b.messages| + |Filter(files, f => outputDirectoryOf(f).None?)| == |files|
      && |b.items| + |b.messages| <= |files|
    decreases |files|
  {
    if files != [] {
      RunBatchUnfold(outputDirectoryOf, copy, files);
      RunBatchAccountsForEveryFile(outputDirectoryOf, copy, files[..|files| - 1]);
    }
  }

  /** `compile`: walk the files in order, copy each one that has an output
      directory, record an item and a file to refresh for every copy that
      succeeds and report an ERROR for every copy that fails. Returns the exit
      status and the files handed to the file-system refresh. */
  method Compile(context: CompileContext, files: seq<VirtualFile>, copy: FileCopier)
    returns (status: ExitStatus, refreshed: seq<string>)
    requires forall f :: f in files ==> IsCompilableFile(f, context)
    modifies context
    ensures AllCompilable(files)
    ensures var b := RunBatch(context.outputDirectoryOf, copy, files);
      && status.GetSuccessfullyCompiled() == b.items
      && status.GetFilesToRecompile() == []
      && refreshed == b.filesToRefresh
      && context.messages == old(context.messages) + b.messages
  {
    var items: seq<OutputItem> := [];
    var filesToRefresh: seq<string> := [];
    ghost var before := context.messages;
    assert AllCompilable(files);
    for i := 0 to |files|
      invariant AllCompilable(files[..i])
      invariant var b := RunBatch(context.outputDirectoryOf, copy, files[..i]);
        items == b.items && filesToRefresh == b.filesToRefresh && context.messages == before + b.messages
    {
      var file := files[i];
      RunBatchStep(context.outputDirectoryOf, copy, files, i);
      ghost var step := ProcessFile(context.outputDirectoryOf, copy, file);
      match context.outputDirectoryOf(file)
      case None =>
        assert step == Skipped;
      case Some(outputDirPath) =>
        match DoCompile(outputDirPath, file, copy)
        case Success(compiledFile) =>
          filesToRefresh := filesToRefresh + [compiledFile];
          items := items + [OutputItem(outputDirPath, RelativePathAsWritten(outputDirPath, compiledFile), file)];
          assert step == Produced(compiledFile, OutputItem(outputDirPath, RelativePathAsWritten(outputDirPath, compiledFile), file));
        case Failure(message) =>
          context.AddMessage(Error, message, None, 0, 0);
          assert step == Failed(CompilerMessage(Error, message, None, 0, 0));
    }
    assert files[..|files|] == files;
    status := ExitStatus(items);
    refreshed := filesToRefresh;
  }

  /** A run over one file whose copy succeeds: one item, one file to refresh. */
  lemma SingleSucceedingFile(outputDirectoryOf: VirtualFile -> Option<string>, copy: FileCopier, f: VirtualFile)
    requires Succeeds(outputDirectoryOf, copy, f)
    ensures AllCompilable([f])
    ensures var root := outputDirectoryOf(f).value;
      RunBatch(outputDirectoryOf, copy, [f])
        == Batch([OutputItem(root, ItemPath(root, f.name), f)], [DestinationPath(root, f.name)], [])
  {
    assert [f][..0] == [];
    RunBatchUnfold(outputDirectoryOf, copy, [f]);
  }

  /** A run over one file whose copy fails: one ERROR with the exception's message. */
  lemma SingleFailingFile(outputDirectoryOf: VirtualFile -> Option<string>, copy: FileCopier, f: VirtualFile)
    requires Fails(outputDirectoryOf, copy, f)
    ensures AllCompilable([f])
    ensures RunBatch(outputDirectoryOf, copy, [f])
        == Batch([], [], [CompilerMessage(Error, copy(f.path, DestinationPath(outputDirectoryOf(f).value, f.name)).message, None, 0, 0)])
  {
    assert [f][..0] == [];
    RunBatchUnfold(outputDirectoryOf, copy, [f]);
  }

  /** A run over `Foo.dummy` with output root "/out" whose copy succeeds
      yields one item, `Foo.java` under "/out", and refreshes "/out/Foo.java". */
  lemma SingleFileScenario(context: CompileContext, copy: FileCopier)
    requires context.outputDirectoryOf(VirtualFile("Foo.dummy", "/src/Foo.dummy")) == Some("/out")
    requires copy("/src/Foo.dummy", "/out/Foo.java") == Copied
    ensures var foo := VirtualFile("Foo.dummy", "/src/Foo.dummy");
      AllCompilable([foo]) &&
      RunBatch(context.outputDirectoryOf, copy, [foo])
        == Batch([OutputItem("/out", "Foo.java", foo)], ["/out/Foo.java"], [])
  {
    var foo := VirtualFile("Foo.dummy", "/src/Foo.dummy");
    FooDestination();
    SingleSucceedingFile(context.outputDirectoryOf, copy, foo);
  }

  /** The same run when the copy fails: one ERROR carrying the exception's
      message, no item, nothing to refresh. */
  lemma FailedCopyScenario(context: CompileContext, copy: FileCopier, reason: string)
    requires context.outputDirectoryOf(VirtualFile("Foo.dummy", "/src/Foo.dummy")) == Some("/out")
    requires copy("/src/Foo.dummy", "/out/Foo.java") == CopyFailed(reason)
    ensures var foo := VirtualFile("Foo.dummy", "/src/Foo.dummy");
      AllCompilable([foo]) &&
      RunBatch(context.outputDirectoryOf, copy, [foo])
        == Batch([], [], [CompilerMessage(Error, reason, None, 0, 0)])
  {
    var foo := VirtualFile("Foo.dummy", "/src/Foo.dummy");
    FooDestination();
    SingleFailingFile(context.outputDirectoryOf, copy, foo);
  }

  /** Output root "/": the copy goes to "/Foo.java", and the item records the
      path `oo.java`, as line 44 computes it. */
  lemma RootOutputDirectoryScenario(context: CompileContext, copy: FileCopier)
    requires context.outputDirectoryOf(VirtualFile("Foo.dummy", "/src/Foo.dummy")) == Some("/")
    requires copy("/src/Foo.dummy", "/Foo.java") == Copied
    ensures var foo := VirtualFile("Foo.dummy", "/src/Foo.dummy");
      AllCompilable([foo]) &&
      RunBatch(context.outputDirectoryOf, copy, [foo])
        == Batch([OutputItem("/", "oo.java", foo)], ["/Foo.java"], [])
  {
    var foo := VirtualFile("Foo.dummy", "/src/Foo.dummy");
    FooDestinationAtRoot();
    SingleSucceedingFile(context.outputDirectoryOf, copy, foo);
  }

  /** `Bar.txt` is not compilable: it is never handed to the batch. */
  lemma NonDummyFileScenario(context: CompileContext)
    ensures !IsCompilableFile(VirtualFile("Bar.txt", "/src/Bar.txt"), context)
  {
    assert "Bar.txt"[|"Bar.txt"| - |FiletypeExtension|..][0] == 'a';
  }

  /** `Foo.dummy` compiles to `Foo.java`, at "/out/Foo.java" under "/out". */
  lemma FooDestination()
    ensures IsCompilableName("Foo.dummy")
    ensures CompiledName("Foo.dummy") + TargetExtension == "Foo.java"
    ensures DestinationPath("/out", "Foo.dummy") == "/out/Foo.java"
    ensures ItemPath("/out", "Foo.dummy") == "Foo.java"
  {
    SuffixedNameIsCompilable("Foo");
    assert "Foo" + FiletypeExtension == "Foo.dummy";
    assert "Foo" + TargetExtension == "Foo.java";
    assert !EndsWith("/out", [Separator]);
    assert Directory("/out") + [Separator] + "Foo.java" == "/out/Foo.java";
    assert ItemPath("/out", "Foo.dummy") == "Foo.java";
  }

  /** Under "/", `Foo.dummy` goes to "/Foo.java" and is recorded as `oo.java`. */
  lemma FooDestinationAtRoot()
    ensures IsCompilableName("Foo.dummy")
    ensures DestinationPath("/", "Foo.dummy") == "/Foo.java"
    ensures ItemPath("/", "Foo.dummy") == "oo.java"
  {
    SuffixedNameIsCompilable("Foo");
    assert "Foo" + FiletypeExtension == "Foo.dummy";
    assert "Foo" + TargetExtension == "Foo.java";
    assert EndsWith("/", [Separator]);
    assert Directory("/") == "";
    assert Directory("/") + [Separator] + "Foo.java" == "/Foo.java";
    assert "Foo.java"[1..] == "oo.java";
  }

  /** The description is a fixed, non-empty constant. */
  function GetDescription(): (r: string)
    ensures r == "DUMMY TRANSLATOR"
  {
    Description
  }

  /** Every configuration is valid. */
  function ValidateConfiguration(scope: CompileScope): (r: bool)
    ensures r
  {
    true
  }
}
