# DummyTranslatingCompiler in Dafny

A model of IntelliJ's `DummyTranslatingCompiler`. It is a placeholder translating compiler for the IDE build. It accepts every file whose name ends in `.dummy`. It copies each such file into its module's output directory under the same base name with `.java` in place of `.dummy`. It reports the copies it produced as output items, passes them to the file-system refresh, and reports one ERROR message for each copy that fails. It never asks for anything to be recompiled.

Files:

- `wrappers.dfy`: module `Wrappers`, with `Option` (for the IDE's nullable returns) and `Result` (for the `IOException` a copy may raise).
- `paths.dfy`: module `Paths`. It holds `String.endsWith`, the path that `new java.io.File(parent, child)` produces (`Join`), and the relative-path computation of line 44, both as written (`RelativePathAsWritten`, which the loop uses) and corrected (`RelativePath`).
- `dummy_translating_compiler.dfy`: module `DummyTranslatingCompiler`, which holds the following.
  - The data model: `VirtualFile`, `OutputItem`, `CompilerMessage`, `ExitStatus` and the `CompileContext` class, whose message list `addMessage` extends.
  - The suffix filter and the name derivation of `doCompile`.
  - One file's handling (`ProcessFile`) and the batch as a fold over the files (`RunBatch`).
  - The imperative `compile` loop (`Compile`), proved against `RunBatch`.
  - `getDescription` and `validateConfiguration`.

The IDE and the file system are oracles:

- `CompileContext.outputDirectoryOf` combines `getModuleByFile` with `getModuleOutputDirectory`. It gives the output directory's path, or `None` when there is none.
- A `FileCopier` maps a source path and a destination path to `Copied` or to `CopyFailed(message)`. `CopyFailed` stands for the `IOException` that `FileUtil.copy` raises and the message it carries.

`Compile` returns the list handed to `CompilerUtil.refreshIOFiles` as its out-parameter `refreshed`.

The batch loop records each item's relative path exactly as line 44 computes it. Under the output root `/` that path loses its first character (see "## Findings"). The corrected relative path is defined and proved beside it, and no member of the loop uses it.

## Model

| member | source | states |
|---|---|---|
| `Paths.EndsWith` | compiler/impl/com/intellij/compiler/impl/javaCompiler/DummyTranslatingCompiler.java:28 | `endsWith` holds exactly when the suffix is no longer than the string and the string is its prefix followed by the suffix. |
| `Paths.EndsWithAppended` | compiler/impl/com/intellij/compiler/impl/javaCompiler/DummyTranslatingCompiler.java:28 | Every string `p + s` ends with `s`, as `endsWith` decides it. |
| `Paths.EndsWithSplits` | compiler/impl/com/intellij/compiler/impl/javaCompiler/DummyTranslatingCompiler.java:28 | A string that ends with `s` is its own prefix followed by `s`. Together with `EndsWithAppended`, this makes "ends with" equivalent to "is something followed by". |
| `Paths.Directory` | compiler/impl/com/intellij/compiler/impl/javaCompiler/DummyTranslatingCompiler.java:68 | The directory a parent path denotes. A parent ending in `/` is the directory plus that one `/` (so `/` denotes the empty directory). A parent without a trailing `/` is the directory itself. |
| `Paths.Join` | compiler/impl/com/intellij/compiler/impl/javaCompiler/DummyTranslatingCompiler.java:68 | `new File(out.getPath(), name).getPath()` is the directory, exactly one `/`, then the name. The result ends with the name and its length is known. |
| `Paths.RelativePathAsWritten` | compiler/impl/com/intellij/compiler/impl/javaCompiler/DummyTranslatingCompiler.java:44 | The recorded path as written: the artifact path minus the output-directory path plus one character. It is a tail of the artifact path, of exactly that length. |
| `Paths.RelativePath` | compiler/impl/com/intellij/compiler/impl/javaCompiler/DummyTranslatingCompiler.java:44 | The corrected recorded path: a tail of the artifact path that leaves out the directory and exactly one separator. |
| `Paths.RelativePathOfJoin` | compiler/impl/com/intellij/compiler/impl/javaCompiler/DummyTranslatingCompiler.java:43-44 | For any output directory and file name, the corrected relative path of the joined artifact is the file name. |
| `Paths.JoinOfRelativePath` | compiler/impl/com/intellij/compiler/impl/javaCompiler/DummyTranslatingCompiler.java:43-44 | The converse. Take any artifact path made of the directory, one `/` and a tail without `/`. Its corrected relative path is a single name, and joining that name under the directory gives the artifact path back. |
| `Paths.RelativePathAsWrittenWithoutTrailingSeparator` | compiler/impl/com/intellij/compiler/impl/javaCompiler/DummyTranslatingCompiler.java:43-44 | When the output-directory path does not end in `/`, the computation as written yields exactly the file name, and `outputDirPath + "/" + rel` equals the artifact path. |
| `Paths.RelativePathAsWrittenWithTrailingSeparator` | compiler/impl/com/intellij/compiler/impl/javaCompiler/DummyTranslatingCompiler.java:44 | When the output-directory path ends in `/`, the computation as written yields the file name without its first character. For any non-empty name this differs from the name. |
| `Paths.RootOutputDirectoryDropsFirstCharacter` | compiler/impl/com/intellij/compiler/impl/javaCompiler/DummyTranslatingCompiler.java:44 | Output directory `/`, artifact `/Foo.java`: as written the recorded path is `oo.java`, corrected it is `Foo.java`. |
| `DummyTranslatingCompiler.IsCompilableFile` | compiler/impl/com/intellij/compiler/impl/javaCompiler/DummyTranslatingCompiler.java:27-29 | A file is compilable exactly when its name is at least 6 characters long and is its prefix followed by `.dummy`. The context plays no part. |
| `DummyTranslatingCompiler.IsCompilableFileDependsOnNameOnly` | compiler/impl/com/intellij/compiler/impl/javaCompiler/DummyTranslatingCompiler.java:27-29 | Two files with the same name are compilable alike, under any two contexts, whatever their paths. |
| `DummyTranslatingCompiler.SuffixedNameIsCompilable` | compiler/impl/com/intellij/compiler/impl/javaCompiler/DummyTranslatingCompiler.java:27-29 | Every name `base + ".dummy"` is compilable, and its compiled name is `base`. |
| `DummyTranslatingCompiler.UnsuffixedNameIsNotCompilable` | compiler/impl/com/intellij/compiler/impl/javaCompiler/DummyTranslatingCompiler.java:27-29 | A name that is not compilable is not `base + ".dummy"` for any `base`. This is the other direction of the iff. |
| `DummyTranslatingCompiler.CompiledName` | compiler/impl/com/intellij/compiler/impl/javaCompiler/DummyTranslatingCompiler.java:66-67 | The compiled name plus `".dummy"` is the original name (round trip). It is 6 characters shorter and still a single path component. |
| `DummyTranslatingCompiler.DestinationPath` | compiler/impl/com/intellij/compiler/impl/javaCompiler/DummyTranslatingCompiler.java:66-68 | The destination is the output directory, one `/`, then the compiled name plus `.java`. Its corrected relative path is `base.java`, and it is at least 5 characters longer than the output-directory path. |
| `DummyTranslatingCompiler.ItemPath` | compiler/impl/com/intellij/compiler/impl/javaCompiler/DummyTranslatingCompiler.java:41-44 | The path line 44 records for a copy. Under an output root not ending in `/`, it is `base.java`, and root + `/` + it is the destination. Under a root ending in `/`, it is `base.java` without its first character. |
| `DummyTranslatingCompiler.ItemPathIsIntendedUnlessRootEndsInSeparator` | compiler/impl/com/intellij/compiler/impl/javaCompiler/DummyTranslatingCompiler.java:41-44 | The intended (corrected) relative path is `base.java` under every root. The path as written equals it exactly when the root does not end in `/` (both directions). |
| `DummyTranslatingCompiler.DestinationNameRestoresSourceName` | compiler/impl/com/intellij/compiler/impl/javaCompiler/DummyTranslatingCompiler.java:66-68 | The destination's corrected relative path ends in `.java`. Swapping `.java` back for `.dummy` gives the source name. |
| `DummyTranslatingCompiler.DoCompile` | compiler/impl/com/intellij/compiler/impl/javaCompiler/DummyTranslatingCompiler.java:65-71 | It succeeds exactly when copying the source to its destination succeeds, and then returns the destination path. Otherwise it returns the exception's message. |
| `DummyTranslatingCompiler.ProcessFile` | compiler/impl/com/intellij/compiler/impl/javaCompiler/DummyTranslatingCompiler.java:37-49 | A file falls into exactly one of three cases. (1) Skipped exactly when it has no output directory. (2) Produced exactly when its copy succeeds: the item refers back to the file, has the file's output root and the path line 44 records (`ItemPath`), and the file to refresh is the destination. (3) Failed exactly when the copy fails: one ERROR message with the exception's text, no URL, line 0, column 0. |
| `DummyTranslatingCompiler.RunBatch` | compiler/impl/com/intellij/compiler/impl/javaCompiler/DummyTranslatingCompiler.java:36-50 | The loop over the files, in order, as a fold. There are as many items as files to refresh, and items plus messages never exceed the files. |
| `DummyTranslatingCompiler.RunBatchAppend` | compiler/impl/com/intellij/compiler/impl/javaCompiler/DummyTranslatingCompiler.java:36-50 | Processing `a + b` accumulates what `a` does followed by what `b` does alone. A file's outcome never stops or alters the handling of the files after it. |
| `DummyTranslatingCompiler.SkippedFileAddsNothing` | compiler/impl/com/intellij/compiler/impl/javaCompiler/DummyTranslatingCompiler.java:39-40 | A file without an output directory adds no item, no file to refresh and no message. The run equals the run without that file. |
| `DummyTranslatingCompiler.FailedFileAddsOneError` | compiler/impl/com/intellij/compiler/impl/javaCompiler/DummyTranslatingCompiler.java:38-49 | A file whose copy fails adds exactly one ERROR message and no item or refresh entry. The remaining files are processed as they would be alone. |
| `DummyTranslatingCompiler.SucceededFileAddsOneItem` | compiler/impl/com/intellij/compiler/impl/javaCompiler/DummyTranslatingCompiler.java:40-45 | A file whose copy succeeds adds exactly one item (its root, the path line 44 records, the file) and one refresh entry, its destination. The remaining files are still processed. |
| `DummyTranslatingCompiler.RunBatchItemSources` | compiler/impl/com/intellij/compiler/impl/javaCompiler/DummyTranslatingCompiler.java:36-46 | After any list of files, the item count equals the refresh-list length, and the items' sources are exactly the successful files in input order. |
| `DummyTranslatingCompiler.RunBatchItemPaths` | compiler/impl/com/intellij/compiler/impl/javaCompiler/DummyTranslatingCompiler.java:41-44 | After any list of files, each refresh entry is its source's destination under its item's root, and each item's path is the one line 44 records for it. |
| `DummyTranslatingCompiler.RunBatchMessages` | compiler/impl/com/intellij/compiler/impl/javaCompiler/DummyTranslatingCompiler.java:47-49 | After any list of files, there is one message per failed file, each an ERROR at line 0, column 0, with no URL. |
| `DummyTranslatingCompiler.RunBatchAccountsForEveryFile` | compiler/impl/com/intellij/compiler/impl/javaCompiler/DummyTranslatingCompiler.java:36-50 | Items + messages + skipped files = files, so items + messages never exceed the files processed. |
| `DummyTranslatingCompiler.Compile` | compiler/impl/com/intellij/compiler/impl/javaCompiler/DummyTranslatingCompiler.java:31-63 | The loop leaves the context's messages extended by exactly the batch's messages. `getSuccessfullyCompiled` returns exactly the accumulated items, in order, with line 44's paths. `getFilesToRecompile` is empty even when errors occurred. The list handed to the refresh is exactly the accumulated destinations. |
| `DummyTranslatingCompiler.ExitStatus.GetFilesToRecompile` | compiler/impl/com/intellij/compiler/impl/javaCompiler/DummyTranslatingCompiler.java:59-61 | No file is ever queued for recompilation. |
| `DummyTranslatingCompiler.CompileContext.AddMessage` | compiler/impl/com/intellij/compiler/impl/javaCompiler/DummyTranslatingCompiler.java:48 | Reporting a message appends exactly that message to the context's messages. |
| `DummyTranslatingCompiler.SingleSucceedingFile` | compiler/impl/com/intellij/compiler/impl/javaCompiler/DummyTranslatingCompiler.java:40-45 | A run over one file whose copy succeeds gives exactly one item and one file to refresh, and no message. |
| `DummyTranslatingCompiler.SingleFailingFile` | compiler/impl/com/intellij/compiler/impl/javaCompiler/DummyTranslatingCompiler.java:47-49 | A run over one file whose copy fails gives exactly one ERROR message with the copy's message, and no item. |
| `DummyTranslatingCompiler.SingleFileScenario` | compiler/impl/com/intellij/compiler/impl/javaCompiler/DummyTranslatingCompiler.java:36-45 | `Foo.dummy` with output root `/out` and a successful copy gives one item (`/out`, `Foo.java`, the file) and refreshes `/out/Foo.java`. |
| `DummyTranslatingCompiler.RootOutputDirectoryScenario` | compiler/impl/com/intellij/compiler/impl/javaCompiler/DummyTranslatingCompiler.java:41-44 | `Foo.dummy` with output root `/` and a successful copy refreshes `/Foo.java` and records the item path `oo.java`. |
| `DummyTranslatingCompiler.FailedCopyScenario` | compiler/impl/com/intellij/compiler/impl/javaCompiler/DummyTranslatingCompiler.java:38-49 | `Foo.dummy` whose copy fails gives one ERROR message with the exception's text, and no item or refresh. |
| `DummyTranslatingCompiler.NonDummyFileScenario` | compiler/impl/com/intellij/compiler/impl/javaCompiler/DummyTranslatingCompiler.java:27-29 | `Bar.txt` is not compilable. |
| `DummyTranslatingCompiler.GetDescription` | compiler/impl/com/intellij/compiler/impl/javaCompiler/DummyTranslatingCompiler.java:73-76 | The description is the constant `DUMMY TRANSLATOR`. |
| `DummyTranslatingCompiler.ValidateConfiguration` | compiler/impl/com/intellij/compiler/impl/javaCompiler/DummyTranslatingCompiler.java:78-80 | Every scope is valid. |

## Left out

- `ByteTrie` and `OutputItemImpl` (lines 9, 25, 44): their implementations are not part of this model. An item holds its output root as a plain string, with no interning.
- `FileUtil.copy` (line 69): file contents are not modelled. The copy is a `FileCopier`, a function of the source and destination paths. An outcome that depends on earlier copies in the same batch (a disk filling up, a destination written twice) is therefore not expressible.
- `runReadAction` (line 34): an IDE read-lock scope with no sequential meaning. The loop runs directly.
- `CompilerUtil.refreshIOFiles` (line 53): the refresh itself is file-system I/O. Only the list passed to it is modelled, as `Compile`'s out-parameter.
- `getModuleByFile` and `getModuleOutputDirectory` (lines 37, 39): modules are not modelled. The two lookups are composed into the oracle `outputDirectoryOf`, and a file without a module counts as one without an output directory.
- `toSystemIndependentName` (line 44): paths are taken to be system-independent already, with `/` as the only separator. Conversion of platform separators is not modelled.
- `Paths.Join`: of `java.io.File`'s normalisation, it models only the dropping of one trailing separator of the parent. Collapsing repeated separators is not modelled. A file name is a single path component (`Paths.Name`).
- `Compile`: requires every file to be compilable, as the build framework guarantees. The `StringIndexOutOfBoundsException` that `substring` would raise for a name shorter than `.dummy` is not modelled.
- `e.getMessage()` (line 48) may be `null` in Java. Here a message is always a string.
- `CompileScope` (line 78): its contents are not used by the source, so its model holds just a file list.
- Categories other than ERROR are listed for completeness. Only ERROR is reported.

## Findings

| source | as written | input that shows it | evidently intended | confidence | as-written member | corrected member |
|---|---|---|---|---|---|---|
| compiler/impl/com/intellij/compiler/impl/javaCompiler/DummyTranslatingCompiler.java:44 | The recorded path drops `outputDirPath.length() + 1` characters of the artifact path. This assumes `java.io.File` put a `/` after the directory path. | Output directory `/` (a file-system root) and source `Foo.dummy`: `new File("/", "Foo.java")` is `/Foo.java`, and dropping 2 characters records `oo.java`. | The recorded path is `Foo.java`, the artifact's name under the output root. | medium; not executed | `DummyTranslatingCompiler.RootOutputDirectoryScenario` (the loop as written, through `ProcessFile`'s use of `Paths.RelativePathAsWritten`; in general `Paths.RelativePathAsWrittenWithTrailingSeparator`) | `DummyTranslatingCompiler.ItemPathIsIntendedUnlessRootEndsInSeparator` (`Paths.RelativePath` with `Paths.RelativePathOfJoin`) |

`ProcessFile`, `RunBatch` and `Compile` keep the path as written, so the batch model follows the code. The intended path (`Paths.RelativePath`) is proved correct under every output root in `ItemPathIsIntendedUnlessRootEndsInSeparator`. That lemma also proves the two paths agree exactly when the root does not end in `/`.
