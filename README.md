# mega-parser, modelled in Dafny

mega-parser computes code metrics for a set of source files and exports them. It has two metrics:
- a line count of non-blank lines;
- a pattern-based cyclomatic complexity in the style of SonarQube, for Java, Kotlin and TypeScript.

The results go either to a plain JSON list or to a CodeCharta tree. This project models the following parts of it, and proves what they promise:

- **Complexity plugin.** The strippers delete comments and string literals. One scan runs per row of the language's pattern table, and each match records its text and its 1-based line. Kotlin adds a synthetic "When Branches" record. The plugin stores its debug object only in debug mode.
- **CodeCharta exporter.** A find-or-create insertion of `/`-separated path segments into a rooted tree of nodes. The leaves carry metrics, and the attribute-type table comes from the first file.
- **`MegaParser` orchestrator.** It selects metric plugins into a list and export plugins into a map. `run` appends one record per file and caches every enabled exporter's output.
- **Older single-package orchestrator.** Plugins are selected by requested name and by the `"*"` wildcard. Every exporter's output is downloaded as `output.<extension>`.
- **Line counter, language detectors and legacy Java complexity.**
  - The line counter splits on `\r\n`, `\r` or `\n` and counts the non-blank lines.
  - Three extension-to-language tables exist: the engine's, the older one returning strings, and the web page's.
  - The legacy Java complexity is one alternation regex, plus one.
- **Web application.**
  - The project store's actions and getters.
  - The sidebar's path tree, with folders first and names sorted.
  - The analysis page's exporter toggle and its file-statistics loop.

Regular expressions are abstract. A regex engine is a function that gives the next match of a pattern at or after a position. The only requirement on it (`RegexEngine.Sound`) is that a match is non-empty, lies at or after the position, and is the subject's own text there. Everything built on top is exact: the scanning loops, the offset-to-line arithmetic, the deletions, the sums, the trees and the state updates.

Module layout follows the source:

- `Types`: `packages/mega-parser/src/types/enums.ts`
- `JsObject`: JavaScript object-literal lookup
- `RegexEngine`: `RegExp.exec`, `String.match`, `String.replace`
- `Stripping`: the `remove*CommentsAndStrings` loops
- `SonarComplexity`: `sonar-complexity.ts`
- `SonarComplexityJava`: `src/plugins/sonar-complexity-java.ts`
- `CodeChartaExport`: `CodeChartaJsonExport.ts`
- `MegaParserCore`: `packages/mega-parser/src/index.ts`
- `LegacyMegaParser`: `src/MegaParser.ts`
- `RealLinesOfCode`: `real-lines-of-code.ts`
- `LanguageDetector`: `packages/mega-parser/src/utils/languge-detector.ts`
- `LegacyLanguageDetector`: `src/utils/languge-detector.ts`
- `WebStore`: `useStore.ts`
- `Sidebar`: `Sidebar.tsx`
- `MegaParserUi`: `mega-parser-ui.tsx`

`Base`, `Seqs` and `Text` hold the option/result types, subsequences, and the string functions: split, join, lower-casing, counting and `indexOf`.

Behaviours of the code worth knowing:
- **Strippers delete newlines.** They delete what they match, including the newlines of block comments and template literals. They do not blank it out line by line, so line numbers refer to the stripped text.
- **No base term.** The complexity is the plain sum of the counts (`SonarComplexity.ComplexityIsMatchCount`).
- **No ingestion limits.** There is no size cap on files, no timeout and no skipping of unreadable files.
- **The export cache accumulates.** `run` never clears the cache, so outputs of exporters that were enabled in an earlier run stay in it. `rawOutputData` keeps growing across runs too.
- **The line counter does nothing language-specific, and never runs.**
  - It declares `"*"`.
  - The orchestrator tests exact membership of the language, so the plugin never applies (`MegaParserCore.WildcardNeverMatches`).
  - The older orchestrator does honour the wildcard.
- **The metric key names differ.** The store's statistics read the metric `rloc`, while the line counter writes `realLinesOfCode`. The model keeps the key the store reads.
- **No debug mode in `run`.** `run` takes no debug flag and wraps nothing in error handling.

## Model

| member | source | states |
|---|---|---|
| Types.LanguageNamesDistinct | packages/mega-parser/src/types/enums.ts:1-14 | Distinct members of `Language` have distinct string values, and `AllLanguages` lists every member exactly once |
| JsObject.Get | packages/mega-parser/src/utils/languge-detector.ts:13 | Indexing an object literal finds an own entry exactly for its own keys, and an inherited `Object.prototype` member exactly for the prototype keys it does not own |
| RegexEngine.AllMatchesOrdered | packages/mega-parser/src/plugins/sonar-complexity.ts:414-419 | Repeated `exec` with `lastIndex` resuming after each match yields non-overlapping matches, left to right, each being the subject's text at its start |
| RegexEngine.DeleteMatchesOnlyDeletes | packages/mega-parser/src/plugins/sonar-complexity.ts:436 | `replace(re, "")` leaves a subsequence of the subject: text is only removed, and the rest keeps its order |
| RegexEngine.DeleteNothing | packages/mega-parser/src/plugins/sonar-complexity.ts:436 | A subject in which the pattern finds nothing is returned unchanged |
| Stripping.RemoveInOrder | packages/mega-parser/src/plugins/sonar-complexity.ts:433-437 | The stripper loop applies the deletions one after the other, in list order |
| Stripping.StripOnlyDeletes | packages/mega-parser/src/plugins/sonar-complexity.ts:425-478 | Any sequence of deletions yields a subsequence of the code, never longer than it |
| Stripping.StripNothing | packages/mega-parser/src/plugins/sonar-complexity.ts:433-439 | Code in which no stripper pattern matches comes out unchanged |
| SonarComplexity.RemoveJavaCommentsAndStrings | packages/mega-parser/src/plugins/sonar-complexity.ts:425-440 | The Java cleaner deletes line comments, block comments, double-quoted and single-quoted strings, in that order; the result is a subsequence of the input |
| SonarComplexity.RemoveKotlinCommentsAndStrings | packages/mega-parser/src/plugins/sonar-complexity.ts:442-459 | The Kotlin cleaner applies its six deletions in order (including triple-quoted and raw strings); the result is a subsequence of the input |
| SonarComplexity.RemoveTypeScriptCommentsAndStrings | packages/mega-parser/src/plugins/sonar-complexity.ts:461-478 | The TypeScript cleaner deletes only backtick template literals; comments and quoted strings stay |
| SonarComplexity.LineAtCountsNewlines | packages/mega-parser/src/plugins/sonar-complexity.ts:417 | The line of an offset is one more than the number of `\n` before it, so it is at least 1 |
| SonarComplexity.LineAtMonotone | packages/mega-parser/src/plugins/sonar-complexity.ts:417 | A later offset never lies on an earlier line |
| SonarComplexity.FindAllMatches | packages/mega-parser/src/plugins/sonar-complexity.ts:410-423 | The loop collects the text of every successive match from the start of the code, and the line on which each match starts |
| SonarComplexity.MatchLinesNonDecreasing | packages/mega-parser/src/plugins/sonar-complexity.ts:414-420 | Within one pattern the recorded lines never decrease, because each scan resumes after the previous match |
| SonarComplexity.ScanTableWellFormed | packages/mega-parser/src/plugins/sonar-complexity.ts:339-351 | Every recorded pattern has as many lines as matches, a count equal to that number and at least 1, every line at least 1, and its lines in non-decreasing order |
| SonarComplexity.ScanTableTotal | packages/mega-parser/src/plugins/sonar-complexity.ts:339-361 | Rows without matches are not recorded: the sum of the recorded counts equals the number of matches over all rows |
| SonarComplexity.ScanTableInOrder | packages/mega-parser/src/plugins/sonar-complexity.ts:339-351 | The rows of the recorded patterns form a subsequence of the table: the records keep declaration order |
| SonarComplexity.RepeatedRowCountsTwice | packages/mega-parser/src/plugins/sonar-complexity.ts:339-351 | The table is not deduplicated: a row listed twice contributes each of its matches twice |
| SonarComplexity.TypeScriptCaseCountedTwice | packages/mega-parser/src/plugins/sonar-complexity.ts:254-278 | The TypeScript table lists the same `Case` row twice, so every `case` adds at least two to the complexity |
| SonarComplexity.CountWhenBranches | packages/mega-parser/src/plugins/sonar-complexity.ts:377-406 | The loop over the `when` blocks builds the "When Branches" record: all branches of each block, in block order, each with the line of the first occurrence of its block's text |
| SonarComplexity.ScanBlocksLines | packages/mega-parser/src/plugins/sonar-complexity.ts:383-395 | The when-branch record has as many lines as matches; every line is the line where the first textual occurrence (`indexOf`) of one of the blocks starts, and is at least 1 |
| SonarComplexity.BlockFoundNoLater | packages/mega-parser/src/plugins/sonar-complexity.ts:384 | `indexOf` finds every matched block at or before where it was matched, so identical blocks all get the first one's line, never a later one |
| SonarComplexity.CleanCode | packages/mega-parser/src/plugins/sonar-complexity.ts:323-328 | TypeScript gets the TypeScript cleaner, Java the Java cleaner, and every other language the Kotlin cleaner; the result is a subsequence of the code |
| SonarComplexity.ScanPatterns | packages/mega-parser/src/plugins/sonar-complexity.ts:339-351 | The loop over the table yields exactly the records of the rows that matched, in table order |
| SonarComplexity.CalculateComplexity | packages/mega-parser/src/plugins/sonar-complexity.ts:318-375 | The complexity is the same with or without debug; in debug mode the debug object holds the records, `totalComplexity` equal to the complexity, and the lower-cased language |
| SonarComplexity.ComplexityIsMatchCount | packages/mega-parser/src/plugins/sonar-complexity.ts:330-361 | The complexity is the number of matches over all rows of the language's table, plus the when-branches for Kotlin, with no base term |
| SonarComplexity.PatternsWellFormed | packages/mega-parser/src/plugins/sonar-complexity.ts:339-359 | Every record, including the when-branch record, has as many lines as matches, a count equal to that number and at least 1, and lines at least 1 |
| SonarComplexity.NoTableRowNamedWhenBranches | packages/mega-parser/src/plugins/sonar-complexity.ts:22-316 | No row of the Java, Kotlin or TypeScript table is named "When Branches" |
| SonarComplexity.WhenBranchesOnlyLastForKotlin | packages/mega-parser/src/plugins/sonar-complexity.ts:353-359 | A "When Branches" record appears only for Kotlin, and only as the last record |
| SonarComplexity.OtherLanguagesScanAsKotlin | packages/mega-parser/src/plugins/sonar-complexity.ts:323-336 | A language other than Java and TypeScript is cleaned and scanned with Kotlin's strippers and table, but gets no when-branches unless it is Kotlin |
| SonarComplexity.SonarComplexityPlugin.constructor | packages/mega-parser/src/plugins/sonar-complexity.ts:5-8 | The plugin is named `sonar_complexity`, supports Java, Kotlin and TypeScript, and holds no debug object yet |
| SonarComplexity.SonarComplexityPlugin.Calculate | packages/mega-parser/src/plugins/sonar-complexity.ts:10-16 | The number returned does not depend on `debug`; a debug run stores its debug object, and any other run leaves the stored one untouched |
| SonarComplexityJava.RemoveCommentsAndStrings | src/plugins/sonar-complexity-java.ts:35-54 | Line comments, block comments, double-quoted and single-quoted strings are deleted in that order; the result is a subsequence, never longer |
| SonarComplexityJava.CalculateJavaComplexity | src/plugins/sonar-complexity-java.ts:12-33 | The legacy Java complexity is the match count of the combined alternation on the stripped code plus one, so it is at least 1 |
| SonarComplexityJava.CountsNonOverlappingMatches | src/plugins/sonar-complexity-java.ts:27-31 | The result is one more than the number of non-overlapping, left-to-right matches of the combined pattern |
| SonarComplexityJava.NoMatchesGivesOne | src/plugins/sonar-complexity-java.ts:30 | Code with no match once stripped has complexity exactly 1 |
| CodeChartaExport.Segments | packages/mega-parser/src/plugins/exports/CodeChartaJsonExport.ts:65 | Every path segment kept is non-empty and contains no `/` |
| CodeChartaExport.SegmentsConcat | packages/mega-parser/src/plugins/exports/CodeChartaJsonExport.ts:65 | The segments of `a/b` are those of `a` followed by those of `b` |
| CodeChartaExport.SegmentsOfEmpty | packages/mega-parser/src/plugins/exports/CodeChartaJsonExport.ts:65 | The empty path has no segments |
| CodeChartaExport.DoubledSeparatorIgnored | packages/mega-parser/src/plugins/exports/CodeChartaJsonExport.ts:65 | `a//b` has the same segments as `a/b` |
| CodeChartaExport.OuterSeparatorsIgnored | packages/mega-parser/src/plugins/exports/CodeChartaJsonExport.ts:65 | `/p/` has the same segments as `p` |
| CodeChartaExport.ChildNamed | packages/mega-parser/src/plugins/exports/CodeChartaJsonExport.ts:70-72 | `find` returns a child with the name, and returns nothing exactly when no child has it |
| CodeChartaExport.AddChildUnique | packages/mega-parser/src/plugins/exports/CodeChartaJsonExport.ts:70-82 | A child is created only under a name its parent lacks, so no two children of any node share a name |
| CodeChartaExport.FoundNodeHasThatPath | packages/mega-parser/src/plugins/exports/CodeChartaJsonExport.ts:65-85 | A segment list leads to at most one node: the node created for exactly that list |
| CodeChartaExport.CodeMapTree.constructor | packages/mega-parser/src/plugins/exports/CodeChartaJsonExport.ts:31-36 | The tree starts as a lone Folder named `root`, with no attributes and no children |
| CodeChartaExport.CodeMapTree.AddNode | packages/mega-parser/src/plugins/exports/CodeChartaJsonExport.ts:74-82 | Pushing a new child appends exactly that node under its parent and keeps the tree well formed |
| CodeChartaExport.CodeMapTree.Walk | packages/mega-parser/src/plugins/exports/CodeChartaJsonExport.ts:65-85 | The walk ends on the node its segments lead to. Earlier lookups still reach the same nodes. Old nodes keep their names, types and attributes. Each new node lies on a prefix of the path, and is a File exactly when it ends the path |
| CodeChartaExport.CodeMapTree.SetAttributes | packages/mega-parser/src/plugins/exports/CodeChartaJsonExport.ts:88-90 | Only that node's attributes change; every path lookup is unchanged |
| CodeChartaExport.HoldsAddFile | packages/mega-parser/src/plugins/exports/CodeChartaJsonExport.ts:38-40 | After one more file, every file's path still leads to a node, and the last file with each path has its metrics on that node when it is a File |
| CodeChartaExport.CoveredAddFile | packages/mega-parser/src/plugins/exports/CodeChartaJsonExport.ts:65-85 | Adding a file creates nodes only on prefixes of its own segments |
| CodeChartaExport.CodeChartaJsonExport.constructor | packages/mega-parser/src/plugins/exports/CodeChartaJsonExport.ts:25-27 | The exporter is named `codeChartaJson`, with the single extension `cc.json` |
| CodeChartaExport.CodeChartaJsonExport.AddFileToTree | packages/mega-parser/src/plugins/exports/CodeChartaJsonExport.ts:64-91 | The file's segments lead to a node afterwards. Earlier nodes and lookups are kept. That node gets exactly the file's metrics if it is a File; otherwise no attribute changes |
| CodeChartaExport.CodeChartaJsonExport.BuildTree | packages/mega-parser/src/plugins/exports/CodeChartaJsonExport.ts:30-40 | After the loop, every file's path leads to a node. The last file with each path owns a File node's metrics. Every node but the root lies on a prefix of some file's segments |
| CodeChartaExport.CodeChartaJsonExport.Export | packages/mega-parser/src/plugins/exports/CodeChartaJsonExport.ts:29-62 | The envelope is a single Folder root named `root`, no edges, api `1.0` and the fixed project name. Names are unique among siblings, and every prefix of every file's segments is a node; there are no other nodes. The last file with a path gives a File node its metrics |
| CodeChartaExport.AttributeTypesLoop | packages/mega-parser/src/plugins/exports/CodeChartaJsonExport.ts:43-48 | The attribute types map each metric key of the first file to `absolute`, and are empty without files |
| CodeChartaExport.Serialise | packages/mega-parser/src/plugins/exports/CodeChartaJsonExport.ts:53 | The nested value handed to serialisation has unique sibling names, reaches every prefix of every path, has no other nodes, and carries the metrics of the last file with each path |
| LanguageDetector.DetectLanguage | packages/mega-parser/src/utils/languge-detector.ts:3-14 | Java iff the extension is `java`, TypeScript iff `ts`, Kotlin iff `kt` or `kts`, and Unknown for every other extension, `js` included |
| LanguageDetector.OnlyLastExtensionMatters | packages/mega-parser/src/utils/languge-detector.ts:4 | The extension is the lower-cased text after the last dot |
| LanguageDetector.DetectByLastPiece | packages/mega-parser/src/utils/languge-detector.ts:4 | Whatever precedes the last dot does not affect the language |
| LanguageDetector.DotFreeNameIsItsOwnExtension | packages/mega-parser/src/utils/languge-detector.ts:4 | A name without a dot is looked up whole, so a file named `kt` is Kotlin |
| LanguageDetector.CaseInsensitive | packages/mega-parser/src/utils/languge-detector.ts:4 | Lower-casing the name changes neither the extension nor the language |
| LanguageDetector.Examples | packages/mega-parser/src/utils/languge-detector.ts:4-13 | `X.JAVA` is Java and `X.js` is Unknown |
| LanguageDetector.InheritedExtensionEscapes | packages/mega-parser/src/utils/languge-detector.ts:13 | As written, an extension such as `constructor` returns an inherited `Object.prototype` member instead of a language |
| LanguageDetector.AsWrittenAgreesOutsidePrototypeKeys | packages/mega-parser/src/utils/languge-detector.ts:13 | For any other extension, the code as written and the own-key lookup agree |
| LegacyLanguageDetector.DetectLanguage | src/utils/languge-detector.ts:1-10 | The result is one of four strings: `java`, `javascript` and `typescript` exactly for `java`, `js` and `ts`, otherwise `unknown` |
| LegacyLanguageDetector.KotlinIsUnknown | src/utils/languge-detector.ts:3-9 | `.kt` files are `unknown` |
| LegacyLanguageDetector.InheritedExtensionEscapes | src/utils/languge-detector.ts:9 | As written, an extension such as `__proto__` returns an inherited member instead of a string |
| LegacyLanguageDetector.AsWrittenAgreesOutsidePrototypeKeys | src/utils/languge-detector.ts:9 | For any other extension, the code as written and the own-key lookup agree |
| RealLinesOfCode.SplitLines | packages/mega-parser/src/plugins/real-lines-of-code.ts:8 | Splitting on the three terminators gives at least one piece, and no piece contains `\r` or `\n` |
| RealLinesOfCode.SplitLinesIsSplitOfNormalized | packages/mega-parser/src/plugins/real-lines-of-code.ts:8 | Splitting on `\r\n`, `\r` or `\n` equals splitting on `\n` after writing every terminator as `\n` |
| RealLinesOfCode.NormalizeEolKeepsCount | packages/mega-parser/src/plugins/real-lines-of-code.ts:8-10 | Replacing `\r\n` and lone `\r` by `\n` leaves the count unchanged |
| RealLinesOfCode.ZeroIffBlank | packages/mega-parser/src/plugins/real-lines-of-code.ts:8-10 | The count is zero exactly when the content is empty or whitespace only |
| RealLinesOfCode.BlankContentCountsZero | packages/mega-parser/src/plugins/real-lines-of-code.ts:9 | Blank content counts no line |
| RealLinesOfCode.CountBound | packages/mega-parser/src/plugins/real-lines-of-code.ts:8-10 | The count is at most the number of `\n` and `\r` characters plus one |
| RealLinesOfCode.ConcatAddsCounts | packages/mega-parser/src/plugins/real-lines-of-code.ts:8-10 | Two contents joined by a newline count the sum of their own counts: no line is lost or gained at the seam |
| MegaParserCore.StoredPathNormalized | packages/mega-parser/src/index.ts:145-148 | The stored path is the relative path, or the name when there is none, with every backslash turned into `/` and every other character kept; so it has no backslash and the same length |
| MegaParserCore.ApplicablePlugins | packages/mega-parser/src/index.ts:94-96 | A plugin applies to a file exactly when it is enabled and its `supportedLanguages` contains the file's language string |
| MegaParserCore.MetricKeysExactly | packages/mega-parser/src/index.ts:93-103 | A record's metric keys are exactly the names of the enabled plugins that list its language, each mapped to that plugin's result |
| MegaParserCore.WildcardNeverMatches | packages/mega-parser/src/index.ts:94-96 | The line-count plugin declares only `"*"`, which is never a language, so it applies to no file and adds no metric |
| MegaParserCore.Resolve | packages/mega-parser/src/index.ts:63-71 | A plugin is enabled exactly when some given id names it; unknown ids are dropped |
| MegaParserCore.ResolveConcat | packages/mega-parser/src/index.ts:63-71 | Resolving a concatenation resolves each part in turn: plugins come in argument order, duplicates kept |
| MegaParserCore.ResolveOne | packages/mega-parser/src/index.ts:66-69 | A known id resolves to its plugin, and an unknown one to nothing |
| MegaParserCore.EnabledExportsKeys | packages/mega-parser/src/index.ts:77-85 | The enabled exporters are exactly the known ids given, each mapped to its exporter |
| MegaParserCore.MegaParser.constructor | packages/mega-parser/src/index.ts:49-57 | A new parser keeps the files and starts with no records, plugins or cached outputs |
| MegaParserCore.MegaParser.SetMetricPlugins | packages/mega-parser/src/index.ts:63-71 | The previous list is discarded and replaced by the resolved ids; nothing else changes |
| MegaParserCore.MegaParser.SetExportPlugins | packages/mega-parser/src/index.ts:77-85 | The enabled map is replaced by exactly the known ids given; nothing else changes |
| MegaParserCore.MegaParser.Run | packages/mega-parser/src/index.ts:90-119 | One record per file is appended, in input order, after the earlier records. Then each enabled exporter's output over all records is cached under its id, and other cache entries stay |
| MegaParserCore.MegaParser.AppendRecords | packages/mega-parser/src/index.ts:93-112 | The loop over the files appends their records in order and changes nothing else |
| MegaParserCore.MegaParser.CacheExports | packages/mega-parser/src/index.ts:115-118 | Every enabled id is set to its exporter's output over all records; entries for other ids stay as they were |
| MegaParserCore.MegaParser.PrepareFileObjects | packages/mega-parser/src/index.ts:138-157 | One object per file, in order, with the normalised path, the name, the detected language, the content and no metrics |
| MegaParserCore.MegaParser.GetExportOutput | packages/mega-parser/src/index.ts:126-128 | The cached output for an id, or nothing exactly when that id was never produced |
| MegaParserCore.ComputeMetrics | packages/mega-parser/src/index.ts:98-103 | Each applicable plugin's value is stored under its name, later plugins overwriting earlier ones |
| LegacyMegaParser.ApplicablePlugins | src/MegaParser.ts:46-51 | A plugin runs on a file exactly when its name is requested and it lists the file's language or `"*"` |
| LegacyMegaParser.ApplicableIff | src/MegaParser.ts:46-51 | The line counter runs exactly when requested, whatever the language; the Java complexity runs exactly when requested and the file is `java` |
| LegacyMegaParser.RecordShape | src/MegaParser.ts:45-78 | A record holds only the path and the metrics. Its metric keys are exactly the applicable plugins' names. Its path is the relative path, or the name, kept verbatim |
| LegacyMegaParser.OutputFileNames | src/MegaParser.ts:97-105 | Both exporters run, with no selection, producing `output.json` and `output.cc.json` |
| LegacyMegaParser.MegaParser.constructor | src/MegaParser.ts:36-40 | A new parser keeps the files and requested metrics, with no output yet |
| LegacyMegaParser.MegaParser.Run | src/MegaParser.ts:42-67 | One `{path, metrics}` record per file is appended, in input order, after the earlier ones. Then one download per exporter over all records |
| LegacyMegaParser.MegaParser.GenerateOutput | src/MegaParser.ts:97-106 | Each exporter's output is downloaded in list order, named after its first extension |
| LegacyMegaParser.ComputeMetrics | src/MegaParser.ts:53-58 | Each applicable plugin's value is stored under its name |
| WebStore.IndexOfId | apps/web/store/useStore.ts:43-47 | The position `find` stops at: a project with the id, with no earlier project having it, or -1 exactly when none has it |
| WebStore.FindProject | apps/web/store/useStore.ts:47 | `find` returns the first project with the id, or nothing exactly when no project has it |
| WebStore.FindAppended | apps/web/store/useStore.ts:91-102 | A project appended under a new id is found under it; if the id was already used, the earlier project is still the one found |
| WebStore.WithoutId | apps/web/store/useStore.ts:106 | The filter keeps exactly the projects with another id, in their order |
| WebStore.DeleteRemovesAll | apps/web/store/useStore.ts:104-108 | After deleting an id no project has it, and deleting it again changes nothing |
| WebStore.Updated | apps/web/store/useStore.ts:110-113 | The update keeps the list's length and order, merges the update into the projects with the id, and leaves the others unchanged |
| WebStore.UpdateIdempotent | apps/web/store/useStore.ts:110-113 | Applying the same update twice equals applying it once |
| WebStore.EmptyUpdateNoChange | apps/web/store/useStore.ts:110-113 | An update that sets no field leaves the list unchanged |
| WebStore.ResultsReplaced | apps/web/store/useStore.ts:127-136 | After replacing the results under an id, the project found there is the old one with exactly the new results; an absent id leaves the list unchanged |
| WebStore.SafeFile | apps/web/store/useStore.ts:145-152 | The stored copy never has an empty language |
| WebStore.SafeFileDefaults | apps/web/store/useStore.ts:138-153 | A complete file is stored as it is unless its language is empty. A file with no fields becomes `""`, `""`, `unknown`, `""`, `{}` and debug info `{}`. Storing a stored copy again changes nothing |
| WebStore.FilterFiles | apps/web/store/useStore.ts:81-84 | The filter keeps exactly the files whose lower-cased name or path contains the lower-cased term, in order |
| WebStore.FilterIgnoresTermCase | apps/web/store/useStore.ts:80-84 | The search does not depend on the case of the term |
| WebStore.ParentDirOf | apps/web/store/useStore.ts:59 | The directory part of `dir/name` is `dir`, and of a name without `/` it is empty |
| WebStore.Folders | apps/web/store/useStore.ts:58-60 | The folders are exactly the non-empty parent directories of some file, and there are no more of them than files |
| WebStore.RlocSumConcat | apps/web/store/useStore.ts:61 | The line total of a concatenation is the sum of the totals |
| WebStore.RlocSumBounds | apps/web/store/useStore.ts:61 | Files without an `rloc` metric count 0, and non-negative counts give a non-negative total |
| WebStore.Stats | apps/web/store/useStore.ts:46-61 | An unknown project gives all zeros. Otherwise the file count is the number of results. The folder count is the number of distinct non-empty parent directories, at most the file count. The line total sums `rloc` |
| WebStore.ExportAnalysis | apps/web/store/useStore.ts:161-187 | Fails without a current project, then for an unknown format. `SimpleJson` gives the results with extension `json`, `CodeChartaJson` an empty object with `cc.json` |
| WebStore.Store.constructor | apps/web/store/useStore.ts:35-39 | No projects, no current project, no selected file, background on |
| WebStore.Store.CurrentProject | apps/web/store/useStore.ts:41-44 | The first project with the current id; there is none exactly when no id is current or no project has it |
| WebStore.Store.GetProjectStats | apps/web/store/useStore.ts:46-61 | An unknown project gives all zeros, and there are never more folders than files |
| WebStore.Store.GetFilteredFiles | apps/web/store/useStore.ts:75-89 | Empty for no current project or an empty term; otherwise exactly the current project's matching files, in order |
| WebStore.Store.GetExportAnalysis | apps/web/store/useStore.ts:161-187 | Without a current project it fails with `No current project`; with one it succeeds exactly for a known format. `SimpleJson` gives the current project's results with extension `json`, `CodeChartaJson` an empty object with `cc.json` |
| WebStore.Store.AddProject | apps/web/store/useStore.ts:91-102 | An empty project under the given id is appended and made current, and its id is returned |
| WebStore.Store.DeleteProject | apps/web/store/useStore.ts:104-108 | Every project with the id is removed. The current id is cleared only if it was that id |
| WebStore.Store.UpdateProject | apps/web/store/useStore.ts:110-113 | Only the projects with the id are merged with the update; nothing else changes |
| WebStore.Store.SetCurrentProject | apps/web/store/useStore.ts:115-125 | `new` with a non-empty answer adds a project and makes it current; `new` without one changes nothing. Any other id becomes current |
| WebStore.Store.SetAnalysisResults | apps/web/store/useStore.ts:127-136 | The projects under the current id get the results; with no current id, or the empty one, nothing changes |
| WebStore.Store.SetSelectedFile | apps/web/store/useStore.ts:138-159 | Passing nothing clears the selection. A file is stored with its defaults filled in, its debug info included. Nothing else changes |
| WebStore.Store.ToggleBackground | apps/web/store/useStore.ts:189-192 | The background flag flips and nothing else changes |
| Sidebar.IndexOfName | apps/web/components/Sidebar.tsx:41 | `find` returns the first item with the name, or -1 exactly when none has it |
| Sidebar.InsertUnique | apps/web/components/Sidebar.tsx:41-55 | An existing item is searched before one is created, so sibling names stay unique at every level |
| Sidebar.InsertTagged | apps/web/components/Sidebar.tsx:44-50 | Only file items carry a path and a language, and a file item's path is the full path of the file that created it |
| Sidebar.InsertPresent | apps/web/components/Sidebar.tsx:36-59 | After a file's walk its segments lead, name by name, to an item |
| Sidebar.InsertKeeps | apps/web/components/Sidebar.tsx:39-59 | A walk keeps every item that was already reachable |
| Sidebar.InsertExisting | apps/web/components/Sidebar.tsx:41-43 | A walk along segments that are all present changes nothing |
| Sidebar.GrowInvariants | apps/web/components/Sidebar.tsx:29-60 | After the loop, names are unique among siblings, items are tagged, the root is the `root` folder, and every file with a path is reachable |
| Sidebar.RepeatedPathAddsNothing | apps/web/components/Sidebar.tsx:41-43 | A file whose path an earlier file had adds no item |
| Sidebar.PathlessFilesAddNothing | apps/web/components/Sidebar.tsx:32-34 | Files without a path are skipped and leave the root empty |
| Sidebar.SortItems | apps/web/components/Sidebar.tsx:64-69 | Sorting permutes the list: the multiset of items is unchanged |
| Sidebar.FoldersFirst | apps/web/components/Sidebar.tsx:64-69 | In a sorted list no folder comes after a file |
| Sidebar.SortItemsSorted | apps/web/components/Sidebar.tsx:64-69 | With a total preorder on names, the sorted list puts folders first and same-kind items in name order |
| Sidebar.SortItemsDistinct | apps/web/components/Sidebar.tsx:64-69 | Sorting keeps names distinct |
| Sidebar.SortTree | apps/web/components/Sidebar.tsx:63-76 | Sorting below an item keeps its name, kind, path, language and whether it has children |
| Sidebar.SortTreeSorted | apps/web/components/Sidebar.tsx:63-76 | After the recursive sort, every children list at every level is sorted |
| Sidebar.SortTreeUnique | apps/web/components/Sidebar.tsx:63-76 | The recursive sort keeps sibling names unique |
| Sidebar.SortTreeTagged | apps/web/components/Sidebar.tsx:63-76 | The recursive sort keeps every file item's path and language |
| Sidebar.SortTreePresent | apps/web/components/Sidebar.tsx:63-76 | The recursive sort keeps every path reachable |
| Sidebar.FileTreeProperties | apps/web/components/Sidebar.tsx:24-83 | The result is empty for no files or only pathless ones. The top level and every children list below it are sorted, with unique names. File items carry their own path, and every file with a path is reachable |
| Sidebar.BuildFileTree | apps/web/components/Sidebar.tsx:24-83 | The loop over the files followed by the sort computes the tree whose properties `FileTreeProperties` states |
| MegaParserUi.LanguageOfIsLookup | apps/web/components/mega-parser-ui.tsx:33-54 | The page's language is the table's entry for the extension, and Unknown exactly off the table |
| MegaParserUi.LanguageTable | apps/web/components/mega-parser-ui.tsx:33-50 | The table in both directions, language by language: `java`; `ts`/`tsx`; `kt`/`kts`; `css`; `html`/`htm`; `scss`; `json`; `yaml`/`yml`; `xml`; `md`/`markdown`; `txt` |
| MegaParserUi.AgreesWithEngineDetector | apps/web/components/mega-parser-ui.tsx:52-55 | Wherever the engine's detector knows a language, the page agrees with it |
| MegaParserUi.TsxOnlyOnThePage | apps/web/components/mega-parser-ui.tsx:36 | `App.tsx` is TypeScript on the page, but Unknown to the engine |
| MegaParserUi.DetectIgnoresCase | apps/web/components/mega-parser-ui.tsx:53 | Only the lower-cased text after the last dot counts |
| MegaParserUi.InheritedExtensionEscapes | apps/web/components/mega-parser-ui.tsx:54 | As written, `a.constructor` yields an inherited member instead of a language |
| MegaParserUi.AsWrittenAgreesOutsidePrototypeKeys | apps/web/components/mega-parser-ui.tsx:54 | For any other extension, the code as written and the own-key lookup agree |
| MegaParserUi.Without | apps/web/components/mega-parser-ui.tsx:108 | The filter removes every occurrence of the exporter, keeps all others, and keeps their order |
| MegaParserUi.ToggleFlips | apps/web/components/mega-parser-ui.tsx:105-112 | Toggling flips that exporter's membership and no other's; an absent exporter is appended at the end |
| MegaParserUi.ToggleTwice | apps/web/components/mega-parser-ui.tsx:105-112 | Toggling twice restores the set of exporters, and restores the list itself when the exporter was absent |
| MegaParserUi.ToggleNoDuplicates | apps/web/components/mega-parser-ui.tsx:105-112 | A duplicate-free list stays duplicate-free |
| MegaParserUi.ZeroTotal | apps/web/components/mega-parser-ui.tsx:160-173 | Every language starts with a count, and the counts start at 0 |
| MegaParserUi.AnalyzableFilesExactly | apps/web/components/mega-parser-ui.tsx:176-185 | The analysable files are exactly those whose normalised path the rules do not ignore, in their original order |
| MegaParserUi.CountFile | apps/web/components/mega-parser-ui.tsx:176-188 | One turn of the loop keeps the total, adds one file to either the analysable or the ignored count, and keeps a count for every language |
| MegaParserUi.CountingSpec | apps/web/components/mega-parser-ui.tsx:156-188 | After the loop, analysable plus ignored equals total. Each language's count is the number of analysable files of that language, and the counts sum to the analysable count |
| MegaParserUi.UpdateFileStats | apps/web/components/mega-parser-ui.tsx:156-188 | The loop computes the counting whose properties `CountingSpec` states |

## Left out

- Regular-expression semantics are not modelled. Lookbehind, the `m` flag, backtracking, and what each pattern of the tables matches are all absent. Patterns are data, and a regex engine is a parameter, sound but otherwise unconstrained. So no statement depends on which text a pattern matches. In particular, the claim that `else if` is consumed as one match in the legacy Java alternation needs a concrete matcher and is not stated.
- JSON text is not produced. `JSON.stringify` in the exporters and in `exportAnalysis` is replaced by the value being serialised. The SimpleJson exporter is that identity.
- File reading is not modelled, because it is I/O. This covers `FileReader` in both orchestrators, the adapters and the `downloadFile` DOM calls. The file contents are given, and a download is recorded as a (content, file name) value.
- `src/plugins/exports/CodeChartaJsonExport.ts` and `packages/mega-parser/src/plugins/exports/SimpleJsonExport.ts` are not part of this model. The older orchestrator's CodeCharta download uses the engine's CodeCharta exporter in its place. Likewise `src/plugins/real-lines-of-code.ts`, which `src/MegaParser.ts` imports, is not part of this model. The older orchestrator uses the engine's line counter in its place, so `LegacyMegaParser.ApplicableIff` relies on that plugin's name `realLinesOfCode` and its `["*"]` language list. `IExportPlugin.ts`, `src/plugins/exports/SimpleJsonExport.ts` and `src/types/CodeCharta.ts` contribute only the shapes they declare.
- The CLI, the Docker/SonarQube automation, the performance script and the React components other than the three pieces above are outside the metrics core.
- String case handling covers ASCII only. `toLowerCase` is modelled on the ASCII letters, because Unicode case mapping is not available.
- `ComplexityPattern` has no `baseComplexity` or `code` fields, because the plugin never fills them.
- The floating-point average complexity of `getProjectStats` is left out, because it is a floating-point display.
- `Date.now()` and `window.prompt` are external inputs. They are parameters of `AddProject` and `SetCurrentProject`.
- `localeCompare` is left abstract, because locale rules are outside the model. Names are ordered by a parameter that is required only to be a total preorder.
- The sidebar tree is built as a value, so aliasing between the tree and the cursor is not represented. The source pushes into `children` arrays in place through a moving `currentLevel` cursor. The model rebuilds the item along the path instead, which yields the same final tree. The sort is an insertion sort that places each item after the items it ties with, so, like the stable `Array.prototype.sort`, it keeps tied items in their input order; that stability is not itself stated as a lemma. The Fuse.js search of the sidebar is left out.
- The ignore rules of the analysis page are a parameter. The rules built from `.gitignore` and the exclude patterns by the `ignore` library are the predicate `ignores`, because that library is external.
- Map iteration order is not modelled. JavaScript `Map` and object key order only affect serialisation, which is left out, so maps are unordered.
- WebStore.Store.GetProjectStats: states only the zeros for an unknown project and the folder bound; the exact counts are stated by `WebStore.Stats`, the function it returns.
- MegaParserCore.MegaParser.PrepareFileObjects, MegaParserCore.MegaParser.Run, MegaParserUi.UpdateFileStats and MegaParserUi.CountingSpec use the corrected detectors (see Findings). For a name such as `a.constructor`, the source does something different in each:
  - `prepareFileObjects` stores the inherited `Object` function as the record's `language`, and `run` pushes it into the records. No plugin lists that value, so the metrics are the same as for Unknown; only the language field differs.
  - The page's counting loop increments `languageStats[Object]`. That creates a NaN entry under a key that is not a language, after which the language counts no longer sum to `analyzableFiles`.
  - The model counts such a file under Unknown. The older orchestrator's records hold no language, and its plugin selection treats the inherited value like `unknown`.
- `getDebugInfo` and `getAllExportOutputs` only return a field; they are modelled as functions without a contract of their own.

## Findings

| source | as written | input that shows it | evidently intended | confidence | as-written member | corrected member |
|---|---|---|---|---|---|---|
| packages/mega-parser/src/utils/languge-detector.ts:13 | `LanguageExtensions[ext]` on an object literal also finds members inherited from `Object.prototype` | a file named `Main.constructor`: the result is the `Object` constructor function, not a `Language` | unlisted extensions give `Unknown` | not executed | LanguageDetector.InheritedExtensionEscapes | LanguageDetector.DetectLanguage |
| src/utils/languge-detector.ts:9 | the same inherited lookup in the string-valued detector | a file named `a.__proto__`: the result is `Object.prototype`, not a string | unlisted extensions give `"unknown"` | not executed | LegacyLanguageDetector.InheritedExtensionEscapes | LegacyLanguageDetector.DetectLanguage |
| apps/web/components/mega-parser-ui.tsx:54 | the same inherited lookup in the page's detector | a file named `a.constructor` is counted under a key that is not a language | unlisted extensions give `Unknown` | not executed | MegaParserUi.InheritedExtensionEscapes | MegaParserUi.LanguageOfIsLookup |
