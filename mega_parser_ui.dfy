/**
 * Three pieces of the web application's analysis page: its own
 * extension-to-language table, the updater that switches an exporter on or
 * off, and the loop that counts the selected files by language before an
 * analysis.
 */
module MegaParserUi {
  import opened Text
  import opened Types
  import JsObject
  import LanguageDetector
  import Seqs

  /** The page's extension table: sixteen extensions, every language but `Unknown`. */
  const LanguageExtensions: map<string, Language> := map[
    "java" := Java,
    "ts" := TypeScript,
    "tsx" := TypeScript,
    "kt" := Kotlin,
    "kts" := Kotlin,
    "css" := CSS,
    "html" := HTML,
    "htm" := HTML,
    "scss" := SCSS,
    "json" := JSON,
    "yaml" := YAML,
    "yml" := YAML,
    "xml" := XML,
    "md" := Markdown,
    "markdown" := Markdown,
    "txt" := Text
  ]

  /** The table's entries, extension by extension; an extension it does not list gives `Unknown`. */
  function LanguageOf(ext: string): Language
  {
    match ext
    case "java" => Java
    case "ts" => TypeScript
    case "tsx" => TypeScript
    case "kt" => Kotlin
    case "kts" => Kotlin
    case "css" => CSS
    case "html" => HTML
    case "htm" => HTML
    case "scss" => SCSS
    case "json" => JSON
    case "yaml" => YAML
    case "yml" => YAML
    case "xml" => XML
    case "md" => Markdown
    case "markdown" => Markdown
    case "txt" => Text
    case _ => Unknown
  }

  /** `LanguageOf` is the lookup of the table on its own keys: `Unknown` exactly off the table. */
  lemma LanguageOfIsLookup(ext: string)
    ensures LanguageOf(ext) == if ext in LanguageExtensions then LanguageExtensions[ext] else Unknown
    ensures LanguageOf(ext) == Unknown <==> ext !in LanguageExtensions
  {
  }

  /** The mapping, language by language, in both directions. */
  lemma LanguageTable(ext: string)
    ensures var l := LanguageOf(ext);
      (l == Java <==> ext == "java") &&
      (l == TypeScript <==> ext == "ts" || ext == "tsx") &&
      (l == Kotlin <==> ext == "kt" || ext == "kts") &&
      (l == CSS <==> ext == "css") &&
      (l == HTML <==> ext == "html" || ext == "htm") &&
      (l == SCSS <==> ext == "scss") &&
      (l == JSON <==> ext == "json") &&
      (l == YAML <==> ext == "yaml" || ext == "yml") &&
      (l == XML <==> ext == "xml") &&
      (l == Markdown <==> ext == "md" || ext == "markdown") &&
      (l == Text <==> ext == "txt")
  {
  }

  /** `detectLanguage`: the lower-cased text after the last dot, looked up in the table. */
  function DetectLanguage(fileName: string): Language
  {
    LanguageOf(LanguageDetector.Extension(fileName))
  }

  /** Wherever the metrics package's detector recognises a language, the page agrees with it. */
  lemma AgreesWithEngineDetector(fileName: string)
    ensures LanguageDetector.DetectLanguage(fileName) != Unknown ==>
      DetectLanguage(fileName) == LanguageDetector.DetectLanguage(fileName)
  {
  }

  /** The page also knows `tsx`, which the metrics package calls `Unknown`. */
  lemma TsxOnlyOnThePage()
    ensures LanguageDetector.DetectLanguage("App.tsx") == Unknown && DetectLanguage("App.tsx") == TypeScript
  {
    assert "App.tsx" == "App" + "." + "tsx";
    LanguageDetector.OnlyLastExtensionMatters("App", "tsx");
    ToLowerNoCapitals("tsx");
  }

  /** Only the extension counts, whatever its case. */
  lemma DetectIgnoresCase(fileName: string, prefix: string, ext: string)
    requires '.' !in ext
    ensures DetectLanguage(ToLower(fileName)) == DetectLanguage(fileName)
    ensures DetectLanguage(prefix + "." + ext) == DetectLanguage(ext)
  {
    LanguageDetector.CaseInsensitive(fileName);
    LanguageDetector.DetectByLastPiece(prefix, ext);
    LanguageDetector.OnlyLastExtensionMatters(prefix, ext);
    SplitWithoutSeparator(ext, '.');
  }

  /** `LanguageExtensions[extension] || Language.Unknown`, with the inherited members of the object literal. */
  function DetectLanguageAsWritten(fileName: string): LanguageDetector.Detected
  {
    match JsObject.Get(LanguageExtensions, LanguageDetector.Extension(fileName))
    case Own(v) => LanguageDetector.Lang(v)
    case Inherited(k) => LanguageDetector.PrototypeMember(k)
    case Missing => LanguageDetector.Lang(Unknown)
  }

  /** `a.constructor` or `a.__proto__` yields an inherited member instead of a language. */
  lemma InheritedExtensionEscapes(stem: string, ext: string)
    requires ext in JsObject.PrototypeKeys && ext !in LanguageExtensions
    requires '.' !in ext && ToLower(ext) == ext
    ensures DetectLanguageAsWritten(stem + "." + ext) == LanguageDetector.PrototypeMember(ext)
    ensures DetectLanguage(stem + "." + ext) == Unknown
  {
    LanguageDetector.OnlyLastExtensionMatters(stem, ext);
    LanguageOfIsLookup(ext);
  }

  lemma AsWrittenAgreesOutsidePrototypeKeys(fileName: string)
    requires LanguageDetector.Extension(fileName) !in JsObject.PrototypeKeys
    ensures DetectLanguageAsWritten(fileName) == LanguageDetector.Lang(DetectLanguage(fileName))
  {
    LanguageOfIsLookup(LanguageDetector.Extension(fileName));
  }

  // ---------------------------------------------------------------- exporter toggle

  /** `exporters.filter(e => e !== exporter)`. */
  function Without(exporters: seq<string>, exporter: string): (r: seq<string>)
    ensures exporter !in r
    ensures forall e :: e != exporter ==> (e in r <==> e in exporters)
    ensures Seqs.Sub(r, exporters)
  {
    if |exporters| == 0 then []
    else
      var last := exporters[|exporters| - 1];
      var front := Without(exporters[..|exporters| - 1], exporter);
      assert forall e :: e in exporters <==> e in exporters[..|exporters| - 1] || e == last;
      if last != exporter then
        assert (front + [last])[..|front|] == front;
        front + [last]
      else front
  }

  /** The updater of `handleExporterChange`: a listed exporter is removed, any other appended. */
  function Toggle(exporters: seq<string>, exporter: string): seq<string>
  {
    if exporter in exporters then Without(exporters, exporter) else exporters + [exporter]
  }

  /** Toggling flips the exporter's membership and no other. */
  lemma ToggleFlips(exporters: seq<string>, exporter: string)
    ensures exporter in Toggle(exporters, exporter) <==> exporter !in exporters
    ensures forall e :: e != exporter ==> (e in Toggle(exporters, exporter) <==> e in exporters)
    ensures exporter !in exporters ==> Toggle(exporters, exporter) == exporters + [exporter]
  {
  }

  /** Removing an exporter that is not listed changes nothing. */
  lemma {:induction false} WithoutAbsent(exporters: seq<string>, exporter: string)
    requires exporter !in exporters
    ensures Without(exporters, exporter) == exporters
  {
    if |exporters| > 0 {
      var front := exporters[..|exporters| - 1];
      WithoutAbsent(front, exporter);
      assert exporters == front + [exporters[|exporters| - 1]];
    }
  }

  /**
   * Toggling twice restores the set of exporters; it restores the list
   * itself when the exporter was not listed.
   */
  lemma ToggleTwice(exporters: seq<string>, exporter: string)
    ensures forall e :: e in Toggle(Toggle(exporters, exporter), exporter) <==> e in exporters
    ensures exporter !in exporters ==> Toggle(Toggle(exporters, exporter), exporter) == exporters
  {
    if exporter !in exporters {
      var once := exporters + [exporter];
      assert exporter in once;
      var front := once[..|once| - 1];
      assert front == exporters;
      WithoutAbsent(exporters, exporter);
      assert Without(once, exporter) == Without(exporters, exporter);
    }
  }

  predicate NoDuplicates(xs: seq<string>)
  {
    forall i, j :: 0 <= i < j < |xs| ==> xs[i] != xs[j]
  }

  lemma {:induction false} WithoutNoDuplicates(exporters: seq<string>, exporter: string)
    requires NoDuplicates(exporters)
    ensures NoDuplicates(Without(exporters, exporter))
  {
    if |exporters| > 0 {
      var front := exporters[..|exporters| - 1];
      var last := exporters[|exporters| - 1];
      WithoutNoDuplicates(front, exporter);
      assert last !in front;
    }
  }

  /** A duplicate-free list stays duplicate-free. */
  lemma ToggleNoDuplicates(exporters: seq<string>, exporter: string)
    requires NoDuplicates(exporters)
    ensures NoDuplicates(Toggle(exporters, exporter))
  {
    if exporter in exporters {
      WithoutNoDuplicates(exporters, exporter);
    }
  }

  // ---------------------------------------------------------------- file statistics

  /** A selected file: its name and its `webkitRelativePath` (empty when absent). */
  datatype UiFile = UiFile(name: string, webkitRelativePath: string)

  datatype FileStats = FileStats(totalFiles: nat, analyzableFiles: nat, ignoredFiles: nat, languageStats: map<Language, nat>)

  /** Every language counted from 0. */
  const ZeroCounts: map<Language, nat> := map[Java := 0, Kotlin := 0, TypeScript := 0, CSS := 0, HTML := 0, SCSS := 0, JSON := 0, YAML := 0, XML := 0, Markdown := 0, Text := 0, Unknown := 0]

  /** `(webkitRelativePath || name).replace(/\\/g, "/")`. */
  function NormalizedPath(f: UiFile): string
  {
    ReplaceChar(if f.webkitRelativePath != "" then f.webkitRelativePath else f.name, '\\', '/')
  }

  /** The sum of the counts of the listed languages. */
  function CountSum(counts: map<Language, nat>, languages: seq<Language>): nat
    requires forall l :: l in languages ==> l in counts
  {
    if |languages| == 0 then 0
    else CountSum(counts, languages[..|languages| - 1]) + counts[languages[|languages| - 1]]
  }

  /** One more for a listed language is one more in the sum. */
  lemma {:induction false} CountSumIncrement(counts: map<Language, nat>, languages: seq<Language>, l: Language)
    requires forall x :: x in languages ==> x in counts
    requires l in counts
    requires forall i, j :: 0 <= i < j < |languages| ==> languages[i] != languages[j]
    ensures CountSum(counts[l := counts[l] + 1], languages) == CountSum(counts, languages) + (if l in languages then 1 else 0)
  {
    if |languages| > 0 {
      var front := languages[..|languages| - 1];
      CountSumIncrement(counts, front, l);
      assert forall x :: x in front ==> x in languages;
    }
  }

  lemma {:induction false} CountSumZero(languages: seq<Language>)
    requires forall l :: l in languages ==> l in ZeroCounts
    ensures CountSum(ZeroCounts, languages) == 0
  {
    if |languages| > 0 {
      assert forall l :: l in languages[..|languages| - 1] ==> l in languages;
      CountSumZero(languages[..|languages| - 1]);
    }
  }

  /** A count for every language. */
  ghost predicate Complete(counts: map<Language, nat>)
  {
    forall l: Language :: l in counts
  }

  /** The sum of all the per-language counts. */
  function Total(counts: map<Language, nat>): nat
    requires Complete(counts)
  {
    CountSum(counts, AllLanguages)
  }

  lemma ZeroTotal()
    ensures Complete(ZeroCounts) && Total(ZeroCounts) == 0
  {
    forall l: Language
      ensures l in ZeroCounts
    {
      LanguageNamesDistinct(l, l);
    }
    CountSumZero(AllLanguages);
  }

  lemma IncrementTotal(counts: map<Language, nat>, l: Language)
    requires Complete(counts)
    ensures Complete(counts[l := counts[l] + 1]) && Total(counts[l := counts[l] + 1]) == Total(counts) + 1
  {
    LanguageNamesDistinct(l, l);
    assert forall i, j :: 0 <= i < j < |AllLanguages| ==> AllLanguages[i] != AllLanguages[j];
    CountSumIncrement(counts, AllLanguages, l);
  }

  /** The files the ignore rules let through, in order. */
  function AnalyzableFiles(files: seq<UiFile>, ignores: string -> bool): (r: seq<UiFile>)
    ensures |r| <= |files|
  {
    if |files| == 0 then []
    else
      var last := files[|files| - 1];
      var front := AnalyzableFiles(files[..|files| - 1], ignores);
      if !ignores(NormalizedPath(last)) then front + [last] else front
  }

  /** Exactly the files whose normalised path the rules do not ignore, in their original order. */
  lemma {:induction false} AnalyzableFilesExactly(files: seq<UiFile>, ignores: string -> bool)
    ensures forall f :: f in AnalyzableFiles(files, ignores) <==> f in files && !ignores(NormalizedPath(f))
    ensures Seqs.Sub(AnalyzableFiles(files, ignores), files)
  {
    if |files| > 0 {
      var last := files[|files| - 1];
      var front := AnalyzableFiles(files[..|files| - 1], ignores);
      AnalyzableFilesExactly(files[..|files| - 1], ignores);
      assert forall f :: f in files <==> f in files[..|files| - 1] || f == last;
      if !ignores(NormalizedPath(last)) {
        assert (front + [last])[..|front|] == front;
      }
    }
  }

  /** Counting one more file extends the analysable list by that file, unless it is ignored. */
  lemma AnalyzableStep(files: seq<UiFile>, k: nat, ignores: string -> bool)
    requires k < |files|
    ensures ignores(NormalizedPath(files[k])) ==> AnalyzableFiles(files[..k + 1], ignores) == AnalyzableFiles(files[..k], ignores)
    ensures !ignores(NormalizedPath(files[k])) ==>
      AnalyzableFiles(files[..k + 1], ignores) == AnalyzableFiles(files[..k], ignores) + [files[k]]
  {
    assert files[..k + 1][..k] == files[..k];
  }

  /*
   * The counting below is stated for any language detector `detect`;
   * `updateFileStats` uses the page's `detectLanguage` on the file name.
   */

  /** How many of `files` `detect` classifies as `language`. */
  function CountOf(files: seq<UiFile>, detect: string -> Language, language: Language): (n: nat)
    ensures n <= |files|
  {
    if |files| == 0 then 0
    else CountOf(files[..|files| - 1], detect, language) + (if detect(files[|files| - 1].name) == language then 1 else 0)
  }

  /** The language of each of `files`, in order. */
  function LanguagesOf(files: seq<UiFile>, detect: string -> Language): (r: seq<Language>)
    ensures |r| == |files|
  {
    seq(|files|, i requires 0 <= i < |files| => detect(files[i].name))
  }

  lemma LanguagesOfAppend(files: seq<UiFile>, f: UiFile, detect: string -> Language)
    ensures LanguagesOf(files + [f], detect) == LanguagesOf(files, detect) + [detect(f.name)]
  {
    assert LanguagesOf(files + [f], detect)[..|files|] == LanguagesOf(files, detect);
  }

  /** The counts the loop builds: every language from 0, then one more for each language in turn. */
  function Tally(languages: seq<Language>): (counts: map<Language, nat>)
    ensures Complete(counts)
  {
    if |languages| == 0 then ZeroTotal(); ZeroCounts
    else
      var counts := Tally(languages[..|languages| - 1]);
      var language := languages[|languages| - 1];
      counts[language := counts[language] + 1]
  }

  lemma TallyAppend(languages: seq<Language>, language: Language)
    ensures Tally(languages + [language]) == Tally(languages)[language := Tally(languages)[language] + 1]
  {
    assert (languages + [language])[..|languages|] == languages;
  }

  /** Each language's count is the number of `files` of that language. */
  ghost predicate CountsOf(counts: map<Language, nat>, files: seq<UiFile>, detect: string -> Language)
  {
    forall l :: l in counts && counts[l] == CountOf(files, detect, l)
  }

  /** The counts of a tally add up to the number of languages tallied. */
  lemma {:induction false} TallyTotal(languages: seq<Language>)
    ensures Total(Tally(languages)) == |languages|
  {
    if |languages| == 0 {
      ZeroTotal();
    } else {
      var front := languages[..|languages| - 1];
      TallyTotal(front);
      IncrementTotal(Tally(front), languages[|languages| - 1]);
    }
  }

  /** The tally of the files' languages counts each language's files. */
  lemma {:induction false} TallyCounts(files: seq<UiFile>, detect: string -> Language)
    ensures CountsOf(Tally(LanguagesOf(files, detect)), files, detect)
  {
    if |files| > 0 {
      var front := files[..|files| - 1];
      var last := files[|files| - 1];
      TallyCounts(front, detect);
      assert files == front + [last];
      LanguagesOfAppend(front, last, detect);
      TallyAppend(LanguagesOf(front, detect), detect(last.name));
    }
  }

  /** What the loop of `updateFileStats` has counted after the first `k` files. */
  ghost predicate Counted(stats: FileStats, files: seq<UiFile>, k: nat, ignores: string -> bool, detect: string -> Language)
    requires k <= |files|
  {
    var analyzable := AnalyzableFiles(files[..k], ignores);
    stats == FileStats(|files|, |analyzable|, k - |analyzable|, Tally(LanguagesOf(analyzable, detect)))
  }

  /**
   * One turn of the loop of `updateFileStats`: an ignored file adds one to
   * the ignored count, any other one to the analysable count and to its
   * language's count.
   */
  function CountFile(stats: FileStats, file: UiFile, ignores: string -> bool, detect: string -> Language): (next: FileStats)
    requires Complete(stats.languageStats)
    ensures Complete(next.languageStats)
    ensures next.totalFiles == stats.totalFiles
    ensures next.analyzableFiles + next.ignoredFiles == stats.analyzableFiles + stats.ignoredFiles + 1
  {
    if ignores(NormalizedPath(file)) then stats.(ignoredFiles := stats.ignoredFiles + 1)
    else
      var language := detect(file.name);
      stats.(analyzableFiles := stats.analyzableFiles + 1,
             languageStats := stats.languageStats[language := stats.languageStats[language] + 1])
  }

  /** The loop of `updateFileStats` over `files`, from zero counts. */
  function Counting(files: seq<UiFile>, ignores: string -> bool, detect: string -> Language, totalFiles: nat): (stats: FileStats)
    ensures Complete(stats.languageStats)
  {
    if |files| == 0 then ZeroTotal(); FileStats(totalFiles, 0, 0, ZeroCounts)
    else CountFile(Counting(files[..|files| - 1], ignores, detect, totalFiles), files[|files| - 1], ignores, detect)
  }

  /** A turn of the loop counts one more file. */
  lemma CountFileCounted(stats: FileStats, files: seq<UiFile>, k: nat, ignores: string -> bool, detect: string -> Language)
    requires k < |files| && Counted(stats, files, k, ignores, detect)
    ensures Complete(stats.languageStats)
    ensures Counted(CountFile(stats, files[k], ignores, detect), files, k + 1, ignores, detect)
  {
    AnalyzableStep(files, k, ignores);
    if !ignores(NormalizedPath(files[k])) {
      var analyzable := AnalyzableFiles(files[..k], ignores);
      LanguagesOfAppend(analyzable, files[k], detect);
      TallyAppend(LanguagesOf(analyzable, detect), detect(files[k].name));
    }
  }

  /** Counting the first `k` files of a list counts its first `k` files. */
  lemma {:induction false} CountingCounted(files: seq<UiFile>, k: nat, ignores: string -> bool, detect: string -> Language)
    requires k <= |files|
    ensures Counted(Counting(files[..k], ignores, detect, |files|), files, k, ignores, detect)
  {
    if k == 0 {
      assert files[..0] == [];
    } else {
      CountingCounted(files, k - 1, ignores, detect);
      assert files[..k][..k - 1] == files[..k - 1];
      CountFileCounted(Counting(files[..k - 1], ignores, detect, |files|), files, k - 1, ignores, detect);
    }
  }

  /**
   * Counting a whole list: every file is either analysable or ignored, the
   * analysable ones are those the rules let through, each language's count
   * is the number of analysable files of that language, and the counts add
   * up to the analysable count.
   */
  lemma CountingSpec(files: seq<UiFile>, ignores: string -> bool, detect: string -> Language)
    ensures var stats := Counting(files, ignores, detect, |files|);
      stats.totalFiles == |files| && stats.analyzableFiles + stats.ignoredFiles == stats.totalFiles &&
      stats.analyzableFiles == |AnalyzableFiles(files, ignores)| &&
      CountsOf(stats.languageStats, AnalyzableFiles(files, ignores), detect) &&
      Total(stats.languageStats) == stats.analyzableFiles
  {
    CountingCounted(files, |files|, ignores, detect);
    assert files[..|files|] == files;
    TallyCounts(AnalyzableFiles(files, ignores), detect);
    TallyTotal(LanguagesOf(AnalyzableFiles(files, ignores), detect));
  }

  /**
   * The counting loop of `updateFileStats`. The ignore rules are built from
   * the `.gitignore` file and the exclude patterns by the `ignore` library,
   * and are given here as the predicate `ignores`.
   */
  method UpdateFileStats(fileList: seq<UiFile>, ignores: string -> bool) returns (stats: FileStats)
    ensures stats == Counting(fileList, ignores, DetectLanguage, |fileList|)
  {
    stats := FileStats(|fileList|, 0, 0, ZeroCounts);
    for k := 0 to |fileList|
      invariant stats == Counting(fileList[..k], ignores, DetectLanguage, |fileList|)
    {
      assert fileList[..k + 1][..k] == fileList[..k];
      var file := fileList[k];
      var normalizedPath := NormalizedPath(file);
      if ignores(normalizedPath) {
        stats := stats.(ignoredFiles := stats.ignoredFiles + 1);
      } else {
        var language := DetectLanguage(file.name);
        stats := stats.(analyzableFiles := stats.analyzableFiles + 1,
                        languageStats := stats.languageStats[language := stats.languageStats[language] + 1]);
      }
    }
    assert fileList[..|fileList|] == fileList;
  }
}
