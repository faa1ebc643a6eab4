/**
 * `MegaParser` of the metrics package: it holds the enabled metric plugins
 * (a list) and export plugins (keyed by identifier), appends one record per
 * input file to `rawOutputData` on every run, and caches each enabled
 * exporter's output by identifier.
 *
 * Plugins are values here: the metric plugins' `calculate` is called without
 * the debug flag, which leaves their state untouched, and the exporters keep
 * no state.
 */
module MegaParserCore {
  import opened Base
  import opened Text
  import opened Types
  import opened RegexEngine
  import LanguageDetector
  import RealLinesOfCode
  import SonarComplexity
  import CC = CodeChartaExport

  // ------------------------------------------------------------ plugins

  /** The values of `MetricPluginEnum` and `ExportPluginEnum`. */
  const RealLinesOfCodeId: string := "RealLinesOfCode"
  const SonarComplexityId: string := "SonarComplexity"
  const SimpleJsonId: string := "SimpleJson"
  const CodeChartaJsonId: string := "CodeChartaJson"

  datatype MetricPlugin = RealLinesOfCodePlugin | SonarComplexityPlugin

  function PluginName(p: MetricPlugin): string
  {
    match p
    case RealLinesOfCodePlugin => RealLinesOfCode.Name
    case SonarComplexityPlugin => "sonar_complexity"
  }

  /** `supportedLanguages`, as the strings `includes` compares against. */
  function SupportedLanguages(p: MetricPlugin): seq<string>
  {
    match p
    case RealLinesOfCodePlugin => RealLinesOfCode.SupportedLanguages
    case SonarComplexityPlugin => [LanguageName(Java), LanguageName(Kotlin), LanguageName(TypeScript)]
  }

  /** `plugin.calculate(content, language)`. */
  function MetricValue(engine: Engine, p: MetricPlugin, content: string, language: Language): int
    requires Sound(engine)
  {
    match p
    case RealLinesOfCodePlugin => RealLinesOfCode.Calculate(content)
    case SonarComplexityPlugin => SonarComplexity.Complexity(engine, content, language)
  }

  /** `availableMetricPlugins.get(id)`. */
  function AvailableMetricPlugin(id: string): Option<MetricPlugin>
  {
    if id == RealLinesOfCodeId then Some(RealLinesOfCodePlugin)
    else if id == SonarComplexityId then Some(SonarComplexityPlugin)
    else None
  }

  datatype ExportPlugin = SimpleJsonExport | CodeChartaJsonExport

  /** `availableExportPlugins.get(id)`. */
  function AvailableExportPlugin(id: string): Option<ExportPlugin>
  {
    if id == SimpleJsonId then Some(SimpleJsonExport)
    else if id == CodeChartaJsonId then Some(CodeChartaJsonExport)
    else None
  }

  /** What an exporter serialises: the records themselves, or the CodeCharta value. */
  datatype ExportOutput = SimpleJsonOutput(records: seq<FileObject>) | CodeChartaOutput(file: CC.ExportCcFile)

  // -------------------------------------------------------------- files

  /** A browser file: its name, its `webkitRelativePath` (empty when absent) and its text. */
  datatype InputFile = InputFile(name: string, relativePath: string, content: string)

  datatype FileObject = FileObject(path: string, name: string, language: Language, content: string, metrics: map<string, int>)

  /** `(webkitRelativePath || name).replace(/\\/g, "/")`. */
  function StoredPath(f: InputFile): string
  {
    ReplaceChar(if f.relativePath != "" then f.relativePath else f.name, '\\', '/')
  }

  /** The record `prepareFileObjects` builds for one file. */
  function Prepare(f: InputFile): FileObject
  {
    FileObject(StoredPath(f), f.name, LanguageDetector.DetectLanguage(f.name), f.content, map[])
  }

  /**
   * The stored path is the relative path, or the name when there is none,
   * with every backslash turned into `/` and every other character kept.
   */
  lemma StoredPathNormalized(f: InputFile)
    ensures '\\' !in StoredPath(f)
    ensures f.relativePath != "" && '\\' !in f.relativePath ==> StoredPath(f) == f.relativePath
    ensures f.relativePath == "" && '\\' !in f.name ==> StoredPath(f) == f.name
    ensures |StoredPath(f)| == if f.relativePath != "" then |f.relativePath| else |f.name|
    ensures var src := if f.relativePath != "" then f.relativePath else f.name;
      forall i :: 0 <= i < |src| ==> StoredPath(f)[i] == if src[i] == '\\' then '/' else src[i]
  {
    var p := StoredPath(f);
    var src := if f.relativePath != "" then f.relativePath else f.name;
    if '\\' !in src {
      assert forall i :: 0 <= i < |src| ==> p[i] == src[i];
    }
  }

  // ------------------------------------------------------------ metrics

  /** `supportedLanguages.includes(fileObj.language)`: membership of the exact string. */
  predicate Applicable(p: MetricPlugin, language: Language)
  {
    LanguageName(language) in SupportedLanguages(p)
  }

  /** `enabledMetricPlugins.filter(...)`. */
  function ApplicablePlugins(plugins: seq<MetricPlugin>, language: Language): (r: seq<MetricPlugin>)
    ensures forall p :: p in r <==> p in plugins && Applicable(p, language)
    ensures |r| <= |plugins|
  {
    if |plugins| == 0 then []
    else
      var front := ApplicablePlugins(plugins[..|plugins| - 1], language);
      var p := plugins[|plugins| - 1];
      assert forall q :: q in plugins <==> q in plugins[..|plugins| - 1] || q == p;
      if Applicable(p, language) then front + [p] else front
  }

  /** `fileObj.metrics[plugin.name] = plugin.calculate(...)` for each plugin in turn. */
  function Fill(engine: Engine, plugins: seq<MetricPlugin>, f: FileObject): (m: map<string, int>)
    requires Sound(engine)
    ensures m.Keys == set p | p in plugins :: PluginName(p)
  {
    if |plugins| == 0 then map[]
    else
      var p := plugins[|plugins| - 1];
      assert forall q :: q in plugins <==> q in plugins[..|plugins| - 1] || q == p;
      Fill(engine, plugins[..|plugins| - 1], f)[PluginName(p) := MetricValue(engine, p, f.content, f.language)]
  }

  /** The metrics a run records for a file. */
  function Metrics(engine: Engine, plugins: seq<MetricPlugin>, f: FileObject): map<string, int>
    requires Sound(engine)
  {
    Fill(engine, ApplicablePlugins(plugins, f.language), f)
  }

  /** The record a run appends for an input file. */
  function Record(engine: Engine, plugins: seq<MetricPlugin>, f: InputFile): FileObject
    requires Sound(engine)
  {
    Prepare(f).(metrics := Metrics(engine, plugins, Prepare(f)))
  }

  /**
   * A record's metric keys are exactly the names of the enabled plugins
   * that list the file's language, and each value is that plugin's result.
   */
  lemma MetricKeysExactly(engine: Engine, plugins: seq<MetricPlugin>, f: FileObject)
    requires Sound(engine)
    ensures Metrics(engine, plugins, f).Keys == set p | p in plugins && Applicable(p, f.language) :: PluginName(p)
    ensures forall p :: p in plugins && Applicable(p, f.language) ==>
      Metrics(engine, plugins, f)[PluginName(p)] == MetricValue(engine, p, f.content, f.language)
  {
    var m := Metrics(engine, plugins, f);
    forall p | p in plugins && Applicable(p, f.language)
      ensures m[PluginName(p)] == MetricValue(engine, p, f.content, f.language)
    {
      FillValue(engine, ApplicablePlugins(plugins, f.language), f, p);
    }
  }

  /** Distinct plugins carry distinct names, so a name's value is that plugin's result. */
  lemma {:induction false} FillValue(engine: Engine, plugins: seq<MetricPlugin>, f: FileObject, p: MetricPlugin)
    requires Sound(engine) && p in plugins
    ensures PluginName(p) in Fill(engine, plugins, f)
    ensures Fill(engine, plugins, f)[PluginName(p)] == MetricValue(engine, p, f.content, f.language)
  {
    var q := plugins[|plugins| - 1];
    if q != p {
      assert p in plugins[..|plugins| - 1] by {
        var i :| 0 <= i < |plugins| && plugins[i] == p;
        assert i < |plugins| - 1 && plugins[..|plugins| - 1][i] == p;
      }
      FillValue(engine, plugins[..|plugins| - 1], f, p);
      assert PluginName(q) != PluginName(p);
    }
  }

  /**
   * The wildcard that the line-count plugin declares is never a language
   * name, so with exact membership that plugin applies to no file and
   * contributes no metric.
   */
  lemma WildcardNeverMatches(engine: Engine, plugins: seq<MetricPlugin>, f: FileObject, language: Language)
    requires Sound(engine)
    ensures !Applicable(RealLinesOfCodePlugin, language)
    ensures RealLinesOfCode.Name !in Metrics(engine, plugins, f)
  {
    NotWildcard(language);
    NotWildcard(f.language);
    assert !Applicable(RealLinesOfCodePlugin, f.language);
    assert PluginName(SonarComplexityPlugin) != RealLinesOfCode.Name;
    MetricKeysExactly(engine, plugins, f);
  }

  lemma NotWildcard(l: Language)
    ensures LanguageName(l) != "*"
  {
    assert |LanguageName(l)| > 1;
  }

  // ------------------------------------------------------ plugin choice

  /** The plugins `setMetricPlugins(ids)` enables: the known ids', in argument order. */
  function Resolve(ids: seq<string>): (r: seq<MetricPlugin>)
    ensures |r| <= |ids|
    ensures forall p :: p in r <==> exists i :: 0 <= i < |ids| && AvailableMetricPlugin(ids[i]) == Some(p)
  {
    if |ids| == 0 then []
    else
      var front := Resolve(ids[..|ids| - 1]);
      var id := ids[|ids| - 1];
      assert forall i :: 0 <= i < |ids| - 1 ==> ids[..|ids| - 1][i] == ids[i];
      match AvailableMetricPlugin(id)
      case Some(p) => front + [p]
      case None => front
  }

  /** Resolving a concatenation resolves the parts in order; unknown ids resolve to nothing. */
  lemma {:induction false} ResolveConcat(a: seq<string>, b: seq<string>)
    ensures Resolve(a + b) == Resolve(a) + Resolve(b)
    decreases |b|
  {
    if |b| == 0 {
      assert a + b == a;
    } else {
      assert (a + b)[..|a + b| - 1] == a + b[..|b| - 1];
      ResolveConcat(a, b[..|b| - 1]);
    }
  }

  lemma ResolveOne(id: string)
    ensures Resolve([id]) == match AvailableMetricPlugin(id) case Some(p) => [p] case None => []
  {
    assert [id][..0] == [];
  }

  /** The exporters `setExportPlugins(ids)` enables, keyed by id. */
  function EnabledExports(ids: seq<string>): map<string, ExportPlugin>
  {
    map id | id in ids && AvailableExportPlugin(id).Some? :: AvailableExportPlugin(id).value
  }

  /** Exactly the known ids given are enabled, whatever their order or repetition. */
  lemma EnabledExportsKeys(ids: seq<string>)
    ensures EnabledExports(ids).Keys == set id | id in ids && (id == SimpleJsonId || id == CodeChartaJsonId)
    ensures forall id :: id in EnabledExports(ids) ==> AvailableExportPlugin(id) == Some(EnabledExports(ids)[id])
  {
  }

  /** The outputs of the exporters in `plugins` whose ids are in `ids`, over `data`, by id. */
  function Outputs(plugins: map<string, ExportPlugin>, ids: set<string>, data: seq<FileObject>): map<string, ExportOutput>
  {
    map id | id in ids && id in plugins :: ExportWith(plugins[id], data)
  }

  /** Caching one more exporter's output extends the cache by that id. */
  lemma OutputsStep(cache: map<string, ExportOutput>, plugins: map<string, ExportPlugin>, ids: set<string>, id: string,
                    data: seq<FileObject>)
    requires id in plugins
    ensures (cache + Outputs(plugins, ids, data))[id := ExportWith(plugins[id], data)] == cache + Outputs(plugins, ids + {id}, data)
  {
  }

  /** Over all of its ids, the outputs are those of every enabled exporter. */
  lemma OutputsAll(plugins: map<string, ExportPlugin>, data: seq<FileObject>)
    ensures Outputs(plugins, plugins.Keys, data) == map id | id in plugins :: ExportWith(plugins[id], data)
  {
  }

  /** `plugin.export(rawOutputData)`, as the value it serialises. */
  function ExportWith(p: ExportPlugin, data: seq<FileObject>): ExportOutput
  {
    match p
    case SimpleJsonExport => SimpleJsonOutput(data)
    case CodeChartaJsonExport => CodeChartaOutput(CC.CodeChartaFile(Parsed(data)))
  }

  /** The records as the CodeCharta exporter reads them: path and metrics. */
  function Parsed(data: seq<FileObject>): (r: seq<CC.ParsedFile>)
    ensures |r| == |data|
    ensures forall i :: 0 <= i < |data| ==> r[i] == CC.ParsedFile(data[i].path, data[i].metrics)
  {
    seq(|data|, i requires 0 <= i < |data| => CC.ParsedFile(data[i].path, data[i].metrics))
  }

  /** The records `run` appends for `files`, in order. */
  function Records(engine: Engine, plugins: seq<MetricPlugin>, files: seq<InputFile>): (r: seq<FileObject>)
    requires Sound(engine)
    ensures |r| == |files|
    ensures forall i :: 0 <= i < |files| ==> r[i] == Record(engine, plugins, files[i])
  {
    seq(|files|, i requires 0 <= i < |files| => Record(engine, plugins, files[i]))
  }

  lemma RecordsAppend(engine: Engine, plugins: seq<MetricPlugin>, files: seq<InputFile>, k: nat)
    requires Sound(engine) && k < |files|
    ensures Records(engine, plugins, files[..k + 1]) == Records(engine, plugins, files[..k]) + [Record(engine, plugins, files[k])]
  {
    assert files[..k + 1] == files[..k] + [files[k]];
  }

  // -------------------------------------------------------------- class

  class MegaParser {
    const files: seq<InputFile>
    var rawOutputData: seq<FileObject>
    var enabledMetricPlugins: seq<MetricPlugin>
    var enabledExportPlugins: map<string, ExportPlugin>
    var exportOutputs: map<string, ExportOutput>

    constructor(files: seq<InputFile>)
      ensures this.files == files
      ensures rawOutputData == [] && enabledMetricPlugins == []
      ensures enabledExportPlugins == map[] && exportOutputs == map[]
    {
      this.files := files;
      rawOutputData := [];
      enabledMetricPlugins := [];
      enabledExportPlugins := map[];
      exportOutputs := map[];
    }

    /** `setMetricPlugins`: the previous list is discarded. */
    method SetMetricPlugins(metricPluginEnums: seq<string>)
      modifies this
      ensures enabledMetricPlugins == Resolve(metricPluginEnums)
      ensures rawOutputData == old(rawOutputData) && enabledExportPlugins == old(enabledExportPlugins)
      ensures exportOutputs == old(exportOutputs)
    {
      enabledMetricPlugins := [];
      for k := 0 to |metricPluginEnums|
        invariant enabledMetricPlugins == Resolve(metricPluginEnums[..k])
        invariant rawOutputData == old(rawOutputData) && enabledExportPlugins == old(enabledExportPlugins)
        invariant exportOutputs == old(exportOutputs)
      {
        assert metricPluginEnums[..k + 1][..k] == metricPluginEnums[..k];
        var plugin := AvailableMetricPlugin(metricPluginEnums[k]);
        if plugin.Some? {
          enabledMetricPlugins := enabledMetricPlugins + [plugin.value];
        }
      }
      assert metricPluginEnums[..|metricPluginEnums|] == metricPluginEnums;
    }

    /** `setExportPlugins`: the map is cleared, then each known id is set. */
    method SetExportPlugins(exportPluginEnums: seq<string>)
      modifies this
      ensures enabledExportPlugins == EnabledExports(exportPluginEnums)
      ensures rawOutputData == old(rawOutputData) && enabledMetricPlugins == old(enabledMetricPlugins)
      ensures exportOutputs == old(exportOutputs)
    {
      enabledExportPlugins := map[];
      for k := 0 to |exportPluginEnums|
        invariant enabledExportPlugins == EnabledExports(exportPluginEnums[..k])
        invariant rawOutputData == old(rawOutputData) && enabledMetricPlugins == old(enabledMetricPlugins)
        invariant exportOutputs == old(exportOutputs)
      {
        assert forall id :: id in exportPluginEnums[..k + 1] <==> id in exportPluginEnums[..k] || id == exportPluginEnums[k];
        var plugin := AvailableExportPlugin(exportPluginEnums[k]);
        if plugin.Some? {
          enabledExportPlugins := enabledExportPlugins[exportPluginEnums[k] := plugin.value];
        }
      }
      assert exportPluginEnums[..|exportPluginEnums|] == exportPluginEnums;
    }

    /**
     * `run`: one record per file is appended after the earlier ones, then
     * every enabled exporter's output over all records is cached; other
     * cache entries stay.
     */
    method Run(engine: Engine)
      requires Sound(engine)
      modifies this
      ensures rawOutputData == old(rawOutputData) + Records(engine, enabledMetricPlugins, files)
      ensures exportOutputs ==
        old(exportOutputs) + map id | id in enabledExportPlugins :: ExportWith(enabledExportPlugins[id], rawOutputData)
      ensures enabledMetricPlugins == old(enabledMetricPlugins) && enabledExportPlugins == old(enabledExportPlugins)
    {
      AppendRecords(engine);
      CacheExports();
    }

    /** The loop of `run` over the prepared files. */
    method AppendRecords(engine: Engine)
      requires Sound(engine)
      modifies this
      ensures rawOutputData == old(rawOutputData) + Records(engine, enabledMetricPlugins, files)
      ensures enabledMetricPlugins == old(enabledMetricPlugins) && enabledExportPlugins == old(enabledExportPlugins)
      ensures exportOutputs == old(exportOutputs)
    {
      var fileObjects := PrepareFileObjects();
      for k := 0 to |fileObjects|
        invariant rawOutputData == old(rawOutputData) + Records(engine, enabledMetricPlugins, files[..k])
        invariant enabledMetricPlugins == old(enabledMetricPlugins) && enabledExportPlugins == old(enabledExportPlugins)
        invariant exportOutputs == old(exportOutputs)
      {
        var fileObj := fileObjects[k];
        var applicablePlugins := ApplicablePlugins(enabledMetricPlugins, fileObj.language);
        var metrics := ComputeMetrics(engine, applicablePlugins, fileObj);
        RecordsAppend(engine, enabledMetricPlugins, files, k);
        rawOutputData := rawOutputData + [FileObject(fileObj.path, fileObj.name, fileObj.language, fileObj.content, metrics)];
      }
      assert files[..|files|] == files;
    }

    /** The loop of `run` over the enabled exporters. */
    method CacheExports()
      modifies this
      ensures exportOutputs ==
        old(exportOutputs) + map id | id in enabledExportPlugins :: ExportWith(enabledExportPlugins[id], rawOutputData)
      ensures rawOutputData == old(rawOutputData)
      ensures enabledMetricPlugins == old(enabledMetricPlugins) && enabledExportPlugins == old(enabledExportPlugins)
    {
      var keys := enabledExportPlugins.Keys;
      while keys != {}
        invariant keys <= enabledExportPlugins.Keys
        invariant exportOutputs == old(exportOutputs) + Outputs(enabledExportPlugins, enabledExportPlugins.Keys - keys, rawOutputData)
        invariant rawOutputData == old(rawOutputData)
        invariant enabledMetricPlugins == old(enabledMetricPlugins) && enabledExportPlugins == old(enabledExportPlugins)
        decreases |keys|
      {
        var pluginEnum :| pluginEnum in keys;
        OutputsStep(old(exportOutputs), enabledExportPlugins, enabledExportPlugins.Keys - keys, pluginEnum, rawOutputData);
        exportOutputs := exportOutputs[pluginEnum := ExportWith(enabledExportPlugins[pluginEnum], rawOutputData)];
        assert (enabledExportPlugins.Keys - keys) + {pluginEnum} == enabledExportPlugins.Keys - (keys - {pluginEnum});
        keys := keys - {pluginEnum};
      }
      assert enabledExportPlugins.Keys - keys == enabledExportPlugins.Keys;
      OutputsAll(enabledExportPlugins, rawOutputData);
    }

    /** `prepareFileObjects`, with the file contents given rather than read. */
    method PrepareFileObjects() returns (fileObjects: seq<FileObject>)
      ensures |fileObjects| == |files|
      ensures forall i :: 0 <= i < |files| ==> fileObjects[i] == Prepare(files[i])
    {
      fileObjects := [];
      for k := 0 to |files|
        invariant |fileObjects| == k
        invariant forall i :: 0 <= i < k ==> fileObjects[i] == Prepare(files[i])
      {
        var file := files[k];
        var relativePath := if file.relativePath != "" then file.relativePath else file.name;
        fileObjects := fileObjects + [FileObject(ReplaceChar(relativePath, '\\', '/'), file.name,
          LanguageDetector.DetectLanguage(file.name), file.content, map[])];
      }
    }

    /** `getExportOutput`: the cached output, or nothing for an id never produced. */
    function GetExportOutput(exportPluginEnum: string): (r: Option<ExportOutput>)
      reads this
      ensures r.Some? <==> exportPluginEnum in exportOutputs
      ensures r.Some? ==> r.value == exportOutputs[exportPluginEnum]
    {
      if exportPluginEnum in exportOutputs then Some(exportOutputs[exportPluginEnum]) else None
    }

    /** `getAllExportOutputs`. */
    function GetAllExportOutputs(): map<string, ExportOutput>
      reads this
    {
      exportOutputs
    }
  }

  /** The inner loop of `run`: each applicable plugin's value under its name. */
  method ComputeMetrics(engine: Engine, applicablePlugins: seq<MetricPlugin>, fileObj: FileObject)
    returns (metrics: map<string, int>)
    requires Sound(engine)
    ensures metrics == Fill(engine, applicablePlugins, fileObj)
  {
    metrics := map[];
    for j := 0 to |applicablePlugins|
      invariant metrics == Fill(engine, applicablePlugins[..j], fileObj)
    {
      assert applicablePlugins[..j + 1][..j] == applicablePlugins[..j];
      var plugin := applicablePlugins[j];
      metrics := metrics[PluginName(plugin) := MetricValue(engine, plugin, fileObj.content, fileObj.language)];
    }
    assert applicablePlugins[..|applicablePlugins|] == applicablePlugins;
  }
}
