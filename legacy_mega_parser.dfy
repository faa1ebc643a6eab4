/**
 * `MegaParser` of the earlier single-package layout: the requested metric
 * names and the fixed plugin list decide which plugins run on a file (by
 * name, and by the file's language or the `"*"` wildcard); records keep the
 * path as given and only the metrics; every exporter's output is offered
 * for download as `output.<first extension>`.
 */
module LegacyMegaParser {
  import opened RegexEngine
  import LegacyLanguageDetector
  import RealLinesOfCode
  import SonarComplexityJava
  import CC = CodeChartaExport

  datatype MetricPlugin = RealLinesOfCodePlugin | SonarComplexityJavaPlugin

  /** The plugin list, in declaration order. */
  const MetricPlugins: seq<MetricPlugin> := [RealLinesOfCodePlugin, SonarComplexityJavaPlugin]

  function PluginName(p: MetricPlugin): string
  {
    match p
    case RealLinesOfCodePlugin => RealLinesOfCode.Name
    case SonarComplexityJavaPlugin => SonarComplexityJava.Name
  }

  function SupportedLanguages(p: MetricPlugin): seq<string>
  {
    match p
    case RealLinesOfCodePlugin => RealLinesOfCode.SupportedLanguages
    case SonarComplexityJavaPlugin => SonarComplexityJava.SupportedLanguages
  }

  /** `plugin.calculate(content)`. */
  function MetricValue(engine: Engine, p: MetricPlugin, content: string): int
    requires Sound(engine)
  {
    match p
    case RealLinesOfCodePlugin => RealLinesOfCode.Calculate(content)
    case SonarComplexityJavaPlugin => SonarComplexityJava.JavaComplexity(engine, content)
  }

  /** The filter of `run`: requested by name, and listing the language or the wildcard. */
  predicate Applicable(requestedMetrics: seq<string>, p: MetricPlugin, language: string)
  {
    PluginName(p) in requestedMetrics &&
    (language in SupportedLanguages(p) || "*" in SupportedLanguages(p))
  }

  datatype ExportPlugin = SimpleJsonExport | CodeChartaJsonExport

  /** The exporter list, in declaration order. */
  const ExportPlugins: seq<ExportPlugin> := [SimpleJsonExport, CodeChartaJsonExport]

  function SupportedExtensions(p: ExportPlugin): seq<string>
  {
    match p
    case SimpleJsonExport => ["json"]
    case CodeChartaJsonExport => ["cc.json"]
  }

  /** A browser file: its name, its `webkitRelativePath` (empty when absent) and its text. */
  datatype InputFile = InputFile(name: string, relativePath: string, content: string)

  /** What `run` pushes to `outputData`: the path and the metrics, nothing else. */
  datatype OutputRecord = OutputRecord(path: string, metrics: map<string, int>)

  datatype ExportOutput = SimpleJsonOutput(records: seq<OutputRecord>) | CodeChartaOutput(file: CC.ExportCcFile)

  /** A file handed to `downloadFile`. */
  datatype Download = Download(content: ExportOutput, fileName: string)

  function ExportWith(p: ExportPlugin, data: seq<OutputRecord>): ExportOutput
  {
    match p
    case SimpleJsonExport => SimpleJsonOutput(data)
    case CodeChartaJsonExport =>
      CodeChartaOutput(CC.CodeChartaFile(seq(|data|, i requires 0 <= i < |data| => CC.ParsedFile(data[i].path, data[i].metrics))))
  }

  /** `webkitRelativePath || name`, kept as it is. */
  function StoredPath(f: InputFile): string
  {
    if f.relativePath != "" then f.relativePath else f.name
  }

  /** The applicable plugins, in list order. */
  function ApplicablePlugins(requestedMetrics: seq<string>, plugins: seq<MetricPlugin>, language: string): (r: seq<MetricPlugin>)
    ensures forall p :: p in r <==> p in plugins && Applicable(requestedMetrics, p, language)
  {
    if |plugins| == 0 then []
    else
      var front := ApplicablePlugins(requestedMetrics, plugins[..|plugins| - 1], language);
      var p := plugins[|plugins| - 1];
      assert forall q :: q in plugins <==> q in plugins[..|plugins| - 1] || q == p;
      if Applicable(requestedMetrics, p, language) then front + [p] else front
  }

  /** `fileObj.metrics[plugin.name] = plugin.calculate(content)` for each plugin in turn. */
  function Fill(engine: Engine, plugins: seq<MetricPlugin>, content: string): (m: map<string, int>)
    requires Sound(engine)
    ensures m.Keys == set p | p in plugins :: PluginName(p)
  {
    if |plugins| == 0 then map[]
    else
      var p := plugins[|plugins| - 1];
      assert forall q :: q in plugins <==> q in plugins[..|plugins| - 1] || q == p;
      Fill(engine, plugins[..|plugins| - 1], content)[PluginName(p) := MetricValue(engine, p, content)]
  }

  /** The record `run` pushes for a file. */
  function Record(engine: Engine, requestedMetrics: seq<string>, f: InputFile): OutputRecord
    requires Sound(engine)
  {
    var language := LegacyLanguageDetector.DetectLanguage(f.name);
    OutputRecord(StoredPath(f), Fill(engine, ApplicablePlugins(requestedMetrics, MetricPlugins, language), f.content))
  }

  /**
   * The line counter runs on a file exactly when it is requested, whatever
   * the language; the Java complexity plugin exactly when it is requested
   * and the file is Java.
   */
  lemma ApplicableIff(requestedMetrics: seq<string>, language: string)
    ensures Applicable(requestedMetrics, RealLinesOfCodePlugin, language) <==> "realLinesOfCode" in requestedMetrics
    ensures Applicable(requestedMetrics, SonarComplexityJavaPlugin, language) <==>
      "sonarComplexity" in requestedMetrics && language == "java"
  {
    assert "*" in RealLinesOfCode.SupportedLanguages;
    assert SonarComplexityJava.SupportedLanguages == ["java"];
  }

  /**
   * A record's metric keys are exactly the names of the plugins that apply,
   * and its path is the relative path, or the name when there is none,
   * with no separator rewriting.
   */
  lemma RecordShape(engine: Engine, requestedMetrics: seq<string>, f: InputFile)
    requires Sound(engine)
    ensures Record(engine, requestedMetrics, f).metrics.Keys ==
      set p | p in MetricPlugins && Applicable(requestedMetrics, p, LegacyLanguageDetector.DetectLanguage(f.name)) :: PluginName(p)
    ensures Record(engine, requestedMetrics, f).path == if f.relativePath != "" then f.relativePath else f.name
  {
  }

  /** The file name `generateOutput` gives an exporter's output. */
  function OutputFileName(p: ExportPlugin): string
  {
    "output." + SupportedExtensions(p)[0]
  }

  /** What `generateOutput` downloads: every exporter's output over `data`, in list order. */
  function Downloads(data: seq<OutputRecord>): (r: seq<Download>)
    ensures |r| == |ExportPlugins|
  {
    seq(|ExportPlugins|, i requires 0 <= i < |ExportPlugins| =>
      Download(ExportWith(ExportPlugins[i], data), OutputFileName(ExportPlugins[i])))
  }

  /** Both exporters run, with no selection: `output.json` and `output.cc.json`. */
  lemma OutputFileNames(data: seq<OutputRecord>)
    ensures Downloads(data) == [
      Download(SimpleJsonOutput(data), "output.json"),
      Download(ExportWith(CodeChartaJsonExport, data), "output.cc.json")]
  {
    var r := Downloads(data);
    assert ExportPlugins[0] == SimpleJsonExport && ExportPlugins[1] == CodeChartaJsonExport;
    assert OutputFileName(SimpleJsonExport) == "output.json";
    assert OutputFileName(CodeChartaJsonExport) == "output.cc.json";
    assert r[0] == Download(SimpleJsonOutput(data), "output.json");
    assert r[1] == Download(ExportWith(CodeChartaJsonExport, data), "output.cc.json");
  }

  class MegaParser {
    const files: seq<InputFile>
    const requestedMetrics: seq<string>
    var outputData: seq<OutputRecord>
    /** The files handed to `downloadFile`, in order. */
    var downloads: seq<Download>

    constructor(files: seq<InputFile>, requestedMetrics: seq<string>)
      ensures this.files == files && this.requestedMetrics == requestedMetrics
      ensures outputData == [] && downloads == []
    {
      this.files := files;
      this.requestedMetrics := requestedMetrics;
      outputData := [];
      downloads := [];
    }

    /**
     * `run`: one record per file, in input order, after any earlier ones;
     * then one download per exporter over all records.
     */
    method Run(engine: Engine)
      requires Sound(engine)
      modifies this
      ensures |outputData| == |old(outputData)| + |files| && outputData[..|old(outputData)|] == old(outputData)
      ensures forall i :: 0 <= i < |files| ==>
        outputData[|old(outputData)| + i] == Record(engine, requestedMetrics, files[i])
      ensures downloads == old(downloads) + Downloads(outputData)
    {
      for k := 0 to |files|
        invariant |outputData| == |old(outputData)| + k && outputData[..|old(outputData)|] == old(outputData)
        invariant forall i :: 0 <= i < k ==> outputData[|old(outputData)| + i] == Record(engine, requestedMetrics, files[i])
        invariant downloads == old(downloads)
      {
        var file := files[k];
        var language := LegacyLanguageDetector.DetectLanguage(file.name);
        var relativePath := if file.relativePath != "" then file.relativePath else file.name;
        var applicablePlugins := ApplicablePlugins(requestedMetrics, MetricPlugins, language);
        var metrics := ComputeMetrics(engine, applicablePlugins, file.content);
        outputData := outputData + [OutputRecord(relativePath, metrics)];
      }
      GenerateOutput();
    }

    /** `generateOutput`: each exporter's output, named after its first extension. */
    method GenerateOutput()
      modifies this
      ensures outputData == old(outputData)
      ensures downloads == old(downloads) + Downloads(outputData)
    {
      for k := 0 to |ExportPlugins|
        invariant outputData == old(outputData)
        invariant downloads == old(downloads) + Downloads(outputData)[..k]
      {
        assert Downloads(outputData)[..k + 1] == Downloads(outputData)[..k] + [Downloads(outputData)[k]];
        var plugin := ExportPlugins[k];
        var exportedContent := ExportWith(plugin, outputData);
        var extension := SupportedExtensions(plugin)[0];
        downloads := downloads + [Download(exportedContent, "output." + extension)];
      }
      assert Downloads(outputData)[..|ExportPlugins|] == Downloads(outputData);
    }
  }

  /** The inner loop of `run`. */
  method ComputeMetrics(engine: Engine, applicablePlugins: seq<MetricPlugin>, content: string)
    returns (metrics: map<string, int>)
    requires Sound(engine)
    ensures metrics == Fill(engine, applicablePlugins, content)
  {
    metrics := map[];
    for j := 0 to |applicablePlugins|
      invariant metrics == Fill(engine, applicablePlugins[..j], content)
    {
      assert applicablePlugins[..j + 1][..j] == applicablePlugins[..j];
      var plugin := applicablePlugins[j];
      metrics := metrics[PluginName(plugin) := MetricValue(engine, plugin, content)];
    }
    assert applicablePlugins[..|applicablePlugins|] == applicablePlugins;
  }
}
