/**
 * The web application's project store: a list of projects, each holding the
 * files of its last analysis, the id of the current project, the file shown
 * in the detail pane and the background switch. Actions replace these fields
 * with values computed from the old ones; the getters only read them.
 */
module WebStore {
  import opened Base
  import opened Text
  import Seqs
  import SonarComplexity

  /** The debug objects of a file, keyed by metric plugin name. */
  type DebugInfo = map<string, SonarComplexity.ComplexityDebug>

  /** A file of an analysis result, as the store keeps it. */
  datatype File = File(
    path: string, name: string, language: string, content: string, metrics: map<string, int>,
    debugInfo: DebugInfo)

  datatype Project = Project(id: string, name: string, analysisResults: seq<File>)

  /** `Partial<Project>`: `Some` for each field the update overrides. */
  datatype ProjectUpdate = ProjectUpdate(id: Option<string>, name: Option<string>, analysisResults: Option<seq<File>>)

  /** A file handed to `setSelectedFile`, any of whose fields may be missing. */
  datatype LooseFile = LooseFile(
    path: Option<string>, name: Option<string>, language: Option<string>,
    content: Option<string>, metrics: Option<map<string, int>>, debugInfo: Option<DebugInfo>)

  /** The integer part of the statistics of a project. */
  datatype ProjectStats = ProjectStats(fileCount: nat, folderCount: nat, totalRloc: int)

  /** What `exportAnalysis` serialises: the result list, or an empty object. */
  datatype ExportContent = AnalysisResults(files: seq<File>) | EmptyObject

  datatype Exported = Exported(content: ExportContent, extension: string)

  // ---------------------------------------------------------------- lookup

  /** Position of the first project with the given id, or -1. */
  function IndexOfId(projects: seq<Project>, id: string): (k: int)
    ensures -1 <= k < |projects|
    ensures k >= 0 ==> projects[k].id == id
    ensures forall j :: 0 <= j < |projects| && (k == -1 || j < k) ==> projects[j].id != id
  {
    if |projects| == 0 then -1
    else if projects[0].id == id then 0
    else
      var k := IndexOfId(projects[1..], id);
      if k == -1 then -1 else k + 1
  }

  /** `projects.find(p => p.id === id)`. */
  function FindProject(projects: seq<Project>, id: string): (r: Option<Project>)
    ensures r.Some? ==> r.value in projects && r.value.id == id
    ensures r.Some? ==> 0 <= IndexOfId(projects, id) && r.value == projects[IndexOfId(projects, id)]
    ensures r.None? <==> forall p :: p in projects ==> p.id != id
  {
    var k := IndexOfId(projects, id);
    if k == -1 then None else Some(projects[k])
  }

  /**
   * The project appended by `addProject` is the one found under its id
   * exactly when no earlier project has that id; otherwise the earlier one
   * is found.
   */
  lemma FindAppended(projects: seq<Project>, p: Project)
    ensures (forall q :: q in projects ==> q.id != p.id) ==> FindProject(projects + [p], p.id) == Some(p)
    ensures FindProject(projects, p.id).Some? ==> FindProject(projects + [p], p.id) == FindProject(projects, p.id)
  {
    var k := IndexOfId(projects + [p], p.id);
    var j := IndexOfId(projects, p.id);
    if j == -1 {
      assert (projects + [p])[|projects|] == p;
      assert k == |projects|;
    } else {
      assert (projects + [p])[j] == projects[j];
      assert k == j;
    }
  }

  // ---------------------------------------------------------------- deletion and update

  /** `projects.filter(p => p.id !== id)`. */
  function WithoutId(projects: seq<Project>, id: string): (r: seq<Project>)
    ensures forall p :: p in r <==> p in projects && p.id != id
    ensures Seqs.Sub(r, projects)
  {
    if |projects| == 0 then []
    else
      var last := projects[|projects| - 1];
      var front := WithoutId(projects[..|projects| - 1], id);
      assert forall q :: q in projects <==> q in projects[..|projects| - 1] || q == last;
      if last.id != id then
        assert (front + [last])[..|front|] == front;
        front + [last]
      else front
  }

  /** After deleting an id no project is found under it, and deleting again changes nothing. */
  lemma {:induction false} DeleteRemovesAll(projects: seq<Project>, id: string)
    ensures FindProject(WithoutId(projects, id), id).None?
    ensures WithoutId(WithoutId(projects, id), id) == WithoutId(projects, id)
  {
    var r := WithoutId(projects, id);
    if |projects| > 0 {
      var front := projects[..|projects| - 1];
      DeleteRemovesAll(front, id);
      var last := projects[|projects| - 1];
      if last.id != id {
        assert r[..|r| - 1] == WithoutId(front, id);
      }
    }
  }

  /** `{ ...project, ...updates }`. */
  function Merge(p: Project, u: ProjectUpdate): Project
  {
    Project(u.id.GetOr(p.id), u.name.GetOr(p.name), u.analysisResults.GetOr(p.analysisResults))
  }

  /** `projects.map(p => p.id === id ? { ...p, ...updates } : p)`. */
  function Updated(projects: seq<Project>, id: string, u: ProjectUpdate): (r: seq<Project>)
    ensures |r| == |projects|
    ensures forall i :: 0 <= i < |projects| && projects[i].id != id ==> r[i] == projects[i]
    ensures forall i :: 0 <= i < |projects| && projects[i].id == id ==> r[i] == Merge(projects[i], u)
  {
    if |projects| == 0 then []
    else
      var p := projects[0];
      [if p.id == id then Merge(p, u) else p] + Updated(projects[1..], id, u)
  }

  /** Applying the same update twice has the effect of applying it once. */
  lemma UpdateIdempotent(projects: seq<Project>, id: string, u: ProjectUpdate)
    ensures Updated(Updated(projects, id, u), id, u) == Updated(projects, id, u)
  {
    var once := Updated(projects, id, u);
    var twice := Updated(once, id, u);
    forall i | 0 <= i < |projects|
      ensures twice[i] == once[i]
    {
      if projects[i].id == id {
        assert Merge(Merge(projects[i], u), u) == Merge(projects[i], u);
      }
    }
  }

  /** An update that sets no field leaves the list as it was. */
  lemma EmptyUpdateNoChange(projects: seq<Project>, id: string)
    ensures Updated(projects, id, ProjectUpdate(None, None, None)) == projects
  {
    var r := Updated(projects, id, ProjectUpdate(None, None, None));
    forall i | 0 <= i < |projects|
      ensures r[i] == projects[i]
    {
    }
  }

  /** The update `setAnalysisResults` applies to the current project. */
  function ResultsOnly(results: seq<File>): ProjectUpdate
  {
    ProjectUpdate(None, None, Some(results))
  }

  /**
   * After replacing the results of the projects with an id, the project
   * found under that id is the one found before, now holding exactly the new
   * results; an id that was absent stays absent.
   */
  lemma ResultsReplaced(projects: seq<Project>, id: string, results: seq<File>)
    ensures FindProject(projects, id).Some? ==>
      FindProject(Updated(projects, id, ResultsOnly(results)), id) ==
      Some(FindProject(projects, id).value.(analysisResults := results))
    ensures FindProject(projects, id).None? ==> Updated(projects, id, ResultsOnly(results)) == projects
  {
    var r := Updated(projects, id, ResultsOnly(results));
    var k := IndexOfId(projects, id);
    var k' := IndexOfId(r, id);
    if k == -1 {
      assert forall i :: 0 <= i < |projects| ==> r[i] == projects[i];
    } else {
      assert r[k].id == id;
      assert k' == k;
    }
  }

  // ---------------------------------------------------------------- selection

  /**
   * The copy `setSelectedFile` stores: each missing field takes its default,
   * and so does an empty language, which JavaScript's `||` treats as missing.
   */
  function SafeFile(f: LooseFile): (r: File)
    ensures r.language != ""
  {
    File(
      f.path.GetOr(""),
      f.name.GetOr(""),
      if f.language.None? || f.language.value == "" then "unknown" else f.language.value,
      f.content.GetOr(""),
      f.metrics.GetOr(map[]),
      f.debugInfo.GetOr(map[]))
  }

  /** A file with every field present. */
  function Loosen(f: File): LooseFile
  {
    LooseFile(Some(f.path), Some(f.name), Some(f.language), Some(f.content), Some(f.metrics), Some(f.debugInfo))
  }

  /**
   * A complete file is stored unchanged unless its language is empty; a file
   * with no fields at all becomes the all-defaults file; storing a stored
   * copy again changes nothing.
   */
  lemma SafeFileDefaults(f: File, l: LooseFile)
    ensures SafeFile(Loosen(f)) == if f.language == "" then f.(language := "unknown") else f
    ensures SafeFile(LooseFile(None, None, None, None, None, None)) == File("", "", "unknown", "", map[], map[])
    ensures SafeFile(Loosen(SafeFile(l))) == SafeFile(l)
  {
  }

  // ---------------------------------------------------------------- search

  /** The search test of `getFilteredFiles`: the lower-cased name or path contains the lower-cased term. */
  predicate Matches(f: File, term: string)
  {
    Contains(ToLower(f.name), ToLower(term)) || Contains(ToLower(f.path), ToLower(term))
  }

  /** `files.filter(f => Matches(f, term))`. */
  function FilterFiles(files: seq<File>, term: string): (r: seq<File>)
    ensures forall f :: f in r <==> f in files && Matches(f, term)
    ensures Seqs.Sub(r, files)
  {
    if |files| == 0 then []
    else
      var last := files[|files| - 1];
      var front := FilterFiles(files[..|files| - 1], term);
      assert forall q :: q in files <==> q in files[..|files| - 1] || q == last;
      if Matches(last, term) then
        assert (front + [last])[..|front|] == front;
        front + [last]
      else front
  }

  /** The search ignores the case of the term. */
  lemma {:induction false} FilterIgnoresTermCase(files: seq<File>, term: string)
    ensures FilterFiles(files, ToLower(term)) == FilterFiles(files, term)
  {
    ToLowerIdempotent(term);
    if |files| > 0 {
      FilterIgnoresTermCase(files[..|files| - 1], term);
    }
  }

  // ---------------------------------------------------------------- statistics

  /** `path.split("/").slice(0, -1).join("/")`: the directory part of a path. */
  function ParentDir(path: string): string
  {
    var parts := Split(path, '/');
    Join(parts[..|parts| - 1], '/')
  }

  /** The parent of `dir/name` is `dir`, and a path without `/` has the empty parent. */
  lemma ParentDirOf(dir: string, name: string)
    requires '/' !in name
    ensures ParentDir(dir + "/" + name) == dir
    ensures ParentDir(name) == ""
  {
    SplitConcat(dir, name, '/');
    SplitWithoutSeparator(name, '/');
    var parts := Split(dir + "/" + name, '/');
    assert parts == Split(dir, '/') + [name];
    assert parts[..|parts| - 1] == Split(dir, '/');
    JoinSplit(dir, '/');
  }

  /** Some file of `files` lies directly in directory `d`. */
  predicate InDir(files: seq<File>, d: string)
  {
    exists i :: 0 <= i < |files| && ParentDir(files[i].path) == d
  }

  lemma InDirLast(files: seq<File>, d: string)
    requires |files| > 0
    ensures InDir(files, d) <==> InDir(files[..|files| - 1], d) || ParentDir(files[|files| - 1].path) == d
  {
    var front := files[..|files| - 1];
    if InDir(front, d) {
      var i :| 0 <= i < |front| && ParentDir(front[i].path) == d;
      assert files[i] == front[i];
    }
    if InDir(files, d) {
      var i :| 0 <= i < |files| && ParentDir(files[i].path) == d;
      if i < |front| {
        assert files[i] == front[i];
      }
    }
  }

  /** The distinct non-empty parent directories of the files. */
  function Folders(files: seq<File>): (r: set<string>)
    ensures |r| <= |files|
    ensures forall d :: d in r <==> d != "" && InDir(files, d)
  {
    if |files| == 0 then {}
    else
      var front := files[..|files| - 1];
      var last := ParentDir(files[|files| - 1].path);
      var r := Folders(front) + (if last != "" then {last} else {});
      assert forall d :: d in r <==> d != "" && InDir(files, d) by {
        forall d
          ensures d in r <==> d != "" && InDir(files, d)
        {
          InDirLast(files, d);
        }
      }
      r
  }

  /** `metrics.rloc || 0`. */
  function Rloc(f: File): int
  {
    if "rloc" in f.metrics then f.metrics["rloc"] else 0
  }

  /** `files.reduce((sum, f) => sum + Rloc(f), 0)`. */
  function RlocSum(files: seq<File>): int
  {
    if |files| == 0 then 0 else RlocSum(files[..|files| - 1]) + Rloc(files[|files| - 1])
  }

  /** The total over a concatenation is the sum of the totals. */
  lemma {:induction false} RlocSumConcat(a: seq<File>, b: seq<File>)
    ensures RlocSum(a + b) == RlocSum(a) + RlocSum(b)
  {
    if |b| == 0 {
      assert a + b == a;
    } else {
      assert (a + b)[..|a + b| - 1] == a + b[..|b| - 1];
      RlocSumConcat(a, b[..|b| - 1]);
    }
  }

  /** Files without an `rloc` metric add nothing; with non-negative counts the total is non-negative. */
  lemma {:induction false} RlocSumBounds(files: seq<File>)
    ensures (forall f :: f in files ==> "rloc" !in f.metrics) ==> RlocSum(files) == 0
    ensures (forall f :: f in files ==> Rloc(f) >= 0) ==> RlocSum(files) >= 0
  {
    if |files| > 0 {
      assert forall f :: f in files[..|files| - 1] ==> f in files;
      RlocSumBounds(files[..|files| - 1]);
    }
  }

  /** `getProjectStats` without the floating-point average. */
  function Stats(projects: seq<Project>, projectId: string): (s: ProjectStats)
    ensures FindProject(projects, projectId).None? ==> s == ProjectStats(0, 0, 0)
    ensures FindProject(projects, projectId).Some? ==>
      var files := FindProject(projects, projectId).value.analysisResults;
      s.fileCount == |files| && s.folderCount == |Folders(files)| && s.folderCount <= s.fileCount
      && s.totalRloc == RlocSum(files)
  {
    match FindProject(projects, projectId)
    case None => ProjectStats(0, 0, 0)
    case Some(project) =>
      var files := project.analysisResults;
      ProjectStats(|files|, |Folders(files)|, RlocSum(files))
  }

  /** `exportAnalysis`: the current project is required first, then a known format. */
  function ExportAnalysis(current: Option<Project>, format: string): (r: Result<Exported>)
    ensures r.Ok? <==> current.Some? && (format == "SimpleJson" || format == "CodeChartaJson")
    ensures current.None? ==> r == Err("No current project")
    ensures r.Ok? && format == "SimpleJson" ==> r.value == Exported(AnalysisResults(current.value.analysisResults), "json")
    ensures r.Ok? && format == "CodeChartaJson" ==> r.value == Exported(EmptyObject, "cc.json")
  {
    if current.None? then Err("No current project")
    else if format == "SimpleJson" then Ok(Exported(AnalysisResults(current.value.analysisResults), "json"))
    else if format == "CodeChartaJson" then Ok(Exported(EmptyObject, "cc.json"))
    else Err("Unsupported export format: " + format)
  }

  // ---------------------------------------------------------------- the store

  class Store {
    var projects: seq<Project>
    var currentProjectId: Option<string>
    var selectedFile: Option<File>
    var isBackgroundEnabled: bool

    constructor()
      ensures projects == [] && currentProjectId == None && selectedFile == None && isBackgroundEnabled
    {
      projects := [];
      currentProjectId := None;
      selectedFile := None;
      isBackgroundEnabled := true;
    }

    /** `getCurrentProject`: the first project whose id is the current id. */
    function CurrentProject(): (r: Option<Project>)
      reads this
      ensures r.Some? ==> currentProjectId == Some(r.value.id) && r.value in projects
      ensures r.Some? ==> 0 <= IndexOfId(projects, r.value.id) && r.value == projects[IndexOfId(projects, r.value.id)]
      ensures r.None? <==> currentProjectId.None? || forall p :: p in projects ==> p.id != currentProjectId.value
    {
      match currentProjectId
      case None => None
      case Some(id) => FindProject(projects, id)
    }

    /** `getProjectStats`. */
    function GetProjectStats(projectId: string): (s: ProjectStats)
      reads this
      ensures (forall p :: p in projects ==> p.id != projectId) ==> s == ProjectStats(0, 0, 0)
      ensures s.folderCount <= s.fileCount
    {
      Stats(projects, projectId)
    }

    /**
     * `getFilteredFiles`: nothing without a current project or with an
     * empty term; otherwise the current project's files that match, in order.
     */
    function GetFilteredFiles(searchTerm: string): (r: seq<File>)
      reads this
      ensures CurrentProject().None? || searchTerm == "" ==> r == []
      ensures CurrentProject().Some? && searchTerm != "" ==>
        (forall f :: f in r <==> f in CurrentProject().value.analysisResults && Matches(f, searchTerm)) &&
        Seqs.Sub(r, CurrentProject().value.analysisResults)
    {
      match CurrentProject()
      case None => []
      case Some(project) => if searchTerm == "" then [] else FilterFiles(project.analysisResults, searchTerm)
    }

    /** `exportAnalysis`. */
    function GetExportAnalysis(format: string): (r: Result<Exported>)
      reads this
      ensures r.Ok? <==> CurrentProject().Some? && (format == "SimpleJson" || format == "CodeChartaJson")
      ensures CurrentProject().None? ==> r == Err("No current project")
      ensures r.Ok? && format == "SimpleJson" ==>
        r.value == Exported(AnalysisResults(CurrentProject().value.analysisResults), "json")
      ensures r.Ok? && format == "CodeChartaJson" ==> r.value == Exported(EmptyObject, "cc.json")
    {
      ExportAnalysis(CurrentProject(), format)
    }

    /** `addProject`, with the `Date.now()` id passed in: an empty project, appended and made current. */
    method AddProject(name: string, now: string) returns (id: string)
      modifies this
      ensures id == now
      ensures projects == old(projects) + [Project(now, name, [])] && currentProjectId == Some(now)
      ensures selectedFile == old(selectedFile) && isBackgroundEnabled == old(isBackgroundEnabled)
    {
      var newProject := Project(now, name, []);
      projects := projects + [newProject];
      currentProjectId := Some(newProject.id);
      id := newProject.id;
    }

    /** `deleteProject`: every project with the id goes; the current id is cleared only if it was that id. */
    method DeleteProject(id: string)
      modifies this
      ensures projects == WithoutId(old(projects), id)
      ensures currentProjectId == if old(currentProjectId) == Some(id) then None else old(currentProjectId)
      ensures selectedFile == old(selectedFile) && isBackgroundEnabled == old(isBackgroundEnabled)
    {
      projects := WithoutId(projects, id);
      currentProjectId := if currentProjectId == Some(id) then None else currentProjectId;
    }

    /** `updateProject`. */
    method UpdateProject(id: string, updates: ProjectUpdate)
      modifies this
      ensures projects == Updated(old(projects), id, updates)
      ensures currentProjectId == old(currentProjectId)
      ensures selectedFile == old(selectedFile) && isBackgroundEnabled == old(isBackgroundEnabled)
    {
      projects := Updated(projects, id, updates);
    }

    /**
     * `setCurrentProject`: `"new"` asks for a name (`answer`, the prompt's
     * reply) and adds a project under `now` when one is given; any other id
     * becomes current as it is.
     */
    method SetCurrentProject(id: string, answer: Option<string>, now: string)
      modifies this
      ensures id != "new" ==> projects == old(projects) && currentProjectId == Some(id)
      ensures id == "new" && answer.Some? && answer.value != "" ==>
        projects == old(projects) + [Project(now, answer.value, [])] && currentProjectId == Some(now)
      ensures id == "new" && (answer.None? || answer.value == "") ==>
        projects == old(projects) && currentProjectId == old(currentProjectId)
      ensures selectedFile == old(selectedFile) && isBackgroundEnabled == old(isBackgroundEnabled)
    {
      if id == "new" {
        if answer.Some? && answer.value != "" {
          var newId := AddProject(answer.value, now);
          currentProjectId := Some(newId);
        }
      } else {
        currentProjectId := Some(id);
      }
    }

    /**
     * `setAnalysisResults`: the projects under the current id get the new
     * results; with no current id, or the empty one, nothing changes.
     */
    method SetAnalysisResults(results: seq<File>)
      modifies this
      ensures old(currentProjectId).Some? && old(currentProjectId).value != "" ==>
        projects == Updated(old(projects), old(currentProjectId).value, ResultsOnly(results))
      ensures old(currentProjectId).None? || old(currentProjectId).value == "" ==> projects == old(projects)
      ensures currentProjectId == old(currentProjectId)
      ensures selectedFile == old(selectedFile) && isBackgroundEnabled == old(isBackgroundEnabled)
    {
      if currentProjectId.Some? && currentProjectId.value != "" {
        projects := Updated(projects, currentProjectId.value, ResultsOnly(results));
      }
    }

    /** `setSelectedFile`: `None` clears the selection, a file is stored with its defaults filled in. */
    method SetSelectedFile(file: Option<LooseFile>)
      modifies this
      ensures selectedFile == if file.None? then None else Some(SafeFile(file.value))
      ensures projects == old(projects) && currentProjectId == old(currentProjectId)
      ensures isBackgroundEnabled == old(isBackgroundEnabled)
    {
      if file.None? {
        selectedFile := None;
      } else {
        selectedFile := Some(SafeFile(file.value));
      }
    }

    /** `toggleBackground`. */
    method ToggleBackground()
      modifies this
      ensures isBackgroundEnabled == !old(isBackgroundEnabled)
      ensures projects == old(projects) && currentProjectId == old(currentProjectId)
      ensures selectedFile == old(selectedFile)
    {
      isBackgroundEnabled := !isBackgroundEnabled;
    }
  }
}
