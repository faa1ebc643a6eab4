/**
 * `SonarComplexityPlugin`: complexity as the number of matches of a
 * per-language table of patterns in code whose comments and strings have
 * been deleted. Each pattern is scanned on its own; the patterns that match
 * are recorded with their matched texts and 1-based line numbers, and the
 * complexity is the sum of their counts.
 */
module SonarComplexity {
  import opened Base
  import opened Text
  import opened Seqs
  import opened Types
  import opened RegexEngine
  import opened Stripping

  /** One row of a pattern table. */
  datatype PatternEntry = PatternEntry(category: string, name: string, regex: string)

  /** A pattern that matched at least once, as recorded in the debug output. */
  datatype ComplexityPattern = ComplexityPattern(
    name: string, category: string, regex: string,
    matches: seq<string>, lines: seq<nat>, count: nat)

  /** The debug object the plugin produces: the recorded patterns, their total and the language. */
  datatype ComplexityDebug = ComplexityDebug(patterns: seq<ComplexityPattern>, totalComplexity: nat, language: string)

  // ---------------------------------------------------------------- tables

  const JavaPatterns: seq<PatternEntry> := [
    PatternEntry("Functions", "Method",
      "(?:public|private|protected|static|\\s)*\\b[\\w<>\\[\\]]+\\s+[\\w_]+\\s*\\([^)]*\\)\\s*\\{"),
    PatternEntry("Functions", "Constructor", "\\b[A-Z][\\w_]*\\s*\\([^)]*\\)\\s*\\{"),
    PatternEntry("Control Flow", "If", "\\bif\\b(?!\\s*else\\b)"),
    PatternEntry("Control Flow", "Else If", "\\belse\\s+if\\b"),
    PatternEntry("Control Flow", "For", "\\bfor\\b"),
    PatternEntry("Control Flow", "While", "\\bwhile\\b"),
    PatternEntry("Control Flow", "Catch", "\\bcatch\\b"),
    PatternEntry("Control Flow", "Throw", "\\bthrow\\b"),
    PatternEntry("Control Flow", "Case", "\\bcase\\b(?!\\s*:.*\\bcase\\b)"),
    PatternEntry("Operators", "AND", "&&"),
    PatternEntry("Operators", "OR", "\\|\\|"),
    PatternEntry("Operators", "Ternary", "\\?(?!:)"),
    PatternEntry("Java Specific", "Anonymous Class", "new\\s+\\w+\\s*\\([^)]*\\)\\s*\\{"),
    PatternEntry("Java Specific", "Lambda", "->(?!\\s*\\{)")
  ]

  const KotlinPatterns: seq<PatternEntry> := [
    PatternEntry("Functions", "Function",
      "^[ \t]*fun\\s*" + "(?:<[^>]+>\\s*)?" + "(?:[A-Za-z0-9_<>.:?]+\\.)?" + "[A-Za-z0-9_]+"
      + "\\s*\\([^)]*\\)" + "(?:\\s*:\\s*[\\w<>\\[\\]\\?]+)?" + "\\s*\\{"),
    PatternEntry("Control Flow", "If", "\\bif\\b(?!\\s*else\\b)"),
    PatternEntry("Control Flow", "Else If", "\\belse\\s+if\\b"),
    PatternEntry("Control Flow", "For", "\\bfor\\b(?=\\s*\\([^)]*\\)|\\s+in\\b)"),
    PatternEntry("Control Flow", "While", "\\bwhile\\b"),
    PatternEntry("Control Flow", "Catch", "\\bcatch\\b"),
    PatternEntry("Control Flow", "Throw", "\\bthrow\\b"),
    PatternEntry("Operators", "AND", "&&(?!\\s*\\{)"),
    PatternEntry("Operators", "OR", "\\|\\|(?!\\s*\\{)"),
    PatternEntry("Kotlin Specific", "When", "\\bwhen\\s*\\([^)]*\\)\\s*\\{"),
    PatternEntry("Kotlin Specific", "Scope Functions", "(?<!\\?)\\.(let|also|run|apply|with)\\s*\\{"),
    PatternEntry("Kotlin Specific", "Object", "\\bobject\\s*:"),
    PatternEntry("Kotlin Specific", "Companion Object", "\\bcompanion\\s+object\\b"),
    PatternEntry("Kotlin Specific", "Lambda",
      "(?<!when\\s*\\([^)]*\\)\\s*\\{[^}]*?)(?<!\\.(let|also|run|apply|with)\\s*\\{[^}]*)->\\s*(?!\\{|$)")
  ]

  /** The `Case` row, which the TypeScript table lists twice. */
  const CaseEntry := PatternEntry("Control Flow", "Case", "\\bcase\\b(?!\\s*:.*\\bcase\\b)")

  const TypeScriptPatterns: seq<PatternEntry> := [
    PatternEntry("Functions", "Named Function Declarations",
      "^[ \t]*(?:export\\s+(?:default\\s+)?)?(?:async\\s+)?function\\s+(?!if|for|while|switch|catch|do)"
      + "[A-Za-z_$][A-Za-z0-9_$]*\\s*\\([^)]*\\)"
      + "(?:\\s*:\\s*[A-Za-z_$][A-Za-z0-9_$<>,|\\[\\]?]*)?"
      + "\\s*\\{"),
    PatternEntry("Functions", "Class/Object Methods",
      "^[ \t]*(?:(?:public|private|protected|static|abstract|readonly|async)\\s+)*"
      + "(?!if|for|while|switch|catch|do)"
      + "[A-Za-z_$][A-Za-z0-9_$]*(?:<[^>]*>)?\\s*\\([^)]*\\)"
      + "(?:\\s*:\\s*[A-Za-z_$][A-Za-z0-9_$<>,|\\[\\]? ]*)?"
      + "\\s*\\{"),
    PatternEntry("Functions", "Arrow Functions",
      "^[ \t]*(?:const|let|var)\\s+(?!if|for|while|switch|catch|do)"
      + "[A-Za-z_$][A-Za-z0-9_$]*\\s*=\\s*"
      + "(?:async\\s+)?"
      + "(?:\\([^)]*\\)|[A-Za-z_$][A-Za-z0-9_$]*)\\s*=>\\s*\\{"),
    PatternEntry("Control Flow", "If", "\\bif\\s*\\("),
    PatternEntry("Control Flow", "Else If", "\\belse\\s+if\\s*\\("),
    PatternEntry("Control Flow", "For", "\\bfor\\s*\\("),
    PatternEntry("Control Flow", "While", "\\bwhile\\s*\\("),
    PatternEntry("Control Flow", "Do While", "\\bdo\\b"),
    PatternEntry("Control Flow", "Try", "\\btry\\b"),
    PatternEntry("Control Flow", "Catch", "\\bcatch\\s*\\("),
    PatternEntry("Control Flow", "Throw", "\\bthrow\\b"),
    PatternEntry("Control Flow", "Switch", "\\bswitch\\s*\\("),
    CaseEntry,
    PatternEntry("Control Flow", "Filter", "\\.filter\\s*\\("),
    PatternEntry("Control Flow", "Map", "\\.map\\s*\\("),
    PatternEntry("Control Flow", "ForEach", "\\.forEach\\s*\\("),
    CaseEntry,
    PatternEntry("Operators", "AND", "&&(?!\\s*\\{)"),
    PatternEntry("Operators", "OR", "\\|\\|(?!\\s*\\{)"),
    PatternEntry("Operators", "Nullish", "\\?\\?(?!\\.)"),
    PatternEntry("Operators", "Ternary",
      "(?<!\\?)\\?(?!\\?|\\.)(?=\\s*[\\w'\"`\\(\\[{]|\\s*(?:true|false|null))(?![.:])"),
    PatternEntry("TypeScript Specific", "Optional Chaining", "\\w+(?:\\?\\.[\\w$]+)+"),
    PatternEntry("TypeScript Specific", "Type Guard", "\\bis\\s+[A-Z]\\w*\\b")
  ]

  const JavaStrippers: seq<Regex> := [LineComment, BlockComment, DoubleQuoted, SingleQuoted]
  const KotlinStrippers: seq<Regex> :=
    [LineComment, BlockComment, DoubleQuoted, TripleQuoted, SingleQuoted, Backquoted]
  /** Only template literals: the other deletions are commented out in the TypeScript helper. */
  const TypeScriptStrippers: seq<Regex> := [Backquoted]

  /** Every table row is scanned as `new RegExp(regex, "gm")`. */
  function Compiled(e: PatternEntry): Regex
  {
    Regex(e.regex, "gm")
  }

  // ------------------------------------------------------------- dispatch

  /** The cleaning step: TypeScript, then Java, and every other language as Kotlin. */
  function Clean(engine: Engine, code: string, language: Language): string
    requires Sound(engine)
  {
    if language == TypeScript then StripAll(engine, code, TypeScriptStrippers)
    else if language == Java then StripAll(engine, code, JavaStrippers)
    else StripAll(engine, code, KotlinStrippers)
  }

  /** The table: Java, then TypeScript, and every other language the Kotlin table. */
  function TableFor(language: Language): seq<PatternEntry>
  {
    if language == Java then JavaPatterns
    else if language == TypeScript then TypeScriptPatterns
    else KotlinPatterns
  }

  method RemoveJavaCommentsAndStrings(engine: Engine, code: string) returns (clean: string)
    requires Sound(engine)
    ensures clean == StripAll(engine, code, JavaStrippers)
    ensures Sub(clean, code)
  {
    clean := RemoveInOrder(engine, code, JavaStrippers);
    StripOnlyDeletes(engine, code, JavaStrippers);
  }

  method RemoveKotlinCommentsAndStrings(engine: Engine, code: string) returns (clean: string)
    requires Sound(engine)
    ensures clean == StripAll(engine, code, KotlinStrippers)
    ensures Sub(clean, code)
  {
    clean := RemoveInOrder(engine, code, KotlinStrippers);
    StripOnlyDeletes(engine, code, KotlinStrippers);
  }

  method RemoveTypeScriptCommentsAndStrings(engine: Engine, code: string) returns (clean: string)
    requires Sound(engine)
    ensures clean == StripAll(engine, code, TypeScriptStrippers)
    ensures clean == DeleteMatches(engine, Backquoted, code, 0)
    ensures Sub(clean, code)
  {
    clean := RemoveInOrder(engine, code, TypeScriptStrippers);
    assert TypeScriptStrippers[..0] == [];
    StripOnlyDeletes(engine, code, TypeScriptStrippers);
  }

  // ---------------------------------------------------------- line numbers

  /**
   * `code.substring(0, index).split("\n").length`: the 1-based line an offset
   * falls on. `substring` clamps an index past the end.
   */
  function LineAt(code: string, index: nat): nat
  {
    |Split(code[..if index <= |code| then index else |code|], '\n')|
  }

  /** The line is one more than the number of line feeds before the offset. */
  lemma LineAtCountsNewlines(code: string, index: nat)
    requires index <= |code|
    ensures LineAt(code, index) == Count(code[..index], '\n') + 1
    ensures LineAt(code, index) >= 1
  {
  }

  /** A later offset is never on an earlier line. */
  lemma LineAtMonotone(code: string, i: nat, j: nat)
    requires i <= j
    ensures LineAt(code, i) <= LineAt(code, j)
  {
    var i' := if i <= |code| then i else |code|;
    var j' := if j <= |code| then j else |code|;
    CountPrefixMonotone(code, i', j', '\n');
  }

  /** The line of each match start. */
  function LinesOf(code: string, hits: seq<Hit>): (lines: seq<nat>)
    ensures |lines| == |hits|
    ensures forall i :: 0 <= i < |hits| ==> lines[i] == LineAt(code, hits[i].start)
  {
    if |hits| == 0 then [] else [LineAt(code, hits[0].start)] + LinesOf(code, hits[1..])
  }

  // --------------------------------------------------------- one pattern

  /**
   * `findAllMatches`: `exec` is called until it fails, each call resuming
   * where the previous match ended; every match contributes its text and the
   * line it starts on.
   */
  method FindAllMatches(engine: Engine, code: string, re: Regex) returns (matches: seq<string>, lines: seq<nat>)
    requires Sound(engine)
    ensures matches == Texts(AllMatches(engine, re, code, 0))
    ensures lines == LinesOf(code, AllMatches(engine, re, code, 0))
  {
    matches, lines := [], [];
    ghost var done: seq<Hit> := [];
    var pos := 0;
    var m := engine(re, code, pos);
    while m.Some?
      invariant m == engine(re, code, pos)
      invariant AllMatches(engine, re, code, 0) == done + AllMatches(engine, re, code, pos)
      invariant matches == Texts(done) && lines == LinesOf(code, done)
      decreases |code| - pos
    {
      assert SoundHit(m, code, pos);
      var hit := m.value;
      assert AllMatches(engine, re, code, pos) == [hit] + AllMatches(engine, re, code, hit.End());
      matches := matches + [hit.text];
      lines := lines + [LineAt(code, hit.start)];
      done := done + [hit];
      pos := hit.End();
      m := engine(re, code, pos);
    }
    assert AllMatches(engine, re, code, pos) == [];
    assert done + [] == done;
  }

  /** Within one pattern the lines never decrease, because each scan resumes after the previous match. */
  lemma MatchLinesNonDecreasing(engine: Engine, code: string, re: Regex)
    requires Sound(engine)
    ensures forall i, j :: 0 <= i < j < |AllMatches(engine, re, code, 0)| ==>
      LinesOf(code, AllMatches(engine, re, code, 0))[i] <= LinesOf(code, AllMatches(engine, re, code, 0))[j]
  {
    var hits := AllMatches(engine, re, code, 0);
    AllMatchesOrdered(engine, re, code, 0);
    forall i, j | 0 <= i < j < |hits|
      ensures LinesOf(code, hits)[i] <= LinesOf(code, hits)[j]
    {
      LineAtMonotone(code, hits[i].start, hits[j].start);
    }
  }

  /** The record a table row yields: present only when the row matched. */
  function Record(engine: Engine, code: string, e: PatternEntry): seq<ComplexityPattern>
    requires Sound(engine)
  {
    var hits := AllMatches(engine, Compiled(e), code, 0);
    if |hits| > 0 then [ComplexityPattern(e.name, e.category, e.regex, Texts(hits), LinesOf(code, hits), |hits|)]
    else []
  }

  /** The records of a table, scanned row by row in declaration order. */
  function ScanTable(engine: Engine, code: string, table: seq<PatternEntry>): seq<ComplexityPattern>
    requires Sound(engine)
  {
    if |table| == 0 then []
    else ScanTable(engine, code, table[..|table| - 1]) + Record(engine, code, table[|table| - 1])
  }

  /** A recorded pattern: as many lines as matches, the count is their number, at least one, lines 1-based. */
  predicate WellFormed(p: ComplexityPattern)
  {
    && p.count == |p.matches| == |p.lines|
    && p.count >= 1
    && forall i :: 0 <= i < |p.lines| ==> p.lines[i] >= 1
  }

  /** Lines never decrease along a record. */
  predicate LinesSorted(p: ComplexityPattern)
  {
    forall i, j :: 0 <= i < j < |p.lines| ==> p.lines[i] <= p.lines[j]
  }

  /** Number of matches a table row has, whether or not it is recorded. */
  function MatchCount(engine: Engine, code: string, e: PatternEntry): nat
    requires Sound(engine)
  {
    |AllMatches(engine, Compiled(e), code, 0)|
  }

  /** Sum of the match counts of all rows: an independent account of the complexity. */
  function SumMatches(engine: Engine, code: string, table: seq<PatternEntry>): nat
    requires Sound(engine)
  {
    if |table| == 0 then 0
    else SumMatches(engine, code, table[..|table| - 1]) + MatchCount(engine, code, table[|table| - 1])
  }

  /** `patterns.reduce((sum, p) => sum + p.count, 0)`. */
  function Total(ps: seq<ComplexityPattern>): nat
  {
    if |ps| == 0 then 0 else Total(ps[..|ps| - 1]) + ps[|ps| - 1].count
  }

  lemma {:induction false} TotalConcat(a: seq<ComplexityPattern>, b: seq<ComplexityPattern>)
    ensures Total(a + b) == Total(a) + Total(b)
    decreases |b|
  {
    if |b| == 0 {
      assert a + b == a;
    } else {
      assert (a + b)[..|a + b| - 1] == a + b[..|b| - 1];
      TotalConcat(a, b[..|b| - 1]);
    }
  }

  /** Every record of a scan is well formed and its lines are sorted. */
  lemma {:induction false} ScanTableWellFormed(engine: Engine, code: string, table: seq<PatternEntry>)
    requires Sound(engine)
    ensures forall i :: 0 <= i < |ScanTable(engine, code, table)| ==>
      WellFormed(ScanTable(engine, code, table)[i]) && LinesSorted(ScanTable(engine, code, table)[i])
  {
    if |table| > 0 {
      var e := table[|table| - 1];
      ScanTableWellFormed(engine, code, table[..|table| - 1]);
      var hits := AllMatches(engine, Compiled(e), code, 0);
      if |hits| > 0 {
        var p := Record(engine, code, e)[0];
        MatchLinesNonDecreasing(engine, code, Compiled(e));
        forall i | 0 <= i < |p.lines| ensures p.lines[i] >= 1 {
          AllMatchesOrdered(engine, Compiled(e), code, 0);
          LineAtCountsNewlines(code, hits[i].start);
        }
      }
    }
  }

  /**
   * Rows without matches are not recorded and add nothing: the total of the
   * records is the number of matches over all rows.
   */
  lemma {:induction false} ScanTableTotal(engine: Engine, code: string, table: seq<PatternEntry>)
    requires Sound(engine)
    ensures Total(ScanTable(engine, code, table)) == SumMatches(engine, code, table)
  {
    if |table| > 0 {
      ScanTableTotal(engine, code, table[..|table| - 1]);
      var e := table[|table| - 1];
      TotalConcat(ScanTable(engine, code, table[..|table| - 1]), Record(engine, code, e));
      assert Total(Record(engine, code, e)) == MatchCount(engine, code, e) by {
        var r := Record(engine, code, e);
        if |r| == 1 {
          assert r[..0] == [];
        }
      }
    }
  }

  /** The table row a record came from. */
  function EntryOf(p: ComplexityPattern): PatternEntry
  {
    PatternEntry(p.category, p.name, p.regex)
  }

  function Entries(ps: seq<ComplexityPattern>): (es: seq<PatternEntry>)
    ensures |es| == |ps|
    ensures forall i :: 0 <= i < |ps| ==> es[i] == EntryOf(ps[i])
  {
    if |ps| == 0 then [] else [EntryOf(ps[0])] + Entries(ps[1..])
  }

  lemma EntriesConcat(a: seq<ComplexityPattern>, b: seq<ComplexityPattern>)
    ensures Entries(a + b) == Entries(a) + Entries(b)
  {
  }

  /** The records keep the declaration order of the rows they come from: the scan only drops rows. */
  lemma {:induction false} ScanTableInOrder(engine: Engine, code: string, table: seq<PatternEntry>)
    requires Sound(engine)
    ensures Sub(Entries(ScanTable(engine, code, table)), table)
  {
    if |table| == 0 {
      SubReflexive(table);
    } else {
      var front := table[..|table| - 1];
      var e := table[|table| - 1];
      ScanTableInOrder(engine, code, front);
      var r := Record(engine, code, e);
      EntriesConcat(ScanTable(engine, code, front), r);
      var es := Entries(ScanTable(engine, code, front));
      if |r| == 1 {
        assert Entries(r) == [e];
        assert (es + [e])[..|es + [e]| - 1] == es;
        assert front == table[..|table| - 1];
      } else {
        assert Entries(r) == [];
        assert es + [] == es;
      }
    }
  }

  /** A row listed twice is scanned twice: every one of its matches is counted once per listing. */
  lemma {:induction false} RepeatedRowCountsTwice(engine: Engine, code: string, table: seq<PatternEntry>, i: nat, j: nat)
    requires Sound(engine)
    requires i < j < |table| && table[i] == table[j]
    ensures SumMatches(engine, code, table) >= 2 * MatchCount(engine, code, table[i])
  {
    var n := |table|;
    if j == n - 1 {
      SumMatchesAtLeastRow(engine, code, table[..n - 1], i);
    } else {
      RepeatedRowCountsTwice(engine, code, table[..n - 1], i, j);
    }
  }

  lemma {:induction false} SumMatchesAtLeastRow(engine: Engine, code: string, table: seq<PatternEntry>, i: nat)
    requires Sound(engine)
    requires i < |table|
    ensures SumMatches(engine, code, table) >= MatchCount(engine, code, table[i])
  {
    if i < |table| - 1 {
      SumMatchesAtLeastRow(engine, code, table[..|table| - 1], i);
    }
  }

  /** The TypeScript table lists `Case` twice, so each `case` is counted twice. */
  lemma TypeScriptCaseCountedTwice(engine: Engine, code: string)
    requires Sound(engine)
    ensures TypeScriptPatterns[12] == TypeScriptPatterns[16] == CaseEntry
    ensures SumMatches(engine, code, TypeScriptPatterns) >= 2 * MatchCount(engine, code, CaseEntry)
  {
    RepeatedRowCountsTwice(engine, code, TypeScriptPatterns, 12, 16);
  }

  // --------------------------------------------------------- when branches

  const WhenBlockPattern := Regex("when\\s*\\([^)]*\\)\\s*\\{([^}]*)\\}", "g")
  const BranchPattern :=
    Regex("(?:(?:else)|(?:is\\s+\\w+)|(?:\\d+|\"[^\"]*\"|'[^']*'|\\w+(?:\\([^)]*\\))?))[ \\t]*->", "g")

  /** The branches found so far and the line recorded for each. */
  datatype Branches = Branches(matches: seq<string>, lines: seq<nat>)

  /**
   * The branches of `blocks`, block by block: each block is located with
   * `indexOf` (its first occurrence in the code) and all of its branches get
   * the line that occurrence starts on.
   */
  function ScanBlocks(engine: Engine, code: string, blocks: seq<string>): Branches
    requires Sound(engine)
  {
    if |blocks| == 0 then Branches([], [])
    else
      var acc := ScanBlocks(engine, code, blocks[..|blocks| - 1]);
      var block := blocks[|blocks| - 1];
      var start := IndexOf(code, block);
      if start == -1 then acc
      else
        var branches := MatchAll(engine, BranchPattern, block);
        if |branches| > 0 then
          Branches(acc.matches + branches, acc.lines + seq(|branches|, _ => LineAt(code, start)))
        else acc
  }

  /** The synthetic "When Branches" record; its count may be zero. */
  function WhenBranches(engine: Engine, code: string): ComplexityPattern
    requires Sound(engine)
  {
    var b := ScanBlocks(engine, code, MatchAll(engine, WhenBlockPattern, code));
    ComplexityPattern("When Branches", "Kotlin Specific", "->", b.matches, b.lines, |b.matches|)
  }

  /** `countWhenBranches`. */
  method CountWhenBranches(engine: Engine, code: string) returns (p: ComplexityPattern)
    requires Sound(engine)
    ensures p == WhenBranches(engine, code)
  {
    var whenBlocks := MatchAll(engine, WhenBlockPattern, code);
    var branchMatches: seq<string> := [];
    var branchLines: seq<nat> := [];
    for k := 0 to |whenBlocks|
      invariant Branches(branchMatches, branchLines) == ScanBlocks(engine, code, whenBlocks[..k])
    {
      assert whenBlocks[..k + 1][..k] == whenBlocks[..k];
      var block := whenBlocks[k];
      var blockStart := IndexOf(code, block);
      if blockStart == -1 {
        continue;
      }
      var branches := MatchAll(engine, BranchPattern, block);
      if |branches| > 0 {
        branchMatches := branchMatches + branches;
        var startLine := LineAt(code, blockStart);
        branchLines := branchLines + seq(|branches|, _ => startLine);
      }
    }
    assert whenBlocks[..|whenBlocks|] == whenBlocks;
    p := ComplexityPattern("When Branches", "Kotlin Specific", "->", branchMatches, branchLines, |branchMatches|);
  }

  /**
   * Every branch has a line, each line is the line on which the first
   * occurrence of one of the blocks starts, and so is at least 1.
   */
  lemma {:induction false} ScanBlocksLines(engine: Engine, code: string, blocks: seq<string>)
    requires Sound(engine)
    ensures |ScanBlocks(engine, code, blocks).matches| == |ScanBlocks(engine, code, blocks).lines|
    ensures forall i :: 0 <= i < |ScanBlocks(engine, code, blocks).lines| ==>
      exists k :: (0 <= k < |blocks| && IndexOf(code, blocks[k]) >= 0
        && ScanBlocks(engine, code, blocks).lines[i] == LineAt(code, IndexOf(code, blocks[k])))
    ensures forall i :: 0 <= i < |ScanBlocks(engine, code, blocks).lines| ==> ScanBlocks(engine, code, blocks).lines[i] >= 1
  {
    if |blocks| > 0 {
      var front := blocks[..|blocks| - 1];
      ScanBlocksLines(engine, code, front);
      var acc := ScanBlocks(engine, code, front);
      var last := |blocks| - 1;
      var r := ScanBlocks(engine, code, blocks);
      forall i | 0 <= i < |r.lines|
        ensures exists k :: (0 <= k < |blocks| && IndexOf(code, blocks[k]) >= 0
          && r.lines[i] == LineAt(code, IndexOf(code, blocks[k])))
        ensures r.lines[i] >= 1
      {
        if i < |acc.lines| {
          assert r.lines[i] == acc.lines[i];
          var k :| 0 <= k < |front| && IndexOf(code, front[k]) >= 0
            && acc.lines[i] == LineAt(code, IndexOf(code, front[k]));
          assert blocks[k] == front[k];
        } else {
          assert r.lines[i] == LineAt(code, IndexOf(code, blocks[last]));
          LineAtCountsNewlines(code, IndexOf(code, blocks[last]));
        }
      }
    }
  }

  /**
   * Each block a sound engine reports is found by `indexOf`, at or before
   * where it was matched, so the line its branches get is never later than
   * the block's own line. Blocks with the same text get the same line.
   */
  lemma BlockFoundNoLater(engine: Engine, code: string, k: nat)
    requires Sound(engine)
    requires k < |AllMatches(engine, WhenBlockPattern, code, 0)|
    ensures IndexOf(code, AllMatches(engine, WhenBlockPattern, code, 0)[k].text) >= 0
    ensures IndexOf(code, AllMatches(engine, WhenBlockPattern, code, 0)[k].text)
      <= AllMatches(engine, WhenBlockPattern, code, 0)[k].start
    ensures LineAt(code, IndexOf(code, AllMatches(engine, WhenBlockPattern, code, 0)[k].text))
      <= LineAt(code, AllMatches(engine, WhenBlockPattern, code, 0)[k].start)
  {
    var hit := AllMatches(engine, WhenBlockPattern, code, 0)[k];
    AllMatchesOrdered(engine, WhenBlockPattern, code, 0);
    assert OccursAt(code, hit.text, hit.start);
    LineAtMonotone(code, IndexOf(code, hit.text), hit.start);
  }

  // ------------------------------------------------------------ complexity

  /** The records for a language: the table's, then "When Branches" for Kotlin when it has any. */
  function Patterns(engine: Engine, clean: string, language: Language): seq<ComplexityPattern>
    requires Sound(engine)
  {
    var w := WhenBranches(engine, clean);
    ScanTable(engine, clean, TableFor(language))
      + (if language == Kotlin && w.count > 0 then [w] else [])
  }

  /** The number `calculate` returns for `code`. */
  function Complexity(engine: Engine, code: string, language: Language): nat
    requires Sound(engine)
  {
    Total(Patterns(engine, Clean(engine, code, language), language))
  }

  /** The cleaning step of `calculateComplexity`. */
  method CleanCode(engine: Engine, code: string, language: Language) returns (cleanCode: string)
    requires Sound(engine)
    ensures cleanCode == Clean(engine, code, language)
    ensures Sub(cleanCode, code)
  {
    if language == TypeScript {
      cleanCode := RemoveTypeScriptCommentsAndStrings(engine, code);
      assert TypeScriptStrippers[..0] == [];
    } else if language == Java {
      cleanCode := RemoveJavaCommentsAndStrings(engine, code);
    } else {
      cleanCode := RemoveKotlinCommentsAndStrings(engine, code);
    }
  }

  /** The loop of `calculateComplexity` over the rows of a table. */
  method ScanPatterns(engine: Engine, cleanCode: string, languagePatterns: seq<PatternEntry>)
    returns (patterns: seq<ComplexityPattern>)
    requires Sound(engine)
    ensures patterns == ScanTable(engine, cleanCode, languagePatterns)
  {
    patterns := [];
    for k := 0 to |languagePatterns|
      invariant patterns == ScanTable(engine, cleanCode, languagePatterns[..k])
    {
      assert languagePatterns[..k + 1][..k] == languagePatterns[..k];
      var e := languagePatterns[k];
      var matches, lines := FindAllMatches(engine, cleanCode, Regex(e.regex, "gm"));
      if |matches| > 0 {
        patterns := patterns + [ComplexityPattern(e.name, e.category, e.regex, matches, lines, |matches|)];
      }
    }
    assert languagePatterns[..|languagePatterns|] == languagePatterns;
  }

  /** `calculateComplexity`: the complexity, and the debug object when asked for. */
  method CalculateComplexity(engine: Engine, code: string, language: Language, debug: bool)
    returns (complexity: nat, info: Option<ComplexityDebug>)
    requires Sound(engine)
    ensures complexity == Complexity(engine, code, language)
    ensures !debug ==> info == None
    ensures debug ==> info == Some(ComplexityDebug(
      Patterns(engine, Clean(engine, code, language), language), complexity, ToLower(LanguageName(language))))
  {
    var cleanCode := CleanCode(engine, code, language);
    var patterns := ScanPatterns(engine, cleanCode, TableFor(language));
    if language == Kotlin {
      var whenBranches := CountWhenBranches(engine, cleanCode);
      if whenBranches.count > 0 {
        patterns := patterns + [whenBranches];
      }
    }
    assert patterns == Patterns(engine, cleanCode, language);
    complexity := Total(patterns);
    if !debug {
      return complexity, None;
    }
    return complexity, Some(ComplexityDebug(patterns, complexity, ToLower(LanguageName(language))));
  }

  /**
   * The complexity is the number of matches over all rows of the language's
   * table, plus the when-branches for Kotlin; there is no base term.
   */
  lemma ComplexityIsMatchCount(engine: Engine, code: string, language: Language)
    requires Sound(engine)
    ensures Complexity(engine, code, language) ==
      SumMatches(engine, Clean(engine, code, language), TableFor(language))
      + (if language == Kotlin then |WhenBranches(engine, Clean(engine, code, language)).matches| else 0)
  {
    var clean := Clean(engine, code, language);
    var w := WhenBranches(engine, clean);
    var extra := if language == Kotlin && w.count > 0 then [w] else [];
    ScanTableTotal(engine, clean, TableFor(language));
    TotalConcat(ScanTable(engine, clean, TableFor(language)), extra);
    assert Total(extra) == (if language == Kotlin then |w.matches| else 0) by {
      if |extra| == 1 {
        assert extra[..0] == [];
      }
    }
  }

  /** Every record, the table rows' and the when-branches', is well formed. */
  lemma PatternsWellFormed(engine: Engine, clean: string, language: Language)
    requires Sound(engine)
    ensures forall i :: 0 <= i < |Patterns(engine, clean, language)| ==> WellFormed(Patterns(engine, clean, language)[i])
  {
    var table := ScanTable(engine, clean, TableFor(language));
    ScanTableWellFormed(engine, clean, TableFor(language));
    var w := WhenBranches(engine, clean);
    ScanBlocksLines(engine, clean, MatchAll(engine, WhenBlockPattern, clean));
    var ps := Patterns(engine, clean, language);
    forall i | 0 <= i < |ps| ensures WellFormed(ps[i]) {
      if i < |table| {
        assert ps[i] == table[i];
      } else {
        assert ps[i] == w;
      }
    }
  }

  /** No row of any table is called "When Branches". */
  lemma NoTableRowNamedWhenBranches(language: Language, i: nat)
    requires i < |TableFor(language)|
    ensures TableFor(language)[i].name != "When Branches"
  {
  }

  /** A "When Branches" record appears only for Kotlin, and only as the last record. */
  lemma WhenBranchesOnlyLastForKotlin(engine: Engine, clean: string, language: Language, i: nat)
    requires Sound(engine)
    requires i < |Patterns(engine, clean, language)| && Patterns(engine, clean, language)[i].name == "When Branches"
    ensures language == Kotlin
    ensures i == |Patterns(engine, clean, language)| - 1
  {
    var table := ScanTable(engine, clean, TableFor(language));
    ScanTableInOrder(engine, clean, TableFor(language));
    if i < |table| {
      var e := Entries(table)[i];
      assert e.name == "When Branches";
      SubMember(Entries(table), TableFor(language), i);
      var j :| 0 <= j < |TableFor(language)| && TableFor(language)[j] == e;
      NoTableRowNamedWhenBranches(language, j);
    }
  }

  /** Each element kept by a deletion comes from the original sequence. */
  lemma {:induction false} SubMember<T>(a: seq<T>, b: seq<T>, i: nat)
    requires Sub(a, b) && i < |a|
    ensures exists j :: 0 <= j < |b| && b[j] == a[i]
    decreases |b|
  {
    if |b| == 0 {
      assert false;
    } else if |a| > 0 && a[|a| - 1] == b[|b| - 1] && Sub(a[..|a| - 1], b[..|b| - 1]) {
      if i == |a| - 1 {
        assert b[|b| - 1] == a[i];
      } else {
        SubMember(a[..|a| - 1], b[..|b| - 1], i);
        var j :| 0 <= j < |b| - 1 && b[..|b| - 1][j] == a[..|a| - 1][i];
        assert b[j] == a[i];
      }
    } else {
      SubMember(a, b[..|b| - 1], i);
      var j :| 0 <= j < |b| - 1 && b[..|b| - 1][j] == a[i];
      assert b[j] == a[i];
    }
  }

  /**
   * Any language other than Java and TypeScript — including ones the plugin
   * does not declare — is cleaned and scanned as Kotlin, but only Kotlin
   * itself gets when-branches.
   */
  lemma OtherLanguagesScanAsKotlin(engine: Engine, code: string, language: Language)
    requires Sound(engine)
    requires language != Java && language != TypeScript
    ensures Clean(engine, code, language) == StripAll(engine, code, KotlinStrippers)
    ensures language != Kotlin ==>
      Complexity(engine, code, language) == SumMatches(engine, StripAll(engine, code, KotlinStrippers), KotlinPatterns)
  {
    ComplexityIsMatchCount(engine, code, language);
  }

  // ---------------------------------------------------------------- plugin

  /** The plugin object: its metadata and the debug object of the last debug-mode run. */
  class SonarComplexityPlugin {
    const name: string
    const supportedLanguages: seq<Language>
    var debugInfo: Option<ComplexityDebug>

    constructor()
      ensures name == "sonar_complexity"
      ensures supportedLanguages == [Java, Kotlin, TypeScript]
      ensures debugInfo == None
    {
      name := "sonar_complexity";
      supportedLanguages := [Java, Kotlin, TypeScript];
      debugInfo := None;
    }

    /**
     * `calculate`: the number does not depend on `debug`; a debug run stores
     * its debug object, and any other run leaves the stored one as it was.
     */
    method Calculate(engine: Engine, content: string, language: Language, debug: bool) returns (r: nat)
      requires Sound(engine)
      modifies this
      ensures r == Complexity(engine, content, language)
      ensures debug ==> debugInfo == Some(ComplexityDebug(
        Patterns(engine, Clean(engine, content, language), language), r, ToLower(LanguageName(language))))
      ensures !debug ==> debugInfo == old(debugInfo)
    {
      var complexity, info := CalculateComplexity(engine, content, language, debug);
      if debug {
        debugInfo := info;
      }
      r := complexity;
    }

    /** `getDebugInfo`: the stored debug object, if any. */
    function GetDebugInfo(): Option<ComplexityDebug>
      reads this
    {
      debugInfo
    }
  }
}
