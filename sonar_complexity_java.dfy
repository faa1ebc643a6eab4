/**
 * `SonarComplexityJavaPlugin` of the earlier single-package layout: one
 * alternation of keyword patterns, counted over the code with comments and
 * strings deleted, plus one.
 */
module SonarComplexityJava {
  import opened Text
  import opened Seqs
  import opened RegexEngine
  import opened Stripping

  const Name: string := "sonarComplexity"
  const SupportedLanguages: seq<string> := ["java"]

  /** The alternatives, in the order they are joined. */
  const ComplexityPatterns: seq<string> := [
    "\\bif\\b",
    "\\belse\\s+if\\b",
    "\\bfor\\b",
    "\\bwhile\\b",
    "\\bcase\\b",
    "\\bcatch\\b",
    "\\bthrow\\b",
    "\\?|&&|\\|\\||->",
    "new\\s+\\w+(\\s*\\([^)]*\\))?\\s*(?=\\{)"
  ]

  /** `new RegExp(complexityPatterns.join("|"), "g")`. */
  const Combined: Regex := Regex(Join(ComplexityPatterns, '|'), "g")

  /** Line comments, block comments, double-quoted then single-quoted strings. */
  const Strippers: seq<Regex> := [LineComment, BlockComment, DoubleQuoted, SingleQuoted]

  /** The value `calculateJavaComplexity` returns: matches in the stripped code, plus one. */
  function JavaComplexity(engine: Engine, code: string): nat
    requires Sound(engine)
  {
    |MatchAll(engine, Combined, StripAll(engine, code, Strippers))| + 1
  }

  /** `removeCommentsAndStrings`: the four deletions in turn; the result is never longer. */
  method RemoveCommentsAndStrings(engine: Engine, code: string) returns (clean: string)
    requires Sound(engine)
    ensures clean == StripAll(engine, code, Strippers)
    ensures Sub(clean, code) && |clean| <= |code|
  {
    clean := RemoveInOrder(engine, code, Strippers);
    StripOnlyDeletes(engine, code, Strippers);
  }

  /** `calculateJavaComplexity`, which is also what the plugin's `calculate` returns. */
  method CalculateJavaComplexity(engine: Engine, code: string) returns (complexity: nat)
    requires Sound(engine)
    ensures complexity == JavaComplexity(engine, code)
    ensures complexity >= 1
  {
    var codeWithoutCommentsAndStrings := RemoveCommentsAndStrings(engine, code);
    var matches := MatchAll(engine, Combined, codeWithoutCommentsAndStrings);
    complexity := |matches| + 1;
  }

  /**
   * The result is one more than the number of matches of the combined
   * pattern in the stripped code, and those matches do not overlap.
   */
  lemma CountsNonOverlappingMatches(engine: Engine, code: string)
    requires Sound(engine)
    ensures JavaComplexity(engine, code) == |AllMatches(engine, Combined, StripAll(engine, code, Strippers), 0)| + 1
    ensures Ordered(AllMatches(engine, Combined, StripAll(engine, code, Strippers), 0), StripAll(engine, code, Strippers), 0)
  {
    AllMatchesOrdered(engine, Combined, StripAll(engine, code, Strippers), 0);
  }

  /** Code in which nothing matches once stripped has complexity exactly 1. */
  lemma NoMatchesGivesOne(engine: Engine, code: string)
    requires Sound(engine)
    requires engine(Combined, StripAll(engine, code, Strippers), 0).None?
    ensures JavaComplexity(engine, code) == 1
  {
  }
}
