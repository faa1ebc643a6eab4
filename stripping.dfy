/**
 * Removal of comments and string literals before patterns are counted: a
 * list of global regexes, each applied in turn with `replace(re, "")`.
 */
module Stripping {
  import opened RegexEngine
  import opened Seqs

  /** `//` up to the end of the line (`m` flag: `$` is a line end). */
  const LineComment := Regex("\\/\\/.*$", "gm")
  /** A block comment, matched lazily, across lines. */
  const BlockComment := Regex("\\/\\*[\\s\\S]*?\\*\\/", "g")
  const DoubleQuoted := Regex("\"(?:[^\"\\\\]|\\\\.)*\"", "g")
  const TripleQuoted := Regex("\"\"\"[\\s\\S]*?\"\"\"", "g")
  const SingleQuoted := Regex("'(?:[^'\\\\]|\\\\.)*'", "g")
  /** Kotlin raw strings and TypeScript template literals share one pattern. */
  const Backquoted := Regex("`(?:[^`\\\\]|\\\\.)*`", "g")

  /** The text after the deletions of `patterns`, applied first to last. */
  function StripAll(engine: Engine, code: string, patterns: seq<Regex>): string
    requires Sound(engine)
  {
    if |patterns| == 0 then code
    else DeleteMatches(engine, patterns[|patterns| - 1], StripAll(engine, code, patterns[..|patterns| - 1]), 0)
  }

  /** The loop shared by the `remove*CommentsAndStrings` helpers. */
  method RemoveInOrder(engine: Engine, code: string, patterns: seq<Regex>) returns (clean: string)
    requires Sound(engine)
    ensures clean == StripAll(engine, code, patterns)
  {
    clean := code;
    for k := 0 to |patterns|
      invariant clean == StripAll(engine, code, patterns[..k])
    {
      assert patterns[..k + 1][..k] == patterns[..k];
      clean := DeleteMatches(engine, patterns[k], clean, 0);
    }
    assert patterns[..|patterns|] == patterns;
  }

  /**
   * Stripping only deletes: what is left is the input with some characters
   * removed, in their original order, so it is never longer.
   */
  lemma {:induction false} StripOnlyDeletes(engine: Engine, code: string, patterns: seq<Regex>)
    requires Sound(engine)
    ensures Sub(StripAll(engine, code, patterns), code)
    ensures |StripAll(engine, code, patterns)| <= |code|
  {
    if |patterns| == 0 {
      SubReflexive(code);
    } else {
      var before := StripAll(engine, code, patterns[..|patterns| - 1]);
      StripOnlyDeletes(engine, code, patterns[..|patterns| - 1]);
      DeleteMatchesOnlyDeletes(engine, patterns[|patterns| - 1], before, 0);
      assert before[0..] == before;
      SubTransitive(StripAll(engine, code, patterns), before, code);
    }
    SubLength(StripAll(engine, code, patterns), code);
  }

  /** A text none of the patterns finds anything in comes out unchanged. */
  lemma {:induction false} StripNothing(engine: Engine, code: string, patterns: seq<Regex>)
    requires Sound(engine)
    requires forall k :: 0 <= k < |patterns| ==> engine(patterns[k], code, 0).None?
    ensures StripAll(engine, code, patterns) == code
  {
    if |patterns| > 0 {
      StripNothing(engine, code, patterns[..|patterns| - 1]);
      DeleteNothing(engine, patterns[|patterns| - 1], code);
    }
  }
}
