/**
 * `RealLinesOfCodePlugin`: the number of lines whose text is not blank once
 * trimmed. Lines are separated by `\r\n`, a lone `\r` or `\n`.
 */
module RealLinesOfCode {
  import opened Text

  const Name: string := "realLinesOfCode"
  /** The plugin declares the wildcard rather than a list of languages. */
  const SupportedLanguages: seq<string> := ["*"]

  /**
   * `content.split(/\r\n|\r|\n/)`. The alternation tries `\r\n` first, so a
   * carriage return directly followed by a line feed is one terminator.
   */
  function SplitLines(s: string): (lines: seq<string>)
    ensures |lines| >= 1
    ensures forall i :: 0 <= i < |lines| ==> '\r' !in lines[i] && '\n' !in lines[i]
  {
    if |s| == 0 then [""]
    else if s[0] == '\r' && |s| >= 2 && s[1] == '\n' then [""] + SplitLines(s[2..])
    else if s[0] == '\r' || s[0] == '\n' then [""] + SplitLines(s[1..])
    else
      var rest := SplitLines(s[1..]);
      [[s[0]] + rest[0]] + rest[1..]
  }

  /** `lines.filter((line) => line.trim() !== "").length`. */
  function CountNonBlank(lines: seq<string>): (n: nat)
    ensures n <= |lines|
  {
    if |lines| == 0 then 0
    else (if IsBlank(lines[0]) then 0 else 1) + CountNonBlank(lines[1..])
  }

  /** `calculate(content)`: it reads nothing but the content. */
  function Calculate(content: string): nat
  {
    CountNonBlank(SplitLines(content))
  }

  /** The content with every `\r\n` and every lone `\r` written as `\n`. */
  function NormalizeEol(s: string): (r: string)
  {
    if |s| == 0 then ""
    else if s[0] == '\r' && |s| >= 2 && s[1] == '\n' then "\n" + NormalizeEol(s[2..])
    else if s[0] == '\r' then "\n" + NormalizeEol(s[1..])
    else [s[0]] + NormalizeEol(s[1..])
  }

  /** Splitting on the three terminators is splitting the normalised text on `\n`. */
  lemma {:induction false} SplitLinesIsSplitOfNormalized(s: string)
    ensures SplitLines(s) == Split(NormalizeEol(s), '\n')
  {
    if |s| > 0 {
      if s[0] == '\r' && |s| >= 2 && s[1] == '\n' {
        SplitLinesIsSplitOfNormalized(s[2..]);
        var t := NormalizeEol(s[2..]);
        assert ("\n" + t)[0] == '\n' && ("\n" + t)[1..] == t;
      } else if s[0] == '\r' || s[0] == '\n' {
        SplitLinesIsSplitOfNormalized(s[1..]);
        var t := NormalizeEol(s[1..]);
        assert NormalizeEol(s) == "\n" + t;
        assert ("\n" + t)[0] == '\n' && ("\n" + t)[1..] == t;
      } else {
        SplitLinesIsSplitOfNormalized(s[1..]);
        var t := NormalizeEol(s[1..]);
        assert ([s[0]] + t)[0] == s[0] && ([s[0]] + t)[1..] == t;
      }
    }
  }

  lemma {:induction false} NormalizeWithoutCarriageReturn(s: string)
    requires '\r' !in s
    ensures NormalizeEol(s) == s
  {
    if |s| > 0 {
      NormalizeWithoutCarriageReturn(s[1..]);
      assert s == [s[0]] + s[1..];
    }
  }

  /** No carriage return is left once the terminators are normalised. */
  lemma {:induction false} NormalizedHasNoCarriageReturn(s: string)
    ensures '\r' !in NormalizeEol(s)
  {
    if |s| > 0 {
      if s[0] == '\r' && |s| >= 2 && s[1] == '\n' {
        NormalizedHasNoCarriageReturn(s[2..]);
      } else {
        NormalizedHasNoCarriageReturn(s[1..]);
      }
    }
  }

  /** Writing every terminator as `\n` leaves the count unchanged. */
  lemma NormalizeEolKeepsCount(s: string)
    ensures Calculate(NormalizeEol(s)) == Calculate(s)
  {
    NormalizedHasNoCarriageReturn(s);
    NormalizeWithoutCarriageReturn(NormalizeEol(s));
    SplitLinesIsSplitOfNormalized(s);
    SplitLinesIsSplitOfNormalized(NormalizeEol(s));
  }

  /** The count is zero exactly when the whole content is blank. */
  lemma {:induction false} ZeroIffBlank(s: string)
    ensures Calculate(s) == 0 <==> IsBlank(s)
  {
    if |s| > 0 {
      if s[0] == '\r' && |s| >= 2 && s[1] == '\n' {
        ZeroIffBlank(s[2..]);
        assert forall i :: 2 <= i < |s| ==> s[i] == s[2..][i - 2];
      } else if s[0] == '\r' || s[0] == '\n' {
        ZeroIffBlank(s[1..]);
        assert forall i :: 1 <= i < |s| ==> s[i] == s[1..][i - 1];
      } else {
        ZeroIffBlank(s[1..]);
        var rest := SplitLines(s[1..]);
        var first := [s[0]] + rest[0];
        assert SplitLines(s) == [first] + rest[1..];
        assert ([first] + rest[1..])[1..] == rest[1..];
        assert CountNonBlank(rest) == (if IsBlank(rest[0]) then 0 else 1) + CountNonBlank(rest[1..]);
        BlankConcat([s[0]], rest[0]);
        assert s == [s[0]] + s[1..];
        BlankConcat([s[0]], s[1..]);
      }
    }
  }

  /** Empty or whitespace-only content counts no line. */
  lemma BlankContentCountsZero(s: string)
    requires IsBlank(s)
    ensures Calculate(s) == 0
  {
    ZeroIffBlank(s);
  }

  /** There are at most as many pieces as terminators plus one. */
  lemma {:induction false} LineCountBound(s: string)
    ensures |SplitLines(s)| <= Count(s, '\n') + Count(s, '\r') + 1
  {
    if |s| > 0 {
      if s[0] == '\r' && |s| >= 2 && s[1] == '\n' {
        LineCountBound(s[2..]);
        assert s[1..][1..] == s[2..];
      } else {
        LineCountBound(s[1..]);
      }
    }
  }

  /** The count is at most the number of line terminators plus one. */
  lemma CountBound(s: string)
    ensures Calculate(s) <= Count(s, '\n') + Count(s, '\r') + 1
  {
    LineCountBound(s);
  }

  lemma {:induction false} CountNonBlankConcat(x: seq<string>, y: seq<string>)
    ensures CountNonBlank(x + y) == CountNonBlank(x) + CountNonBlank(y)
  {
    if |x| > 0 {
      assert (x + y)[0] == x[0] && (x + y)[1..] == x[1..] + y;
      CountNonBlankConcat(x[1..], y);
    } else {
      assert x + y == y;
    }
  }

  /*
   * The steps of `NormalizeConcat`, one per kind of start of `x`: a `\r\n`,
   * a lone `\r`, or any other character.
   */

  lemma NormalizeAfterChar(c: char, b: string)
    requires c != '\r'
    ensures NormalizeEol([c] + b) == [c] + NormalizeEol(b)
  {
    assert ([c] + b)[0] == c && ([c] + b)[1..] == b;
  }

  lemma NormalizeAfterLoneCr(b: string)
    requires |b| == 0 || b[0] != '\n'
    ensures NormalizeEol("\r" + b) == "\n" + NormalizeEol(b)
  {
    assert ("\r" + b)[0] == '\r' && ("\r" + b)[1..] == b;
    assert |b| > 0 ==> ("\r" + b)[1] == b[0];
  }

  lemma NormalizeConcatCrLf(t: string, y: string)
    requires NormalizeEol(t + y) == NormalizeEol(t) + NormalizeEol(y)
    ensures NormalizeEol("\r\n" + t + y) == NormalizeEol("\r\n" + t) + NormalizeEol(y)
  {
    AppendAssoc("\r\n", t, y);
    NormalizeAfterCrLf(t + y);
    NormalizeAfterCrLf(t);
    AppendAssoc("\n", NormalizeEol(t), NormalizeEol(y));
  }

  lemma NormalizeConcatChar(c: char, t: string, y: string)
    requires c != '\r'
    requires NormalizeEol(t + y) == NormalizeEol(t) + NormalizeEol(y)
    ensures NormalizeEol([c] + t + y) == NormalizeEol([c] + t) + NormalizeEol(y)
  {
    AppendAssoc([c], t, y);
    NormalizeAfterChar(c, t + y);
    NormalizeAfterChar(c, t);
    AppendAssoc([c], NormalizeEol(t), NormalizeEol(y));
  }

  lemma NormalizeConcatLoneCr(t: string, y: string)
    requires |t| > 0 && t[0] != '\n'
    requires NormalizeEol(t + y) == NormalizeEol(t) + NormalizeEol(y)
    ensures NormalizeEol("\r" + t + y) == NormalizeEol("\r" + t) + NormalizeEol(y)
  {
    AppendAssoc("\r", t, y);
    assert (t + y)[0] == t[0];
    NormalizeAfterLoneCr(t + y);
    NormalizeAfterLoneCr(t);
    AppendAssoc("\n", NormalizeEol(t), NormalizeEol(y));
  }

  lemma NormalizeConcatFinalCr(y: string)
    requires |y| > 0 && y[0] != '\n'
    ensures NormalizeEol("\r" + y) == NormalizeEol("\r") + NormalizeEol(y)
  {
    NormalizeAfterLoneCr(y);
    NormalizeAfterLoneCr("");
    assert "\r" + "" == "\r";
  }

  /** Concatenation regroups freely. */
  lemma AppendAssoc(a: string, b: string, c: string)
    ensures a + (b + c) == (a + b) + c
  {
  }

  /** Normalising distributes over a concatenation that does not join a `\r` to a `\n`. */
  lemma {:induction false} NormalizeConcat(x: string, y: string)
    requires |x| == 0 || x[|x| - 1] != '\r' || |y| == 0 || y[0] != '\n'
    ensures NormalizeEol(x + y) == NormalizeEol(x) + NormalizeEol(y)
  {
    if |x| == 0 {
      assert x + y == y;
    } else if x[0] == '\r' && |x| >= 2 && x[1] == '\n' {
      var t := x[2..];
      assert x == "\r\n" + t;
      NormalizeConcat(t, y);
      NormalizeConcatCrLf(t, y);
    } else if x[0] != '\r' {
      var t := x[1..];
      assert x == [x[0]] + t;
      NormalizeConcat(t, y);
      NormalizeConcatChar(x[0], t, y);
    } else if |x| >= 2 {
      var t := x[1..];
      assert x == "\r" + t;
      NormalizeConcat(t, y);
      NormalizeConcatLoneCr(t, y);
    } else if |y| == 0 {
      assert x + y == x;
    } else {
      assert x == "\r";
      NormalizeConcatFinalCr(y);
    }
  }

  /** Splitting text that ends in `\n` gives one more, empty, piece. */
  lemma SplitTrailingNewline(x: string)
    ensures Split(x + "\n", '\n') == Split(x, '\n') + [""]
  {
    assert x + "\n" == x + ['\n'] + "";
    SplitConcat(x, "", '\n');
  }

  lemma BlankConcat(x: string, y: string)
    ensures IsBlank(x + y) <==> IsBlank(x) && IsBlank(y)
  {
    if IsBlank(x) && IsBlank(y) {
      forall i | 0 <= i < |x + y| ensures IsWhitespace((x + y)[i]) {
        if i >= |x| { assert (x + y)[i] == y[i - |x|]; }
      }
    }
    if IsBlank(x + y) {
      forall i | 0 <= i < |x| ensures IsWhitespace(x[i]) {
        assert (x + y)[i] == x[i];
      }
      forall i | 0 <= i < |y| ensures IsWhitespace(y[i]) {
        assert (x + y)[|x| + i] == y[i];
      }
    }
  }

  lemma NormalizeAfterNewline(b: string)
    ensures NormalizeEol("\n" + b) == "\n" + NormalizeEol(b)
  {
    assert ("\n" + b)[0] == '\n' && ("\n" + b)[1..] == b;
  }

  lemma NormalizeAfterCrLf(b: string)
    ensures NormalizeEol("\r\n" + b) == "\n" + NormalizeEol(b)
  {
    assert ("\r\n" + b)[0] == '\r' && ("\r\n" + b)[1] == '\n' && ("\r\n" + b)[2..] == b;
  }

  /** A `\n` after text that does not end in `\r` stays between the normalised sides. */
  lemma NormalizeAtNewline(a: string, b: string)
    requires |a| == 0 || a[|a| - 1] != '\r'
    ensures NormalizeEol(a + "\n" + b) == NormalizeEol(a) + ['\n'] + NormalizeEol(b)
  {
    AppendAssoc(a, "\n", b);
    NormalizeConcat(a, "\n" + b);
    NormalizeAfterNewline(b);
    AppendAssoc(NormalizeEol(a), "\n", NormalizeEol(b));
  }

  /** A `\r\n` becomes a `\n` between the normalised sides. */
  lemma NormalizeAtCrLf(a: string, b: string)
    ensures NormalizeEol(a + "\r\n" + b) == NormalizeEol(a) + ['\n'] + NormalizeEol(b)
  {
    AppendAssoc(a, "\r\n", b);
    NormalizeConcat(a, "\r\n" + b);
    NormalizeAfterCrLf(b);
    AppendAssoc(NormalizeEol(a), "\n", NormalizeEol(b));
  }

  /** A `\n` after text that does not end in `\r` separates the pieces of the two sides. */
  lemma SplitLinesAtNewline(a: string, b: string)
    requires |a| == 0 || a[|a| - 1] != '\r'
    ensures SplitLines(a + "\n" + b) == SplitLines(a) + SplitLines(b)
  {
    NormalizeAtNewline(a, b);
    SplitLinesIsSplitOfNormalized(a + "\n" + b);
    SplitLinesIsSplitOfNormalized(a);
    SplitLinesIsSplitOfNormalized(b);
    SplitConcat(NormalizeEol(a), NormalizeEol(b), '\n');
  }

  /** A `\r\n` separates the pieces of the two sides. */
  lemma SplitLinesAtCrLf(a: string, b: string)
    ensures SplitLines(a + "\r\n" + b) == SplitLines(a) + SplitLines(b)
  {
    NormalizeAtCrLf(a, b);
    SplitLinesIsSplitOfNormalized(a + "\r\n" + b);
    SplitLinesIsSplitOfNormalized(a);
    SplitLinesIsSplitOfNormalized(b);
    SplitConcat(NormalizeEol(a), NormalizeEol(b), '\n');
  }

  /** A final lone `\r` ends one more, empty, piece. */
  lemma SplitLinesTrailingCr(a: string)
    ensures SplitLines(a + "\r") == SplitLines(a) + [""]
  {
    var na := NormalizeEol(a);
    NormalizeConcat(a, "\r");
    assert NormalizeEol("\r") == "\n";
    SplitLinesIsSplitOfNormalized(a + "\r");
    SplitLinesIsSplitOfNormalized(a);
    SplitTrailingNewline(na);
  }

  /** Joining two texts with a line feed adds their counts. */
  lemma ConcatAddsCounts(a: string, b: string)
    ensures Calculate(a + "\n" + b) == Calculate(a) + Calculate(b)
  {
    if |a| > 0 && a[|a| - 1] == '\r' {
      var a' := a[..|a| - 1];
      assert a == a' + "\r";
      assert a + "\n" + b == a' + "\r\n" + b;
      SplitLinesAtCrLf(a', b);
      SplitLinesTrailingCr(a');
      CountNonBlankConcat(SplitLines(a'), [""]);
      CountNonBlankConcat(SplitLines(a'), SplitLines(b));
    } else {
      SplitLinesAtNewline(a, b);
      CountNonBlankConcat(SplitLines(a), SplitLines(b));
    }
  }
}
