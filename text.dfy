/**
 * The JavaScript string operations the metrics engine relies on:
 * `split` on one character, `join`, `indexOf`, `includes`, `replace` of one
 * character, `toLowerCase` and `trim`-emptiness.
 */
module Text {

  /** Number of occurrences of `c` in `s`. */
  function Count(s: string, c: char): (n: nat)
    ensures n <= |s|
  {
    if |s| == 0 then 0 else (if s[0] == c then 1 else 0) + Count(s[1..], c)
  }

  lemma {:induction false} CountConcat(a: string, b: string, c: char)
    ensures Count(a + b, c) == Count(a, c) + Count(b, c)
  {
    if |a| > 0 {
      assert (a + b)[0] == a[0] && (a + b)[1..] == a[1..] + b;
      CountConcat(a[1..], b, c);
    } else {
      assert a + b == b;
    }
  }

  lemma {:induction false} CountAbsent(s: string, c: char)
    requires c !in s
    ensures Count(s, c) == 0
  {
    if |s| > 0 {
      CountAbsent(s[1..], c);
    }
  }

  /** A longer prefix never holds fewer occurrences. */
  lemma CountPrefixMonotone(s: string, i: nat, j: nat, c: char)
    requires i <= j <= |s|
    ensures Count(s[..i], c) <= Count(s[..j], c)
  {
    assert s[..j] == s[..i] + s[i..j];
    CountConcat(s[..i], s[i..j], c);
  }

  /**
   * `s.split(sep)` for a one-character separator: the pieces between the
   * separators, in order. Like JavaScript, the empty string gives `[""]`.
   */
  function Split(s: string, sep: char): (parts: seq<string>)
    ensures |parts| == Count(s, sep) + 1
    ensures forall i :: 0 <= i < |parts| ==> sep !in parts[i]
  {
    if |s| == 0 then [""]
    else
      var rest := Split(s[1..], sep);
      if s[0] == sep then [""] + rest
      else [[s[0]] + rest[0]] + rest[1..]
  }

  /** `parts.join(sep)`; the empty list joins to the empty string. */
  function Join(parts: seq<string>, sep: char): string
  {
    if |parts| == 0 then ""
    else if |parts| == 1 then parts[0]
    else parts[0] + [sep] + Join(parts[1..], sep)
  }

  /** Joining the pieces again gives back the string that was split. */
  lemma {:induction false} JoinSplit(s: string, sep: char)
    ensures Join(Split(s, sep), sep) == s
  {
    if |s| > 0 {
      var rest := Split(s[1..], sep);
      JoinSplit(s[1..], sep);
      if s[0] == sep {
        assert Split(s, sep) == [""] + rest;
        assert ([""] + rest)[1..] == rest;
        assert s == [sep] + s[1..];
      } else {
        var parts := Split(s, sep);
        assert parts == [[s[0]] + rest[0]] + rest[1..];
        if |rest| == 1 {
          assert s == [s[0]] + rest[0];
        } else {
          assert parts[1..] == rest[1..];
          assert Join(rest, sep) == rest[0] + [sep] + Join(rest[1..], sep);
          assert s == [s[0]] + s[1..];
        }
      }
    }
  }

  /** A string without the separator splits into itself alone. */
  lemma SplitWithoutSeparator(s: string, sep: char)
    requires sep !in s
    ensures Split(s, sep) == [s]
  {
    CountAbsent(s, sep);
    JoinSplit(s, sep);
  }

  /** Splitting distributes over a separator placed between two strings. */
  lemma {:induction false} SplitConcat(a: string, b: string, sep: char)
    ensures Split(a + [sep] + b, sep) == Split(a, sep) + Split(b, sep)
  {
    if |a| == 0 {
      assert a + [sep] + b == [sep] + b;
      assert ([sep] + b)[1..] == b;
    } else {
      assert (a + [sep] + b)[1..] == a[1..] + [sep] + b;
      SplitConcat(a[1..], b, sep);
      if a[0] != sep {
        HeadAppend(Split(a[1..], sep), Split(b, sep));
      }
    }
  }

  /** The head and the tail of a concatenation whose first part is not empty. */
  lemma HeadAppend<T>(p: seq<T>, q: seq<T>)
    requires |p| > 0
    ensures (p + q)[0] == p[0] && (p + q)[1..] == p[1..] + q
  {
  }

  /** The piece `split(sep).pop()` returns: the text after the last separator. */
  function LastPiece(s: string, sep: char): (last: string)
    ensures sep !in last
  {
    var parts := Split(s, sep);
    parts[|parts| - 1]
  }

  /** Whatever precedes the last separator does not affect the last piece. */
  lemma LastPieceAfterSeparator(prefix: string, tail: string, sep: char)
    requires sep !in tail
    ensures LastPiece(prefix + [sep] + tail, sep) == tail
  {
    SplitConcat(prefix, tail, sep);
    SplitWithoutSeparator(tail, sep);
  }

  /** `s.replace(/x/g, y)` for one character `x`. */
  function ReplaceChar(s: string, x: char, y: char): (r: string)
    ensures |r| == |s|
  {
    seq(|s|, i requires 0 <= i < |s| => if s[i] == x then y else s[i])
  }

  /** ASCII upper-case letters become lower-case; every other character is kept. */
  function LowerChar(c: char): char
  {
    if 'A' <= c <= 'Z' then (c as int + 32) as char else c
  }

  /** `s.toLowerCase()` on the ASCII letters. */
  function ToLower(s: string): (r: string)
    ensures |r| == |s|
    ensures forall i :: 0 <= i < |s| ==> r[i] == LowerChar(s[i])
  {
    if |s| == 0 then "" else [LowerChar(s[0])] + ToLower(s[1..])
  }

  /** A string without ASCII capitals is its own lower-case form. */
  lemma ToLowerNoCapitals(s: string)
    requires forall i :: 0 <= i < |s| ==> !('A' <= s[i] <= 'Z')
    ensures ToLower(s) == s
  {
  }

  lemma ToLowerIdempotent(s: string)
    ensures ToLower(ToLower(s)) == ToLower(s)
  {
  }

  /** The pieces of the lower-cased string are the lower-cased pieces. */
  ghost predicate SplitsLower(s: string, sep: char)
  {
    |Split(ToLower(s), sep)| == |Split(s, sep)| &&
    forall i :: 0 <= i < |Split(s, sep)| ==> Split(ToLower(s), sep)[i] == ToLower(Split(s, sep)[i])
  }

  lemma SplitsLowerAtSeparator(s: string, sep: char)
    requires |s| > 0 && s[0] == sep && LowerChar(sep) == sep
    requires SplitsLower(s[1..], sep)
    ensures SplitsLower(s, sep)
  {
    var lower := ToLower(s);
    assert lower[0] == sep && lower[1..] == ToLower(s[1..]);
    assert Split(s, sep) == [""] + Split(s[1..], sep);
    assert Split(lower, sep) == [""] + Split(ToLower(s[1..]), sep);
  }

  lemma SplitsLowerAtOther(s: string, sep: char)
    requires |s| > 0 && s[0] != sep && LowerChar(s[0]) != sep
    requires SplitsLower(s[1..], sep)
    ensures SplitsLower(s, sep)
  {
    var lower := ToLower(s);
    assert lower[0] == LowerChar(s[0]) && lower[1..] == ToLower(s[1..]);
    var rest := Split(s[1..], sep);
    var lowerRest := Split(ToLower(s[1..]), sep);
    var first := [s[0]] + rest[0];
    assert Split(s, sep) == [first] + rest[1..];
    assert Split(lower, sep) == [[LowerChar(s[0])] + lowerRest[0]] + lowerRest[1..];
    assert ToLower(first) == [LowerChar(s[0])] + ToLower(rest[0]);
  }

  /** Lower-casing commutes with splitting on a character that is not a letter. */
  lemma {:induction false} SplitToLower(s: string, sep: char)
    requires LowerChar(sep) == sep
    requires forall c :: LowerChar(c) == sep ==> c == sep
    ensures |Split(ToLower(s), sep)| == |Split(s, sep)|
    ensures forall i :: 0 <= i < |Split(s, sep)| ==> Split(ToLower(s), sep)[i] == ToLower(Split(s, sep)[i])
  {
    if |s| == 0 {
      assert ToLower(s) == s;
    } else {
      SplitToLower(s[1..], sep);
      if s[0] == sep {
        SplitsLowerAtSeparator(s, sep);
      } else {
        SplitsLowerAtOther(s, sep);
      }
    }
  }

  /** The characters `String.prototype.trim` removes: ECMAScript WhiteSpace and LineTerminator. */
  predicate IsWhitespace(c: char)
  {
    ('\U{9}' <= c <= '\U{D}') || c == ' ' || c == '\U{A0}' || c == '\U{1680}'
    || ('\U{2000}' <= c <= '\U{200A}') || c == '\U{2028}' || c == '\U{2029}'
    || c == '\U{202F}' || c == '\U{205F}' || c == '\U{3000}' || c == '\U{FEFF}'
  }

  /** `s.trim() === ""`: every character is whitespace. */
  predicate IsBlank(s: string)
  {
    forall i :: 0 <= i < |s| ==> IsWhitespace(s[i])
  }

  /** `sub` occurs in `s` at position `i`. */
  predicate OccursAt(s: string, sub: string, i: int)
  {
    0 <= i <= |s| - |sub| && s[i..i + |sub|] == sub
  }

  /** `s.includes(sub)`. */
  predicate Contains(s: string, sub: string)
  {
    exists i | 0 <= i <= |s| :: OccursAt(s, sub, i)
  }

  /** `s.indexOf(sub)`: the first position where `sub` occurs, or -1. */
  function IndexOf(s: string, sub: string): (k: int)
    ensures k == -1 || OccursAt(s, sub, k)
    ensures forall j :: 0 <= j < k ==> !OccursAt(s, sub, j)
    ensures k == -1 <==> !Contains(s, sub)
  {
    IndexFrom(s, sub, 0)
  }

  /** `s.indexOf(sub, from)`. */
  function IndexFrom(s: string, sub: string, from: nat): (k: int)
    ensures k == -1 || (from <= k && OccursAt(s, sub, k))
    ensures forall j :: from <= j < k ==> !OccursAt(s, sub, j)
    ensures k == -1 ==> forall j :: from <= j ==> !OccursAt(s, sub, j)
    decreases |s| - from
  {
    if from + |sub| > |s| then -1
    else if s[from..from + |sub|] == sub then from
    else IndexFrom(s, sub, from + 1)
  }
}
