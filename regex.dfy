/**
 * Regular expressions as an abstract engine. The model never interprets a
 * pattern: a regex is its source text and flags, and the engine answers
 * `exec` — the first match at or after a position. What is proved about the
 * scanners holds for every engine that answers soundly.
 */
module RegexEngine {
  import opened Base
  import opened Text
  import opened Seqs

  /** A compiled pattern: `new RegExp(source, flags)` or a `/source/flags` literal. */
  datatype Regex = Regex(source: string, flags: string)

  /** One match: where it starts in the subject and the matched text `match[0]`. */
  datatype Hit = Hit(start: nat, text: string) {
    function End(): nat { start + |text| }
  }

  /** `re.exec(subject)` with `re.lastIndex == from`. */
  type Engine = (Regex, string, nat) -> Option<Hit>

  /** A sound answer lies inside the subject, at or after `from`, is non-empty and is the subject's text there. */
  predicate SoundHit(h: Option<Hit>, s: string, from: nat)
  {
    h.Some? ==>
      && from <= h.value.start
      && 0 < |h.value.text|
      && h.value.End() <= |s|
      && s[h.value.start..h.value.End()] == h.value.text
  }

  ghost predicate Sound(engine: Engine)
  {
    forall re, s, from :: SoundHit(engine(re, s, from), s, from)
  }

  /**
   * The matches a global regex yields when `exec` is called again and again:
   * each search resumes where the previous match ended.
   */
  function AllMatches(engine: Engine, re: Regex, s: string, from: nat): (hits: seq<Hit>)
    requires Sound(engine)
    decreases |s| - from
  {
    var h := engine(re, s, from);
    assert SoundHit(h, s, from);
    match h
    case None => []
    case Some(hit) => [hit] + AllMatches(engine, re, s, hit.End())
  }

  /** The matches do not overlap, appear left to right, and each is the subject's text at its start. */
  ghost predicate Ordered(hits: seq<Hit>, s: string, from: nat)
  {
    && (forall i :: 0 <= i < |hits| ==>
          from <= hits[i].start && 0 < |hits[i].text| && hits[i].End() <= |s|
          && s[hits[i].start..hits[i].End()] == hits[i].text)
    && (forall i, j :: 0 <= i < j < |hits| ==> hits[i].End() <= hits[j].start)
  }

  lemma {:induction false} AllMatchesOrdered(engine: Engine, re: Regex, s: string, from: nat)
    requires Sound(engine)
    ensures Ordered(AllMatches(engine, re, s, from), s, from)
    decreases |s| - from
  {
    var h := engine(re, s, from);
    assert SoundHit(h, s, from);
    if h.Some? {
      var hit := h.value;
      AllMatchesOrdered(engine, re, s, hit.End());
      var rest := AllMatches(engine, re, s, hit.End());
      assert AllMatches(engine, re, s, from) == [hit] + rest;
      forall i, j | 0 <= i < j < |[hit] + rest|
        ensures ([hit] + rest)[i].End() <= ([hit] + rest)[j].start
      {
        if i == 0 {
          assert ([hit] + rest)[j] == rest[j - 1];
        }
      }
    }
  }

  /** The texts of the matches, `match[0]` of each. */
  function Texts(hits: seq<Hit>): (texts: seq<string>)
    ensures |texts| == |hits|
    ensures forall i :: 0 <= i < |hits| ==> texts[i] == hits[i].text
  {
    if |hits| == 0 then [] else [hits[0].text] + Texts(hits[1..])
  }

  /** `s.match(re)` for a global regex: the matched texts (an absent result is the empty list). */
  function MatchAll(engine: Engine, re: Regex, s: string): seq<string>
    requires Sound(engine)
  {
    Texts(AllMatches(engine, re, s, 0))
  }

  /** `s.replace(re, "")` for a global regex, from position `from` on: every match is deleted. */
  function DeleteMatches(engine: Engine, re: Regex, s: string, from: nat): string
    requires Sound(engine)
    requires from <= |s|
    decreases |s| - from
  {
    var h := engine(re, s, from);
    assert SoundHit(h, s, from);
    match h
    case None => s[from..]
    case Some(hit) => s[from..hit.start] + DeleteMatches(engine, re, s, hit.End())
  }

  /** Deleting matches only removes text: what is left keeps its order. */
  lemma {:induction false} DeleteMatchesOnlyDeletes(engine: Engine, re: Regex, s: string, from: nat)
    requires Sound(engine)
    requires from <= |s|
    ensures Sub(DeleteMatches(engine, re, s, from), s[from..])
    decreases |s| - from
  {
    var h := engine(re, s, from);
    assert SoundHit(h, s, from);
    match h
    case None =>
      SubReflexive(s[from..]);
    case Some(hit) =>
      var rest := DeleteMatches(engine, re, s, hit.End());
      DeleteMatchesOnlyDeletes(engine, re, s, hit.End());
      SubReflexive(s[from..hit.start]);
      SubConcat(s[from..hit.start], s[from..hit.start], rest, s[hit.End()..]);
      DeleteSlice(s, from, hit.start, hit.End());
      SubTransitive(s[from..hit.start] + rest, s[from..hit.start] + s[hit.End()..], s[from..]);
  }

  /** A subject the engine finds nothing in is left as it is. */
  lemma DeleteNothing(engine: Engine, re: Regex, s: string)
    requires Sound(engine)
    requires engine(re, s, 0).None?
    ensures DeleteMatches(engine, re, s, 0) == s
  {
  }
}
