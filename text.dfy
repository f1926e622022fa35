/**
 * The string operations the site relies on: JavaScript's whitespace class
 * (shared by `String.prototype.trim` and the regular-expression class `\s`),
 * `trim`, `split` with a string separator, `includes` and `toLowerCase`.
 */
module Text {

  /**
   * A character of JavaScript's whitespace class: the ASCII blanks, no-break
   * space, the byte-order mark, the line and paragraph separators, and the
   * Unicode space separators of category Zs.
   */
  predicate IsSpace(c: char) {
    c == ' ' || c == '\t' || c == '\n' || c == '\r' || c == '\U{B}' || c == '\U{C}'
    || c == '\U{A0}' || c == '\U{FEFF}' || c == '\U{1680}'
    || ('\U{2000}' <= c <= '\U{200A}')
    || c == '\U{2028}' || c == '\U{2029}' || c == '\U{202F}' || c == '\U{205F}' || c == '\U{3000}'
  }

  /** Every character of `s` is whitespace (the empty string included). */
  predicate AllSpace(s: string) {
    forall i :: 0 <= i < |s| ==> IsSpace(s[i])
  }

  /** Drops the leading whitespace of `s`. */
  function TrimStart(s: string): (r: string)
    ensures |r| <= |s| && r == s[|s| - |r|..]
    ensures AllSpace(s[..|s| - |r|])
    ensures r == [] || !IsSpace(r[0])
    decreases |s|
  {
    if s != [] && IsSpace(s[0]) then TrimStart(s[1..]) else s
  }

  /** Drops the trailing whitespace of `s`. */
  function TrimEnd(s: string): (r: string)
    ensures |r| <= |s| && r == s[..|r|]
    ensures AllSpace(s[|r|..])
    ensures r == [] || !IsSpace(r[|r| - 1])
    decreases |s|
  {
    if s != [] && IsSpace(s[|s| - 1]) then
      var r := TrimEnd(s[..|s| - 1]);
      assert s[|r|..] == s[..|s| - 1][|r|..] + [s[|s| - 1]];
      r
    else s
  }

  /** JavaScript's `String.prototype.trim`. */
  function Trim(s: string): (r: string)
    ensures |r| <= |s|
    ensures r == [] || (!IsSpace(r[0]) && !IsSpace(r[|r| - 1]))
    ensures r == [] <==> AllSpace(s)
  {
    var t := TrimStart(s);
    var r := TrimEnd(t);
    assert r == [] ==> AllSpace(t) by {
      if r == [] {
        assert t[|r|..] == t;
      }
    }
    assert r == [] ==> AllSpace(s) by {
      if r == [] {
        assert s == s[..|s| - |t|] + t;
      }
    }
    r
  }

  /** The string is empty or whitespace only. */
  predicate Blank(s: string) {
    AllSpace(s)
  }

  /** `!s.trim()`: trimming leaves nothing exactly when the string is blank. */
  lemma TrimEmptyIffBlank(s: string)
    ensures Trim(s) == "" <==> Blank(s)
  {
  }

  /** Whether `s` begins with `p`. */
  predicate StartsWith(s: string, p: string) {
    |p| <= |s| && s[..|p|] == p
  }

  /** JavaScript's `String.prototype.includes`: `sub` occurs somewhere in `s`. */
  predicate Contains(s: string, sub: string)
    decreases |s|
  {
    StartsWith(s, sub) || (s != [] && Contains(s[1..], sub))
  }

  /** An occurrence at a position makes `Contains` true. */
  lemma {:induction false} ContainsAt(s: string, sub: string, i: nat)
    requires i <= |s| && StartsWith(s[i..], sub)
    ensures Contains(s, sub)
    decreases i
  {
    if i > 0 {
      assert s[1..][i - 1..] == s[i..];
      ContainsAt(s[1..], sub, i - 1);
    }
  }

  /** An occurrence in a slice of `s` is an occurrence in `s`. */
  lemma {:induction false} ContainsSlice(s: string, sub: string, a: nat, b: nat)
    requires a <= b <= |s| && Contains(s[a..b], sub)
    ensures Contains(s, sub)
    decreases b - a
  {
    var t := s[a..b];
    if StartsWith(t, sub) {
      assert s[a..][..|sub|] == t[..|sub|];
      ContainsAt(s, sub, a);
    } else {
      assert t[1..] == s[a + 1..b];
      ContainsSlice(s, sub, a + 1, b);
    }
  }

  /** Trimming cannot create an occurrence that was not there. */
  lemma TrimKeepsAbsence(s: string, sub: string)
    requires !Contains(s, sub)
    ensures !Contains(Trim(s), sub)
  {
    var t := TrimStart(s);
    var r := TrimEnd(t);
    assert Trim(s) == r;
    if Contains(r, sub) {
      var a := |s| - |t|;
      assert t == s[a..] && r == t[..|r|];
      assert r == s[a..a + |r|];
      ContainsSlice(s, sub, a, a + |r|);
    }
  }

  /**
   * JavaScript's `String.prototype.split` with a non-empty string separator:
   * the text between the leftmost non-overlapping occurrences of `sep`.
   */
  function Split(s: string, sep: string): (r: seq<string>)
    requires |sep| > 0
    ensures |r| >= 1
    decreases |s|
  {
    if |s| < |sep| then [s]
    else if s[..|sep|] == sep then [""] + Split(s[|sep|..], sep)
    else var rest := Split(s[1..], sep); [[s[0]] + rest[0]] + rest[1..]
  }

  /** JavaScript's `Array.prototype.join`: the chunks with `sep` between them. */
  function Join(chunks: seq<string>, sep: string): (r: string)
    requires |chunks| >= 1
    decreases |chunks|
  {
    if |chunks| == 1 then chunks[0] else chunks[0] + sep + Join(chunks[1..], sep)
  }

  /** Putting a character in front of the first chunk puts it in front of the join. */
  lemma JoinPrepend(c: char, chunks: seq<string>, sep: string)
    requires |chunks| >= 1
    ensures Join([[c] + chunks[0]] + chunks[1..], sep) == [c] + Join(chunks, sep)
  {
    var r := [[c] + chunks[0]] + chunks[1..];
    if |chunks| > 1 {
      assert r[1..] == chunks[1..];
      var tail := Join(chunks[1..], sep);
      assert Join(r, sep) == ([c] + chunks[0]) + sep + tail;
    }
  }

  /** Joining the chunks of a split gives back the original string. */
  lemma {:induction false} SplitJoin(s: string, sep: string)
    requires |sep| > 0
    ensures Join(Split(s, sep), sep) == s
    decreases |s|
  {
    if |s| < |sep| {
    } else if s[..|sep|] == sep {
      SplitJoin(s[|sep|..], sep);
      assert s == "" + sep + s[|sep|..];
    } else {
      var rest := Split(s[1..], sep);
      assert Split(s, sep) == [[s[0]] + rest[0]] + rest[1..];
      SplitJoin(s[1..], sep);
      JoinPrepend(s[0], rest, sep);
      assert s == [s[0]] + s[1..];
    }
  }

  /** The first chunk of a split is a prefix of the input. */
  lemma {:induction false} SplitFirstIsPrefix(s: string, sep: string)
    requires |sep| > 0
    ensures StartsWith(s, Split(s, sep)[0])
    decreases |s|
  {
    if |s| >= |sep| && s[..|sep|] != sep {
      SplitFirstIsPrefix(s[1..], sep);
    }
  }

  /** No chunk of a split contains the separator. */
  lemma {:induction false} SplitChunksFree(s: string, sep: string)
    requires |sep| > 0
    ensures forall i :: 0 <= i < |Split(s, sep)| ==> !Contains(Split(s, sep)[i], sep)
    decreases |s|
  {
    var r := Split(s, sep);
    if |s| < |sep| {
      ShortFree(s, sep);
    } else if s[..|sep|] == sep {
      SplitChunksFree(s[|sep|..], sep);
      ShortFree("", sep);
      assert forall i :: 1 <= i < |r| ==> r[i] == Split(s[|sep|..], sep)[i - 1];
    } else {
      var rest := Split(s[1..], sep);
      SplitChunksFree(s[1..], sep);
      SplitFirstIsPrefix(s[1..], sep);
      var first := [s[0]] + rest[0];
      assert first[1..] == rest[0];
      assert !StartsWith(first, sep);
      assert forall i :: 1 <= i < |r| ==> r[i] == rest[i];
    }
  }

  /** A string shorter than `sub` does not contain it. */
  lemma {:induction false} ShortFree(s: string, sub: string)
    requires |s| < |sub|
    ensures !Contains(s, sub)
    decreases |s|
  {
    if s != [] {
      ShortFree(s[1..], sub);
    }
  }

  /**
   * `toLowerCase` on the letters that occur in the site's German and English
   * text: A to Z and the umlauts Ä, Ö, Ü. Every other character is unchanged.
   */
  function LowerChar(c: char): (r: char)
    ensures r == c || ('A' <= c <= 'Z' || c == 'Ä' || c == 'Ö' || c == 'Ü')
    ensures !IsSpace(c) ==> !IsSpace(r)
    ensures IsSpace(c) ==> r == c
  {
    if 'A' <= c <= 'Z' then (c as int + 32) as char
    else if c == 'Ä' then 'ä'
    else if c == 'Ö' then 'ö'
    else if c == 'Ü' then 'ü'
    else c
  }

  /** `String.prototype.toLowerCase`, character by character. */
  function Lower(s: string): (r: string)
    ensures |r| == |s|
    ensures forall i :: 0 <= i < |s| ==> r[i] == LowerChar(s[i])
    decreases |s|
  {
    if s == [] then [] else [LowerChar(s[0])] + Lower(s[1..])
  }

  /** A text without whitespace does not contain a whitespace-only term, in any case. */
  lemma {:induction false} SpaceFreeLacksSpaces(s: string, term: string)
    requires forall i :: 0 <= i < |s| ==> !IsSpace(s[i])
    requires term != [] && AllSpace(term)
    ensures !Contains(Lower(s), Lower(term))
    decreases |s|
  {
    var l, t := Lower(s), Lower(term);
    assert t[0] == LowerChar(term[0]) && IsSpace(t[0]);
    if l != [] {
      assert !IsSpace(l[0]);
    }
    if l != [] {
      assert l[1..] == Lower(s[1..]);
      SpaceFreeLacksSpaces(s[1..], term);
    }
  }
}
