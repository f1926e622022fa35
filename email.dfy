/**
 * The e-mail test `/\S+@\S+\.\S+/.test(s)` that every form of the site uses.
 * The expression is not anchored, so it accepts any string that CONTAINS
 * such a match.
 */
module Email {
  import opened Text

  /**
   * The `@` at `a` and the `.` at `d` delimit a match: a non-whitespace
   * character directly before the `@`, a non-empty run of non-whitespace
   * characters between the `@` and the `.`, and a non-whitespace character
   * directly after the `.`.
   */
  predicate MatchAt(s: string, a: int, d: int) {
    0 < a && a + 1 < d && d + 1 < |s| && s[a] == '@' && s[d] == '.'
    && !IsSpace(s[a - 1]) && !IsSpace(s[d + 1])
    && forall k :: a < k < d ==> !IsSpace(s[k])
  }

  /** The meaning of the test: somewhere in `s` there is a match. */
  ghost predicate EmailLike(s: string) {
    exists a, d :: MatchAt(s, a, d)
  }

  /**
   * Scans the non-whitespace run that follows the `@` at `a`, from `i` on,
   * for a `.` that completes a match.
   */
  function DotInRun(s: string, a: nat, i: nat): bool
    requires a < i
    decreases |s| - i
  {
    if i >= |s| || IsSpace(s[i]) then false
    else if a + 2 <= i && s[i] == '.' && i + 1 < |s| && !IsSpace(s[i + 1]) then true
    else DotInRun(s, a, i + 1)
  }

  /** Tries every `@` from position `a` on. */
  function AtFrom(s: string, a: nat): bool
    decreases |s| - a
  {
    if a >= |s| then false
    else (0 < a && s[a] == '@' && !IsSpace(s[a - 1]) && DotInRun(s, a, a + 1)) || AtFrom(s, a + 1)
  }

  lemma {:induction false} DotInRunIff(s: string, a: nat, i: nat)
    requires 0 < a < i <= |s| && s[a] == '@' && !IsSpace(s[a - 1])
    requires forall k :: a < k < i ==> !IsSpace(s[k])
    ensures DotInRun(s, a, i) <==> exists d :: i <= d && MatchAt(s, a, d)
    decreases |s| - i
  {
    if i >= |s| {
    } else if IsSpace(s[i]) {
    } else if a + 2 <= i && s[i] == '.' && i + 1 < |s| && !IsSpace(s[i + 1]) {
      assert MatchAt(s, a, i);
    } else {
      DotInRunIff(s, a, i + 1);
      if exists d :: i <= d && MatchAt(s, a, d) {
        var d :| i <= d && MatchAt(s, a, d);
        assert d != i;
      }
    }
  }

  lemma {:induction false} AtFromIff(s: string, a: nat)
    ensures AtFrom(s, a) <==> exists b, d :: a <= b && MatchAt(s, b, d)
    decreases |s| - a
  {
    if a < |s| {
      AtFromIff(s, a + 1);
      if 0 < a && s[a] == '@' && !IsSpace(s[a - 1]) {
        DotInRunIff(s, a, a + 1);
      }
      if exists b, d :: a <= b && MatchAt(s, b, d) {
        var b, d :| a <= b && MatchAt(s, b, d);
        if b == a {
          assert a + 1 <= d && MatchAt(s, a, d);
        }
      }
    }
  }

  /** The test as the forms run it; it accepts exactly the strings that are `EmailLike`. */
  function TestEmail(s: string): (r: bool)
    ensures r <==> EmailLike(s)
  {
    AtFromIff(s, 0);
    AtFrom(s, 0)
  }

  /** An accepted address is never blank: it holds an `@`. */
  lemma EmailLikeNotBlank(s: string)
    requires EmailLike(s)
    ensures !Blank(s)
  {
    var a, d :| MatchAt(s, a, d);
    assert !IsSpace(s[a]);
  }

  /** Text around a match does not matter: the test is not anchored. */
  lemma {:induction false} UnanchoredMatch(pre: string, s: string, post: string)
    requires EmailLike(s)
    ensures EmailLike(pre + s + post)
  {
    var a, d :| MatchAt(s, a, d);
    var t := pre + s + post;
    assert forall k :: 0 <= k < |s| ==> t[|pre| + k] == s[k];
    assert MatchAt(t, |pre| + a, |pre| + d);
  }

  /** A `@` with nothing before it, or a `.` at the very end, is not enough. */
  lemma NeedsCharacterAroundTheMarks()
    ensures !EmailLike("@b.c")
    ensures !EmailLike("a@b.")
    ensures !EmailLike("a@.c")
    ensures EmailLike("a@b.c")
  {
    assert MatchAt("a@b.c", 1, 3);
  }
}
