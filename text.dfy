/**
 * The two operations on Rust strings that the disassembler relies on:
 * `str::contains` with a string pattern, and `str::replace`, which replaces
 * every non-overlapping occurrence, scanning from the left. `NetParens` counts
 * open minus closed parentheses: a rewrite of a mnemonic that changes this
 * count has opened a parenthesis it does not close, or the reverse.
 */
module Text {
  /** `s.contains(pat)`: `pat` occurs somewhere in `s`. */
  predicate Contains(s: string, pat: string)
    decreases |s|
  {
    |pat| <= |s| && (s[..|pat|] == pat || Contains(s[1..], pat))
  }

  /** An occurrence found at a position is an occurrence of the whole string. */
  lemma {:induction false} ContainsAt(s: string, pat: string, i: nat)
    requires i + |pat| <= |s| && s[i..i + |pat|] == pat
    ensures Contains(s, pat)
    decreases i
  {
    if i > 0 {
      assert s[1..][i - 1..i - 1 + |pat|] == s[i..i + |pat|];
      ContainsAt(s[1..], pat, i - 1);
    }
  }

  /** A text without the first character of the pattern does not contain it. */
  lemma {:induction false} NotContainsFirst(s: string, pat: string)
    requires |pat| > 0 && pat[0] !in s
    ensures !Contains(s, pat)
    decreases |s|
  {
    if |pat| <= |s| {
      assert s[..|pat|][0] == s[0];
      NotContainsFirst(s[1..], pat);
    }
  }

  /**
   * `s.replace(pat, rep)`: scanning from the left, each occurrence of `pat`
   * is replaced by `rep` and the scan resumes after it.
   */
  function ReplaceAll(s: string, pat: string, rep: string): (r: string)
    requires |pat| > 0
    decreases |s|
  {
    if |s| < |pat| then s
    else if s[..|pat|] == pat then rep + ReplaceAll(s[|pat|..], pat, rep)
    else [s[0]] + ReplaceAll(s[1..], pat, rep)
  }

  /** A character that cannot start the pattern is copied and the scan moves on. */
  lemma ReplaceAllSkip(c: char, s: string, pat: string, rep: string)
    requires |pat| > 0 && c != pat[0]
    ensures ReplaceAll([c] + s, pat, rep) == [c] + ReplaceAll(s, pat, rep)
  {
    assert ([c] + s)[1..] == s;
    if |[c] + s| >= |pat| {
      assert ([c] + s)[..|pat|][0] == c;
    }
  }

  /** Text none of whose characters can start the pattern is copied unchanged. */
  lemma {:induction false} ReplaceAllAfter(p: string, s: string, pat: string, rep: string)
    requires |pat| > 0 && pat[0] !in p
    ensures ReplaceAll(p + s, pat, rep) == p + ReplaceAll(s, pat, rep)
    decreases |p|
  {
    if |p| > 0 {
      ReplaceAllAfter(p[1..], s, pat, rep);
      ReplaceAllSkip(p[0], p[1..] + s, pat, rep);
      assert p + s == [p[0]] + (p[1..] + s);
      assert p == [p[0]] + p[1..];
    } else {
      assert p + s == s;
    }
  }

  /** The pattern on its own is replaced once. */
  lemma ReplaceAllWhole(pat: string, rep: string)
    requires |pat| > 0
    ensures ReplaceAll(pat, pat, rep) == rep
  {
    assert pat[..|pat|] == pat;
    assert ReplaceAll(pat[|pat|..], pat, rep) == [];
    assert rep + [] == rep;
  }

  /** Replacing a pattern that does not occur changes nothing. */
  lemma {:induction false} ReplaceAbsent(s: string, pat: string, rep: string)
    requires |pat| > 0 && !Contains(s, pat)
    ensures ReplaceAll(s, pat, rep) == s
    decreases |s|
  {
    if |s| >= |pat| {
      ReplaceAbsent(s[1..], pat, rep);
      assert [s[0]] + s[1..] == s;
    }
  }

  /** Replacing a pattern by itself changes nothing. */
  lemma {:induction false} ReplaceSelf(s: string, pat: string)
    requires |pat| > 0
    ensures ReplaceAll(s, pat, pat) == s
    decreases |s|
  {
    if |s| >= |pat| {
      if s[..|pat|] == pat {
        ReplaceSelf(s[|pat|..], pat);
        assert pat + s[|pat|..] == s;
      } else {
        ReplaceSelf(s[1..], pat);
        assert [s[0]] + s[1..] == s;
      }
    }
  }

  /** Replacing the pattern at the head of the text puts the replacement there. */
  lemma ReplaceAllHead(s: string, pat: string, rep: string)
    requires |pat| > 0
    ensures ReplaceAll(pat + s, pat, rep) == rep + ReplaceAll(s, pat, rep)
  {
    assert (pat + s)[..|pat|] == pat;
    assert (pat + s)[|pat|..] == s;
  }

  /** No character `a` in `s` is directly followed by `b`. */
  predicate NoPair(s: string, a: char, b: char)
  {
    forall i :: 0 <= i < |s| - 1 ==> !(s[i] == a && s[i + 1] == b)
  }

  /** Two texts without `a` directly followed by `b` still have none when joined, unless the join makes one. */
  lemma NoPairConcat(s: string, t: string, a: char, b: char)
    requires NoPair(s, a, b) && NoPair(t, a, b)
    requires |s| > 0 && |t| > 0 ==> !(s[|s| - 1] == a && t[0] == b)
    ensures NoPair(s + t, a, b)
  {
    forall i | 0 <= i < |s + t| - 1 ensures !((s + t)[i] == a && (s + t)[i + 1] == b) {
      if i < |s| - 1 {
        assert (s + t)[i] == s[i] && (s + t)[i + 1] == s[i + 1];
      } else if i >= |s| {
        assert (s + t)[i] == t[i - |s|] && (s + t)[i + 1] == t[i - |s| + 1];
      }
    }
  }

  /** A word without `a` after a single `a`: the only `a` is followed by the word's first letter. */
  lemma NoPairLead(a: char, w: string, b: char)
    requires a !in w && |w| > 0 && w[0] != b
    ensures NoPair([a] + w, a, b)
  {
    forall i | 0 <= i < |[a] + w| - 1 ensures !(([a] + w)[i] == a && ([a] + w)[i + 1] == b) {
      if i > 0 {
        assert ([a] + w)[i] == w[i - 1];
      }
    }
  }

  /** A text with no two adjacent characters as in the pattern at `k`, `k + 1` does not contain the pattern. */
  lemma {:induction false} NoPairNotContains(s: string, pat: string, k: nat)
    requires k + 1 < |pat| && NoPair(s, pat[k], pat[k + 1])
    ensures !Contains(s, pat)
    decreases |s|
  {
    if |pat| <= |s| {
      assert s[..|pat|] != pat by {
        assert !(s[k] == pat[k] && s[k + 1] == pat[k + 1]);
        assert s[..|pat|][k] == s[k] && s[..|pat|][k + 1] == s[k + 1];
      }
      assert NoPair(s[1..], pat[k], pat[k + 1]) by {
        forall i | 0 <= i < |s[1..]| - 1 ensures !(s[1..][i] == pat[k] && s[1..][i + 1] == pat[k + 1]) {
          assert s[1..][i] == s[i + 1] && s[1..][i + 1] == s[i + 2];
        }
      }
      NoPairNotContains(s[1..], pat, k);
    }
  }

  /** Replacing a pattern two of whose adjacent characters never occur together changes nothing. */
  lemma ReplaceNoPair(s: string, pat: string, rep: string, k: nat)
    requires k + 1 < |pat| && NoPair(s, pat[k], pat[k + 1])
    ensures ReplaceAll(s, pat, rep) == s
  {
    NoPairNotContains(s, pat, k);
    ReplaceAbsent(s, pat, rep);
  }

  /** A first character that starts no occurrence of the pattern is copied and the scan moves on. */
  lemma ReplaceAllMiss(s: string, pat: string, rep: string)
    requires |pat| > 0 && |s| > 0 && !(|pat| <= |s| && s[..|pat|] == pat)
    ensures ReplaceAll(s, pat, rep) == [s[0]] + ReplaceAll(s[1..], pat, rep)
  {
  }

  /**
   * `s.replace(ab, rep)`, for a replacement that starts with `a`, does not
   * end with `a` and has no `a` directly followed by `c`, leaves no `a`
   * directly followed by `c`, provided there was none in `s` or `c` is `b`,
   * whose occurrences are the ones replaced. The result starts with the
   * character `s` starts with.
   */
  lemma {:induction false} ReplacePairNoPair(s: string, a: char, b: char, c: char, rep: string)
    requires |rep| > 0 && rep[0] == a && rep[|rep| - 1] != a && NoPair(rep, a, c)
    requires c == b || NoPair(s, a, c)
    ensures NoPair(ReplaceAll(s, [a, b], rep), a, c)
    ensures |s| > 0 ==> |ReplaceAll(s, [a, b], rep)| > 0 && ReplaceAll(s, [a, b], rep)[0] == s[0]
    decreases |s|
  {
    var r := ReplaceAll(s, [a, b], rep);
    if |s| >= 2 {
      if s[..2] == [a, b] {
        var t := s[2..];
        assert c != b ==> NoPair(t, a, c) by {
          if c != b {
            forall i | 0 <= i < |t| - 1 ensures !(t[i] == a && t[i + 1] == c) {
              assert t[i] == s[i + 2] && t[i + 1] == s[i + 3];
            }
          }
        }
        ReplacePairNoPair(t, a, b, c, rep);
        var rt := ReplaceAll(t, [a, b], rep);
        assert r == rep + rt;
        forall i | 0 <= i < |r| - 1 ensures !(r[i] == a && r[i + 1] == c) {
          if i < |rep| - 1 {
            assert r[i] == rep[i] && r[i + 1] == rep[i + 1];
          } else if i == |rep| - 1 {
            assert r[i] == rep[|rep| - 1];
          } else {
            assert r[i] == rt[i - |rep|] && r[i + 1] == rt[i - |rep| + 1];
          }
        }
      } else {
        var t := s[1..];
        assert c != b ==> NoPair(t, a, c) by {
          if c != b {
            forall i | 0 <= i < |t| - 1 ensures !(t[i] == a && t[i + 1] == c) {
              assert t[i] == s[i + 1] && t[i + 1] == s[i + 2];
            }
          }
        }
        ReplacePairNoPair(t, a, b, c, rep);
        var rt := ReplaceAll(t, [a, b], rep);
        assert r == [s[0]] + rt;
        forall i | 0 <= i < |r| - 1 ensures !(r[i] == a && r[i + 1] == c) {
          if i == 0 {
            assert r[1] == rt[0] == s[1];
            if c != b {
              assert !(s[0] == a && s[1] == c);
            }
          } else {
            assert r[i] == rt[i - 1] && r[i + 1] == rt[i];
          }
        }
      }
    }
  }

  /** Open parentheses minus closed ones. */
  function NetParens(s: string): int
  {
    multiset(s)['('] as int - multiset(s)[')'] as int
  }

  lemma NetParensConcat(a: string, b: string)
    ensures NetParens(a + b) == NetParens(a) + NetParens(b)
  {
    assert multiset(a + b) == multiset(a) + multiset(b);
  }

  /** Text without parentheses has net count 0; a single parenthesis has 1 or -1. */
  lemma NetParensAtoms(s: string)
    requires '(' !in s && ')' !in s
    ensures NetParens(s) == 0 && NetParens("(") == 1 && NetParens(")") == -1
  {
    assert multiset("(") == multiset{'('};
    assert multiset(")") == multiset{')'};
  }

  /**
   * Replacing a pattern by text with the same net count of parentheses
   * leaves the net count of the whole string unchanged.
   */
  lemma {:induction false} ReplaceAllNetParens(s: string, pat: string, rep: string)
    requires |pat| > 0 && NetParens(rep) == NetParens(pat)
    ensures NetParens(ReplaceAll(s, pat, rep)) == NetParens(s)
    decreases |s|
  {
    if |s| >= |pat| {
      if s[..|pat|] == pat {
        ReplaceAllNetParens(s[|pat|..], pat, rep);
        assert s == pat + s[|pat|..];
      } else {
        ReplaceAllNetParens(s[1..], pat, rep);
        assert s == [s[0]] + s[1..];
      }
    }
  }
}
