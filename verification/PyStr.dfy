/** The Python string operations that the sources rely on. */
module PyStr {
  import opened Wrappers

  ghost predicate Contains(s: string, sub: string) {
    exists i | 0 <= i <= |s| - |sub| :: OccursAt(s, sub, i)
  }

  ghost predicate OccursAt(s: string, sub: string, i: int) {
    0 <= i <= |s| - |sub| && s[i..i + |sub|] == sub
  }

  /** `s.replace(pat, new)` for a non-empty `pat`: left to right, matches do not overlap. */
  function Replace(s: string, pat: string, repl: string): string
    requires pat != ""
    decreases |s|
  {
    if |s| < |pat| then s
    else if s[..|pat|] == pat then repl + Replace(s[|pat|..], pat, repl)
    else [s[0]] + Replace(s[1..], pat, repl)
  }

  /** Put `sub` somewhere across `mark` so that they overlap: every shared position agrees. */
  ghost predicate Touches(sub: string, mark: string) {
    exists d: int :: AgreesAt(sub, mark, d)
  }

  ghost predicate AgreesAt(sub: string, mark: string, d: int) {
    && -|sub| < d < |mark|
    && forall k | 0 <= k < |sub| && 0 <= d + k < |mark| :: sub[k] == mark[d + k]
  }

  lemma OverlapTouches(r: string, sub: string, i: int, mark: string, q: int)
    requires OccursAt(r, sub, i) && OccursAt(r, mark, q)
    requires i < q + |mark| && q < i + |sub|
    ensures Touches(sub, mark)
  {
    forall k | 0 <= k < |sub| && 0 <= (i - q) + k < |mark| ensures sub[k] == mark[(i - q) + k] {
      assert sub[k] == r[i..i + |sub|][k] == r[i + k];
      assert mark[i - q + k] == r[q..q + |mark|][i - q + k];
    }
    assert AgreesAt(sub, mark, i - q);
  }

  lemma SharedCharacter(sub: string, mark: string)
    requires sub != "" && mark != "" && Touches(sub, mark)
    ensures exists c :: c in sub && c in mark
  {
    var d :| AgreesAt(sub, mark, d);
    var k := if d < 0 then -d else 0;
    assert sub[k] == mark[d + k];
    assert sub[k] in sub && sub[k] in mark;
  }

  // ---- replace ----

  lemma OccursInRest(first: string, rest: string, sub: string, i: int)
    requires OccursAt(first + rest, sub, i) && |first| <= i
    ensures OccursAt(rest, sub, i - |first|)
  {
  }

  /** A prefix of the result is a prefix of the input, unless a replacement starts inside it. */
  lemma {:induction false} PrefixOfResult(s: string, pat: string, repl: string, m: nat)
    requires pat != "" && repl != "" && m <= |Replace(s, pat, repl)|
    ensures var r := Replace(s, pat, repl);
            (m <= |s| && r[..m] == s[..m]) || exists q | 0 <= q < m :: OccursAt(r, repl, q)
    decreases |s|
  {
    var r := Replace(s, pat, repl);
    if |s| < |pat| || m == 0 {
    } else if s[..|pat|] == pat {
      assert OccursAt(r, repl, 0);
    } else {
      var rest := Replace(s[1..], pat, repl);
      PrefixOfResult(s[1..], pat, repl, m - 1);
      if exists q | 0 <= q < m - 1 :: OccursAt(rest, repl, q) {
        var q :| 0 <= q < m - 1 && OccursAt(rest, repl, q);
        assert r[q + 1..q + 1 + |repl|] == rest[q..q + |repl|];
        assert OccursAt(r, repl, q + 1);
      } else {
        assert r[..m] == [s[0]] + rest[..m - 1];
        assert s[..m] == [s[0]] + s[1..][..m - 1];
      }
    }
  }

  lemma ContainsShift(s: string, n: nat, sub: string)
    requires n <= |s| && Contains(s[n..], sub)
    ensures Contains(s, sub)
  {
    var i :| 0 <= i <= |s[n..]| - |sub| && OccursAt(s[n..], sub, i);
    assert s[n..][i..i + |sub|] == s[n + i..n + i + |sub|];
    assert OccursAt(s, sub, n + i);
  }

  lemma PrefixOrTouch(s: string, pat: string, repl: string, sub: string)
    requires pat != "" && repl != "" && OccursAt(Replace(s, pat, repl), sub, 0)
    ensures Touches(sub, repl) || OccursAt(s, sub, 0)
  {
    var r := Replace(s, pat, repl);
    PrefixOfResult(s, pat, repl, |sub|);
    if q :| 0 <= q < |sub| && OccursAt(r, repl, q) {
      OverlapTouches(r, sub, 0, repl, q);
    } else {
      assert s[0..0 + |sub|] == s[..|sub|] == r[..|sub|] == r[0..0 + |sub|];
    }
  }

  /**
   What occurs in the result overlaps a replacement or occurred in the input before;
   the replaced string itself can only be there by overlap.
   */
  lemma {:induction false} ReplaceCreatesNothing(s: string, pat: string, repl: string, sub: string, i: int)
    requires pat != "" && repl != "" && sub != "" && OccursAt(Replace(s, pat, repl), sub, i)
    ensures Touches(sub, repl) || (sub != pat && Contains(s, sub))
    decreases |s|
  {
    var r := Replace(s, pat, repl);
    if |s| < |pat| {
    } else if s[..|pat|] == pat {
      var rest := Replace(s[|pat|..], pat, repl);
      if i < |repl| {
        assert OccursAt(r, repl, 0);
        OverlapTouches(r, sub, i, repl, 0);
      } else {
        OccursInRest(repl, rest, sub, i);
        ReplaceCreatesNothing(s[|pat|..], pat, repl, sub, i - |repl|);
        if Contains(s[|pat|..], sub) { ContainsShift(s, |pat|, sub); }
      }
    } else if i > 0 {
      OccursInRest([s[0]], Replace(s[1..], pat, repl), sub, i);
      ReplaceCreatesNothing(s[1..], pat, repl, sub, i - 1);
      if Contains(s[1..], sub) { ContainsShift(s, 1, sub); }
    } else {
      PrefixOrTouch(s, pat, repl, sub);
    }
  }

  /** `pat` is a prefix of none of the first `n` tails of `s`. */
  ghost predicate NoMatchBefore(s: string, pat: string, n: nat)
    requires n <= |s|
    decreases n
  {
    n == 0 || (!(pat <= s) && NoMatchBefore(s[1..], pat, n - 1))
  }

  /** The first occurrence is the first one replaced. */
  lemma {:induction false} ReplaceFirst(s: string, pat: string, repl: string, n: nat)
    requires pat != "" && n <= |s| && pat <= s[n..] && NoMatchBefore(s, pat, n)
    ensures var r := Replace(s, pat, repl);
            |r| >= n && r[..n] == s[..n] && r[n..] == repl + Replace(s[n..][|pat|..], pat, repl)
    decreases n
  {
    if n == 0 {
      assert s[0..] == s;
    } else {
      var tail := s[1..];
      assert tail[n - 1..] == s[n..];
      ReplaceFirst(tail, pat, repl, n - 1);
      var r, rest := Replace(s, pat, repl), Replace(tail, pat, repl);
      assert r == [s[0]] + rest;
      assert r[n..] == rest[n - 1..];
      forall k | 0 <= k < n ensures r[..n][k] == s[..n][k] {
        assert k > 0 ==> rest[k - 1] == rest[..n - 1][k - 1] == tail[..n - 1][k - 1];
      }
    }
  }

  lemma {:induction false} ReplaceAbsent(s: string, pat: string, repl: string)
    requires pat != "" && !Contains(s, pat)
    ensures Replace(s, pat, repl) == s
    decreases |s|
  {
    if |s| >= |pat| {
      assert s[0..0 + |pat|] == s[..|pat|];
      assert !OccursAt(s, pat, 0);
      if Contains(s[1..], pat) { ContainsShift(s, 1, pat); }
      ReplaceAbsent(s[1..], pat, repl);
    }
  }

  lemma {:induction false} ReplaceShrinks(s: string, pat: string, repl: string)
    requires |repl| < |pat|
    ensures |Replace(s, pat, repl)| <= |s|
    ensures Contains(s, pat) ==> |Replace(s, pat, repl)| < |s|
    decreases |s|
  {
    if |s| >= |pat| {
      if s[..|pat|] == pat {
        ReplaceShrinks(s[|pat|..], pat, repl);
      } else {
        ReplaceShrinks(s[1..], pat, repl);
        if Contains(s, pat) {
          var i :| 0 <= i <= |s| - |pat| && OccursAt(s, pat, i);
          assert i > 0 by { assert s[0..0 + |pat|] == s[..|pat|]; }
          assert s[1..][i - 1..i - 1 + |pat|] == s[i..i + |pat|];
          assert OccursAt(s[1..], pat, i - 1);
        }
      }
    }
  }

  /** Characters outside `pat` survive. */
  lemma {:induction false} ReplaceKeepsCharacter(s: string, pat: string, repl: string, c: char)
    requires pat != "" && c in s && c !in pat
    ensures c in Replace(s, pat, repl)
    decreases |s|
  {
    if |s| >= |pat| {
      if s[..|pat|] == pat {
        assert s == pat + s[|pat|..];
        ReplaceKeepsCharacter(s[|pat|..], pat, repl, c);
      } else if c != s[0] {
        assert s == [s[0]] + s[1..];
        ReplaceKeepsCharacter(s[1..], pat, repl, c);
      }
    }
  }

  // ---- the last occurrence of a character ----

  /** `s.rfind(c)`. */
  function LastIndex(s: string, c: char): (r: Option<nat>)
    ensures r.Some? ==> r.value < |s| && s[r.value] == c && forall k | r.value < k < |s| :: s[k] != c
    ensures r.None? ==> forall k | 0 <= k < |s| :: s[k] != c
  {
    if s == "" then None
    else if s[|s| - 1] == c then Some(|s| - 1)
    else LastIndex(s[..|s| - 1], c)
  }
}
