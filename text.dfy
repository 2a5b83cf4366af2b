/** The JavaScript string operations the core relies on: the `\s` character
    class (which is also the set `String.prototype.trim` removes), `trim`,
    `includes` and `replace(/\s+/g, '_')`. Strings are sequences of UTF-16
    code units in JavaScript and of characters here. */
module Text {

  /** JavaScript's WhiteSpace and LineTerminator code points, the `\s` class:
      space, U+0009 to U+000D (tab, line feed, vertical tab, form feed,
      carriage return), U+00A0, U+1680, U+2000 to U+200A, U+2028, U+2029,
      U+202F, U+205F, U+3000 and U+FEFF. */
  predicate IsWs(c: char) {
    if c <= ' ' then
      c == ' ' || ('\t' <= c <= '\r')
    else if c < '\U{2000}' then
      c == '\U{00A0}' || c == '\U{1680}'
    else
      c <= '\U{200A}' || c == '\U{2028}' || c == '\U{2029}' || c == '\U{202F}'
      || c == '\U{205F}' || c == '\U{3000}' || c == '\U{FEFF}'
  }

  predicate NoWs(s: string) {
    forall i :: 0 <= i < |s| ==> !IsWs(s[i])
  }

  predicate AllWs(s: string) {
    forall i :: 0 <= i < |s| ==> IsWs(s[i])
  }

  /** The end of the maximal whitespace run that starts at `i`. */
  function SkipWs(s: string, i: nat): (j: nat)
    requires i <= |s|
    ensures i <= j <= |s|
    ensures j == |s| || !IsWs(s[j])
    decreases |s| - i
  {
    if i < |s| && IsWs(s[i]) then SkipWs(s, i + 1) else i
  }

  /** The start of the maximal whitespace run that ends at `j`. */
  function SkipWsBack(s: string, j: nat): (i: nat)
    requires j <= |s|
    ensures i <= j
    ensures i == 0 || !IsWs(s[i - 1])
    decreases j
  {
    if j > 0 && IsWs(s[j - 1]) then SkipWsBack(s, j - 1) else j
  }

  /** Everything `SkipWs` skips is whitespace. */
  lemma {:induction false} SkipWsSpan(s: string, i: nat)
    requires i <= |s|
    ensures AllWs(s[i..SkipWs(s, i)])
    decreases |s| - i
  {
    if i < |s| && IsWs(s[i]) {
      SkipWsSpan(s, i + 1);
      assert s[i..SkipWs(s, i)] == [s[i]] + s[i + 1..SkipWs(s, i)];
    }
  }

  /** Everything `SkipWsBack` skips is whitespace. */
  lemma {:induction false} SkipWsBackSpan(s: string, j: nat)
    requires j <= |s|
    ensures AllWs(s[SkipWsBack(s, j)..j])
    decreases j
  {
    if j > 0 && IsWs(s[j - 1]) {
      SkipWsBackSpan(s, j - 1);
      assert s[SkipWsBack(s, j)..j] == s[SkipWsBack(s, j)..j - 1] + [s[j - 1]];
    }
  }

  /** `String.prototype.trim`: `s` between its leading and its trailing
      whitespace run. */
  function Trim(s: string): (r: string)
    ensures |r| <= |s|
    ensures r == [] || (!IsWs(r[0]) && !IsWs(r[|r| - 1]))
  {
    var a := SkipWs(s, 0);
    var b := SkipWsBack(s, |s|);
    if a < b then s[a..b] else []
  }

  /** A whitespace run from `i` ends at the first non-space character. */
  lemma {:induction false} SkipWsAt(s: string, i: nat, n: nat)
    requires i <= n < |s| && !IsWs(s[n])
    requires forall k :: i <= k < n ==> IsWs(s[k])
    ensures SkipWs(s, i) == n
    decreases n - i
  {
    if i < n {
      SkipWsAt(s, i + 1, n);
    }
  }

  /** A whitespace run back from `j` starts after the last non-space
      character. */
  lemma {:induction false} SkipWsBackAt(s: string, j: nat, n: nat)
    requires 0 < n <= j <= |s| && !IsWs(s[n - 1])
    requires forall k :: n <= k < j ==> IsWs(s[k])
    ensures SkipWsBack(s, j) == n
    decreases j
  {
    if n < j {
      SkipWsBackAt(s, j - 1, n);
    }
  }

  /** Trimming strips exactly the padding: a middle part that neither starts
      nor ends with whitespace, between two whitespace runs, is what `trim`
      returns, whatever the lengths of the runs. */
  lemma TrimPadded(w1: string, m: string, w2: string)
    requires AllWs(w1) && AllWs(w2)
    requires m == [] || (!IsWs(m[0]) && !IsWs(m[|m| - 1]))
    ensures Trim(w1 + m + w2) == m
  {
    var s := w1 + m + w2;
    if m != [] {
      assert s[|w1|] == m[0];
      assert forall k :: 0 <= k < |w1| ==> s[k] == w1[k];
      SkipWsAt(s, 0, |w1|);
      assert s[|w1| + |m| - 1] == m[|m| - 1];
      assert forall k :: |w1| + |m| <= k < |s| ==> s[k] == w2[k - |w1| - |m|];
      SkipWsBackAt(s, |s|, |w1| + |m|);
      assert s[|w1|..|w1| + |m|] == m;
    } else {
      assert AllWs(s) by {
        forall k | 0 <= k < |s| ensures IsWs(s[k]) {
          if k < |w1| {
            assert s[k] == w1[k];
          } else {
            assert s[k] == w2[k - |w1|];
          }
        }
      }
      assert SkipWs(s, 0) == |s|;
    }
  }

  /** `trim` returns a contiguous part of `s` whose surroundings are
      whitespace only. */
  lemma TrimSlice(s: string)
    ensures var a := SkipWs(s, 0); var r := Trim(s);
      a + |r| <= |s| && s[a..a + |r|] == r && AllWs(s[..a]) && AllWs(s[a + |r|..])
  {
    var a := SkipWs(s, 0);
    var b := SkipWsBack(s, |s|);
    SkipWsSpan(s, 0);
    SkipWsBackSpan(s, |s|);
    assert s[..a] == s[0..a];
    if a >= b {
      TrimAllWs(s);
    } else {
      assert s[b..] == s[b..|s|];
    }
  }

  /** When the leading run reaches the trailing one, it covers the string. */
  lemma TrimAllWs(s: string)
    requires SkipWs(s, 0) >= SkipWsBack(s, |s|)
    ensures SkipWs(s, 0) == |s|
  {
    var a := SkipWs(s, 0);
    if a < |s| {
      SkipWsBackCovers(s, |s|, a);
    }
  }

  /** Every index `SkipWsBack` steps over holds whitespace. */
  lemma {:induction false} SkipWsBackCovers(s: string, j: nat, k: nat)
    requires j <= |s| && SkipWsBack(s, j) <= k < j
    ensures IsWs(s[k])
    decreases j
  {
    if k < j - 1 {
      SkipWsBackCovers(s, j - 1, k);
    }
  }

  /** Trimming twice is trimming once. */
  lemma TrimIdempotent(s: string)
    ensures Trim(Trim(s)) == Trim(s)
  {
    var r := Trim(s);
    TrimPadded([], r, []);
    assert [] + r + [] == r;
  }

  /** A string made only of whitespace trims to the empty string, and only
      such a string does. */
  lemma TrimEmpty(s: string)
    ensures Trim(s) == [] <==> AllWs(s)
  {
    if AllWs(s) {
      TrimPadded(s, [], []);
      assert s + [] + [] == s;
    }
    if Trim(s) == [] {
      TrimAllWs(s);
      SkipWsSpan(s, 0);
      assert s[0..|s|] == s;
    }
  }

  /** `p` occurs in `s` starting at index `i`. */
  predicate OccursAt(s: string, p: string, i: int) {
    0 <= i <= |s| - |p| && s[i..i + |p|] == p
  }

  /** `s.includes(p)`: `p` occurs in `s` at some position. */
  predicate Contains(s: string, p: string) {
    exists i :: 0 <= i <= |s| - |p| && OccursAt(s, p, i)
  }

  /** A string contains each of its infixes. */
  lemma ContainsMiddle(a: string, p: string, b: string)
    ensures Contains(a + p + b, p)
  {
    var s := a + p + b;
    assert s[|a|..|a| + |p|] == p;
    assert OccursAt(s, p, |a|);
  }

  /** What a part of a string contains, the whole string contains. */
  lemma ContainsInfix(a: string, b: string, c: string, p: string)
    requires Contains(b, p)
    ensures Contains(a + b + c, p)
  {
    var i :| 0 <= i <= |b| - |p| && OccursAt(b, p, i);
    var s := a + b + c;
    assert s[|a| + i..|a| + i + |p|] == b[i..i + |p|];
    assert OccursAt(s, p, |a| + i);
  }

  /** `s.replace(/\s+/g, '_')`: every maximal whitespace run becomes one `_`. */
  function ReplaceWhitespaceRuns(s: string): (r: string)
    ensures NoWs(r)
    ensures |r| <= |s|
    decreases |s|
  {
    if s == [] then []
    else if IsWs(s[0]) then
      var j := SkipWs(s, 0);
      "_" + ReplaceWhitespaceRuns(s[j..])
    else [s[0]] + ReplaceWhitespaceRuns(s[1..])
  }

  /** A string without whitespace is left unchanged. */
  lemma {:induction false} ReplaceWhitespaceRunsNoWs(s: string)
    requires NoWs(s)
    ensures ReplaceWhitespaceRuns(s) == s
    decreases |s|
  {
    if s != [] {
      assert !IsWs(s[0]);
      ReplaceWhitespaceRunsNoWs(s[1..]);
    }
  }

  /** A whitespace run followed by a non-space character (or by nothing)
      collapses to exactly one `_`, whatever its length. */
  lemma ReplaceWhitespaceRunsCollapse(w: string, b: string)
    requires w != [] && AllWs(w)
    requires b == [] || !IsWs(b[0])
    ensures ReplaceWhitespaceRuns(w + b) == "_" + ReplaceWhitespaceRuns(b)
  {
    var s := w + b;
    assert s[0] == w[0];
    var j := SkipWs(s, 0);
    assert forall k :: 0 <= k < |w| ==> s[k] == w[k];
    if b != [] {
      assert s[|w|] == b[0];
      SkipWsAt(s, 0, |w|);
    } else {
      assert s == w;
      assert j == |s|;
    }
    assert s[j..] == b;
  }
}
