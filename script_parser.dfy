/** `ScriptParserService.parsePlaywrightScript`: split one script into its
    named test units. A global regular expression finds each declaration
    `test('<name>', async ({ page }) => {`; a brace-depth counter then finds
    where the body ends, and the body is trimmed. */
module ScriptParser {
  import opened Common
  import opened Text

  datatype ParsedTestScript = ParsedTestScript(taskName: string, code: string)

  /** One declaration match: where it starts, where the quoted name starts,
      the name, and the index just after the opening `{` of the body. */
  datatype Decl = Decl(index: nat, nameAt: nat, name: string, end: nat)

  predicate IsQuote(c: char) {
    c == '\'' || c == '"'
  }

  predicate NoQuote(s: string) {
    forall k :: 0 <= k < |s| ==> !IsQuote(s[k])
  }

  /** The end of the maximal run of non-quote characters starting at `i`. */
  function SkipName(s: string, i: nat): (j: nat)
    requires i <= |s|
    ensures i <= j <= |s|
    ensures j == |s| || IsQuote(s[j])
    decreases |s| - i
  {
    if i < |s| && !IsQuote(s[i]) then SkipName(s, i + 1) else i
  }

  /** Everything `SkipName` skips is a non-quote character. */
  lemma {:induction false} SkipNameSpan(s: string, i: nat)
    requires i <= |s|
    ensures NoQuote(s[i..SkipName(s, i)])
    decreases |s| - i
  {
    if i < |s| && !IsQuote(s[i]) {
      SkipNameSpan(s, i + 1);
      assert s[i..SkipName(s, i)] == [s[i]] + s[i + 1..SkipName(s, i)];
    }
  }

  /** The literal `t` occurs in `s` at index `p`. */
  predicate StartsAt(s: string, p: nat, t: string) {
    p + |t| <= |s| && s[p..p + |t|] == t
  }

  /** `\s*` followed by the literal `t`, at `i`: the index after `t`. */
  function Expect(s: string, i: nat, t: string): (r: Option<nat>)
    requires i <= |s|
    ensures r.Some? ==> i + |t| <= r.value <= |s|
    decreases |s| - i
  {
    if i < |s| && IsWs(s[i]) then Expect(s, i + 1, t)
    else if StartsAt(s, i, t) then Some(i + |t|) else None
  }

  /** What `Expect` finds ends with the literal. */
  lemma {:induction false} ExpectFound(s: string, i: nat, t: string)
    requires i <= |s| && Expect(s, i, t).Some?
    ensures StartsAt(s, Expect(s, i, t).value - |t|, t)
    decreases |s| - i
  {
    if i < |s| && IsWs(s[i]) {
      ExpectFound(s, i + 1, t);
    }
  }

  /** The elements the declaration pattern is made of. `Word(w)` is the
      literal `w`; `Token(t)` is `\s*` followed by the literal `t`; `Quote` is
      `\s*['"]`; `NameQuote` is `([^'"]+)['"]`. Each `\s*` is followed by a
      character that is not whitespace and `[^'"]+` by a quote, so taking the
      longest run at each point is the only way the expression can match:
      the element-by-element scan below finds exactly the matches of the
      regular expression. */
  datatype Elem = Word(w: string) | Token(t: string) | Quote | NameQuote

  /** The number of elements of the pattern. */
  const PatternLength: nat := 13

  /** The literals after the name, each preceded by `\s*`. */
  const TailTokens: seq<string> := [",", "async", "(", "{", "page", "}", ")", "=>", "{"]

  /** `test\s*\(\s*['"]([^'"]+)['"]\s*,\s*async\s*\(\s*\{\s*page\s*\}\s*\)\s*=>\s*\{`,
      element by element. */
  function Pattern(k: nat): (el: Elem)
    requires k < PatternLength
    ensures el.Word? ==> el.w != []
    ensures el.Token? ==> el.t != []
    ensures k == PatternLength - 1 ==> el == Token("{")
  {
    if k == 0 then Word("test")
    else if k == 1 then Token("(")
    else if k == 2 then Quote
    else if k == 3 then NameQuote
    else Token(TailTokens[k - 4])
  }

  /** One element matched at `i`: the index after it. */
  function Step(s: string, i: nat, el: Elem): (r: Option<nat>)
    requires i <= |s|
    requires el.Word? ==> el.w != []
    requires el.Token? ==> el.t != []
    ensures r.Some? ==> i < r.value <= |s|
  {
    match el
    case Word(w) => if StartsAt(s, i, w) then Some(i + |w|) else None
    case Token(t) => Expect(s, i, t)
    case Quote =>
      var j := SkipWs(s, i);
      if j < |s| && IsQuote(s[j]) then Some(j + 1) else None
    case NameQuote =>
      var e := SkipName(s, i);
      if i < e < |s| then Some(e + 1) else None
  }

  /** Where the name starts after element `k` has been matched up to `j`. */
  function NameStart(k: nat, j: nat, q: nat): nat {
    if k == 2 then j else q
  }

  /** Where the name ends after element `k` has been matched up to `j`. */
  function NameEnd(k: nat, j: nat, e: nat): nat {
    if k == 2 then j else if k == 3 && j > 0 then j - 1 else e
  }

  /** The pattern from its `k`-th element on, at `i`, for a match that
      started at `start`; the name found so far is `s[q..e]`. */
  function Run(s: string, start: nat, i: nat, k: nat, q: nat, e: nat): (r: Option<Decl>)
    requires start <= i <= |s| && q <= e <= i && k <= PatternLength
    decreases |s| - i
  {
    if k == PatternLength then Some(Decl(start, q, s[q..e], i))
    else
      match Step(s, i, Pattern(k))
      case None => None
      case Some(j) =>
        Run(s, start, j, k + 1, NameStart(k, j, q), NameEnd(k, j, e))
  }

  /** A successful run past element `k` is the run from the index after it. */
  lemma RunStep(s: string, start: nat, i: nat, k: nat, q: nat, e: nat)
    requires start <= i <= |s| && q <= e <= i && k < PatternLength
    requires Run(s, start, i, k, q, e).Some?
    ensures Step(s, i, Pattern(k)).Some?
    ensures var j := Step(s, i, Pattern(k)).value;
      q <= NameStart(k, j, q) <= NameEnd(k, j, e) <= j
      && Run(s, start, i, k, q, e) == Run(s, start, j, k + 1, NameStart(k, j, q), NameEnd(k, j, e))
  {
  }

  /** One element of the pattern after the name, at `i`: the name is kept,
      and the run goes on after the element. */
  lemma RunToken(s: string, start: nat, i: nat, k: nat, q: nat, e: nat)
    requires start <= i <= |s| && q <= e <= i && 4 <= k < PatternLength
    requires Run(s, start, i, k, q, e).Some?
    ensures Step(s, i, Pattern(k)).Some?
    ensures var j := Step(s, i, Pattern(k)).value;
      i < j <= |s| && Run(s, start, i, k, q, e) == Run(s, start, j, k + 1, q, e)
  {
    RunStep(s, start, i, k, q, e);
  }

  /** Once the name is captured, the rest of the pattern is tokens: a
      successful run keeps the name and ends just after a `{`. */
  lemma RunTail(s: string, start: nat, i: nat, q: nat, e: nat)
    requires start <= i <= |s| && q <= e <= i
    requires Run(s, start, i, 4, q, e).Some?
    ensures var d := Run(s, start, i, 4, q, e).value;
      d == Decl(start, q, s[q..e], d.end) && i < d.end <= |s| && s[d.end - 1] == '{'
  {
    RunToken(s, start, i, 4, q, e);
    var j5 := Step(s, i, Pattern(4)).value;
    RunToken(s, start, j5, 5, q, e);
    var j6 := Step(s, j5, Pattern(5)).value;
    RunToken(s, start, j6, 6, q, e);
    var j7 := Step(s, j6, Pattern(6)).value;
    RunToken(s, start, j7, 7, q, e);
    var j8 := Step(s, j7, Pattern(7)).value;
    RunToken(s, start, j8, 8, q, e);
    var j9 := Step(s, j8, Pattern(8)).value;
    RunToken(s, start, j9, 9, q, e);
    var j10 := Step(s, j9, Pattern(9)).value;
    RunToken(s, start, j10, 10, q, e);
    var j11 := Step(s, j10, Pattern(10)).value;
    RunToken(s, start, j11, 11, q, e);
    var j12 := Step(s, j11, Pattern(11)).value;
    RunToken(s, start, j12, 12, q, e);
    var j := Step(s, j12, Pattern(12)).value;
    ExpectFound(s, j12, "{");
    assert s[j - 1] == s[j - 1..j][0];
  }

  /** What a declaration match found in `s` guarantees: it starts with
      `test`, the name is non-empty, has no quote, and sits between two quote
      characters (of either kind), and the match ends with `{`. */
  ghost predicate WellFormed(s: string, d: Decl) {
    d.index + 4 < d.nameAt && d.nameAt + |d.name| < d.end <= |s|
    && StartsAt(s, d.index, "test")
    && IsQuote(s[d.nameAt - 1]) && IsQuote(s[d.nameAt + |d.name|])
    && s[d.nameAt..d.nameAt + |d.name|] == d.name
    && d.name != [] && NoQuote(d.name)
    && s[d.end - 1] == '{'
  }

  /** The first four elements of a successful run from `p`: `test` at `p`,
      then the name between quotes at `q` up to the closing quote at
      `j - 1`. */
  lemma RunHead(s: string, p: nat) returns (q: nat, j: nat)
    requires p <= |s| && Run(s, p, p, 0, p, p).Some?
    ensures StartsAt(s, p, "test") && p + 4 < q < j - 1 && j <= |s|
    ensures IsQuote(s[q - 1]) && IsQuote(s[j - 1]) && NoQuote(s[q..j - 1])
    ensures Run(s, p, p, 0, p, p) == Run(s, p, j, 4, q, j - 1)
  {
    RunStep(s, p, p, 0, p, p);
    var j1 := Step(s, p, Pattern(0)).value;
    RunStep(s, p, j1, 1, p, p);
    var j2 := Step(s, j1, Pattern(1)).value;
    RunStep(s, p, j2, 2, p, p);
    q := Step(s, j2, Pattern(2)).value;
    RunStep(s, p, q, 3, q, q);
    j := Step(s, q, Pattern(3)).value;
    SkipNameSpan(s, q);
  }

  /** The pattern run from `p` yields a well-formed declaration. */
  lemma RunWellFormed(s: string, p: nat)
    requires p <= |s| && Run(s, p, p, 0, p, p).Some?
    ensures WellFormed(s, Run(s, p, p, 0, p, p).value)
    ensures Run(s, p, p, 0, p, p).value.index == p
  {
    var q, j := RunHead(s, p);
    RunTail(s, p, j, q, j - 1);
  }

  /** The declaration pattern anchored at `p`. */
  function MatchAt(s: string, p: nat): (r: Option<Decl>)
    requires p <= |s|
    ensures r.Some? ==> r.value.index == p < r.value.end <= |s|
  {
    if Run(s, p, p, 0, p, p).Some? then
      RunWellFormed(s, p);
      Run(s, p, p, 0, p, p)
    else None
  }

  /** A match is well formed. */
  lemma MatchAtWellFormed(s: string, p: nat)
    requires p <= |s| && MatchAt(s, p).Some?
    ensures WellFormed(s, MatchAt(s, p).value)
  {
    RunWellFormed(s, p);
  }

  /** An infix that is a concatenation splits into two adjacent infixes. */
  lemma SliceSplit(s: string, i: nat, a: string, b: string)
    requires i + |a| + |b| <= |s| && s[i..i + |a| + |b|] == a + b
    ensures s[i..i + |a|] == a && s[i + |a|..i + |a| + |b|] == b
  {
    assert s[i..i + |a|] == s[i..i + |a| + |b|][..|a|];
    assert s[i + |a|..i + |a| + |b|] == s[i..i + |a| + |b|][|a|..];
  }

  /** `\s*t` over the whitespace `w` followed by `t` consumes both. */
  lemma {:induction false} ExpectPadded(s: string, i: nat, w: string, t: string)
    requires AllWs(w) && t != [] && !IsWs(t[0])
    requires i + |w| + |t| <= |s| && s[i..i + |w| + |t|] == w + t
    ensures Expect(s, i, t) == Some(i + |w| + |t|)
    decreases |w|
  {
    if w == [] {
      assert s[i..i + |t|] == t;
      assert s[i] == t[0];
    } else {
      assert s[i] == (w + t)[0] == w[0];
      assert s[i + 1..i + 1 + |w[1..]| + |t|] == w[1..] + t by {
        assert s[i + 1..i + 1 + |w[1..]| + |t|] == s[i..i + |w| + |t|][1..];
        assert (w + t)[1..] == w[1..] + t;
      }
      assert AllWs(w[1..]) by {
        forall m | 0 <= m < |w[1..]| ensures IsWs(w[1..][m]) {
          assert w[1..][m] == w[m + 1];
        }
      }
      ExpectPadded(s, i + 1, w[1..], t);
    }
  }

  /** `[^'"]+` stops exactly at the first quote. */
  lemma {:induction false} SkipNameAt(s: string, i: nat, n: nat)
    requires i <= n < |s| && IsQuote(s[n])
    requires forall k :: i <= k < n ==> !IsQuote(s[k])
    ensures SkipName(s, i) == n
    decreases n - i
  {
    if i < n {
      SkipNameAt(s, i + 1, n);
    }
  }

  /** The text that the elements from `k` on match when each `\s*` takes
      the whitespace `ws[j]`: `ws[0] + Pattern(k).t + ws[1] + ...`. */
  function Tokens(ws: seq<string>, k: nat): string
    requires 4 <= k <= PatternLength && |ws| == PatternLength - k
    decreases |ws|
  {
    if k == PatternLength then [] else ws[0] + Pattern(k).t + Tokens(ws[1..], k + 1)
  }

  /** The elements after the name are tokens whose first character is not
      whitespace. */
  lemma PatternToken(k: nat)
    requires 4 <= k < PatternLength
    ensures Pattern(k).Token? && !IsWs(Pattern(k).t[0])
  {
  }

  /** One token element after the name, matched at `i` up to `j`: the run
      goes on after it with the name unchanged. */
  lemma RunAfter(s: string, start: nat, i: nat, k: nat, q: nat, e: nat, j: nat)
    requires start <= i <= |s| && q <= e <= i && 4 <= k < PatternLength
    requires Step(s, i, Pattern(k)) == Some(j)
    ensures Run(s, start, i, k, q, e) == Run(s, start, j, k + 1, q, e)
  {
  }

  /** The token element `k` over the whitespace `w` and its literal, with
      `rest` after them. */
  lemma TokenStep(s: string, i: nat, k: nat, w: string, rest: string)
    requires 4 <= k < PatternLength && AllWs(w)
    requires i + |w + Pattern(k).t + rest| <= |s| && s[i..i + |w + Pattern(k).t + rest|] == w + Pattern(k).t + rest
    ensures Step(s, i, Pattern(k)) == Some(i + |w| + |Pattern(k).t|)
    ensures s[i + |w| + |Pattern(k).t|..i + |w| + |Pattern(k).t| + |rest|] == rest
  {
    PatternToken(k);
    var t := Pattern(k).t;
    SliceSplit(s, i, w + t, rest);
    SliceSplit(s, i, w, t);
    ExpectPadded(s, i, w, t);
  }

  /** `Tokens` one element at a time. */
  lemma TokensStep(ws: seq<string>, k: nat)
    requires 4 <= k < PatternLength && |ws| == PatternLength - k
    ensures Tokens(ws, k) == ws[0] + Pattern(k).t + Tokens(ws[1..], k + 1)
  {
  }

  /** Token element `k` (literal in each use) at `i` over the whitespace
      `ws[0]`, followed by the text of the later elements: the run goes on
      after it, and that text follows. */
  lemma RunTokenAt(s: string, start: nat, i: nat, k: nat, q: nat, e: nat, ws: seq<string>)
    requires start <= i <= |s| && q <= e <= i && 4 <= k < PatternLength && |ws| == PatternLength - k
    requires AllWs(ws[0])
    requires i + |Tokens(ws, k)| <= |s| && s[i..i + |Tokens(ws, k)|] == Tokens(ws, k)
    ensures var j := i + |ws[0]| + |Pattern(k).t|;
      j + |Tokens(ws[1..], k + 1)| == i + |Tokens(ws, k)|
      && s[j..j + |Tokens(ws[1..], k + 1)|] == Tokens(ws[1..], k + 1)
      && Run(s, start, i, k, q, e) == Run(s, start, j, k + 1, q, e)
  {
    TokensStep(ws, k);
    TokenStep(s, i, k, ws[0], Tokens(ws[1..], k + 1));
    RunAfter(s, start, i, k, q, e, i + |ws[0]| + |Pattern(k).t|);
  }

  /** Once the name is captured, the tokens written out with any whitespace
      before each are matched in full. */
  lemma {:induction false} RunTokens(s: string, start: nat, i: nat, k: nat, q: nat, e: nat, ws: seq<string>)
    requires start <= i <= |s| && q <= e <= i && 4 <= k <= PatternLength && |ws| == PatternLength - k
    requires forall j :: 0 <= j < |ws| ==> AllWs(ws[j])
    requires i + |Tokens(ws, k)| <= |s| && s[i..i + |Tokens(ws, k)|] == Tokens(ws, k)
    ensures Run(s, start, i, k, q, e) == Some(Decl(start, q, s[q..e], i + |Tokens(ws, k)|))
    decreases |ws|
  {
    if k < PatternLength {
      RunTokenAt(s, start, i, k, q, e, ws);
      assert forall m :: 0 <= m < |ws[1..]| ==> AllWs(ws[1..][m]) by {
        forall m | 0 <= m < |ws[1..]| ensures AllWs(ws[1..][m]) {
          assert ws[1..][m] == ws[m + 1];
        }
      }
      RunTokens(s, start, i + |ws[0]| + |Pattern(k).t|, k + 1, q, e, ws[1..]);
    }
  }

  /** The elements before the name over the whitespace `w1` and `w2`:
      `test`, `\s*\(` and `\s*['"]`. */
  function DeclHead(w1: string, w2: string, q1: char): string {
    "test" + w1 + "(" + w2 + [q1]
  }

  /** The text of a declaration as the expression expects it: `test`, the
      whitespace `w1`, `(`, the whitespace `w2`, a quote, the name, a quote,
      and the nine tokens `, async ( { page } ) => {`, each preceded by its
      whitespace in `ws`. */
  function Declaration(w1: string, w2: string, q1: char, name: string, q2: char, ws: seq<string>): string
    requires |ws| == 9
  {
    DeclHead(w1, w2, q1) + (name + [q2]) + Tokens(ws, 4)
  }

  /** `\s*\(` over the whitespace `w`. */
  lemma ParenFound(s: string, i: nat, w: string)
    requires AllWs(w) && i + |w + "("| <= |s| && s[i..i + |w + "("|] == w + "("
    ensures Step(s, i, Pattern(1)) == Some(i + |w| + 1)
  {
    ExpectPadded(s, i, w, "(");
  }

  /** `\s*['"]` over the whitespace `w` and the quote `c`. */
  lemma QuoteFound(s: string, i: nat, w: string, c: char)
    requires AllWs(w) && IsQuote(c) && i + |w + [c]| <= |s| && s[i..i + |w + [c]|] == w + [c]
    ensures Step(s, i, Pattern(2)) == Some(i + |w| + 1)
  {
    SliceSplit(s, i, w, [c]);
    assert s[i + |w|] == s[i + |w|..i + |w| + 1][0] == c;
    SkipWsAt(s, i, i + |w|);
  }

  /** The first three elements match `test`, the whitespace `w1` with `(`,
      and the whitespace `w2` with the quote `q1`, laid end to end. */
  lemma HeadFound(s: string, p: nat, w1: string, w2: string, q1: char)
    requires AllWs(w1) && AllWs(w2) && IsQuote(q1) && p + 6 + |w1| + |w2| <= |s|
    requires s[p..p + 4] == "test" && s[p + 4..p + 4 + |w1 + "("|] == w1 + "("
    requires s[p + 4 + |w1 + "("|..p + 4 + |w1 + "("| + |w2 + [q1]|] == w2 + [q1]
    ensures Step(s, p, Pattern(0)) == Some(p + 4)
    ensures Step(s, p + 4, Pattern(1)) == Some(p + 5 + |w1|)
    ensures Step(s, p + 5 + |w1|, Pattern(2)) == Some(p + 6 + |w1| + |w2|)
  {
    ParenFound(s, p + 4, w1);
    QuoteFound(s, p + 5 + |w1|, w2, q1);
  }

  /** `([^'"]+)['"]` matches the name and its closing quote. */
  lemma NameFound(s: string, q: nat, name: string, q2: char)
    requires name != [] && NoQuote(name) && IsQuote(q2)
    requires q + |name + [q2]| <= |s| && s[q..q + |name + [q2]|] == name + [q2]
    ensures Step(s, q, Pattern(3)) == Some(q + |name| + 1)
    ensures s[q..q + |name|] == name
  {
    SliceSplit(s, q, name, [q2]);
    assert s[q + |name|] == s[q + |name|..q + |name| + 1][0] == q2;
    SkipNameAt(s, q, q + |name|);
  }

  /** The first four elements, matched one after the other. */
  lemma RunHeadSteps(s: string, p: nat, j1: nat, j2: nat, q: nat, e: nat)
    requires p <= |s|
    requires Step(s, p, Pattern(0)) == Some(j1) && Step(s, j1, Pattern(1)) == Some(j2)
    requires Step(s, j2, Pattern(2)) == Some(q) && Step(s, q, Pattern(3)) == Some(e + 1)
    ensures q <= e && Run(s, p, p, 0, p, p) == Run(s, p, e + 1, 4, q, e)
  {
    assert Run(s, p, p, 0, p, p) == Run(s, p, j1, 1, p, p);
    assert Run(s, p, j1, 1, p, p) == Run(s, p, j2, 2, p, p);
    assert Run(s, p, j2, 2, p, p) == Run(s, p, q, 3, q, q);
    assert Run(s, p, q, 3, q, q) == Run(s, p, e + 1, 4, q, e);
  }

  /** The converse of `MatchAtWellFormed`: a declaration written the way the
      expression expects, with any whitespace where it allows `\s*` and
      either kind of quote on each side of the name, is matched at its
      index, with that name, up to its opening `{`. */
  lemma DeclarationFound(s: string, p: nat, w1: string, w2: string, q1: char, name: string, q2: char,
                         ws: seq<string>)
    requires |ws| == 9 && AllWs(w1) && AllWs(w2) && forall j :: 0 <= j < 9 ==> AllWs(ws[j])
    requires IsQuote(q1) && IsQuote(q2) && name != [] && NoQuote(name)
    requires p + |Declaration(w1, w2, q1, name, q2, ws)| <= |s|
    requires s[p..p + |Declaration(w1, w2, q1, name, q2, ws)|] == Declaration(w1, w2, q1, name, q2, ws)
    ensures MatchAt(s, p)
      == Some(Decl(p, p + |w1| + |w2| + 6, name, p + |Declaration(w1, w2, q1, name, q2, ws)|))
  {
    var h, b, t := DeclHead(w1, w2, q1), name + [q2], Tokens(ws, 4);
    assert Declaration(w1, w2, q1, name, q2, ws) == h + b + t;
    SplitThree(s, p, h, b, t);
    MatchFromParts(s, p, w1, w2, q1, name, q2, ws);
  }

  /** An infix made of three parts splits into three adjacent infixes. */
  lemma SplitThree(s: string, p: nat, h: string, b: string, t: string)
    requires p + |h + b + t| <= |s| && s[p..p + |h + b + t|] == h + b + t
    ensures s[p..p + |h|] == h && s[p + |h|..p + |h| + |b|] == b
    ensures s[p + |h| + |b|..p + |h| + |b| + |t|] == t
  {
    SliceSplit(s, p, h + b, t);
    SliceSplit(s, p, h, b);
  }

  /** The head, the name with its quote and the tokens, each found where
      the one before it ends, make up one match. */
  lemma MatchFromParts(s: string, p: nat, w1: string, w2: string, q1: char, name: string, q2: char,
                       ws: seq<string>)
    requires |ws| == 9 && AllWs(w1) && AllWs(w2) && forall j :: 0 <= j < 9 ==> AllWs(ws[j])
    requires IsQuote(q1) && IsQuote(q2) && name != [] && NoQuote(name)
    requires var q := p + |DeclHead(w1, w2, q1)|; var i := q + |name + [q2]|;
      i + |Tokens(ws, 4)| <= |s|
      && s[p..q] == DeclHead(w1, w2, q1) && s[q..i] == name + [q2]
      && s[i..i + |Tokens(ws, 4)|] == Tokens(ws, 4)
    ensures MatchAt(s, p)
      == Some(Decl(p, p + |w1| + |w2| + 6, name, p + |w1| + |w2| + 7 + |name| + |Tokens(ws, 4)|))
  {
    var q := p + |w1| + |w2| + 6;
    var e := q + |name|;
    HeadRun(s, p, w1, w2, q1, name, q2);
    RunTokens(s, p, e + 1, 4, q, e, ws);
  }

  /** The first four elements over the head and the name with its quote:
      the run reaches the tokens with the name captured. */
  lemma HeadRun(s: string, p: nat, w1: string, w2: string, q1: char, name: string, q2: char)
    requires AllWs(w1) && AllWs(w2) && IsQuote(q1) && IsQuote(q2) && name != [] && NoQuote(name)
    requires var q := p + |DeclHead(w1, w2, q1)|;
      q + |name + [q2]| <= |s| && s[p..q] == DeclHead(w1, w2, q1) && s[q..q + |name + [q2]|] == name + [q2]
    ensures var q := p + |w1| + |w2| + 6;
      s[q..q + |name|] == name
      && Run(s, p, p, 0, p, p) == Run(s, p, q + |name| + 1, 4, q, q + |name|)
  {
    var q := p + |w1| + |w2| + 6;
    assert DeclHead(w1, w2, q1) == "test" + (w1 + "(") + (w2 + [q1]);
    SplitThree(s, p, "test", w1 + "(", w2 + [q1]);
    HeadFound(s, p, w1, w2, q1);
    NameFound(s, q, name, q2);
    RunHeadSteps(s, p, p + 4, p + 5 + |w1|, q, q + |name|);
  }

  /** `testPattern.exec(script)` with `lastIndex == from`: the leftmost match
      starting at or after `from`. */
  function NextMatch(s: string, from: nat): (r: Option<Decl>)
    requires from <= |s|
    ensures r.Some? ==> from <= r.value.index < r.value.end <= |s|
    decreases |s| - from
  {
    match MatchAt(s, from)
    case Some(d) => Some(d)
    case None => if from == |s| then None else NextMatch(s, from + 1)
  }

  /** What `exec` returns is the match at the index it reports. */
  lemma {:induction false} NextMatchFound(s: string, from: nat)
    requires from <= |s|
    requires NextMatch(s, from).Some?
    ensures MatchAt(s, NextMatch(s, from).value.index) == NextMatch(s, from)
    decreases |s| - from
  {
    var m := MatchAt(s, from);
    if m.Some? {
      assert NextMatch(s, from) == m;
      assert m.value.index == from;
    } else {
      assert NextMatch(s, from) == NextMatch(s, from + 1);
      NextMatchFound(s, from + 1);
    }
  }

  /** `exec` finds the leftmost match: none starts between `from` and the
      match it returns, nor anywhere after `from` when it returns none. */
  lemma {:induction false} NextMatchLeftmost(s: string, from: nat, p: nat)
    requires from <= p <= |s|
    requires NextMatch(s, from).None? || p < NextMatch(s, from).value.index
    ensures MatchAt(s, p).None?
    decreases |s| - from
  {
    if p > from {
      NextMatchLeftmost(s, from + 1, p);
    }
  }

  /** When no match starts anywhere from `from` on, `exec` returns none. */
  lemma {:induction false} NextMatchAbsent(s: string, from: nat)
    requires from <= |s|
    requires forall p :: from <= p <= |s| ==> MatchAt(s, p).None?
    ensures NextMatch(s, from).None?
    decreases |s| - from
  {
    assert MatchAt(s, from).None?;
    if from < |s| {
      NextMatchAbsent(s, from + 1);
    }
  }

  /** The successive matches of the global expression from `from` on: each
      search resumes where the previous match ended, that is just after the
      opening `{`, not after the body. */
  function Decls(s: string, from: nat): (r: seq<Decl>)
    requires from <= |s|
    decreases |s| - from
  {
    match NextMatch(s, from)
    case None => []
    case Some(d) => [d] + Decls(s, d.end)
  }

  /** Each listed declaration is the match of the pattern at its own
      index, at or after `from`. */
  lemma {:induction false} DeclsMatched(s: string, from: nat)
    requires from <= |s|
    ensures forall i :: 0 <= i < |Decls(s, from)| ==>
      from <= Decls(s, from)[i].index <= |s|
      && MatchAt(s, Decls(s, from)[i].index) == Some(Decls(s, from)[i])
    decreases |s| - from
  {
    match NextMatch(s, from)
    case None =>
    case Some(d) =>
      NextMatchFound(s, from);
      DeclsMatched(s, d.end);
      var ds := Decls(s, from);
      var rest := Decls(s, d.end);
      assert ds == [d] + rest;
      forall i | 0 <= i < |ds|
        ensures from <= ds[i].index <= |s| && MatchAt(s, ds[i].index) == Some(ds[i])
      {
        if i > 0 {
          assert ds[i] == rest[i - 1];
        }
      }
  }

  /** The declarations are listed in the order of their positions: each one
      starts after the previous match has ended. */
  lemma {:induction false} DeclsOrdered(s: string, from: nat)
    requires from <= |s|
    ensures forall i :: 0 <= i < |Decls(s, from)| - 1 ==>
      Decls(s, from)[i].end <= Decls(s, from)[i + 1].index
    decreases |s| - from
  {
    match NextMatch(s, from)
    case None =>
    case Some(d) =>
      DeclsOrdered(s, d.end);
      DeclsMatched(s, d.end);
      var ds := Decls(s, from);
      var rest := Decls(s, d.end);
      assert ds == [d] + rest;
      forall i | 0 <= i < |ds| - 1 ensures ds[i].end <= ds[i + 1].index {
        assert ds[i + 1] == rest[i];
        if i > 0 {
          assert ds[i] == rest[i - 1];
        }
      }
  }

  /** Nothing is missed: every match of the pattern from `from` on is a
      listed declaration or starts inside the text of one (between `test`
      and its `{`). In particular a declaration inside the body of another
      is listed. */
  lemma {:induction false} DeclsComplete(s: string, from: nat, p: nat)
    requires from <= p <= |s| && MatchAt(s, p).Some?
    ensures exists i ::
              0 <= i < |Decls(s, from)| && Decls(s, from)[i].index <= p < Decls(s, from)[i].end
    decreases |s| - from
  {
    match NextMatch(s, from)
    case None =>
      NextMatchLeftmost(s, from, p);
    case Some(d) =>
      var ds := Decls(s, from);
      assert ds[0] == d;
      if p < d.index {
        NextMatchLeftmost(s, from, p);
      } else if p >= d.end {
        DeclsComplete(s, d.end, p);
        var rest := Decls(s, d.end);
        assert ds == [d] + rest;
        var i :| 0 <= i < |rest| && rest[i].index <= p < rest[i].end;
        assert ds[i + 1] == rest[i];
      }
  }

  function Delta(c: char): int {
    if c == '{' then 1 else if c == '}' then -1 else 0
  }

  /** The brace-counting loop from index `i` on with the count `count`: the
      last index it reads, which is the index of the brace that brings the
      count to 0, or the last index of the script when none does (`start`
      itself when there is nothing to read). */
  function Scan(s: string, start: nat, i: nat, count: int): (e: nat)
    requires start <= i <= |s|
    ensures start <= e <= |s|
    decreases |s| - i
  {
    if i == |s| then (if i == start then start else i - 1)
    else if count + Delta(s[i]) <= 0 then i
    else Scan(s, start, i + 1, count + Delta(s[i]))
  }

  /** `endIndex` after the brace-counting loop that starts after the opening
      brace of a body, with the count at 1. */
  function BodyEnd(s: string, start: nat): (e: nat)
    requires start <= |s|
    ensures start <= e <= |s|
  {
    Scan(s, start, start, 1)
  }

  /** The brace depth after reading `s[start..i]`, from a depth of 1. */
  function Depth(s: string, start: nat, i: nat): int
    requires start <= i <= |s|
    decreases i - start
  {
    if i == start then 1 else Depth(s, start, i - 1) + Delta(s[i - 1])
  }

  /** The body that starts at `start` is closed by the brace at `e`: reading
      up to and including `e` brings the depth to 0 for the first time. */
  ghost predicate Closes(s: string, start: nat, e: nat) {
    start <= e < |s| && Depth(s, start, e + 1) == 0
    && forall k :: start <= k <= e ==> Depth(s, start, k) > 0
  }

  /** The last index of the script, or `start` when nothing follows it. */
  function LastIndex(s: string, start: nat): nat
    requires start <= |s|
  {
    if start == |s| then start else |s| - 1
  }

  /** The loop stops at the brace that closes the body, or runs to the end
      of the script when no brace does. */
  lemma {:induction false} ScanDepth(s: string, start: nat, i: nat, count: int)
    requires start <= i <= |s| && count == Depth(s, start, i)
    requires forall k :: start <= k <= i ==> Depth(s, start, k) > 0
    ensures Closes(s, start, Scan(s, start, i, count))
      || (Scan(s, start, i, count) == LastIndex(s, start)
          && forall k :: start <= k <= |s| ==> Depth(s, start, k) > 0)
    decreases |s| - i
  {
    if i < |s| {
      assert Depth(s, start, i + 1) == count + Delta(s[i]);
      if count + Delta(s[i]) > 0 {
        ScanDepth(s, start, i + 1, count + Delta(s[i]));
      }
    }
  }

  /** A body closed by the brace at `e` ends just before that brace: the
      raw body is `s[start..e]`, with every nested balanced pair inside it. */
  lemma BodyEndCloses(s: string, start: nat, e: nat)
    requires Closes(s, start, e)
    ensures BodyEnd(s, start) == e && s[e] == '}'
    ensures CodeAt(s, start) == Trim(s[start..e])
  {
    ScanDepth(s, start, start, 1);
    assert Depth(s, start, e + 1) == Depth(s, start, e) + Delta(s[e]);
  }

  /** A body whose depth never returns to 0 runs to the last index of the
      script, which is left out; a match at the very end has an empty body. */
  lemma BodyEndUnterminated(s: string, start: nat)
    requires start <= |s|
    requires forall k :: start <= k <= |s| ==> Depth(s, start, k) > 0
    ensures BodyEnd(s, start) == LastIndex(s, start)
    ensures start == |s| ==> CodeAt(s, start) == []
  {
    ScanDepth(s, start, start, 1);
    var r := BodyEnd(s, start);
    if r < |s| {
      assert Depth(s, start, r + 1) > 0;
    }
  }

  function CodeAt(s: string, start: nat): string
    requires start <= |s|
  {
    Trim(s[start..BodyEnd(s, start)])
  }

  function UnitOf(s: string, d: Decl): ParsedTestScript
    requires d.end <= |s|
  {
    ParsedTestScript(d.name, CodeAt(s, d.end))
  }

  /** The units found by the search from `from` on, in the order the
      matches are found. */
  function ParseFrom(s: string, from: nat): seq<ParsedTestScript>
    requires from <= |s|
    decreases |s| - from
  {
    match NextMatch(s, from)
    case None => []
    case Some(d) => [UnitOf(s, d)] + ParseFrom(s, d.end)
  }

  /** The units `parsePlaywrightScript` returns, one per declaration match. */
  function Parse(s: string): seq<ParsedTestScript> {
    ParseFrom(s, 0)
  }

  /** One step of the search: a match found from `from` contributes its
      unit, and the search goes on from the end of the match. */
  lemma ParseFromStep(s: string, from: nat)
    requires from <= |s| && NextMatch(s, from).Some?
    ensures var d := NextMatch(s, from).value;
      ParseFrom(s, from) == [UnitOf(s, d)] + ParseFrom(s, d.end)
  {
  }

  /** The units are the declarations, one for one and in the same order. */
  lemma {:induction false} ParseFromDecls(s: string, from: nat)
    requires from <= |s|
    ensures |ParseFrom(s, from)| == |Decls(s, from)|
    ensures forall i :: 0 <= i < |Decls(s, from)| ==>
      Decls(s, from)[i].end <= |s| && ParseFrom(s, from)[i] == UnitOf(s, Decls(s, from)[i])
    decreases |s| - from
  {
    match NextMatch(s, from)
    case None =>
    case Some(d) =>
      ParseFromDecls(s, d.end);
      var ds := Decls(s, from);
      var rest := Decls(s, d.end);
      var us := ParseFrom(s, from);
      var later := ParseFrom(s, d.end);
      assert ds == [d] + rest;
      assert us == [UnitOf(s, d)] + later;
      forall i | 0 <= i < |ds| ensures ds[i].end <= |s| && us[i] == UnitOf(s, ds[i]) {
        if i > 0 {
          assert ds[i] == rest[i - 1];
          assert us[i] == later[i - 1];
        }
      }
  }

  /** `parsePlaywrightScript` returns one unit per declaration match, in
      strictly increasing order of position; each unit is named by the text
      between the quotes of its declaration and holds the trimmed body that
      follows its `{`. */
  lemma ParseUnits(s: string)
    ensures |Parse(s)| == |Decls(s, 0)|
    ensures forall i :: 0 <= i < |Decls(s, 0)| ==>
      WellFormed(s, Decls(s, 0)[i])
      && Parse(s)[i] == ParsedTestScript(Decls(s, 0)[i].name, CodeAt(s, Decls(s, 0)[i].end))
    ensures forall i :: 0 <= i < |Decls(s, 0)| - 1 ==> Decls(s, 0)[i].index < Decls(s, 0)[i + 1].index
  {
    var ds := Decls(s, 0);
    ParseFromDecls(s, 0);
    DeclsMatched(s, 0);
    DeclsOrdered(s, 0);
    forall i | 0 <= i < |ds| ensures WellFormed(s, ds[i]) {
      MatchAtWellFormed(s, ds[i].index);
    }
  }

  /** Every unit has a non-empty name free of quotes, and code with no
      whitespace at either end. */
  lemma ParseShape(s: string, u: ParsedTestScript)
    requires u in Parse(s)
    ensures u.taskName != [] && NoQuote(u.taskName)
    ensures u.code == [] || (!IsWs(u.code[0]) && !IsWs(u.code[|u.code| - 1]))
  {
    ParseUnits(s);
    var i :| 0 <= i < |Parse(s)| && Parse(s)[i] == u;
  }

  /** A script yields no unit exactly when no declaration matches anywhere
      in it. */
  lemma ParseEmpty(s: string)
    ensures Parse(s) == [] <==> forall p :: 0 <= p <= |s| ==> MatchAt(s, p).None?
  {
    if NextMatch(s, 0).None? {
      forall p | 0 <= p <= |s| ensures MatchAt(s, p).None? {
        NextMatchLeftmost(s, 0, p);
      }
    }
    if forall p :: 0 <= p <= |s| ==> MatchAt(s, p).None? {
      NextMatchAbsent(s, 0);
    }
  }

  /** The empty script yields no unit. */
  lemma ParseEmptyScript()
    ensures Parse("") == []
  {
    ParseEmpty("");
  }

  /** The brace-counting `for` loop of the service method, from the index
      just after the opening brace of a body. */
  method FindBodyEnd(script: string, startIndex: nat) returns (endIndex: nat)
    requires startIndex <= |script|
    ensures endIndex == BodyEnd(script, startIndex)
  {
    var braceCount := 1;
    endIndex := startIndex;
    var i := startIndex;
    while i < |script| && braceCount > 0
      invariant startIndex <= i <= |script|
      invariant braceCount > 0 ==> Scan(script, startIndex, i, braceCount) == BodyEnd(script, startIndex)
      invariant braceCount <= 0 ==> endIndex == BodyEnd(script, startIndex)
      invariant endIndex == if i == startIndex then startIndex else i - 1
      decreases |script| - i
    {
      if script[i] == '{' {
        braceCount := braceCount + 1;
      } else if script[i] == '}' {
        braceCount := braceCount - 1;
      }
      endIndex := i;
      i := i + 1;
    }
  }

  /** The service method: a `while` loop over `exec` and, per match, the
      brace count, the trim and the push. */
  method ParsePlaywrightScript(script: string) returns (tests: seq<ParsedTestScript>)
    ensures tests == Parse(script)
  {
    tests := [];
    var lastIndex := 0;
    var m := NextMatch(script, lastIndex);
    while m.Some?
      invariant lastIndex <= |script|
      invariant m == NextMatch(script, lastIndex)
      invariant tests + ParseFrom(script, lastIndex) == Parse(script)
      decreases |script| - lastIndex
    {
      ParseFromStep(script, lastIndex);
      var taskName := m.value.name;
      var startIndex := m.value.end;
      var endIndex := FindBodyEnd(script, startIndex);
      var code := Trim(script[startIndex..endIndex]);
      assert (tests + [ParsedTestScript(taskName, code)]) + ParseFrom(script, startIndex)
        == tests + ParseFrom(script, lastIndex);
      tests := tests + [ParsedTestScript(taskName, code)];
      lastIndex := startIndex;
      m := NextMatch(script, lastIndex);
    }
  }
}
