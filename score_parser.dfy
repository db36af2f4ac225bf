/**
 * `parseCricAPIScore`, which the popup and the background worker each carry
 * an identical copy of: it reads a cricket score fragment such as
 * "186/4 (20 Ov)" into runs, wickets and overs.
 *
 * The source applies two unanchored regular expressions,
 *   /(\d+)\/(\d+)\s*\(([\d.]+)\s*Ov\)/   (with overs)
 *   /(\d+)\/(\d+)/                      (plain)
 * and takes the first match of each. Every repeated piece of either pattern
 * is followed by a character that the piece cannot contain (`\d+` by `/`, `\s`
 * or `(`; `\s*` by `(` or `O`; `[\d.]+` by `\s` or `O`), so a backtracking
 * matcher never gives characters back: at a given start position each piece
 * takes its maximal run. The model therefore scans maximal runs at each start
 * position and lets the leftmost start that completes the pattern win, which
 * is what `String.prototype.match` returns.
 */
module ScoreParser {
  import opened Wrappers
  import opened Text

  datatype CricketScore = CricketScore(runs: nat, wickets: nat, overs: string)

  /** `{ runs: 0, wickets: 0, overs: '' }` */
  const NoScore := CricketScore(0, 0, "")

  /** The character classes repeated in the two patterns. */
  datatype CharClass = Digit | Space | OversChar

  predicate In(k: CharClass, c: char)
  {
    match k
    case Digit => IsDigit(c)
    case Space => IsSpace(c)
    case OversChar => IsDigit(c) || c == '.'
  }

  /** The two regular expressions of the source. */
  datatype Pattern = WithOvers | Plain

  /** Length of the maximal run of class `k` starting at position `i`. */
  function Run(s: string, i: nat, k: CharClass): (n: nat)
    requires i <= |s|
    ensures i + n <= |s|
    ensures forall j :: i <= j < i + n ==> In(k, s[j])
    ensures i + n == |s| || !In(k, s[i + n])
    decreases |s| - i
  {
    if i < |s| && In(k, s[i]) then 1 + Run(s, i + 1, k) else 0
  }

  /** Digit runs are digit strings, so `parseInt` applies to them. */
  lemma DigitRun(s: string, i: nat)
    requires i <= |s|
    ensures i + Run(s, i, Digit) <= |s|
    ensures AllDigits(s[i..i + Run(s, i, Digit)])
  {
    var n := Run(s, i, Digit);
    assert forall j :: i <= j < i + n ==> In(Digit, s[j]);
  }

  /** `(\d+)\/(\d+)` at position `i`: runs, wickets and the position just after the wickets. */
  datatype Fraction = Fraction(runs: nat, wickets: nat, end: nat)

  function FractionAt(s: string, i: nat): (r: Option<Fraction>)
    requires i <= |s|
    ensures r.Some? ==> i < r.value.end <= |s|
  {
    var a := Run(s, i, Digit);
    var j := i + a;
    if a == 0 || j >= |s| || s[j] != '/' then None
    else
      var b := Run(s, j + 1, Digit);
      var k := j + 1 + b;
      if b == 0 then None
      else
        DigitRun(s, i);
        DigitRun(s, j + 1);
        Some(Fraction(Value(s[i..j]), Value(s[j + 1..k]), k))
  }

  /** `\s*\(([\d.]+)\s*Ov\)` at position `k`: the overs text. */
  function OversAt(s: string, k: nat): Option<string>
    requires k <= |s|
  {
    var l := k + Run(s, k, Space);
    if l >= |s| || s[l] != '(' then None
    else
      var o := Run(s, l + 1, OversChar);
      var m := l + 1 + o;
      var q := m + Run(s, m, Space);
      if o == 0 || q + 3 > |s| || s[q..q + 3] != "Ov)" then None
      else Some(s[l + 1..m])
  }

  /** The match of pattern `p` that starts exactly at position `i`, if any. */
  function MatchAt(s: string, i: nat, p: Pattern): (r: Option<CricketScore>)
    requires i <= |s|
    ensures r.Some? && p == Plain ==> r.value.overs == ""
  {
    match FractionAt(s, i)
    case None => None
    case Some(f) =>
      if p == Plain then Some(CricketScore(f.runs, f.wickets, ""))
      else
        match OversAt(s, f.end)
        case None => None
        case Some(o) => Some(CricketScore(f.runs, f.wickets, o))
  }

  /** The first `Some` among `m(i), m(i + 1), ..., m(n)`: a leftmost-match search. */
  function FirstOf<T>(m: nat -> Option<T>, i: nat, n: nat): Option<T>
    requires i <= n
    decreases n - i
  {
    if m(i).Some? || i == n then m(i) else FirstOf(m, i + 1, n)
  }

  lemma {:induction false} FirstOfFound<T>(m: nat -> Option<T>, i: nat, n: nat)
    requires i <= n
    ensures FirstOf(m, i, n).Some? ==>
      exists t :: i <= t <= n && m(t) == FirstOf(m, i, n) && forall u :: i <= u < t ==> m(u).None?
    ensures FirstOf(m, i, n).None? ==> forall t :: i <= t <= n ==> m(t).None?
    decreases n - i
  {
    if m(i).None? && i < n {
      FirstOfFound(m, i + 1, n);
    }
  }

  lemma {:induction false} FirstOfSkips<T>(m: nat -> Option<T>, i: nat, t: nat, n: nat)
    requires i <= t <= n
    requires forall u :: i <= u < t ==> m(u).None?
    ensures FirstOf(m, i, n) == FirstOf(m, t, n)
    decreases t - i
  {
    if i < t {
      FirstOfSkips(m, i + 1, t, n);
    }
  }

  /** `MatchAt` as a function of the start position. */
  function Matcher(s: string, p: Pattern): nat -> Option<CricketScore>
  {
    (t: nat) => if t <= |s| then MatchAt(s, t, p) else None
  }

  /** `scoreStr.match(p)`: the leftmost match of `p` in `s`. */
  function FirstMatch(s: string, p: Pattern): Option<CricketScore>
  {
    FirstOf(Matcher(s, p), 0, |s|)
  }

  /** `parseCricAPIScore(scoreStr)` */
  function ParseCricAPIScore(s: string): (r: CricketScore)
    ensures s == "" ==> r == NoScore
  {
    if s == "" then NoScore
    else
      match FirstMatch(s, WithOvers)
      case Some(x) => x
      case None =>
        match FirstMatch(s, Plain)
        case Some(x) => x
        case None => NoScore
  }

  /** Position `i` is where the leftmost match of `p` in `s` starts. */
  ghost predicate LeftmostAt(s: string, i: nat, p: Pattern)
  {
    i <= |s| && MatchAt(s, i, p).Some? && forall t :: 0 <= t < i ==> MatchAt(s, t, p).None?
  }

  /** No substring of `s` matches `p`. */
  ghost predicate NoMatch(s: string, p: Pattern)
  {
    forall i :: 0 <= i <= |s| ==> MatchAt(s, i, p).None?
  }

  /** The search finds the leftmost match, and finds none only when there is none. */
  lemma FirstMatchFound(s: string, p: Pattern)
    ensures FirstMatch(s, p).Some? ==> exists t :: LeftmostAt(s, t, p) && MatchAt(s, t, p) == FirstMatch(s, p)
    ensures FirstMatch(s, p).None? ==> NoMatch(s, p)
  {
    var m := Matcher(s, p);
    FirstOfFound(m, 0, |s|);
    if FirstMatch(s, p).Some? {
      var t :| 0 <= t <= |s| && m(t) == FirstOf(m, 0, |s|) && forall u :: 0 <= u < t ==> m(u).None?;
      assert forall u :: 0 <= u < t ==> MatchAt(s, u, p) == m(u);
      assert LeftmostAt(s, t, p);
    } else {
      assert forall u :: 0 <= u <= |s| ==> MatchAt(s, u, p) == m(u);
    }
  }

  /** A match at the leftmost position is the one the search returns. */
  lemma FirstMatchLeftmost(s: string, i: nat, p: Pattern)
    requires LeftmostAt(s, i, p)
    ensures FirstMatch(s, p) == MatchAt(s, i, p)
  {
    var m := Matcher(s, p);
    assert forall u :: 0 <= u < i ==> m(u) == MatchAt(s, u, p);
    FirstOfSkips(m, 0, i, |s|);
    assert m(i) == MatchAt(s, i, p);
  }

  /** The pattern with overs matches only where the plain pattern does. */
  lemma WithOversImpliesPlain(s: string, i: nat)
    requires i <= |s|
    requires MatchAt(s, i, WithOvers).Some?
    ensures MatchAt(s, i, Plain).Some?
    ensures MatchAt(s, i, Plain).value.runs == MatchAt(s, i, WithOvers).value.runs
    ensures MatchAt(s, i, Plain).value.wickets == MatchAt(s, i, WithOvers).value.wickets
  {
  }

  /**
   * What the parser returns, case by case: the leftmost match with overs if
   * there is one; otherwise the leftmost `R/W`, with empty overs; otherwise
   * zeros.
   */
  lemma ParseCases(s: string)
    ensures s == "" ==> ParseCricAPIScore(s) == NoScore
    ensures s != "" && !NoMatch(s, WithOvers) ==>
      exists i :: LeftmostAt(s, i, WithOvers) && ParseCricAPIScore(s) == MatchAt(s, i, WithOvers).value
    ensures s != "" && NoMatch(s, WithOvers) && !NoMatch(s, Plain) ==>
      exists i :: LeftmostAt(s, i, Plain) && ParseCricAPIScore(s) == MatchAt(s, i, Plain).value &&
        ParseCricAPIScore(s).overs == ""
    ensures NoMatch(s, Plain) ==> ParseCricAPIScore(s) == NoScore
  {
    FirstMatchFound(s, WithOvers);
    FirstMatchFound(s, Plain);
    if NoMatch(s, Plain) && !NoMatch(s, WithOvers) {
      var i :| 0 <= i <= |s| && MatchAt(s, i, WithOvers).Some?;
      WithOversImpliesPlain(s, i);
    }
  }

  /** The leftmost occurrence of `R/W (O Ov)` decides the result, whatever follows it. */
  lemma LeftmostWithOversWins(s: string, i: nat)
    requires LeftmostAt(s, i, WithOvers)
    ensures ParseCricAPIScore(s) == MatchAt(s, i, WithOvers).value
  {
    FirstMatchLeftmost(s, i, WithOvers);
  }

  /** Without a digit on both sides of some `/`, the result is all zeros. */
  lemma NoSlashBetweenDigits(s: string)
    requires forall k :: 0 < k < |s| - 1 && s[k] == '/' ==> !(IsDigit(s[k - 1]) && IsDigit(s[k + 1]))
    ensures ParseCricAPIScore(s) == NoScore
  {
    forall i | 0 <= i <= |s| ensures MatchAt(s, i, Plain).None? {
      var a := Run(s, i, Digit);
      var j := i + a;
      if a > 0 && j < |s| && s[j] == '/' {
        assert In(Digit, s[j - 1]);
        assert Run(s, j + 1, Digit) == 0;
      }
    }
    ParseCases(s);
  }

  /** The text the CricAPI feed sends for a score with overs. */
  function Format(x: CricketScore): string
  {
    Show(x.runs) + "/" + Show(x.wickets) + " (" + x.overs + " Ov)"
  }

  /** The text the CricAPI feed sends for a score without overs. */
  function FormatPlain(runs: nat, wickets: nat): string
  {
    Show(runs) + "/" + Show(wickets)
  }

  predicate ValidOvers(o: string)
  {
    o != "" && forall i :: 0 <= i < |o| ==> In(OversChar, o[i])
  }

  /** A run of class `k` that stops where the text says it stops has that length. */
  lemma RunIs(s: string, i: nat, n: nat, k: CharClass)
    requires i + n <= |s|
    requires forall t :: i <= t < i + n ==> In(k, s[t])
    requires i + n == |s| || !In(k, s[i + n])
    ensures Run(s, i, k) == n
  {
  }

  /** A run of class `k` that reads `w` and then stops has the length of `w`. */
  lemma RunReads(s: string, i: nat, w: string, k: CharClass)
    requires i + |w| <= |s| && s[i..i + |w|] == w
    requires forall t :: 0 <= t < |w| ==> In(k, w[t])
    requires i + |w| == |s| || !In(k, s[i + |w|])
    ensures Run(s, i, k) == |w|
  {
    assert forall t :: i <= t < i + |w| ==> s[t] == w[t - i];
    RunIs(s, i, |w|, k);
  }

  /** Position `i` of `s` begins `r/w` for non-empty digit strings `r` and `w`. */
  lemma FractionAtDigits(s: string, i: nat, r: string, w: string)
    requires r != [] && w != [] && AllDigits(r) && AllDigits(w)
    requires i + |r| + 1 + |w| <= |s|
    requires s[i..i + |r|] == r && s[i + |r|] == '/' && s[i + |r| + 1..i + |r| + 1 + |w|] == w
    requires i + |r| + 1 + |w| == |s| || !IsDigit(s[i + |r| + 1 + |w|])
    ensures FractionAt(s, i) == Some(Fraction(Value(r), Value(w), i + |r| + 1 + |w|))
  {
    RunReads(s, i, r, Digit);
    RunReads(s, i + |r| + 1, w, Digit);
    FractionAtRuns(s, i, r, w);
  }

  /** `FractionAt` once both digit runs are known to read `r` and `w`. */
  lemma FractionAtRuns(s: string, i: nat, r: string, w: string)
    requires r != [] && w != [] && AllDigits(r) && AllDigits(w)
    requires i + |r| + 1 + |w| <= |s|
    requires s[i..i + |r|] == r && s[i + |r|] == '/' && s[i + |r| + 1..i + |r| + 1 + |w|] == w
    requires Run(s, i, Digit) == |r| && Run(s, i + |r| + 1, Digit) == |w|
    ensures FractionAt(s, i) == Some(Fraction(Value(r), Value(w), i + |r| + 1 + |w|))
  {
  }

  /** Position `i` of `s` begins `R/W` written out in decimal. */
  lemma FractionAtFormat(s: string, i: nat, runs: nat, wickets: nat)
    requires i + |FormatPlain(runs, wickets)| <= |s|
    requires s[i..i + |FormatPlain(runs, wickets)|] == FormatPlain(runs, wickets)
    requires i + |FormatPlain(runs, wickets)| == |s| || !IsDigit(s[i + |FormatPlain(runs, wickets)|])
    ensures FractionAt(s, i) == Some(Fraction(runs, wickets, i + |FormatPlain(runs, wickets)|))
  {
    var r, w := Show(runs), Show(wickets);
    var f := FormatPlain(runs, wickets);
    var j := i + |r|;
    var k := j + 1 + |w|;
    assert f == r + "/" + w;
    assert s[i..k] == f;
    assert s[i..j] == f[..|r|];
    assert s[j] == f[|r|];
    assert s[j + 1..k] == f[|r| + 1..];
    FractionAtDigits(s, i, r, w);
    ValueShow(runs);
    ValueShow(wickets);
  }

  /** Position `k` of `s` begins ` (O Ov)`. */
  lemma OversAtFormat(s: string, k: nat, overs: string)
    requires ValidOvers(overs)
    requires k + |" (" + overs + " Ov)"| <= |s|
    requires s[k..k + |" (" + overs + " Ov)"|] == " (" + overs + " Ov)"
    ensures OversAt(s, k) == Some(overs)
  {
    var m := k + 2 + |overs|;
    assert s[k] == ' ' && s[k + 1] == '(' && s[m] == ' ' && s[m + 1..m + 4] == "Ov)" && s[k + 2..m] == overs by {
      assert forall t :: k + 2 <= t < m ==> s[t] == overs[t - k - 2];
    }
    OversAtParts(s, k, overs);
  }

  /** The pieces of ` (O Ov)` at position `k`, one by one. */
  lemma OversAtParts(s: string, k: nat, overs: string)
    requires ValidOvers(overs)
    requires k + |overs| + 6 <= |s|
    requires s[k] == ' ' && s[k + 1] == '(' && s[k + 2..k + 2 + |overs|] == overs
    requires s[k + 2 + |overs|] == ' ' && s[k + 3 + |overs|..k + 6 + |overs|] == "Ov)"
    ensures OversAt(s, k) == Some(overs)
  {
    var m := k + 2 + |overs|;
    RunIs(s, k, 1, Space);
    assert s[m + 1] == 'O';
    RunReads(s, k + 2, overs, OversChar);
    RunIs(s, m, 1, Space);
    OversAtRuns(s, k, overs);
  }

  /** `OversAt` once the lengths of its three runs are known. */
  lemma OversAtRuns(s: string, k: nat, overs: string)
    requires overs != "" && k + |overs| + 6 <= |s|
    requires Run(s, k, Space) == 1 && s[k + 1] == '('
    requires Run(s, k + 2, OversChar) == |overs| && s[k + 2..k + 2 + |overs|] == overs
    requires Run(s, k + 2 + |overs|, Space) == 1 && s[k + 3 + |overs|..k + 6 + |overs|] == "Ov)"
    ensures OversAt(s, k) == Some(overs)
  {
  }

  /** Reading back a formatted score gives the score, whatever text follows it. */
  lemma ParseFormat(x: CricketScore, rest: string)
    requires ValidOvers(x.overs)
    ensures ParseCricAPIScore(Format(x) + rest) == x
  {
    var s := Format(x) + rest;
    var plain := FormatPlain(x.runs, x.wickets);
    var tail := " (" + x.overs + " Ov)";
    var k := |plain|;
    var after := tail + rest;
    assert s == plain + after;
    assert s[0..k] == plain;
    assert s[k..] == after;
    assert after[..|tail|] == tail;
    assert s[k..k + |tail|] == tail;
    assert s[k] == tail[0] == ' ';
    ParseFormatAt(s, x);
  }

  lemma ParseFormatAt(s: string, x: CricketScore)
    requires ValidOvers(x.overs)
    requires var k, tail := |FormatPlain(x.runs, x.wickets)|, " (" + x.overs + " Ov)";
      k + |tail| <= |s| && s[0..k] == FormatPlain(x.runs, x.wickets) && s[k..k + |tail|] == tail
    ensures ParseCricAPIScore(s) == x
  {
    var k := |FormatPlain(x.runs, x.wickets)|;
    assert s[k] == ' ';
    FractionAtFormat(s, 0, x.runs, x.wickets);
    OversAtFormat(s, k, x.overs);
    ParseParts(s, k, x);
  }

  /** A match with overs at the very start of the text is the result. */
  lemma ParseParts(s: string, k: nat, x: CricketScore)
    requires k <= |s| && FractionAt(s, 0) == Some(Fraction(x.runs, x.wickets, k)) && OversAt(s, k) == Some(x.overs)
    ensures ParseCricAPIScore(s) == x
  {
    assert MatchAt(s, 0, WithOvers) == Some(x);
    LeftmostWithOversWins(s, 0);
  }

  /** Reading back `R/W` gives runs R, wickets W and empty overs. */
  lemma ParseFormatPlain(runs: nat, wickets: nat)
    ensures ParseCricAPIScore(FormatPlain(runs, wickets)) == CricketScore(runs, wickets, "")
  {
    var s := FormatPlain(runs, wickets);
    assert s[0..|s|] == s;
    FractionAtFormat(s, 0, runs, wickets);
    FormatPlainHasNoParenthesis(runs, wickets);
    forall i | 0 <= i <= |s| ensures MatchAt(s, i, WithOvers).None? {
      NoParenthesis(s, i);
    }
    FirstMatchFound(s, WithOvers);
    assert LeftmostAt(s, 0, Plain);
    FirstMatchLeftmost(s, 0, Plain);
  }

  /** A match with overs needs a `(`, which `R/W` does not contain. */
  lemma NoParenthesis(s: string, i: nat)
    requires i <= |s|
    requires forall t :: 0 <= t < |s| ==> s[t] != '('
    ensures MatchAt(s, i, WithOvers).None?
  {
  }

  lemma FormatPlainHasNoParenthesis(runs: nat, wickets: nat)
    ensures forall t :: 0 <= t < |FormatPlain(runs, wickets)| ==> FormatPlain(runs, wickets)[t] != '('
  {
    var s := FormatPlain(runs, wickets);
    var r := Show(runs);
    forall t | 0 <= t < |s| ensures s[t] != '(' {
      if t < |r| {
        assert IsDigit(r[t]);
      } else if t > |r| {
        assert IsDigit(Show(wickets)[t - |r| - 1]);
      }
    }
  }

  /** "186/4 (20 Ov)" reads as 186 runs, 4 wickets, 20 overs. */
  lemma Example186For4()
    ensures ParseCricAPIScore("186/4 (20 Ov)") == CricketScore(186, 4, "20")
  {
    assert Show(186) == "186" && Show(4) == "4";
    assert Format(CricketScore(186, 4, "20")) + "" == "186/4 (20 Ov)";
    ParseFormat(CricketScore(186, 4, "20"), "");
  }

  /** "142/10" reads as 142 runs, 10 wickets and no overs. */
  lemma Example142For10()
    ensures ParseCricAPIScore("142/10") == CricketScore(142, 10, "")
  {
    assert Show(142) == "142" && Show(10) == "10";
    assert FormatPlain(142, 10) == "142/10";
    ParseFormatPlain(142, 10);
  }

  /** "garbage" reads as zeros. */
  lemma ExampleGarbage()
    ensures ParseCricAPIScore("garbage") == NoScore
  {
    NoSlashBetweenDigits("garbage");
  }
}
