/**
 * Scoring GSM8K generations read from a lighteval cache
 * (week7/Intuitor/evaluate_from_cache.py): pulling an answer out of a
 * `\boxed{...}` or `#### ...` tail, normalising it to a canonical number
 * and counting correct answers against the gold ones.
 */
module EvaluateFromCache {
  import opened Common

  /** A one-character occurrence is that character at that index. */
  lemma OccursAtChar(s: string, c: char, k: int)
    ensures OccursAt(s, [c], k) <==> 0 <= k < |s| && s[k] == c
  {
    if 0 <= k < |s| {
      assert s[k..k + 1] == [s[k]];
    }
  }

  // ---------------------------------------------------------------------
  // `\boxed{...}` answers

  /** The literal that the pattern `\\boxed\{([^}]+)\}` starts with. */
  const BoxedOpen: string := "\\boxed{"

  /** The captured group when the boxed pattern matches at index `i`: one or
      more characters other than `}` between `\boxed{` and the next `}`. */
  function BoxedGroupAt(text: string, i: nat): Option<string> {
    if !OccursAt(text, BoxedOpen, i) then None
    else match Find(text, "}", i + |BoxedOpen|)
      case None => None
      case Some(j) =>
        if j == i + |BoxedOpen| then None else Some(text[i + |BoxedOpen|..j])
  }

  /** The pattern matches at `i` with group `g` exactly when `\boxed{`, then
      `g` (non-empty, no `}`), then `}` occur there. */
  lemma BoxedGroupMeaning(text: string, i: nat, g: string)
    ensures BoxedGroupAt(text, i) == Some(g)
        <==> |g| >= 1 && '}' !in g && OccursAt(text, BoxedOpen + g + "}", i)
  {
    OccursConcat(text, BoxedOpen, g, i);
    OccursConcat(text, BoxedOpen + g, "}", i);
    OccursAtChar(text, '}', i + |BoxedOpen| + |g|);
    if BoxedGroupAt(text, i) == Some(g) {
      BoxedGroupFound(text, i);
    }
    if |g| >= 1 && '}' !in g && OccursAt(text, BoxedOpen + g + "}", i) {
      BoxedGroupClosed(text, i, g);
    }
  }

  lemma BoxedGroupFound(text: string, i: nat)
    requires BoxedGroupAt(text, i).Some?
    ensures var g := BoxedGroupAt(text, i).value;
      && |g| >= 1 && '}' !in g
      && OccursAt(text, BoxedOpen, i) && OccursAt(text, g, i + |BoxedOpen|)
      && i + |BoxedOpen| + |g| < |text| && text[i + |BoxedOpen| + |g|] == '}'
  {
    var o := |BoxedOpen|;
    var j := Find(text, "}", i + o).value;
    var g := text[i + o..j];
    OccursAtChar(text, '}', j);
    FindFirst(text, "}", i + o);
    forall m | 0 <= m < |g|
      ensures g[m] != '}'
    {
      OccursAtChar(text, '}', i + o + m);
    }
  }

  lemma BoxedGroupClosed(text: string, i: nat, g: string)
    requires |g| >= 1 && '}' !in g
    requires OccursAt(text, BoxedOpen, i) && OccursAt(text, g, i + |BoxedOpen|)
    requires i + |BoxedOpen| + |g| < |text| && text[i + |BoxedOpen| + |g|] == '}'
    ensures BoxedGroupAt(text, i) == Some(g)
  {
    var o := |BoxedOpen|;
    var e := i + o + |g|;
    OccursAtChar(text, '}', e);
    forall m | i + o <= m < e
      ensures !OccursAt(text, "}", m)
    {
      assert text[m] == text[i + o..e][m - i - o];
      OccursAtChar(text, '}', m);
    }
    FindFirst(text, "}", i + o);
    assert Find(text, "}", i + o) == Some(e);
  }

  /** The leftmost index at or after `from` where the boxed pattern matches,
      as `re.search` finds it. */
  function BoxedMatch(text: string, from: nat): (r: Option<nat>)
    ensures r.Some? ==> from <= r.value && BoxedGroupAt(text, r.value).Some?
    ensures r.Some? ==> forall i :: from <= i < r.value ==> BoxedGroupAt(text, i).None?
    ensures r.None? ==> forall i :: from <= i ==> BoxedGroupAt(text, i).None?
    decreases |text| - from
  {
    if from + |BoxedOpen| > |text| then None
    else if BoxedGroupAt(text, from).Some? then Some(from)
    else BoxedMatch(text, from + 1)
  }

  /** `extract_answer_from_boxed`: the stripped group of the leftmost match. */
  function ExtractBoxed(text: string): (r: Option<string>)
    ensures r.Some? ==> '}' !in r.value
  {
    if text == "" then None
    else match BoxedMatch(text, 0)
      case None => None
      case Some(i) =>
        var g := BoxedGroupAt(text, i).value;
        BoxedGroupMeaning(text, i, g);
        TrimKeepsOut(g, PyIsSpace, '}');
        Some(PyStrip(g))
  }

  /** The leftmost `\boxed{g}` (g non-empty, without `}`) gives `g` stripped. */
  lemma ExtractBoxedFound(text: string, i: nat, g: string)
    requires |g| >= 1 && '}' !in g && OccursAt(text, BoxedOpen + g + "}", i)
    requires forall k :: 0 <= k < i ==> BoxedGroupAt(text, k).None?
    ensures ExtractBoxed(text) == Some(PyStrip(g))
  {
    BoxedGroupMeaning(text, i, g);
  }

  /** No answer comes out of a text without any `\boxed{g}`. */
  lemma ExtractBoxedAbsent(text: string)
    ensures ExtractBoxed(text).None? <==>
      forall i: nat, g: string :: |g| >= 1 && '}' !in g ==> !OccursAt(text, BoxedOpen + g + "}", i)
  {
    if ExtractBoxed(text).None? {
      forall i: nat, g: string | |g| >= 1 && '}' !in g
        ensures !OccursAt(text, BoxedOpen + g + "}", i)
      {
        BoxedGroupMeaning(text, i, g);
        if text == "" {
          assert |BoxedOpen + g + "}"| > 0;
        }
      }
    } else {
      var i := BoxedMatch(text, 0).value;
      var g := BoxedGroupAt(text, i).value;
      BoxedGroupMeaning(text, i, g);
    }
  }

  // ---------------------------------------------------------------------
  // `#### ...` answers

  const Marker: string := "####"

  /** `extract_answer_from_gsm8k_format`: the stripped text after the first
      `####`, up to the next one. */
  function ExtractGsm8k(text: string): Option<string> {
    if text == "" || !Contains(text, Marker) then None
    else Some(PyStrip(SecondPiece(text, Marker)))
  }

  /** The answer is `text.split("####")[1].strip()` when the marker occurs,
      and there is none otherwise. */
  lemma ExtractGsm8kSplit(text: string)
    ensures Contains(text, Marker) ==> |Split(text, Marker)| >= 2
    ensures ExtractGsm8k(text) ==
      if text != "" && Contains(text, Marker) then Some(PyStrip(Split(text, Marker)[1]))
      else None
  {
    if Contains(text, Marker) {
      SplitSecond(text, Marker);
    }
  }

  // ---------------------------------------------------------------------
  // Number normalisation

  /** Deleting a piece without digits keeps a text's digits. */
  predicate NoDigit(s: string) {
    forall k :: 0 <= k < |s| ==> !IsDigit(s[k])
  }

  lemma NoDigitAppend(a: string, b: string)
    ensures NoDigit(a + b) <==> NoDigit(a) && NoDigit(b)
  {
    forall k | 0 <= k < |a|
      ensures a[k] == (a + b)[k]
    {
    }
    forall k | 0 <= k < |b|
      ensures b[k] == (a + b)[|a| + k]
    {
    }
  }

  lemma {:induction false} ReplaceKeepsDigits(s: string, t: string)
    requires |t| > 0 && NoDigit(t)
    ensures NoDigit(ReplaceAll(s, t, "")) <==> NoDigit(s)
    decreases |s|
  {
    if |s| >= |t| {
      if s[..|t|] == t {
        ReplaceKeepsDigits(s[|t|..], t);
        assert "" + ReplaceAll(s[|t|..], t, "") == ReplaceAll(s[|t|..], t, "");
        NoDigitAppend(s[..|t|], s[|t|..]);
        assert s[..|t|] + s[|t|..] == s;
      } else {
        ReplaceKeepsDigits(s[1..], t);
        NoDigitAppend([s[0]], ReplaceAll(s[1..], t, ""));
        NoDigitAppend([s[0]], s[1..]);
        assert [s[0]] + s[1..] == s;
      }
    }
  }

  /** The LaTeX thin spaces, `\text` commands, braces, commas and spaces
      that are deleted, in this order, before a number is looked for. */
  function Cleaned(text: string): string {
    var a := ReplaceAll(text, "\\,", "");
    var b := ReplaceAll(a, "\\text", "");
    var c := ReplaceAll(ReplaceAll(b, "{", ""), "}", "");
    ReplaceAll(ReplaceAll(c, ",", ""), " ", "")
  }

  /** Cleaning leaves no brace, comma or space and keeps every digit there
      was. */
  lemma CleanedShape(text: string)
    ensures var c := Cleaned(text);
      && '{' !in c && '}' !in c && ',' !in c && ' ' !in c
      && (NoDigit(c) <==> NoDigit(text))
  {
    var a := ReplaceAll(text, "\\,", "");
    var b := ReplaceAll(a, "\\text", "");
    var b1 := ReplaceAll(b, "{", "");
    var c := ReplaceAll(b1, "}", "");
    var d := ReplaceAll(c, ",", "");
    var e := ReplaceAll(d, " ", "");
    ReplaceKeepsDigits(text, "\\,");
    ReplaceKeepsDigits(a, "\\text");
    ReplaceKeepsDigits(b, "{");
    ReplaceKeepsDigits(b1, "}");
    ReplaceKeepsDigits(c, ",");
    ReplaceKeepsDigits(d, " ");
    ReplaceCharGone(b, '{', "");
    ReplaceAllKeepsOut(b1, "}", "", '{');
    ReplaceAllKeepsOut(c, ",", "", '{');
    ReplaceAllKeepsOut(d, " ", "", '{');
    ReplaceCharGone(b1, '}', "");
    ReplaceAllKeepsOut(c, ",", "", '}');
    ReplaceAllKeepsOut(d, " ", "", '}');
    ReplaceCharGone(c, ',', "");
    ReplaceAllKeepsOut(d, " ", "", ',');
    ReplaceCharGone(d, ' ', "");
  }

  /** A text made of digits, `-` and `.` is left as it is by cleaning. */
  predicate NumberChars(s: string) {
    forall k :: 0 <= k < |s| ==> IsDigit(s[k]) || s[k] == '-' || s[k] == '.'
  }

  lemma CleanedKeepsNumber(s: string)
    requires NumberChars(s)
    ensures Cleaned(s) == s
  {
    ReplaceAllAbsent(s, "\\,", "");
    ReplaceAllAbsent(s, "\\text", "");
    ReplaceAllAbsent(s, "{", "");
    ReplaceAllAbsent(s, "}", "");
    ReplaceAllAbsent(s, ",", "");
    ReplaceAllAbsent(s, " ", "");
  }

  /** What the pattern `-?\d+\.?\d*` read: a sign, the integer digits, a
      point and the fraction digits. */
  datatype Numeral = Numeral(negative: bool, whole: string, point: bool, frac: string)

  predicate WellFormed(n: Numeral) {
    |n.whole| >= 1 && AllDigits(n.whole) && AllDigits(n.frac) && (!n.point ==> n.frac == "")
  }

  /** The matched text (`match.group(0)`). */
  function Spelling(n: Numeral): string {
    (if n.negative then "-" else "") + n.whole + (if n.point then "." else "") + n.frac
  }

  /** A match of the pattern can start at `k`: a digit, or `-` then a digit. */
  predicate StartsNumeral(s: string, k: int) {
    0 <= k < |s| && (IsDigit(s[k]) || (s[k] == '-' && k + 1 < |s| && IsDigit(s[k + 1])))
  }

  /** The end of the run of digits that starts at `i` (greedy `\d*`). */
  function DigitRunEnd(s: string, i: nat): (j: nat)
    requires i <= |s|
    ensures i <= j <= |s|
    ensures forall k :: i <= k < j ==> IsDigit(s[k])
    ensures j == |s| || !IsDigit(s[j])
    decreases |s| - i
  {
    if i < |s| && IsDigit(s[i]) then DigitRunEnd(s, i + 1) else i
  }

  /** The first digit at or after `from`. */
  function FirstDigit(s: string, from: nat): (r: Option<nat>)
    ensures r.Some? ==> from <= r.value < |s| && IsDigit(s[r.value])
    ensures forall k :: from <= k < |s| && (r.None? || k < r.value) ==> !IsDigit(s[k])
    decreases |s| - from
  {
    if from >= |s| then None
    else if IsDigit(s[from]) then Some(from)
    else FirstDigit(s, from + 1)
  }

  /** The match that the first digit, at `d`, starts: a `-` just before it,
      the digits from `d` on, then a point and the digits after it. */
  function ReadAt(s: string, d: nat): (r: (nat, Numeral))
    requires d < |s| && IsDigit(s[d])
    ensures WellFormed(r.1)
  {
    var neg := d > 0 && s[d - 1] == '-';
    var w := DigitRunEnd(s, d);
    var point := w < |s| && s[w] == '.';
    var frac := if point then s[w + 1..DigitRunEnd(s, w + 1)] else "";
    (if neg then d - 1 else d, Numeral(neg, s[d..w], point, frac))
  }

  /** `re.search(r'-?\d+\.?\d*', s)`: where the leftmost match starts and what
      it read, each part as long as it can be. */
  function SearchNumeral(s: string): (r: Option<(nat, Numeral)>)
    ensures r.Some? ==> WellFormed(r.value.1)
  {
    match FirstDigit(s, 0)
    case None => None
    case Some(d) => Some(ReadAt(s, d))
  }

  /** There is a match exactly when there is a digit; it is spelled out at
      its start, no match starts earlier, and each part is as long as it
      can be. */
  lemma SearchNumeralMeaning(s: string)
    ensures SearchNumeral(s).None? <==> NoDigit(s)
    ensures SearchNumeral(s).Some? ==>
      var (start, n) := SearchNumeral(s).value;
      var e := start + |Spelling(n)|;
      && OccursAt(s, Spelling(n), start)
      && (forall k :: 0 <= k < start ==> !StartsNumeral(s, k))
      && (e == |s| || !IsDigit(s[e]))
      && (!n.point ==> e == |s| || s[e] != '.')
  {
    if FirstDigit(s, 0).Some? {
      var d := FirstDigit(s, 0).value;
      ReadAtSpelled(s, d);
      SearchLeftmost(s);
    }
  }

  lemma ReadAtSpelled(s: string, d: nat)
    requires d < |s| && IsDigit(s[d])
    ensures var r := ReadAt(s, d);
      var e := r.0 + |Spelling(r.1)|;
      && OccursAt(s, Spelling(r.1), r.0)
      && (e == |s| || !IsDigit(s[e]))
      && (!r.1.point ==> e == |s| || s[e] != '.')
  {
    var r := ReadAt(s, d);
    ReadAtFacts(s, d, r.0, r.1);
  }

  /** The facts of ReadAtSpelled for the start and numeral read. */
  lemma ReadAtFacts(s: string, d: nat, start: nat, n: Numeral)
    requires d < |s| && IsDigit(s[d]) && ReadAt(s, d) == (start, n)
    ensures OccursAt(s, Spelling(n), start)
    ensures start + |Spelling(n)| == |s| || !IsDigit(s[start + |Spelling(n)|])
    ensures !n.point ==> start + |Spelling(n)| == |s| || s[start + |Spelling(n)|] != '.'
  {
    ReadAtOccurs(s, d, start, n);
    SpellingLength(n);
    ReadAtEnds(s, d, start, n);
  }

  /** The numeral read at `d` is spelled out from its start. */
  lemma ReadAtOccurs(s: string, d: nat, start: nat, n: Numeral)
    requires d < |s| && IsDigit(s[d]) && ReadAt(s, d) == (start, n)
    ensures OccursAt(s, Spelling(n), start)
  {
    var neg := d > 0 && s[d - 1] == '-';
    var w := DigitRunEnd(s, d);
    if w < |s| && s[w] == '.' {
      var f := DigitRunEnd(s, w + 1);
      SpelledAt(s, start, d, w, f, neg, true, n.whole, n.frac);
    } else {
      SpelledAt(s, start, d, w, w, neg, false, n.whole, n.frac);
    }
  }

  /** What follows the numeral read at `d` is no digit, and no dot when it
      has no fraction. */
  lemma ReadAtEnds(s: string, d: nat, start: nat, n: Numeral)
    requires d < |s| && IsDigit(s[d]) && ReadAt(s, d) == (start, n)
    ensures var e := start + (if n.negative then 1 else 0) + |n.whole| + (if n.point then 1 else 0) + |n.frac|;
      && e <= |s|
      && (e == |s| || !IsDigit(s[e]))
      && (!n.point ==> e == |s| || s[e] != '.')
  {
    var w := DigitRunEnd(s, d);
    if w < |s| && s[w] == '.' {
      var f := DigitRunEnd(s, w + 1);
      assert |n.frac| == f - w - 1;
    }
  }

  lemma SpellingLength(n: Numeral)
    ensures |Spelling(n)| == (if n.negative then 1 else 0) + |n.whole| + (if n.point then 1 else 0) + |n.frac|
  {
  }

  /** The pieces a match is read from spell it out where it starts. */
  lemma SpelledAt(s: string, start: nat, d: nat, w: nat, f: nat, neg: bool, point: bool, whole: string, frac: string)
    requires d <= w <= |s| && whole == s[d..w]
    requires start == (if neg then d - 1 else d) && (neg ==> 0 < d && s[d - 1] == '-')
    requires point ==> w < |s| && s[w] == '.' && w + 1 <= f <= |s| && frac == s[w + 1..f]
    requires !point ==> f == w && frac == ""
    ensures OccursAt(s, Spelling(Numeral(neg, whole, point, frac)), start)
  {
    var sign := if neg then "-" else "";
    var dot := if point then "." else "";
    assert OccursAt(s, sign, start) by {
      if neg {
        assert s[d - 1..d] == [s[d - 1]];
      }
    }
    assert OccursAt(s, whole, d);
    assert OccursAt(s, dot, w) by {
      if point {
        assert s[w..w + 1] == [s[w]];
      }
    }
    var l := w + |dot|;
    assert OccursAt(s, frac, l);
    OccursFour(s, start, d, w, l, sign, whole, dot, frac);
  }

  lemma SearchLeftmost(s: string)
    requires FirstDigit(s, 0).Some?
    ensures var r := SearchNumeral(s).value;
      forall k :: 0 <= k < r.0 ==> !StartsNumeral(s, k)
  {
    var d := FirstDigit(s, 0).value;
    var neg := d > 0 && s[d - 1] == '-';
    var start := if neg then d - 1 else d;
    assert SearchNumeral(s).value.0 == start;
    forall k | 0 <= k < start
      ensures !StartsNumeral(s, k)
    {
      assert !IsDigit(s[k]);
      if k + 1 < d {
        assert !IsDigit(s[k + 1]);
      }
    }
  }

  /** Four pieces that occur one after the other occur together. */
  lemma OccursFour(s: string, i: int, j: int, k: int, l: int, a: string, b: string, c: string, d: string)
    requires j == i + |a| && k == j + |b| && l == k + |c|
    requires OccursAt(s, a, i) && OccursAt(s, b, j) && OccursAt(s, c, k) && OccursAt(s, d, l)
    ensures OccursAt(s, a + b + c + d, i)
  {
    OccursConcat(s, a, b, i);
    OccursConcat(s, a + b, c, i);
    OccursConcat(s, a + b + c, d, i);
  }

  /** A concatenation occurs where its first part does, followed by its
      second part. */
  lemma OccursConcat(s: string, a: string, b: string, i: int)
    ensures OccursAt(s, a + b, i) <==> OccursAt(s, a, i) && OccursAt(s, b, i + |a|)
  {
    if 0 <= i && i + |a| + |b| <= |s| {
      var x := s[i..i + |a| + |b|];
      assert x[..|a|] == s[i..i + |a|];
      assert x[|a|..] == s[i + |a|..i + |a| + |b|];
      if x == a + b {
        assert x[..|a|] == a && x[|a|..] == b;
      }
      if x[..|a|] == a && x[|a|..] == b {
        assert x == x[..|a|] + x[|a|..];
      }
    }
  }

  predicate AllZeros(s: string) {
    forall k :: 0 <= k < |s| ==> s[k] == '0'
  }

  /** The fraction digits without trailing zeros. */
  function DropTrailingZeros(s: string): (r: string)
    ensures |r| <= |s| && r == s[..|r|]
    ensures r == [] || r[|r| - 1] != '0'
    ensures forall k :: |r| <= k < |s| ==> s[k] == '0'
    decreases |s|
  {
    if |s| > 0 && s[|s| - 1] == '0' then DropTrailingZeros(s[..|s| - 1]) else s
  }

  /** How `float(num_str)` is printed back: `str(int(num))` when the value is
      an integer, otherwise the shortest decimal, without trailing zeros. */
  function Render(n: Numeral): string
    requires WellFormed(n)
  {
    var w: int := DecimalValue(n.whole);
    if AllZeros(n.frac) then IntToDecimal(if n.negative then -w else w)
    else (if n.negative then "-" else "") + NatToDecimal(w) + "." + DropTrailingZeros(n.frac)
  }

  /** `normalize_number`: the rendering of the first number in the cleaned
      text, or nothing for an empty text or one without a digit. */
  function NormalizeNumber(text: string): Option<string> {
    if text == "" then None
    else match SearchNumeral(Cleaned(text))
      case None => None
      case Some((_, n)) => Some(Render(n))
  }

  /** A result exists exactly when the text holds a digit. */
  lemma NormalizeNumberNone(text: string)
    ensures NormalizeNumber(text).None? <==> NoDigit(text)
  {
    CleanedShape(text);
  }

  // The value a numeral denotes, and why its rendering is canonical.

  function Pow10(m: nat): (p: nat)
    ensures p >= 1
  {
    if m == 0 then 1 else 10 * Pow10(m - 1)
  }

  lemma {:induction false} FractionBelow(s: string)
    requires AllDigits(s)
    ensures DecimalValue(s) < Pow10(|s|)
    ensures DecimalValue(s) == 0 <==> AllZeros(s)
    decreases |s|
  {
    if |s| > 0 {
      var p := s[..|s| - 1];
      FractionBelow(p);
      if DecimalValue(s) == 0 {
        forall k | 0 <= k < |s|
          ensures s[k] == '0'
        {
          if k < |s| - 1 {
            assert s[k] == p[k];
          }
        }
      }
      if AllZeros(s) {
        assert AllZeros(p);
      }
    }
  }

  /** The exact value of a numeral, as a rational number. */
  function Value(n: Numeral): real
    requires WellFormed(n)
  {
    var v := DecimalValue(n.whole) as real + DecimalValue(n.frac) as real / Pow10(|n.frac|) as real;
    if n.negative then -v else v
  }

  predicate IsInteger(x: real) {
    x.Floor as real == x
  }

  lemma QuotientBelowOne(f: nat, p: nat)
    requires f < p
    ensures 0.0 <= f as real / p as real < 1.0
    ensures f as real / p as real == 0.0 <==> f == 0
  {
    var q := f as real / p as real;
    assert q * p as real == f as real;
  }

  lemma FloorOfFraction(w: int, q: real)
    requires 0.0 <= q < 1.0
    ensures (w as real + q).Floor == w
    ensures 0.0 < q ==> (-(w as real + q)).Floor == -w - 1
  {
  }

  /** The integer rendering is taken exactly when the value is an integer
      (`num.is_integer()`), and it spells that integer. */
  lemma RenderInteger(n: Numeral)
    requires WellFormed(n)
    ensures IsInteger(Value(n)) <==> AllZeros(n.frac)
    ensures IsInteger(Value(n)) ==> Render(n) == IntToDecimal(Value(n).Floor)
  {
    var w := DecimalValue(n.whole);
    var f := DecimalValue(n.frac);
    var p := Pow10(|n.frac|);
    FractionBelow(n.frac);
    var q := f as real / p as real;
    QuotientBelowOne(f, p);
    FloorOfFraction(w, q);
    var v := w as real + q;
    assert Value(n) == if n.negative then -v else v;
  }

  /** The characters a spelled numeral is made of. */
  lemma SpellingChars(n: Numeral)
    requires WellFormed(n)
    ensures NumberChars(Spelling(n))
  {
    var sign := if n.negative then "-" else "";
    var dot := if n.point then "." else "";
    var s := Spelling(n);
    assert s == sign + n.whole + dot + n.frac;
    forall k | 0 <= k < |s|
      ensures IsDigit(s[k]) || s[k] == '-' || s[k] == '.'
    {
      if k < |sign| {
        assert s[k] == '-';
      } else if k < |sign| + |n.whole| {
        assert s[k] == n.whole[k - |sign|];
      } else if k < |sign| + |n.whole| + |dot| {
        assert s[k] == '.';
      } else {
        assert s[k] == n.frac[k - |sign| - |n.whole| - |dot|];
      }
    }
  }

  /** The positions of a spelling: its sign, integer digits, point and
      fraction digits. */
  lemma SpellingLayout(n: Numeral)
    requires WellFormed(n)
    ensures var s := Spelling(n);
      var d := if n.negative then 1 else 0;
      var p := d + |n.whole|;
      && |s| == p + (if n.point then 1 else 0) + |n.frac|
      && (n.negative ==> s[0] == '-')
      && (n.point ==> s[p] == '.')
      && s[d..p] == n.whole
      && (n.point ==> s[p + 1..] == n.frac)
  {
    var sign := if n.negative then "-" else "";
    var dot := if n.point then "." else "";
    var s := Spelling(n);
    var head := sign + n.whole;
    var tail := dot + n.frac;
    assert s == head + tail;
    var d := |sign|;
    var p := |head|;
    assert s[..p] == head;
    assert s[p..] == tail;
    assert head[d..] == n.whole;
    assert s[d..p] == n.whole by {
      assert s[d..p] == s[..p][d..];
    }
    if n.point {
      assert tail[1..] == n.frac;
      assert s[p + 1..] == n.frac by {
        assert s[p + 1..] == s[p..][1..];
      }
    }
  }

  lemma DigitsSlice(s: string, a: nat, b: nat)
    requires a <= b <= |s| && AllDigits(s[a..b])
    ensures forall k :: a <= k < b ==> IsDigit(s[k])
  {
    forall k | a <= k < b
      ensures IsDigit(s[k])
    {
      assert s[k] == s[a..b][k - a];
    }
  }

  /** Searching a numeral's own spelling reads that numeral back. */
  lemma SpellingRoundTrip(n: Numeral)
    requires WellFormed(n)
    ensures SearchNumeral(Spelling(n)) == Some((0, n))
  {
    SpellingLayout(n);
    LaidOutReadsBack(Spelling(n), n);
  }

  /** A string laid out as a numeral's sign, digits, dot and fraction
      reads that numeral back. */
  lemma LaidOutReadsBack(s: string, n: Numeral)
    requires WellFormed(n)
    requires var d := if n.negative then 1 else 0;
      var p := d + |n.whole|;
      && |s| == p + (if n.point then 1 else 0) + |n.frac|
      && (n.negative ==> s[0] == '-')
      && (n.point ==> s[p] == '.')
      && s[d..p] == n.whole
      && (n.point ==> s[p + 1..] == n.frac)
    ensures SearchNumeral(s) == Some((0, n))
  {
    var d := if n.negative then 1 else 0;
    var p := d + |n.whole|;
    DigitsSlice(s, d, p);
    FirstDigitAt(s, d);
    RunEndsAt(s, d, p);
    assert (d > 0 && s[d - 1] == '-') == n.negative;
    if n.point {
      DigitsSlice(s, p + 1, |s|);
      RunEndsAt(s, p + 1, |s|);
    } else {
      assert p == |s|;
    }
    assert (p < |s| && s[p] == '.') == n.point;
    ReadAtParts(s, d, p, n.negative, n.point, n.frac);
  }

  /** A digit run from `d` to `w`, maybe a sign before it, and maybe a dot
      followed by digits up to the end: what ReadAt reads there. */
  lemma ReadAtParts(s: string, d: nat, w: nat, neg: bool, point: bool, frac: string)
    requires d < w <= |s| && IsDigit(s[d]) && DigitRunEnd(s, d) == w
    requires neg == (d > 0 && s[d - 1] == '-') && point == (w < |s| && s[w] == '.')
    requires point ==> DigitRunEnd(s, w + 1) == |s| && frac == s[w + 1..]
    requires !point ==> frac == ""
    ensures ReadAt(s, d) == (if neg then d - 1 else d, Numeral(neg, s[d..w], point, frac))
  {
    if point {
      SuffixSlice(s, w + 1);
    }
  }

  lemma FirstDigitAt(s: string, d: nat)
    requires d < |s| && IsDigit(s[d]) && forall k :: 0 <= k < d ==> !IsDigit(s[k])
    ensures FirstDigit(s, 0) == Some(d)
  {
  }

  lemma RunEndsAt(s: string, i: nat, j: nat)
    requires i <= j <= |s| && forall k :: i <= k < j ==> IsDigit(s[k])
    requires j == |s| || !IsDigit(s[j])
    ensures DigitRunEnd(s, i) == j
  {
  }

  /** The numeral that a rendering spells. */
  function Canonical(n: Numeral): Numeral
    requires WellFormed(n)
  {
    var w := DecimalValue(n.whole);
    if AllZeros(n.frac) then Numeral(n.negative && w != 0, NatToDecimal(w), false, "")
    else Numeral(n.negative, NatToDecimal(w), true, DropTrailingZeros(n.frac))
  }

  /** Trailing zeros dropped from a fraction that is not all zeros leave a
      non-empty fraction that has none left to drop. */
  lemma DropTrailingCanonical(f: string)
    requires AllDigits(f) && !AllZeros(f)
    ensures var t := DropTrailingZeros(f);
      |t| >= 1 && AllDigits(t) && !AllZeros(t) && DropTrailingZeros(t) == t
  {
    var t := DropTrailingZeros(f);
    forall k | 0 <= k < |t|
      ensures t[k] == f[k]
    {
    }
  }

  /** A rendering is the spelling of a numeral that renders the same way. */
  lemma CanonicalSpelling(n: Numeral)
    requires WellFormed(n)
    ensures WellFormed(Canonical(n))
    ensures Spelling(Canonical(n)) == Render(n)
    ensures Render(Canonical(n)) == Render(n)
  {
    if AllZeros(n.frac) {
      CanonicalIntegerCase(n);
    } else {
      CanonicalDecimalCase(n);
    }
  }

  lemma CanonicalIntegerCase(n: Numeral)
    requires WellFormed(n) && AllZeros(n.frac)
    ensures WellFormed(Canonical(n))
    ensures Spelling(Canonical(n)) == Render(n)
    ensures Render(Canonical(n)) == Render(n)
  {
    var w := DecimalValue(n.whole);
    var neg := n.negative && w != 0;
    var c := Numeral(neg, NatToDecimal(w), false, "");
    assert Canonical(n) == c;
    assert Render(n) == (if neg then "-" else "") + NatToDecimal(w);
    assert Spelling(c) == (if neg then "-" else "") + NatToDecimal(w);
    DecimalRoundTrip(w);
  }

  lemma CanonicalDecimalCase(n: Numeral)
    requires WellFormed(n) && !AllZeros(n.frac)
    ensures WellFormed(Canonical(n))
    ensures Spelling(Canonical(n)) == Render(n)
    ensures Render(Canonical(n)) == Render(n)
  {
    var w := DecimalValue(n.whole);
    var t := DropTrailingZeros(n.frac);
    var sign := if n.negative then "-" else "";
    var c := Numeral(n.negative, NatToDecimal(w), true, t);
    assert Canonical(n) == c;
    DropTrailingCanonical(n.frac);
    assert Render(n) == sign + NatToDecimal(w) + "." + t;
    assert Spelling(c) == sign + NatToDecimal(w) + "." + t;
    DecimalRoundTrip(w);
  }

  /** Normalising a spelled numeral gives its rendering. */
  lemma NormalizeSpelling(n: Numeral)
    requires WellFormed(n)
    ensures NormalizeNumber(Spelling(n)) == Some(Render(n))
  {
    SpellingChars(n);
    CleanedKeepsNumber(Spelling(n));
    SpellingRoundTrip(n);
  }

  /** `normalize_number` is idempotent: what it returns, it returns again. */
  lemma NormalizeIdempotent(text: string)
    ensures NormalizeNumber(text).Some? ==>
      NormalizeNumber(NormalizeNumber(text).value) == NormalizeNumber(text)
  {
    if NormalizeNumber(text).Some? {
      var n := SearchNumeral(Cleaned(text)).value.1;
      CanonicalSpelling(n);
      NormalizeSpelling(Canonical(n));
    }
  }

  /** In particular every integer's own spelling is already normalised. */
  lemma CanonicalInteger(v: int)
    ensures NormalizeNumber(IntToDecimal(v)) == Some(IntToDecimal(v))
  {
    var m: nat := if v < 0 then -v else v;
    var c := Numeral(v < 0, NatToDecimal(m), false, "");
    var sign := if v < 0 then "-" else "";
    assert Spelling(c) == sign + NatToDecimal(m);
    assert Spelling(c) == IntToDecimal(v);
    DecimalRoundTrip(m);
    assert Render(c) == IntToDecimal(v);
    NormalizeSpelling(c);
  }

  // ---------------------------------------------------------------------
  // Extraction priority

  /** The last 200 characters, or the whole text when it is shorter. */
  function Last200(text: string): (r: string)
    ensures |r| == if |text| > 200 then 200 else |text|
    ensures EndsWith(text, r)
  {
    if |text| > 200 then text[|text| - 200..] else text
  }

  /** `extract_and_normalize_answer`: a non-empty boxed answer first, then a
      non-empty `####` answer, then the last 200 characters, normalised. */
  function ExtractAndNormalize(text: string): Option<string> {
    if text == "" then None
    else
      var boxed := ExtractBoxed(text);
      var marked := ExtractGsm8k(text);
      var answer :=
        if boxed.Some? && boxed.value != "" then boxed.value
        else if marked.Some? && marked.value != "" then marked.value
        else Last200(text);
      NormalizeNumber(answer)
  }

  /** The leftmost boxed answer wins when it is not blank. */
  lemma ExtractUsesBoxed(text: string, i: nat, g: string)
    requires |g| >= 1 && '}' !in g && OccursAt(text, BoxedOpen + g + "}", i)
    requires forall k :: 0 <= k < i ==> BoxedGroupAt(text, k).None?
    requires PyStrip(g) != ""
    ensures ExtractAndNormalize(text) == NormalizeNumber(PyStrip(g))
  {
    ExtractBoxedFound(text, i, g);
  }

  /** Without a boxed answer, a non-blank `####` answer is used. */
  lemma ExtractUsesMarker(text: string)
    requires forall i: nat, g: string :: |g| >= 1 && '}' !in g ==> !OccursAt(text, BoxedOpen + g + "}", i)
    requires Contains(text, Marker)
    ensures |Split(text, Marker)| >= 2
    ensures PyStrip(Split(text, Marker)[1]) != "" ==>
      ExtractAndNormalize(text) == NormalizeNumber(PyStrip(Split(text, Marker)[1]))
  {
    ExtractBoxedAbsent(text);
    ExtractGsm8kSplit(text);
    assert text != "" by {
      var i :| 0 <= i <= |text| && OccursAt(text, Marker, i);
    }
  }

  /** With neither, the number is looked for in the last 200 characters. */
  lemma ExtractFallsBack(text: string)
    requires forall i: nat, g: string :: |g| >= 1 && '}' !in g ==> !OccursAt(text, BoxedOpen + g + "}", i)
    requires !Contains(text, Marker)
    ensures ExtractAndNormalize(text) == NormalizeNumber(Last200(text))
  {
    ExtractBoxedAbsent(text);
  }

  /** Whatever is extracted is already normalised. */
  lemma ExtractCanonical(text: string)
    ensures ExtractAndNormalize(text).Some? ==>
      NormalizeNumber(ExtractAndNormalize(text).value) == ExtractAndNormalize(text)
  {
    if text != "" {
      var boxed := ExtractBoxed(text);
      var marked := ExtractGsm8k(text);
      var answer :=
        if boxed.Some? && boxed.value != "" then boxed.value
        else if marked.Some? && marked.value != "" then marked.value
        else Last200(text);
      NormalizeIdempotent(answer);
    }
  }

  // ---------------------------------------------------------------------
  // Gold answers

  /** The gold answer of one solution: its `####` answer, normalised when
      it is not blank (a blank one is kept as the empty string). */
  function GoldAnswer(solution: string): Option<string> {
    var marked := ExtractGsm8k(solution);
    if marked.Some? && marked.value != "" then NormalizeNumber(marked.value) else marked
  }

  lemma GoldCanonical(solution: string)
    ensures GoldAnswer(solution).Some? ==>
      GoldAnswer(solution) == Some("") || NormalizeNumber(GoldAnswer(solution).value) == GoldAnswer(solution)
  {
    var marked := ExtractGsm8k(solution);
    if marked.Some? && marked.value != "" {
      NormalizeIdempotent(marked.value);
    }
  }

  /** `load_gsm8k_answers`: the gold answers keyed by position. */
  function GoldAnswers(solutions: seq<string>): (m: map<int, Option<string>>)
    ensures forall k :: k in m <==> 0 <= k < |solutions|
    ensures forall k :: 0 <= k < |solutions| ==> m[k] == GoldAnswer(solutions[k])
  {
    map k | 0 <= k < |solutions| :: GoldAnswer(solutions[k])
  }

  // ---------------------------------------------------------------------
  // Scoring

  datatype SampleId = IntId(n: int) | StrId(s: string)

  /** The `text` field of a cached sample: missing, a string or a list. */
  datatype TextField = Absent | Str(s: string) | List(items: seq<string>)

  datatype Row = Row(id: SampleId, text: TextField)

  /** One wrong answer, with the model output cut to 200 characters. */
  datatype Miss = Miss(sampleId: int, predicted: Option<string>, gold: string, output: string)

  datatype Tally = Tally(correct: nat, total: nat, errors: seq<Miss>)

  datatype Outcome =
    | NoGold
    | Crashed
    | Report(correct: nat, total: nat, errors: seq<Miss>, accuracy: real)

  /** `int(s)` on a sample id: optional surrounding spaces and sign, then
      decimal digits. */
  function ParseId(s: string): Option<int> {
    var t := PyStrip(s);
    if |t| >= 2 && (t[0] == '-' || t[0] == '+') && AllDigits(t[1..]) then
      var v: int := DecimalValue(t[1..]);
      Some(if t[0] == '-' then -v else v)
    else if |t| >= 1 && AllDigits(t) then Some(DecimalValue(t))
    else None
  }

  /** Every integer's own spelling parses back to it. */
  lemma ParseIdRoundTrip(v: int)
    ensures ParseId(IntToDecimal(v)) == Some(v)
  {
    var m := if v < 0 then -v else v;
    var dgt := NatToDecimal(m);
    var s := IntToDecimal(v);
    assert !PyIsSpace(s[0]) && !PyIsSpace(s[|s| - 1]);
    TrimTrimmed(s, PyIsSpace);
    DecimalRoundTrip(m);
    if v < 0 {
      assert s[1..] == dgt;
    }
  }

  function IdOf(id: SampleId): Option<int> {
    match id
    case IntId(n) => Some(n)
    case StrId(s) => ParseId(s)
  }

  /** The model output of a sample; an empty list raises `IndexError`. */
  function OutputOf(f: TextField): Option<string> {
    match f
    case Absent => Some("")
    case Str(s) => Some(s)
    case List(items) => if items == [] then None else Some(items[0])
  }

  function Excerpt(output: string): (r: string)
    ensures |r| <= 203
    ensures StartsWith(output, r) || (|output| > 200 && r == output[..200] + "...")
  {
    if |output| > 200 then output[..200] + "..." else output
  }

  function GoldOf(gold: map<int, Option<string>>, id: int): Option<string> {
    if id in gold then gold[id] else None
  }

  /** A row whose id and output were read: counted when it has a gold
      answer, as correct or as a miss. */
  function Grade(t: Tally, id: int, output: string, gold: map<int, Option<string>>): Tally {
    var predicted := ExtractAndNormalize(output);
    match GoldOf(gold, id)
    case None => t
    case Some(g) =>
      if predicted == Some(g) then Tally(t.correct + 1, t.total + 1, t.errors)
      else Tally(t.correct, t.total + 1, t.errors + [Miss(id, predicted, g, Excerpt(output))])
  }

  /** One row of the loop; `None` when reading the output raised. */
  function Step(t: Tally, row: Row, gold: map<int, Option<string>>): Option<Tally> {
    match IdOf(row.id)
    case None => Some(t)
    case Some(id) =>
      match OutputOf(row.text)
      case None => None
      case Some(output) => Some(Grade(t, id, output, gold))
  }

  /** The counters after the rows in order, or `None` once one raised. */
  function TallyOf(rows: seq<Row>, gold: map<int, Option<string>>): Option<Tally> {
    if rows == [] then Some(Tally(0, 0, []))
    else match TallyOf(rows[..|rows| - 1], gold)
      case None => None
      case Some(t) => Step(t, rows[|rows| - 1], gold)
  }

  /** Whether a row is graded: its id parses and has a gold answer. */
  predicate Graded(row: Row, gold: map<int, Option<string>>) {
    IdOf(row.id).Some? && GoldOf(gold, IdOf(row.id).value).Some?
  }

  function CountGraded(rows: seq<Row>, gold: map<int, Option<string>>): nat {
    if rows == [] then 0
    else CountGraded(rows[..|rows| - 1], gold) + (if Graded(rows[|rows| - 1], gold) then 1 else 0)
  }

  predicate Correct(row: Row, gold: map<int, Option<string>>) {
    Graded(row, gold) && OutputOf(row.text).Some?
    && ExtractAndNormalize(OutputOf(row.text).value) == GoldOf(gold, IdOf(row.id).value)
  }

  function CountCorrect(rows: seq<Row>, gold: map<int, Option<string>>): nat {
    if rows == [] then 0
    else CountCorrect(rows[..|rows| - 1], gold) + (if Correct(rows[|rows| - 1], gold) then 1 else 0)
  }

  /** Rows without a gold answer are skipped; every graded row is either
      correct or recorded as a miss whose prediction differs from the gold. */
  lemma {:induction false} TallyMeaning(rows: seq<Row>, gold: map<int, Option<string>>)
    ensures TallyOf(rows, gold).Some? ==>
      var t := TallyOf(rows, gold).value;
      && t.total == CountGraded(rows, gold)
      && t.correct == CountCorrect(rows, gold)
      && t.correct + |t.errors| == t.total
      && t.correct <= t.total
      && forall k :: 0 <= k < |t.errors| ==> t.errors[k].predicted != Some(t.errors[k].gold)
    decreases |rows|
  {
    if rows != [] {
      TallyMeaning(rows[..|rows| - 1], gold);
    }
  }

  lemma TallySnoc(rows: seq<Row>, i: nat, gold: map<int, Option<string>>)
    requires i < |rows|
    ensures TallyOf(rows[..i + 1], gold) ==
      match TallyOf(rows[..i], gold)
      case None => None
      case Some(t) => Step(t, rows[i], gold)
  {
    assert rows[..i + 1][..i] == rows[..i];
  }

  /** Once a row raised, the whole run has raised. */
  lemma {:induction false} CrashSticks(rows: seq<Row>, i: nat, gold: map<int, Option<string>>)
    requires i <= |rows| && TallyOf(rows[..i], gold).None?
    ensures TallyOf(rows, gold).None?
    decreases |rows| - i
  {
    if i < |rows| {
      assert rows[..i + 1][..i] == rows[..i];
      CrashSticks(rows, i + 1, gold);
    } else {
      assert rows[..i] == rows;
    }
  }

  function Accuracy(correct: nat, total: nat): (a: real)
    ensures total > 0 && correct <= total ==> 0.0 <= a <= 100.0
    ensures total == 0 ==> a == 0.0
  {
    if total > 0 then correct as real / total as real * 100.0 else 0.0
  }

  /** The scoring loop of `evaluate_from_parquet`. */
  method EvaluateFromParquet(rows: seq<Row>, gold: map<int, Option<string>>) returns (r: Outcome)
    ensures |gold| == 0 <==> r.NoGold?
    ensures r.Crashed? <==> |gold| > 0 && TallyOf(rows, gold).None?
    ensures r.Report? ==>
      && TallyOf(rows, gold) == Some(Tally(r.correct, r.total, r.errors))
      && r.accuracy == Accuracy(r.correct, r.total)
  {
    if |gold| == 0 {
      return NoGold;
    }
    var correct: nat := 0;
    var total: nat := 0;
    var errors: seq<Miss> := [];
    for i := 0 to |rows|
      invariant TallyOf(rows[..i], gold) == Some(Tally(correct, total, errors))
    {
      TallySnoc(rows, i, gold);
      ghost var before := Tally(correct, total, errors);
      var id := IdOf(rows[i].id);
      if id.None? {
        assert Step(before, rows[i], gold) == Some(before);
        continue;
      }
      var output := OutputOf(rows[i].text);
      if output.None? {
        assert Step(before, rows[i], gold).None?;
        CrashSticks(rows, i + 1, gold);
        return Crashed;
      }
      ghost var next := Grade(before, id.value, output.value, gold);
      assert Step(before, rows[i], gold) == Some(next);
      assert TallyOf(rows[..i + 1], gold) == Some(next);
      var predicted := ExtractAndNormalize(output.value);
      var g := GoldOf(gold, id.value);
      if g.None? {
        assert next == before;
        continue;
      }
      total := total + 1;
      if predicted == g {
        correct := correct + 1;
      } else {
        errors := errors + [Miss(id.value, predicted, g.value, Excerpt(output.value))];
      }
      assert next == Tally(correct, total, errors);
    }
    assert rows[..|rows|] == rows;
    var accuracy := if total > 0 then correct as real / total as real * 100.0 else 0.0;
    return Report(correct, total, errors, accuracy);
  }

  /** A report's accuracy is a percentage of the graded rows. */
  lemma ReportAccuracy(rows: seq<Row>, gold: map<int, Option<string>>, t: Tally)
    requires TallyOf(rows, gold) == Some(t)
    ensures 0.0 <= Accuracy(t.correct, t.total) <= 100.0
  {
    TallyMeaning(rows, gold);
  }
}
