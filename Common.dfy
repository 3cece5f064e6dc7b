/** Shared vocabulary for the model: optional values, JSON values as the
    Python and JavaScript sources see them after parsing, and the string
    operations those languages provide (find, split, strip, slicing,
    decimal printing and parsing). */
module Common {

  datatype Option<T> = None | Some(value: T)

  /** A parsed JSON value; numbers are kept as reals. */
  datatype Json =
    | JNull
    | JBool(b: bool)
    | JNum(n: real)
    | JStr(s: string)
    | JArr(items: seq<Json>)
    | JObj(fields: map<string, Json>)

  /** `d.get(key, default)` on a dictionary / `obj[key] ?? default`. */
  function Get(m: map<string, Json>, key: string, default: Json): (r: Json)
    ensures key in m ==> r == m[key]
    ensures key !in m ==> r == default
  {
    if key in m then m[key] else default
  }

  /** Python truthiness of a parsed JSON value (`if v:` / `v or default`). */
  predicate Truthy(j: Json) {
    match j
    case JNull => false
    case JBool(b) => b
    case JNum(n) => n != 0.0
    case JStr(s) => s != ""
    case JArr(items) => |items| > 0
    case JObj(fields) => |fields| > 0
  }

  /** `v or default`. */
  function Or(v: Json, default: Json): (r: Json)
    ensures Truthy(v) ==> r == v
    ensures !Truthy(v) ==> r == default
  {
    if Truthy(v) then v else default
  }

  /** Python's `str(v)` inside an f-string, for the values the sources
      interpolate: strings as they are, `None`, booleans and integral numbers
      exactly; other numbers and containers as a fixed placeholder. */
  function PyStr(j: Json): string {
    match j
    case JStr(s) => s
    case JNull => "None"
    case JBool(b) => if b then "True" else "False"
    case JNum(n) => if n == n.Floor as real then IntToDecimal(n.Floor) else "<float>"
    case JArr(_) => "<list>"
    case JObj(_) => "<dict>"
  }

  // ---------------------------------------------------------------------
  // Searching in strings

  predicate StartsWith(s: string, p: string) {
    |p| <= |s| && s[..|p|] == p
  }

  predicate EndsWith(s: string, p: string) {
    |p| <= |s| && s[|s| - |p|..] == p
  }

  /** `t` occurs in `s` starting at index `i`. */
  predicate OccursAt(s: string, t: string, i: int) {
    0 <= i && i + |t| <= |s| && s[i..i + |t|] == t
  }

  /** Python's `t in s`, JavaScript's `s.includes(t)`. */
  predicate Contains(s: string, t: string) {
    exists i :: 0 <= i <= |s| && OccursAt(s, t, i)
  }

  /** The first occurrence of `t` in `s` at or after `from` (`s.find(t, from)`). */
  function Find(s: string, t: string, from: nat): (r: Option<nat>)
    ensures r.Some? ==> from <= r.value && OccursAt(s, t, r.value)
    decreases |s| - from
  {
    if from + |t| > |s| then None
    else if s[from..from + |t|] == t then Some(from)
    else Find(s, t, from + 1)
  }

  /** The occurrence found is the first at or after `from`, and when none is
      found there is none. */
  lemma {:induction false} FindFirst(s: string, t: string, from: nat)
    ensures var r := Find(s, t, from);
      && (r.Some? ==> forall j :: from <= j < r.value ==> !OccursAt(s, t, j))
      && (r.None? ==> forall j :: from <= j ==> !OccursAt(s, t, j))
    decreases |s| - from
  {
    if from + |t| <= |s| && s[from..from + |t|] != t {
      FindFirst(s, t, from + 1);
    }
  }

  lemma FindContains(s: string, t: string)
    ensures Find(s, t, 0).Some? <==> Contains(s, t)
  {
    if Contains(s, t) {
      var i :| 0 <= i <= |s| && OccursAt(s, t, i);
      FindFirst(s, t, 0);
    }
  }

  /** Non-overlapping occurrences of a non-empty `t` in `s[from..]`, scanning
      left to right as `str.count` does. */
  function CountFrom(s: string, t: string, from: nat): nat
    requires |t| > 0
    decreases |s| - from
  {
    match Find(s, t, from)
    case None => 0
    case Some(i) => 1 + CountFrom(s, t, i + |t|)
  }

  /** Python's `s.count(t)`; the empty string occurs `len(s) + 1` times. */
  function PyCount(s: string, t: string): nat {
    if |t| == 0 then |s| + 1 else CountFrom(s, t, 0)
  }

  lemma CountPositiveWhenContained(s: string, t: string)
    requires Contains(s, t)
    ensures PyCount(s, t) >= 1
  {
    FindContains(s, t);
  }

  /** `s.split(sep)` for a non-empty separator (Python and JavaScript agree). */
  function Split(s: string, sep: string): (r: seq<string>)
    requires |sep| > 0
    ensures |r| >= 1
  {
    SplitFrom(s, sep, 0)
  }

  /** The pieces of `s[from..]`, each ending at the next separator. */
  function SplitFrom(s: string, sep: string, from: nat): (r: seq<string>)
    requires |sep| > 0 && from <= |s|
    ensures |r| >= 1
    decreases |s| - from
  {
    match Find(s, sep, from)
    case None => [s[from..]]
    case Some(i) => [s[from..i]] + SplitFrom(s, sep, i + |sep|)
  }

  /** `s.split(sep)[1]`: the text after the first `sep`, up to the next one
      (empty when `sep` does not occur, where Python would raise). */
  function SecondPiece(s: string, sep: string): string
    requires |sep| > 0
  {
    var pieces := Split(s, sep);
    if |pieces| >= 2 then pieces[1] else ""
  }

  lemma SplitSecond(s: string, sep: string)
    requires |sep| > 0 && Contains(s, sep)
    ensures |Split(s, sep)| >= 2 && Split(s, sep)[1] == SecondPiece(s, sep)
  {
    FindContains(s, sep);
    SplitSecondAt(s, sep);
  }

  /** A separator that occurs splits the string into at least two pieces. */
  lemma SplitSecondAt(s: string, sep: string)
    requires |sep| > 0 && Find(s, sep, 0).Some?
    ensures |Split(s, sep)| >= 2 && Split(s, sep)[1] == SecondPiece(s, sep)
  {
    assert |SplitFrom(s, sep, 0)| >= 2;
  }

  /** Two prefixes of one string agree on their common length. */
  lemma PrefixOfPrefixString(r: string, p: string, q: string)
    requires StartsWith(r, p) && |q| <= |p|
    ensures StartsWith(r, q) <==> StartsWith(p, q)
  {
    assert r[..|q|] == p[..|q|];
  }

  /** `sep.join(parts)` / `parts.join(sep)`. */
  function Join(parts: seq<string>, sep: string): string {
    if |parts| == 0 then ""
    else if |parts| == 1 then parts[0]
    else parts[0] + sep + Join(parts[1..], sep)
  }

  lemma {:induction false} JoinSnoc(parts: seq<string>, p: string, sep: string)
    requires |parts| >= 1
    ensures Join(parts + [p], sep) == Join(parts, sep) + sep + p
  {
    if |parts| > 1 {
      JoinSnoc(parts[1..], p, sep);
      assert (parts + [p])[1..] == parts[1..] + [p];
    }
  }

  lemma {:induction false} JoinExtendLast(parts: seq<string>, t: string, sep: string)
    requires |parts| >= 1
    ensures Join(parts[..|parts| - 1] + [parts[|parts| - 1] + t], sep) == Join(parts, sep) + t
  {
    var q := parts[..|parts| - 1] + [parts[|parts| - 1] + t];
    if |parts| > 1 {
      var r := parts[1..];
      JoinExtendLast(r, t, sep);
      assert q[1..] == r[..|r| - 1] + [r[|r| - 1] + t];
      assert Join(q, sep) == parts[0] + sep + (Join(r, sep) + t);
      AppendAssoc(parts[0] + sep, Join(r, sep), t);
    } else {
      assert q == [parts[0] + t];
    }
  }

  /** `''.join(parts)`. */
  function Concat(lines: seq<string>): string {
    if |lines| == 0 then "" else lines[0] + Concat(lines[1..])
  }

  lemma {:induction false} ConcatAppend(a: seq<string>, b: seq<string>)
    ensures Concat(a + b) == Concat(a) + Concat(b)
  {
    if |a| == 0 {
      assert a + b == b;
    } else {
      ConcatAppend(a[1..], b);
      assert (a + b)[1..] == a[1..] + b;
      assert Concat(a + b) == a[0] + Concat(a[1..] + b);
      AppendAssoc(a[0], Concat(a[1..]), Concat(b));
    }
  }

  /** Cutting the lines anywhere and joining both parts gives the whole. */
  lemma ConcatSplit(lines: seq<string>, k: nat)
    requires k <= |lines|
    ensures Concat(lines[..k]) + Concat(lines[k..]) == Concat(lines)
  {
    assert lines[..k] + lines[k..] == lines;
    ConcatAppend(lines[..k], lines[k..]);
  }

  lemma AppendAssoc<T>(a: seq<T>, b: seq<T>, c: seq<T>)
    ensures (a + b) + c == a + (b + c)
  {
  }

  /** A suffix is the slice up to the end. */
  lemma SuffixSlice<T>(s: seq<T>, i: nat)
    requires i <= |s|
    ensures s[i..] == s[i..|s|]
  {
  }

  /** Dropping the last element of `a + t`, for a non-empty `t`. */
  lemma DropLastAppend<T>(a: seq<T>, t: seq<T>)
    requires |t| > 0
    ensures (a + t)[..|a + t| - 1] == a + t[..|t| - 1]
    ensures (a + t)[|a + t| - 1] == t[|t| - 1]
  {
  }

  lemma ConcatSnoc(a: seq<string>, s: string)
    ensures Concat(a + [s]) == Concat(a) + s
  {
    ConcatAppend(a, [s]);
    assert [s][1..] == [];
    assert s + "" == s;
  }

  /** One element longer prefix. */
  lemma TakeSnoc<T>(a: seq<T>, i: nat)
    requires i < |a|
    ensures a[..i + 1] == a[..i] + [a[i]]
  {
  }

  /** The text of one more part. */
  lemma ConcatTakeSnoc(a: seq<string>, i: nat)
    requires i < |a|
    ensures Concat(a[..i + 1]) == Concat(a[..i]) + a[i]
  {
    TakeSnoc(a, i);
    ConcatSnoc(a[..i], a[i]);
  }

  /** Every occurrence of `t` (non-empty) replaced by `u`, scanning left to
      right without overlaps, as a global `replace` with a literal pattern
      does. */
  function ReplaceAll(s: string, t: string, u: string): string
    requires |t| > 0
    decreases |s|
  {
    if |s| < |t| then s
    else if s[..|t|] == t then u + ReplaceAll(s[|t|..], t, u)
    else [s[0]] + ReplaceAll(s[1..], t, u)
  }

  /** A text without the pattern's first character is left alone. */
  lemma {:induction false} ReplaceAllAbsent(s: string, t: string, u: string)
    requires |t| > 0 && t[0] !in s
    ensures ReplaceAll(s, t, u) == s
    decreases |s|
  {
    if |s| >= |t| {
      assert s[..|t|][0] == s[0] != t[0];
      ReplaceAllAbsent(s[1..], t, u);
      assert [s[0]] + s[1..] == s;
    }
  }

  /** A piece without the pattern's first character is copied as it is. */
  lemma {:induction false} ReplaceAllPlain(p: string, q: string, t: string, u: string)
    requires |t| > 0 && t[0] !in p
    ensures ReplaceAll(p + q, t, u) == p + ReplaceAll(q, t, u)
    decreases |p|
  {
    var s := p + q;
    if |p| == 0 {
      assert s == q;
    } else if |s| < |t| {
      assert ReplaceAll(q, t, u) == q;
    } else {
      assert s[0] == p[0];
      assert s[..|t|] != t by {
        assert s[..|t|][0] == p[0];
      }
      assert s[1..] == p[1..] + q;
      ReplaceAllPlain(p[1..], q, t, u);
      AppendAssoc([p[0]], p[1..], ReplaceAll(q, t, u));
      assert [p[0]] + p[1..] == p;
    }
  }

  /** Replacing keeps out a character that neither the text nor the
      replacement holds. */
  lemma {:induction false} ReplaceAllKeepsOut(s: string, t: string, u: string, c: char)
    requires |t| > 0 && c !in s && c !in u
    ensures c !in ReplaceAll(s, t, u)
    decreases |s|
  {
    if |s| >= |t| {
      if s[..|t|] == t {
        ReplaceAllKeepsOut(s[|t|..], t, u, c);
      } else {
        ReplaceAllKeepsOut(s[1..], t, u, c);
      }
    }
  }

  /** Once a character is replaced by a text without it, none is left. */
  lemma {:induction false} ReplaceCharGone(s: string, c: char, u: string)
    requires c !in u
    ensures c !in ReplaceAll(s, [c], u)
    decreases |s|
  {
    if |s| >= 1 {
      ReplaceCharGone(s[1..], c, u);
      if s[..1] != [c] {
        assert s[0] != c;
      }
    }
  }

  // ---------------------------------------------------------------------
  // Whitespace and case

  /** Python's `str.isspace` for one character. */
  predicate PyIsSpace(c: char) {
    c == ' ' || ('\t' <= c <= '\r') || ('\U{1c}' <= c <= '\U{1f}') || c == '\U{85}'
    || c == '\U{a0}' || c == '\U{1680}' || ('\U{2000}' <= c <= '\U{200a}')
    || c == '\U{2028}' || c == '\U{2029}' || c == '\U{202f}' || c == '\U{205f}'
    || c == '\U{3000}'
  }

  /** JavaScript's WhiteSpace and LineTerminator (what `trim` and `\s` accept). */
  predicate JsIsSpace(c: char) {
    c == ' ' || ('\t' <= c <= '\r') || c == '\U{a0}' || c == '\U{1680}'
    || ('\U{2000}' <= c <= '\U{200a}') || c == '\U{2028}' || c == '\U{2029}'
    || c == '\U{202f}' || c == '\U{205f}' || c == '\U{3000}' || c == '\U{feff}'
  }

  function TrimStart(s: string, ws: char -> bool): string {
    if s != [] && ws(s[0]) then TrimStart(s[1..], ws) else s
  }

  function TrimEnd(s: string, ws: char -> bool): string {
    if s != [] && ws(s[|s| - 1]) then TrimEnd(s[..|s| - 1], ws) else s
  }

  /** Both ends trimmed. */
  function Trim(s: string, ws: char -> bool): string {
    TrimEnd(TrimStart(s, ws), ws)
  }

  /** Trimming the start drops exactly the leading run of spaces. */
  lemma {:induction false} TrimStartShape(s: string, ws: char -> bool)
    ensures var r := TrimStart(s, ws);
      && |r| <= |s| && r == s[|s| - |r|..]
      && (r == [] || !ws(r[0]))
      && forall k :: 0 <= k < |s| - |r| ==> ws(s[k])
  {
    if s != [] && ws(s[0]) {
      var t := s[1..];
      TrimStartShape(t, ws);
      var r := TrimStart(t, ws);
      assert TrimStart(s, ws) == r;
      assert t[|t| - |r|..] == s[|s| - |r|..];
      forall k | 0 <= k < |s| - |r|
        ensures ws(s[k])
      {
        if k > 0 {
          assert s[k] == t[k - 1];
        }
      }
    }
  }

  /** Trimming the end drops exactly the trailing run of spaces. */
  lemma {:induction false} TrimEndShape(s: string, ws: char -> bool)
    ensures var r := TrimEnd(s, ws);
      && |r| <= |s| && r == s[..|r|]
      && (r == [] || !ws(r[|r| - 1]))
      && forall k :: |r| <= k < |s| ==> ws(s[k])
  {
    if s != [] && ws(s[|s| - 1]) {
      var t := s[..|s| - 1];
      TrimEndShape(t, ws);
      var r := TrimEnd(t, ws);
      assert TrimEnd(s, ws) == r;
      assert t[..|r|] == s[..|r|];
      forall k | |r| <= k < |s|
        ensures ws(s[k])
      {
        if k < |s| - 1 {
          assert s[k] == t[k];
        }
      }
    }
  }

  /** The trimmed text is a contiguous piece of `s` that neither starts nor
      ends with a space. */
  lemma TrimShape(s: string, ws: char -> bool)
    ensures var r := Trim(s, ws);
      && |r| <= |s|
      && (r == [] || (!ws(r[0]) && !ws(r[|r| - 1])))
      && Contains(s, r)
  {
    var t := TrimStart(s, ws);
    TrimStartShape(s, ws);
    TrimEndShape(t, ws);
    var r := TrimEnd(t, ws);
    assert OccursAt(s, r, |s| - |t|);
  }

  /** A text that neither starts nor ends with a space is its own trim. */
  lemma TrimTrimmed(s: string, ws: char -> bool)
    requires s == [] || (!ws(s[0]) && !ws(s[|s| - 1]))
    ensures Trim(s, ws) == s
  {
  }

  /** Trimming keeps out a character the text does not hold. */
  lemma TrimKeepsOut(s: string, ws: char -> bool, c: char)
    requires c !in s
    ensures c !in Trim(s, ws)
  {
    TrimShape(s, ws);
    var r := Trim(s, ws);
    var i :| 0 <= i <= |s| && OccursAt(s, r, i);
    assert r == s[i..i + |r|];
  }

  /** An occurrence inside a slice is an occurrence in the whole text. */
  lemma SliceOccurs(s: string, i: nat, k: nat, t: string, j: nat)
    requires i <= k <= |s|
    ensures OccursAt(s[i..k], t, j) ==> OccursAt(s, t, i + j)
  {
    if j + |t| <= k - i {
      var a := s[i..k][j..j + |t|];
      var b := s[i + j..i + j + |t|];
      assert |a| == |b|;
      forall x | 0 <= x < |a|
        ensures a[x] == b[x]
      {
        assert a[x] == s[i..k][j + x] == s[i + j + x];
      }
      assert a == b;
    }
  }

  /** Trimming keeps out a piece of text the text does not contain. */
  lemma TrimKeepsOutText(s: string, ws: char -> bool, t: string)
    requires !Contains(s, t)
    ensures !Contains(Trim(s, ws), t)
  {
    TrimShape(s, ws);
    var r := Trim(s, ws);
    var i :| 0 <= i <= |s| && OccursAt(s, r, i);
    assert r == s[i..i + |r|];
    forall j | 0 <= j <= |r|
      ensures !OccursAt(r, t, j)
    {
      SliceOccurs(s, i, i + |r|, t, j);
      assert !OccursAt(s, t, i + j);
    }
  }

  /** Python's `s.strip()`. */
  function PyStrip(s: string): string {
    Trim(s, PyIsSpace)
  }

  /** JavaScript's `s.trim()`. */
  function JsTrim(s: string): string {
    Trim(s, JsIsSpace)
  }

  /** The lower-case form of an ASCII or Latin-1 capital (U+00C0 to U+00DE,
      except the multiplication sign U+00D7); other characters are kept. */
  function LowerChar(c: char): char {
    if 'A' <= c <= 'Z' || ('\U{c0}' <= c <= '\U{de}' && c != '\U{d7}') then (c as int + 32) as char else c
  }

  /** `str.lower()` / `toLowerCase()` over ASCII and Latin-1 capitals. */
  function Lower(s: string): (r: string)
    ensures |r| == |s|
    ensures forall k :: 0 <= k < |s| ==> r[k] == LowerChar(s[k])
  {
    seq(|s|, k requires 0 <= k < |s| => LowerChar(s[k]))
  }

  predicate IsAsciiLetter(c: char) {
    ('a' <= c <= 'z') || ('A' <= c <= 'Z')
  }

  predicate IsDigit(c: char) {
    '0' <= c <= '9'
  }

  predicate AllDigits(s: string) {
    forall k :: 0 <= k < |s| ==> IsDigit(s[k])
  }

  // ---------------------------------------------------------------------
  // Python slicing

  /** How Python normalises one slice bound against a length `n`. */
  function PyBound(i: int, n: nat): (r: nat)
    ensures r <= n
    ensures 0 <= i <= n ==> r == i
    ensures i > n ==> r == n
    ensures i < 0 ==> r == if i + n < 0 then 0 else i + n
  {
    if i < 0 then (if i + n < 0 then 0 else i + n)
    else if i > n then n
    else i
  }

  /** `s[i:j]` with Python's rules for negative and out-of-range bounds. */
  function PySlice<T>(s: seq<T>, i: int, j: int): (r: seq<T>)
    ensures PyBound(i, |s|) < PyBound(j, |s|) ==> r == s[PyBound(i, |s|)..PyBound(j, |s|)]
    ensures PyBound(i, |s|) >= PyBound(j, |s|) ==> r == []
  {
    var a := PyBound(i, |s|);
    var b := PyBound(j, |s|);
    if a < b then s[a..b] else []
  }

  /** `s[:j]`. */
  function PyPrefix<T>(s: seq<T>, j: int): (r: seq<T>)
    ensures 0 <= j ==> r == s[..if j < |s| then j else |s|]
  {
    PySlice(s, 0, j)
  }

  // ---------------------------------------------------------------------
  // Decimal numbers

  function DigitChar(d: nat): (c: char)
    requires d < 10
    ensures IsDigit(c) && c as int - '0' as int == d
  {
    ('0' as int + d) as char
  }

  /** `str(n)` for a natural number: no sign, no leading zero. */
  function NatToDecimal(n: nat): (r: string)
    ensures |r| >= 1 && AllDigits(r)
    ensures |r| > 1 ==> r[0] != '0'
    decreases n
  {
    if n < 10 then [DigitChar(n)] else NatToDecimal(n / 10) + [DigitChar(n % 10)]
  }

  /** `str(i)` for an integer. */
  function IntToDecimal(i: int): string {
    if i < 0 then "-" + NatToDecimal(-i) else NatToDecimal(i)
  }

  /** The value of a run of decimal digits (`int(s)`). */
  function DecimalValue(s: string): nat
    requires AllDigits(s)
  {
    if |s| == 0 then 0
    else 10 * DecimalValue(s[..|s| - 1]) + (s[|s| - 1] as int - '0' as int)
  }

  lemma {:induction false} DecimalRoundTrip(n: nat)
    ensures DecimalValue(NatToDecimal(n)) == n
    decreases n
  {
    if n >= 10 {
      DecimalRoundTrip(n / 10);
      var s := NatToDecimal(n);
      assert s[..|s| - 1] == NatToDecimal(n / 10);
    }
  }

  lemma {:induction false} DecimalLeadingZeros(z: nat, s: string)
    requires AllDigits(s)
    ensures AllDigits(seq(z, _ => '0') + s)
    ensures DecimalValue(seq(z, _ => '0') + s) == DecimalValue(s)
    decreases |s|
  {
    var zs := seq(z, _ => '0');
    if |s| == 0 {
      assert zs + s == zs;
      ZerosValue(z);
    } else {
      DecimalLeadingZeros(z, s[..|s| - 1]);
      assert (zs + s)[..|zs + s| - 1] == zs + s[..|s| - 1];
    }
  }

  lemma {:induction false} ZerosValue(z: nat)
    ensures AllDigits(seq(z, _ => '0'))
    ensures DecimalValue(seq(z, _ => '0')) == 0
  {
    if z > 0 {
      ZerosValue(z - 1);
      assert seq(z, _ => '0')[..z - 1] == seq(z - 1, _ => '0');
    }
  }
}
