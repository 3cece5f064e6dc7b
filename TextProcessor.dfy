/** The text clean-up that runs before speech synthesis: inline code and
    code blocks are read out symbol by symbol, markdown is stripped, numbers
    are spelled out in English words, stage directions such as `*smiles*`
    are dropped and special characters are named. Every regular expression
    of the pipeline is written out as the left-to-right scan that a global
    JavaScript `replace` performs: at each position the pattern is tried,
    a match is replaced and the scan goes on after it, otherwise the
    character is kept and the scan moves one on. */
module TextProcessor {
  import opened Common
  import opened NumberWords
  import opened SpecialCharacters

  // ---------------------------------------------------------------------
  // Scanning helpers

  /** The length of the longest prefix of `s` whose characters satisfy `p`
      (what a greedy `p*` consumes). */
  function RunLength(s: string, p: char -> bool): (n: nat)
    ensures n <= |s|
    ensures forall k :: 0 <= k < n ==> p(s[k])
    ensures n < |s| ==> !p(s[n])
  {
    if |s| > 0 && p(s[0]) then 1 + RunLength(s[1..], p) else 0
  }

  /** A run of `p` characters is consumed whole. */
  lemma {:induction false} RunLengthOf(run: string, rest: string, p: char -> bool)
    requires forall k :: 0 <= k < |run| ==> p(run[k])
    requires rest == [] || !p(rest[0])
    ensures RunLength(run + rest, p) == |run|
    decreases |run|
  {
    if |run| > 0 {
      assert (run + rest)[1..] == run[1..] + rest;
      RunLengthOf(run[1..], rest, p);
    } else {
      assert run + rest == rest;
    }
  }

  /** The index of the first `c` in `s`. */
  function IndexOf(s: string, c: char): (r: Option<nat>)
    ensures r.Some? ==> r.value < |s| && s[r.value] == c && c !in s[..r.value]
    ensures r.None? ==> c !in s
  {
    if |s| == 0 then None
    else if s[0] == c then Some(0)
    else match IndexOf(s[1..], c)
      case None => None
      case Some(i) =>
        assert s[..i + 1] == [s[0]] + s[1..][..i];
        Some(i + 1)
  }

  /** The index of the first `c` in `piece + rest` when `piece` has none. */
  lemma IndexOfAfter(piece: string, c: char, rest: string)
    requires c !in piece
    ensures IndexOf(piece + [c] + rest, c) == Some(|piece|)
  {
    var s := piece + [c] + rest;
    assert s[|piece|] == c;
    assert s[..|piece|] == piece;
  }

  /** Like JavaScript's `^` under the `m` flag: a line starts after one of
      these characters. */
  predicate LineTerminator(c: char) {
    c == '\n' || c == '\r' || c == '\U{2028}' || c == '\U{2029}'
  }

  // ---------------------------------------------------------------------
  // Links: `\[([^\]]+)\]\([^\)]+\)` replaced by the link text

  /** A link at the start of `s`: its text and the length of the whole
      link. The text runs to the first `]` and is not empty; a `(` must
      follow; the target runs to the first `)` after it and is not empty. */
  function LinkAt(s: string): (r: Option<(string, nat)>)
    ensures r.Some? ==> 1 + |r.value.0| < r.value.1 <= |s| && r.value.0 == s[1..1 + |r.value.0|]
  {
    if |s| == 0 || s[0] != '[' then None
    else match IndexOf(s[1..], ']')
      case None => None
      case Some(j) =>
        if j == 0 || j + 2 >= |s| || s[j + 2] != '(' then None
        else match IndexOf(s[j + 3..], ')')
          case None => None
          case Some(k) => if k == 0 then None else Some((s[1..j + 1], j + k + 4))
  }

  /** The link step: every link replaced by its text. */
  function Links(s: string): (r: string)
    decreases |s|
  {
    if |s| == 0 then ""
    else match LinkAt(s)
      case Some((text, n)) => text + Links(s[n..])
      case None => [s[0]] + Links(s[1..])
  }

  /** A text without `[` has no link. */
  lemma {:induction false} LinksAbsent(s: string)
    requires '[' !in s
    ensures Links(s) == s
    decreases |s|
  {
    if |s| > 0 {
      LinksAbsent(s[1..]);
      assert [s[0]] + s[1..] == s;
    }
  }

  /** `[text](target)` reads as `text`. */
  lemma LinkReplaced(text: string, target: string, rest: string)
    requires |text| > 0 && ']' !in text && |target| > 0 && ')' !in target
    ensures Links("[" + text + "](" + target + ")" + rest) == text + Links(rest)
  {
    var s := "[" + text + "](" + target + ")" + rest;
    assert s[1..] == text + "]" + ("(" + target + ")" + rest);
    IndexOfAfter(text, ']', "(" + target + ")" + rest);
    var j := |text|;
    assert s[j + 2] == '(';
    assert s[j + 3..] == target + ")" + rest;
    IndexOfAfter(target, ')', rest);
    assert s[1..j + 1] == text;
    assert s[j + |target| + 4..] == rest;
  }

  /** The link step only keeps characters of its input. */
  lemma {:induction false} LinksKeepOut(s: string, c: char)
    requires c !in s
    ensures c !in Links(s)
    decreases |s|
  {
    if |s| > 0 {
      match LinkAt(s)
      case Some((text, n)) =>
        LinksKeepOut(s[n..], c);
      case None =>
        LinksKeepOut(s[1..], c);
    }
  }

  // ---------------------------------------------------------------------
  // Markers at the start of a line: `^#+\s*`, `^>\s*` and `^[-*+]\s*`,
  // all with the `m` flag

  predicate IsHash(c: char) {
    c == '#'
  }

  predicate IsQuote(c: char) {
    c == '>'
  }

  predicate IsListMark(c: char) {
    c == '-' || c == '*' || c == '+'
  }

  /** How much a marker at the start of `s` spans: the marker (repeated
      when `repeat`) and the white space after it. */
  function MarkerEnd(s: string, mark: char -> bool, repeat: bool): (n: nat)
    requires |s| > 0
    ensures 0 < n <= |s|
  {
    var m := 1 + (if repeat then RunLength(s[1..], mark) else 0);
    m + RunLength(s[m..], JsIsSpace)
  }

  /** Markers removed at line starts. `lineStart` says whether the
      character before `s` in the original text ends a line (or `s` starts
      the text); `repeat` says whether the marker may be repeated (`#+`).
      The marker and the white space after it, newlines included, are
      deleted; whether the next position starts a line is decided by the
      original text, as a global `replace` does. */
  function StripMarks(s: string, lineStart: bool, mark: char -> bool, repeat: bool): (r: string)
    decreases |s|
  {
    if |s| == 0 then ""
    else if lineStart && mark(s[0]) then
      var n := MarkerEnd(s, mark, repeat);
      StripMarks(s[n..], LineTerminator(s[n - 1]), mark, repeat)
    else [s[0]] + StripMarks(s[1..], LineTerminator(s[0]), mark, repeat)
  }

  /** A text without markers is left alone. */
  lemma {:induction false} StripMarksAbsent(s: string, lineStart: bool, mark: char -> bool, repeat: bool)
    requires forall k :: 0 <= k < |s| ==> !mark(s[k])
    ensures StripMarks(s, lineStart, mark, repeat) == s
    decreases |s|
  {
    if |s| > 0 {
      StripMarksAbsent(s[1..], LineTerminator(s[0]), mark, repeat);
      assert [s[0]] + s[1..] == s;
    }
  }

  /** The marker of a marked line is consumed whole. */
  lemma MarkerLength(mark: char -> bool, repeat: bool, m: char, h: nat, rest: string)
    requires mark(m) && h >= 1 && (repeat || h == 1)
    requires rest == [] || !mark(rest[0])
    ensures var s := seq(h, _ => m) + rest;
      1 + (if repeat then RunLength(s[1..], mark) else 0) == h
  {
    if repeat {
      var marks := seq(h, _ => m);
      assert (marks + rest)[1..] == marks[1..] + rest;
      RunLengthOf(marks[1..], rest, mark);
    }
  }

  /** A marked first line loses its marker and the spaces after it. */
  lemma StripMarkedLine(mark: char -> bool, repeat: bool, m: char, h: nat, text: string)
    requires mark(m) && !mark(' ') && h >= 1 && (repeat || h == 1)
    requires forall k :: 0 <= k < |text| ==> !mark(text[k])
    requires text == [] || !JsIsSpace(text[0])
    ensures StripMarks(seq(h, _ => m) + " " + text, true, mark, repeat) == text
  {
    var s := seq(h, _ => m) + (" " + text);
    assert s == seq(h, _ => m) + " " + text;
    assert MarkerEnd(s, mark, repeat) == h + 1 by {
      MarkerLength(mark, repeat, m, h, " " + text);
      assert s[h..] == " " + text;
      RunLengthOf(" ", text, JsIsSpace);
    }
    assert s[h + 1..] == text;
    StripMarksAbsent(text, false, mark, repeat);
  }

  /** Stripping markers only keeps characters of its input. */
  lemma {:induction false} StripMarksKeepOut(s: string, lineStart: bool, mark: char -> bool, repeat: bool, c: char)
    requires c !in s
    ensures c !in StripMarks(s, lineStart, mark, repeat)
    decreases |s|
  {
    if |s| > 0 {
      if lineStart && mark(s[0]) {
        var n := MarkerEnd(s, mark, repeat);
        StripMarksKeepOut(s[n..], LineTerminator(s[n - 1]), mark, repeat, c);
      } else {
        StripMarksKeepOut(s[1..], LineTerminator(s[0]), mark, repeat, c);
      }
    }
  }

  // ---------------------------------------------------------------------
  // Horizontal rules: `[-*_]{3,}` removed

  predicate IsRuleChar(c: char) {
    c == '-' || c == '*' || c == '_'
  }

  /** Every run of three or more rule characters deleted. */
  function Rules(s: string): (r: string)
    decreases |s|
  {
    if |s| == 0 then ""
    else
      var n := RunLength(s, IsRuleChar);
      if n >= 3 then Rules(s[n..]) else [s[0]] + Rules(s[1..])
  }

  /** A text without rule characters is left alone. */
  lemma {:induction false} RulesAbsent(s: string)
    requires forall k :: 0 <= k < |s| ==> !IsRuleChar(s[k])
    ensures Rules(s) == s
    decreases |s|
  {
    if |s| > 0 {
      RulesAbsent(s[1..]);
      assert [s[0]] + s[1..] == s;
    }
  }

  /** A rule of three or more characters disappears. */
  lemma RuleRemoved(rule: string, rest: string)
    requires |rule| >= 3 && forall k :: 0 <= k < |rule| ==> IsRuleChar(rule[k])
    requires rest == [] || !IsRuleChar(rest[0])
    ensures Rules(rule + rest) == Rules(rest)
  {
    RunLengthOf(rule, rest, IsRuleChar);
    assert (rule + rest)[|rule|..] == rest;
  }

  /** Removing rules only keeps characters of its input. */
  lemma {:induction false} RulesKeepOut(s: string, c: char)
    requires c !in s
    ensures c !in Rules(s)
    decreases |s|
  {
    if |s| > 0 {
      var n := RunLength(s, IsRuleChar);
      if n >= 3 {
        RulesKeepOut(s[n..], c);
      } else {
        RulesKeepOut(s[1..], c);
      }
    }
  }

  // ---------------------------------------------------------------------
  // Code fences: "```" removed

  /** No three backticks in a row. */
  predicate NoFence(s: string) {
    forall i :: 0 <= i && i + 2 < |s| ==> !(s[i] == '`' && s[i + 1] == '`' && s[i + 2] == '`')
  }

  /** The fence step. */
  function Unfence(s: string): string {
    ReplaceAll(s, "```", "")
  }

  /** A character that does not start a fence is kept. */
  lemma UnfenceKeepsHead(s: string)
    requires |s| > 0 && !(|s| >= 3 && s[..3] == "```")
    ensures Unfence(s) == [s[0]] + Unfence(s[1..])
  {
    if |s| < 3 {
      assert [s[0]] + s[1..] == s;
    }
  }

  /** What follows a single or double backtick left standing does not
      start with two more backticks. */
  lemma {:induction false} UnfencedStart(s: string)
    ensures |s| > 0 && s[0] != '`' ==> Unfence(s) != [] && Unfence(s)[0] == s[0]
    ensures |s| > 0 && s[0] == '`' && (|s| == 1 || s[1] != '`') ==>
              (Unfence(s) != [] && Unfence(s)[0] == '`' && (|Unfence(s)| == 1 || Unfence(s)[1] != '`'))
  {
    if |s| > 0 && s[0] != '`' {
      UnfenceKeepsHead(s);
    } else if |s| > 0 && s[0] == '`' && (|s| == 1 || s[1] != '`') {
      UnfenceKeepsHead(s);
      UnfencedStart(s[1..]);
    }
  }

  /** After the fence step no "```" is left: every run of backticks keeps
      only its length modulo three. */
  lemma {:induction false} UnfenceNoFence(s: string)
    ensures NoFence(Unfence(s))
    decreases |s|
  {
    if |s| >= 3 && s[..3] == "```" {
      UnfenceNoFence(s[3..]);
    } else if |s| > 0 {
      UnfenceKeepsHead(s);
      UnfenceNoFence(s[1..]);
      var rest := Unfence(s[1..]);
      assert !(s[0] == '`' && |rest| >= 2 && rest[0] == '`' && rest[1] == '`') by {
        if s[0] == '`' && |s| >= 2 {
          if s[1] != '`' {
            UnfencedStart(s[1..]);
          } else {
            assert |s| == 2 || s[2] != '`' by {
              if |s| >= 3 {
                assert s[..3] == ['`', '`', s[2]];
              }
            }
            UnfenceKeepsHead(s[1..]);
            UnfencedStart(s[2..]);
          }
        }
      }
      assert [s[0]] + rest == Unfence(s);
    }
  }

  lemma NoFenceContains(s: string)
    requires NoFence(s)
    ensures !Contains(s, "```")
  {
    forall i | 0 <= i <= |s|
      ensures !OccursAt(s, "```", i)
    {
      if i + 3 <= |s| {
        var w := s[i..i + 3];
        assert w[0] == s[i] && w[1] == s[i + 1] && w[2] == s[i + 2];
      }
    }
  }

  /** The fence step keeps out a character other than the backtick. */
  lemma UnfenceKeepsOut(s: string, c: char)
    requires c !in s
    ensures c !in Unfence(s)
  {
    ReplaceAllKeepsOut(s, "```", "", c);
  }

  // ---------------------------------------------------------------------
  // `markdownToText`

  /** Bold and italic markers: "**", "*", "__" and "_" deleted in turn. */
  function Unemphasise(s: string): string {
    ReplaceAll(ReplaceAll(ReplaceAll(ReplaceAll(s, "**", ""), "*", ""), "__", ""), "_", "")
  }

  /** No star and no underscore survive. */
  lemma UnemphasiseClean(s: string)
    ensures '*' !in Unemphasise(s) && '_' !in Unemphasise(s)
  {
    var a := ReplaceAll(s, "**", "");
    var b := ReplaceAll(a, "*", "");
    var c := ReplaceAll(b, "__", "");
    ReplaceCharGone(a, '*', "");
    ReplaceAllKeepsOut(b, "__", "", '*');
    ReplaceAllKeepsOut(c, "_", "", '*');
    ReplaceCharGone(c, '_', "");
  }

  /** Deleting markers only keeps characters of the input. */
  lemma UnemphasiseKeepsOut(s: string, c: char)
    requires c !in s
    ensures c !in Unemphasise(s)
  {
    var a := ReplaceAll(s, "**", "");
    var b := ReplaceAll(a, "*", "");
    var d := ReplaceAll(b, "__", "");
    ReplaceAllKeepsOut(s, "**", "", c);
    ReplaceAllKeepsOut(a, "*", "", c);
    ReplaceAllKeepsOut(b, "__", "", c);
    ReplaceAllKeepsOut(d, "_", "", c);
  }

  /** `markdownToText`: links, header marks, emphasis, block quotes,
      horizontal rules, list marks and code fences removed, in that order,
      and the result trimmed. */
  function MarkdownToText(markdown: string): string {
    var linked := Links(markdown);
    var headed := StripMarks(linked, true, IsHash, true);
    var plain := Unemphasise(headed);
    var quoted := StripMarks(plain, true, IsQuote, false);
    var ruled := Rules(quoted);
    var listed := StripMarks(ruled, true, IsListMark, false);
    JsTrim(Unfence(listed))
  }

  /** Neither starts nor ends with JavaScript white space. */
  predicate Trimmed(s: string) {
    s == [] || (!JsIsSpace(s[0]) && !JsIsSpace(s[|s| - 1]))
  }

  /** The markdown-free text is trimmed, holds no star, no underscore and
      no "```". */
  lemma MarkdownClean(markdown: string)
    ensures var r := MarkdownToText(markdown);
      Trimmed(r) && '*' !in r && '_' !in r && !Contains(r, "```")
  {
    var headed := StripMarks(Links(markdown), true, IsHash, true);
    var plain := Unemphasise(headed);
    UnemphasiseClean(headed);
    var quoted := StripMarks(plain, true, IsQuote, false);
    StripMarksKeepOut(plain, true, IsQuote, false, '*');
    StripMarksKeepOut(plain, true, IsQuote, false, '_');
    var ruled := Rules(quoted);
    RulesKeepOut(quoted, '*');
    RulesKeepOut(quoted, '_');
    var listed := StripMarks(ruled, true, IsListMark, false);
    StripMarksKeepOut(ruled, true, IsListMark, false, '*');
    StripMarksKeepOut(ruled, true, IsListMark, false, '_');
    var unfenced := Unfence(listed);
    UnfenceKeepsOut(listed, '*');
    UnfenceKeepsOut(listed, '_');
    UnfenceNoFence(listed);
    NoFenceContains(unfenced);
    TrimShape(unfenced, JsIsSpace);
    TrimKeepsOut(unfenced, JsIsSpace, '*');
    TrimKeepsOut(unfenced, JsIsSpace, '_');
    TrimKeepsOutText(unfenced, JsIsSpace, "```");
  }

  /** Markdown stripping only deletes: a character absent from the input
      is absent from the output. */
  lemma MarkdownKeepsOut(markdown: string, c: char)
    requires c !in markdown
    ensures c !in MarkdownToText(markdown)
  {
    var linked := Links(markdown);
    LinksKeepOut(markdown, c);
    var headed := StripMarks(linked, true, IsHash, true);
    StripMarksKeepOut(linked, true, IsHash, true, c);
    var plain := Unemphasise(headed);
    UnemphasiseKeepsOut(headed, c);
    var quoted := StripMarks(plain, true, IsQuote, false);
    StripMarksKeepOut(plain, true, IsQuote, false, c);
    var ruled := Rules(quoted);
    RulesKeepOut(quoted, c);
    var listed := StripMarks(ruled, true, IsListMark, false);
    StripMarksKeepOut(ruled, true, IsListMark, false, c);
    UnfenceKeepsOut(listed, c);
    TrimKeepsOut(Unfence(listed), JsIsSpace, c);
  }

  /** The characters markdown stripping acts on. */
  predicate MarkdownChar(c: char) {
    c == '[' || c == '#' || c == '*' || c == '_' || c == '>' || c == '-' || c == '+' || c == '`'
  }

  /** Trimmed text without markdown characters comes through unchanged. */
  lemma MarkdownPlain(s: string)
    requires forall k :: 0 <= k < |s| ==> !MarkdownChar(s[k])
    requires Trimmed(s)
    ensures MarkdownToText(s) == s
  {
    LinksAbsent(s);
    StripMarksAbsent(s, true, IsHash, true);
    ReplaceAllAbsent(s, "**", "");
    ReplaceAllAbsent(s, "*", "");
    ReplaceAllAbsent(s, "__", "");
    ReplaceAllAbsent(s, "_", "");
    StripMarksAbsent(s, true, IsQuote, false);
    RulesAbsent(s);
    StripMarksAbsent(s, true, IsListMark, false);
    ReplaceAllAbsent(s, "```", "");
    TrimTrimmed(s, JsIsSpace);
  }

  /** A link "[t](u)" becomes "t". */
  lemma MarkdownLink(text: string, target: string)
    requires |text| > 0 && ']' !in text && Trimmed(text)
    requires forall k :: 0 <= k < |text| ==> !MarkdownChar(text[k])
    requires |target| > 0 && ')' !in target
    ensures MarkdownToText("[" + text + "](" + target + ")") == text
  {
    var link := "[" + text + "](" + target + ")";
    LinkReplaced(text, target, "");
    assert link + "" == link;
    assert text + Links("") == text;
    assert Links(link) == Links(text) by {
      LinksAbsent(text);
    }
    MarkdownPlain(text);
  }

  // ---------------------------------------------------------------------
  // `pronounceNumbers`

  /** Holds no ASCII digit. */
  predicate NoDigit(s: string) {
    forall k :: 0 <= k < |s| ==> !IsDigit(s[k])
  }

  /** Words joined by spaces are spelled in letters. */
  lemma {:induction false} JoinSpelling(ws: seq<string>)
    requires AllWords(ws)
    ensures Spelling(Join(ws, " "))
  {
    if |ws| > 1 {
      assert IsWord(ws[0]);
      JoinSpelling(ws[1..]);
    } else if |ws| == 1 {
      assert IsWord(ws[0]);
    }
  }

  /** `numberToWords` speaks in letters and spaces only. */
  lemma SpokenSpelling(n: nat)
    ensures Spelling(Spoken(Scales, n))
  {
    if n > 0 {
      SpokenIsWords(n);
      JoinSpelling(WordList(GroupWords, Scales, n, 0));
    }
  }

  /** The value of a decimal digit (`parseInt` of one digit). */
  function DigitValue(d: char): (v: nat)
    requires IsDigit(d)
    ensures v < 10 && DigitChar(v) == d
  {
    d as int - '0' as int
  }

  /** One fraction digit, read as the number it is. */
  function DigitWord(d: char): string
    requires IsDigit(d)
  {
    Spoken(Scales, DigitValue(d))
  }

  /** The fraction digits read one by one. */
  function DigitWords(ds: string): (r: seq<string>)
    requires AllDigits(ds)
    ensures |r| == |ds|
  {
    if |ds| == 0 then [] else [DigitWord(ds[0])] + DigitWords(ds[1..])
  }

  /** What replaces one match of the number pattern: the integer part as
      words, then, when the match has a dot, "point" and each fraction
      digit. */
  function NumberText(whole: string, fraction: Option<string>): string
    requires AllDigits(whole)
    requires fraction.Some? ==> AllDigits(fraction.value)
  {
    match fraction
    case None => Spoken(Scales, DecimalValue(whole))
    case Some(ds) => Spoken(Scales, DecimalValue(whole)) + " point " + Join(DigitWords(ds), " ")
  }

  lemma SpellingAppend(a: string, b: string)
    requires Spelling(a) && Spelling(b)
    ensures Spelling(a + b)
  {
  }

  lemma DigitWordSpelling(d: char)
    requires IsDigit(d)
    ensures Spelling(DigitWord(d))
  {
    SpokenSpelling(DigitValue(d));
  }

  /** Fraction digits read out are spelled in letters. */
  lemma {:induction false} DigitWordsSpelling(ds: string)
    requires AllDigits(ds)
    ensures Spelling(Join(DigitWords(ds), " "))
    decreases |ds|
  {
    if |ds| > 0 {
      var w := DigitWord(ds[0]);
      var rest := DigitWords(ds[1..]);
      assert DigitWords(ds) == [w] + rest;
      DigitWordSpelling(ds[0]);
      DigitWordsSpelling(ds[1..]);
      if |rest| > 0 {
        assert ([w] + rest)[1..] == rest;
        assert Join([w] + rest, " ") == w + " " + Join(rest, " ");
        SpellingAppend(w, " ");
        SpellingAppend(w + " ", Join(rest, " "));
      } else {
        assert [w] + rest == [w];
      }
    }
  }

  /** A spoken number is spelled in letters. */
  lemma NumberTextSpelling(whole: string, fraction: Option<string>)
    requires AllDigits(whole)
    requires fraction.Some? ==> AllDigits(fraction.value)
    ensures Spelling(NumberText(whole, fraction))
  {
    SpokenSpelling(DecimalValue(whole));
    if fraction.Some? {
      DigitWordsSpelling(fraction.value);
    }
  }

  /** The replacement callback, as `replace` calls it: with the integer
      digits of a match and, when the match has a dot, its fraction
      digits. */
  type Say = (string, Option<string>) --> string

  /** The callback accepts every pair of digit strings. */
  ghost predicate SaysDigits(say: Say) {
    forall whole: string, fraction: Option<string> ::
      AllDigits(whole) && (fraction.Some? ==> AllDigits(fraction.value)) ==> say.requires(whole, fraction)
  }

  /** The callback accepts digit strings and answers in letters and
      spaces. */
  ghost predicate SaysLetters(say: Say) {
    && SaysDigits(say)
    && forall whole: string, fraction: Option<string> ::
         AllDigits(whole) && (fraction.Some? ==> AllDigits(fraction.value)) ==> Spelling(say(whole, fraction))
  }

  /** The length of the run of digits `s` starts with. */
  function DigitRun(s: string): (n: nat)
    ensures n <= |s| && AllDigits(s[..n])
    ensures n < |s| ==> !IsDigit(s[n])
  {
    if |s| > 0 && IsDigit(s[0]) then
      var n := 1 + DigitRun(s[1..]);
      assert s[..n] == [s[0]] + s[1..][..n - 1];
      n
    else 0
  }

  /** A digit run followed by a non-digit is consumed whole. */
  lemma {:induction false} DigitRunOf(ds: string, rest: string)
    requires AllDigits(ds) && (rest == [] || !IsDigit(rest[0]))
    ensures DigitRun(ds + rest) == |ds|
    decreases |ds|
  {
    if |ds| > 0 {
      assert (ds + rest)[1..] == ds[1..] + rest;
      DigitRunOf(ds[1..], rest);
    } else {
      assert ds + rest == rest;
    }
  }

  /** One match of the number pattern: its integer digits, its fraction
      digits when it has a dot, and how many characters it spans. */
  datatype NumberMatch = NumberMatch(whole: string, fraction: Option<string>, length: nat)

  /** The match of "digits, an optional dot, more digits" at the start of
      `s`, all quantifiers greedy. */
  function MatchNumber(s: string): (r: NumberMatch)
    requires |s| > 0 && IsDigit(s[0])
    ensures 0 < r.length <= |s|
    ensures AllDigits(r.whole) && (r.fraction.Some? ==> AllDigits(r.fraction.value))
  {
    var n := DigitRun(s);
    if n < |s| && s[n] == '.' then
      var m := DigitRun(s[n + 1..]);
      assert s[n + 1..][..m] == s[n + 1..n + 1 + m];
      NumberMatch(s[..n], Some(s[n + 1..n + 1 + m]), n + 1 + m)
    else
      NumberMatch(s[..n], None, n)
  }

  /** Digits followed by neither a dot nor a digit are a whole match. */
  lemma MatchInteger(ds: string, q: string)
    requires |ds| > 0 && AllDigits(ds)
    requires q == [] || (!IsDigit(q[0]) && q[0] != '.')
    ensures MatchNumber(ds + q) == NumberMatch(ds, None, |ds|)
  {
    DigitRunOf(ds, q);
    assert (ds + q)[..|ds|] == ds;
  }

  /** Digits, a dot and the digits after it are a whole match. */
  lemma MatchDecimal(ds: string, fs: string, q: string)
    requires |ds| > 0 && AllDigits(ds) && AllDigits(fs)
    requires q == [] || !IsDigit(q[0])
    ensures MatchNumber(ds + ("." + (fs + q))) == NumberMatch(ds, Some(fs), |ds| + 1 + |fs|)
  {
    DecimalPieces(ds, fs, q);
    DigitRunOf(ds, "." + (fs + q));
    DigitRunOf(fs, q);
  }

  /** Where the pieces of "digits, dot, digits, rest" sit. */
  lemma DecimalPieces(ds: string, fs: string, q: string)
    ensures var s := ds + ("." + (fs + q));
      && s[..|ds|] == ds && s[|ds|] == '.' && s[|ds| + 1..] == fs + q
      && s[|ds| + 1..|ds| + 1 + |fs|] == fs
  {
  }

  /** The global replacement of the number pattern by the callback's
      answer, scanning left to right. */
  function SpeakWith(say: Say, s: string): string
    requires SaysDigits(say)
    decreases |s|
  {
    if |s| == 0 then ""
    else if !IsDigit(s[0]) then [s[0]] + SpeakWith(say, s[1..])
    else
      var t := MatchNumber(s);
      say(t.whole, t.fraction) + SpeakWith(say, s[t.length..])
  }

  lemma NumberTextSays()
    ensures SaysLetters(NumberText)
  {
    forall whole: string, fraction: Option<string> |
      AllDigits(whole) && (fraction.Some? ==> AllDigits(fraction.value))
      ensures Spelling(NumberText(whole, fraction))
    {
      NumberTextSpelling(whole, fraction);
    }
  }

  /** Every number in the text replaced by its spoken form. */
  function SpeakNumbers(s: string): string {
    NumberTextSays();
    SpeakWith(NumberText, s)
  }

  /** `pronounceNumbers`: Chinese text keeps its digits, any other
      language hears them as words. */
  function PronounceNumbers(text: string, language: string): string {
    if StartsWith(language, "zh") then text else SpeakNumbers(text)
  }

  /** Spelled text holds no digit. */
  lemma SpellingNoDigit(s: string)
    requires Spelling(s)
    ensures NoDigit(s)
  {
    forall k | 0 <= k < |s|
      ensures !IsDigit(s[k])
    {
      assert SpellingChar(s[k]);
    }
  }

  /** A callback answering in letters leaves no digit behind. */
  lemma {:induction false} SpeakWithNoDigit(say: Say, s: string)
    requires SaysLetters(say)
    ensures NoDigit(SpeakWith(say, s))
    decreases |s|
  {
    if |s| > 0 {
      if !IsDigit(s[0]) {
        SpeakWithNoDigit(say, s[1..]);
      } else {
        var t := MatchNumber(s);
        SpellingNoDigit(say(t.whole, t.fraction));
        SpeakWithNoDigit(say, s[t.length..]);
      }
    }
  }

  /** A callback answering in letters brings in nothing else. */
  lemma {:induction false} SpeakWithKeepsOut(say: Say, s: string, c: char)
    requires SaysLetters(say) && c !in s && !SpellingChar(c)
    ensures c !in SpeakWith(say, s)
    decreases |s|
  {
    if |s| > 0 {
      if !IsDigit(s[0]) {
        SpeakWithKeepsOut(say, s[1..], c);
      } else {
        var t := MatchNumber(s);
        assert Spelling(say(t.whole, t.fraction));
        SpeakWithKeepsOut(say, s[t.length..], c);
      }
    }
  }

  /** Text without digits is copied as it is. */
  lemma {:induction false} SpeakWithPlain(say: Say, p: string, q: string)
    requires SaysDigits(say) && NoDigit(p)
    ensures SpeakWith(say, p + q) == p + SpeakWith(say, q)
    decreases |p|
  {
    if |p| > 0 {
      assert (p + q)[1..] == p[1..] + q;
      SpeakWithPlain(say, p[1..], q);
      AppendAssoc([p[0]], p[1..], SpeakWith(say, q));
      assert [p[0]] + p[1..] == p;
    } else {
      assert p + q == q;
    }
  }

  /** A digit run not followed by a dot or a digit is one match. */
  lemma NumberAt(say: Say, ds: string, q: string)
    requires SaysDigits(say) && |ds| > 0 && AllDigits(ds)
    requires q == [] || (!IsDigit(q[0]) && q[0] != '.')
    ensures SpeakWith(say, ds + q) == say(ds, None) + SpeakWith(say, q)
  {
    var s := ds + q;
    assert IsDigit(s[0]);
    MatchInteger(ds, q);
    var t := MatchNumber(s);
    assert t.whole == ds && t.fraction == None && s[t.length..] == q;
    SpeakWithMatch(say, s);
  }

  /** A digit run, a dot and the digits after it are one match. */
  lemma DecimalAt(say: Say, ds: string, fs: string, q: string)
    requires SaysDigits(say) && |ds| > 0 && AllDigits(ds) && AllDigits(fs)
    requires q == [] || !IsDigit(q[0])
    ensures SpeakWith(say, ds + "." + fs + q) == say(ds, Some(fs)) + SpeakWith(say, q)
  {
    DecimalAtRight(say, ds, fs, q);
    AppendAssoc(ds, ".", fs);
    AppendAssoc(ds, "." + fs, q);
    AppendAssoc(".", fs, q);
  }

  /** DecimalAt with the text grouped from the right. */
  lemma DecimalAtRight(say: Say, ds: string, fs: string, q: string)
    requires SaysDigits(say) && |ds| > 0 && AllDigits(ds) && AllDigits(fs)
    requires q == [] || !IsDigit(q[0])
    ensures SpeakWith(say, ds + ("." + (fs + q))) == say(ds, Some(fs)) + SpeakWith(say, q)
  {
    var s := ds + ("." + (fs + q));
    assert IsDigit(s[0]);
    MatchDecimal(ds, fs, q);
    var t := MatchNumber(s);
    assert t.whole == ds && t.fraction == Some(fs) && s[t.length..] == q;
    SpeakWithMatch(say, s);
  }

  /** One step of the scan at a digit. */
  lemma SpeakWithMatch(say: Say, s: string)
    requires SaysDigits(say) && |s| > 0 && IsDigit(s[0])
    ensures var t := MatchNumber(s);
      SpeakWith(say, s) == say(t.whole, t.fraction) + SpeakWith(say, s[t.length..])
  {
  }

  /** Outside Chinese no digit is left; Chinese text is returned as it
      is. */
  lemma PronounceNumbersNoDigit(text: string, language: string)
    ensures StartsWith(language, "zh") ==> PronounceNumbers(text, language) == text
    ensures !StartsWith(language, "zh") ==> NoDigit(PronounceNumbers(text, language))
  {
    NumberTextSays();
    SpeakWithNoDigit(NumberText, text);
  }

  /** No character other than letters and spaces comes in. */
  lemma PronounceNumbersKeepsOut(text: string, language: string, c: char)
    requires c !in text && !SpellingChar(c)
    ensures c !in PronounceNumbers(text, language)
  {
    NumberTextSays();
    SpeakWithKeepsOut(NumberText, text, c);
  }

  /** A digit run not followed by a dot is spoken as its value. */
  lemma NumberReplaced(ds: string, q: string)
    requires |ds| > 0 && AllDigits(ds)
    requires q == [] || (!IsDigit(q[0]) && q[0] != '.')
    ensures SpeakNumbers(ds + q) == Spoken(Scales, DecimalValue(ds)) + SpeakNumbers(q)
    ensures DecimalValue(ds) < Pow1000(4) ==>
      SpeakNumbers(ds + q) == Spoken(SourceScales, DecimalValue(ds)) + SpeakNumbers(q)
  {
    NumberTextSays();
    NumberAt(NumberText, ds, q);
    if DecimalValue(ds) < Pow1000(4) {
      SpokenBelowTrillion(DecimalValue(ds));
    }
  }

  /** A digit run, a dot and more digits are spoken as the integer part,
      "point" and the fraction digits one by one. */
  lemma DecimalReplaced(ds: string, fs: string, q: string)
    requires |ds| > 0 && AllDigits(ds) && AllDigits(fs)
    requires q == [] || !IsDigit(q[0])
    ensures SpeakNumbers(ds + "." + fs + q)
         == Spoken(Scales, DecimalValue(ds)) + " point " + Join(DigitWords(fs), " ") + SpeakNumbers(q)
    ensures DecimalValue(ds) < Pow1000(4) ==>
      SpeakNumbers(ds + "." + fs + q)
        == Spoken(SourceScales, DecimalValue(ds)) + " point " + Join(DigitWords(fs), " ") + SpeakNumbers(q)
  {
    NumberTextSays();
    DecimalAt(NumberText, ds, fs, q);
    if DecimalValue(ds) < Pow1000(4) {
      SpokenBelowTrillion(DecimalValue(ds));
    }
  }

  /** Text without digits is left alone. */
  lemma SpeakNumbersPlain(p: string, q: string)
    requires NoDigit(p)
    ensures SpeakNumbers(p + q) == p + SpeakNumbers(q)
  {
    NumberTextSays();
    SpeakWithPlain(NumberText, p, q);
  }

  /** A number ending in a dot is read with nothing after "point". */
  lemma TrailingDot(ds: string)
    requires |ds| > 0 && AllDigits(ds)
    ensures SpeakNumbers(ds + ".") == Spoken(Scales, DecimalValue(ds)) + " point "
  {
    var t := ds + ".";
    var w := Spoken(Scales, DecimalValue(ds)) + " point ";
    DecimalReplaced(ds, "", "");
    assert t + "" == t;
    assert t + "" + "" == t;
    assert Join(DigitWords(""), " ") == "";
    assert SpeakNumbers("") == "";
    assert w + "" == w;
    assert w + "" + "" == w;
  }

  // ---------------------------------------------------------------------
  // `removeEmotions`

  /** What may stand between the stars of a stage direction: ASCII
      letters, digits, spaces and dashes. */
  predicate EmotionChar(c: char) {
    IsAsciiLetter(c) || IsDigit(c) || c == ' ' || c == '-'
  }

  /** Every "*feeling*" deleted, the stars included; a star that opens
      none is kept. */
  function Emotions(s: string): string
    decreases |s|
  {
    if |s| == 0 then ""
    else if s[0] == '*' then
      var n := 1 + RunLength(s[1..], EmotionChar);
      if n < |s| && s[n] == '*' then Emotions(s[n + 1..]) else "*" + Emotions(s[1..])
    else [s[0]] + Emotions(s[1..])
  }

  /** `removeEmotions`: the stage directions deleted, the rest trimmed. */
  function RemoveEmotions(text: string): string {
    JsTrim(Emotions(text))
  }

  /** Text without stars is copied as it is. */
  lemma {:induction false} EmotionsPlain(p: string, q: string)
    requires '*' !in p
    ensures Emotions(p + q) == p + Emotions(q)
    decreases |p|
  {
    if |p| > 0 {
      assert (p + q)[0] == p[0];
      assert (p + q)[1..] == p[1..] + q;
      EmotionsPlain(p[1..], q);
      AppendAssoc([p[0]], p[1..], Emotions(q));
      assert [p[0]] + p[1..] == p;
    } else {
      assert p + q == q;
    }
  }

  /** A text without stars is left alone. */
  lemma EmotionsAbsent(s: string)
    requires '*' !in s
    ensures Emotions(s) == s
  {
    EmotionsPlain(s, "");
    assert s + "" == s;
  }

  /** A stage direction is deleted with its stars. */
  lemma EmotionDropped(w: string, rest: string)
    requires forall k :: 0 <= k < |w| ==> EmotionChar(w[k])
    ensures Emotions("*" + w + "*" + rest) == Emotions(rest)
  {
    var s := "*" + (w + ("*" + rest));
    assert s[1..] == w + ("*" + rest);
    RunLengthOf(w, "*" + rest, EmotionChar);
    assert s[|w| + 1] == '*';
    assert s[|w| + 2..] == rest;
    AppendAssoc("*", w, "*");
    AppendAssoc("*" + w, "*", rest);
    AppendAssoc("*", w, "*" + rest);
  }

  /** Deleting stage directions only keeps characters of the input. */
  lemma {:induction false} EmotionsKeepOut(s: string, c: char)
    requires c !in s
    ensures c !in Emotions(s)
    decreases |s|
  {
    if |s| > 0 {
      if s[0] == '*' {
        var n := 1 + RunLength(s[1..], EmotionChar);
        if n < |s| && s[n] == '*' {
          EmotionsKeepOut(s[n + 1..], c);
        } else {
          EmotionsKeepOut(s[1..], c);
        }
      } else {
        EmotionsKeepOut(s[1..], c);
      }
    }
  }

  /** The run after a star in `t` does not end at a star. */
  predicate OpensNone(t: string) {
    var m := RunLength(t, EmotionChar);
    !(m < |t| && t[m] == '*')
  }

  /** A star whose run ends elsewhere than at a star is kept. */
  lemma StarKept(t: string)
    requires OpensNone(t)
    ensures Emotions("*" + t) == "*" + Emotions(t)
  {
    assert ("*" + t)[1..] == t;
  }

  /** The scan keeps the run at the head of `t` and the character after
      it, so a star kept before `t` is kept before the result too. */
  lemma OpensNoneKept(t: string)
    requires OpensNone(t)
    ensures OpensNone(Emotions(t))
  {
    var m := RunLength(t, EmotionChar);
    var run := t[..m];
    assert t == run + t[m..];
    assert forall k :: 0 <= k < |run| ==> EmotionChar(run[k]);
    assert '*' !in run;
    EmotionsPlain(run, t[m..]);
    if m == |t| {
      assert t[m..] == [];
      assert Emotions(t) == run + [];
      RunLengthOf(run, [], EmotionChar);
    } else {
      var x := t[m];
      assert t[m..] == [x] + t[m + 1..];
      EmotionsPlain([x], t[m + 1..]);
      var e := Emotions(t[m + 1..]);
      RunLengthOf(run, [x] + e, EmotionChar);
      assert (run + ([x] + e))[m] == x;
    }
  }

  /** Deleting stage directions twice deletes nothing more: what is left
      holds none. */
  lemma {:induction false} EmotionsIdempotent(s: string)
    ensures Emotions(Emotions(s)) == Emotions(s)
    decreases |s|
  {
    if |s| > 0 {
      if s[0] != '*' {
        EmotionsIdempotent(s[1..]);
        EmotionsPlain([s[0]], Emotions(s[1..]));
      } else {
        var n := 1 + RunLength(s[1..], EmotionChar);
        if n < |s| && s[n] == '*' {
          EmotionsIdempotent(s[n + 1..]);
        } else {
          var t := s[1..];
          assert OpensNone(t);
          EmotionsIdempotent(t);
          OpensNoneKept(t);
          StarKept(Emotions(t));
        }
      }
    }
  }

  // ---------------------------------------------------------------------
  // `pronounceCodeBlock`

  /** What inline code may hold: anything but a backtick or a newline. */
  predicate InlineChar(c: char) {
    c != '`' && c != '\n'
  }

  /** The code starting at the backtick `s` opens: inline code "`x`", with
      `x` non-empty, on one line and free of backticks, is tried first,
      then a block "```x```" closed by the first "```" after the opening
      one. Gives the content and the length of the whole match. */
  function CodeAt(s: string): (r: Option<(string, nat)>)
    requires |s| > 0 && s[0] == '`'
    ensures r.Some? ==> 2 <= r.value.1 <= |s|
  {
    var n := RunLength(s[1..], InlineChar);
    if 0 < n && n + 1 < |s| && s[n + 1] == '`' then Some((s[1..n + 1], n + 2))
    else if StartsWith(s, "```") then
      match Find(s, "```", 3)
      case Some(j) => Some((s[3..j], j + 3))
      case None => None
    else None
  }

  /** `pronounceCodeBlock`: the content of each piece of code read out
      with its punctuation; a backtick that opens no code is kept. */
  function CodeBlocks(s: string): string
    decreases |s|
  {
    if |s| == 0 then ""
    else if s[0] != '`' then [s[0]] + CodeBlocks(s[1..])
    else match CodeAt(s)
      case Some((content, length)) => PronounceSpecialCharacters(content, true) + CodeBlocks(s[length..])
      case None => "`" + CodeBlocks(s[1..])
  }

  /** Text without backticks is copied as it is. */
  lemma {:induction false} CodeBlocksPlain(p: string, q: string)
    requires '`' !in p
    ensures CodeBlocks(p + q) == p + CodeBlocks(q)
    decreases |p|
  {
    if |p| > 0 {
      assert (p + q)[0] == p[0];
      assert (p + q)[1..] == p[1..] + q;
      CodeBlocksPlain(p[1..], q);
      AppendAssoc([p[0]], p[1..], CodeBlocks(q));
      assert [p[0]] + p[1..] == p;
    } else {
      assert p + q == q;
    }
  }

  /** A text without backticks is left alone. */
  lemma CodeBlocksAbsent(s: string)
    requires '`' !in s
    ensures CodeBlocks(s) == s
  {
    CodeBlocksPlain(s, "");
    assert s + "" == s;
  }

  /** Inline code "`x`" is read out as `x` with its punctuation named. */
  lemma InlineCode(x: string, rest: string)
    requires |x| > 0 && forall k :: 0 <= k < |x| ==> InlineChar(x[k])
    ensures CodeBlocks("`" + x + "`" + rest) == PronounceSpecialCharacters(x, true) + CodeBlocks(rest)
  {
    var s := "`" + (x + ("`" + rest));
    assert s[1..] == x + ("`" + rest);
    RunLengthOf(x, "`" + rest, InlineChar);
    assert s[|x| + 1] == '`';
    assert s[1..|x| + 1] == x;
    assert CodeAt(s) == Some((x, |x| + 2));
    assert s[|x| + 2..] == rest;
    AppendAssoc("`", x, "`");
    AppendAssoc("`" + x, "`", rest);
    AppendAssoc("`", x, "`" + rest);
  }

  /** A block "```x```" whose content holds no backtick is read out as
      `x` with its punctuation named. */
  lemma FencedCode(x: string, rest: string)
    requires '`' !in x
    ensures CodeBlocks("```" + x + "```" + rest) == PronounceSpecialCharacters(x, true) + CodeBlocks(rest)
  {
    var s := "```" + x + "```" + rest;
    FenceSlices(x, rest);
    FenceRead(s, x);
  }

  /** Where the pieces of "```", `x`, "```", `rest` sit. */
  lemma FenceSlices(x: string, rest: string)
    ensures var s := "```" + x + "```" + rest;
      var j := 3 + |x|;
      && |s| == j + 3 + |rest| && s[0] == '`'
      && s[..3] == "```" && s[3..j] == x && s[j..j + 3] == "```" && s[j + 3..] == rest
  {
  }

  /** A string that opens with "```", then `x` without backticks, then
      "```": the code read there is `x`, and it ends after the closing
      fence. */
  lemma FenceRead(s: string, x: string)
    requires |s| >= |x| + 6 && '`' !in x
    requires s[..3] == "```" && s[3..3 + |x|] == x && s[3 + |x|..6 + |x|] == "```"
    ensures CodeAt(s) == Some((x, |x| + 6))
  {
    var j := 3 + |x|;
    assert s[1] == '`' && s[1..][0] == '`';
    assert OccursAt(s, "```", j);
    forall i | 3 <= i < j
      ensures !OccursAt(s, "```", i)
    {
      assert s[i] == s[3..j][i - 3];
    }
    assert StartsWith(s, "```");
    FindFirst(s, "```", 3);
  }

  /** Reading out code brings in nothing but letters and spaces. */
  lemma {:induction false} CodeBlocksKeepOut(s: string, c: char)
    requires c !in s && !SpellingChar(c)
    ensures c !in CodeBlocks(s)
    decreases |s|
  {
    if |s| > 0 {
      if s[0] != '`' {
        CodeBlocksKeepOut(s[1..], c);
      } else {
        match CodeAt(s)
        case Some((content, length)) =>
          assert c !in content;
          PronounceSpecialKeepsOut(content, true, c);
          CodeBlocksKeepOut(s[length..], c);
        case None =>
          CodeBlocksKeepOut(s[1..], c);
      }
    }
  }

  // ---------------------------------------------------------------------
  // `preprocessSentence`

  /** `removeEmoji`: emoji become spaces and the text is trimmed. Which
      characters are emoji is not part of this model, so only the trimming
      is. */
  function RemoveEmoji(sentence: string): string {
    JsTrim(sentence)
  }

  /** `preprocessSentence`: code read out, markdown stripped, numbers
      spelled, stage directions deleted, special characters named, emoji
      removed and the result trimmed, in that order. */
  function PreprocessSentence(sentence: string, language: string): string {
    var coded := CodeBlocks(sentence);
    var text := MarkdownToText(coded);
    var spoken := PronounceNumbers(text, language);
    var calm := RemoveEmotions(spoken);
    var named := PronounceSpecialCharacters(calm, false);
    JsTrim(RemoveEmoji(named))
  }

  /** The stages after the numbers bring in only letters and spaces. */
  lemma LaterStagesKeepOut(spoken: string, c: char)
    requires c !in spoken && !SpellingChar(c)
    ensures c !in JsTrim(RemoveEmoji(PronounceSpecialCharacters(RemoveEmotions(spoken), false)))
  {
    EmotionsKeepOut(spoken, c);
    TrimKeepsOut(Emotions(spoken), JsIsSpace, c);
    var named := PronounceSpecialCharacters(RemoveEmotions(spoken), false);
    PronounceSpecialKeepsOut(RemoveEmotions(spoken), false, c);
    TrimKeepsOut(named, JsIsSpace, c);
    TrimKeepsOut(JsTrim(named), JsIsSpace, c);
  }

  /** The whole pipeline brings in only letters and spaces: a character
      that is neither and is absent from the sentence is absent from the
      result. */
  lemma PreprocessKeepsOut(sentence: string, language: string, c: char)
    requires c !in sentence && !SpellingChar(c)
    ensures c !in PreprocessSentence(sentence, language)
  {
    var coded := CodeBlocks(sentence);
    CodeBlocksKeepOut(sentence, c);
    var text := MarkdownToText(coded);
    MarkdownKeepsOut(coded, c);
    PronounceNumbersKeepsOut(text, language, c);
    LaterStagesKeepOut(PronounceNumbers(text, language), c);
  }

  /** A character of the result is a letter, a space or was there after
      the numbers were spelled. */
  lemma LaterStagesFrom(spoken: string)
    ensures forall c ::
      c in JsTrim(RemoveEmoji(PronounceSpecialCharacters(RemoveEmotions(spoken), false))) ==> c in spoken || SpellingChar(c)
  {
    forall c | c !in spoken && !SpellingChar(c)
      ensures c !in JsTrim(RemoveEmoji(PronounceSpecialCharacters(RemoveEmotions(spoken), false)))
    {
      LaterStagesKeepOut(spoken, c);
    }
  }

  /** A text made of the characters of a digit-free text, letters and
      spaces is digit-free. */
  lemma NoDigitFrom(a: string, b: string)
    requires NoDigit(a) && forall c :: c in b ==> c in a || SpellingChar(c)
    ensures NoDigit(b)
  {
    forall k | 0 <= k < |b|
      ensures !IsDigit(b[k])
    {
      assert b[k] in b;
    }
  }

  /** Trimming leaves no space at either end. */
  lemma JsTrimTrimmed(s: string)
    ensures Trimmed(JsTrim(s))
  {
    TrimShape(s, JsIsSpace);
  }

  /** Trimming keeps a table's characters out. */
  lemma TrimNoKeys(names: seq<(char, string)>, s: string)
    requires NoKeys(names, s)
    ensures NoKeys(names, JsTrim(s))
  {
    forall i | 0 <= i < |names|
      ensures names[i].0 !in JsTrim(s)
    {
      TrimKeepsOut(s, JsIsSpace, names[i].0);
    }
  }

  /** After the stages that follow the numbers, the text is trimmed, names
      every special character and holds a digit only if it held one
      before. */
  lemma LaterStagesClean(spoken: string)
    ensures var r := JsTrim(RemoveEmoji(PronounceSpecialCharacters(RemoveEmotions(spoken), false)));
      && Trimmed(r)
      && NoKeys(SpecialNames, r)
      && (NoDigit(spoken) ==> NoDigit(r))
  {
    var named := PronounceSpecialCharacters(RemoveEmotions(spoken), false);
    JsTrimTrimmed(JsTrim(named));
    PronounceSpecialGone(RemoveEmotions(spoken), false);
    TrimNoKeys(SpecialNames, named);
    TrimNoKeys(SpecialNames, JsTrim(named));
    LaterStagesFrom(spoken);
    if NoDigit(spoken) {
      NoDigitFrom(spoken, JsTrim(JsTrim(named)));
    }
  }

  /** What comes out is trimmed and names every special character; outside
      Chinese it holds no digit either. */
  lemma PreprocessClean(sentence: string, language: string)
    ensures var r := PreprocessSentence(sentence, language);
      && Trimmed(r)
      && NoKeys(SpecialNames, r)
      && (!StartsWith(language, "zh") ==> NoDigit(r))
  {
    var text := MarkdownToText(CodeBlocks(sentence));
    PronounceNumbersNoDigit(text, language);
    LaterStagesClean(PronounceNumbers(text, language));
  }

  /** The stage-direction step never deletes anything inside the pipeline:
      markdown stripping has already removed every star, so all it does is
      trim. */
  lemma EmotionsNeverFire(sentence: string, language: string)
    ensures var spoken := PronounceNumbers(MarkdownToText(CodeBlocks(sentence)), language);
      RemoveEmotions(spoken) == JsTrim(spoken)
  {
    var text := MarkdownToText(CodeBlocks(sentence));
    MarkdownClean(CodeBlocks(sentence));
    PronounceNumbersKeepsOut(text, language, '*');
    EmotionsAbsent(PronounceNumbers(text, language));
  }

  /** Emphasis removal turns "*w*" into "w". */
  lemma UnemphasiseStars(w: string)
    requires IsWord(w)
    ensures Unemphasise("*" + w + "*") == w
  {
    var s := "*" + w + "*";
    assert '*' !in w && '_' !in w;
    assert s[1..] == w + "*";
    assert ReplaceAll(s, "**", "") == s by {
      assert s[..2] != "**" by {
        assert s[..2][1] == w[0];
      }
      ReplaceAllPlain(w, "*", "**", "");
    }
    assert ReplaceAll(s, "*", "") == w by {
      assert s[..1] == "*";
      ReplaceAllPlain(w, "*", "*", "");
      assert ReplaceAll("*", "*", "") == "" + ReplaceAll("", "*", "");
      assert w + "" == w;
    }
    ReplaceAllAbsent(w, "__", "");
    ReplaceAllAbsent(w, "_", "");
  }

  /** A lower-case word is plain, trimmed text. */
  lemma WordIsPlain(w: string)
    requires IsWord(w)
    ensures forall k :: 0 <= k < |w| ==> !MarkdownChar(w[k]) && !IsDigit(w[k])
    ensures Trimmed(w) && JsTrim(w) == w && Spelling(w)
    ensures '*' !in w && '`' !in w && '[' !in w && '_' !in w
  {
    TrimTrimmed(w, JsIsSpace);
  }

  /** Markdown stripping turns "*w*" into "w". */
  lemma MarkdownStars(w: string)
    requires IsWord(w)
    ensures MarkdownToText("*" + w + "*") == w
  {
    var s := "*" + w + "*";
    WordIsPlain(w);
    LinksAbsent(s);
    StripMarksAbsent(s, true, IsHash, true);
    UnemphasiseStars(w);
    LinksAbsent(w);
    StripMarksAbsent(w, true, IsHash, true);
    ReplaceAllAbsent(w, "**", "");
    ReplaceAllAbsent(w, "*", "");
    ReplaceAllAbsent(w, "__", "");
    ReplaceAllAbsent(w, "_", "");
    assert Unemphasise(w) == w;
    MarkdownPlain(w);
  }

  /** A word has no number to spell. */
  lemma NumbersInWord(w: string, language: string)
    requires IsWord(w)
    ensures PronounceNumbers(w, language) == w
  {
    if !StartsWith(language, "zh") {
      WordIsPlain(w);
      SpeakNumbersPlain(w, "");
      assert SpeakNumbers("") == "";
      assert w + "" == w;
    }
  }

  /** The stages after the numbers leave a word alone. */
  lemma LaterStagesWord(w: string)
    requires IsWord(w)
    ensures JsTrim(RemoveEmoji(PronounceSpecialCharacters(RemoveEmotions(w), false))) == w
  {
    WordIsPlain(w);
    EmotionsAbsent(w);
    SpecialNamesGood();
    PronounceSpelling(w, SpecialNames);
  }

  /** A stage direction such as "*smiles*" is read out as "smiles": the
      stars go with the markdown before the stage-direction step looks
      for them. */
  lemma StageDirectionSpoken(w: string, language: string)
    requires IsWord(w)
    ensures PreprocessSentence("*" + w + "*", language) == w
  {
    var s := "*" + w + "*";
    WordIsPlain(w);
    assert '`' !in s;
    CodeBlocksAbsent(s);
    MarkdownStars(w);
    NumbersInWord(w, language);
    LaterStagesWord(w);
  }

}
