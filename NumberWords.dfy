/** `numberToWords` and its helper `convertGroup`, the part of the text
    clean-up before speech synthesis that spells an integer in English words:
    base-1000 groups, most significant first, each followed by its scale
    name. Beside the two loops sits an independent reading of the words
    back into a number, which gives the round trip. */
module NumberWords {
  import opened Common

  const Ones: seq<string> := ["", "one", "two", "three", "four", "five", "six", "seven", "eight", "nine"]
  const Tens: seq<string> := ["", "", "twenty", "thirty", "forty", "fifty", "sixty", "seventy", "eighty", "ninety"]
  const Teens: seq<string> := ["ten", "eleven", "twelve", "thirteen", "fourteen", "fifteen", "sixteen",
                                "seventeen", "eighteen", "nineteen"]

  /** The scale names `numberToWords` has. */
  const SourceScales: seq<string> := ["", "thousand", "million", "billion"]

  /** The scale names extended to the two next short-scale names, enough
      for every integer below 10^18 and so for every integer a JavaScript
      number holds exactly. */
  const Scales: seq<string> := SourceScales + ["trillion", "quadrillion"]

  /** `scales[i]` inside a string concatenation: past the end JavaScript
      reads `undefined` and spells it "undefined". */
  function ScaleName(scales: seq<string>, i: nat): string {
    if i < |scales| then scales[i] else "undefined"
  }

  /** A base-1000 group. */
  type Group = g: nat | g < 1000

  /** The hundreds of a group: a digit and "hundred". */
  function HundredsWords(h: nat): (r: seq<string>)
    requires h < 10
  {
    if h > 0 then [Ones[h], "hundred"] else []
  }

  /** The last two digits: a tens name and maybe a digit, or a teen, or a
      single digit. */
  function TensWords(t: nat): (r: seq<string>)
    requires t < 100
  {
    if t >= 20 then (if t % 10 > 0 then [Tens[t / 10], Ones[t % 10]] else [Tens[t / 10]])
    else if t >= 10 then [Teens[t - 10]]
    else if t > 0 then [Ones[t]]
    else []
  }

  /** The words `convertGroup` spells for a group. */
  function GroupWords(g: Group): (r: seq<string>) {
    HundredsWords(g / 100) + TensWords(g % 100)
  }

  /** Every word followed by one space, as the source appends them. */
  function Spaced(ws: seq<string>): string {
    if |ws| == 0 then "" else ws[0] + " " + Spaced(ws[1..])
  }

  lemma {:induction false} SpacedAppend(a: seq<string>, b: seq<string>)
    ensures Spaced(a + b) == Spaced(a) + Spaced(b)
  {
    if |a| == 0 {
      assert a + b == b;
    } else {
      SpacedAppend(a[1..], b);
      assert (a + b)[1..] == a[1..] + b;
      AppendAssoc(a[0] + " ", Spaced(a[1..]), Spaced(b));
    }
  }

  lemma SpacedOne(w: string)
    ensures Spaced([w]) == w + " "
  {
    assert [w][1..] == [];
  }

  lemma SpacedTwo(v: string, w: string)
    ensures Spaced([v, w]) == v + " " + w + " "
  {
    assert [v, w][1..] == [w];
    SpacedOne(w);
  }

  /** What the hundreds step appends. */
  lemma HundredsText(h: nat)
    requires h < 10
    ensures Spaced(HundredsWords(h)) == if h > 0 then Ones[h] + " hundred " else ""
  {
    if h > 0 {
      SpacedTwo(Ones[h], "hundred");
      assert Ones[h] + " " + "hundred" + " " == Ones[h] + " hundred ";
    }
  }

  /** What the tens-and-ones step appends. */
  lemma TensText(t: nat)
    requires t < 100
    ensures t >= 20 && t % 10 > 0 ==> Spaced(TensWords(t)) == Tens[t / 10] + " " + Ones[t % 10] + " "
    ensures t >= 20 && t % 10 == 0 ==> Spaced(TensWords(t)) == Tens[t / 10] + " "
    ensures 10 <= t < 20 ==> Spaced(TensWords(t)) == Teens[t - 10] + " "
    ensures 0 < t < 10 ==> Spaced(TensWords(t)) == Ones[t] + " "
    ensures t == 0 ==> Spaced(TensWords(t)) == ""
  {
    if t >= 20 && t % 10 > 0 {
      SpacedTwo(Tens[t / 10], Ones[t % 10]);
    } else if t >= 20 {
      SpacedOne(Tens[t / 10]);
    } else if t >= 10 {
      SpacedOne(Teens[t - 10]);
    } else if t > 0 {
      SpacedOne(Ones[t]);
    }
  }

  lemma AppendAssoc3(a: string, b: string, c: string, d: string, e: string)
    ensures (((a + b) + c) + d) + e == a + (((b + c) + d) + e)
  {
  }

  /** `convertGroup`: the group's words, each followed by a space. */
  method ConvertGroup(n0: Group) returns (result: string)
    ensures result == Spaced(GroupWords(n0))
  {
    var n: nat := n0;
    result := "";
    if n >= 100 {
      result := result + Ones[n / 100] + " hundred ";
      n := n % 100;
      assert result == Spaced(HundredsWords(n0 / 100)) by { HundredsText(n0 / 100); }
    } else {
      assert result == Spaced(HundredsWords(n0 / 100)) by { HundredsText(n0 / 100); }
    }
    assert n == n0 % 100;
    // The tens and units words, appended to the result in one step.
    var rest := "";
    if n >= 20 {
      rest := Tens[n / 10] + " ";
      n := n % 10;
      if n > 0 {
        rest := rest + Ones[n] + " ";
      }
    } else if n >= 10 {
      rest := Teens[n - 10] + " ";
    } else if n > 0 {
      rest := Ones[n] + " ";
    }
    assert rest == Spaced(TensWords(n0 % 100)) by { TensText(n0 % 100); }
    result := result + rest;
    assert result == Spaced(GroupWords(n0)) by {
      SpacedAppend(HundredsWords(n0 / 100), TensWords(n0 % 100));
    }
  }

  /** The words of `n`'s base-1000 groups from index `gi` on, most
      significant first, each group spelled by `spell`; a zero group says
      nothing and the empty scale name of the units group is no word. */
  function WordList(spell: Group -> seq<string>, scales: seq<string>, n: nat, gi: nat): seq<string>
    decreases n
  {
    if n == 0 then []
    else
      WordList(spell, scales, n / 1000, gi + 1)
      + (if n % 1000 == 0 then []
         else spell(n % 1000) + (if ScaleName(scales, gi) == "" then [] else [ScaleName(scales, gi)]))
  }

  /** The result of `numberToWords` for a scale table: "zero", or the words
      joined by single spaces. */
  function Spoken(scales: seq<string>, n: nat): string {
    if n == 0 then "zero" else Join(WordList(GroupWords, scales, n, 0), " ")
  }

  /** The text the loop has prepended once `num` has been divided down to
      `n` at group index `gi`, before trimming. */
  function Spelled(spell: Group -> seq<string>, scales: seq<string>, n: nat, gi: nat): string
    decreases n
  {
    if n == 0 then ""
    else
      Spelled(spell, scales, n / 1000, gi + 1)
      + (if n % 1000 == 0 then "" else Spaced(spell(n % 1000)) + ScaleName(scales, gi) + " ")
  }

  /** A word is a non-empty run of lower-case letters; in particular it
      holds no white space and no digit. */
  predicate IsWord(w: string) {
    |w| > 0 && forall k :: 0 <= k < |w| ==> 'a' <= w[k] <= 'z'
  }

  predicate AllWords(ws: seq<string>) {
    forall k :: 0 <= k < |ws| ==> IsWord(ws[k])
  }

  /** A group spelling says something exactly for a non-zero group, in
      words. */
  ghost predicate SpellsWords(spell: Group -> seq<string>) {
    forall g: Group :: AllWords(spell(g)) && (g == 0 <==> spell(g) == [])
  }

  /** A scale table as both tables are: the units name is empty and every
      other name is a word. */
  predicate GoodScales(scales: seq<string>) {
    |scales| >= 1 && scales[0] == "" && forall i :: 1 <= i < |scales| ==> IsWord(scales[i])
  }

  lemma TablesAreGood()
    ensures GoodScales(SourceScales) && GoodScales(Scales)
  {
    assert IsWord("thousand") && IsWord("million") && IsWord("billion");
    assert IsWord("trillion") && IsWord("quadrillion");
  }

  lemma OnesAreWords()
    ensures forall d :: 1 <= d < 10 ==> IsWord(Ones[d])
  {
  }

  lemma TensAreWords()
    ensures forall d :: 2 <= d < 10 ==> IsWord(Tens[d])
  {
  }

  lemma TeensAreWords()
    ensures forall d :: 0 <= d < 10 ==> IsWord(Teens[d])
  {
  }

  /** The source's group spelling says something exactly for a non-zero
      group, in words. */
  lemma GroupWordsSpellsWords()
    ensures SpellsWords(GroupWords)
  {
    OnesAreWords();
    TensAreWords();
    TeensAreWords();
    assert IsWord("hundred");
    forall g: Group
      ensures AllWords(GroupWords(g)) && (g == 0 <==> GroupWords(g) == [])
    {
      assert GroupWords(g) == HundredsWords(g / 100) + TensWords(g % 100);
    }
  }

  /** Every word of the list is a word in the above sense. */
  lemma {:induction false} WordListAreWords(spell: Group -> seq<string>, scales: seq<string>, n: nat, gi: nat)
    requires SpellsWords(spell) && GoodScales(scales)
    ensures AllWords(WordList(spell, scales, n, gi))
    decreases n
  {
    if n > 0 {
      WordListAreWords(spell, scales, n / 1000, gi + 1);
      assert IsWord("undefined");
      assert AllWords(spell(n % 1000));
    }
  }

  /** A non-zero number has at least one word. */
  lemma {:induction false} WordListNonEmpty(spell: Group -> seq<string>, scales: seq<string>, n: nat, gi: nat)
    requires SpellsWords(spell) && n > 0
    ensures |WordList(spell, scales, n, gi)| > 0
    decreases n
  {
    if n % 1000 == 0 {
      WordListNonEmpty(spell, scales, n / 1000, gi + 1);
    } else {
      assert spell(n % 1000) != [];
    }
  }

  /** The loop's text is the word list spaced out, with one more space after
      a non-zero units group (whose scale name is empty). */
  lemma {:induction false} SpelledIsSpaced(spell: Group -> seq<string>, scales: seq<string>, n: nat, gi: nat)
    requires GoodScales(scales)
    ensures Spelled(spell, scales, n, gi)
         == Spaced(WordList(spell, scales, n, gi)) + (if gi == 0 && n % 1000 != 0 then " " else "")
    decreases n
  {
    if n > 0 {
      SpelledIsSpaced(spell, scales, n / 1000, gi + 1);
      var high := WordList(spell, scales, n / 1000, gi + 1);
      var low := Spelled(spell, scales, n / 1000, gi + 1);
      assert low == Spaced(high);
      if n % 1000 != 0 {
        var g := spell(n % 1000);
        var name := ScaleName(scales, gi);
        if name == "" {
          assert gi == 0;
          assert WordList(spell, scales, n, gi) == high + g;
          SpacedAppend(high, g);
          assert Spelled(spell, scales, n, gi) == low + (Spaced(g) + "" + " ");
          assert Spaced(g) + "" + " " == Spaced(g) + " ";
          AppendAssoc(Spaced(high), Spaced(g), " ");
        } else {
          assert gi > 0;
          assert WordList(spell, scales, n, gi) == high + (g + [name]);
          SpacedAppend(g, [name]);
          SpacedOne(name);
          SpacedAppend(high, g + [name]);
          AppendAssoc(Spaced(high), Spaced(g), Spaced([name]));
        }
      } else {
        assert WordList(spell, scales, n, gi) == high + [] == high;
        assert Spelled(spell, scales, n, gi) == low + "" == low;
        assert Spaced(high) + "" == Spaced(high);
      }
    }
  }

  /** A list of words spaced out is the words joined by single spaces,
      then one space. */
  lemma {:induction false} SpacedIsJoin(ws: seq<string>)
    requires |ws| >= 1
    ensures Spaced(ws) == Join(ws, " ") + " "
  {
    if |ws| > 1 {
      SpacedIsJoin(ws[1..]);
      AppendAssoc(ws[0] + " ", Join(ws[1..], " "), " ");
    } else {
      assert ws[1..] == [];
    }
  }

  /** Words joined by spaces neither start nor end with white space. */
  lemma {:induction false} JoinWordsEnds(ws: seq<string>)
    requires |ws| >= 1 && AllWords(ws)
    ensures var j := Join(ws, " "); |j| > 0 && !JsIsSpace(j[0]) && !JsIsSpace(j[|j| - 1])
  {
    assert IsWord(ws[0]);
    if |ws| > 1 {
      JoinWordsEnds(ws[1..]);
      var j := Join(ws, " ");
      assert j == ws[0] + " " + Join(ws[1..], " ");
      assert j[0] == ws[0][0];
    }
  }

  lemma TrimStartNoSpace(s: string)
    requires |s| > 0 && !JsIsSpace(s[0])
    ensures TrimStart(s, JsIsSpace) == s
  {
  }

  lemma {:induction false} TrimEndSpaces(x: string, sp: string)
    requires |x| > 0 && !JsIsSpace(x[|x| - 1])
    requires forall k :: 0 <= k < |sp| ==> JsIsSpace(sp[k])
    ensures TrimEnd(x + sp, JsIsSpace) == x
    decreases |sp|
  {
    if |sp| > 0 {
      var s := x + sp;
      assert s[..|s| - 1] == x + sp[..|sp| - 1];
      TrimEndSpaces(x, sp[..|sp| - 1]);
    } else {
      assert x + sp == x;
    }
  }

  /** Words joined by single spaces, followed by spaces, trim back to the
      joined words. */
  lemma TrimJoined(ws: seq<string>, sp: string)
    requires |ws| >= 1 && AllWords(ws)
    requires forall k :: 0 <= k < |sp| ==> JsIsSpace(sp[k])
    ensures JsTrim(Join(ws, " ") + sp) == Join(ws, " ")
  {
    var j := Join(ws, " ");
    JoinWordsEnds(ws);
    assert (j + sp)[0] == j[0];
    TrimStartNoSpace(j + sp);
    TrimEndSpaces(j, sp);
  }

  /** Trimming the loop's text leaves exactly the words joined by single
      spaces. */
  lemma TrimSpelled(spell: Group -> seq<string>, scales: seq<string>, n: nat)
    requires SpellsWords(spell) && GoodScales(scales) && n > 0
    ensures JsTrim(Spelled(spell, scales, n, 0)) == Join(WordList(spell, scales, n, 0), " ")
  {
    var ws := WordList(spell, scales, n, 0);
    var sp := " " + (if n % 1000 != 0 then " " else "");
    SpelledIsSpaced(spell, scales, n, 0);
    WordListNonEmpty(spell, scales, n, 0);
    WordListAreWords(spell, scales, n, 0);
    SpacedIsJoin(ws);
    assert Spelled(spell, scales, n, 0) == Join(ws, " ") + sp;
    TrimJoined(ws, sp);
  }

  /** One pass of the loop: a non-zero group prepends its words and scale
      name. */
  lemma SpelledStep(scales: seq<string>, n: nat, gi: nat, words: string, result: string)
    requires n > 0 && (n % 1000 != 0 ==> words == Spaced(GroupWords(n % 1000)))
    ensures Spelled(GroupWords, scales, n, gi) + result
         == Spelled(GroupWords, scales, n / 1000, gi + 1)
            + (if n % 1000 != 0 then words + ScaleName(scales, gi) + " " + result else result)
  {
    var low := Spelled(GroupWords, scales, n / 1000, gi + 1);
    if n % 1000 != 0 {
      AppendAssoc(low, words + ScaleName(scales, gi) + " ", result);
    } else {
      assert low + "" == low;
    }
  }

  /** `numberToWords` with the extended scale table: the loop takes the
      base-1000 groups from the least significant up and prepends each
      non-zero group's words and scale name; the trimmed text is the spoken
      form. */
  method NumberToWords(num0: nat) returns (r: string)
    ensures r == Spoken(Scales, num0)
    ensures num0 < Pow1000(4) ==> r == Spoken(SourceScales, num0)
  {
    if num0 == 0 {
      return "zero";
    }
    var result := "";
    var num := num0;
    var groupIndex: nat := 0;
    while num > 0
      invariant Spelled(GroupWords, Scales, num0, 0) == Spelled(GroupWords, Scales, num, groupIndex) + result
      decreases num
    {
      var group := num % 1000;
      var words := "";
      if group != 0 {
        words := ConvertGroup(group);
      }
      SpelledStep(Scales, num, groupIndex, words, result);
      if group != 0 {
        result := words + ScaleName(Scales, groupIndex) + " " + result;
      }
      num := num / 1000;
      groupIndex := groupIndex + 1;
    }
    assert Spelled(GroupWords, Scales, 0, groupIndex) == "";
    assert "" + result == result;
    TablesAreGood();
    GroupWordsSpellsWords();
    TrimSpelled(GroupWords, Scales, num0);
    r := JsTrim(result);
    if num0 < Pow1000(4) {
      SpokenBelowTrillion(num0);
    }
  }

  // ---------------------------------------------------------------------
  // Reading number words back

  function Pow1000(p: nat): (r: nat)
    ensures r >= 1
  {
    if p == 0 then 1 else 1000 * Pow1000(p - 1)
  }

  /** `c` times 1000 to the power `p`, by repeated multiplication by 1000. */
  function Times1000(c: int, p: nat): int {
    if p == 0 then c else 1000 * Times1000(c, p - 1)
  }

  lemma {:induction false} Times1000Add(a: int, b: int, p: nat)
    ensures Times1000(a, p) + Times1000(b, p) == Times1000(a + b, p)
  {
    if p > 0 {
      Times1000Add(a, b, p - 1);
    }
  }

  lemma {:induction false} Times1000Shift(a: int, p: nat)
    ensures Times1000(a, p + 1) == Times1000(1000 * a, p)
  {
    if p > 0 {
      Times1000Shift(a, p - 1);
    }
  }

  /** The value of one number word, read from its spelling alone. */
  function WordValue(w: string): Option<nat> {
    if w == "one" then Some(1) else if w == "two" then Some(2) else if w == "three" then Some(3)
    else if w == "four" then Some(4) else if w == "five" then Some(5) else if w == "six" then Some(6)
    else if w == "seven" then Some(7) else if w == "eight" then Some(8) else if w == "nine" then Some(9)
    else if w == "ten" then Some(10) else if w == "eleven" then Some(11) else if w == "twelve" then Some(12)
    else if w == "thirteen" then Some(13) else if w == "fourteen" then Some(14)
    else if w == "fifteen" then Some(15) else if w == "sixteen" then Some(16)
    else if w == "seventeen" then Some(17) else if w == "eighteen" then Some(18)
    else if w == "nineteen" then Some(19) else if w == "twenty" then Some(20)
    else if w == "thirty" then Some(30) else if w == "forty" then Some(40) else if w == "fifty" then Some(50)
    else if w == "sixty" then Some(60) else if w == "seventy" then Some(70)
    else if w == "eighty" then Some(80) else if w == "ninety" then Some(90)
    else None
  }

  /** The power of 1000 a scale word stands for. */
  function ScalePower(w: string): Option<nat> {
    if w == "thousand" then Some(1) else if w == "million" then Some(2) else if w == "billion" then Some(3)
    else if w == "trillion" then Some(4) else if w == "quadrillion" then Some(5)
    else None
  }

  /** A running total of the closed groups and the value of the open one. */
  datatype Reading = Reading(total: int, current: int)

  /** A listener's reading of one more word: a number word adds to the open
      group, "hundred" multiplies it, a scale word closes it; any other word
      has no reading. */
  function ReadWord(st: Option<Reading>, w: string): Option<Reading> {
    if st.None? then None
    else if WordValue(w).Some? then Some(Reading(st.value.total, st.value.current + WordValue(w).value))
    else if w == "hundred" then Some(Reading(st.value.total, st.value.current * 100))
    else if ScalePower(w).Some? then Some(Reading(st.value.total + Times1000(st.value.current, ScalePower(w).value), 0))
    else None
  }

  /** A way of reading one more word. */
  type Reader = (Option<Reading>, string) -> Option<Reading>

  function ReadWords(read: Reader, st: Option<Reading>, ws: seq<string>): Option<Reading>
    decreases |ws|
  {
    if |ws| == 0 then st else ReadWords(read, read(st, ws[0]), ws[1..])
  }

  /** The number a list of words names, if it names one. */
  function Value(ws: seq<string>): Option<int> {
    var st := ReadWords(ReadWord, Some(Reading(0, 0)), ws);
    if st.Some? then Some(st.value.total + st.value.current) else None
  }

  lemma {:induction false} ReadWordsAppend(read: Reader, st: Option<Reading>, a: seq<string>, b: seq<string>)
    ensures ReadWords(read, st, a + b) == ReadWords(read, ReadWords(read, st, a), b)
    decreases |a|
  {
    if |a| > 0 {
      assert (a + b)[1..] == a[1..] + b;
      ReadWordsAppend(read, read(st, a[0]), a[1..], b);
    } else {
      assert a + b == b;
    }
  }

  lemma ReadOne(read: Reader, st: Option<Reading>, a: string)
    ensures ReadWords(read, st, [a]) == read(st, a)
  {
    assert [a][1..] == [];
  }

  lemma ReadTwo(read: Reader, st: Option<Reading>, a: string, b: string)
    ensures ReadWords(read, st, [a, b]) == read(read(st, a), b)
  {
    assert [a, b][1..] == [b];
    ReadOne(read, read(st, a), b);
  }

  lemma OnesValues()
    ensures forall d :: 1 <= d < 10 ==> WordValue(Ones[d]) == Some(d)
  {
  }

  lemma TensValues()
    ensures forall d :: 2 <= d < 10 ==> WordValue(Tens[d]) == Some(10 * d)
  {
  }

  lemma TeensValues()
    ensures forall d :: 0 <= d < 10 ==> WordValue(Teens[d]) == Some(10 + d)
  {
  }

  lemma HundredValue()
    ensures WordValue("hundred").None?
  {
  }

  lemma ScaleValues()
    ensures forall p :: 1 <= p < |Scales| ==> WordValue(Scales[p]).None? && Scales[p] != "hundred"
    ensures forall p :: 1 <= p < |Scales| ==> ScalePower(Scales[p]) == Some(p)
  {
    assert Scales == ["", "thousand", "million", "billion", "trillion", "quadrillion"];
    forall p | 1 <= p < |Scales|
      ensures WordValue(Scales[p]).None? && Scales[p] != "hundred" && ScalePower(Scales[p]) == Some(p)
    {
      ScaleWord(p);
    }
  }

  lemma ScaleWord(p: nat)
    requires 1 <= p < |Scales|
    ensures WordValue(Scales[p]).None? && Scales[p] != "hundred" && ScalePower(Scales[p]) == Some(p)
  {
    if p == 1 {
      assert Scales[p] == "thousand";
      ThousandNotNumber();
    } else if p == 2 {
      assert Scales[p] == "million";
      MillionNotNumber();
    } else if p == 3 {
      assert Scales[p] == "billion";
      BillionNotNumber();
    } else if p == 4 {
      assert Scales[p] == "trillion";
      TrillionNotNumber();
    } else {
      assert Scales[p] == "quadrillion";
      QuadrillionNotNumber();
    }
  }

  /** The scale words are neither number words nor "hundred". */
  lemma ThousandNotNumber() ensures WordValue("thousand").None? && "thousand" != "hundred" {}
  lemma MillionNotNumber() ensures WordValue("million").None? && "million" != "hundred" {}
  lemma BillionNotNumber() ensures WordValue("billion").None? && "billion" != "hundred" {}
  lemma TrillionNotNumber() ensures WordValue("trillion").None? && "trillion" != "hundred" {}
  lemma QuadrillionNotNumber() ensures WordValue("quadrillion").None? && "quadrillion" != "hundred" {}

  /** The hundreds read from a closed group open one of that many hundreds. */
  lemma HundredsRead(t: int, h: nat)
    requires h < 10
    ensures ReadWords(ReadWord, Some(Reading(t, 0)), HundredsWords(h)) == Some(Reading(t, 100 * h))
  {
    if h > 0 {
      OnesValues();
      HundredValue();
      ReadTwo(ReadWord, Some(Reading(t, 0)), Ones[h], "hundred");
    }
  }

  /** A number word adds its value to the open group. */
  lemma NumberWordRead(t: int, c: int, w: string, v: nat)
    requires WordValue(w) == Some(v)
    ensures ReadWords(ReadWord, Some(Reading(t, c)), [w]) == Some(Reading(t, c + v))
  {
    ReadOne(ReadWord, Some(Reading(t, c)), w);
  }

  /** The last two digits' words add their value to the open group. */
  /** A tens word and a digit word add both values. */
  lemma TensOnesRead(t: int, c: int, d: nat, e: nat)
    requires 2 <= d < 10 && 1 <= e < 10
    ensures ReadWords(ReadWord, Some(Reading(t, c)), [Tens[d], Ones[e]]) == Some(Reading(t, c + 10 * d + e))
  {
    TensValues();
    OnesValues();
    ReadTwo(ReadWord, Some(Reading(t, c)), Tens[d], Ones[e]);
  }

  lemma TensRead(t: int, c: int, u: nat)
    requires u < 100
    ensures ReadWords(ReadWord, Some(Reading(t, c)), TensWords(u)) == Some(Reading(t, c + u))
  {
    if u >= 20 && u % 10 > 0 {
      var d, e := u / 10, u % 10;
      assert TensWords(u) == [Tens[d], Ones[e]] && 10 * d + e == u;
      TensOnesRead(t, c, d, e);
    } else if u >= 20 {
      var d := u / 10;
      assert TensWords(u) == [Tens[d]] && 10 * d == u;
      TensValues();
      NumberWordRead(t, c, Tens[d], 10 * d);
    } else if u >= 10 {
      TeensValues();
      NumberWordRead(t, c, Teens[u - 10], u);
    } else if u > 0 {
      OnesValues();
      NumberWordRead(t, c, Ones[u], u);
    }
  }

  /** A group spelling a reader reads back as the group's value. */
  ghost predicate ReadsBack(read: Reader, spell: Group -> seq<string>) {
    forall t: int, g: Group {:trigger ReadWords(read, Some(Reading(t, 0)), spell(g))} :: ReadWords(read, Some(Reading(t, 0)), spell(g)) == Some(Reading(t, g))
  }

  /** A reader for which every scale word of the table closes the open
      group at its power of 1000. */
  ghost predicate ClosesGroups(read: Reader) {
    forall t: int, c: int, p: nat {:trigger read(Some(Reading(t, c)), Scales[p])} :: 1 <= p < |Scales| ==>
      read(Some(Reading(t, c)), Scales[p]) == Some(Reading(t + Times1000(c, p), 0))
  }

  /** The source's group spelling reads back as the group. */
  lemma GroupWordsReadBack()
    ensures ReadsBack(ReadWord, GroupWords)
  {
    forall t: int, g: Group
      ensures ReadWords(ReadWord, Some(Reading(t, 0)), GroupWords(g)) == Some(Reading(t, g))
    {
      GroupRead(t, g);
    }
  }

  /** One group's words: its hundreds, then its last two digits. */
  lemma GroupRead(t: int, g: Group)
    ensures ReadWords(ReadWord, Some(Reading(t, 0)), GroupWords(g)) == Some(Reading(t, g))
  {
    var h, u := g / 100, g % 100;
    var c := 100 * h;
    assert c + u == g;
    HundredsRead(t, h);
    TensRead(t, c, u);
    ReadThen(ReadWord, Some(Reading(t, 0)), HundredsWords(h), TensWords(u), Some(Reading(t, c)), Some(Reading(t, c + u)));
  }

  /** Scale words close the open group. */
  lemma ScalesClose()
    ensures ClosesGroups(ReadWord)
  {
    forall t: int, c: int, p: nat | 1 <= p < |Scales|
      ensures ReadWord(Some(Reading(t, c)), Scales[p]) == Some(Reading(t + Times1000(c, p), 0))
    {
      ScaleWordRead(t, c, p);
    }
  }

  lemma ScaleWordRead(t: int, c: int, p: nat)
    requires 1 <= p < |Scales|
    ensures ReadWord(Some(Reading(t, c)), Scales[p]) == Some(Reading(t + Times1000(c, p), 0))
  {
    ScaleValues();
    assert WordValue(Scales[p]).None? && Scales[p] != "hundred" && ScalePower(Scales[p]) == Some(p);
  }

  /** How many base-1000 groups `n` has. */
  function NumberOfGroups(n: nat): nat
    decreases n
  {
    if n == 0 then 0 else 1 + NumberOfGroups(n / 1000)
  }

  lemma {:induction false} GroupsBound(n: nat, p: nat)
    requires n < Pow1000(p)
    ensures NumberOfGroups(n) <= p
    decreases p
  {
    if n > 0 {
      GroupsBound(n / 1000, p - 1);
    }
  }

  lemma Split1000(n: nat, gi: nat)
    ensures Times1000(n / 1000, gi + 1) + Times1000(n % 1000, gi) == Times1000(n, gi)
  {
    Times1000Shift(n / 1000, gi);
    Times1000Add(1000 * (n / 1000), n % 1000, gi);
  }

  /** Reading `a + b` goes through the state `a` leads to. */
  lemma ReadThen(read: Reader, st: Option<Reading>, a: seq<string>, b: seq<string>, mid: Option<Reading>, fin: Option<Reading>)
    requires ReadWords(read, st, a) == mid && ReadWords(read, mid, b) == fin
    ensures ReadWords(read, st, a + b) == fin
  {
    ReadWordsAppend(read, st, a, b);
  }

  /** One non-zero group and its scale word, read from a closed group, add
      the group times its power of 1000 to the total. */
  lemma CloseGroupRead(read: Reader, spell: Group -> seq<string>, t: int, g: Group, gi: nat)
    requires ReadsBack(read, spell) && ClosesGroups(read) && 1 <= gi < |Scales|
    ensures ReadWords(read, Some(Reading(t, 0)), spell(g) + [Scales[gi]]) == Some(Reading(t + Times1000(g, gi), 0))
  {
    ReadWordsAppend(read, Some(Reading(t, 0)), spell(g), [Scales[gi]]);
    assert ReadWords(read, Some(Reading(t, 0)), spell(g)) == Some(Reading(t, g));
    ReadOne(read, Some(Reading(t, g)), Scales[gi]);
  }

  /** A non-zero group and its scale word, read after words that close at
      `mid`, close at `mid` plus the group at its power of 1000. */
  lemma AppendGroupRead(read: Reader, spell: Group -> seq<string>, t: int, mid: int, high: seq<string>, g: Group, gi: nat, total: int)
    requires ReadsBack(read, spell) && ClosesGroups(read) && 1 <= gi < |Scales|
    requires ReadWords(read, Some(Reading(t, 0)), high) == Some(Reading(mid, 0))
    requires total == mid + Times1000(g, gi)
    ensures ReadWords(read, Some(Reading(t, 0)), high + (spell(g) + [Scales[gi]])) == Some(Reading(total, 0))
  {
    CloseGroupRead(read, spell, mid, g, gi);
    ReadThen(read, Some(Reading(t, 0)), high, spell(g) + [Scales[gi]], Some(Reading(mid, 0)), Some(Reading(total, 0)));
  }

  /** One more group and its scale word, read after the higher groups,
      add the group times its power of 1000 to the total. */
  lemma GroupStep(read: Reader, spell: Group -> seq<string>, t: int, high: seq<string>, n: nat, gi: nat)
    requires ReadsBack(read, spell) && ClosesGroups(read) && 1 <= gi < |Scales|
    requires ReadWords(read, Some(Reading(t, 0)), high) == Some(Reading(t + Times1000(n / 1000, gi + 1), 0))
    ensures ReadWords(read, Some(Reading(t, 0)), high + (if n % 1000 == 0 then [] else spell(n % 1000) + [Scales[gi]]))
         == Some(Reading(t + Times1000(n, gi), 0))
  {
    if n % 1000 != 0 {
      NonZeroGroupStep(read, spell, t, high, n, gi);
    } else {
      ZeroGroupStep(read, spell, t, high, n, gi);
    }
  }

  lemma NonZeroGroupStep(read: Reader, spell: Group -> seq<string>, t: int, high: seq<string>, n: nat, gi: nat)
    requires ReadsBack(read, spell) && ClosesGroups(read) && 1 <= gi < |Scales| && n % 1000 != 0
    requires ReadWords(read, Some(Reading(t, 0)), high) == Some(Reading(t + Times1000(n / 1000, gi + 1), 0))
    ensures ReadWords(read, Some(Reading(t, 0)), high + (spell(n % 1000) + [Scales[gi]]))
         == Some(Reading(t + Times1000(n, gi), 0))
  {
    Split1000(n, gi);
    AppendGroupRead(read, spell, t, t + Times1000(n / 1000, gi + 1), high, n % 1000, gi, t + Times1000(n, gi));
  }

  lemma ZeroGroupStep(read: Reader, spell: Group -> seq<string>, t: int, high: seq<string>, n: nat, gi: nat)
    requires n % 1000 == 0
    requires ReadWords(read, Some(Reading(t, 0)), high) == Some(Reading(t + Times1000(n / 1000, gi + 1), 0))
    ensures ReadWords(read, Some(Reading(t, 0)), high + []) == Some(Reading(t + Times1000(n, gi), 0))
  {
    Split1000(n, gi);
    Times1000Add(0, 0, gi);
    assert high + [] == high;
  }

  /** Above the lowest group every non-zero group carries its scale word. */
  lemma HighWordListStep(spell: Group -> seq<string>, n: nat, gi: nat)
    requires n > 0 && 1 <= gi < |Scales|
    ensures WordList(spell, Scales, n, gi)
            == WordList(spell, Scales, n / 1000, gi + 1)
               + (if n % 1000 == 0 then [] else spell(n % 1000) + [Scales[gi]])
  {
    assert ScaleName(Scales, gi) == Scales[gi] != "" by { TablesAreGood(); }
  }

  /** The groups from index `gi >= 1` on, read from a closed group, add
      their value to the total. */
  lemma {:induction false} HighGroupsRead(read: Reader, spell: Group -> seq<string>, t: int, n: nat, gi: nat)
    requires ReadsBack(read, spell) && ClosesGroups(read) && gi >= 1 && gi + NumberOfGroups(n) <= |Scales|
    ensures ReadWords(read, Some(Reading(t, 0)), WordList(spell, Scales, n, gi)) == Some(Reading(t + Times1000(n, gi), 0))
    decreases n
  {
    if n > 0 {
      HighGroupsRead(read, spell, t, n / 1000, gi + 1);
      HighWordListStep(spell, n, gi);
      GroupStep(read, spell, t, WordList(spell, Scales, n / 1000, gi + 1), n, gi);
    } else {
      Times1000Add(0, 0, gi);
    }
  }

  /** All the groups, read from the start: the lowest group stays open
      on top of the higher groups' total. */
  lemma {:induction false} AllGroupsRead(read: Reader, spell: Group -> seq<string>, n: nat)
    requires ReadsBack(read, spell) && ClosesGroups(read) && NumberOfGroups(n) <= |Scales|
    ensures ReadWords(read, Some(Reading(0, 0)), WordList(spell, Scales, n, 0)) == Some(Reading(1000 * (n / 1000), n % 1000))
  {
    if n > 0 {
      var high := WordList(spell, Scales, n / 1000, 1);
      HighGroupsRead(read, spell, 0, n / 1000, 1);
      var t := 1000 * (n / 1000);
      assert Times1000(n / 1000, 1) == t;
      var g := n % 1000;
      assert ScaleName(Scales, 0) == "";
      if g != 0 {
        assert WordList(spell, Scales, n, 0) == high + spell(g);
        assert ReadWords(read, Some(Reading(t, 0)), spell(g)) == Some(Reading(t, g));
        ReadThen(read, Some(Reading(0, 0)), high, spell(g), Some(Reading(t, 0)), Some(Reading(t, g)));
      } else {
        assert WordList(spell, Scales, n, 0) == high + [] == high;
      }
    }
  }

  /** Round trip: below 10^18, the words a listener hears name exactly the
      number spelled. */
  lemma NumberWordsRoundTrip(n: nat)
    requires 0 < n < Pow1000(|Scales|)
    ensures Value(WordList(GroupWords, Scales, n, 0)) == Some(n)
  {
    GroupsBound(n, |Scales|);
    GroupWordsReadBack();
    ScalesClose();
    AllGroupsRead(ReadWord, GroupWords, n);
  }

  /** `numberToWords` of a positive number is a non-empty list of words
      joined by single spaces, so it neither starts nor ends with a space. */
  lemma SpokenIsWords(n: nat)
    requires n > 0
    ensures var ws := WordList(GroupWords, Scales, n, 0);
      |ws| >= 1 && AllWords(ws) && Spoken(Scales, n) == Join(ws, " ")
  {
    TablesAreGood();
    GroupWordsSpellsWords();
    WordListNonEmpty(GroupWords, Scales, n, 0);
    WordListAreWords(GroupWords, Scales, n, 0);
  }

  lemma GroupOne()
    ensures GroupWords(1) == ["one"]
  {
    assert TensWords(1) == [Ones[1]];
  }

  lemma GroupFive()
    ensures GroupWords(5) == ["five"]
  {
    assert TensWords(5) == [Ones[5]];
  }

  lemma GroupTwenty()
    ensures GroupWords(20) == ["twenty"]
  {
    assert TensWords(20) == [Tens[2]];
  }

  lemma GroupOneFifteen()
    ensures GroupWords(115) == ["one", "hundred", "fifteen"]
  {
    assert HundredsWords(1) == [Ones[1], "hundred"];
    assert TensWords(15) == [Teens[5]];
  }

  /** A group spells as hundreds, then a teen. */
  lemma SpokenOneFifteen()
    ensures Spoken(Scales, 115) == Join(["one", "hundred", "fifteen"], " ")
  {
    GroupOneFifteen();
    assert ScaleName(Scales, 0) == "";
    assert WordList(GroupWords, Scales, 115, 0) == [] + (GroupWords(115) + []) == ["one", "hundred", "fifteen"];
  }

  /** A round ten is one word. */
  lemma SpokenTwenty()
    ensures Spoken(Scales, 20) == "twenty"
  {
    GroupTwenty();
    assert WordList(GroupWords, Scales, 20, 0) == [] + (GroupWords(20) + []) == ["twenty"];
  }

  /** A zero group in the middle says nothing. */
  lemma SpokenMillionFive()
    ensures Spoken(Scales, 1000005) == Join(["one", "million", "five"], " ")
  {
    GroupOne();
    GroupFive();
    assert ScaleName(Scales, 2) == "million" && ScaleName(Scales, 0) == "";
    TopGroup(GroupWords, Scales, 1, 2);
    ZeroGroup(GroupWords, Scales, 1000, 1);
    LowGroup(GroupWords, Scales, 1000005, 0);
    assert 1000005 / 1000 == 1000 && 1000005 % 1000 == 5;
    assert WordList(GroupWords, Scales, 1, 2) == ["one", "million"];
    assert WordList(GroupWords, Scales, 1000005, 0) == ["one", "million"] + ["five"];
    var ws: seq<string> := ["one", "million", "five"];
    assert ["one", "million"] + ["five"] == ws;
    assert Spoken(Scales, 1000005) == Join(ws, " ");
  }

  /** A number below 1000 is one group, followed by its scale name. */
  lemma TopGroup(spell: Group -> seq<string>, scales: seq<string>, n: nat, gi: nat)
    requires 0 < n < 1000
    ensures WordList(spell, scales, n, gi) ==
      spell(n) + (if ScaleName(scales, gi) == "" then [] else [ScaleName(scales, gi)])
  {
    assert n / 1000 == 0 && n % 1000 == n;
  }

  /** A non-zero lowest group follows the words of the higher groups. */
  lemma LowGroup(spell: Group -> seq<string>, scales: seq<string>, n: nat, gi: nat)
    requires n % 1000 != 0
    ensures WordList(spell, scales, n, gi) == WordList(spell, scales, n / 1000, gi + 1)
      + spell(n % 1000) + (if ScaleName(scales, gi) == "" then [] else [ScaleName(scales, gi)])
  {
  }

  /** A zero lowest group says nothing. */
  lemma ZeroGroup(spell: Group -> seq<string>, scales: seq<string>, n: nat, gi: nat)
    requires n > 0 && n % 1000 == 0
    ensures WordList(spell, scales, n, gi) == WordList(spell, scales, n / 1000, gi + 1)
  {
    assert WordList(spell, scales, n / 1000, gi + 1) + [] == WordList(spell, scales, n / 1000, gi + 1);
  }

  /** 10^12 has one non-zero group, at index 4. */
  lemma TrillionWords(scales: seq<string>)
    requires ScaleName(scales, 4) != ""
    ensures WordList(GroupWords, scales, Pow1000(4), 0) == ["one", ScaleName(scales, 4)]
  {
    GroupOne();
    TopGroup(GroupWords, scales, 1, 4);
    assert WordList(GroupWords, scales, 1, 4) == ["one", ScaleName(scales, 4)];
    assert Pow1000(4) == 1000000000000;
    ZeroGroup(GroupWords, scales, 1000, 3);
    assert 1000 / 1000 == 1;
    ZeroGroup(GroupWords, scales, 1000000, 2);
    assert 1000000 / 1000 == 1000;
    ZeroGroup(GroupWords, scales, 1000000000, 1);
    assert 1000000000 / 1000 == 1000000;
    ZeroGroup(GroupWords, scales, 1000000000000, 0);
    assert 1000000000000 / 1000 == 1000000000;
  }

  /** As written, with four scale names, 10^12 is spoken as the words
      "one" and "undefined", which name no number. */
  lemma TrillionAsWritten()
    ensures Spoken(SourceScales, Pow1000(4)) == Join(["one", "undefined"], " ")
    ensures Value(WordList(GroupWords, SourceScales, Pow1000(4), 0)) == None
  {
    assert ScaleName(SourceScales, 4) == "undefined";
    TrillionWords(SourceScales);
    assert WordValue("undefined").None? && ScalePower("undefined").None?;
    OnesValues();
    ReadTwo(ReadWord, Some(Reading(0, 0)), "one", "undefined");
  }

  /** With the extended table, 10^12 is "one trillion". */
  lemma TrillionCorrected()
    ensures Spoken(Scales, Pow1000(4)) == Join(["one", "trillion"], " ")
    ensures Value(WordList(GroupWords, Scales, Pow1000(4), 0)) == Some(Pow1000(4))
  {
    assert ScaleName(Scales, 4) == "trillion";
    TrillionWords(Scales);
    NumberWordsRoundTrip(Pow1000(4));
  }

  /** Below 10^12 the source's table and the extended one speak alike. */
  lemma SpokenBelowTrillion(n: nat)
    requires n < Pow1000(4)
    ensures Spoken(Scales, n) == Spoken(SourceScales, n)
  {
    GroupsBound(n, 4);
    SameBelowTrillion(n, 0);
  }

  lemma {:induction false} SameBelowTrillion(n: nat, gi: nat)
    requires gi + NumberOfGroups(n) <= |SourceScales|
    ensures WordList(GroupWords, Scales, n, gi) == WordList(GroupWords, SourceScales, n, gi)
    decreases n
  {
    if n > 0 {
      SameBelowTrillion(n / 1000, gi + 1);
      assert ScaleName(Scales, gi) == ScaleName(SourceScales, gi);
    }
  }
}
