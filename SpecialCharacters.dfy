/** How the text clean-up before speech synthesis names symbols: a table
    of special characters, always read out, and a table of punctuation,
    read out only inside code. Each character is replaced everywhere by its
    name between spaces, one table entry after the other. */
module SpecialCharacters {
  import opened Common

  /** The special characters and how they are read, in the order they are
      replaced. */
  const SpecialNames: seq<(char, string)> := [
    ('@', "at"), ('#', "hash"), ('$', "dollar"), ('%', "percent"), ('^', "caret"),
    ('&', "ampersand"), ('*', "asterisk"), ('_', "underscore"), ('=', "equals"), ('+', "plus"),
    ('[', "left square bracket"), (']', "right square bracket"), ('{', "left curly brace"),
    ('}', "right curly brace"), ('|', "vertical bar"), ('\\', "backslash"), ('<', "less than"),
    ('>', "greater than"), ('/', "slash"), ('`', "backtick"), ('~', "tilde")]

  /** The punctuation that is read out inside code, in the order it is
      replaced. */
  const PunctuationNames: seq<(char, string)> := [
    ('!', "exclamation"), ('.', "dot"), (',', "comma"), ('?', "question mark"), (';', "semicolon"),
    (':', "colon"), ('"', "double quote"), ('\'', "single quote"), ('-', "minus"),
    ('(', "left parenthesis"), (')', "right parenthesis")]

  /** Every character of the table replaced by its name between spaces,
      one table entry after the other. */
  function Pronounce(s: string, names: seq<(char, string)>): string
    decreases |names|
  {
    if |names| == 0 then s
    else Pronounce(ReplaceAll(s, [names[0].0], " " + names[0].1 + " "), names[1..])
  }

  /** `pronounceSpecialCharacters`: the special characters are named, and
      inside code the punctuation too. */
  function PronounceSpecialCharacters(text: string, isCodeBlock: bool): string {
    var named := Pronounce(text, SpecialNames);
    if isCodeBlock then Pronounce(named, PunctuationNames) else named
  }

  /** Lower-case letters and spaces, what every spoken name is made of. */
  predicate SpellingChar(c: char) {
    'a' <= c <= 'z' || c == ' '
  }

  predicate Spelling(s: string) {
    forall k :: 0 <= k < |s| ==> SpellingChar(s[k])
  }

  /** A table whose names are spelled in letters, whose characters are
      neither letters nor spaces, and which names each character once. */
  predicate GoodNames(names: seq<(char, string)>) {
    && (forall i :: 0 <= i < |names| ==> Spelling(names[i].1) && !SpellingChar(names[i].0))
    && (forall i, j :: 0 <= i < j < |names| ==> names[i].0 != names[j].0)
  }

  /** The names of entries `lo` to `hi - 1` are spelled in letters. */
  predicate SpelledFrom(names: seq<(char, string)>, lo: nat, hi: nat) {
    forall i :: lo <= i < hi && i < |names| ==> Spelling(names[i].1)
  }

  /** The characters of a table are neither letters nor spaces. */
  predicate KeysUnspelled(names: seq<(char, string)>) {
    forall i :: 0 <= i < |names| ==> !SpellingChar(names[i].0)
  }

  /** The characters of entries `lo` to `hi - 1` of a table differ from
      those of every later entry. */
  predicate KeysApartFrom(names: seq<(char, string)>, lo: nat, hi: nat) {
    forall i, j :: lo <= i < hi && i < j < |names| ==> names[i].0 != names[j].0
  }

  /** The characters of a table come once each. */
  predicate KeysApart(names: seq<(char, string)>) {
    forall i, j :: 0 <= i < j < |names| ==> names[i].0 != names[j].0
  }

  lemma SpecialKeysUnspelled()
    ensures KeysUnspelled(SpecialNames)
  {
  }

  lemma SpecialKeysApart0To2()
    ensures KeysApartFrom(SpecialNames, 0, 2)
  {
  }

  lemma SpecialKeysApart2To4()
    ensures KeysApartFrom(SpecialNames, 2, 4)
  {
  }

  lemma SpecialKeysApart4To6()
    ensures KeysApartFrom(SpecialNames, 4, 6)
  {
  }

  lemma SpecialKeysApart6To9()
    ensures KeysApartFrom(SpecialNames, 6, 9)
  {
  }

  lemma SpecialKeysApart9To14()
    ensures KeysApartFrom(SpecialNames, 9, 14)
  {
  }

  lemma SpecialKeysApart14To21()
    ensures KeysApartFrom(SpecialNames, 14, 21)
  {
  }

  lemma SpecialKeysApart()
    ensures KeysApart(SpecialNames)
  {
    SpecialKeysApart0To2();
    SpecialKeysApart2To4();
    SpecialKeysApart4To6();
    SpecialKeysApart6To9();
    SpecialKeysApart9To14();
    SpecialKeysApart14To21();
  }

  lemma SpecialSpelled0To5()
    ensures SpelledFrom(SpecialNames, 0, 5)
  {
  }

  lemma SpecialSpelled5To10()
    ensures SpelledFrom(SpecialNames, 5, 10)
  {
  }

  lemma SpecialSpelled10To11()
    ensures SpelledFrom(SpecialNames, 10, 11)
  {
  }

  lemma SpecialSpelled11To12()
    ensures SpelledFrom(SpecialNames, 11, 12)
  {
  }

  lemma SpecialSpelled12To15()
    ensures SpelledFrom(SpecialNames, 12, 15)
  {
  }

  lemma SpecialSpelled15To18()
    ensures SpelledFrom(SpecialNames, 15, 18)
  {
  }

  lemma SpecialSpelled18To21()
    ensures SpelledFrom(SpecialNames, 18, 21)
  {
  }

  lemma SpecialNamesGood()
    ensures GoodNames(SpecialNames)
  {
    SpecialKeysUnspelled();
    SpecialKeysApart();
    SpecialSpelled0To5();
    SpecialSpelled5To10();
    SpecialSpelled10To11();
    SpecialSpelled11To12();
    SpecialSpelled12To15();
    SpecialSpelled15To18();
    SpecialSpelled18To21();
  }

  lemma PunctuationKeysUnspelled()
    ensures KeysUnspelled(PunctuationNames)
  {
  }

  lemma PunctuationKeysApart()
    ensures KeysApart(PunctuationNames)
  {
  }

  lemma PunctuationSpelled0To4()
    ensures SpelledFrom(PunctuationNames, 0, 4)
  {
  }

  lemma PunctuationSpelled4To7()
    ensures SpelledFrom(PunctuationNames, 4, 7)
  {
  }

  lemma PunctuationSpelled7To9()
    ensures SpelledFrom(PunctuationNames, 7, 9)
  {
  }

  lemma PunctuationSpelled9To11()
    ensures SpelledFrom(PunctuationNames, 9, 11)
  {
  }

  lemma PunctuationNamesGood()
    ensures GoodNames(PunctuationNames)
  {
    PunctuationKeysUnspelled();
    PunctuationKeysApart();
    PunctuationSpelled0To4();
    PunctuationSpelled4To7();
    PunctuationSpelled7To9();
    PunctuationSpelled9To11();
  }

  /** A spelled name holds no other character. */
  lemma SpellingKeepsOut(w: string, c: char)
    requires Spelling(w) && !SpellingChar(c)
    ensures c !in " " + w + " "
  {
  }

  /** Naming characters keeps out any character that is neither a letter
      nor a space. */
  lemma {:induction false} PronounceKeepsOut(s: string, names: seq<(char, string)>, c: char)
    requires GoodNames(names) && c !in s && !SpellingChar(c)
    ensures c !in Pronounce(s, names)
    decreases |names|
  {
    if |names| > 0 {
      SpellingKeepsOut(names[0].1, c);
      ReplaceAllKeepsOut(s, [names[0].0], " " + names[0].1 + " ", c);
      PronounceKeepsOut(ReplaceAll(s, [names[0].0], " " + names[0].1 + " "), names[1..], c);
    }
  }

  /** No character of the table occurs in `s`. */
  predicate NoKeys(names: seq<(char, string)>, s: string) {
    forall i :: 0 <= i < |names| ==> names[i].0 !in s
  }

  /** After naming, no character of the table is left. */
  lemma {:induction false} PronounceGone(s: string, names: seq<(char, string)>)
    requires GoodNames(names)
    ensures NoKeys(names, Pronounce(s, names))
    decreases |names|
  {
    if |names| > 0 {
      var c := names[0].0;
      var t := ReplaceAll(s, [c], " " + names[0].1 + " ");
      SpellingKeepsOut(names[0].1, c);
      ReplaceCharGone(s, c, " " + names[0].1 + " ");
      PronounceKeepsOut(t, names[1..], c);
      PronounceGone(t, names[1..]);
      forall i | 1 <= i < |names|
        ensures names[i].0 !in Pronounce(s, names)
      {
        assert names[i] == names[1..][i - 1];
      }
    }
  }

  /** A text without characters of the table is left alone. */
  lemma {:induction false} PronounceAbsent(s: string, names: seq<(char, string)>)
    requires forall i :: 0 <= i < |names| ==> names[i].0 !in s
    ensures Pronounce(s, names) == s
    decreases |names|
  {
    if |names| > 0 {
      ReplaceAllAbsent(s, [names[0].0], " " + names[0].1 + " ");
      PronounceAbsent(s, names[1..]);
    }
  }

  /** A spelled text is left alone by a good table. */
  lemma PronounceSpelling(s: string, names: seq<(char, string)>)
    requires Spelling(s) && GoodNames(names)
    ensures Pronounce(s, names) == s
  {
    forall i | 0 <= i < |names|
      ensures names[i].0 !in s
    {
      assert !SpellingChar(names[i].0);
    }
    PronounceAbsent(s, names);
  }

  /** A character of the table on its own is read as its name between
      spaces. */
  lemma {:induction false} PronounceEntry(names: seq<(char, string)>, i: nat)
    requires GoodNames(names) && i < |names|
    ensures Pronounce([names[i].0], names) == " " + names[i].1 + " "
    decreases i
  {
    var c := names[i].0;
    var u := " " + names[0].1 + " ";
    if i == 0 {
      assert [c][..1] == [c] && [c][1..] == [];
      assert ReplaceAll([c], [c], u) == u + "" == u;
      assert Spelling(u);
      assert GoodNames(names[1..]);
      PronounceSpelling(u, names[1..]);
    } else {
      assert names[i] == names[1..][i - 1];
      ReplaceAllAbsent([c], [names[0].0], u);
      PronounceEntry(names[1..], i - 1);
    }
  }

  /** `pronounceSpecialCharacters` brings in nothing but letters and
      spaces. */
  lemma PronounceSpecialKeepsOut(text: string, isCodeBlock: bool, c: char)
    requires c !in text && !SpellingChar(c)
    ensures c !in PronounceSpecialCharacters(text, isCodeBlock)
  {
    SpecialNamesGood();
    PunctuationNamesGood();
    PronounceKeepsOut(text, SpecialNames, c);
    PronounceKeepsOut(Pronounce(text, SpecialNames), PunctuationNames, c);
  }

  /** No special character is left, and inside code no punctuation
      either. */
  lemma PronounceSpecialGone(text: string, isCodeBlock: bool)
    ensures NoKeys(SpecialNames, PronounceSpecialCharacters(text, isCodeBlock))
    ensures isCodeBlock ==> NoKeys(PunctuationNames, PronounceSpecialCharacters(text, isCodeBlock))
  {
    SpecialNamesGood();
    PunctuationNamesGood();
    var named := Pronounce(text, SpecialNames);
    PronounceGone(text, SpecialNames);
    if isCodeBlock {
      PronounceGone(named, PunctuationNames);
      forall i | 0 <= i < |SpecialNames|
        ensures SpecialNames[i].0 !in Pronounce(named, PunctuationNames)
      {
        PronounceKeepsOut(named, PunctuationNames, SpecialNames[i].0);
      }
    }
  }
}
