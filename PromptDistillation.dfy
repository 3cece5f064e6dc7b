/**
 * Reading a language code out of a distilled classifier's reply and scoring
 * the replies against gold labels (week7/prompt-distillation/evaluate.py).
 */
module PromptDistillation {
  import opened Common

  predicate IsLowerAscii(c: char) {
    'a' <= c <= 'z'
  }

  /** Python's `str.isalpha` for the characters up to U+00FF. */
  predicate IsAlpha(c: char) {
    IsAsciiLetter(c) || c == '\U{aa}' || c == '\U{b5}' || c == '\U{ba}'
    || ('\U{c0}' <= c <= '\U{d6}') || ('\U{d8}' <= c <= '\U{f6}') || ('\U{f8}' <= c <= '\U{ff}')
  }

  // ---------------------------------------------------------------------
  // The four patterns, tried in order

  /** `^([a-z]{2})$`: two lower-case letters, and `$` also allows one final
      newline. */
  predicate ExactCode(t: string) {
    (|t| == 2 || (|t| == 3 && t[2] == '\n')) && IsLowerAscii(t[0]) && IsLowerAscii(t[1])
  }

  /** `^([a-z]{2})\s*$`: two lower-case letters and only whitespace after. */
  predicate CodeThenSpaces(t: string) {
    |t| >= 2 && IsLowerAscii(t[0]) && IsLowerAscii(t[1])
    && forall k :: 2 <= k < |t| ==> PyIsSpace(t[k])
  }

  /** The end of the run of whitespace that starts at `i` (greedy `\s*`). */
  function SpaceRunEnd(t: string, i: nat): (j: nat)
    requires i <= |t|
    ensures i <= j <= |t|
    ensures forall k :: i <= k < j ==> PyIsSpace(t[k])
    ensures j == |t| || !PyIsSpace(t[j])
    decreases |t| - i
  {
    if i < |t| && PyIsSpace(t[i]) then SpaceRunEnd(t, i + 1) else i
  }

  /** The code after `marker` at index `i`: whitespace, then two lower-case
      letters. */
  function CodeAfter(t: string, marker: string, i: nat): Option<string> {
    if !OccursAt(t, marker, i) then None
    else
      var j := SpaceRunEnd(t, i + |marker|);
      if j + 2 <= |t| && IsLowerAscii(t[j]) && IsLowerAscii(t[j + 1]) then Some(t[j..j + 2])
      else None
  }

  /** `re.search(marker + r"\s*([a-z]{2})", t)`: the code of the leftmost
      match at or after `from`. */
  function PrefixedCode(t: string, marker: string, from: nat): (r: Option<string>)
    ensures r.None? ==> forall i :: from <= i ==> CodeAfter(t, marker, i).None?
    ensures r.Some? ==> exists i :: from <= i && CodeAfter(t, marker, i) == r
    decreases |t| - from
  {
    if from > |t| then None
    else if CodeAfter(t, marker, from).Some? then CodeAfter(t, marker, from)
    else PrefixedCode(t, marker, from + 1)
  }

  /** The reply stripped and lower-cased before any matching. */
  function Normalised(response: string): string {
    Lower(PyStrip(response))
  }

  /** The patterns and the fallback, tried on the normalised reply `t`. */
  function LabelOf(t: string): Option<string> {
    if ExactCode(t) then Some(t[..2])
    else if CodeThenSpaces(t) then Some(t[..2])
    else
      var final := PrefixedCode(t, "Final Answer:", 0);
      if final.Some? then final
      else
        var language := PrefixedCode(t, "Language:", 0);
        if language.Some? then language
        else if |t| == 2 && IsAlpha(t[0]) && IsAlpha(t[1]) then Some(t)
        else None
  }

  /** `parse_language_label`. */
  function ParseLanguageLabel(response: string): Option<string> {
    LabelOf(Normalised(response))
  }

  // ---------------------------------------------------------------------
  // What the parser amounts to

  /** Lower-casing never yields an ASCII capital. */
  lemma LowerHasNoCapital(s: string, c: char)
    requires 'A' <= c <= 'Z'
    ensures c !in Lower(s)
  {
    forall k | 0 <= k < |s|
      ensures Lower(s)[k] != c
    {
      assert Lower(s)[k] == LowerChar(s[k]);
    }
  }

  /** An occurrence of `marker` shows its first character. */
  lemma OccursShowsHead(t: string, marker: string, i: nat)
    requires |marker| > 0
    ensures OccursAt(t, marker, i) ==> marker[0] in t
  {
    if OccursAt(t, marker, i) {
      assert t[i] == t[i..i + |marker|][0];
    }
  }

  /** A marker whose first character is absent never matches. */
  lemma AbsentMarkerNeverMatches(t: string, marker: string, i: nat)
    requires |marker| > 0 && marker[0] !in t
    ensures CodeAfter(t, marker, i).None?
  {
    OccursShowsHead(t, marker, i);
  }

  /** The "Final Answer:" and "Language:" patterns never match. */
  lemma PrefixPatternsNeverMatch(response: string)
    ensures PrefixedCode(Normalised(response), "Final Answer:", 0).None?
    ensures PrefixedCode(Normalised(response), "Language:", 0).None?
  {
    var t := Normalised(response);
    LowerHasNoCapital(PyStrip(response), 'F');
    LowerHasNoCapital(PyStrip(response), 'L');
    forall i: nat
      ensures CodeAfter(t, "Final Answer:", i).None?
      ensures CodeAfter(t, "Language:", i).None?
    {
      AbsentMarkerNeverMatches(t, "Final Answer:", i);
      AbsentMarkerNeverMatches(t, "Language:", i);
    }
  }

  /** The normalised reply neither starts nor ends with whitespace. */
  lemma NormalisedTrimmed(response: string)
    ensures var t := Normalised(response);
      t == [] || (!PyIsSpace(t[0]) && !PyIsSpace(t[|t| - 1]))
  {
    var s := PyStrip(response);
    TrimShape(response, PyIsSpace);
    if s != [] {
      assert LowerChar(s[0]) == s[0] || IsLowerAscii(LowerChar(s[0])) || '\U{e0}' <= LowerChar(s[0]) <= '\U{fe}';
      assert LowerChar(s[|s| - 1]) == s[|s| - 1] || IsLowerAscii(LowerChar(s[|s| - 1])) || '\U{e0}' <= LowerChar(s[|s| - 1]) <= '\U{fe}';
    }
  }

  /** The label is the normalised reply when that is exactly two letters,
      and there is none otherwise. */
  lemma ParseLabelMeaning(response: string)
    ensures var t := Normalised(response);
      ParseLanguageLabel(response) ==
        if |t| == 2 && IsAlpha(t[0]) && IsAlpha(t[1]) then Some(t) else None
  {
    var t := Normalised(response);
    NormalisedTrimmed(response);
    PrefixPatternsNeverMatch(response);
    if CodeThenSpaces(t) {
      assert |t| == 2;
      assert t[..2] == t;
    }
    if ExactCode(t) {
      assert |t| == 2;
      assert t[..2] == t;
    }
  }

  // ---------------------------------------------------------------------
  // Scoring

  datatype Scores = Scores(accuracy: real, correct: nat, evaluated: nat)

  datatype Metrics = Metrics(
    predictions: seq<Option<string>>,
    total: nat,
    predicted: nat,
    unparseable: nat,
    scores: Option<Scores>)

  function CountSome(ps: seq<Option<string>>): (r: nat)
    ensures r <= |ps|
  {
    if ps == [] then 0 else CountSome(ps[..|ps| - 1]) + (if ps[|ps| - 1].Some? then 1 else 0)
  }

  function CountNone(ps: seq<Option<string>>): (r: nat)
    ensures r <= |ps|
  {
    if ps == [] then 0 else CountNone(ps[..|ps| - 1]) + (if ps[|ps| - 1].None? then 1 else 0)
  }

  /** Every prediction is parsed or unparseable, never both. */
  lemma {:induction false} PredictedPlusUnparseable(ps: seq<Option<string>>)
    ensures CountSome(ps) + CountNone(ps) == |ps|
  {
    if ps != [] {
      PredictedPlusUnparseable(ps[..|ps| - 1]);
    }
  }

  /** How many of the first `n` predictions equal their label. */
  function Matches(ps: seq<Option<string>>, labels: seq<string>, n: nat): (r: nat)
    requires n <= |ps| && n <= |labels|
    ensures r <= n
  {
    if n == 0 then 0
    else Matches(ps, labels, n - 1) + (if ps[n - 1] == Some(labels[n - 1]) then 1 else 0)
  }

  /** The smaller of the number of sentences and of labels. */
  function Evaluated(sentences: seq<string>, labels: seq<string>): (n: nat)
    ensures n <= |sentences| && n <= |labels|
    ensures n == |sentences| || n == |labels|
  {
    if |sentences| < |labels| then |sentences| else |labels|
  }

  /** The loop of `evaluate_model`, for a reply parser `parse`: every reply
      parsed, and each prediction that has a label compared with it. */
  method ParseAndCompare(sentences: seq<string>, labels: seq<string>,
                         respond: string -> string, parse: string -> Option<string>)
    returns (predictions: seq<Option<string>>, correct: nat, total: nat)
    ensures |predictions| == |sentences|
    ensures forall k :: 0 <= k < |sentences| ==> predictions[k] == parse(respond(sentences[k]))
    ensures total == if |labels| == 0 then 0 else Evaluated(sentences, labels)
    ensures |labels| > 0 ==> correct == Matches(predictions, labels, total)
  {
    predictions := [];
    correct := 0;
    total := 0;
    for idx := 0 to |sentences|
      invariant |predictions| == idx
      invariant forall k :: 0 <= k < idx ==> predictions[k] == parse(respond(sentences[k]))
      invariant total == if |labels| == 0 then 0 else if idx < |labels| then idx else |labels|
      invariant |labels| > 0 ==> correct == Matches(predictions, labels, total)
    {
      var pred := parse(respond(sentences[idx]));
      if |labels| > 0 {
        MatchesSnoc(predictions, pred, labels, total);
      }
      predictions := predictions + [pred];
      if |labels| > 0 && idx < |labels| {
        if pred == Some(labels[idx]) {
          correct := correct + 1;
        }
        total := total + 1;
      }
    }
  }

  /** `evaluate_model`, with the model's reply to a sentence given as
      `respond`. */
  method EvaluateModel(sentences: seq<string>, labels: seq<string>, respond: string -> string)
    returns (m: Metrics)
    ensures |m.predictions| == |sentences|
    ensures forall k :: 0 <= k < |sentences| ==>
      m.predictions[k] == ParseLanguageLabel(respond(sentences[k]))
    ensures m.total == |sentences|
    ensures m.predicted == CountSome(m.predictions) && m.unparseable == CountNone(m.predictions)
    ensures m.predicted + m.unparseable == m.total
    ensures m.scores.Some? <==> |labels| > 0
    ensures m.scores.Some? ==>
      var n := Evaluated(sentences, labels);
      && m.scores.value.evaluated == n
      && m.scores.value.correct == Matches(m.predictions, labels, n)
      && m.scores.value.correct <= m.scores.value.evaluated
      && m.scores.value.accuracy ==
           if n > 0 then m.scores.value.correct as real / n as real else 0.0
  {
    var predictions, correct, total := ParseAndCompare(sentences, labels, respond, ParseLanguageLabel);
    PredictedPlusUnparseable(predictions);
    var scores: Option<Scores> := None;
    if |labels| > 0 {
      var accuracy := if total > 0 then correct as real / total as real else 0.0;
      scores := Some(Scores(accuracy, correct, total));
    }
    m := Metrics(predictions, |sentences|, CountSome(predictions), CountNone(predictions), scores);
  }

  /** Appending a prediction leaves the count over the earlier ones alone,
      and extends it by one comparison when it has a label. */
  lemma {:induction false} MatchesSnoc(ps: seq<Option<string>>, p: Option<string>, labels: seq<string>, n: nat)
    requires n <= |ps| && n <= |labels|
    ensures Matches(ps + [p], labels, n) == Matches(ps, labels, n)
    ensures n == |ps| < |labels| ==>
      Matches(ps + [p], labels, n + 1) == Matches(ps, labels, n) + (if p == Some(labels[n]) then 1 else 0)
  {
    if n > 0 {
      MatchesSnoc(ps, p, labels, n - 1);
      assert (ps + [p])[n - 1] == ps[n - 1];
    }
  }
}
