/** The file-system tools of the perception tool server: reading a file
    with a length cap, a grep over the files of a directory with a cap on
    the number of matches, and a summary of a text that is either cut to a
    length or made of its first sentences. The file system, the directory
    walk and the regular-expression engine are inputs. */
module FilesystemTools {
  import opened Common

  // ---------------------------------------------------------------------
  // read_file

  /** What a path names: nothing, something other than a regular file, or
      a file with its decoded text and its size in bytes. */
  datatype Target = NoSuchPath | NotAFile | File(content: string, sizeBytes: nat)

  datatype ReadOutcome =
    | FileRead(filePath: string, content: string, sizeBytes: nat, truncated: bool, encoding: string)
    | ReadFailed(message: string, errorType: string)

  /** `read_file`: the path must name a regular file; the text is cut to
      its first `max_length` characters (Python slicing) when it is longer,
      and the cut is reported. */
  function ReadFile(path: string, target: Target, encoding: string, maxLength: int): (r: ReadOutcome)
    ensures target.NoSuchPath? ==> r == ReadFailed("File reading failed: File not found: " + path, "file_read_error")
    ensures target.NotAFile? ==> r == ReadFailed("File reading failed: Path is not a file: " + path, "file_read_error")
    ensures target.File? ==>
      && r.FileRead? && r.filePath == path && r.sizeBytes == target.sizeBytes
      && (r.truncated <==> |target.content| > maxLength)
      && (!r.truncated ==> r.content == target.content)
      && (r.truncated && maxLength >= 0 ==> |r.content| == maxLength && r.content == target.content[..maxLength])
  {
    match target
    case NoSuchPath => ReadFailed("File reading failed: File not found: " + path, "file_read_error")
    case NotAFile => ReadFailed("File reading failed: Path is not a file: " + path, "file_read_error")
    case File(content, size) =>
      var truncated := |content| > maxLength;
      FileRead(path, if truncated then PyPrefix(content, maxLength) else content, size, truncated, encoding)
  }

  // ---------------------------------------------------------------------
  // grep_search

  /** A path of the walk: relative and absolute, whether it is a regular
      file, and its lines with their line ends (none when opening or reading
      it raised). */
  datatype WalkedFile = WalkedFile(relative: string, absolute: string, isFile: bool, lines: Option<seq<string>>)

  /** The directory searched: missing, not a directory, or a directory. */
  datatype Directory = DirMissing | NotADirectory | IsDirectory

  datatype Match = Match(file: string, lineNumber: nat, line: string, absolutePath: string)

  datatype GrepOutcome =
    | GrepFound(pattern: string, results: seq<Match>, totalFound: nat, truncated: bool,
                directory: string, filePattern: string, recursive: bool)
    | GrepFailed(message: string, errorType: string)

  /** Only regular files that could be read are searched. */
  predicate Readable(f: WalkedFile) {
    f.isFile && f.lines.Some?
  }

  /** The matches among `lines`, the first lines of `f`: line numbers
      count from 1 and the matching line is reported stripped. */
  function LineMatches(f: WalkedFile, lines: seq<string>, search: string -> bool): (r: seq<Match>)
    ensures |r| <= |lines|
  {
    if |lines| == 0 then []
    else
      var n := |lines|;
      LineMatches(f, lines[..n - 1], search)
      + if search(lines[n - 1]) then [Match(f.relative, n, PyStrip(lines[n - 1]), f.absolute)] else []
  }

  /** Every match names its file, a line number within the file that holds a
      matching line, and that line stripped; and every matching line is
      reported. */
  lemma {:induction false} LineMatchesExactly(f: WalkedFile, lines: seq<string>, search: string -> bool, m: Match)
    ensures m in LineMatches(f, lines, search) <==>
      && m.file == f.relative && m.absolutePath == f.absolute && 1 <= m.lineNumber <= |lines|
      && search(lines[m.lineNumber - 1]) && m.line == PyStrip(lines[m.lineNumber - 1])
  {
    if |lines| > 0 {
      LineMatchesExactly(f, lines[..|lines| - 1], search, m);
    }
  }

  /** Matches of a shorter run of lines are a prefix of the matches of the
      longer run. */
  lemma {:induction false} LineMatchesPrefix(f: WalkedFile, lines: seq<string>, j: nat, search: string -> bool)
    requires j <= |lines|
    ensures var short := LineMatches(f, lines[..j], search);
      |short| <= |LineMatches(f, lines, search)| && LineMatches(f, lines, search)[..|short|] == short
    decreases |lines| - j
  {
    if j < |lines| {
      LineMatchesPrefix(f, lines, j + 1, search);
      assert lines[..j + 1][..j] == lines[..j];
    } else {
      assert lines[..j] == lines;
    }
  }

  /** The matches of a file: none unless it is readable. */
  function FileMatches(f: WalkedFile, search: string -> bool): seq<Match> {
    if Readable(f) then LineMatches(f, f.lines.value, search) else []
  }

  /** Every match of every file, in walk order. */
  function AllMatches(files: seq<WalkedFile>, search: string -> bool): seq<Match> {
    if |files| == 0 then [] else FileMatches(files[0], search) + AllMatches(files[1..], search)
  }

  /** The first `n` elements, or all of them. */
  function Take<T>(s: seq<T>, n: nat): (r: seq<T>)
    ensures |r| == if n < |s| then n else |s|
  {
    if n < |s| then s[..n] else s
  }

  lemma TakeAppend<T>(a: seq<T>, b: seq<T>, n: nat)
    ensures |a| >= n ==> Take(a + b, n) == Take(a, n)
    ensures |a| < n ==> Take(a + b, n) == a + Take(b, n - |a|)
  {
    if |a| >= n {
      assert (a + b)[..n] == a[..n];
    } else if n - |a| < |b| {
      assert (a + b)[..n] == a + b[..n - |a|];
    }
  }

  /** How many more matches the file being read may add before the cap
      check stops the inner loop: the check comes after an append, so a
      file always gets to add one. */
  function Room(maxResults: int, found: nat): nat {
    if maxResults - found >= 1 then maxResults - found else 1
  }

  /** The loops of `grep_search` as written: each readable file adds its
      matches until the cap check after an append stops the line loop, and
      the same check after the file stops the file loop. */
  function Scan(files: seq<WalkedFile>, acc: seq<Match>, search: string -> bool, maxResults: int): seq<Match> {
    if |files| == 0 then acc
    else if !Readable(files[0]) then Scan(files[1..], acc, search, maxResults)
    else
      var acc' := acc + Take(FileMatches(files[0], search), Room(maxResults, |acc|));
      if |acc'| >= maxResults then acc' else Scan(files[1..], acc', search, maxResults)
  }

  /** One readable file's step of the loops. */
  lemma ScanReadable(files: seq<WalkedFile>, acc: seq<Match>, search: string -> bool, maxResults: int)
    requires |files| > 0 && Readable(files[0])
    ensures var acc' := acc + Take(FileMatches(files[0], search), Room(maxResults, |acc|));
      Scan(files, acc, search, maxResults) == if |acc'| >= maxResults then acc' else Scan(files[1..], acc', search, maxResults)
  {
  }

  /** With a positive cap the loops return the first `max_results` matches
      of the whole walk, in order. */
  lemma {:induction false} ScanCapped(files: seq<WalkedFile>, acc: seq<Match>, search: string -> bool, maxResults: int)
    requires |acc| < maxResults
    ensures Scan(files, acc, search, maxResults) == acc + Take(AllMatches(files, search), maxResults - |acc|)
  {
    if |files| > 0 {
      var f, rest := files[0], files[1..];
      var fm := FileMatches(f, search);
      var n := maxResults - |acc|;
      assert AllMatches(files, search) == fm + AllMatches(rest, search);
      TakeAppend(fm, AllMatches(rest, search), n);
      if Readable(f) {
        ScanReadable(files, acc, search, maxResults);
        assert Room(maxResults, |acc|) == n;
        if |fm| >= n {
          assert |acc + Take(fm, n)| >= maxResults;
        } else {
          var acc' := acc + fm;
          assert Take(fm, n) == fm;
          ScanCapped(rest, acc', search, maxResults);
          AppendAssoc(acc, fm, Take(AllMatches(rest, search), n - |fm|));
        }
      } else {
        assert fm == [];
        assert Scan(files, acc, search, maxResults) == Scan(rest, acc, search, maxResults);
        ScanCapped(rest, acc, search, maxResults);
      }
    }
  }

  /** `grep_search` as intended: the first `max_results` matches, none for a
      cap of zero or less. */
  function GrepCapped(files: seq<WalkedFile>, search: string -> bool, maxResults: int): (r: seq<Match>)
    ensures |r| <= |AllMatches(files, search)|
    ensures maxResults >= 0 ==> |r| <= maxResults
  {
    Take(AllMatches(files, search), if maxResults < 0 then 0 else maxResults)
  }

  /** For a positive cap the loops as written and the intended grep
      agree. */
  lemma GrepAgrees(files: seq<WalkedFile>, search: string -> bool, maxResults: int)
    requires maxResults >= 1
    ensures Scan(files, [], search, maxResults) == GrepCapped(files, search, maxResults)
  {
    ScanCapped(files, [], search, maxResults);
  }

  /** A cap of zero still lets one match through: the first match of the
      first readable file is appended before the cap is checked. */
  lemma GrepOverCap(f: WalkedFile, search: string -> bool)
    requires Readable(f) && f.lines.value == ["hit\n"] && search("hit\n")
    ensures |Scan([f], [], search, 0)| == 1 > 0 == |GrepCapped([f], search, 0)|
  {
    assert f.lines.value[..0] == [];
  }

  /** `truncated` is set whenever the cap is reached, even when exactly
      `max_results` matches exist and none was dropped. */
  lemma TruncatedWithoutDropping(files: seq<WalkedFile>, search: string -> bool, maxResults: int)
    requires maxResults >= 1 && |AllMatches(files, search)| == maxResults
    ensures Scan(files, [], search, maxResults) == AllMatches(files, search)
    ensures |Scan(files, [], search, maxResults)| >= maxResults
  {
    ScanCapped(files, [], search, maxResults);
  }

  /** The matches of one more line. */
  lemma LineMatchesSnoc(f: WalkedFile, lines: seq<string>, i: nat, search: string -> bool)
    requires i < |lines|
    ensures LineMatches(f, lines[..i + 1], search) ==
      LineMatches(f, lines[..i], search) + if search(lines[i]) then [Match(f.relative, i + 1, PyStrip(lines[i]), f.absolute)] else []
  {
    assert lines[..i + 1][..i] == lines[..i];
  }

  /** The first matches, once as many as the room allows, are what the cap
      keeps of the whole file. */
  lemma TakeShort(f: WalkedFile, lines: seq<string>, j: nat, search: string -> bool, room: nat)
    requires j <= |lines| && |LineMatches(f, lines[..j], search)| == room
    ensures Take(LineMatches(f, lines, search), room) == LineMatches(f, lines[..j], search)
  {
    LineMatchesPrefix(f, lines, j, search);
  }

  /** The line loop over one file: matching lines are appended until the
      cap check after an append breaks it. */
  method ScanFile(f: WalkedFile, search: string -> bool, maxResults: int, start: seq<Match>) returns (results: seq<Match>)
    requires Readable(f)
    ensures results == start + Take(FileMatches(f, search), Room(maxResults, |start|))
  {
    var lines := f.lines.value;
    var room := Room(maxResults, |start|);
    results := start;
    var i := 0;
    while i < |lines|
      invariant 0 <= i <= |lines|
      invariant results == start + LineMatches(f, lines[..i], search)
      invariant |LineMatches(f, lines[..i], search)| < room
    {
      var line := lines[i];
      var found := LineMatches(f, lines[..i], search);
      LineMatchesSnoc(f, lines, i, search);
      if search(line) {
        var m := Match(f.relative, i + 1, PyStrip(line), f.absolute);
        AppendAssoc(start, found, [m]);
        results := results + [m];
        if |results| >= maxResults {
          TakeShort(f, lines, i + 1, search, room);
          return;
        }
      }
      i := i + 1;
    }
    assert lines[..i] == lines;
  }

  /** `grep_search`: the directory must exist and be a directory and the
      pattern must compile, or the failure is reported with the
      "grep_error" type; otherwise the walk's matches are returned up to
      the cap, and `truncated` says whether the count reached
      `max_results`. A cap below 1 returns no match (the loops as written
      would still return one, see GrepOverCap). The compiled pattern, with
      the case flag set unless the search is case-sensitive, is
      `search(line, ignoreCase)`. */
  method GrepSearch(pattern: string, dir: string, directory: Directory, compileError: Option<string>,
                    filePattern: string, recursive: bool, caseSensitive: bool, maxResults: int,
                    walk: (string, bool) -> seq<WalkedFile>, search: (string, bool) -> bool)
    returns (r: GrepOutcome)
    ensures directory.DirMissing? ==> r == GrepFailed("Grep search failed: Directory not found: " + dir, "grep_error")
    ensures directory.NotADirectory? ==>
      r == GrepFailed("Grep search failed: Path is not a directory: " + dir, "grep_error")
    ensures directory.IsDirectory? && compileError.Some? ==>
      r == GrepFailed("Grep search failed: " + compileError.value, "grep_error")
    ensures directory.IsDirectory? && compileError.None? ==>
      var found := GrepCapped(walk(filePattern, recursive), line => search(line, !caseSensitive), maxResults);
      r == GrepFound(pattern, found, |found|, |found| >= maxResults, dir, filePattern, recursive)
    ensures directory.IsDirectory? && compileError.None? && maxResults >= 1 ==>
      r.results == Scan(walk(filePattern, recursive), [], line => search(line, !caseSensitive), maxResults)
  {
    if directory.DirMissing? {
      return GrepFailed("Grep search failed: Directory not found: " + dir, "grep_error");
    }
    if directory.NotADirectory? {
      return GrepFailed("Grep search failed: Path is not a directory: " + dir, "grep_error");
    }
    if compileError.Some? {
      return GrepFailed("Grep search failed: " + compileError.value, "grep_error");
    }
    var matches := line => search(line, !caseSensitive);
    var files := walk(filePattern, recursive);
    var results: seq<Match> := [];
    if maxResults < 1 {
      return GrepFound(pattern, results, 0, true, dir, filePattern, recursive);
    }
    var i := 0;
    while i < |files|
      invariant 0 <= i <= |files|
      invariant Scan(files[i..], results, matches, maxResults) == Scan(files, [], matches, maxResults)
    {
      var f := files[i];
      if !Readable(f) {
        i := i + 1;
        continue;
      }
      results := ScanFile(f, matches, maxResults, results);
      if |results| >= maxResults {
        break;
      }
      i := i + 1;
    }
    GrepAgrees(files, matches, maxResults);
    r := GrepFound(pattern, results, |results|, |results| >= maxResults, dir, filePattern, recursive);
  }

  // ---------------------------------------------------------------------
  // summarize_text

  /** The characters of the pattern `[.!?]`. */
  predicate SentenceEnd(c: char) {
    c == '.' || c == '!' || c == '?'
  }

  /** The text after its leading run of sentence ends. */
  function SkipEnds(s: string): (r: string)
    ensures |r| <= |s|
    ensures r == [] || !SentenceEnd(r[0])
  {
    if s != [] && SentenceEnd(s[0]) then SkipEnds(s[1..]) else s
  }

  /** `re.split(r'[.!?]+', s)`, with `current` the piece read so far: every
      maximal run of sentence ends separates two pieces, so a leading or
      trailing run gives an empty piece. */
  function SplitSentences(s: string, current: string): (r: seq<string>)
    ensures |r| >= 1
    decreases |s|
  {
    if s == [] then [current]
    else if SentenceEnd(s[0]) then [current] + SplitSentences(SkipEnds(s[1..]), "")
    else SplitSentences(s[1..], current + [s[0]])
  }

  /** The characters of `s` that are not sentence ends. */
  function WithoutEnds(s: string): (r: string) {
    if s == [] then [] else (if SentenceEnd(s[0]) then [] else [s[0]]) + WithoutEnds(s[1..])
  }

  lemma {:induction false} SkipEndsWithout(s: string)
    ensures WithoutEnds(SkipEnds(s)) == WithoutEnds(s)
  {
    if s != [] && SentenceEnd(s[0]) {
      SkipEndsWithout(s[1..]);
    }
  }

  /** The pieces hold no sentence end, and put together they are the text
      without its sentence ends. */
  lemma {:induction false} SplitSentencesCover(s: string, current: string)
    requires forall k :: 0 <= k < |current| ==> !SentenceEnd(current[k])
    ensures Concat(SplitSentences(s, current)) == current + WithoutEnds(s)
    ensures forall i, k :: 0 <= i < |SplitSentences(s, current)| && 0 <= k < |SplitSentences(s, current)[i]| ==>
      !SentenceEnd(SplitSentences(s, current)[i][k])
    decreases |s|
  {
    if s == [] {
      assert Concat([current]) == current + Concat([]);
    } else if SentenceEnd(s[0]) {
      var rest := SkipEnds(s[1..]);
      SplitSentencesCover(rest, "");
      SkipEndsWithout(s[1..]);
      var pieces := SplitSentences(s, current);
      assert pieces == [current] + SplitSentences(rest, "");
      assert pieces[1..] == SplitSentences(rest, "");
      assert Concat(pieces) == current + Concat(SplitSentences(rest, ""));
    } else {
      SplitSentencesCover(s[1..], current + [s[0]]);
      AppendAssoc(current, [s[0]], WithoutEnds(s[1..]));
    }
  }

  /** The extractive loop: each piece in turn is added, stripped and
      followed by ". ", as long as the summary so far plus the unstripped
      piece stays within `max_length`; the first piece that does not fit
      ends the loop. */
  function Extract(pieces: seq<string>, summary: string, maxLength: int): string {
    if |pieces| == 0 || |summary| + |pieces[0]| > maxLength then summary
    else Extract(pieces[1..], summary + PyStrip(pieces[0]) + ". ", maxLength)
  }

  /** The summary grows from what it was, and ends at most two characters
      past `max_length` (the ". " after the last piece added). */
  lemma {:induction false} ExtractBounds(pieces: seq<string>, summary: string, maxLength: int)
    requires |summary| <= maxLength + 2
    ensures var r := Extract(pieces, summary, maxLength);
      |summary| <= |r| <= maxLength + 2 && r[..|summary|] == summary
  {
    if |pieces| > 0 && |summary| + |pieces[0]| <= maxLength {
      TrimShape(pieces[0], PyIsSpace);
      var next := summary + PyStrip(pieces[0]) + ". ";
      ExtractBounds(pieces[1..], next, maxLength);
      assert next[..|summary|] == summary;
    }
  }

  /** `text[:max_length] + "..."` when the text is longer, else the text. */
  function Truncation(text: string, maxLength: int): (r: string)
    ensures |text| <= maxLength ==> r == text
    ensures |text| > maxLength && maxLength >= 0 ==> r == text[..maxLength] + "..."
  {
    if |text| > maxLength then PyPrefix(text, maxLength) + "..." else text
  }

  datatype Summary = Summary(originalLength: nat, summaryLength: nat, summary: string, summaryMethod: string)

  /** `summarize_text`. The model branch is a placeholder that always falls
      back to truncation; the extractive branch falls back to truncation
      only when not even the first piece fits. */
  method SummarizeText(text: string, maxLength: int, useLlm: bool) returns (r: Summary)
    ensures r.originalLength == |text| && r.summaryLength == |r.summary|
    ensures useLlm ==> r.summary == Truncation(text, maxLength) && r.summaryMethod == "truncation"
    ensures !useLlm ==>
      var extracted := Extract(SplitSentences(text, ""), "", maxLength);
      if extracted == "" then r.summary == Truncation(text, maxLength) && r.summaryMethod == "truncation"
      else r.summary == extracted && r.summaryMethod == "extractive"
  {
    var summary: string;
    var summaryMethod: string;
    var placeholder := "LLM summarization not yet implemented. Using simple extraction.";
    if useLlm {
      summary := placeholder;
      summaryMethod := "placeholder";
    } else {
      var pieces := SplitSentences(text, "");
      summary := "";
      var i := 0;
      while i < |pieces|
        invariant 0 <= i <= |pieces|
        invariant Extract(pieces[i..], summary, maxLength) == Extract(pieces, "", maxLength)
        invariant summary == "" || summary[|summary| - 1] == ' '
      {
        if |summary| + |pieces[i]| > maxLength {
          break;
        }
        assert pieces[i..][1..] == pieces[i + 1..];
        summary := summary + PyStrip(pieces[i]) + ". ";
        i := i + 1;
      }
      summaryMethod := "extractive";
      assert summary != placeholder by {
        if summary != "" {
          assert summary[|summary| - 1] == ' ' != placeholder[|placeholder| - 1];
        }
      }
    }
    if summary == "" || summary == placeholder {
      summary := Truncation(text, maxLength);
      summaryMethod := "truncation";
    }
    r := Summary(|text|, |summary|, summary, summaryMethod);
  }

  /** An extracted summary is never longer than `max_length` plus the
      closing ". ". */
  lemma ExtractedLength(text: string, maxLength: int)
    requires maxLength >= 0
    ensures |Extract(SplitSentences(text, ""), "", maxLength)| <= maxLength + 2
  {
    ExtractBounds(SplitSentences(text, ""), "", maxLength);
  }
}
