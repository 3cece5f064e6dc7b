/** The search tools of the perception tool server: a web search whose
    query and result count are validated before the page of hits is read,
    and a knowledge-base search over the text files of a directory that
    cuts a snippet around the first match, scores each file by how often
    the query occurs and keeps the best files. The HTTP request and the
    HTML parsing of the web search, and the directory walk and file reads
    of the knowledge-base search, are inputs. */
module SearchTools {
  import opened Common

  // ---------------------------------------------------------------------
  // Web search

  /** `max(1, min(num_results, 10))`. */
  function ClampResults(n: int): (r: int)
    ensures 1 <= r <= 10
    ensures 1 <= n <= 10 ==> r == n
    ensures n < 1 ==> r == 1
    ensures n > 10 ==> r == 10
  {
    if n < 1 then 1 else if n > 10 then 10 else n
  }

  /** A result block of the search page as the parser sees it: the text and
      address of its title link, if it has one, and its snippet text (empty
      when it has none). */
  datatype ParsedBlock = ParsedBlock(title: Option<string>, href: string, snippet: string)

  /** What the request and the parse give: the page's result blocks in
      order, or the message of the error raised. */
  datatype Fetch = Fetched(blocks: seq<ParsedBlock>) | FetchFailed(message: string)

  datatype SearchResult = SearchResult(id: string, title: string, url: string, snippet: string, source: string)

  datatype WebOutcome =
    | WebFound(query: string, results: seq<SearchResult>, count: nat, searchEngine: string, country: string)
    | WebFailed(message: string, errorType: string)

  /** The result the `i`-th block gives when it has a title link. */
  function ResultAt(blocks: seq<ParsedBlock>, i: nat): SearchResult
    requires i < |blocks| && blocks[i].title.Some?
  {
    SearchResult("ddg-" + NatToDecimal(i), blocks[i].title.value, blocks[i].href, blocks[i].snippet, "duckduckgo")
  }

  /** The results of the first `k` blocks: those with a title link, in
      order, numbered by their position on the page. */
  function Collected(blocks: seq<ParsedBlock>, k: nat): (r: seq<SearchResult>)
    requires k <= |blocks|
    ensures |r| <= k
  {
    if k == 0 then []
    else
      var rest := Collected(blocks, k - 1);
      if blocks[k - 1].title.Some? then rest + [ResultAt(blocks, k - 1)] else rest
  }

  /** A result is collected exactly when it comes from one of the first `k`
      blocks that has a title link. */
  lemma {:induction false} CollectedExactly(blocks: seq<ParsedBlock>, k: nat, x: SearchResult)
    requires k <= |blocks|
    ensures x in Collected(blocks, k) <==>
      exists i :: 0 <= i < k && blocks[i].title.Some? && x == ResultAt(blocks, i)
  {
    if k > 0 {
      CollectedExactly(blocks, k - 1, x);
    }
  }

  /** `search_web`: an empty or blank query and a failed request are
      reported with the "search_error" type; otherwise the first
      `max(1, min(num_results, 10))` blocks are read and each one with a
      title link becomes a result. */
  method SearchWeb(query: string, numResults: int, region: string, fetch: (string, string) -> Fetch)
    returns (r: WebOutcome)
    ensures PyStrip(query) == "" ==>
      r == WebFailed("Search operation failed: Search query cannot be empty", "search_error")
    ensures PyStrip(query) != "" && fetch(PyStrip(query), region).FetchFailed? ==>
      r == WebFailed("Search operation failed: " + fetch(PyStrip(query), region).message, "search_error")
    ensures PyStrip(query) != "" && fetch(PyStrip(query), region).Fetched? ==>
      var blocks := fetch(PyStrip(query), region).blocks;
      var k := if ClampResults(numResults) < |blocks| then ClampResults(numResults) else |blocks|;
      r == WebFound(query, Collected(blocks, k), |Collected(blocks, k)|, "duckduckgo", region)
    ensures r.WebFound? ==> r.count == |r.results| <= ClampResults(numResults)
  {
    if PyStrip(query) == "" {
      return WebFailed("Search operation failed: Search query cannot be empty", "search_error");
    }
    var n := ClampResults(numResults);
    match fetch(PyStrip(query), region)
    case FetchFailed(message) =>
      r := WebFailed("Search operation failed: " + message, "search_error");
    case Fetched(blocks) =>
      var k := if n < |blocks| then n else |blocks|;
      var results: seq<SearchResult> := [];
      for i := 0 to k
        invariant results == Collected(blocks, i)
      {
        if blocks[i].title.None? {
          continue;
        }
        results := results + [ResultAt(blocks, i)];
      }
      r := WebFound(query, results, |results|, "duckduckgo", region);
  }

  // ---------------------------------------------------------------------
  // Knowledge-base search

  /** An entry of the recursive directory walk: its path relative to the
      knowledge base, whether it is a regular file, its suffix, and its text
      (none when reading it raised). */
  datatype Entry = Entry(path: string, isFile: bool, suffix: string, content: Option<string>)

  /** The knowledge-base path: missing, not a directory, or a directory with
      the entries of its walk, in walk order. */
  datatype KnowledgeBase = Missing | NotDirectory | Directory(entries: seq<Entry>)

  datatype Hit = Hit(file: string, snippet: string, relevance: nat)

  datatype KbOutcome =
    | KbFound(query: string, results: seq<Hit>, totalFound: nat, knowledgeBase: string, topK: int)
    | KbFailed(message: string, errorType: string)

  /** Only regular files with a text, Markdown or JSON suffix are read. */
  predicate Searchable(e: Entry) {
    e.isFile && e.suffix in {".txt", ".md", ".json"}
  }

  /** The snippet around index `i` of `content`: up to 100 characters
      before it and 200 from it on, stripped. */
  function Snippet(content: string, i: nat): (r: string)
    ensures |r| <= 300
  {
    var start := if i < 100 then 0 else i - 100;
    var end := if |content| < i + 200 then |content| else i + 200;
    var window := if start <= end then content[start..end] else "";
    TrimShape(window, PyIsSpace);
    PyStrip(window)
  }

  /** The hit an entry gives for the lower-cased query: a searchable,
      readable file whose lower-cased text contains it, with the snippet
      around the first occurrence and the number of occurrences. */
  function HitFor(e: Entry, q: string): Option<Hit> {
    if !Searchable(e) || e.content.None? then None
    else
      var text := Lower(e.content.value);
      match Find(text, q, 0)
      case None => None
      case Some(i) => Some(Hit(e.path, Snippet(e.content.value, i), PyCount(text, q)))
  }

  /** An entry gives a hit exactly when it is a searchable, readable file
      whose text contains the query, ignoring the case of ASCII letters;
      the hit names the file, and the query occurs at least once. */
  lemma HitForMeaning(e: Entry, q: string)
    ensures HitFor(e, q).Some? <==>
      Searchable(e) && e.content.Some? && Contains(Lower(e.content.value), q)
    ensures HitFor(e, q).Some? ==>
      && HitFor(e, q).value.file == e.path
      && HitFor(e, q).value.relevance >= 1
      && |HitFor(e, q).value.snippet| <= 300
  {
    if Searchable(e) && e.content.Some? {
      var text := Lower(e.content.value);
      FindContains(text, q);
      if Contains(text, q) {
        CountPositiveWhenContained(text, q);
      }
    }
  }

  /** The hits of the first `k` entries, in walk order. */
  function Hits(entries: seq<Entry>, q: string, k: nat): (r: seq<Hit>)
    requires k <= |entries|
    ensures |r| <= k
  {
    if k == 0 then []
    else
      var rest := Hits(entries, q, k - 1);
      match HitFor(entries[k - 1], q)
      case Some(h) => rest + [h]
      case None => rest
  }

  /** Every hit comes from an entry that gives it, and counts at least one
      occurrence. */
  lemma {:induction false} HitsFrom(entries: seq<Entry>, q: string, k: nat, h: Hit)
    requires k <= |entries|
    ensures h in Hits(entries, q, k) <==> exists i :: 0 <= i < k && HitFor(entries[i], q) == Some(h)
    ensures h in Hits(entries, q, k) ==> h.relevance >= 1
  {
    if k > 0 {
      HitsFrom(entries, q, k - 1, h);
      HitForMeaning(entries[k - 1], q);
    }
  }

  /** Relevance never increases along the sequence. */
  predicate SortedByRelevance(hs: seq<Hit>) {
    forall i, j :: 0 <= i < j < |hs| ==> hs[i].relevance >= hs[j].relevance
  }

  /** The hits of one relevance, in their order. */
  function WithRelevance(hs: seq<Hit>, v: nat): (r: seq<Hit>)
    ensures |r| <= |hs|
  {
    if |hs| == 0 then []
    else WithRelevance(hs[..|hs| - 1], v) + if hs[|hs| - 1].relevance == v then [hs[|hs| - 1]] else []
  }

  lemma {:induction false} WithRelevanceAppend(a: seq<Hit>, b: seq<Hit>, v: nat)
    ensures WithRelevance(a + b, v) == WithRelevance(a, v) + WithRelevance(b, v)
    decreases |b|
  {
    if |b| == 0 {
      assert a + b == a;
    } else {
      var init := b[..|b| - 1];
      WithRelevanceAppend(a, init, v);
      assert (a + b)[..|a + b| - 1] == a + init;
      var tail := if b[|b| - 1].relevance == v then [b[|b| - 1]] else [];
      AppendAssoc(WithRelevance(a, v), WithRelevance(init, v), tail);
    }
  }

  /** Places `h` after every hit at least as relevant, scanning from the
      back: among equally relevant hits the earlier one stays first. */
  function Insert(h: Hit, sorted: seq<Hit>): (r: seq<Hit>)
    ensures |r| == |sorted| + 1
  {
    if |sorted| == 0 || sorted[|sorted| - 1].relevance >= h.relevance then sorted + [h]
    else Insert(h, sorted[..|sorted| - 1]) + [sorted[|sorted| - 1]]
  }

  /** `results.sort(key=relevance, reverse=True)`, which is stable: each
      hit in turn is inserted into the sorted hits before it. */
  function SortByRelevance(hs: seq<Hit>): (r: seq<Hit>)
    ensures |r| == |hs|
  {
    if |hs| == 0 then [] else Insert(hs[|hs| - 1], SortByRelevance(hs[..|hs| - 1]))
  }

  lemma InsertKeeps(h: Hit, sorted: seq<Hit>)
    ensures multiset(Insert(h, sorted)) == multiset(sorted) + multiset{h}
    ensures forall v ::
              WithRelevance(Insert(h, sorted), v) == WithRelevance(sorted, v) + if h.relevance == v then [h] else []
  {
    InsertPermutes(h, sorted);
    forall v
      ensures WithRelevance(Insert(h, sorted), v) == WithRelevance(sorted, v) + if h.relevance == v then [h] else []
    {
      InsertRelevance(h, sorted, v);
    }
  }

  lemma {:induction false} InsertPermutes(h: Hit, sorted: seq<Hit>)
    ensures multiset(Insert(h, sorted)) == multiset(sorted) + multiset{h}
    decreases |sorted|
  {
    if |sorted| > 0 && sorted[|sorted| - 1].relevance < h.relevance {
      var init, last := sorted[..|sorted| - 1], sorted[|sorted| - 1];
      InsertPermutes(h, init);
      assert sorted == init + [last];
    }
  }

  lemma {:induction false} InsertRelevance(h: Hit, sorted: seq<Hit>, v: nat)
    ensures WithRelevance(Insert(h, sorted), v) == WithRelevance(sorted, v) + if h.relevance == v then [h] else []
    decreases |sorted|
  {
    if |sorted| > 0 && sorted[|sorted| - 1].relevance < h.relevance {
      var init, last := sorted[..|sorted| - 1], sorted[|sorted| - 1];
      InsertRelevance(h, init, v);
      assert sorted == init + [last];
      assert Insert(h, sorted) == Insert(h, init) + [last];
      WithRelevanceAppend(Insert(h, init), [last], v);
      WithRelevanceAppend(init, [last], v);
      assert [last][..0] == [];
    } else {
      assert (sorted + [h])[..|sorted|] == sorted;
    }
  }

  /** Every hit is at least `v` relevant. */
  predicate AtLeast(hs: seq<Hit>, v: nat) {
    forall i :: 0 <= i < |hs| ==> hs[i].relevance >= v
  }

  lemma {:induction false} InsertAtLeast(h: Hit, hs: seq<Hit>, v: nat)
    requires AtLeast(hs, v) && h.relevance >= v
    ensures AtLeast(Insert(h, hs), v)
    decreases |hs|
  {
    if |hs| > 0 && hs[|hs| - 1].relevance < h.relevance {
      InsertAtLeast(h, hs[..|hs| - 1], v);
    }
  }

  lemma {:induction false} InsertSorted(h: Hit, sorted: seq<Hit>)
    requires SortedByRelevance(sorted)
    ensures SortedByRelevance(Insert(h, sorted))
    decreases |sorted|
  {
    if |sorted| > 0 && sorted[|sorted| - 1].relevance < h.relevance {
      var init, last := sorted[..|sorted| - 1], sorted[|sorted| - 1];
      InsertSorted(h, init);
      InsertAtLeast(h, init, last.relevance);
      var front := Insert(h, init);
      var r := front + [last];
      assert Insert(h, sorted) == r;
      forall i, j | 0 <= i < j < |r|
        ensures r[i].relevance >= r[j].relevance
      {
        if j < |front| {
          assert r[i] == front[i] && r[j] == front[j];
        } else {
          assert r[i] == front[i];
        }
      }
    }
  }

  /** The stable sort puts the hits in order of falling relevance, loses
      and adds none, and keeps the walk order among equally relevant
      hits. */
  lemma {:induction false} SortByRelevanceCorrect(hs: seq<Hit>)
    ensures SortedByRelevance(SortByRelevance(hs))
    ensures multiset(SortByRelevance(hs)) == multiset(hs)
    ensures forall v :: WithRelevance(SortByRelevance(hs), v) == WithRelevance(hs, v)
    decreases |hs|
  {
    if |hs| > 0 {
      var init, last := hs[..|hs| - 1], hs[|hs| - 1];
      var sorted := SortByRelevance(init);
      assert SortByRelevance(hs) == Insert(last, sorted);
      SortByRelevanceCorrect(init);
      InsertSorted(last, sorted);
      InsertKeeps(last, sorted);
      assert hs == init + [last];
      assert multiset(hs) == multiset(init) + multiset{last};
      forall v
        ensures WithRelevance(SortByRelevance(hs), v) == WithRelevance(hs, v)
      {
        assert WithRelevance(hs, v) == WithRelevance(init, v) + if last.relevance == v then [last] else [];
      }
    }
  }

  /** The error for a knowledge-base path that does not exist. */
  function KbNotFound(path: string): string {
    "Knowledge base search failed: Knowledge base not found: " + path
  }

  /** The error for a knowledge-base path that is not a directory. */
  function KbNotDirectory(path: string): string {
    "Knowledge base search failed: Knowledge base path must be a directory: " + path
  }

  /** `search_knowledge_base`: a missing path or one that is not a
      directory is reported with the "kb_search_error" type; otherwise every
      entry of the walk that gives a hit is collected, the hits are sorted
      by falling relevance and the first `top_k` are kept (Python slicing,
      so a negative `top_k` drops hits from the end). */
  method SearchKnowledgeBase(query: string, path: string, kb: KnowledgeBase, topK: int) returns (r: KbOutcome)
    ensures kb.Missing? ==>
      r == KbFailed(KbNotFound(path), "kb_search_error")
    ensures kb.NotDirectory? ==>
      r == KbFailed(KbNotDirectory(path), "kb_search_error")
    ensures kb.Directory? ==>
      var all := Hits(kb.entries, Lower(query), |kb.entries|);
      r == KbFound(query, PyPrefix(SortByRelevance(all), topK), |PyPrefix(SortByRelevance(all), topK)|, path, topK)
    ensures r.KbFound? ==> r.totalFound == |r.results| && (topK >= 0 ==> r.totalFound <= topK)
  {
    match kb
    case Missing =>
      r := KbFailed(KbNotFound(path), "kb_search_error");
    case NotDirectory =>
      r := KbFailed(KbNotDirectory(path), "kb_search_error");
    case Directory(entries) =>
      var q := Lower(query);
      var results: seq<Hit> := [];
      for i := 0 to |entries|
        invariant results == Hits(entries, q, i)
      {
        // the per-file filter, find, snippet and count
        var hit := HitFor(entries[i], q);
        if hit.Some? {
          results := results + [hit.value];
        }
      }
      var kept := PyPrefix(SortByRelevance(results), topK);
      r := KbFound(query, kept, |kept|, path, topK);
  }

  /** The kept hits are the most relevant ones, in falling relevance, each
      from a searchable file that contains the query and scoring at least
      one occurrence. */
  lemma KbResultsRanked(entries: seq<Entry>, q: string, topK: int)
    ensures var kept := PyPrefix(SortByRelevance(Hits(entries, q, |entries|)), topK);
      && SortedByRelevance(kept)
      && forall h :: h in kept ==> h.relevance >= 1 && exists i :: 0 <= i < |entries| && HitFor(entries[i], q) == Some(h)
  {
    var all := Hits(entries, q, |entries|);
    var sorted := SortByRelevance(all);
    SortByRelevanceCorrect(all);
    var kept := PyPrefix(sorted, topK);
    forall h | h in kept
      ensures h.relevance >= 1 && exists i :: 0 <= i < |entries| && HitFor(entries[i], q) == Some(h)
    {
      assert h in multiset(sorted);
      assert h in all;
      HitsFrom(entries, q, |entries|, h);
    }
  }
}
