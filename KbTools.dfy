/** The knowledge-base tools of the agentic RAG demo: the result records
    every backend's answer is normalised into, the in-memory document store
    consulted before any backend, and the tool definitions offered to the
    model. HTTP calls are inputs: the parsed response body, or None when the
    request failed or its body did not parse. */
module KbTools {
  import opened Common

  datatype KbType = Local | Dify | Raptor | GraphRag

  /** `SearchResult`; each field holds the JSON value it was read from. */
  datatype SearchResult = SearchResult(docId: Json, chunkId: Json, text: Json, score: Json, metadata: Json)

  const ResultKeys: set<string> := {"doc_id", "chunk_id", "text", "score", "metadata"}

  /** A dictionary of the normalised shape: exactly the five keys, and a
      metadata value that is never `None` or another falsy value but `{}`. */
  predicate Normalised(d: map<string, Json>) {
    d.Keys == ResultKeys && (Truthy(d["metadata"]) || d["metadata"] == JObj(map[]))
  }

  /** `SearchResult.to_dict`. */
  function ToDict(r: SearchResult): (d: map<string, Json>)
    ensures Normalised(d)
    ensures Truthy(r.metadata) ==> d["metadata"] == r.metadata
  {
    map["doc_id" := r.docId, "chunk_id" := r.chunkId, "text" := r.text, "score" := r.score,
        "metadata" := Or(r.metadata, JObj(map[]))]
  }

  /** The dictionary holds the record's first four fields under their keys. */
  lemma ToDictFields(r: SearchResult)
    ensures var d := ToDict(r);
      d["doc_id"] == r.docId && d["chunk_id"] == r.chunkId && d["text"] == r.text && d["score"] == r.score
  {
  }

  /** Reading a record back from its dictionary. */
  function FromDict(d: map<string, Json>): SearchResult
    requires d.Keys == ResultKeys
  {
    SearchResult(d["doc_id"], d["chunk_id"], d["text"], d["score"], d["metadata"])
  }

  /** A record with non-empty metadata survives `to_dict` unchanged; an empty
      one comes back with `{}`. */
  lemma DictRoundTrip(r: SearchResult)
    ensures FromDict(ToDict(r)) == (if Truthy(r.metadata) then r else r.(metadata := JObj(map[])))
  {
  }

  // ---------------------------------------------------------------------
  // Normalising backend answers

  /** `for item in v` followed by `item.get(...)`: a list yields its items; an
      empty string or dictionary yields nothing; anything else raises (it is
      not iterable, or its elements are strings without `get`). */
  function ItemsOf(v: Json): (r: Option<seq<Json>>)
    ensures v.JArr? ==> r == Some(v.items)
    ensures r.Some? && !v.JArr? ==> r == Some([])
  {
    match v
    case JArr(items) => Some(items)
    case JStr(s) => if s == "" then Some([]) else None
    case JObj(m) => if |m| == 0 then Some([]) else None
    case _ => None
  }

  /** The list `_search_local` reads: the first non-empty of the reranked,
      dense and sparse results. */
  function LocalList(data: map<string, Json>): (v: Json)
    ensures Truthy(Get(data, "reranked_results", JArr([]))) ==> v == data["reranked_results"]
    ensures (!Truthy(Get(data, "reranked_results", JArr([])))
             && Truthy(Get(data, "dense_results", JArr([]))))
            ==> v == data["dense_results"]
    ensures (!Truthy(Get(data, "reranked_results", JArr([])))
             && !Truthy(Get(data, "dense_results", JArr([]))))
            ==> v == Get(data, "sparse_results", JArr([]))
  {
    var reranked := Get(data, "reranked_results", JArr([]));
    if Truthy(reranked) then reranked
    else
      var dense := Get(data, "dense_results", JArr([]));
      if Truthy(dense) then dense else Get(data, "sparse_results", JArr([]))
  }

  /** Item `k` of a local-pipeline answer. */
  function LocalItem(f: map<string, Json>, k: nat): SearchResult {
    var doc := Get(f, "doc_id", JStr(""));
    SearchResult(doc, Get(f, "chunk_id", JStr(PyStr(doc) + "_chunk_" + NatToDecimal(k))),
                 Get(f, "text", JStr("")), Get(f, "rerank_score", Get(f, "score", JNum(0.0))),
                 Get(f, "metadata", JObj(map[])))
  }

  /** Item `k` of a Dify answer. */
  function DifyItem(f: map<string, Json>, k: nat): SearchResult {
    var doc := Get(f, "document_id", JStr(""));
    SearchResult(doc, Get(f, "segment_id", JStr(PyStr(doc) + "_chunk_" + NatToDecimal(k))),
                 Get(f, "content", JStr("")), Get(f, "score", JNum(0.0)),
                 Get(f, "metadata", JObj(map[])))
  }

  /** Item `i` of a RAPTOR answer: a tree node at some level. */
  function RaptorItem(f: map<string, Json>, i: nat): SearchResult {
    var doc := Get(f, "node_id", JStr("raptor_node_" + NatToDecimal(i)));
    var level := Get(f, "level", JNum(0.0));
    SearchResult(doc, JStr(PyStr(doc) + "_level_" + PyStr(level)),
                 Get(f, "summary", Get(f, "text", JStr(""))), Get(f, "score", JNum(0.0)),
                 JObj(map["level" := level, "source" := JStr("raptor")]))
  }

  /** Item `i` of a GraphRAG answer: an entity, or otherwise a community. */
  function GraphItem(f: map<string, Json>, i: nat): SearchResult {
    var metadata :=
      if Get(f, "type", JStr("unknown")) == JStr("entity") then
        map["type" := JStr("entity"), "entity_type" := Get(f, "entity_type", JNull),
            "related_entities" := Get(f, "related_entities", JArr([]))]
      else
        map["type" := JStr("community"), "level" := Get(f, "level", JNum(0.0)),
            "entity_count" := Get(f, "entity_count", JNum(0.0)),
            "sample_entities" := Get(f, "sample_entities", JArr([]))];
    if Get(f, "type", JStr("unknown")) == JStr("entity") then
      var doc := Get(f, "id", JStr("entity_" + NatToDecimal(i)));
      SearchResult(doc, JStr(PyStr(doc) + "_" + PyStr(Get(f, "entity_type", JStr("unknown")))),
                   JStr(PyStr(Get(f, "name", JStr(""))) + ". " + PyStr(Get(f, "description", JStr("")))),
                   Get(f, "score", JNum(0.0)), JObj(metadata["source" := JStr("graphrag")]))
    else
      var doc := Get(f, "id", JStr("community_" + NatToDecimal(i)));
      SearchResult(doc, JStr(PyStr(doc) + "_level_" + PyStr(Get(f, "level", JNum(0.0)))),
                   Get(f, "summary", JStr("")), Get(f, "score", JNum(0.0)),
                   JObj(metadata["source" := JStr("graphrag")]))
  }

  function Item(kind: KbType, f: map<string, Json>, k: nat): SearchResult {
    match kind
    case Local => LocalItem(f, k)
    case Dify => DifyItem(f, k)
    case Raptor => RaptorItem(f, k)
    case GraphRag => GraphItem(f, k)
  }

  /** One normalised dictionary per item of a backend's answer. */
  function Normaliser(kind: KbType): (map<string, Json>, nat) -> map<string, Json> {
    (f: map<string, Json>, k: nat) => ToDict(Item(kind, f, k))
  }

  /** The append loop over the items from position `k` on: `norm` of each
      item, in order; None when an item is not a dictionary (its `get`
      raises). */
  function Normalise(norm: (map<string, Json>, nat) -> map<string, Json>, items: seq<Json>, k: nat)
    : (r: Option<seq<map<string, Json>>>)
    ensures r.Some? <==> forall j :: 0 <= j < |items| ==> items[j].JObj?
    ensures r.Some? ==> |r.value| == |items|
    ensures r.Some? ==> forall j :: 0 <= j < |items| ==> r.value[j] == norm(items[j].fields, k + j)
    decreases |items|
  {
    if |items| == 0 then Some([])
    else if !items[0].JObj? then None
    else
      match Normalise(norm, items[1..], k + 1)
      case None => None
      case Some(rest) => Some([norm(items[0].fields, k)] + rest)
  }

  /** `_search_<kind>` on a parsed response body; None when it raises. */
  function Results(kind: KbType, data: Json): Option<seq<map<string, Json>>> {
    if !data.JObj? then None
    else
      var list :=
        match kind
        case Local => Some(LocalList(data.fields))
        case Dify =>
          var inner := Get(data.fields, "data", JObj(map[]));
          if inner.JObj? then Some(Get(inner.fields, "records", JArr([]))) else None
        case _ => Some(Get(data.fields, "results", JArr([])));
      if list.None? then None
      else
        match ItemsOf(list.value)
        case None => None
        case Some(items) => Normalise(Normaliser(kind), items, 0)
  }

  /** `knowledge_base_search`: never raises; a failed request, a raising
      normaliser and a Dify backend without an API key all give `[]`. */
  function Search(kind: KbType, difyKeySet: bool, response: Option<Json>): (r: seq<map<string, Json>>)
    ensures response.None? || (kind == Dify && !difyKeySet) ==> r == []
    ensures forall j :: 0 <= j < |r| ==> Normalised(r[j])
  {
    if kind == Dify && !difyKeySet then []
    else if response.None? then []
    else
      match Results(kind, response.value)
      case None => []
      case Some(rs) => rs
  }

  /** The result's metadata names `source` as where it came from. */
  predicate HasSource(r: map<string, Json>, source: string) {
    "metadata" in r && r["metadata"].JObj? && "source" in r["metadata"].fields
    && r["metadata"].fields["source"] == JStr(source)
  }

  /** Local results come from the first non-empty list; a missing chunk id
      becomes `{doc_id}_chunk_{k}` for the 0-based position k, and the score
      is the rerank score, else the score, else 0.0. */
  lemma LocalResultFields(data: map<string, Json>, j: nat)
    requires LocalList(data).JArr? && j < |LocalList(data).items|
    requires Results(Local, JObj(data)).Some?
    ensures var item := LocalList(data).items[j].fields;
      var r := Results(Local, JObj(data)).value[j];
      && r["doc_id"] == Get(item, "doc_id", JStr(""))
      && r["chunk_id"] == (if "chunk_id" in item then item["chunk_id"]
                           else JStr(PyStr(r["doc_id"]) + "_chunk_" + NatToDecimal(j)))
      && r["score"] == (if "rerank_score" in item then item["rerank_score"]
                        else if "score" in item then item["score"] else JNum(0.0))
  {
    var items := LocalList(data).items;
    assert Results(Local, JObj(data)) == Normalise(Normaliser(Local), items, 0);
    assert Normaliser(Local)(items[j].fields, j) == ToDict(LocalItem(items[j].fields, j));
    ToDictFields(LocalItem(items[j].fields, j));
  }

  /** Position `j` of a RAPTOR or GraphRAG answer is the normalised item `j`
      of its "results" list. */
  lemma ResultsAt(kind: KbType, data: map<string, Json>, j: nat)
    requires kind == Raptor || kind == GraphRag
    requires Results(kind, JObj(data)).Some?
    requires Get(data, "results", JArr([])).JArr? && j < |Get(data, "results", JArr([])).items|
    ensures var item := Get(data, "results", JArr([])).items[j];
      && item.JObj? && j < |Results(kind, JObj(data)).value|
      && Results(kind, JObj(data)).value[j] == ToDict(Item(kind, item.fields, j))
  {
    var items := Get(data, "results", JArr([])).items;
    assert Results(kind, JObj(data)) == Normalise(Normaliser(kind), items, 0);
  }

  /** A RAPTOR node names its level in its chunk id, prefers the summary
      over the text, and records "raptor" as its source. */
  lemma RaptorItemFields(f: map<string, Json>, i: nat)
    ensures var g := RaptorItem(f, i);
      && g.chunkId == JStr(PyStr(g.docId) + "_level_" + PyStr(Get(f, "level", JNum(0.0))))
      && g.text == (if "summary" in f then f["summary"] else Get(f, "text", JStr("")))
      && g.metadata.JObj? && "source" in g.metadata.fields
      && g.metadata.fields["source"] == JStr("raptor")
  {
  }

  /** The same facts read through the normalised dictionaries of an answer. */
  lemma RaptorResultFields(data: map<string, Json>, j: nat)
    requires Results(Raptor, JObj(data)).Some?
    requires Get(data, "results", JArr([])).JArr? && j < |Get(data, "results", JArr([])).items|
    ensures var item := Get(data, "results", JArr([])).items[j].fields;
      var r := Results(Raptor, JObj(data)).value[j];
      && r["chunk_id"] == JStr(PyStr(r["doc_id"]) + "_level_" + PyStr(Get(item, "level", JNum(0.0))))
      && r["text"] == (if "summary" in item then item["summary"] else Get(item, "text", JStr("")))
      && HasSource(r, "raptor")
  {
    var item := Get(data, "results", JArr([])).items[j].fields;
    ResultsAt(Raptor, data, j);
    assert Item(Raptor, item, j) == RaptorItem(item, j);
    RaptorDictFields(item, j);
  }

  /** RaptorItemFields, read through the record's dictionary. */
  lemma RaptorDictFields(f: map<string, Json>, i: nat)
    ensures var d := ToDict(RaptorItem(f, i));
      && d["chunk_id"] == JStr(PyStr(d["doc_id"]) + "_level_" + PyStr(Get(f, "level", JNum(0.0))))
      && d["text"] == (if "summary" in f then f["summary"] else Get(f, "text", JStr("")))
      && HasSource(d, "raptor")
  {
    var g := RaptorItem(f, i);
    RaptorItemFields(f, i);
    ToDictFields(g);
    MetadataKept(g);
  }

  /** A metadata object with a key is kept as it is. */
  lemma MetadataKept(g: SearchResult)
    requires g.metadata.JObj? && "source" in g.metadata.fields
    ensures ToDict(g)["metadata"] == g.metadata
  {
    assert |g.metadata.fields| > 0;
  }

  /** A GraphRAG entity reads "{name}. {description}" with chunk id
      "{id}_{entity_type}"; every GraphRAG result records "graphrag" as its
      source. */
  lemma GraphItemFields(f: map<string, Json>, i: nat)
    ensures var g := GraphItem(f, i);
      && g.metadata.JObj? && "source" in g.metadata.fields
      && g.metadata.fields["source"] == JStr("graphrag")
      && (Get(f, "type", JStr("unknown")) == JStr("entity") ==>
            g.text == JStr(PyStr(Get(f, "name", JStr(""))) + ". " + PyStr(Get(f, "description", JStr(""))))
            && g.chunkId == JStr(PyStr(g.docId) + "_" + PyStr(Get(f, "entity_type", JStr("unknown")))))
  {
  }

  /** The same facts read through the normalised dictionaries of an answer. */
  lemma GraphResultFields(data: map<string, Json>, j: nat)
    requires Results(GraphRag, JObj(data)).Some?
    requires Get(data, "results", JArr([])).JArr? && j < |Get(data, "results", JArr([])).items|
    ensures var item := Get(data, "results", JArr([])).items[j].fields;
      var r := Results(GraphRag, JObj(data)).value[j];
      && HasSource(r, "graphrag")
      && (Get(item, "type", JStr("unknown")) == JStr("entity") ==>
            r["text"] == JStr(PyStr(Get(item, "name", JStr(""))) + ". "
                              + PyStr(Get(item, "description", JStr(""))))
            && r["chunk_id"] == JStr(PyStr(r["doc_id"]) + "_"
                                     + PyStr(Get(item, "entity_type", JStr("unknown")))))
  {
    var item := Get(data, "results", JArr([])).items[j].fields;
    ResultsAt(GraphRag, data, j);
    assert Item(GraphRag, item, j) == GraphItem(item, j);
    GraphDictFields(item, j);
  }

  /** GraphItemFields, read through the record's dictionary. */
  lemma GraphDictFields(f: map<string, Json>, i: nat)
    ensures var d := ToDict(GraphItem(f, i));
      && HasSource(d, "graphrag")
      && (Get(f, "type", JStr("unknown")) == JStr("entity") ==>
            d["text"] == JStr(PyStr(Get(f, "name", JStr(""))) + ". " + PyStr(Get(f, "description", JStr(""))))
            && d["chunk_id"] == JStr(PyStr(d["doc_id"]) + "_" + PyStr(Get(f, "entity_type", JStr("unknown")))))
  {
    var g := GraphItem(f, i);
    GraphItemFields(f, i);
    ToDictFields(g);
    MetadataKept(g);
  }

  // ---------------------------------------------------------------------
  // The document store

  /** The record `add_document` stores. */
  function StoredDocument(docId: string, content: string, metadata: Json): (d: map<string, Json>)
    ensures d.Keys == {"doc_id", "content", "metadata"}
    ensures d["doc_id"] == JStr(docId) && d["content"] == JStr(content)
    ensures Truthy(metadata) ==> d["metadata"] == metadata
    ensures !Truthy(metadata) ==> d["metadata"] == JObj(map[])
  {
    map["doc_id" := JStr(docId), "content" := JStr(content), "metadata" := Or(metadata, JObj(map[]))]
  }

  /** The error record `get_document` returns when a lookup raises. */
  function NotFound(docId: Json): map<string, Json> {
    map["error" := JStr("Document " + PyStr(docId) + " not found")]
  }

  /** `get_document` over a store: the store first (its keys are strings, so
      only a string id can hit it); otherwise what the backend helper
      returned (`backend`), or the not-found record when it raised. */
  function Lookup(store: map<string, map<string, Json>>, docId: Json,
                  backend: Option<map<string, Json>>): (r: map<string, Json>)
    ensures docId.JStr? && docId.s in store ==> r == store[docId.s]
    ensures !(docId.JStr? && docId.s in store) && backend.Some? ==> r == backend.value
    ensures !(docId.JStr? && docId.s in store) && backend.None? ==> r == NotFound(docId)
  {
    if docId.JStr? && docId.s in store then store[docId.s]
    else if backend.Some? then backend.value
    else NotFound(docId)
  }

  class KnowledgeBaseTools {
    const kbType: KbType
    const difyKeySet: bool
    var documentStore: map<string, map<string, Json>>

    /** `stored` is the document store read from disk (empty when the file is
        missing or unreadable). */
    constructor(kbType: KbType, difyKeySet: bool, stored: map<string, map<string, Json>>)
      ensures this.kbType == kbType && this.difyKeySet == difyKeySet
      ensures documentStore == stored
    {
      this.kbType := kbType;
      this.difyKeySet := difyKeySet;
      documentStore := stored;
    }

    /** `knowledge_base_search` with the backend's parsed answer as input. */
    function KnowledgeBaseSearch(response: Option<Json>): (r: seq<map<string, Json>>)
      ensures forall j :: 0 <= j < |r| ==> Normalised(r[j])
      ensures response.None? ==> r == []
    {
      Search(kbType, difyKeySet, response)
    }

    /** `get_document` on this store. */
    function GetDocument(docId: Json, backend: Option<map<string, Json>>): (r: map<string, Json>)
      reads this
      ensures docId.JStr? && docId.s in documentStore ==> r == documentStore[docId.s]
    {
      Lookup(documentStore, docId, backend)
    }

    /** `add_document`: the store maps `docId` to the new record; the write to
        disk is not part of this model. Afterwards `get_document(docId)`
        returns the record whatever the backend would say. */
    method AddDocument(docId: string, content: string, metadata: Json)
      modifies this`documentStore
      ensures documentStore == old(documentStore)[docId := StoredDocument(docId, content, metadata)]
      ensures forall backend :: GetDocument(JStr(docId), backend) == StoredDocument(docId, content, metadata)
    {
      documentStore := documentStore[docId := StoredDocument(docId, content, metadata)];
    }
  }

  // ---------------------------------------------------------------------
  // Tool definitions

  /** An OpenAI-format function tool with one required string parameter. */
  function ToolDefinition(name: string, description: string, param: string, paramDescription: string): Json {
    JObj(map[
      "type" := JStr("function"),
      "function" := JObj(map[
        "name" := JStr(name),
        "description" := JStr(description),
        "parameters" := JObj(map[
          "type" := JStr("object"),
          "properties" := JObj(map[param := JObj(map[
            "type" := JStr("string"), "description" := JStr(paramDescription)])]),
          "required" := JArr([JStr(param)])])])])
  }

  /** The name a tool definition declares, if it has one. */
  function DefinedName(def: Json): Option<string> {
    if def.JObj? && "function" in def.fields && def.fields["function"].JObj?
       && "name" in def.fields["function"].fields && def.fields["function"].fields["name"].JStr?
    then Some(def.fields["function"].fields["name"].s)
    else None
  }

  /** The required parameters a tool definition declares, if it has them. */
  function RequiredParams(def: Json): Option<seq<Json>> {
    if def.JObj? && "function" in def.fields && def.fields["function"].JObj?
       && "parameters" in def.fields["function"].fields
       && def.fields["function"].fields["parameters"].JObj?
       && "required" in def.fields["function"].fields["parameters"].fields
       && def.fields["function"].fields["parameters"].fields["required"].JArr?
    then Some(def.fields["function"].fields["parameters"].fields["required"].items)
    else None
  }

  const ToolNames: seq<string> := ["knowledge_base_search", "get_document"]

  const SearchDescription: string :=
    "Search the knowledge base for relevant information using a natural language query. Returns top-matching document chunks."
  const QueryDescription: string := "Natural language search query to find relevant information"
  const GetDescription: string :=
    "Retrieve the complete content of a specific document from the knowledge base using its document ID."
  const DocIdDescription: string := "The unique identifier of the document to retrieve"

  /** `get_tool_definitions`. */
  function ToolDefinitions(): seq<Json> {
    [ToolDefinition("knowledge_base_search", SearchDescription, "query", QueryDescription),
     ToolDefinition("get_document", GetDescription, "doc_id", DocIdDescription)]
  }

  /** A definition declares its name and its one required parameter. */
  lemma ToolDefinitionShape(name: string, description: string, param: string, paramDescription: string)
    ensures var def := ToolDefinition(name, description, param, paramDescription);
      DefinedName(def) == Some(name) && RequiredParams(def) == Some([JStr(param)])
  {
  }

  /** The two definitions declare the two tool names the agent dispatches on,
      in order, each with exactly one required parameter: the argument key
      the agent reads. */
  lemma ToolDefinitionsDeclare()
    ensures |ToolDefinitions()| == |ToolNames|
    ensures forall k :: 0 <= k < |ToolNames| ==> DefinedName(ToolDefinitions()[k]) == Some(ToolNames[k])
    ensures RequiredParams(ToolDefinitions()[0]) == Some([JStr("query")])
    ensures RequiredParams(ToolDefinitions()[1]) == Some([JStr("doc_id")])
  {
    ToolDefinitionShape("knowledge_base_search", SearchDescription, "query", QueryDescription);
    ToolDefinitionShape("get_document", GetDescription, "doc_id", DocIdDescription);
  }
}
