/** The document store and keyword search of src/services/rag/ragService.ts.
    Scores are kept in tenths (0.8 is 8, 0.6 is 6); ids and `Date.now()` values
    are parameters. */
module Rag {
  import opened Wrappers
  import opened Text
  import opened Json
  import opened OrderedMaps

  datatype Document = Document(
    id: string, title: string, content: string, metadata: map<string, JsonValue>, timestamp: int)

  /** `Partial<Document>`: the fields an update sets. */
  datatype DocumentUpdate = DocumentUpdate(
    id: Option<string>, title: Option<string>, content: Option<string>,
    metadata: Option<map<string, JsonValue>>, timestamp: Option<int>)

  /** A hit: the stored document, its score in tenths and the text shown for it. */
  datatype SearchResult = SearchResult(document: Document, score: nat, snippet: string)

  const TitleWeight: nat := 8
  const ContentWeight: nat := 6
  /** Characters of context kept on each side of a content match. */
  const SnippetMargin: nat := 50
  const DefaultMaxResults: int := 5
  /** `getContextForQuery` asks for this many results. */
  const ContextResults: int := 3
  const NoKnowledge: string := "没有找到相关的知识信息。"

  /** `{ ...doc, ...updates }`. */
  function Overlay(doc: Document, u: DocumentUpdate): (r: Document)
    ensures r.title == (if u.title.Some? then u.title.value else doc.title)
    ensures r.content == (if u.content.Some? then u.content.value else doc.content)
    ensures r.id == (if u.id.Some? then u.id.value else doc.id)
    ensures r.metadata == (if u.metadata.Some? then u.metadata.value else doc.metadata)
    ensures r.timestamp == (if u.timestamp.Some? then u.timestamp.value else doc.timestamp)
  {
    Document(
      if u.id.Some? then u.id.value else doc.id,
      if u.title.Some? then u.title.value else doc.title,
      if u.content.Some? then u.content.value else doc.content,
      if u.metadata.Some? then u.metadata.value else doc.metadata,
      if u.timestamp.Some? then u.timestamp.value else doc.timestamp)
  }

  /** `{ ...u, ...v }` on two partial documents: the later update wins field by field. */
  function Merge(u: DocumentUpdate, v: DocumentUpdate): DocumentUpdate {
    DocumentUpdate(
      if v.id.Some? then v.id else u.id,
      if v.title.Some? then v.title else u.title,
      if v.content.Some? then v.content else u.content,
      if v.metadata.Some? then v.metadata else u.metadata,
      if v.timestamp.Some? then v.timestamp else u.timestamp)
  }

  /** An empty update leaves the document as it is; two updates in a row are the
      single update that merges them; an update naming every field replaces the
      whole document. */
  lemma OverlayLaws(doc: Document, u: DocumentUpdate, v: DocumentUpdate, full: Document)
    ensures Overlay(doc, DocumentUpdate(None, None, None, None, None)) == doc
    ensures Overlay(Overlay(doc, u), v) == Overlay(doc, Merge(u, v))
    ensures Overlay(doc, DocumentUpdate(Some(full.id), Some(full.title), Some(full.content),
                                        Some(full.metadata), Some(full.timestamp))) == full
  {
  }

  function Meta(category: string, kind: string): map<string, JsonValue> {
    map["category" := Str(category), "type" := Str(kind)]
  }

  /** The contents of the four local documents. */
  const BasicInfoText: string := "小竹子是一只可爱的桌面熊猫宠物，具有多种心情状态和行为模式。它可以帮助用户进行日常任务，提供智能对话服务。"
  const BehaviorsText: string := "小竹子有正常、走路、打哈欠三种主要状态。它还会随机执行吃竹子、伸懒腰、玩耍等行为。用户可以通过点击切换状态，右键查看菜单。"
  const InteractionText: string := "用户可以通过拖拽移动小竹子到任意位置，双击打开聊天窗口，右键查看功能菜单。小竹子会跟踪鼠标移动，提供眼睛跟踪效果。"
  const IntegrationText: string := "小竹子集成了腾讯云智能体开发平台，支持RAG知识检索、MCP协议通信、LLM对话生成等功能。可以通过ADP服务进行智能对话。"

  /** The four documents `loadLocalKnowledge` stores, stamped `now`. */
  function LocalKnowledge(now: int): seq<Document> {
    [ Document("panda_basic_info", "小竹子基本信息",
        BasicInfoText,
        Meta("basic", "panda_info"), now),
      Document("panda_behaviors", "小竹子行为模式",
        BehaviorsText,
        Meta("behavior", "panda_actions"), now),
      Document("user_interaction", "用户交互指南",
        InteractionText,
        Meta("interaction", "user_guide"), now),
      Document("tencent_cloud_integration", "腾讯云智能体集成",
        IntegrationText,
        Meta("integration", "tencent_cloud"), now) ]
  }

  /** The documents' ids in order (the registry keeps its own `Enterprise.Ids` over
      its function records). */
  function Ids(ds: seq<Document>): (r: seq<string>)
    ensures |r| == |ds| && forall i :: 0 <= i < |ds| ==> r[i] == ds[i].id
  {
    seq(|ds|, i requires 0 <= i < |ds| => ds[i].id)
  }

  /** The local documents have distinct ids. */
  lemma LocalIdsDistinct(now: int)
    ensures Distinct(Ids(LocalKnowledge(now)))
  {
    var ids := Ids(LocalKnowledge(now));
    assert ids == ["panda_basic_info", "panda_behaviors", "user_interaction", "tencent_cloud_integration"];
  }

  /** The entries after `documents.set(d.id, d)` for each `d` of `ds`, in order. */
  function WithDocs(m: map<string, Document>, ds: seq<Document>): map<string, Document>
    decreases |ds|
  {
    if ds == [] then m else WithDocs(m, ds[..|ds| - 1])[ds[|ds| - 1].id := ds[|ds| - 1]]
  }

  /** The key order after the same calls. */
  function OrderWithDocs(order: seq<string>, ds: seq<Document>): seq<string>
    decreases |ds|
  {
    if ds == [] then order else KeysAfterSet(OrderWithDocs(order, ds[..|ds| - 1]), ds[|ds| - 1].id)
  }

  /** Storing documents with distinct ids makes each of them retrievable under its
      id, and leaves every other entry as it was. */
  lemma {:induction false} WithDocsStores(m: map<string, Document>, ds: seq<Document>)
    requires Distinct(Ids(ds))
    ensures forall i :: 0 <= i < |ds| ==> ds[i].id in WithDocs(m, ds) && WithDocs(m, ds)[ds[i].id] == ds[i]
    ensures forall k :: k !in Ids(ds) ==> (k in WithDocs(m, ds) <==> k in m)
    ensures forall k :: k !in Ids(ds) && k in m ==> WithDocs(m, ds)[k] == m[k]
    decreases |ds|
  {
    if ds != [] {
      var init := ds[..|ds| - 1];
      assert Ids(init) == Ids(ds)[..|ds| - 1];
      WithDocsStores(m, init);
      forall k | k in Ids(init) ensures k in Ids(ds) {
        var j :| 0 <= j < |Ids(init)| && Ids(init)[j] == k;
        assert Ids(ds)[j] == k;
      }
      forall i | 0 <= i < |init| ensures ds[i].id != ds[|ds| - 1].id {
        assert Ids(ds)[i] == ds[i].id && Ids(ds)[|ds| - 1] == ds[|ds| - 1].id;
      }
      assert ds[|ds| - 1].id in Ids(ds) by { assert Ids(ds)[|ds| - 1] == ds[|ds| - 1].id; }
    }
  }

  lemma {:induction false} OrderWithDocsConsistent(order: seq<string>, m: map<string, Document>, ds: seq<Document>)
    requires Consistent(order, m)
    ensures Consistent(OrderWithDocs(order, ds), WithDocs(m, ds))
    decreases |ds|
  {
    if ds != [] {
      OrderWithDocsConsistent(order, m, ds[..|ds| - 1]);
      SetKeepsConsistent(OrderWithDocs(order, ds[..|ds| - 1]), WithDocs(m, ds[..|ds| - 1]), ds[|ds| - 1].id, ds[|ds| - 1]);
    }
  }

  /** `Math.max(0, i - margin)` and `Math.min(len, i + |q| + margin)`. */
  function WindowStart(i: int): int {
    if i - SnippetMargin as int > 0 then i - SnippetMargin as int else 0
  }

  function WindowEnd(len: int, i: int, qLen: int): int {
    if len < i + qLen + SnippetMargin as int then len else i + qLen + SnippetMargin as int
  }

  /** The score of one document for a query: `TitleWeight` when the lowered title
      contains the lowered query, plus `ContentWeight` when the lowered content does. */
  function Score(doc: Document, query: string): (s: nat)
    ensures s == 0 || s == ContentWeight || s == TitleWeight || s == TitleWeight + ContentWeight
    ensures s >= TitleWeight <==> Contains(ToLower(doc.title), ToLower(query))
    ensures s % 2 == 0 && (s == ContentWeight || s == TitleWeight + ContentWeight <==> Contains(ToLower(doc.content), ToLower(query)))
  {
    var q := ToLower(query);
    (if Contains(ToLower(doc.title), q) then TitleWeight else 0)
    + (if Contains(ToLower(doc.content), q) then ContentWeight else 0)
  }

  /** The snippet of one document: the window around the first content match,
      otherwise the title when it matches, otherwise empty. */
  function Snippet(doc: Document, query: string): string {
    var q := ToLower(query);
    var lowered := ToLower(doc.content);
    if Contains(lowered, q) then
      var i := IndexOf(lowered, q);
      doc.content[WindowStart(i)..WindowEnd(|doc.content|, i, |q|)]
    else if Contains(ToLower(doc.title), q) then doc.title
    else ""
  }

  /** Lowering a window of a string is the same window of the lowered string. */
  lemma ToLowerSlice(s: string, a: nat, b: nat)
    requires a <= b <= |s|
    ensures ToLower(s[a..b]) == ToLower(s)[a..b]
  {
  }

  /** The window around a match of `q` in the lowered `s` holds that match and is
      at most `2 * SnippetMargin` characters longer than it. */
  lemma WindowHoldsMatch(s: string, q: string, i: int)
    requires OccursAt(ToLower(s), q, i)
    ensures var a, b := WindowStart(i), WindowEnd(|s|, i, |q|);
      && 0 <= a <= i && i + |q| <= b <= |s| && b - a <= |q| + 2 * SnippetMargin
      && OccursAt(ToLower(s[a..b]), q, i - a)
  {
    var a, b := WindowStart(i), WindowEnd(|s|, i, |q|);
    var lowered := ToLower(s);
    ToLowerSlice(s, a, b);
    assert lowered[a..b][i - a..i - a + |q|] == lowered[i..i + |q|];
  }

  /** A content snippet is a window of the content, at most `2 * SnippetMargin`
      characters longer than the query, holding the first match of the query (as
      lowered text); when only the title matches, the snippet is the title. */
  lemma SnippetWindow(doc: Document, query: string)
    ensures var q, lowered := ToLower(query), ToLower(doc.content);
      Contains(lowered, q) ==>
        && (exists a, b :: 0 <= a <= b <= |doc.content| && Snippet(doc, query) == doc.content[a..b])
        && |Snippet(doc, query)| <= |q| + 2 * SnippetMargin
        && OccursAt(ToLower(Snippet(doc, query)), q, IndexOf(lowered, q) - WindowStart(IndexOf(lowered, q)))
    ensures !Contains(ToLower(doc.content), ToLower(query)) && Contains(ToLower(doc.title), ToLower(query)) ==>
      Snippet(doc, query) == doc.title
  {
    var q, lowered := ToLower(query), ToLower(doc.content);
    if Contains(lowered, q) {
      var i := IndexOf(lowered, q);
      WindowHoldsMatch(doc.content, q, i);
      var a, b := WindowStart(i), WindowEnd(|doc.content|, i, |q|);
      assert Snippet(doc, query) == doc.content[a..b];
    }
  }

  function Evaluate(doc: Document, query: string): SearchResult {
    SearchResult(doc, Score(doc, query), Snippet(doc, query))
  }

  /** The hits among `docs`, in store order: every document whose score is positive. */
  function Matches(docs: seq<Document>, query: string): seq<SearchResult>
    decreases |docs|
  {
    if docs == [] then []
    else
      var last := docs[|docs| - 1];
      Matches(docs[..|docs| - 1], query) + (if Score(last, query) > 0 then [Evaluate(last, query)] else [])
  }

  /** A result is produced for exactly the documents that score, with that score and
      snippet, and none for the others. */
  lemma {:induction false} MatchesAreHits(docs: seq<Document>, query: string)
    ensures forall r :: r in Matches(docs, query) ==>
      r.document in docs && r.score > 0 && r == Evaluate(r.document, query)
    ensures forall d :: d in docs && Score(d, query) > 0 ==> Evaluate(d, query) in Matches(docs, query)
    decreases |docs|
  {
    if docs != [] {
      var init := docs[..|docs| - 1];
      MatchesAreHits(init, query);
      forall d | d in init ensures d in docs {
        var j :| 0 <= j < |init| && init[j] == d;
        assert docs[j] == d;
      }
      forall d | d in docs && Score(d, query) > 0 ensures Evaluate(d, query) in Matches(docs, query) {
        var j :| 0 <= j < |docs| && docs[j] == d;
        if j < |docs| - 1 {
          assert init[j] == d;
        }
      }
    }
  }

  /** Every hit scores 6, 8 or 14. */
  lemma {:induction false} MatchScores(docs: seq<Document>, query: string)
    ensures forall r :: r in Matches(docs, query) ==> Band(r.score)
  {
    MatchesAreHits(docs, query);
  }

  predicate Band(score: nat) {
    score == ContentWeight || score == TitleWeight || score == TitleWeight + ContentWeight
  }

  /** `results.sort((a, b) => b.score - a.score)`: a stable sort by decreasing score,
      written as an insertion sort. */
  function SortByScore(rs: seq<SearchResult>): (r: seq<SearchResult>)
    ensures |r| == |rs|
  {
    if rs == [] then [] else Insert(rs[0], SortByScore(rs[1..]))
  }

  /** Places `x` before the first element that does not score more than it. */
  function Insert(x: SearchResult, sorted: seq<SearchResult>): (r: seq<SearchResult>)
    ensures |r| == |sorted| + 1
  {
    if sorted == [] || sorted[0].score <= x.score then [x] + sorted
    else [sorted[0]] + Insert(x, sorted[1..])
  }

  predicate NonIncreasing(rs: seq<SearchResult>) {
    forall i, j :: 0 <= i < j < |rs| ==> rs[i].score >= rs[j].score
  }

  /** The results with a given score, in their order. */
  function OfScore(rs: seq<SearchResult>, v: nat): seq<SearchResult> {
    if rs == [] then []
    else (if rs[0].score == v then [rs[0]] else []) + OfScore(rs[1..], v)
  }

  lemma {:induction false} InsertPermutes(x: SearchResult, sorted: seq<SearchResult>)
    ensures multiset(Insert(x, sorted)) == multiset(sorted) + multiset{x}
  {
    if sorted != [] && sorted[0].score > x.score {
      InsertPermutes(x, sorted[1..]);
      assert sorted == [sorted[0]] + sorted[1..];
    }
  }

  lemma {:induction false} InsertKeepsOrder(x: SearchResult, sorted: seq<SearchResult>)
    requires NonIncreasing(sorted)
    ensures NonIncreasing(Insert(x, sorted))
  {
    if sorted != [] && sorted[0].score > x.score {
      var rest := Insert(x, sorted[1..]);
      InsertKeepsOrder(x, sorted[1..]);
      InsertPermutes(x, sorted[1..]);
      var r := Insert(x, sorted);
      assert r == [sorted[0]] + rest;
      forall j | 0 <= j < |rest| ensures sorted[0].score >= rest[j].score {
        assert rest[j] in multiset(sorted[1..]) + multiset{x};
        if rest[j] != x {
          var k :| 0 <= k < |sorted[1..]| && sorted[1..][k] == rest[j];
          assert sorted[k + 1] == rest[j];
        }
      }
    }
  }

  /** The sort yields a non-increasing permutation of its input. */
  lemma {:induction false} SortByScoreSorts(rs: seq<SearchResult>)
    ensures NonIncreasing(SortByScore(rs))
    ensures multiset(SortByScore(rs)) == multiset(rs)
  {
    if rs != [] {
      SortByScoreSorts(rs[1..]);
      InsertKeepsOrder(rs[0], SortByScore(rs[1..]));
      InsertPermutes(rs[0], SortByScore(rs[1..]));
      assert rs == [rs[0]] + rs[1..];
    }
  }

  lemma {:induction false} InsertOfScore(x: SearchResult, sorted: seq<SearchResult>, v: nat)
    ensures OfScore(Insert(x, sorted), v) == (if x.score == v then [x] else []) + OfScore(sorted, v)
  {
    if sorted != [] && sorted[0].score > x.score {
      InsertOfScore(x, sorted[1..], v);
      assert Insert(x, sorted)[1..] == Insert(x, sorted[1..]);
      if x.score == v {
        assert sorted[0].score != v;
      }
    } else {
      assert (([x] + sorted)[1..]) == sorted;
    }
  }

  /** The sort is stable: results of equal score keep their relative order. */
  lemma {:induction false} SortByScoreStable(rs: seq<SearchResult>, v: nat)
    ensures OfScore(SortByScore(rs), v) == OfScore(rs, v)
  {
    if rs != [] {
      SortByScoreStable(rs[1..], v);
      InsertOfScore(rs[0], SortByScore(rs[1..]), v);
    }
  }

  lemma {:induction false} OfScoreEmpty(rs: seq<SearchResult>, v: nat)
    requires forall i :: 0 <= i < |rs| ==> rs[i].score != v
    ensures OfScore(rs, v) == []
  {
    if rs != [] {
      OfScoreEmpty(rs[1..], v);
    }
  }

  lemma {:induction false} OfScoreAll(rs: seq<SearchResult>, v: nat)
    requires forall i :: 0 <= i < |rs| ==> rs[i].score == v
    ensures OfScore(rs, v) == rs
  {
    if rs != [] {
      OfScoreAll(rs[1..], v);
    }
  }

  /** A non-increasing list of hits is its 14s, then its 8s, then its 6s. */
  lemma {:induction false} SortedIsBands(s: seq<SearchResult>)
    requires NonIncreasing(s)
    requires forall i :: 0 <= i < |s| ==> Band(s[i].score)
    ensures s == OfScore(s, 14) + OfScore(s, 8) + OfScore(s, 6)
  {
    if s != [] {
      var t := s[1..];
      SortedIsBands(t);
      if s[0].score == 8 {
        OfScoreEmpty(s, 14);
        OfScoreEmpty(t, 14);
      } else if s[0].score == 6 {
        OfScoreEmpty(s, 14);
        OfScoreEmpty(s, 8);
        OfScoreAll(s, 6);
        OfScoreAll(t, 6);
      }
    }
  }

  /** The ranking, stated without the sort: documents matching in title and content
      first, then title only, then content only, each group in store order. */
  lemma RankingIsBands(docs: seq<Document>, query: string)
    ensures var m := Matches(docs, query);
      SortByScore(m) == OfScore(m, 14) + OfScore(m, 8) + OfScore(m, 6)
  {
    var m := Matches(docs, query);
    var s := SortByScore(m);
    SortByScoreSorts(m);
    MatchScores(docs, query);
    forall i | 0 <= i < |s| ensures Band(s[i].score) {
      assert s[i] in multiset(m);
    }
    SortedIsBands(s);
    SortByScoreStable(m, 14);
    SortByScoreStable(m, 8);
    SortByScoreStable(m, 6);
  }

  /** `.sort(...).slice(0, maxResults)`. */
  function Ranked(rs: seq<SearchResult>, maxResults: int): seq<SearchResult> {
    var sorted := SortByScore(rs);
    sorted[..SliceIndex(|sorted|, maxResults)]
  }

  /** What `search` promises: scoring hits only, best first, no more than asked for,
      and all of them when at least that many are asked for. */
  lemma SearchResultsRanked(docs: seq<Document>, query: string, maxResults: int)
    ensures var r := Ranked(Matches(docs, query), maxResults);
      && NonIncreasing(r)
      && (forall x :: x in r ==> x.score > 0 && x.document in docs && x == Evaluate(x.document, query))
      && (maxResults >= 0 ==> |r| == if maxResults < |Matches(docs, query)| then maxResults else |Matches(docs, query)|)
      && (maxResults >= |Matches(docs, query)| ==> multiset(r) == multiset(Matches(docs, query)))
  {
    var m := Matches(docs, query);
    var s := SortByScore(m);
    SortByScoreSorts(m);
    MatchesAreHits(docs, query);
    var r := Ranked(m, maxResults);
    forall x | x in r ensures x in m {
      var i :| 0 <= i < |r| && r[i] == x;
      assert s[i] == x;
      assert x in multiset(m);
    }
    if maxResults >= |m| {
      assert r == s;
    }
  }

  /** One block of the context text. */
  function Block(r: SearchResult): string {
    "【" + r.document.title + "】\n" + r.snippet
  }

  function Blocks(rs: seq<SearchResult>): (b: seq<string>)
    ensures |b| == |rs| && forall i :: 0 <= i < |rs| ==> b[i] == Block(rs[i])
  {
    seq(|rs|, i requires 0 <= i < |rs| => Block(rs[i]))
  }

  /** What `getContextForQuery` returns for the results of `search(query, 3)`. */
  function ContextText(rs: seq<SearchResult>): string {
    if rs == [] then NoKnowledge else Join(Blocks(rs), "\n\n")
  }

  lemma JoinStart(parts: seq<string>, sep: string)
    requires parts != [] && parts[0] != []
    ensures Join(parts, sep) != [] && Join(parts, sep)[0] == parts[0][0]
  {
  }

  /** The fixed reply is given exactly when nothing matched; otherwise every block
      starts with the bracketed title. */
  lemma ContextFallbackIff(rs: seq<SearchResult>)
    ensures ContextText(rs) == NoKnowledge <==> rs == []
  {
    if rs != [] {
      JoinStart(Blocks(rs), "\n\n");
      assert Block(rs[0])[0] == '【';
      assert NoKnowledge[0] == '没';
    }
  }

  class RagService {
    /** The keys of `documents` in insertion order. */
    var order: seq<string>
    var documents: map<string, Document>
    var isInitialized: bool

    ghost predicate Valid()
      reads this
    {
      Consistent(order, documents)
    }

    constructor()
      ensures Valid() && order == [] && documents == map[] && !isInitialized
    {
      order := [];
      documents := map[];
      isInitialized := false;
    }

    /** `Array.from(this.documents.values())`. */
    function AllDocuments(): (ds: seq<Document>)
      reads this
      requires Valid()
      ensures |ds| == |order|
      ensures forall i :: 0 <= i < |order| ==> ds[i] == documents[order[i]]
    {
      Values(order, documents)
    }

    /** `documents.get(id) || null`. */
    function GetDocument(id: string): (r: Option<Document>)
      reads this
      ensures r.Some? <==> id in documents
      ensures r.Some? ==> r.value == documents[id]
    {
      if id in documents then Some(documents[id]) else None
    }

    /** `this.documents.set(doc.id, doc)`. */
    method Put(doc: Document)
      modifies this
      requires Valid()
      ensures Valid()
      ensures documents == old(documents)[doc.id := doc] && order == KeysAfterSet(old(order), doc.id)
      ensures isInitialized == old(isInitialized)
    {
      SetKeepsConsistent(order, documents, doc.id, doc);
      order := KeysAfterSet(order, doc.id);
      documents := documents[doc.id := doc];
    }

    method LoadLocalKnowledge(now: int)
      modifies this
      requires Valid()
      ensures Valid()
      ensures documents == WithDocs(old(documents), LocalKnowledge(now))
      ensures order == OrderWithDocs(old(order), LocalKnowledge(now))
      ensures isInitialized == old(isInitialized)
    {
      var docs := LocalKnowledge(now);
      for i := 0 to |docs|
        invariant Valid()
        invariant documents == WithDocs(old(documents), docs[..i])
        invariant order == OrderWithDocs(old(order), docs[..i])
        invariant isInitialized == old(isInitialized)
      {
        assert docs[..i + 1][..i] == docs[..i];
        Put(docs[i]);
      }
      assert docs[..|docs|] == docs;
    }

    /** `initialize()`: loads the local knowledge once; later calls change nothing.
        It always reports success. */
    method Initialize(now: int) returns (ok: bool)
      modifies this
      requires Valid()
      ensures Valid() && ok && isInitialized
      ensures old(isInitialized) ==> documents == old(documents) && order == old(order)
      ensures !old(isInitialized) ==>
        documents == WithDocs(old(documents), LocalKnowledge(now)) && order == OrderWithDocs(old(order), LocalKnowledge(now))
    {
      if isInitialized {
        return true;
      }
      LoadLocalKnowledge(now);
      isInitialized := true;
      return true;
    }

    /** `addDocument(document)`: stores it under `id` stamped `now` and returns `id`. */
    method AddDocument(title: string, content: string, metadata: map<string, JsonValue>, id: string, now: int)
      returns (r: string)
      modifies this
      requires Valid()
      ensures Valid() && r == id
      ensures documents == old(documents)[id := Document(id, title, content, metadata, now)]
      ensures order == KeysAfterSet(old(order), id)
      ensures id !in old(documents) ==> |order| == |old(order)| + 1
      ensures isInitialized == old(isInitialized)
    {
      SetKeepsConsistent(order, documents, id, Document(id, title, content, metadata, now));
      Put(Document(id, title, content, metadata, now));
      return id;
    }

    /** `updateDocument(id, updates)`. */
    method UpdateDocument(id: string, updates: DocumentUpdate) returns (ok: bool)
      modifies this
      requires Valid()
      ensures Valid() && ok == (id in old(documents))
      ensures ok ==> documents == old(documents)[id := Overlay(old(documents)[id], updates)]
      ensures !ok ==> documents == old(documents)
      ensures order == old(order) && isInitialized == old(isInitialized)
    {
      if id !in documents {
        return false;
      }
      var updated := Overlay(documents[id], updates);
      SetKeepsConsistent(order, documents, id, updated);
      documents := documents[id := updated];
      return true;
    }

    /** `deleteDocument(id)`: `Map.prototype.delete` reports whether the key was there. */
    method DeleteDocument(id: string) returns (ok: bool)
      modifies this
      requires Valid()
      ensures Valid() && ok == (id in old(documents))
      ensures documents == old(documents) - {id} && order == KeysAfterDelete(old(order), id)
      ensures GetDocument(id) == None
      ensures isInitialized == old(isInitialized)
    {
      ok := id in documents;
      DeleteKeepsConsistent(order, documents, id);
      documents := documents - {id};
      order := KeysAfterDelete(order, id);
    }

    /** `search(query, maxResults)`: initializes first when needed, scores every
        stored document in store order, then ranks. */
    method Search(query: string, maxResults: int, now: int) returns (results: seq<SearchResult>)
      modifies this
      requires Valid()
      ensures Valid() && isInitialized
      ensures old(isInitialized) ==> documents == old(documents) && order == old(order)
      ensures !old(isInitialized) ==>
        documents == WithDocs(old(documents), LocalKnowledge(now)) && order == OrderWithDocs(old(order), LocalKnowledge(now))
      ensures results == Ranked(Matches(AllDocuments(), query), maxResults)
    {
      if !isInitialized {
        var _ := Initialize(now);
      }
      var all := AllDocuments();
      var hits: seq<SearchResult> := [];
      for i := 0 to |all|
        modifies {}
        invariant hits == Matches(all[..i], query)
      {
        var doc := all[i];
        var score, snippet := ScoreDocument(doc, query);
        assert all[..i + 1][..i] == all[..i] && all[..i + 1][i] == doc;
        if score > 0 {
          hits := hits + [SearchResult(doc, score, snippet)];
        }
      }
      assert all[..|all|] == all;
      results := Ranked(hits, maxResults);
    }

    /** `getContextForQuery(query)`. */
    method GetContextForQuery(query: string, now: int) returns (context: string)
      modifies this
      requires Valid()
      ensures Valid() && isInitialized
      ensures old(isInitialized) ==> documents == old(documents) && order == old(order)
      ensures !old(isInitialized) ==>
        documents == WithDocs(old(documents), LocalKnowledge(now)) && order == OrderWithDocs(old(order), LocalKnowledge(now))
      ensures context == ContextText(Ranked(Matches(AllDocuments(), query), ContextResults))
    {
      var results := Search(query, ContextResults, now);
      if |results| == 0 {
        return NoKnowledge;
      }
      context := Join(Blocks(results), "\n\n");
    }
  }

  /** The body of the loop in `search` for one document: the score accumulated
      from the title test and the content test, and the snippet each sets. */
  method ScoreDocument(doc: Document, query: string) returns (score: nat, snippet: string)
    ensures score == Score(doc, query) && snippet == Snippet(doc, query)
  {
    var q := ToLower(query);
    var contentLower := ToLower(doc.content);
    var titleLower := ToLower(doc.title);
    score := 0;
    snippet := "";
    if Contains(titleLower, q) {
      score := score + TitleWeight;
      snippet := doc.title;
    }
    if Contains(contentLower, q) {
      score := score + ContentWeight;
      var index := IndexOf(contentLower, q);
      var start := if index - SnippetMargin as int > 0 then index - SnippetMargin as int else 0;
      var end := if |doc.content| < index + |q| + SnippetMargin as int then |doc.content| else index + |q| + SnippetMargin as int;
      snippet := doc.content[start..end];
    }
  }

  /** After initialization every local document can be fetched by its id. */
  lemma InitializedStoreHoldsLocalKnowledge(m: map<string, Document>, now: int, i: nat)
    requires i < |LocalKnowledge(now)|
    ensures var d := LocalKnowledge(now)[i];
      d.id in WithDocs(m, LocalKnowledge(now)) && WithDocs(m, LocalKnowledge(now))[d.id] == d
  {
    LocalIdsDistinct(now);
    WithDocsStores(m, LocalKnowledge(now));
  }
}
