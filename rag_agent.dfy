/** The retrieval agent: guard against an empty query, retrieve, render the retrieved
    documents as one context string, answer from it, and return one evidence record per
    retrieved document. */
module RagAgent {
  import opened Wrappers
  import opened Strings
  import opened Documents
  import opened AgentProtocol

  /** The `k` of `query_vector_store(query, k=5)`. */
  const DefaultK: nat := 5
  const NoQueryError := "No query provided"
  /** The separator between two documents' blocks in the context. */
  const BlockSeparator := "\n\n"

  /** Python's `if not query`: the key is missing, `None`, or the empty string. */
  predicate HasQuery(query: Option<string>)
  {
    query.Some? && query.value != ""
  }

  function SourceLabel(m: Metadata): string
  {
    m.source.GetOr("Unknown")
  }

  function PageLabel(m: Metadata): string
  {
    match m.page
    case None => "?"
    case Some(p) => IntToString(p)
  }

  /** Everything of a document's block before its text:
      `"Source: {source} (Page {page})\nContent: "`. */
  function BlockHead(m: Metadata): (r: string)
    ensures |r| >= |"Source: "| && r[..|"Source: "|] == "Source: "
  {
    var r := "Source: " + (SourceLabel(m) + " (Page " + PageLabel(m) + ")\nContent: ");
    PrefixOfConcat("Source: ", SourceLabel(m) + " (Page " + PageLabel(m) + ")\nContent: ");
    r
  }

  /** The block of one retrieved document; it opens with `"Source: "` and closes with the
      document's text, unchanged. */
  function Block(d: Document): (r: string)
    ensures |r| >= |"Source: "| && r[..|"Source: "|] == "Source: "
    ensures |r| >= |d.pageContent| && r[|r| - |d.pageContent|..] == d.pageContent
  {
    var head := BlockHead(d.metadata);
    PrefixOfConcat(head, d.pageContent);
    assert (head + d.pageContent)[..|"Source: "|] == head[..|"Source: "|];
    head + d.pageContent
  }

  /** Helper for `Block`: a concatenation splits back into its two parts. */
  lemma PrefixOfConcat(a: string, b: string)
    ensures (a + b)[..|a|] == a && (a + b)[|a|..] == b
  {
  }

  /** The blocks of the retrieved documents, one per document, in retrieval order. */
  function Blocks(docs: seq<Document>): (r: seq<string>)
    ensures |r| == |docs|
    ensures forall i :: 0 <= i < |docs| ==> r[i] == Block(docs[i])
  {
    if docs == [] then [] else [Block(docs[0])] + Blocks(docs[1..])
  }

  /** The context handed to the answer prompt. */
  function Context(docs: seq<Document>): string
  {
    Join(BlockSeparator, Blocks(docs))
  }

  /** Nothing retrieved gives the empty context; one document gives exactly its block. */
  lemma ContextSmall(docs: seq<Document>)
    requires |docs| <= 1
    ensures docs == [] ==> Context(docs) == ""
    ensures |docs| == 1 ==> Context(docs) == Block(docs[0])
  {
  }

  /** The context of a longer retrieval is the contexts of its two halves, in order, with one
      blank line between them: blocks are neither reordered, dropped nor repeated. */
  lemma ContextAppend(a: seq<Document>, b: seq<Document>)
    requires |a| > 0 && |b| > 0
    ensures Context(a + b) == Context(a) + BlockSeparator + Context(b)
  {
    var whole, left, right := Blocks(a + b), Blocks(a), Blocks(b);
    assert whole == left + right by {
      forall i | 0 <= i < |whole|
        ensures whole[i] == (left + right)[i]
      {
        if i < |a| {
          assert (a + b)[i] == a[i];
        } else {
          assert (a + b)[i] == b[i - |a|];
        }
      }
    }
    JoinAppend(BlockSeparator, Blocks(a), Blocks(b));
  }

  /** The context of `n` documents is their blocks plus `n - 1` separators, nothing more. */
  lemma ContextLength(docs: seq<Document>)
    requires |docs| > 0
    ensures |Context(docs)| == TotalLength(Blocks(docs)) + (|docs| - 1) * |BlockSeparator|
  {
    JoinLength(BlockSeparator, Blocks(docs));
  }

  /** The record for one document: its metadata copied as is, with no defaults. */
  function ToEvidence(d: Document): Evidence
  {
    Evidence(d.metadata.source, d.metadata.page, d.pageContent)
  }

  /** The evidence list: one record per retrieved document, in the same order. */
  function EvidenceOf(docs: seq<Document>): (r: seq<Evidence>)
    ensures |r| == |docs|
    ensures forall i :: 0 <= i < |docs| ==>
      r[i].source == docs[i].metadata.source && r[i].page == docs[i].metadata.page &&
      r[i].content == docs[i].pageContent
  {
    if docs == [] then [] else [ToEvidence(docs[0])] + EvidenceOf(docs[1..])
  }

  /** A document without `source` or `page` metadata gets `None` in its evidence record but
      `"Unknown"` or `"?"` in the context. A corollary of `EvidenceOf`'s contract and the two
      label functions, stated as one fact. */
  lemma MissingMetadata(docs: seq<Document>, i: nat)
    requires i < |docs|
    ensures docs[i].metadata.source.None? ==>
      EvidenceOf(docs)[i].source.None? && SourceLabel(docs[i].metadata) == "Unknown"
    ensures docs[i].metadata.page.None? ==>
      EvidenceOf(docs)[i].page.None? && PageLabel(docs[i].metadata) == "?"
  {
  }

  /** `RAGAgent.process`. */
  function Process(query: Option<string>, svc: Services): (r: Outcome<Reply>)
    ensures !HasQuery(query) ==> r == Returned(ErrorReply(NoQueryError))
    ensures HasQuery(query) && r.Returned? ==>
      var retrieved := svc.search(query.value, DefaultK);
      && retrieved.Returned?
      && r.value.error.None?
      && r.value.trace.None?
      && r.value.evidence == EvidenceList(EvidenceOf(retrieved.value))
      && svc.answer(Context(retrieved.value), query.value).Returned?
      && r.value.response == Some(svc.answer(Context(retrieved.value), query.value).value)
    ensures HasQuery(query) && r.Raised? ==>
      svc.search(query.value, DefaultK).Raised? ||
      (svc.search(query.value, DefaultK).Returned? &&
       svc.answer(Context(svc.search(query.value, DefaultK).value), query.value).Raised?)
  {
    if !HasQuery(query) then Returned(ErrorReply(NoQueryError))
    else
      match svc.search(query.value, DefaultK)
      case Raised => Raised
      case Returned(docs) =>
        match svc.answer(Context(docs), query.value)
        case Raised => Raised
        case Returned(text) => Returned(Reply(None, Some(text), EvidenceList(EvidenceOf(docs)), None))
  }

  /** Retrieval is the single search for the query with `k = 5`: two indexes that agree on
      that search, with the same answer prompt, give the same result. */
  lemma SearchOnlyAtDefaultK(query: Option<string>, s1: Services, s2: Services)
    requires HasQuery(query) ==> s1.search(query.value, DefaultK) == s2.search(query.value, DefaultK)
    requires forall c :: s1.answer(c, query.GetOr("")) == s2.answer(c, query.GetOr(""))
    ensures Process(query, s1) == Process(query, s2)
  {
    if HasQuery(query) && s1.search(query.value, DefaultK).Returned? {
      var c := Context(s1.search(query.value, DefaultK).value);
      assert s1.answer(c, query.GetOr("")) == s2.answer(c, query.GetOr(""));
    }
  }

  /** With a non-empty query the only way to an error is an exception: a returned result
      always has `response` and `evidence` and never `error`. A corollary of `Process`'s
      contract. */
  lemma QueryAnswered(q: string, svc: Services)
    requires q != ""
    requires svc.search(q, DefaultK).Returned?
    requires svc.answer(Context(svc.search(q, DefaultK).value), q).Returned?
    ensures Process(Some(q), svc).Returned?
    ensures |Process(Some(q), svc).value.evidence.records| == |svc.search(q, DefaultK).value|
  {
  }
}
