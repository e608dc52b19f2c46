/** The summarization agent: guard against a missing or empty document list, then one call of
    the map-reduce summarize chain over the whole list. */
module SummarizationAgent {
  import opened Wrappers
  import opened Documents
  import opened AgentProtocol

  const NoDocumentsError := "No documents provided for summarization"

  /** Python's `if not documents`: the key is missing, `None`, or the empty list. */
  predicate HasDocuments(documents: Option<seq<Document>>)
  {
    documents.Some? && documents.value != []
  }

  /** `SummarizationAgent.process`. */
  function Process(documents: Option<seq<Document>>, svc: Services): (r: Outcome<Reply>)
    ensures !HasDocuments(documents) ==> r == Returned(ErrorReply(NoDocumentsError))
    ensures HasDocuments(documents) ==>
      (r.Returned? <==> svc.summarize(documents.value).Returned?)
    ensures HasDocuments(documents) && r.Returned? ==>
      && r.value.error.None?
      && r.value.trace.None?
      && r.value.evidence == EvidenceList([])
      && r.value.response == Some(svc.summarize(documents.value).value)
  {
    if !HasDocuments(documents) then Returned(ErrorReply(NoDocumentsError))
    else
      match svc.summarize(documents.value)
      case Raised => Raised
      case Returned(summary) => Returned(Reply(None, Some(summary), EvidenceList([]), None))
  }

  /** The chain sees the whole list and nothing else: two summarize chains that agree on the
      full list give the same result, whatever they do on any truncation of it. A corollary
      of `Process`'s contract. */
  lemma WholeListSummarized(documents: Option<seq<Document>>, s1: Services, s2: Services)
    requires HasDocuments(documents) ==> s1.summarize(documents.value) == s2.summarize(documents.value)
    ensures Process(documents, s1) == Process(documents, s2)
  {
  }
}
