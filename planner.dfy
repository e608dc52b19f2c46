/** The planner: classify the request's intent (falling back to `"query"`), dispatch to exactly
    one of four pipelines, and stamp the result with the trace of the pipeline that ran. */
module Planner {
  import opened Wrappers
  import opened Strings
  import opened Documents
  import opened AgentProtocol
  import RagAgent
  import SummarizationAgent

  const FallbackIntent := "query"
  const SummarizeTrace := "Planner -> Summarization Agent"
  const ComparatorTrace := "Planner -> RAG Agent -> Comparator Agent"
  const TimelineTrace := "Planner -> RAG Agent -> Timeline Agent"
  const RagTrace := "Planner -> RAG Agent"

  /** The planner's input dictionary: `query` and `documents`, each possibly absent. */
  datatype PlannerInput = PlannerInput(query: Option<string>, documents: Option<seq<Document>>)

  /** The four branches of the dispatch. */
  datatype Route = ToSummarization | ToComparator | ToTimeline | ToRag

  /** The intent the dispatch sees: the plan's `"intent"` value, or `"query"` when the
      classification chain raised or its plan has no `"intent"` key. */
  function ResolveIntent(query: Option<string>, svc: Services): string
  {
    match svc.classify(query)
    case Raised => FallbackIntent
    case Returned(plan) => if "intent" in plan then plan["intent"] else FallbackIntent
  }

  /** The `if`/`elif` chain on the intent string; every other string takes the RAG branch. */
  function RouteOf(intent: string): (route: Route)
    ensures route == ToSummarization <==> intent == "summarize"
    ensures route == ToComparator <==> intent == "compare"
    ensures route == ToTimeline <==> intent == "timeline"
    ensures route == ToRag <==> intent !in {"summarize", "compare", "timeline"}
  {
    if intent == "summarize" then ToSummarization
    else if intent == "compare" then ToComparator
    else if intent == "timeline" then ToTimeline
    else ToRag
  }

  function TraceOf(route: Route): string
  {
    match route
    case ToSummarization => SummarizeTrace
    case ToComparator => ComparatorTrace
    case ToTimeline => TimelineTrace
    case ToRag => RagTrace
  }

  /** `response["trace"] = trace` on the sub-agent's dictionary, whatever it holds. */
  function WithTrace(outcome: Outcome<Reply>, trace: string): Outcome<Reply>
  {
    match outcome
    case Raised => Raised
    case Returned(reply) => Returned(reply.(trace := Some(trace)))
  }

  /** `rag_result.get("evidence", [])`; iterating a `None` value raises, so that case has no
      list. */
  function EvidenceOrEmpty(slot: EvidenceSlot): Option<seq<Evidence>>
  {
    match slot
    case NoEvidenceKey => Some([])
    case NullEvidence => None
    case EvidenceList(records) => Some(records)
  }

  /** `rag_result.get("evidence")`: a missing key reads as `None`. */
  function EvidencePassthrough(slot: EvidenceSlot): EvidenceSlot
  {
    if slot.NoEvidenceKey? then NullEvidence else slot
  }

  /** `[e["content"] for e in evidence]`. */
  function Contents(evidence: seq<Evidence>): (r: seq<string>)
    ensures |r| == |evidence|
    ensures forall i :: 0 <= i < |evidence| ==> r[i] == evidence[i].content
  {
    if evidence == [] then [] else [evidence[0].content] + Contents(evidence[1..])
  }

  /** The compare and timeline branches: RAG on the query, then the reasoning agent over the
      newline-joined evidence texts (not over the RAG answer), passing RAG's evidence through. */
  function ChainedBranch(reason: (string, Option<string>) -> Outcome<string>, trace: string,
                         query: Option<string>, svc: Services): Outcome<Reply>
  {
    match RagAgent.Process(query, svc)
    case Raised => Raised
    case Returned(rag) =>
      match EvidenceOrEmpty(rag.evidence)
      case None => Raised
      case Some(records) =>
        match reason(Join("\n", Contents(records)), query)
        case Raised => Raised
        case Returned(text) =>
          Returned(Reply(None, Some(text), EvidencePassthrough(rag.evidence), Some(trace)))
  }

  /** `PlannerAgent.process`: exactly one branch runs, and whatever it returns, error
      dictionaries included, carries the trace of that branch. */
  function Process(input: PlannerInput, svc: Services): (r: Outcome<Reply>)
    ensures r.Returned? ==> r.value.trace == Some(TraceOf(RouteOf(ResolveIntent(input.query, svc))))
  {
    match RouteOf(ResolveIntent(input.query, svc))
    case ToSummarization => WithTrace(SummarizationAgent.Process(input.documents, svc), SummarizeTrace)
    case ToComparator => ChainedBranch(svc.compare, ComparatorTrace, input.query, svc)
    case ToTimeline => ChainedBranch(svc.timeline, TimelineTrace, input.query, svc)
    case ToRag => WithTrace(RagAgent.Process(input.query, svc), RagTrace)
  }

  /** A failed or malformed classification never aborts the request: it is answered by the
      RAG branch with the RAG trace. */
  lemma ClassificationFallback(input: PlannerInput, svc: Services)
    requires svc.classify(input.query).Raised? ||
             "intent" !in svc.classify(input.query).value
    ensures ResolveIntent(input.query, svc) == "query"
    ensures Process(input, svc) == WithTrace(RagAgent.Process(input.query, svc), RagTrace)
  {
  }

  /** Any intent string other than the three named ones (`"query"`, or an unknown one such as
      `"translate"`) is answered by the RAG branch. */
  lemma OtherIntentsUseRag(input: PlannerInput, svc: Services)
    requires ResolveIntent(input.query, svc) !in {"summarize", "compare", "timeline"}
    ensures Process(input, svc) == WithTrace(RagAgent.Process(input.query, svc), RagTrace)
    ensures Process(input, svc).Returned? ==> Process(input, svc).value.trace == Some(RagTrace)
  {
  }

  /** A summarize request hands the unchanged `documents` to the summarization agent; its
      evidence is empty, or absent when the agent reports an error. */
  lemma SummarizeRoute(input: PlannerInput, svc: Services)
    requires ResolveIntent(input.query, svc) == "summarize"
    ensures Process(input, svc) == WithTrace(SummarizationAgent.Process(input.documents, svc), SummarizeTrace)
    ensures Process(input, svc).Returned? ==>
      Process(input, svc).value.evidence in {EvidenceList([]), NoEvidenceKey}
  {
  }

  /** A compare request runs the comparator chain with the comparator trace. */
  lemma CompareRoute(input: PlannerInput, svc: Services)
    requires ResolveIntent(input.query, svc) == "compare"
    ensures Process(input, svc) == ChainedBranch(svc.compare, ComparatorTrace, input.query, svc)
  {
  }

  /** A timeline request runs the timeline chain with the timeline trace. */
  lemma TimelineRoute(input: PlannerInput, svc: Services)
    requires ResolveIntent(input.query, svc) == "timeline"
    ensures Process(input, svc) == ChainedBranch(svc.timeline, TimelineTrace, input.query, svc)
  {
  }

  /** The texts of the retrieved documents, in order. */
  function DocumentTexts(docs: seq<Document>): (r: seq<string>)
    ensures |r| == |docs|
    ensures forall i :: 0 <= i < |docs| ==> r[i] == docs[i].pageContent
  {
    if docs == [] then [] else [docs[0].pageContent] + DocumentTexts(docs[1..])
  }

  /** A chained branch in terms of what was retrieved: the reasoning agent gets the document
      texts joined by newlines, in retrieval order, and the result's evidence is RAG's, one
      record per retrieved document. */
  lemma ChainedRetrieved(reason: (string, Option<string>) -> Outcome<string>, trace: string,
                         q: string, svc: Services, docs: seq<Document>)
    requires q != ""
    requires svc.search(q, RagAgent.DefaultK) == Returned(docs)
    requires svc.answer(RagAgent.Context(docs), q).Returned?
    ensures ChainedBranch(reason, trace, Some(q), svc) ==
      match reason(Join("\n", DocumentTexts(docs)), Some(q))
      case Raised => Raised
      case Returned(text) =>
        Returned(Reply(None, Some(text), EvidenceList(RagAgent.EvidenceOf(docs)), Some(trace)))
  {
    var records := RagAgent.EvidenceOf(docs);
    assert Contents(records) == DocumentTexts(docs);
  }

  /** The chained branches ignore the RAG answer: two answer prompts that both return,
      whatever they return, give the same result. The answer still has to return. */
  lemma ChainedIgnoresRagAnswer(reason: (string, Option<string>) -> Outcome<string>, trace: string,
                                q: string, s1: Services, s2: Services)
    requires q != ""
    requires s1.search(q, RagAgent.DefaultK) == s2.search(q, RagAgent.DefaultK)
    requires s1.search(q, RagAgent.DefaultK).Returned?
    requires var c := RagAgent.Context(s1.search(q, RagAgent.DefaultK).value);
      s1.answer(c, q).Returned? && s2.answer(c, q).Returned?
    ensures ChainedBranch(reason, trace, Some(q), s1) == ChainedBranch(reason, trace, Some(q), s2)
  {
  }

  /** A compare request end to end: with a non-empty query whose search and answer return,
      the comparator gets the retrieved texts joined by newlines, and the result carries the
      retrieved documents' evidence and the comparator trace. */
  lemma ComparePipeline(input: PlannerInput, svc: Services, q: string, docs: seq<Document>)
    requires ResolveIntent(input.query, svc) == "compare"
    requires input.query == Some(q) && q != ""
    requires svc.search(q, RagAgent.DefaultK) == Returned(docs)
    requires svc.answer(RagAgent.Context(docs), q).Returned?
    ensures Process(input, svc) ==
      match svc.compare(Join("\n", DocumentTexts(docs)), Some(q))
      case Raised => Raised
      case Returned(text) =>
        Returned(Reply(None, Some(text), EvidenceList(RagAgent.EvidenceOf(docs)), Some(ComparatorTrace)))
  {
    ChainedRetrieved(svc.compare, ComparatorTrace, q, svc, docs);
  }

  /** A timeline request end to end, as for compare but with the timeline agent and trace. */
  lemma TimelinePipeline(input: PlannerInput, svc: Services, q: string, docs: seq<Document>)
    requires ResolveIntent(input.query, svc) == "timeline"
    requires input.query == Some(q) && q != ""
    requires svc.search(q, RagAgent.DefaultK) == Returned(docs)
    requires svc.answer(RagAgent.Context(docs), q).Returned?
    ensures Process(input, svc) ==
      match svc.timeline(Join("\n", DocumentTexts(docs)), Some(q))
      case Raised => Raised
      case Returned(text) =>
        Returned(Reply(None, Some(text), EvidenceList(RagAgent.EvidenceOf(docs)), Some(TimelineTrace)))
  {
    ChainedRetrieved(svc.timeline, TimelineTrace, q, svc, docs);
  }

  /** Without a query, RAG reports an error and has no evidence, yet a chained branch still
      runs its reasoning agent, on the empty context, and reports `evidence` as `None`. */
  lemma ChainedWithoutQuery(reason: (string, Option<string>) -> Outcome<string>, trace: string,
                            query: Option<string>, svc: Services)
    requires !RagAgent.HasQuery(query)
    ensures ChainedBranch(reason, trace, query, svc) ==
      match reason("", query)
      case Raised => Raised
      case Returned(text) => Returned(Reply(None, Some(text), NullEvidence, Some(trace)))
  {
    var empty: seq<Evidence> := [];
    assert Join("\n", Contents(empty)) == "";
  }

  /** With a non-empty query no branch returns `evidence: None`: RAG always returns an
      evidence list then. */
  lemma NoNullEvidenceWithQuery(input: PlannerInput, svc: Services)
    requires RagAgent.HasQuery(input.query)
    ensures Process(input, svc).Returned? ==> !Process(input, svc).value.evidence.NullEvidence?
  {
  }
}
