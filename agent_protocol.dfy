/** What the agents exchange: the result dictionary each `process` returns, the evidence
    records inside it, and the external services the agents call. */
module AgentProtocol {
  import opened Wrappers
  import opened Documents

  /** One evidence record: `source` and `page` copied from a retrieved document's metadata
      (no default, so either may be `None`) and its text. */
  datatype Evidence = Evidence(source: Option<string>, page: Option<int>, content: string)

  /** The `"evidence"` entry of a result dictionary: the key may be missing, present with the
      value `None`, or present with a list of records. The three differ for
      `result.get("evidence", [])`. */
  datatype EvidenceSlot = NoEvidenceKey | NullEvidence | EvidenceList(records: seq<Evidence>)

  /** A result dictionary with its four possible keys; `None` means the key is absent. */
  datatype Reply = Reply(
    error: Option<string>,
    response: Option<string>,
    evidence: EvidenceSlot,
    trace: Option<string>)

  /** `{"error": message}` and nothing else. */
  function ErrorReply(message: string): Reply
  {
    Reply(Some(message), None, NoEvidenceKey, None)
  }

  /** The language model, the vector index and the summarize chain, as oracles. Each call may
      raise (authentication, quota, network); nothing in the core retries.
      - `classify(query)`: the intent chain, giving the parsed JSON plan;
      - `search(query, k)`: similarity search over the vector index, most similar first;
      - `answer(context, question)`: the RAG agent's answer prompt;
      - `compare(context, query)` and `timeline(context, query)`: the two reasoning agents'
        `response`;
      - `summarize(documents)`: the map-reduce chain's `output_text`. */
  datatype Services = Services(
    classify: Option<string> -> Outcome<map<string, string>>,
    search: (string, nat) -> Outcome<seq<Document>>,
    answer: (string, string) -> Outcome<string>,
    compare: (string, Option<string>) -> Outcome<string>,
    timeline: (string, Option<string>) -> Outcome<string>,
    summarize: seq<Document> -> Outcome<string>)
}
