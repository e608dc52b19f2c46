# Multi-agent PDF analysis: a Dafny model of the orchestration core

This project models the deterministic logic of a question-answering application over uploaded
PDF files. The application has five core parts:

- a **page loader** turns a PDF into one document per page that has text;
- an **ingestion coordinator** tags each page with the uploaded file's name, indexes the
  batch and replaces the session corpus with it;
- a **retrieval (RAG) agent** searches the vector index, renders what it finds as one
  context string, answers from it and returns one evidence record per retrieved document;
- a **summarization agent** summarizes the whole corpus;
- a **planner** classifies the request's intent (and falls back to `query` when that fails),
  dispatches to exactly one of four pipelines and stamps the result with a trace.

Around these sit the document navigator and a chat turn that fills in defaults for missing
result keys.

Every external service is an oracle field of `AgentProtocol.Services`: the language-model
calls, the intent classifier, similarity search and the summarize chain. An oracle call
either returns a value or `Raised`. `Raised` models an exception that escapes the call. The
model treats exceptions as the code does:

- the planner catches only a classification failure;
- `load_pdf` catches everything;
- every other exception aborts the request.

A Python result dictionary is the record `AgentProtocol.Reply`. Its `evidence` entry has
three states: absent, present with `None`, or a list. They are kept apart because
`rag_result.get("evidence")` and `result.get("evidence", [])` treat them differently.

Modules follow the source files:

| module | file |
|---|---|
| `Wrappers`, `Strings` | helpers: optional values, call outcomes, `sep.join`, `str(int)` |
| `Documents`, `AgentProtocol` | the `Document` type; the result dictionary and the services |
| `Ingestion` | `backend/ingestion.py` (`load_pdf`, as an imperative loop) |
| `RagAgent` | `agents/rag_agent.py` |
| `SummarizationAgent` | `agents/summarization_agent.py` |
| `Planner` | `agents/planner.py` |
| `App` | `app.py`: the `Session` and `VectorIndex` classes, the ingestion and the navigator |

Behaviour worth knowing, as the code has it:

- The compare and timeline pipelines give the reasoning agent the evidence texts joined by
  single newlines. They do not pass the RAG context, which has `Source:` headers. The RAG
  answer is still computed, then thrown away. If computing it raises, the whole request fails.
- With an empty query, RAG returns an error dictionary. The planner adds a trace to it
  instead of aborting. In the compare and timeline pipelines the reasoning agent still runs,
  on an empty context, and `evidence` is `None`.
- An unknown intent string is not rewritten to `query`. It simply matches none of the three
  named branches.
- A file whose extraction fails part-way keeps the pages read before the failure. It does
  not yield zero documents.
- In the context string, missing metadata is rendered as `Unknown` and `?`. Evidence
  records keep it as `None`.
- A summary request with an empty corpus shows the default text "I couldn't generate a
  response.". The error message is not what the chat displays.
- The navigator's page `n` is the `n`-th page that had text, so it is not always PDF page `n`.

## Model

| member | source | states |
|---|---|---|
| `Strings.JoinAppend` | agents/rag_agent.py:29 | joining two non-empty lists equals joining each with one separator between them; with the singleton case this fixes `sep.join` |
| `Strings.JoinLength` | agents/planner.py:71 | a join is exactly the parts plus one separator per gap |
| `Strings.Join` | agents/rag_agent.py:29 | definition: `sep.join(parts)`, the parts in order with `sep` between neighbours only |
| `Strings.NatToString` | agents/rag_agent.py:29 | `str(n)` is a non-empty string of decimal digits that starts with `0` exactly when `n` is `0`: no zero padding |
| `Strings.NatToStringRoundTrip` | agents/rag_agent.py:29 | reading back the digits of `str(n)` gives `n`, so distinct pages get distinct labels |
| `Strings.IntToString` | agents/rag_agent.py:29 | `str(i)` of a negative number is `-` followed by the digits of `-i`; otherwise it is the digits of `i`. In both cases the digits start with `0` only for `0` |
| `RagAgent.BlockHead` | agents/rag_agent.py:29 | a block's header opens with `Source: ` |
| `RagAgent.Block` | agents/rag_agent.py:29 | a document's block opens with `Source: ` and ends with the document's text, unchanged |
| `RagAgent.Blocks` | agents/rag_agent.py:29 | one block per retrieved document, in retrieval order |
| `RagAgent.Context` | agents/rag_agent.py:29 | definition: the blocks joined by a blank line (`"\n\n".join`); its properties are the three lemmas below |
| `RagAgent.ContextSmall` | agents/rag_agent.py:29 | no documents give the empty context; one document gives exactly its block |
| `RagAgent.ContextAppend` | agents/rag_agent.py:29 | the context of a concatenated retrieval is the two contexts joined by a blank line: no block is reordered, dropped or repeated |
| `RagAgent.ContextLength` | agents/rag_agent.py:29 | the context holds the blocks plus `n - 1` two-character separators and nothing else |
| `RagAgent.EvidenceOf` | agents/rag_agent.py:47 | one evidence record per retrieved document, same order, with `source`, `page` and content copied |
| `RagAgent.MissingMetadata` | agents/rag_agent.py:29-47 | missing `source` or `page` is `None` in the evidence but `Unknown` or `?` in the context |
| `RagAgent.Process` | agents/rag_agent.py:20-48 | a missing or empty query gives exactly the `No query provided` error. Otherwise a returned result carries no error and no trace, has evidence equal to `EvidenceOf` the `k = 5` search results, and its response is the answer for that context; an exception comes from the search or the answer |
| `RagAgent.SearchOnlyAtDefaultK` | agents/rag_agent.py:26 | the result depends on the index only through the one search for the query with `k = 5` |
| `RagAgent.QueryAnswered` | agents/rag_agent.py:43-47 | with a non-empty query and services that return, the agent returns as many evidence records as documents were retrieved |
| `SummarizationAgent.Process` | agents/summarization_agent.py:21-36 | missing or empty documents give exactly the `No documents provided for summarization` error. Otherwise the agent returns exactly when the chain does; `response` is the chain's text and `evidence` is `[]` |
| `SummarizationAgent.WholeListSummarized` | agents/summarization_agent.py:30-31 | the chain sees the whole list: chains that agree on it give the same result |
| `Planner.ResolveIntent` | agents/planner.py:52-57 | definition: the plan's `intent` value, or `query` when the chain raised or the plan has no `intent` key |
| `Planner.RouteOf` | agents/planner.py:61-92 | the dispatch partitions intent strings: `summarize`, `compare` and `timeline` each select their branch (both directions), and every other string selects RAG |
| `Planner.WithTrace` | agents/planner.py:63 | definition: `response["trace"] = trace` on whatever the sub-agent returned; an exception passes through |
| `Planner.EvidenceOrEmpty` | agents/planner.py:71 | definition: `get("evidence", [])`; an absent key gives `[]`, a `None` value gives no list, since iterating it raises |
| `Planner.EvidencePassthrough` | agents/planner.py:76 | definition: `get("evidence")`; an absent key reads as `None` |
| `Planner.ChainedBranch` | agents/planner.py:65-90 | definition: the compare and timeline branches, that is RAG, then the reasoning agent on the newline-joined evidence texts, then the result with RAG's evidence and the branch's trace |
| `Planner.Contents` | agents/planner.py:71 | the content of each evidence record, in order |
| `Planner.DocumentTexts` | agents/planner.py:71 | the text of each retrieved document, in order |
| `Planner.Process` | agents/planner.py:60-96 | every returned result, error dictionaries included, carries the trace of the one branch the resolved intent selects |
| `Planner.ClassificationFallback` | agents/planner.py:52-57 | if classification raises or its plan has no `intent`, the intent is `query` and the request is answered by the RAG branch with the RAG trace |
| `Planner.OtherIntentsUseRag` | agents/planner.py:92-94 | any intent other than the three named ones (such as `translate`) gives the RAG result with trace `Planner -> RAG Agent` |
| `Planner.SummarizeRoute` | agents/planner.py:61-63 | `summarize` gives the summarization agent's result for the unchanged `documents`, with the summarization trace; its evidence is `[]` or absent |
| `Planner.CompareRoute` | agents/planner.py:65-78 | `compare` selects the comparator chain, for every query |
| `Planner.TimelineRoute` | agents/planner.py:80-90 | `timeline` selects the timeline chain, for every query |
| `Planner.ComparePipeline` | agents/planner.py:65-78 | end to end for a non-empty query whose search and answer return: the comparator gets the retrieved texts joined by newlines, and the result is its text with the retrieved documents' evidence and the comparator trace, or an exception when the comparator raises |
| `Planner.TimelinePipeline` | agents/planner.py:80-90 | the same for `timeline`, with the timeline agent and the timeline trace |
| `Planner.ChainedRetrieved` | agents/planner.py:67-78 | after a successful retrieval, the reasoning agent gets the document texts joined by newlines in retrieval order; the result's evidence is RAG's evidence, one record per document |
| `Planner.ChainedIgnoresRagAnswer` | agents/planner.py:67-73 | the chained result does not depend on the RAG answer's text, only on that answer returning |
| `Planner.ChainedWithoutQuery` | agents/planner.py:71-76 | without a query the reasoning agent still runs, on the empty context, and `evidence` is `None` |
| `Planner.NoNullEvidenceWithQuery` | agents/planner.py:76 | with a non-empty query no branch returns `evidence: None` |
| `Ingestion.LoadPdf` | backend/ingestion.py:6-20 | the loop returns exactly the documents of the pages with text up to the first failure, and an unreadable file gives `[]`; it never raises |
| `Ingestion.KeptFrom` | backend/ingestion.py:11-17 | definition: the documents of the pages with text from position `i` on, up to the first failing page |
| `Ingestion.LoadedDocuments` | backend/ingestion.py:6-20 | definition: `[]` for an unreadable file, otherwise the pages kept from the first page on |
| `Ingestion.KeptFromPages` | backend/ingestion.py:11-17 | each kept document has non-empty text, `source` equal to the path, and `page` equal to its 1-based PDF position, at or after `k + 1` for the `k`-th document; it is that page's text, from before any failure |
| `Ingestion.KeptFromIncreasing` | backend/ingestion.py:11-16 | page numbers strictly increase: output order is PDF page order |
| `Ingestion.KeptFromComplete` | backend/ingestion.py:11-17 | no page with text before the first failure is skipped |
| `Ingestion.KeptFromStopsAtFailure` | backend/ingestion.py:8-20 | a failure at page `e` gives exactly the documents of the pages before `e` |
| `Ingestion.LoadedDocumentsFacts` | backend/ingestion.py:6-20 | soundness and page order for a whole file. An unreadable file gives no documents. Each document has non-empty text, the path as `source`, and its 1-based page, which holds that text, with no failure before it. Page numbers strictly increase |
| `Ingestion.LoadedDocumentsComplete` | backend/ingestion.py:8-17 | completeness for a whole file: every page with text that no failure precedes is loaded, as the document for that page |
| `App.WithSourceAt` | app.py:41-42 | retagging keeps every page and its order and changes only `source`, to the upload's name |
| `App.SetSource` | app.py:41-42 | the retagging loop computes `WithSource` |
| `App.ConcatAppend` | app.py:44 | extending list by list concatenates in order |
| `App.BatchDocuments` | app.py:31-44 | definition: each upload's retagged pages, concatenated in upload order |
| `App.BatchAppend` | app.py:31-44 | the batch of two upload lists is the first batch followed by the second |
| `App.BatchOfOne` | app.py:39-44 | one upload's batch is its own retagged pages |
| `App.BatchSplit` | app.py:32-44 | the batch is all uploads but the last, followed by the last upload's pages |
| `App.FilePagesFacts` | app.py:39-42 | an upload's pages are `load_pdf`'s, one for one, with `source` set to the uploaded name |
| `App.BatchFromUploads` | app.py:39-44 | every batch page has text, a positive page number and, as `source`, the name of an uploaded file |
| `App.FileDocs` | app.py:60 | definition: `[d for d in corpus if d.metadata["source"] == selected]` |
| `App.FileDocsMembers` | app.py:60 | the navigator's pages are exactly the corpus documents whose `source` is the selected name |
| `App.FileDocsAppend` | app.py:60 | the filter preserves corpus order |
| `App.SelectedHasPages` | app.py:57-63 | a selectable document has at least one page, so the page range `1..len(file_docs)` is not empty |
| `App.FileDocsOneSource` | app.py:60 | pages that share one source are kept all together or not at all |
| `App.NavigatorPagesOfBatch` | app.py:57-60 | after a batch, the navigator's pages for a name are the pages of every upload with that name, in upload order |
| `App.UploadsNamedNone` | app.py:57 | no upload with the name gives no pages |
| `App.UploadsNamedUnique` | app.py:57 | an upload whose name is unique is the only upload with that name |
| `App.DisplayedPage` | app.py:67 | definition: the text of `file_docs[page_num - 1]` |
| `App.NavigatorShowsKeptPage` | app.py:63-67 | for a uniquely named file, page number `n` shows the `n`-th kept page: PDF page `p` with `n <= p`, whose extracted text is what is displayed |
| `App.TurnInput` | app.py:93-96 | definition: the planner input holds the prompt and the session corpus |
| `App.ShownReply` | app.py:100-102 | definition: the three `get` calls, with defaults `I couldn't generate a response.`, `[]` and `Unknown`; evidence uses `Planner.EvidenceOrEmpty` |
| `App.TurnShowsTraceAndEvidence` | app.py:93-102 | for a submitted prompt the trace default `Unknown` never applies, and the evidence shown and stored is always a list |
| `App.SummaryOfEmptyCorpus` | app.py:93-102 | a summary request with an empty corpus shows the default response, no evidence and the summarization trace |
| `App.VectorIndex.constructor` | backend/vector_store.py:20-29 | the index starts with what it has persisted |
| `App.VectorIndex.Add` | backend/vector_store.py:31-36 | adding appends the chunks and removes nothing |
| `App.Session.constructor` | app.py:72-73 | a new session has an empty corpus and an empty history |
| `App.Session.ValidCorpusSourced` | app.py:56-57 | a well-formed corpus has a `source` on every document, so the navigator's selector can list them |
| `App.Session.ProcessUploads` | app.py:28-53 | with uploads, the corpus is replaced by the batch, not merged; the index gains the split of the whole batch in one call; the report counts files and `len(chunks)`. Without uploads nothing changes. The corpus stays well-formed |
| `App.Session.HandleTurn` | app.py:84-120 | the prompt is recorded first. The planner gets the prompt and the corpus. The shown result applies the three defaults, and the assistant message is recorded only when the planner returned. The corpus is unchanged and stays well-formed |

## Left out

- Language-model calls, prompt templates and the JSON output parser are oracles in `Services`. This covers the intent prompt, the answer, compare and timeline prompts (agents/reasoning_agents.py), and the map-reduce summarize chain. Their outputs are arbitrary.
- `Planner.ResolveIntent`: a parsed plan is a map from strings to strings. An `intent` value that is not a string (a JSON `null`, say) cannot be written. Like any unknown string, it would take the RAG branch.
- Provider selection by environment variable and the agents' constructors are left out. That the planner could not be built is the `plannerReady` flag of `App.Session`. The flag is fixed when the session is built, but the application retries `PlannerAgent()` on every rerun while no planner is stored (app.py:15-19). So a planner that becomes available later in a session is not modelled.
- `split_documents` (RecursiveCharacterTextSplitter) is the `split` parameter of `ProcessUploads`. Chunk size and overlap guarantees cannot be checked against this code, and chunk metadata is whatever the splitter gives.
- The vector store (Chroma, embeddings, lazy global initialisation, persistence) is left out. `search` is an oracle not tied to `VectorIndex.chunks`, and it may return any number of documents. `VectorIndex` only records what was added.
- `App.Session.ProcessUploads` assumes `split` and `add_documents_to_store` return. An exception from either is not modelled; it would abort the run before the corpus is replaced.
- The summarize chain's result is assumed to hold `output_text`.
- pdfplumber is left out. A file is `Unreadable` or a list of page reads; each read is some text, no text, or an exception.
- The temporary file is only its path, a field of `Upload`. Writing it and `os.remove` are file I/O. `print` logging is output only.
- Streamlit rendering is left out: the selectors, the spinner, the success and error banners, and the evidence expanders (app.py:75-82, 104-111). The selected document and page number are lemma parameters, within the ranges the widgets enforce.
- In-place updates of `doc.metadata["source"]` are modelled on values. The documents are fresh lists from `load_pdf` and nothing else refers to them, so no aliasing is lost.
- An absent `documents` session key behaves exactly like an empty corpus, so the corpus starts as `[]`.
- backend/models.py holds dataclasses with no behaviour, and `RetrievalResult.score` is a float. tests/test_backend.py has no assertions.
