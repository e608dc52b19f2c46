/** The application's own logic: the batch ingestion of uploaded files into the session corpus
    and the vector index, the document navigator, and one chat turn (planner input, defaults
    for missing result keys, chat history). */
module App {
  import opened Wrappers
  import opened Documents
  import opened AgentProtocol
  import Ingestion
  import Planner

  /** An uploaded file: its original name, the temporary path it was written to, and what
      the PDF library extracts from it. */
  datatype Upload = Upload(name: string, tempPath: string, pdf: Ingestion.PdfFile)

  /** `doc.metadata["source"] = name`. */
  function Retag(d: Document, name: string): Document
  {
    d.(metadata := d.metadata.(source := Some(name)))
  }

  /** The loaded pages of one file after their `source` is overwritten with `name`: the same
      pages in the same order, with only `source` changed. */
  function WithSource(docs: seq<Document>, name: string): seq<Document>
  {
    if docs == [] then [] else [Retag(docs[0], name)] + WithSource(docs[1..], name)
  }

  lemma {:induction false} WithSourceAt(docs: seq<Document>, name: string)
    ensures |WithSource(docs, name)| == |docs|
    ensures forall i :: 0 <= i < |docs| ==> WithSource(docs, name)[i] == Retag(docs[i], name)
  {
    if docs != [] {
      WithSourceAt(docs[1..], name);
    }
  }

  /** The retagging loop of the batch ingestion. */
  method SetSource(docs: seq<Document>, name: string) returns (tagged: seq<Document>)
    ensures tagged == WithSource(docs, name)
  {
    tagged := docs;
    var j := 0;
    while j < |tagged|
      invariant 0 <= j <= |tagged| == |docs|
      invariant forall m :: 0 <= m < j ==> tagged[m] == Retag(docs[m], name)
      invariant forall m :: j <= m < |tagged| ==> tagged[m] == docs[m]
    {
      tagged := tagged[j := Retag(tagged[j], name)];
      j := j + 1;
    }
    WithSourceAt(docs, name);
  }

  /** What one upload contributes to the batch. */
  function FilePages(u: Upload): seq<Document>
  {
    WithSource(Ingestion.LoadedDocuments(u.tempPath, u.pdf), u.name)
  }

  /** One list after the other, in order: `all_docs.extend(docs)` for each list. */
  function Concat(parts: seq<seq<Document>>): seq<Document>
  {
    if parts == [] then [] else Concat(parts[..|parts| - 1]) + parts[|parts| - 1]
  }

  lemma {:induction false} ConcatAppend(a: seq<seq<Document>>, b: seq<seq<Document>>)
    ensures Concat(a + b) == Concat(a) + Concat(b)
    decreases |b|
  {
    if b == [] {
      assert a + b == a;
    } else {
      var ab, init := a + b, b[..|b| - 1];
      assert ab[..|ab| - 1] == a + init;
      assert ab[|ab| - 1] == b[|b| - 1];
      ConcatAppend(a, init);
    }
  }

  /** Each upload's pages, in upload order. */
  function PagesPerFile(files: seq<Upload>): (r: seq<seq<Document>>)
    ensures |r| == |files|
  {
    seq(|files|, i requires 0 <= i < |files| => FilePages(files[i]))
  }

  /** `all_docs` after the batch loop: each file's pages, in upload order. */
  function BatchDocuments(files: seq<Upload>): seq<Document>
  {
    Concat(PagesPerFile(files))
  }

  /** The batch of two lists of uploads is the batch of the first followed by that of the
      second. */
  lemma BatchAppend(a: seq<Upload>, b: seq<Upload>)
    ensures BatchDocuments(a + b) == BatchDocuments(a) + BatchDocuments(b)
  {
    var pa, pb, pab := PagesPerFile(a), PagesPerFile(b), PagesPerFile(a + b);
    forall i | 0 <= i < |a| ensures pab[i] == pa[i] {
      assert (a + b)[i] == a[i];
    }
    forall i | 0 <= i < |b| ensures pab[|a| + i] == pb[i] {
      assert (a + b)[|a| + i] == b[i];
    }
    assert pab == pa + pb;
    ConcatAppend(pa, pb);
  }

  /** A single upload's batch is its own pages. */
  lemma BatchOfOne(u: Upload)
    ensures BatchDocuments([u]) == FilePages(u)
  {
    var p := PagesPerFile([u]);
    assert p == [FilePages(u)];
    assert p[..0] == [];
    calc {
      BatchDocuments([u]);
      Concat(p);
      Concat(p[..0]) + p[0];
      [] + FilePages(u);
      FilePages(u);
    }
  }

  /** The batch is the batch of all uploads but the last, followed by the last one's pages. */
  lemma BatchSplit(files: seq<Upload>)
    requires files != []
    ensures BatchDocuments(files) ==
      BatchDocuments(files[..|files| - 1]) + FilePages(files[|files| - 1])
  {
    var init, last := files[..|files| - 1], files[|files| - 1];
    assert init + [last] == files;
    BatchAppend(init, [last]);
    BatchOfOne(last);
  }

  /** A page as ingestion leaves it: non-empty text, a source, a positive page number. */
  predicate FromUpload(d: Document)
  {
    d.pageContent != "" && d.metadata.source.Some? && d.metadata.page.Some? && d.metadata.page.value >= 1
  }

  function UploadNames(files: seq<Upload>): set<string>
  {
    set j | 0 <= j < |files| :: files[j].name
  }

  /** One upload's pages: what `load_pdf` gave, one for one, with only `source` changed to
      the upload's name. */
  lemma FilePagesFacts(u: Upload)
    ensures |FilePages(u)| == |Ingestion.LoadedDocuments(u.tempPath, u.pdf)|
    ensures forall k :: 0 <= k < |FilePages(u)| ==>
      var d, loaded := FilePages(u)[k], Ingestion.LoadedDocuments(u.tempPath, u.pdf)[k];
      && FromUpload(d)
      && d.metadata.source == Some(u.name)
      && d.pageContent == loaded.pageContent
      && d.metadata.page == loaded.metadata.page
  {
    WithSourceAt(Ingestion.LoadedDocuments(u.tempPath, u.pdf), u.name);
    Ingestion.LoadedDocumentsFacts(u.tempPath, u.pdf);
  }

  /** Every page of the batch is a well-formed page whose `source` is the original name of
      the file it came from. */
  lemma {:induction false} BatchFromUploads(files: seq<Upload>)
    ensures forall d :: d in BatchDocuments(files) ==>
      FromUpload(d) && d.metadata.source.value in UploadNames(files)
    decreases |files|
  {
    if files == [] {
      assert PagesPerFile(files) == [];
    } else {
      var init, last := files[..|files| - 1], files[|files| - 1];
      BatchSplit(files);
      BatchFromUploads(init);
      FilePagesFacts(last);
      assert UploadNames(init) <= UploadNames(files) by {
        forall j | 0 <= j < |init| ensures init[j].name in UploadNames(files) {
          assert init[j] == files[j];
        }
      }
      assert last.name in UploadNames(files);
      forall d | d in BatchDocuments(files)
        ensures FromUpload(d) && d.metadata.source.value in UploadNames(files)
      {
        if d !in BatchDocuments(init) {
          var k :| 0 <= k < |FilePages(last)| && FilePages(last)[k] == d;
        }
      }
    }
  }

  /** Every non-empty corpus document has a `source`, so the navigator can list them. */
  predicate AllSourced(corpus: seq<Document>)
  {
    forall d :: d in corpus ==> d.metadata.source.Some?
  }

  /** The documents offered by the navigator's selector. */
  function Sources(corpus: seq<Document>): set<string>
    requires AllSourced(corpus)
  {
    set d | d in corpus :: d.metadata.source.value
  }

  /** `[d for d in corpus if d.metadata["source"] == selected]`. */
  function FileDocs(corpus: seq<Document>, selected: string): seq<Document>
  {
    if corpus == [] then []
    else (if corpus[0].metadata.source == Some(selected) then [corpus[0]] else [])
         + FileDocs(corpus[1..], selected)
  }

  /** The navigator's pages are exactly the corpus documents whose `source` is `selected`. */
  lemma {:induction false} FileDocsMembers(corpus: seq<Document>, selected: string)
    ensures |FileDocs(corpus, selected)| <= |corpus|
    ensures forall d :: d in FileDocs(corpus, selected) <==> d in corpus && d.metadata.source == Some(selected)
  {
    if corpus != [] {
      FileDocsMembers(corpus[1..], selected);
      assert forall d :: d in corpus <==> d == corpus[0] || d in corpus[1..];
    }
  }

  /** The filter keeps corpus order: filtering a concatenation filters each part. */
  lemma {:induction false} FileDocsAppend(a: seq<Document>, b: seq<Document>, selected: string)
    ensures FileDocs(a + b, selected) == FileDocs(a, selected) + FileDocs(b, selected)
  {
    if a == [] {
      assert a + b == b;
    } else {
      assert (a + b)[1..] == a[1..] + b;
      assert (a + b)[0] == a[0];
      FileDocsAppend(a[1..], b, selected);
    }
  }

  /** A document chosen in the selector has at least one page, so the page selector's range
      `1..len(file_docs)` is never empty. */
  lemma SelectedHasPages(corpus: seq<Document>, selected: string)
    requires AllSourced(corpus)
    requires selected in Sources(corpus)
    ensures |FileDocs(corpus, selected)| >= 1
  {
    var d :| d in corpus && d.metadata.source.value == selected;
    FileDocsMembers(corpus, selected);
    assert d in FileDocs(corpus, selected);
  }

  /** The uploads named `name`, in upload order. */
  function UploadsNamed(files: seq<Upload>, name: string): seq<Upload>
  {
    if files == [] then []
    else UploadsNamed(files[..|files| - 1], name)
         + (if files[|files| - 1].name == name then [files[|files| - 1]] else [])
  }

  /** Filtering pages that all carry one source keeps all of them or none. */
  lemma {:induction false} FileDocsOneSource(pages: seq<Document>, source: string, name: string)
    requires forall k :: 0 <= k < |pages| ==> pages[k].metadata.source == Some(source)
    ensures FileDocs(pages, name) == if source == name then pages else []
  {
    if pages != [] {
      FileDocsOneSource(pages[1..], source, name);
    }
  }

  /** The navigator's pages for `name` after a batch are the pages of every upload with that
      name, in upload order: two uploads with the same name share one page range. */
  lemma {:induction false} NavigatorPagesOfBatch(files: seq<Upload>, name: string)
    ensures FileDocs(BatchDocuments(files), name) == BatchDocuments(UploadsNamed(files, name))
    decreases |files|
  {
    if files == [] {
      assert PagesPerFile(files) == [];
      assert UploadsNamed(files, name) == [];
      assert PagesPerFile(UploadsNamed(files, name)) == [];
    } else {
      var init, last := files[..|files| - 1], files[|files| - 1];
      BatchSplit(files);
      FileDocsAppend(BatchDocuments(init), FilePages(last), name);
      NavigatorPagesOfBatch(init, name);
      FilePagesFacts(last);
      FileDocsOneSource(FilePages(last), last.name, name);
      if last.name == name {
        BatchAppend(UploadsNamed(init, name), [last]);
        BatchOfOne(last);
      } else {
        assert UploadsNamed(files, name) == UploadsNamed(init, name);
        calc {
          FileDocs(BatchDocuments(files), name);
          FileDocs(BatchDocuments(init), name) + FileDocs(FilePages(last), name);
          FileDocs(BatchDocuments(init), name) + [];
          BatchDocuments(UploadsNamed(init, name));
        }
      }
    }
  }

  lemma {:induction false} UploadsNamedNone(files: seq<Upload>, name: string)
    requires forall m :: 0 <= m < |files| ==> files[m].name != name
    ensures UploadsNamed(files, name) == []
    decreases |files|
  {
    if files != [] {
      var init := files[..|files| - 1];
      assert forall m :: 0 <= m < |init| ==> init[m] == files[m];
      UploadsNamedNone(init, name);
    }
  }

  /** An upload whose name no other upload has is the only one with that name. */
  lemma {:induction false} UploadsNamedUnique(files: seq<Upload>, j: nat)
    requires j < |files|
    requires forall m :: 0 <= m < |files| && m != j ==> files[m].name != files[j].name
    ensures UploadsNamed(files, files[j].name) == [files[j]]
    decreases |files|
  {
    var init := files[..|files| - 1];
    assert forall m :: 0 <= m < |init| ==> init[m] == files[m];
    if j < |files| - 1 {
      UploadsNamedUnique(init, j);
    } else {
      UploadsNamedNone(init, files[j].name);
    }
  }

  /** The page shown for page number `pageNum`. */
  function DisplayedPage(corpus: seq<Document>, selected: string, pageNum: int): string
    requires 1 <= pageNum <= |FileDocs(corpus, selected)|
  {
    FileDocs(corpus, selected)[pageNum - 1].pageContent
  }

  /** For a file whose name no other upload shares, page number `pageNum` of the navigator
      shows the `pageNum`-th page that had text: PDF page `p` with `p >= pageNum`, which is
      page `pageNum` only when no earlier page was empty. */
  lemma NavigatorShowsKeptPage(files: seq<Upload>, j: nat, pageNum: int)
    requires j < |files|
    requires forall m :: 0 <= m < |files| && m != j ==> files[m].name != files[j].name
    requires 1 <= pageNum <= |FileDocs(BatchDocuments(files), files[j].name)|
    ensures FileDocs(BatchDocuments(files), files[j].name) == FilePages(files[j])
    ensures files[j].pdf.Pdf?
    ensures var d := FilePages(files[j])[pageNum - 1];
      && d.metadata.page.Some?
      && pageNum <= d.metadata.page.value <= |files[j].pdf.pages|
      && files[j].pdf.pages[d.metadata.page.value - 1] ==
         Ingestion.PageText(Some(DisplayedPage(BatchDocuments(files), files[j].name, pageNum)))
  {
    var u := files[j];
    NavigatorPagesOfBatch(files, u.name);
    UploadsNamedUnique(files, j);
    BatchOfOne(u);
    FilePagesFacts(u);
    var loaded := Ingestion.LoadedDocuments(u.tempPath, u.pdf);
    assert u.pdf.Pdf? && loaded[pageNum - 1].metadata.page.Some? &&
           pageNum <= loaded[pageNum - 1].metadata.page.value <= |u.pdf.pages| &&
           u.pdf.pages[loaded[pageNum - 1].metadata.page.value - 1] ==
             Ingestion.PageText(Some(loaded[pageNum - 1].pageContent)) by {
      Ingestion.LoadedDocumentsFacts(u.tempPath, u.pdf);
    }
  }

  const NoResponseText := "I couldn't generate a response."
  const UnknownTrace := "Unknown"

  /** What the chat shows and stores for one planner result. `evidence` is `None` only when
      the result holds the key with the value `None`. */
  datatype Shown = Shown(response: string, evidence: Option<seq<Evidence>>, trace: string)

  /** `result.get("response", …)`, `result.get("evidence", [])`, `result.get("trace", …)`. */
  function ShownReply(r: Reply): Shown
  {
    Shown(r.response.GetOr(NoResponseText), Planner.EvidenceOrEmpty(r.evidence), r.trace.GetOr(UnknownTrace))
  }

  /** The planner's input for a chat prompt: the prompt and the session corpus. */
  function TurnInput(prompt: string, corpus: seq<Document>): Planner.PlannerInput
  {
    Planner.PlannerInput(Some(prompt), Some(corpus))
  }

  /** For a submitted prompt the trace default never applies, and the evidence shown and
      stored is always a list, possibly empty. */
  lemma TurnShowsTraceAndEvidence(prompt: string, corpus: seq<Document>, svc: Services)
    requires prompt != ""
    requires Planner.Process(TurnInput(prompt, corpus), svc).Returned?
    ensures var shown := ShownReply(Planner.Process(TurnInput(prompt, corpus), svc).value);
      && shown.evidence.Some?
      && shown.trace != UnknownTrace
      && shown.trace in {Planner.SummarizeTrace, Planner.ComparatorTrace, Planner.TimelineTrace, Planner.RagTrace}
  {
    Planner.NoNullEvidenceWithQuery(TurnInput(prompt, corpus), svc);
  }

  /** Asking for a summary before anything was uploaded shows the response default, no
      evidence and the summarization trace; the error text itself is not shown. */
  lemma SummaryOfEmptyCorpus(prompt: string, svc: Services)
    requires Planner.ResolveIntent(Some(prompt), svc) == "summarize"
    ensures Planner.Process(TurnInput(prompt, []), svc).Returned?
    ensures ShownReply(Planner.Process(TurnInput(prompt, []), svc).value) ==
      Shown(NoResponseText, Some([]), Planner.SummarizeTrace)
  {
  }

  datatype ChatMessage = UserMessage(content: string) | AssistantMessage(content: string, evidence: Option<seq<Evidence>>)

  /** What the success message reports: the number of files and of chunks. */
  datatype UploadReport = UploadReport(files: nat, chunks: nat)

  /** The vector index, append-only as far as the application is concerned. */
  class VectorIndex {
    var chunks: seq<Document>

    constructor (persisted: seq<Document>)
      ensures chunks == persisted
    {
      chunks := persisted;
    }

    /** `add_documents_to_store`. */
    method Add(docs: seq<Document>)
      modifies this
      ensures chunks == old(chunks) + docs
    {
      chunks := chunks + docs;
    }
  }

  /** The session state: the corpus and the chat history. */
  class Session {
    var documents: seq<Document>
    var messages: seq<ChatMessage>
    /** Whether the planner could be built (an API key was present). */
    const plannerReady: bool

    ghost predicate Valid()
      reads this
    {
      forall d :: d in documents ==> FromUpload(d)
    }

    /** A well-formed corpus can be listed by the navigator: every document has a source. */
    lemma ValidCorpusSourced()
      requires Valid()
      ensures AllSourced(documents)
    {
    }

    constructor (plannerReady: bool)
      ensures Valid()
      ensures documents == [] && messages == [] && this.plannerReady == plannerReady
    {
      documents := [];
      messages := [];
      this.plannerReady := plannerReady;
    }

    /** "Process Documents": load and retag every upload, split the whole batch once, add the
        chunks to the index in one call, and replace the corpus with the batch. */
    method ProcessUploads(files: seq<Upload>, split: seq<Document> -> seq<Document>, index: VectorIndex)
      returns (report: Option<UploadReport>)
      requires Valid()
      modifies this`documents, index
      ensures Valid()
      ensures files == [] ==>
        report == None && documents == old(documents) && index.chunks == old(index.chunks)
      ensures files != [] ==>
        && documents == BatchDocuments(files)
        && index.chunks == old(index.chunks) + split(BatchDocuments(files))
        && report == Some(UploadReport(|files|, |split(BatchDocuments(files))|))
    {
      if files == [] {
        return None;
      }
      var allDocs: seq<Document> := [];
      assert PagesPerFile(files[..0]) == [];
      var i := 0;
      while i < |files|
        invariant 0 <= i <= |files|
        invariant allDocs == BatchDocuments(files[..i])
        invariant index.chunks == old(index.chunks)
      {
        var docs := Ingestion.LoadPdf(files[i].tempPath, files[i].pdf);
        docs := SetSource(docs, files[i].name);
        allDocs := allDocs + docs;
        assert files[..i] + [files[i]] == files[..i + 1];
        BatchAppend(files[..i], [files[i]]);
        BatchOfOne(files[i]);
        i := i + 1;
      }
      assert files[..|files|] == files;
      assert allDocs == BatchDocuments(files);
      var chunks := split(allDocs);
      assert chunks == split(BatchDocuments(files));
      index.Add(chunks);
      BatchFromUploads(files);
      documents := allDocs;
      report := Some(UploadReport(|files|, |chunks|));
    }

    /** One chat turn: record the prompt, ask the planner, fill in defaults, record the answer.
        An exception from the planner ends the turn after the prompt was recorded. */
    method HandleTurn(prompt: string, svc: Services) returns (shown: Option<Shown>)
      requires Valid()
      modifies this`messages
      ensures Valid()
      ensures prompt == "" ==> messages == old(messages) && shown == None
      ensures prompt != "" && !plannerReady ==>
        messages == old(messages) + [UserMessage(prompt)] && shown == None
      ensures prompt != "" && plannerReady ==>
        var outcome := Planner.Process(TurnInput(prompt, documents), svc);
        && (outcome.Raised? ==> messages == old(messages) + [UserMessage(prompt)] && shown == None)
        && (outcome.Returned? ==>
              && shown == Some(ShownReply(outcome.value))
              && messages == old(messages) +
                   [UserMessage(prompt), AssistantMessage(shown.value.response, shown.value.evidence)])
    {
      shown := None;
      if prompt == "" {
        return;
      }
      messages := messages + [UserMessage(prompt)];
      if !plannerReady {
        return;
      }
      var outcome := Planner.Process(TurnInput(prompt, documents), svc);
      if outcome.Raised? {
        return;
      }
      var s := ShownReply(outcome.value);
      messages := messages + [AssistantMessage(s.response, s.evidence)];
      shown := Some(s);
    }
  }
}
