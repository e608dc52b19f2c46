/** `load_pdf`: one document per PDF page with non-empty text, tagged with the file path and the
    page's 1-based position, stopping quietly at the first extraction failure. */
module Ingestion {
  import opened Wrappers
  import opened Documents

  /** What extracting one page gives: its text (`None` when the page has none), or an
      exception. */
  datatype PageRead = PageText(text: Option<string>) | PageFails

  /** What opening the file gives: an exception, or its pages in order. */
  datatype PdfFile = Unreadable | Pdf(pages: seq<PageRead>)

  /** Python's `if text`: neither `None` nor empty. */
  predicate HasText(read: PageRead)
  {
    read.PageText? && read.text.Some? && read.text.value != ""
  }

  /** The document for the page at 0-based position `i`. */
  function PageDocument(path: string, text: string, i: nat): Document
  {
    Document(text, Metadata(Some(path), Some(i + 1)))
  }

  /** The documents collected from page `i` on, up to the first failing page. */
  function KeptFrom(path: string, pages: seq<PageRead>, i: nat): seq<Document>
    requires i <= |pages|
    decreases |pages| - i
  {
    if i == |pages| || pages[i].PageFails? then []
    else (if HasText(pages[i]) then [PageDocument(path, pages[i].text.value, i)] else [])
         + KeptFrom(path, pages, i + 1)
  }

  /** What `load_pdf(path)` returns for this file. */
  function LoadedDocuments(path: string, pdf: PdfFile): seq<Document>
  {
    match pdf
    case Unreadable => []
    case Pdf(pages) => KeptFrom(path, pages, 0)
  }

  /** `load_pdf`. It never raises: every failure ends the loop with what was collected. */
  method LoadPdf(filePath: string, pdf: PdfFile) returns (documents: seq<Document>)
    ensures documents == LoadedDocuments(filePath, pdf)
  {
    documents := [];
    if pdf.Unreadable? {
      return;
    }
    var pages := pdf.pages;
    var i := 0;
    while i < |pages|
      invariant 0 <= i <= |pages|
      invariant documents + KeptFrom(filePath, pages, i) == KeptFrom(filePath, pages, 0)
    {
      match pages[i]
      case PageFails =>
        return;
      case PageText(text) =>
        if text.Some? && text.value != "" {
          documents := documents + [PageDocument(filePath, text.value, i)];
        }
      i := i + 1;
    }
  }

  /** Each collected document is a page with non-empty text, from before the first failure,
      with `source` the path and `page` its 1-based position; and the k-th collected document
      comes from page `i + k + 1` or later. */
  lemma {:induction false} KeptFromPages(path: string, pages: seq<PageRead>, i: nat)
    requires i <= |pages|
    ensures forall k :: 0 <= k < |KeptFrom(path, pages, i)| ==>
      var d := KeptFrom(path, pages, i)[k];
      && d.pageContent != ""
      && d.metadata.source == Some(path)
      && d.metadata.page.Some?
      && i + k + 1 <= d.metadata.page.value <= |pages|
      && pages[d.metadata.page.value - 1] == PageText(Some(d.pageContent))
      && (forall m :: i <= m < d.metadata.page.value ==> pages[m].PageText?)
    decreases |pages| - i
  {
    if i < |pages| && pages[i].PageText? {
      KeptFromPages(path, pages, i + 1);
    }
  }

  /** Page numbers strictly increase along the collected documents: output order is page
      order. */
  lemma {:induction false} KeptFromIncreasing(path: string, pages: seq<PageRead>, i: nat)
    requires i <= |pages|
    ensures forall k1, k2 :: 0 <= k1 < k2 < |KeptFrom(path, pages, i)| ==>
      KeptFrom(path, pages, i)[k1].metadata.page.GetOr(0) < KeptFrom(path, pages, i)[k2].metadata.page.GetOr(0)
    decreases |pages| - i
  {
    if i < |pages| && pages[i].PageText? {
      KeptFromIncreasing(path, pages, i + 1);
      KeptFromPages(path, pages, i + 1);
    }
  }

  /** No page with text before the first failure is skipped. */
  lemma {:induction false} KeptFromComplete(path: string, pages: seq<PageRead>, i: nat, j: nat)
    requires i <= j < |pages|
    requires forall m :: i <= m <= j ==> pages[m].PageText?
    requires HasText(pages[j])
    ensures PageDocument(path, pages[j].text.value, j) in KeptFrom(path, pages, i)
    decreases |pages| - i
  {
    if i < j {
      KeptFromComplete(path, pages, i + 1, j);
    }
  }

  /** A failure at page `e` gives exactly what the pages before it give: the prefix collected
      so far. */
  lemma {:induction false} KeptFromStopsAtFailure(path: string, pages: seq<PageRead>, i: nat, e: nat)
    requires i <= e < |pages| && pages[e].PageFails?
    ensures KeptFrom(path, pages, i) == KeptFrom(path, pages[..e], i)
    decreases e - i
  {
    if i < e {
      assert pages[..e][i] == pages[i];
      KeptFromStopsAtFailure(path, pages, i + 1, e);
    }
  }

  /** Soundness and page order of `load_pdf`'s result, for a whole file. */
  lemma LoadedDocumentsFacts(path: string, pdf: PdfFile)
    ensures pdf.Unreadable? ==> LoadedDocuments(path, pdf) == []
    ensures forall k :: 0 <= k < |LoadedDocuments(path, pdf)| ==>
      var d := LoadedDocuments(path, pdf)[k];
      && d.pageContent != ""
      && d.metadata.source == Some(path)
      && d.metadata.page.Some?
      && k + 1 <= d.metadata.page.value <= |pdf.pages|
      && pdf.pages[d.metadata.page.value - 1] == PageText(Some(d.pageContent))
      && (forall m :: 0 <= m < d.metadata.page.value ==> pdf.pages[m].PageText?)
    ensures forall k1, k2 :: 0 <= k1 < k2 < |LoadedDocuments(path, pdf)| ==>
      LoadedDocuments(path, pdf)[k1].metadata.page.GetOr(0) < LoadedDocuments(path, pdf)[k2].metadata.page.GetOr(0)
  {
    if pdf.Pdf? {
      KeptFromPages(path, pdf.pages, 0);
      KeptFromIncreasing(path, pdf.pages, 0);
    }
  }

  /** Completeness for a whole file: every page with text before the first failure is
      loaded. */
  lemma LoadedDocumentsComplete(path: string, pdf: PdfFile)
    ensures pdf.Pdf? ==> forall j :: (0 <= j < |pdf.pages| && HasText(pdf.pages[j]) &&
      (forall m :: 0 <= m < j ==> pdf.pages[m].PageText?)) ==>
      PageDocument(path, pdf.pages[j].text.value, j) in LoadedDocuments(path, pdf)
  {
    if pdf.Pdf? {
      forall j | 0 <= j < |pdf.pages| && HasText(pdf.pages[j]) &&
                 (forall m :: 0 <= m < j ==> pdf.pages[m].PageText?)
        ensures PageDocument(path, pdf.pages[j].text.value, j) in LoadedDocuments(path, pdf)
      {
        KeptFromComplete(path, pdf.pages, 0, j);
      }
    }
  }
}
