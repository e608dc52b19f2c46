/** LangChain's `Document` as the core uses it: page text plus a metadata dictionary of which
    the core reads only the `source` and `page` keys. */
module Documents {
  import opened Wrappers

  /** The `source` and `page` metadata keys; either may be absent in a document that comes
      back from the vector index. */
  datatype Metadata = Metadata(source: Option<string>, page: Option<int>)

  datatype Document = Document(pageContent: string, metadata: Metadata)
}
