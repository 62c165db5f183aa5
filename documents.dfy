/** The retrieved documents that flow from the vector search to the prompt and the analytics log. */
module Documents {
  import opened Wrappers

  /**
   * A LangChain document: its text and the two metadata entries the core reads.
   * A metadata entry that is missing is `None`.
   */
  datatype Doc = Doc(pageContent: string, source: Option<string>, category: Option<string>)
}
