/** Retrieval query and result records exchanged with the retrieval port. */
module Rag {
  import opened Wrappers

  /** Attribute allow-lists; a missing or empty list does not restrict the search. */
  datatype RagFilters = RagFilters(
    departments: Option<seq<string>>,
    tags: Option<seq<string>>,
    documentVersionIds: Option<seq<string>>)

  datatype RagQuery = RagQuery(text: string, filters: Option<RagFilters>, limit: Option<int>)

  /** A retrieved chunk; identifiers read from metadata are absent when the metadata lacks them. */
  datatype RagResult = RagResult(
    documentId: Option<string>,
    documentVersionId: Option<string>,
    chunkId: string,
    text: string,
    metadata: map<string, string>,
    accessScope: map<string, seq<string>>)
}
