/** A retrieved chunk of text (a LangChain `Document`) and the three notions of identity the core uses. */
module Documents {
  import opened Wrappers

  /**
   * `ref` stands for the object's reference: two values with the same `ref` are the same JavaScript
   * object, so a `Set<Document>` (reference identity) is a set of these values.
   * `source` is `metadata.source`, which may be missing.
   */
  datatype Document = Document(ref: nat, id: Option<string>, pageContent: string, source: Option<string>)

  /** Whether an optional string is truthy in JavaScript: present and not empty. */
  predicate Truthy(s: Option<string>)
  {
    s.Some? && s.value != ""
  }

  /** The key rank fusion merges on: `doc.id || doc.pageContent`, so an empty id falls back to the content. */
  function FusionKey(d: Document): (k: string)
    ensures Truthy(d.id) ==> k == d.id.value
    ensures !Truthy(d.id) ==> k == d.pageContent
  {
    if Truthy(d.id) then d.id.value else d.pageContent
  }
}
