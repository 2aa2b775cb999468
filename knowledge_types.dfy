/** The records of the knowledge base. Timestamps are opaque ISO-8601 strings. */
module KnowledgeTypes {
  import opened Wrappers

  /** `'file' | 'text'`. */
  datatype ItemKind = FileKind | TextKind

  /** A browser `File`: only its name is visible to the logic; its bytes stay opaque. */
  datatype UploadedFile = UploadedFile(name: string, handle: nat)

  /** `string | File`. */
  datatype Content = TextContent(text: string) | FileContent(file: UploadedFile)

  /** A reference document or text snippet kept by an auditor. */
  datatype KnowledgeItem = KnowledgeItem(
    id: string,
    auditorId: string,
    kind: ItemKind,
    content: Content,
    filename: Option<string>,
    createdAt: string,
    updatedAt: string)

  /** `Omit<KnowledgeItem, 'id'>`: an item as a client submits it, before the store names it. */
  datatype NewItem = NewItem(
    auditorId: string,
    kind: ItemKind,
    content: Content,
    filename: Option<string>,
    createdAt: string,
    updatedAt: string)

  /** `Partial<KnowledgeItem>`: each field present is copied over the stored one. */
  datatype ItemPatch = ItemPatch(
    id: Option<string>,
    auditorId: Option<string>,
    kind: Option<ItemKind>,
    content: Option<Content>,
    filename: Option<string>,
    createdAt: Option<string>,
    updatedAt: Option<string>)

  /** `{ ...item, ...patch }`: the patch's fields win wherever it has one. */
  function Merge(item: KnowledgeItem, patch: ItemPatch): (r: KnowledgeItem)
    ensures patch == ItemPatch(None, None, None, None, None, None, None) ==> r == item
  {
    KnowledgeItem(
      if patch.id.Some? then patch.id.value else item.id,
      if patch.auditorId.Some? then patch.auditorId.value else item.auditorId,
      if patch.kind.Some? then patch.kind.value else item.kind,
      if patch.content.Some? then patch.content.value else item.content,
      if patch.filename.Some? then patch.filename else item.filename,
      if patch.createdAt.Some? then patch.createdAt.value else item.createdAt,
      if patch.updatedAt.Some? then patch.updatedAt.value else item.updatedAt)
  }

  /** Applying the same patch a second time changes nothing more. */
  lemma MergeIdempotent(item: KnowledgeItem, patch: ItemPatch)
    ensures Merge(Merge(item, patch), patch) == Merge(item, patch)
  {
  }
}
