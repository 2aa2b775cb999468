/**
 * The in-memory knowledge store behind the API facade: a module-level array of items that
 * the operations filter, append to, overwrite at an index, or replace wholesale. Fresh ids
 * and the current time are parameters.
 */
module KnowledgeApi {
  import opened Wrappers
  import opened KnowledgeTypes
  import Seqs

  /** `getKnowledgeItems(auditorId)`: the auditor's items, in store order. */
  function ItemsOf(items: seq<KnowledgeItem>, auditorId: string): (r: seq<KnowledgeItem>)
    ensures Seqs.SubsequenceOf(r, items)
    ensures forall i :: 0 <= i < |r| ==> r[i].auditorId == auditorId
    ensures forall i :: 0 <= i < |items| && items[i].auditorId == auditorId ==> items[i] in r
    ensures forall x :: multiset(r)[x] == if x.auditorId == auditorId then multiset(items)[x] else 0
  {
    Seqs.FilterMultiset(items, (item: KnowledgeItem) => item.auditorId == auditorId);
    Seqs.Filter(items, (item: KnowledgeItem) => item.auditorId == auditorId)
  }

  /** `items.filter(item => item.id !== id)`: every item with that id goes, the rest keep their order. */
  function WithoutId(items: seq<KnowledgeItem>, id: string): (r: seq<KnowledgeItem>)
    ensures Seqs.SubsequenceOf(r, items)
    ensures forall i :: 0 <= i < |r| ==> r[i].id != id
    ensures forall i :: 0 <= i < |items| && items[i].id != id ==> items[i] in r
    ensures forall x :: multiset(r)[x] == if x.id == id then 0 else multiset(items)[x]
  {
    Seqs.FilterMultiset(items, (item: KnowledgeItem) => item.id != id);
    Seqs.Filter(items, (item: KnowledgeItem) => item.id != id)
  }

  /** Deleting an id that is not stored changes nothing. */
  lemma WithoutAbsentId(items: seq<KnowledgeItem>, id: string)
    requires forall i :: 0 <= i < |items| ==> items[i].id != id
    ensures WithoutId(items, id) == items
  {
    Seqs.FilterKeepsAll(items, (item: KnowledgeItem) => item.id != id);
  }

  /** Deleting is idempotent: a second delete of the same id changes nothing. */
  lemma WithoutIdIdempotent(items: seq<KnowledgeItem>, id: string)
    ensures WithoutId(WithoutId(items, id), id) == WithoutId(items, id)
  {
    WithoutAbsentId(WithoutId(items, id), id);
  }

  /** `findIndex(item => item.id === id)`: the first position holding that id. */
  function IndexOf(items: seq<KnowledgeItem>, id: string): (r: Option<nat>)
    ensures r.None? <==> forall i :: 0 <= i < |items| ==> items[i].id != id
    ensures r.Some? ==> r.value < |items| && items[r.value].id == id
    ensures r.Some? ==> forall j :: 0 <= j < r.value ==> items[j].id != id
  {
    Seqs.FindIndex(items, (item: KnowledgeItem) => item.id == id)
  }

  /** The item an update stores: the patch merged over the old item, then updatedAt forced to now. */
  function Updated(item: KnowledgeItem, updates: ItemPatch, now: string): (r: KnowledgeItem)
    ensures r.updatedAt == now
    ensures updates.content.None? ==> r.content == item.content
    ensures updates.content.Some? ==> r.content == updates.content.value
    ensures updates.id.None? ==> r.id == item.id
  {
    Merge(item, updates).(updatedAt := now)
  }

  /**
   * An edit that supplies only content and a client timestamp changes only the content and
   * the update time, and the store's time wins over the client's.
   */
  lemma ContentEditOnly(item: KnowledgeItem, content: Content, clientTime: string, now: string)
    ensures Updated(item, ItemPatch(None, None, None, Some(content), None, None, Some(clientTime)), now)
      == item.(content := content, updatedAt := now)
  {
  }

  /** The four items the store starts with, and returns to on reset. */
  const InitialItems: seq<KnowledgeItem> := [
    KnowledgeItem("1", "auditor-1", FileKind, TextContent("Mock PDF content"),
      Some("tax-guidelines-2025.pdf"), "2025-04-20T10:30:00Z", "2025-04-20T10:30:00Z"),
    KnowledgeItem("2", "auditor-1", TextKind,
      TextContent("Important financial advice regarding retirement accounts and tax implications."),
      None, "2025-04-22T14:15:00Z", "2025-04-22T14:15:00Z"),
    KnowledgeItem("3", "auditor-1", FileKind, TextContent("Mock DOCX content"),
      Some("investment-strategies.docx"), "2025-04-23T09:45:00Z", "2025-04-23T09:45:00Z"),
    KnowledgeItem("4", "auditor-2", TextKind,
      TextContent("Guidelines for handling client inquiries about cryptocurrency investments."),
      None, "2025-04-24T11:20:00Z", "2025-04-24T11:20:00Z")
  ]

  /** The auditor's items of a concatenation are the auditor's items of each part, in order. */
  lemma ItemsOfAppend(a: seq<KnowledgeItem>, b: seq<KnowledgeItem>, auditorId: string)
    ensures ItemsOf(a + b, auditorId) == ItemsOf(a, auditorId) + ItemsOf(b, auditorId)
  {
    Seqs.FilterAppend(a, b, (item: KnowledgeItem) => item.auditorId == auditorId);
  }

  /** A list whose items all belong to the auditor is all theirs. */
  lemma ItemsOfAllMine(items: seq<KnowledgeItem>, auditorId: string)
    requires forall i :: 0 <= i < |items| ==> items[i].auditorId == auditorId
    ensures ItemsOf(items, auditorId) == items
  {
    Seqs.FilterKeepsAll(items, (item: KnowledgeItem) => item.auditorId == auditorId);
  }

  /** A list none of whose items belongs to the auditor gives them nothing. */
  lemma ItemsOfNoneMine(items: seq<KnowledgeItem>, auditorId: string)
    requires forall i :: 0 <= i < |items| ==> items[i].auditorId != auditorId
    ensures ItemsOf(items, auditorId) == []
  {
  }

  /**
   * The initial store holds three items of auditor-1, in order 1, 2, 3, and one of auditor-2.
   * A check of the fixture, by the general lemmas above.
   */
  lemma InitialItemsByAuditor()
    ensures ItemsOf(InitialItems, "auditor-1") == InitialItems[..3]
    ensures ItemsOf(InitialItems, "auditor-2") == [InitialItems[3]]
  {
    var s := InitialItems;
    var mine, last := s[..3], [s[3]];
    assert s == mine + last;
    assert s[0].auditorId == "auditor-1" && s[1].auditorId == "auditor-1" && s[2].auditorId == "auditor-1";
    assert s[3].auditorId == "auditor-2";
    SplitByAuditor(mine, last, "auditor-1", "auditor-2");
  }

  /** Items of one auditor followed by items of another split back into the two parts. */
  lemma SplitByAuditor(mine: seq<KnowledgeItem>, theirs: seq<KnowledgeItem>, a: string, b: string)
    requires a != b
    requires forall i :: 0 <= i < |mine| ==> mine[i].auditorId == a
    requires forall i :: 0 <= i < |theirs| ==> theirs[i].auditorId == b
    ensures ItemsOf(mine + theirs, a) == mine && ItemsOf(mine + theirs, b) == theirs
  {
    ItemsOfAppend(mine, theirs, a);
    ItemsOfAllMine(mine, a);
    ItemsOfNoneMine(theirs, a);
    ItemsOfAppend(mine, theirs, b);
    ItemsOfNoneMine(mine, b);
    ItemsOfAllMine(theirs, b);
  }

  /** The store. */
  class KnowledgeStore {
    var items: seq<KnowledgeItem>

    /** The store as the module loads it. */
    constructor ()
      ensures items == InitialItems
    {
      items := InitialItems;
    }

    /** `getKnowledgeItems(auditorId)`. */
    method GetKnowledgeItems(auditorId: string) returns (r: seq<KnowledgeItem>)
      ensures r == ItemsOf(items, auditorId)
    {
      r := Seqs.Filter(items, (item: KnowledgeItem) => item.auditorId == auditorId);
    }

    /**
     * `addKnowledgeItem(item)`: the item is stored at the end under the fresh id, with
     * createdAt and updatedAt both set to now whatever the caller supplied.
     */
    method AddKnowledgeItem(item: NewItem, freshId: string, now: string) returns (r: KnowledgeItem)
      modifies this
      ensures r == KnowledgeItem(freshId, item.auditorId, item.kind, item.content, item.filename, now, now)
      ensures items == old(items) + [r]
    {
      r := KnowledgeItem(freshId, item.auditorId, item.kind, item.content, item.filename, now, now);
      items := items + [r];
    }

    /** `deleteKnowledgeItem(id)`: silent when nothing has that id. */
    method DeleteKnowledgeItem(id: string)
      modifies this
      ensures items == WithoutId(old(items), id)
    {
      items := Seqs.Filter(items, (item: KnowledgeItem) => item.id != id);
    }

    /**
     * `updateKnowledgeItem(id, updates)`: the first item with that id is replaced by its
     * update; an unknown id is rejected and the store is left as it was.
     */
    method UpdateKnowledgeItem(id: string, updates: ItemPatch, now: string) returns (r: Result<KnowledgeItem>)
      modifies this
      ensures IndexOf(old(items), id).None? ==> r == Err(NotFound(id)) && items == old(items)
      ensures IndexOf(old(items), id).Some? ==>
        var i := IndexOf(old(items), id).value;
        r == Ok(Updated(old(items)[i], updates, now)) && items == old(items)[i := r.value]
    {
      var index := IndexOf(items, id);
      if index.None? {
        return Err(NotFound(id));
      }
      var i := index.value;
      var updated := Updated(items[i], updates, now);
      items := items[i := updated];
      r := Ok(updated);
    }

    /** `resetMockData()`. */
    method ResetMockData()
      modifies this
      ensures items == InitialItems
    {
      items := InitialItems;
    }
  }
}
