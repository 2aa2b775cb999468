/**
 * The knowledge base page: the auditor's items, a type filter ANDed with a case-insensitive
 * search, the two ways of adding an item, and the edit dialog that opens for editable
 * items. The auditor is fixed; the current time and each API answer are parameters.
 */
module KnowledgeBase {
  import opened Wrappers
  import opened KnowledgeTypes
  import Seqs
  import Strings
  import MessageCard
  import KnowledgeItemDialog

  /** The auditor whose items the page shows and adds. */
  const FixedAuditor := "auditor-1"

  /** The text shown when the list fetch fails. */
  const LoadItemsError := "Failed to load knowledge items. Please try again."

  /** The text shown when adding an uploaded file fails. */
  const UploadFailed := "Failed to upload file. Please try again."

  /** The text shown when adding a text entry fails. */
  const AddTextFailed := "Failed to add text entry. Please try again."

  /** The text shown when no item passes the filters. */
  const EmptyListText := "No knowledge items found. Upload a file or add text to get started."

  /** `KnowledgeFilterOptions['type']`: `'all' | 'file' | 'text'`. */
  datatype TypeFilter = AllTypes | OnlyKind(kind: ItemKind)

  /** The type filter lets an item through. */
  function TypeMatches(item: KnowledgeItem, typeFilter: TypeFilter): (r: bool)
    ensures typeFilter.AllTypes? ==> r
    ensures typeFilter.OnlyKind? ==> (r <==> item.kind == typeFilter.kind)
  {
    typeFilter.AllTypes? || item.kind == typeFilter.kind
  }

  /**
   * An item hits an already lower-cased query when its content is a string containing the
   * query, or its file name is a non-empty string containing it, both lower-cased.
   */
  predicate SearchHit(item: KnowledgeItem, query: string) {
    (item.content.TextContent? && Strings.Contains(Strings.ToLower(item.content.text), query))
    || (Truthy(item.filename) && Strings.Contains(Strings.ToLower(item.filename.value), query))
  }

  /** The search lets an item through: an empty query lets everything through; any other is lower-cased, not trimmed. */
  function QueryMatches(item: KnowledgeItem, searchQuery: string): (r: bool)
    ensures searchQuery == "" ==> r
    ensures r && searchQuery != "" ==> item.content.TextContent? || Truthy(item.filename)
  {
    searchQuery == "" || SearchHit(item, Strings.ToLower(searchQuery))
  }

  /** The test `filteredItems` applies to one item. */
  function Shown(item: KnowledgeItem, typeFilter: TypeFilter, searchQuery: string): (r: bool)
    ensures r ==> TypeMatches(item, typeFilter) && QueryMatches(item, searchQuery)
    ensures typeFilter.AllTypes? && searchQuery == "" ==> r
  {
    TypeMatches(item, typeFilter) && QueryMatches(item, searchQuery)
  }

  /** `filteredItems`: the items passing both filters, in their order. */
  function Filtered(items: seq<KnowledgeItem>, typeFilter: TypeFilter, searchQuery: string): (r: seq<KnowledgeItem>)
    ensures Seqs.SubsequenceOf(r, items)
    ensures forall i :: 0 <= i < |r| ==> TypeMatches(r[i], typeFilter) && QueryMatches(r[i], searchQuery)
    ensures forall i :: 0 <= i < |items| && TypeMatches(items[i], typeFilter) && QueryMatches(items[i], searchQuery) ==>
      items[i] in r
    ensures typeFilter == AllTypes && searchQuery == "" ==> r == items
    ensures forall x :: multiset(r)[x] == if Shown(x, typeFilter, searchQuery) then multiset(items)[x] else 0
  {
    var shown := (item: KnowledgeItem) => Shown(item, typeFilter, searchQuery);
    Seqs.FilterMultiset(items, shown);
    if typeFilter == AllTypes && searchQuery == "" then
      Seqs.FilterKeepsAll(items, shown);
      Seqs.Filter(items, shown)
    else
      Seqs.Filter(items, shown)
  }

  /** The two filters are ANDed: filtering by type and then by the query gives the same list. */
  lemma FiltersCompose(items: seq<KnowledgeItem>, typeFilter: TypeFilter, searchQuery: string)
    ensures Filtered(Filtered(items, typeFilter, ""), AllTypes, searchQuery) == Filtered(items, typeFilter, searchQuery)
  {
    Seqs.FilterThenFilter(items,
      (item: KnowledgeItem) => Shown(item, typeFilter, ""),
      (item: KnowledgeItem) => Shown(item, AllTypes, searchQuery),
      (item: KnowledgeItem) => Shown(item, typeFilter, searchQuery));
  }

  /** An item whose content is a browser File is found by a non-empty query only through its file name. */
  lemma FileContentFoundByNameOnly(items: seq<KnowledgeItem>, typeFilter: TypeFilter, searchQuery: string, item: KnowledgeItem)
    requires searchQuery != "" && item.content.FileContent?
    requires item in Filtered(items, typeFilter, searchQuery)
    ensures Truthy(item.filename) && Strings.Contains(Strings.ToLower(item.filename.value), Strings.ToLower(searchQuery))
  {
    var r := Filtered(items, typeFilter, searchQuery);
    var i :| 0 <= i < |r| && r[i] == item;
  }

  /** `prevItems.map(item => item.id === updated.id ? updated : item)`. */
  function ReplaceItem(items: seq<KnowledgeItem>, updated: KnowledgeItem): (r: seq<KnowledgeItem>)
    ensures |r| == |items|
    ensures forall i :: 0 <= i < |items| && items[i].id == updated.id ==> r[i] == updated
    ensures forall i :: 0 <= i < |items| && items[i].id != updated.id ==> r[i] == items[i]
  {
    Seqs.Map(items, (item: KnowledgeItem) => if item.id == updated.id then updated else item)
  }

  /** Replacing an id the list does not hold leaves the list as it was. */
  lemma ReplaceAbsent(items: seq<KnowledgeItem>, updated: KnowledgeItem)
    requires forall i :: 0 <= i < |items| ==> items[i].id != updated.id
    ensures ReplaceItem(items, updated) == items
  {
  }

  /** The item a file upload submits: the file as content and its name as file name, stamped with now. */
  function UploadedItem(file: UploadedFile, now: string): (r: NewItem)
    ensures r.auditorId == FixedAuditor && r.kind == FileKind
    ensures r.content == FileContent(file) && r.filename == Some(file.name)
    ensures r.createdAt == now && r.updatedAt == now
  {
    NewItem(FixedAuditor, FileKind, FileContent(file), Some(file.name), now, now)
  }

  /** The item a text entry submits: the text as content, no file name, stamped with now. */
  function TextItem(text: string, now: string): (r: NewItem)
    ensures r.auditorId == FixedAuditor && r.kind == TextKind
    ensures r.content == TextContent(text) && r.filename.None?
    ensures r.createdAt == now && r.updatedAt == now
  {
    NewItem(FixedAuditor, TextKind, TextContent(text), None, now, now)
  }

  /** A text entry is always editable; an uploaded file is editable exactly when its name ends in ".txt", in any case. */
  lemma AddedItemsEditable(text: string, file: UploadedFile, now: string, id: string)
    ensures var t := TextItem(text, now);
      KnowledgeItemDialog.CanEdit(KnowledgeItem(id, t.auditorId, t.kind, t.content, t.filename, now, now))
    ensures var f := UploadedItem(file, now);
      var stored := KnowledgeItem(id, f.auditorId, f.kind, f.content, f.filename, now, now);
      KnowledgeItemDialog.CanEdit(stored) <==> Strings.EndsWith(Strings.ToLower(file.name), ".txt")
  {
  }

  /** The second line of a row. */
  datatype RowNote = FileNote(editable: bool) | Preview(text: string) | Unavailable

  /** A file row notes whether it can be edited; a text row previews its content, cut like a message question. */
  function RowNoteOf(item: KnowledgeItem): (r: RowNote)
    ensures item.kind == FileKind ==> r == FileNote(KnowledgeItemDialog.IsTextFile(item))
    ensures item.kind == TextKind && item.content.TextContent? ==>
      r == Preview(MessageCard.TruncatedQuestion(item.content.text))
    ensures item.kind == TextKind && item.content.FileContent? ==> r == Unavailable
  {
    if item.kind == FileKind then FileNote(KnowledgeItemDialog.IsTextFile(item))
    else if item.content.TextContent? then Preview(MessageCard.TruncatedQuestion(item.content.text))
    else Unavailable
  }

  /** One row of the list: title, note, and whether it reacts to a click. */
  datatype Row = Row(title: string, note: RowNote, clickable: bool)

  /** What the list area renders. */
  datatype ListScreen = Spinner | ErrorText(text: string) | EmptyList | Rows(rows: seq<Row>)

  /** Loading wins over an error, an error over the empty list; otherwise one row per shown item. */
  function ListView(loading: bool, error: Option<string>, shown: seq<KnowledgeItem>): (r: ListScreen)
    ensures loading ==> r == Spinner
    ensures !loading && Truthy(error) ==> r == ErrorText(error.value)
    ensures !loading && !Truthy(error) && shown == [] ==> r == EmptyList
    ensures !loading && !Truthy(error) && shown != [] ==> r.Rows? && |r.rows| == |shown|
    ensures r.Rows? ==> forall i :: 0 <= i < |r.rows| ==>
      r.rows[i].title == KnowledgeItemDialog.Title(shown[i]) &&
      r.rows[i].clickable == KnowledgeItemDialog.CanEdit(shown[i])
  {
    if loading then Spinner
    else if Truthy(error) then ErrorText(error.value)
    else if shown == [] then EmptyList
    else Rows(Seqs.Map(shown, (item: KnowledgeItem) =>
      Row(KnowledgeItemDialog.Title(item), RowNoteOf(item), KnowledgeItemDialog.CanEdit(item))))
  }

  /** A file row is clickable exactly when its note does not say "(Not editable)". */
  lemma FileRowNoteAgreesWithClick(item: KnowledgeItem)
    requires item.kind == FileKind
    ensures RowNoteOf(item).editable <==> KnowledgeItemDialog.CanEdit(item)
  {
  }

  /** The page fetches only when it was given no initial items. */
  function FetchesOnMount(initialItems: seq<KnowledgeItem>): (r: bool)
    ensures r <==> initialItems == []
  {
    |initialItems| == 0
  }

  /** The state of the page. */
  class KnowledgeBaseView {
    var items: seq<KnowledgeItem>
    var loading: bool
    var error: Option<string>
    var typeFilter: TypeFilter
    var searchQuery: string
    var selectedItem: Option<KnowledgeItem>
    var dialogOpen: bool

    /** The dialog is open exactly when an item is selected, and only editable items are ever selected. */
    predicate Valid()
      reads this
    {
      (dialogOpen <==> selectedItem.Some?) &&
      (selectedItem.Some? ==> KnowledgeItemDialog.CanEdit(selectedItem.value))
    }

    /** Mounted with the given items, no filter, nothing loading and the dialog closed. */
    constructor (initialItems: seq<KnowledgeItem>)
      ensures Valid()
      ensures items == initialItems && !loading && error == None
      ensures typeFilter == AllTypes && searchQuery == "" && selectedItem == None && !dialogOpen
    {
      items := initialItems;
      loading := false;
      error := None;
      typeFilter := AllTypes;
      searchQuery := "";
      selectedItem := None;
      dialogOpen := false;
    }

    /** `fetchKnowledgeItems`, first half: loading on, error cleared, the fixed auditor's items requested. */
    method BeginFetch() returns (auditorId: string)
      modifies this`loading, this`error
      ensures loading && error == None && auditorId == FixedAuditor
    {
      loading := true;
      error := None;
      auditorId := FixedAuditor;
    }

    /** `fetchKnowledgeItems`, second half: the fetched items replace the list, or only the error is set. */
    method EndFetch(result: Result<seq<KnowledgeItem>>)
      modifies this`items, this`error, this`loading
      ensures !loading
      ensures result.Ok? ==> items == result.value && error == old(error)
      ensures result.Err? ==> items == old(items) && error == Some(LoadItemsError)
    {
      if result.Ok? {
        items := result.value;
      } else {
        error := Some(LoadItemsError);
      }
      loading := false;
    }

    /**
     * `handleFileUpload(file)`: the new item is handed to `onAddKnowledgeItem` before the API
     * call, so `notified` is returned whatever the call's outcome. The added item is appended
     * on success; on failure only the error is set.
     */
    method HandleFileUpload(file: UploadedFile, now: string, result: Result<KnowledgeItem>) returns (notified: NewItem)
      modifies this`items, this`error
      ensures notified == UploadedItem(file, now)
      ensures result.Ok? ==> items == old(items) + [result.value] && error == old(error)
      ensures result.Err? ==> items == old(items) && error == Some(UploadFailed)
    {
      notified := UploadedItem(file, now);
      if result.Ok? {
        items := items + [result.value];
      } else {
        error := Some(UploadFailed);
      }
    }

    /** `handleTextSubmit(text)`: as for an upload, with the text item and its own error text. */
    method HandleTextSubmit(text: string, now: string, result: Result<KnowledgeItem>) returns (notified: NewItem)
      modifies this`items, this`error
      ensures notified == TextItem(text, now)
      ensures result.Ok? ==> items == old(items) + [result.value] && error == old(error)
      ensures result.Err? ==> items == old(items) && error == Some(AddTextFailed)
    {
      notified := TextItem(text, now);
      if result.Ok? {
        items := items + [result.value];
      } else {
        error := Some(AddTextFailed);
      }
    }

    /** `handleFilterChange`: only the type filter changes. */
    method HandleFilterChange(value: TypeFilter)
      modifies this`typeFilter
      ensures typeFilter == value
    {
      typeFilter := value;
    }

    /** `handleSearchChange`: only the query changes. */
    method HandleSearchChange(value: string)
      modifies this`searchQuery
      ensures searchQuery == value
    {
      searchQuery := value;
    }

    /** `handleItemClick`: an editable item is selected and the dialog opened; any other click changes nothing. */
    method HandleItemClick(item: KnowledgeItem)
      requires Valid()
      modifies this`selectedItem, this`dialogOpen
      ensures Valid()
      ensures KnowledgeItemDialog.CanEdit(item) ==> selectedItem == Some(item) && dialogOpen
      ensures !KnowledgeItemDialog.CanEdit(item) ==> selectedItem == old(selectedItem) && dialogOpen == old(dialogOpen)
    {
      var isTextFile := item.kind == FileKind && item.filename.Some?
        && Strings.EndsWith(Strings.ToLower(item.filename.value), ".txt");
      if item.kind == TextKind || isTextFile {
        selectedItem := Some(item);
        dialogOpen := true;
      }
    }

    /** `handleDialogClose`. */
    method HandleDialogClose()
      modifies this`selectedItem, this`dialogOpen
      ensures Valid()
      ensures selectedItem == None && !dialogOpen
    {
      dialogOpen := false;
      selectedItem := None;
    }

    /** `handleItemUpdate`: the saved item replaces the entries with its id, in place. */
    method HandleItemUpdate(updated: KnowledgeItem)
      modifies this`items
      ensures items == ReplaceItem(old(items), updated)
    {
      items := Seqs.Map(items, (item: KnowledgeItem) => if item.id == updated.id then updated else item);
    }

    /** What the page lists for its current items and filters. */
    function FilteredItems(): (r: seq<KnowledgeItem>)
      reads this
      ensures Seqs.SubsequenceOf(r, items)
    {
      Filtered(items, typeFilter, searchQuery)
    }
  }
}
