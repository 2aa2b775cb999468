/**
 * The dialog that shows one knowledge item and lets the auditor edit it: text entries and
 * `.txt` files are editable, everything else is read-only. The dialog keeps its own edit
 * buffer, which only text content ever refreshes.
 */
module KnowledgeItemDialog {
  import opened Wrappers
  import opened KnowledgeTypes
  import Strings

  /** The text shown when saving fails. */
  const SaveFailed := "Failed to save changes. Please try again."

  /** The title shown when an item has no (or an empty) file name. */
  const UntitledText := "Text Entry"

  /** A file item whose lower-cased name ends in ".txt". */
  function IsTextFile(item: KnowledgeItem): (r: bool)
    ensures r ==> item.kind == FileKind && item.filename.Some? && 4 <= |item.filename.value|
  {
    item.kind == FileKind && item.filename.Some? && Strings.EndsWith(Strings.ToLower(item.filename.value), ".txt")
  }

  /** Text entries and text files can be edited. */
  function CanEdit(item: KnowledgeItem): (r: bool)
    ensures item.kind == TextKind ==> r
    ensures r && item.kind == FileKind ==> item.filename.Some? && 4 <= |item.filename.value|
  {
    item.kind == TextKind || IsTextFile(item)
  }

  /** A file whose name ends in ".txt" in any mix of cases is editable. */
  lemma TextFilesEditable(item: KnowledgeItem, base: string, ext: string)
    requires item.kind == FileKind && item.filename == Some(base + ext)
    requires Strings.ToLower(ext) == ".txt"
    ensures CanEdit(item)
  {
    Strings.EndsWithLowerAppend(base, ".txt");
    Strings.ToLowerAppend(base, ext);
    Strings.ToLowerAppend(base, ".txt");
  }

  /** A file item is read-only when it has no name, or when its name is too short to end in ".txt". */
  lemma UnnamedFilesReadOnly(item: KnowledgeItem)
    requires item.kind == FileKind
    requires item.filename.None? || |item.filename.value| < 4
    ensures !CanEdit(item)
  {
  }

  /** The dialog's title: the file name when it is a non-empty string, otherwise "Text Entry". */
  function Title(item: KnowledgeItem): (r: string)
    ensures Truthy(item.filename) ==> r == item.filename.value
    ensures !Truthy(item.filename) ==> r == UntitledText
  {
    if Truthy(item.filename) then item.filename.value else UntitledText
  }

  /** The Save button is disabled while saving and for items that cannot be edited. */
  function SaveDisabled(loading: bool, item: KnowledgeItem): (r: bool)
    ensures loading ==> r
    ensures item.kind == TextKind ==> (r <==> loading)
    ensures item.kind == FileKind && item.filename.None? ==> r
  {
    loading || !CanEdit(item)
  }

  /**
   * The content field is disabled exactly for items that cannot be edited: always enabled for
   * a text entry, and locked together with Save while nothing is saving.
   */
  function ContentDisabled(item: KnowledgeItem): (r: bool)
    ensures r <==> !CanEdit(item)
    ensures item.kind == TextKind ==> !r
    ensures r <==> SaveDisabled(false, item)
  {
    !CanEdit(item)
  }

  /** Save can be pressed exactly when nothing is saving and the editor is enabled. */
  lemma SaveEnabledIffEditable(loading: bool, item: KnowledgeItem)
    ensures !SaveDisabled(loading, item) <==> !loading && CanEdit(item)
  {
  }

  /** The edit buffer after the item prop changes: text content is copied in; anything else leaves the buffer as it was. */
  function SyncedContent(buffer: string, item: Option<KnowledgeItem>): (r: string)
    ensures item.Some? && item.value.content.TextContent? ==> r == item.value.content.text
    ensures !(item.Some? && item.value.content.TextContent?) ==> r == buffer
  {
    if item.Some? && item.value.content.TextContent? then item.value.content.text else buffer
  }

  /**
   * Opening a file item whose content is a browser File right after a text item leaves the
   * text item's content in the buffer; for a `.txt` file that is what Save would store.
   */
  lemma StaleBufferAfterFileItem(text: KnowledgeItem, file: KnowledgeItem, buffer: string)
    requires text.content.TextContent? && file.content.FileContent?
    ensures SyncedContent(SyncedContent(buffer, Some(text)), Some(file)) == text.content.text
  {
  }

  /** The call a save makes: `updateKnowledgeItem(item.id, { content, updatedAt })`. */
  datatype SaveCall = SaveCall(id: string, updates: ItemPatch)

  /** The patch a save sends: the buffer as text content, and the client's time as the update time. */
  function SavePatch(content: string, clientNow: string): (r: ItemPatch)
    ensures r.content == Some(TextContent(content)) && r.updatedAt == Some(clientNow)
    ensures r.id.None? && r.auditorId.None? && r.kind.None? && r.filename.None? && r.createdAt.None?
  {
    ItemPatch(None, None, None, Some(TextContent(content)), None, None, Some(clientNow))
  }

  /**
   * Saving the buffer changes only the content and update time of the stored item: its id,
   * owner, kind, file name and creation time survive.
   */
  lemma SaveKeepsIdentity(item: KnowledgeItem, content: string, clientNow: string)
    ensures var r := Merge(item, SavePatch(content, clientNow));
      r.id == item.id && r.auditorId == item.auditorId && r.kind == item.kind &&
      r.filename == item.filename && r.createdAt == item.createdAt &&
      r.content == TextContent(content)
  {
  }

  /** The dialog's own state. */
  class DialogState {
    var content: string
    var loading: bool
    var error: Option<string>

    /** Mounted with an empty buffer, nothing saving and no error. */
    constructor ()
      ensures content == "" && !loading && error == None
    {
      content := "";
      loading := false;
      error := None;
    }

    /** The effect run when the item prop changes. */
    method SyncFromItem(item: Option<KnowledgeItem>)
      modifies this`content
      ensures content == SyncedContent(old(content), item)
    {
      if item.Some? && item.value.content.TextContent? {
        content := item.value.content.text;
      }
    }

    /**
     * `handleContentChange`. The handler itself does not check the item: a disabled field
     * (`ContentDisabled`) sends no change events, so edits only arrive for editable items.
     */
    method HandleContentChange(value: string)
      modifies this`content
      ensures content == value
    {
      content := value;
    }

    /**
     * `handleSave`, first half. Without an item nothing happens; otherwise saving starts,
     * the error is cleared and the buffer is sent, whatever the item's kind.
     */
    method BeginSave(item: Option<KnowledgeItem>, clientNow: string) returns (call: Option<SaveCall>)
      modifies this`loading, this`error
      ensures item.None? ==> call == None && loading == old(loading) && error == old(error)
      ensures item.Some? ==> call == Some(SaveCall(item.value.id, SavePatch(content, clientNow)))
      ensures item.Some? ==> loading && error == None
    {
      if item.None? {
        return None;
      }
      loading := true;
      error := None;
      call := Some(SaveCall(item.value.id, SavePatch(content, clientNow)));
    }

    /**
     * `handleSave`, second half: a saved item is handed to `onSave` and the dialog asks to
     * close; a failure sets the error and keeps the dialog open. Saving ends either way.
     */
    method EndSave(result: Result<KnowledgeItem>) returns (saved: Option<KnowledgeItem>, closed: bool)
      modifies this`loading, this`error
      ensures !loading
      ensures result.Ok? ==> saved == Some(result.value) && closed && error == old(error)
      ensures result.Err? ==> saved == None && !closed && error == Some(SaveFailed)
    {
      if result.Ok? {
        saved, closed := Some(result.value), true;
      } else {
        error := Some(SaveFailed);
        saved, closed := None, false;
      }
      loading := false;
    }
  }
}
