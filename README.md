# Auditor dashboard core, modelled in Dafny

This project models the logic layer of an auditor dashboard. Auditors review AI-generated
answers to customer questions. They approve, reject or postpone each answer, or ask for a
regeneration with written guidance. They also keep a knowledge base of uploaded files and
text entries.

The model covers:

- **The two in-memory stores.** `MessageApi.MessageStore` and `KnowledgeApi.KnowledgeStore`
  are classes over a `seq` of records. They read, find by id, update at an index, append,
  delete, regenerate and reset. Fresh ids and the current time are parameters. A missing id
  is the error value `NotFound(id)`.
- **The list rules of the two pages.**
  - The message queue drops a message from the current tab, or replaces it in place, after
    a status change.
  - The knowledge base appends new items, replaces edited ones by id, and filters by type
    AND a case-insensitive search.
- **The pure predicates.**
  - the message search
  - the "editable = text entry or `.txt` file" gate
  - the file-extension check and its error text
  - question truncation
  - the colour maps
  - the text-entry style merge
- **The small form state machines.** These are the refinement form, the detail pane's
  status buttons, the edit dialog's save path, the drop zone and the text-entry form. Each
  is a class whose fields are the component's state. Each event handler is a method.
  - An asynchronous handler is split in two where state is visible while its call is in
    flight. A `Begin…` method returns the call it makes. An `End…` method takes the call's
    outcome as a `Result` or a `bool`.
- **End-to-end runs.** `ReviewFlows` wires a store, the detail pane and the refinement form
  together the way the pages do.

Strings are `seq<char>`:

- `trim` removes the ECMAScript white-space and line-terminator characters.
- `toLowerCase`/`toUpperCase` change ASCII letters only.
- `includes` is `Strings.Contains` and `endsWith` is `Strings.EndsWith`.

JavaScript truthiness of `string | null` is kept. An empty error string shows no error.
Confidence is a `real`.

The general proofs by induction are `MessageApi.RegeneratedAllHistory` and
`MessageApi.RegeneratedAllMonotone` (any number of regenerations), `Seqs.FilterAppend`,
`Seqs.FilterMultiset` and `Seqs.SubsequenceTrans`. `MessageApi.StatusUpdateMovesMessage`
and `KnowledgeApi.WithoutIdIdempotent` hold for every store. `FileUploader.UndottedNameAccepted`
and `KnowledgeApi.InitialItemsByAuditor` are checks of one input or of the seed data, made
with the general lemmas.

## Model

| member | source | states |
|---|---|---|
| MessageTypes.StatusNameInjective | src/types/message.ts:2 | the four status literals are distinct, so equal names mean equal statuses |
| MessageTypes.StatusName | src/types/message.ts:2 | each status is spelled in upper-case letters only, at least five of them |
| KnowledgeTypes.Merge | src/api/__mocks__/knowledgeApi.ts:86-88 | spreading an empty patch over an item gives the item back |
| KnowledgeTypes.MergeIdempotent | src/api/__mocks__/knowledgeApi.ts:86-88 | spreading the same patch twice is spreading it once |
| Seqs.Filter | src/api/__mocks__/messageApi.ts:81 | `Array.filter`: the result is an order-preserving subsequence holding exactly the elements that pass |
| Seqs.FilterMultiset | src/api/__mocks__/messageApi.ts:81 | `Array.filter` keeps every copy of an element that passes and no copy of one that fails, by induction over the sequence |
| Seqs.FilterAppend | src/api/__mocks__/knowledgeApi.ts:47 | filtering a concatenation is concatenating the filtered parts |
| Seqs.FilterThenFilter | src/components/knowledge/KnowledgeBase.tsx:155-173 | two filters in a row equal one filter by the conjunction |
| Seqs.FindIndex | src/api/__mocks__/messageApi.ts:109 | `findIndex`: none exactly when no element passes; otherwise the first element that passes |
| Strings.Trim | src/components/messages/MessageList.tsx:28 | `trim()` is empty exactly when the string is all white space; otherwise it starts and ends with non-space; the result is a slice of the input with only white space before and after it |
| Strings.TrimIdempotent | src/components/messages/RefinementInput.tsx:48 | trimming a trimmed string changes nothing |
| Strings.ToLower | src/components/messages/MessageList.tsx:31 | `toLowerCase()` keeps the length and lower-cases each character |
| Strings.ToLowerIdempotent | src/components/knowledge/KnowledgeBase.tsx:163 | lower-casing twice is lower-casing once |
| Strings.AfterLast | src/components/knowledge/FileUploader.tsx:38 | `split(c).pop()`: the dot-free suffix after the last c, or the whole string when there is no c |
| Strings.AfterLastSplit | src/components/knowledge/FileUploader.tsx:38 | for `base + c + tail` with no c in tail, the piece after the last c is tail |
| Strings.RemoveAll | src/components/knowledge/FileUploader.tsx:40 | `replace(/\./g, '')`: no c remains, every other character is kept as often as it occurs, and the order is kept |
| MessageApi.IndexOf | src/api/__mocks__/messageApi.ts:109 | the first position holding the id, or none exactly when no message has it |
| MessageApi.MessagesFor | src/api/__mocks__/messageApi.ts:81-87 | exactly the auditor's messages in store order, restricted to the status only when one is given; each kept message appears as often as in the store |
| MessageApi.BumpedConfidence | src/api/__mocks__/messageApi.ts:149 | `min(0.99, c + 0.05)`: at most 0.99 and at most c + 0.05, equal to one of the two, and never below c when c ≤ 0.99 |
| MessageApi.RefinedResponse | src/api/__mocks__/messageApi.ts:150 | the text is exactly the old response, then " [Refined based on: ", then the guidance, then "]"; each piece can be read back from it |
| MessageApi.Regenerated | src/api/__mocks__/messageApi.ts:136-158 | one history entry holds the previous response, confidence and updatedAt; the old history is a prefix; the new response is `RefinedResponse` of the old response and the guidance; the new confidence is `BumpedConfidence` of the old; every other field is kept |
| MessageApi.RegeneratedAllHistory | src/api/__mocks__/messageApi.ts:139-157 | after N regenerations there are N new history entries, oldest first, and entry k holds the state before the k-th regeneration |
| MessageApi.RegeneratedAllMonotone | src/api/__mocks__/messageApi.ts:149-150 | across any number of regenerations, confidence never drops and never passes 0.99, and the original response stays a prefix |
| MessageApi.StatusUpdateMovesMessage | src/api/__mocks__/messageApi.ts:109-122 | with unique ids, a status update puts the stamped message in its new status's list and leaves no entry with its id in any other status's list |
| MessageApi.MessageStore.constructor | src/api/__mocks__/messageApi.ts:5-74 | the store starts with the five fixture messages |
| MessageApi.InitialIdsUnique | src/api/__mocks__/messageApi.ts:5-74 | the five seed messages have distinct ids |
| MessageApi.InitialMessagesFirstPending | src/api/__mocks__/messageApi.ts:5-17 | the seed message "1" comes first, is pending and belongs to auditor-1 |
| MessageApi.MessageStore.GetMessages | src/api/__mocks__/messageApi.ts:77-88 | returns `MessagesFor` of the store; the store is unchanged |
| MessageApi.MessageStore.GetMessage | src/api/__mocks__/messageApi.ts:91-102 | the first stored message with the id; NotFound exactly when there is none |
| MessageApi.MessageStore.UpdateMessageStatus | src/api/__mocks__/messageApi.ts:105-123 | an unknown id is NotFound and the store is untouched; otherwise only that entry's status and updatedAt change |
| MessageApi.MessageStore.RegenerateResponse | src/api/__mocks__/messageApi.ts:126-162 | an unknown id is NotFound and the store is untouched; otherwise that entry becomes `Regenerated` and the others are kept |
| MessageApi.MessageStore.ResetMockData | src/api/__mocks__/messageApi.ts:165-236 | the store holds the fixtures again |
| KnowledgeApi.ItemsOf | src/api/__mocks__/knowledgeApi.ts:47 | exactly the auditor's items, in store order, each as often as in the store |
| KnowledgeApi.WithoutId | src/api/__mocks__/knowledgeApi.ts:72 | every item with the id is gone; the rest keep their order and their number of copies |
| KnowledgeApi.WithoutAbsentId | src/api/__mocks__/knowledgeApi.ts:72 | deleting an absent id is a silent no-op |
| KnowledgeApi.WithoutIdIdempotent | src/api/__mocks__/knowledgeApi.ts:72 | deleting twice is deleting once |
| KnowledgeApi.ItemsOfAppend | src/api/__mocks__/knowledgeApi.ts:47 | the items of a concatenated store are the items of each part, concatenated |
| KnowledgeApi.ItemsOfAllMine | src/api/__mocks__/knowledgeApi.ts:47 | a store holding only the auditor's items is returned whole |
| KnowledgeApi.ItemsOfNoneMine | src/api/__mocks__/knowledgeApi.ts:47 | a store holding none of the auditor's items gives the empty list |
| KnowledgeApi.SplitByAuditor | src/api/__mocks__/knowledgeApi.ts:47 | a store made of one auditor's items followed by another's splits back into the two parts |
| KnowledgeApi.IndexOf | src/api/__mocks__/knowledgeApi.ts:80 | the first position holding the id, or none exactly when no item has it |
| KnowledgeApi.Updated | src/api/__mocks__/knowledgeApi.ts:86-90 | supplied fields override the item's and updatedAt is forced to now |
| KnowledgeApi.ContentEditOnly | src/api/__mocks__/knowledgeApi.ts:86-90 | a content-and-time patch changes only the content and updatedAt, and the client's time is overridden by the store's |
| KnowledgeApi.InitialItemsByAuditor | src/api/__mocks__/knowledgeApi.ts:97-134 | the fixtures are three items of auditor-1 followed by one of auditor-2 |
| KnowledgeApi.KnowledgeStore.constructor | src/api/__mocks__/knowledgeApi.ts:5-40 | the store starts with the four fixture items |
| KnowledgeApi.KnowledgeStore.GetKnowledgeItems | src/api/__mocks__/knowledgeApi.ts:43-48 | returns `ItemsOf` of the store |
| KnowledgeApi.KnowledgeStore.AddKnowledgeItem | src/api/__mocks__/knowledgeApi.ts:51-65 | appends one item with the fresh id and createdAt = updatedAt = now; the other fields come from the input |
| KnowledgeApi.KnowledgeStore.DeleteKnowledgeItem | src/api/__mocks__/knowledgeApi.ts:68-73 | the store becomes `WithoutId` of itself |
| KnowledgeApi.KnowledgeStore.UpdateKnowledgeItem | src/api/__mocks__/knowledgeApi.ts:76-94 | an unknown id is NotFound and nothing changes; otherwise only the first matching entry becomes `Updated` |
| KnowledgeApi.KnowledgeStore.ResetMockData | src/api/__mocks__/knowledgeApi.ts:97-134 | the store holds the four fixtures again |
| MessageQueue.TabStatus | src/components/messages/MessageQueue.tsx:56 | tabs 0..3 are PENDING, LATER, APPROVED, REJECTED; any later tab is undefined |
| MessageQueue.TabOf | src/components/messages/MessageQueue.tsx:56 | every status has a tab, and TabStatus maps that tab back to it |
| MessageQueue.TabStatusInjective | src/components/messages/MessageQueue.tsx:56 | no two tabs list the same status |
| MessageQueue.RemoveById | src/components/messages/MessageQueue.tsx:119 | every entry with the id is removed; the rest keep their order and their number of copies |
| MessageQueue.ReplaceById | src/components/messages/MessageQueue.tsx:123 | same length and order; exactly the entries with the id are replaced |
| MessageQueue.RemoveAbsent | src/components/messages/MessageQueue.tsx:119 | removing an absent id leaves the list as it was |
| MessageQueue.RemoveIdempotent | src/components/messages/MessageQueue.tsx:119 | removing twice is removing once |
| MessageQueue.QueueState.constructor | src/components/messages/MessageQueue.tsx:59-65 | first tab, empty list, list loading, nothing selected, no errors |
| MessageQueue.QueueState.BeginFetch | src/components/messages/MessageQueue.tsx:68-74 | loading on, error cleared, and the call is for the auditor and the current tab's status |
| MessageQueue.QueueState.EndFetch | src/components/messages/MessageQueue.tsx:75-81 | success replaces the list; failure sets only the error; loading ends either way |
| MessageQueue.QueueState.HandleTabChange | src/components/messages/MessageQueue.tsx:88-91 | the new tab becomes current and the selection is cleared |
| MessageQueue.QueueState.BeginSelectMessage | src/components/messages/MessageQueue.tsx:94-98 | detail loading on, detail error cleared, `getMessage(id)` called |
| MessageQueue.QueueState.EndSelectMessage | src/components/messages/MessageQueue.tsx:99-105 | success selects the message; failure sets only the detail error; the list is never touched |
| MessageQueue.QueueState.HandleUpdateStatus | src/components/messages/MessageQueue.tsx:109-130 | success selects the returned message and then removes the id (status off this tab) or replaces it in place (status on this tab); failure rethrows and changes nothing |
| MessageQueue.QueueState.HandleRegenerateResponse | src/components/messages/MessageQueue.tsx:133-151 | success replaces in place and selects; failure rethrows and changes nothing |
| MessageList.SearchFilter | src/components/messages/MessageList.tsx:27-38 | a blank query keeps the whole list; otherwise exactly the messages whose lower-cased question or response contains the lower-cased, untrimmed query, in order, each as often as in the list |
| MessageList.Matches | src/components/messages/MessageList.tsx:32-34 | the empty query matches every message; a matching query is no longer than the question or the response |
| MessageList.ListStatusName | src/components/messages/MessageList.tsx:10 | a single status is spelled as its literal; "ALL" names exactly the all-statuses list |
| MessageList.SpacesInQueryMustOccur | src/components/messages/MessageList.tsx:28-35 | because matching does not trim, a space in the query must occur in every shown message's question or response |
| MessageList.EmptyStateText | src/components/messages/MessageList.tsx:75 | "No messages match your search" for any typed query, else "No <status> messages found" |
| MessageList.ListView | src/components/messages/MessageList.tsx:46-109 | loading wins; an empty filtered list shows the empty state; otherwise one card per filtered message |
| MessageList.BlankQueryEmptyState | src/components/messages/MessageList.tsx:28-75 | a query of spaces filters nothing out, but on an empty list it reports a search miss |
| MessageList.ListState.constructor | src/components/messages/MessageList.tsx:23-24 | empty query; shows the given messages |
| MessageList.ListState.HandleSearchChange | src/components/messages/MessageList.tsx:41-43 | only the query changes |
| MessageList.ListState.Refresh | src/components/messages/MessageList.tsx:27-38 | the shown list becomes `SearchFilter` of the messages and the query |
| MessageCard.TruncatedQuestion | src/components/messages/MessageCard.tsx:39-41 | a question over 100 characters becomes its first 100 and "..."; a shorter one is unchanged; never over 103 characters |
| MessageCard.TruncatedQuestionPrefix | src/components/messages/MessageCard.tsx:39-41 | the shown text starts with the question's first min(100, length) characters |
| MessageCard.StatusColor | src/components/messages/MessageCard.tsx:18-48 | a status name in the table gets its colour; any other name gets grey.500 |
| MessageCard.StatusColorsDistinct | src/components/messages/MessageCard.tsx:18-23 | each of the four statuses has its own colour, and none is grey |
| MessageCard.ConfidenceColor | src/components/messages/MessageCard.tsx:73 | success exactly at ≥ 0.9, info exactly in [0.7, 0.9), warning exactly below 0.7 |
| MessageCard.ConfidenceColorMonotone | src/components/messages/MessageCard.tsx:73 | a higher confidence never gets a lower-ranked colour |
| MessageCard.ChipRank | src/components/messages/MessageCard.tsx:73 | the three chip colours are ranked warning 0, info 1, success 2 |
| MessageDetail.DetailView | src/components/messages/MessageDetail.tsx:70-103 | loading beats error, error beats "no message"; the message is shown only after all three |
| MessageDetail.DetailShownOnlyWhenClear | src/components/messages/MessageDetail.tsx:70-105 | the message's controls appear exactly when not loading, no error and a message is present |
| MessageDetail.OwnStatusButtonDisabled | src/components/messages/MessageDetail.tsx:173-191 | the current status's button is always disabled; any other is disabled exactly while updating |
| MessageDetail.StatusButtonDisabled | src/components/messages/MessageDetail.tsx:173-191 | a status button is disabled while updating and for the current status, and enabled otherwise |
| MessageDetail.RegenerateButtonDisabled | src/components/messages/MessageDetail.tsx:164 | Regenerate is disabled exactly while a status update is in flight, and then every status button is disabled too |
| MessageDetail.VersionsFrom | src/components/messages/MessageDetail.tsx:205-208 | one row per history entry, numbered consecutively from the first number, in stored order |
| MessageDetail.HistoryRows | src/components/messages/MessageDetail.tsx:205-208 | history is listed as Version 1..n in stored order |
| MessageDetail.DetailState.constructor | src/components/messages/MessageDetail.tsx:38-40 | form hidden, nothing in flight, no error |
| MessageDetail.DetailState.BeginStatusUpdate | src/components/messages/MessageDetail.tsx:43-49 | no message: no call and no change; otherwise in flight, error cleared, and the call is `(message.id, status)` |
| MessageDetail.DetailState.EndStatusUpdate | src/components/messages/MessageDetail.tsx:50-55 | failure sets "Failed to update status to <STATUS>"; the update ends either way |
| MessageDetail.DetailState.ToggleRefinementInput | src/components/messages/MessageDetail.tsx:163 | the Regenerate button flips the form's visibility |
| MessageDetail.DetailState.CancelRefinement | src/components/messages/MessageDetail.tsx:136 | Cancel hides the form |
| MessageDetail.DetailState.HandleRegenerateSubmitAsWritten | src/components/messages/MessageDetail.tsx:59-67 | success closes the form; failure is swallowed, so the form is never told and stays open |
| MessageDetail.DetailState.HandleRegenerateSubmit | src/components/messages/MessageDetail.tsx:59-67 | corrected: as above, but a failure is passed back to the form |
| RefinementInput.SubmitEnabledIffGuidance | src/components/messages/RefinementInput.tsx:97 | with nothing in flight, Submit is enabled exactly when the guidance has a non-space character |
| RefinementInput.SubmitDisabled | src/components/messages/RefinementInput.tsx:97 | Submit is disabled while submitting; otherwise exactly when the guidance is all white space |
| RefinementInput.CancelDisabled | src/components/messages/RefinementInput.tsx:89 | Cancel is disabled exactly while submitting, and then Submit is disabled too, whatever the guidance |
| RefinementInput.FormState.constructor | src/components/messages/RefinementInput.tsx:24-26 | empty guidance, not submitting, no error |
| RefinementInput.FormState.HandleInputChange | src/components/messages/RefinementInput.tsx:29-32 | the guidance is replaced and any shown error is cleared |
| RefinementInput.FormState.BeginSubmit | src/components/messages/RefinementInput.tsx:35-49 | blank guidance sets "Please provide guidance for regeneration" and calls nothing; otherwise submitting, and one call with the id and the trimmed guidance |
| RefinementInput.FormState.EndSubmit | src/components/messages/RefinementInput.tsx:50-57 | success clears the guidance; failure keeps it and sets the failure text; submitting ends either way |
| KnowledgeItemDialog.TextFilesEditable | src/components/knowledge/KnowledgeItemDialog.tsx:68-69 | a file whose name ends in ".txt" in any mix of cases is editable |
| KnowledgeItemDialog.UnnamedFilesReadOnly | src/components/knowledge/KnowledgeItemDialog.tsx:68-69 | a file with no name, or a name under four characters, is read-only |
| KnowledgeItemDialog.Title | src/components/knowledge/KnowledgeItemDialog.tsx:70 | the file name when it is a non-empty string, else "Text Entry" |
| KnowledgeItemDialog.SaveEnabledIffEditable | src/components/knowledge/KnowledgeItemDialog.tsx:120 | Save can be pressed exactly when nothing is saving and the item is editable |
| KnowledgeItemDialog.IsTextFile | src/components/knowledge/KnowledgeItemDialog.tsx:68 | a text file is a file item with a name of at least four characters |
| KnowledgeItemDialog.CanEdit | src/components/knowledge/KnowledgeItemDialog.tsx:69 | every text entry is editable; an editable file item has a name of at least four characters |
| KnowledgeItemDialog.SaveDisabled | src/components/knowledge/KnowledgeItemDialog.tsx:120 | Save is disabled while saving and for unnamed files; for a text entry it is disabled exactly while saving |
| KnowledgeItemDialog.ContentDisabled | src/components/knowledge/KnowledgeItemDialog.tsx:103 | the content field is disabled exactly when the item cannot be edited: never for a text entry, and together with Save while nothing is saving |
| KnowledgeItemDialog.SyncedContent | src/components/knowledge/KnowledgeItemDialog.tsx:34-38 | a new item with string content resets the buffer; anything else leaves it |
| KnowledgeItemDialog.StaleBufferAfterFileItem | src/components/knowledge/KnowledgeItemDialog.tsx:34-38 | after a text item, a File-content item leaves the text item's content in the buffer |
| KnowledgeItemDialog.SavePatch | src/components/knowledge/KnowledgeItemDialog.tsx:51-54 | the patch holds only the buffer as content and the client's time |
| KnowledgeItemDialog.SaveKeepsIdentity | src/components/knowledge/KnowledgeItemDialog.tsx:51-54 | saving keeps id, owner, kind, file name and creation time, and stores the buffer as text content |
| KnowledgeItemDialog.DialogState.constructor | src/components/knowledge/KnowledgeItemDialog.tsx:29-31 | empty buffer, not saving, no error |
| KnowledgeItemDialog.DialogState.SyncFromItem | src/components/knowledge/KnowledgeItemDialog.tsx:34-38 | the buffer becomes `SyncedContent` of the old buffer and the item |
| KnowledgeItemDialog.DialogState.HandleContentChange | src/components/knowledge/KnowledgeItemDialog.tsx:40-42 | the buffer is replaced |
| KnowledgeItemDialog.DialogState.BeginSave | src/components/knowledge/KnowledgeItemDialog.tsx:44-54 | no item: nothing; otherwise saving, error cleared, one call with the item's id and the buffer |
| KnowledgeItemDialog.DialogState.EndSave | src/components/knowledge/KnowledgeItemDialog.tsx:56-63 | success hands on the returned item and closes; failure sets the save error and does neither; saving ends either way |
| KnowledgeBase.Filtered | src/components/knowledge/KnowledgeBase.tsx:154-174 | an order-preserving subsequence holding exactly the items that pass the type filter AND the query, each as often as in the list; "all" with an empty query keeps everything |
| KnowledgeBase.TypeMatches | src/components/knowledge/KnowledgeBase.tsx:157 | "all" lets every item through; a kind lets through exactly the items of that kind |
| KnowledgeBase.QueryMatches | src/components/knowledge/KnowledgeBase.tsx:162-169 | an empty query lets every item through; a non-empty one only items with text content or a non-empty file name |
| KnowledgeBase.Shown | src/components/knowledge/KnowledgeBase.tsx:155-173 | a shown item passes both filters; with "all" and an empty query every item is shown |
| KnowledgeBase.FetchesOnMount | src/components/knowledge/KnowledgeBase.tsx:50-54 | the page fetches on mount exactly when it was given no initial items |
| KnowledgeBase.FiltersCompose | src/components/knowledge/KnowledgeBase.tsx:155-173 | filtering by type and then by query equals filtering by both |
| KnowledgeBase.FileContentFoundByNameOnly | src/components/knowledge/KnowledgeBase.tsx:162-170 | a File-content item is found by a non-empty query only through its file name |
| KnowledgeBase.ReplaceItem | src/components/knowledge/KnowledgeBase.tsx:146-150 | same length and order; exactly the items with the id are replaced |
| KnowledgeBase.ReplaceAbsent | src/components/knowledge/KnowledgeBase.tsx:146-150 | replacing an absent id changes nothing |
| KnowledgeBase.UploadedItem | src/components/knowledge/KnowledgeBase.tsx:74-81 | an upload submits auditor-1's file item with the file as content, its name as file name, stamped with now |
| KnowledgeBase.TextItem | src/components/knowledge/KnowledgeBase.tsx:97-103 | a text entry submits auditor-1's text item with no file name, stamped with now |
| KnowledgeBase.AddedItemsEditable | src/components/knowledge/KnowledgeBase.tsx:72-110 | an added text entry is always editable; an uploaded file is editable exactly when its name ends in ".txt" in any case |
| KnowledgeBase.RowNoteOf | src/components/knowledge/KnowledgeBase.tsx:270-274 | a file row notes whether it is editable; a text row previews its content cut at 100 characters |
| KnowledgeBase.ListView | src/components/knowledge/KnowledgeBase.tsx:230-285 | loading beats error, error beats the empty text; otherwise one row per item, titled by file name or "Text Entry", clickable exactly when editable |
| KnowledgeBase.FileRowNoteAgreesWithClick | src/components/knowledge/KnowledgeBase.tsx:243-271 | a file row is clickable exactly when it is not marked "(Not editable)" |
| KnowledgeBase.KnowledgeBaseView.constructor | src/components/knowledge/KnowledgeBase.tsx:39-47 | the given items, no filter, not loading, dialog closed |
| KnowledgeBase.KnowledgeBaseView.BeginFetch | src/components/knowledge/KnowledgeBase.tsx:56-62 | loading on, error cleared, the call is for auditor-1 |
| KnowledgeBase.KnowledgeBaseView.EndFetch | src/components/knowledge/KnowledgeBase.tsx:63-69 | success replaces the items; failure sets only the load error; loading ends either way |
| KnowledgeBase.KnowledgeBaseView.HandleFileUpload | src/components/knowledge/KnowledgeBase.tsx:72-93 | the parent is notified with the new item before the call; success appends the returned item; failure sets only the upload error |
| KnowledgeBase.KnowledgeBaseView.HandleTextSubmit | src/components/knowledge/KnowledgeBase.tsx:95-115 | as for an upload, with the text item and the text error |
| KnowledgeBase.KnowledgeBaseView.HandleFilterChange | src/components/knowledge/KnowledgeBase.tsx:117-122 | only the type filter changes |
| KnowledgeBase.KnowledgeBaseView.HandleSearchChange | src/components/knowledge/KnowledgeBase.tsx:124-129 | only the query changes |
| KnowledgeBase.KnowledgeBaseView.HandleItemClick | src/components/knowledge/KnowledgeBase.tsx:131-138 | an editable item is selected and the dialog opens; any other click changes nothing; the dialog is open exactly when an item is selected, and only editable items are selected |
| KnowledgeBase.KnowledgeBaseView.HandleDialogClose | src/components/knowledge/KnowledgeBase.tsx:140-143 | dialog closed and selection cleared |
| KnowledgeBase.KnowledgeBaseView.HandleItemUpdate | src/components/knowledge/KnowledgeBase.tsx:145-151 | the items become `ReplaceItem` of themselves and the saved item |
| KnowledgeBase.KnowledgeBaseView.FilteredItems | src/components/knowledge/KnowledgeBase.tsx:154-174 | what the page lists is a subsequence of its items |
| FileUploader.Extension | src/components/knowledge/FileUploader.tsx:38 | a dot followed by dot-free text |
| FileUploader.DottedExtension | src/components/knowledge/FileUploader.tsx:38 | for `base.tail`, the extension is "." and the lower-cased tail |
| FileUploader.UndottedExtension | src/components/knowledge/FileUploader.tsx:38 | a name without a dot yields "." and the whole lower-cased name |
| FileUploader.DefaultAcceptsTextFiles | src/components/knowledge/FileUploader.tsx:11-39 | for a dotted name, the default check accepts exactly the names ending in ".txt" in any case, the same test as the edit gate |
| FileUploader.UndottedNameAccepted | src/components/knowledge/FileUploader.tsx:11-39 | a file named "TXT" passes the default check although it does not end in ".txt" |
| FileUploader.TypesText | src/components/knowledge/FileUploader.tsx:40 | the named types hold no dot |
| FileUploader.DefaultTypesText | src/components/knowledge/FileUploader.tsx:11-40 | the default types are named "TXT" |
| FileUploader.TwoTypesText | src/components/knowledge/FileUploader.tsx:40 | types ".a" and ".b" are named "A OR B" |
| FileUploader.DefaultErrorText | src/components/knowledge/FileUploader.tsx:41 | with the default types the error asks for a TXT file |
| FileUploader.ValidationError | src/components/knowledge/FileUploader.tsx:37-46 | no error exactly when the extension is accepted; otherwise the unsupported-type text |
| FileUploader.Accepts | src/components/knowledge/FileUploader.tsx:39 | an empty list of types accepts no file |
| FileUploader.UnsupportedTypeError | src/components/knowledge/FileUploader.tsx:40-41 | the message is the fixed lead, then the accepted types' text, then " file.", so the types can be read back from it |
| FileUploader.Uploader.constructor | src/components/knowledge/FileUploader.tsx:9-14 | the given types, or [".txt"] when none are given; no highlight, no error |
| FileUploader.Uploader.DragEnter | src/components/knowledge/FileUploader.tsx:17-21 | the highlight goes on |
| FileUploader.Uploader.DragLeave | src/components/knowledge/FileUploader.tsx:23-27 | the highlight goes off |
| FileUploader.Uploader.DragOver | src/components/knowledge/FileUploader.tsx:29-35 | the highlight is on afterwards |
| FileUploader.Uploader.ValidateFile | src/components/knowledge/FileUploader.tsx:37-46 | accepts exactly the listed extensions, and the error becomes `ValidationError` |
| FileUploader.Uploader.HandleDrop | src/components/knowledge/FileUploader.tsx:48-59 | the highlight goes off; only the first file is validated and handed on when accepted; an empty drop changes no error |
| FileUploader.Uploader.HandleFileInput | src/components/knowledge/FileUploader.tsx:61-68 | as a drop, without touching the highlight |
| TextEntry.SubmitEnabledIffNonBlank | src/components/knowledge/TextEntry.tsx:113 | Submit is enabled exactly when the text has a non-space character |
| TextEntry.SubmitDisabled | src/components/knowledge/TextEntry.tsx:113 | Submit is disabled exactly when the text is all white space |
| TextEntry.ApplyFormatting | src/components/knowledge/TextEntry.tsx:45-56 | bold, italic and underlined give their one style; any other toggle gives none |
| TextEntry.TextStyles | src/components/knowledge/TextEntry.tsx:59-61 | a style property is present exactly when its toggle is on, always with that toggle's value, and no other property appears |
| TextEntry.StylesDependOnlyOnToggles | src/components/knowledge/TextEntry.tsx:59-61 | the order and repetition of the toggles do not matter |
| TextEntry.ListTogglesAddNoStyle | src/components/knowledge/TextEntry.tsx:53-61 | the list toggles add no style |
| TextEntry.TextEntryForm.constructor | src/components/knowledge/TextEntry.tsx:22-23 | empty text, no toggles |
| TextEntry.TextEntryForm.HandleTextChange | src/components/knowledge/TextEntry.tsx:25-27 | the text is replaced |
| TextEntry.TextEntryForm.HandleFormatChange | src/components/knowledge/TextEntry.tsx:29-34 | the toggle list is replaced |
| TextEntry.TextEntryForm.HandleSubmit | src/components/knowledge/TextEntry.tsx:36-42 | a non-blank text is handed on untrimmed, and text and toggles are cleared; a blank text calls nothing and changes nothing |
| TextEntry.TextEntryForm.Styles | src/components/knowledge/TextEntry.tsx:59-61 | the text box's styles use only the three style properties |
| ReviewFlows.ApproveFirstMessage | src/components/messages/MessageQueue.tsx:109-124 | approving message 1 of the fresh store puts it in auditor-1's approved list, stamped, and out of the pending list |
| ReviewFlows.FailedRegenerationAsWritten | src/components/messages/MessageDetail.tsx:59-67 | as written, a rejected regeneration clears the guidance, shows no error, and leaves the form open |
| ReviewFlows.FailedRegeneration | src/components/messages/RefinementInput.tsx:52-53 | corrected, a rejected regeneration keeps the guidance, shows the failure text, and leaves the form open |
| ReviewFlows.SuccessfulRegeneration | src/api/__mocks__/messageApi.ts:136-161 | an accepted regeneration adds one history entry holding the previous state and keeps the old response as a prefix; the form is cleared and closed |

## Left out

- Simulated latency and the interleaving of concurrent handlers are not modelled. Each API call is atomic, and its outcome is a parameter of the method that consumes it.
- uuid generation and `new Date().toISOString()` are not modelled. Fresh ids and times are parameters, and timestamps are opaque strings.
- KnowledgeApi.KnowledgeStore.UpdateKnowledgeItem: the store's `new Date()` and the client's earlier `new Date()` are one `now` parameter.
- `toLowerCase`/`toUpperCase` change only ASCII letters. Unicode case mapping is not modelled.
- String lengths count `char`s, not UTF-16 code units, for truncation at 100 characters.
- Confidence is a `real`. IEEE-754 rounding and the `Math.round(confidence * 100)` percentage text are not modelled.
- dayjs and `toLocaleDateString` date formatting are library code and are not part of this model.
- MUI rendering, layout and styling are not modelled beyond the colour tables and which screen or row is shown.
- The regenerate button's label is not modelled.
- The browser `File` object is opaque apart from its name.
- MessageCard's `onClick(id)` (src/components/messages/MessageCard.tsx:53) only passes the id through. It has no member.
- The thrown error messages of the stores are not modelled as text. A missing id is `NotFound(id)`.
- KnowledgeTypes.Merge: a patch field set explicitly to `undefined` would overwrite with `undefined` in JavaScript. The model's absent fields keep the item's value.
- KnowledgeTypes.Merge: its contract covers the empty patch only, and `MergeIdempotent` covers a repeated patch. Which field wins for a non-empty patch is not stated in its contract.
- FileUploader.Accepts: its contract states only that an empty list accepts nothing. Which names pass is stated by `ValidationError`, `UndottedExtension` and `DefaultAcceptsTextFiles`.
- KnowledgeItemDialog.IsTextFile and KnowledgeItemDialog.CanEdit: their contracts give the kind and a length bound on the name. The case-insensitive ".txt" suffix is stated by `TextFilesEditable` and `DefaultAcceptsTextFiles`.
- MessageList.Matches and KnowledgeBase.QueryMatches: their contracts give the empty query and a necessary condition for a match. Which items match is stated by `SearchFilter` and `Filtered`.
- KnowledgeApi.Updated: the contract names only the content, id and updatedAt fields. The other fields follow `KnowledgeTypes.Merge`.
- FileUploader.Uploader.HandleDrop: a `null` file list is treated as an empty one.
- FileUploader.TypesText: the exact error text is proved for the default types and for any two types. It is not proved for every list.
- src/api/apiClient.ts, the pages, the dashboard widgets and App.tsx are not part of this model. They are I/O, routing and fixed presentational data.
- KnowledgeBase.KnowledgeBaseView.HandleFileUpload and HandleTextSubmit: the `onAddKnowledgeItem` callback is the returned `notified` item. The parent's handling of it is not part of this model.

## Findings

| source | as written | input that shows it | evidently intended | confidence | as-written member | corrected member |
|---|---|---|---|---|---|---|
| src/components/messages/MessageDetail.tsx:59-67 | `handleRegenerateSubmit` catches the regeneration error and returns normally. The refinement form's `catch` branch (src/components/messages/RefinementInput.tsx:52-54) never runs, so the form clears the guidance as if the call had succeeded and shows no error. | any non-blank guidance for a regeneration that the API rejects, e.g. an unknown message id | the failure reaches the form, which keeps the guidance and shows "Failed to submit refinement. Please try again." | not executed | MessageDetail.DetailState.HandleRegenerateSubmitAsWritten, ReviewFlows.FailedRegenerationAsWritten | MessageDetail.DetailState.HandleRegenerateSubmit, ReviewFlows.FailedRegeneration |
