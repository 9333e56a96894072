# Virtual desk — a Dafny model

This project models the core of an Expo / React Native "virtual office desk" app.

The desk surface holds three kinds of positioned items:

- sticky notes, with text and an urgency color;
- desk files;
- desk folders.

A quick-access tray and a long-term cabinet hold plain file records. The user drags items around, which raises them to the top. They edit a note's text and color, rename files, create files and folders from a dialog, import files from the device, and open files in a viewer.

Access is gated by a phone-number sign-in. In the app's development mode, a six-digit one-time code is kept in the device's key-value store for five minutes.

The model covers the following, one module per source file, plus two support modules:

- **Desk** (`components/DeskScene.tsx`): the desk store.
  - Its collections transform through per-id update with a moved-means-raised z-index, delete by id, append, and prepend.
  - The render list is the stable z-sort of all items.
  - The class `DeskScene` holds the store's state and its setters.
- **ZOrder**: the z-index counter. It gives both the as-written `getNextZIndex`, which has the stale-capture defect described under Findings, and the corrected counter that `Desk` uses.
- **Draggable** (`components/DraggableItem.tsx`): the pan controller.
  - Each live sample is clamped to bounds, defaulted per side.
  - Exactly one position commit happens per gesture.
  - The item is lifted by 1000 z-levels while dragged.
- **StickyNote** and **DeskFile** (`components/StickyNote.tsx`, `components/DeskFile.tsx`): the item components.
  - Each has editing and dragging flags, edit buffers, and the messages it sends to the store.
  - The tap-after-drag suppression is included.
  - A file's icon is chosen from its extension.
- **DragDrop** (`components/DragDropManager.tsx`): which file is being dragged, and the drop dispatch.
- **Storage** (`lib/storage.ts`): the per-user layout store over the key-value backend.
- **Auth** (`lib/auth.ts`): the development-mode auth service.
  - Code keys derived from the sanitised number.
  - Code sending, and the code check with its missing / expired / mismatch / accepted outcomes.
  - Get-or-create of the user, and the upsert of the `users` list.
  - The signed-in user, the listener list, and sign-out.
- **AuthScreen** (`components/AuthScreen.tsx`): the sign-in screen.
  - The `(XXX) XXX-XXXX` formatter.
  - The phone and code checks.
  - The two-step flow, with its requests to the auth service.
- **FileImport** (`components/FileImportButton.tsx`): the MIME-type-and-extension classifier, and the imported file record.
- **AddItem** (`components/AddItemModal.tsx`): the add-item dialog, with its table of file types.
- **FileViewer** (`components/FileViewer.tsx`): the viewer.
  - The loading effect keyed by visibility and file name.
  - The classification by extension.
  - The precedence in the render: loading, then error, then image, PDF, text, fallback.
- **Text** and **Wrappers**: the JavaScript string operations the components use, and `Option`.

Components that change state step by step are classes. Each method's postcondition ties the new state to a pure transition function of the old state, and the properties are lemmas about those functions. Pure computations are functions with contracts.

The clock, `Math.random()`, the screen size and backend failures are parameters. Asynchronous answers arrive as separate events:

- `CompletePhoneSubmit`, `CompleteCodeSubmit` and `CompleteResendCode` on the screen;
- `TimerFired` for the 100 ms drag-reset timers.

## Model

| member | source | states |
|---|---|---|
| ZOrder.AsWrittenValues | components/DeskScene.tsx:95-98 | every call of the as-written `getNextZIndex` within one render returns the captured counter plus one |
| ZOrder.AsWrittenCounterAfter | components/DeskScene.tsx:96 | after two or more such calls the counter has moved past the value they all returned |
| ZOrder.AsWrittenRepeats | components/DeskScene.tsx:93-98 | from the initial counter 10, two bumps before a re-render both hand out 11 while the counter reaches 12 |
| ZOrder.Allocations | components/DeskScene.tsx:95-98 | the corrected counter hands out start+1, start+2, … for consecutive calls |
| ZOrder.AllocationsStrictlyIncrease | components/DeskScene.tsx:95-98 | corrected allocations strictly increase and are all above the starting counter, so no two items share a fresh z-index |
| ZOrder.AllocationsCompose | components/DeskScene.tsx:95-98 | two runs of allocations are the same as one run of their combined length |
| Desk.HasId | components/DeskScene.tsx:101 | true exactly when some entry carries the id |
| Desk.Merge | components/DeskScene.tsx:102 | `{ ...note, ...updates, zIndex }`; through UpdateByIdAt: the entry keeps its id, takes the patch's position and body fields over its own, and takes the new z-index exactly when the patch carries x or y |
| Desk.UpdateById | components/DeskScene.tsx:100-104 | the per-id update keeps the list's length |
| Desk.UpdateByIdAt | components/DeskScene.tsx:100-104 | entries with another id are untouched; the matching entry keeps its id, takes the patch's position and body fields, and takes the new z-index exactly when the patch carries x or y |
| Desk.UpdateByIdUnknown | components/DeskScene.tsx:122-126 | an update naming no entry leaves the list identical |
| Desk.UpdateWithoutMoveKeepsZ | components/DeskScene.tsx:132-136 | a patch without x and y (text, color, name) keeps every entry's z-index and position |
| Desk.UpdateByIdKeepsInvariants | components/DeskScene.tsx:100-104 | an update keeps ids unique and every z-index at most the new z-index |
| Desk.UpdateByIdKeepsCounterBound | components/DeskScene.tsx:100-104 | with the next counter value, the z-index bound rises by one exactly when a present entry is moved |
| Desk.RemoveById | components/DeskScene.tsx:106-108 | the filter keeps only entries of the list whose id differs, and never grows the list |
| Desk.RemoveByIdUnknown | components/DeskScene.tsx:128-130 | deleting an absent id changes nothing |
| Desk.RemoveByIdSplice | components/DeskScene.tsx:138-140 | with unique ids, deleting the id at position i removes exactly that entry and keeps the others in order |
| Desk.RemoveByIdKeepsInvariants | components/DeskScene.tsx:106-108 | deletion keeps ids unique and the z-index bound |
| Desk.ScaledBelow | components/DeskScene.tsx:115 | a draw in [0, 1) scaled to a positive span lies in [0, span) |
| Desk.NewStickyNote | components/DeskScene.tsx:110-118 | the note `addStickyNote` builds; NewStickyNoteInBox states its text, color, box and z-index |
| Desk.NewDeskFile | components/DeskScene.tsx:142-152 | the file `addNewFile` builds; NewFileAndFolderInBox states its size, date, box and z-index |
| Desk.NewDeskFolder | components/DeskScene.tsx:156-164 | the folder `addNewFolder` builds; NewFileAndFolderInBox states that it is empty and where it lands |
| Desk.NewStickyNoteInBox | components/DeskScene.tsx:110-118 | a new note is "New note", normal color, with x in [0, W − 100), y in [100, H − 100) and the given z-index |
| Desk.NewFileAndFolderInBox | components/DeskScene.tsx:142-164 | a new file (size "0 KB", date "Just now") and a new empty folder land in x in [60, W − 60), y in [150, H − 150) |
| Desk.AppendKeepsInvariants | components/DeskScene.tsx:119 | appending an entry with a new id and an in-bound z-index keeps both invariants |
| Desk.StickyItems | components/DeskScene.tsx:182 | each note becomes one sticky render item, in order |
| Desk.FileItems | components/DeskScene.tsx:183 | each desk file becomes one file render item carrying exactly the stored record, in order: the corrected reading of line 183 (see Findings) |
| Desk.AsWrittenFileItems | components/DeskScene.tsx:183 | as written, `{ ...file, type: 'file' }` gives every rendered file the type "file", keeping all its other fields and its z-index |
| Desk.AsWrittenSeedFileShowsFile | components/DeskScene.tsx:57 | the seeded `Contract.pdf`, a "PDF Document" in the store, reaches its component as type "file" as written, and with its own type in the corrected render list |
| Desk.FolderItems | components/DeskScene.tsx:184 | each folder becomes one folder render item, in order |
| Desk.InsertByZ | components/DeskScene.tsx:185 | inserting into a z-sorted list keeps it sorted and adds exactly the one item |
| Desk.SortByZ | components/DeskScene.tsx:185 | the sort result is ordered by z-index and is a permutation of its input |
| Desk.InsertByZWithZ | components/DeskScene.tsx:185 | insertion puts the item after all items of equal z-index |
| Desk.SortByZStable | components/DeskScene.tsx:185 | the sort is stable: for every z-index, the items carrying it keep their input order |
| Desk.AllItemsTieOrder | components/DeskScene.tsx:181-185 | among items of equal z-index, sticky notes render before files, and files before folders, each in list order |
| Desk.SortedEndsWithTop | components/DeskScene.tsx:185 | an item whose z-index is above all others is painted last |
| Desk.AllItems | components/DeskScene.tsx:181-185 | the render list; SortByZ, SortByZStable and AllItemsTieOrder state it is the z-ordered, stable permutation of notes, then files, then folders |
| Desk.MovedStickyIsPaintedLast | components/DeskScene.tsx:100-104 | moving a present note with the next counter value brings it to the end of the render list (on top) |
| Desk.SeedsBelowCounter | components/DeskScene.tsx:50-93 | the seeded items have ids unique per collection and z-indexes from 1 up to below the initial counter 10 |
| Desk.SeedStickyNotes | components/DeskScene.tsx:50-54 | the three initial notes; SeedsBelowCounter states their ids are unique and their z-indexes 1-3 lie below the counter |
| Desk.SeedDeskFiles | components/DeskScene.tsx:56-59 | the two initial desk files, with z-indexes 4 and 5 (SeedsBelowCounter) |
| Desk.SeedDeskFolders | components/DeskScene.tsx:61-73 | the initial folder `Project Alpha` with its two files, at z-index 6 (SeedsBelowCounter) |
| Desk.SeedQuickAccessFiles | components/DeskScene.tsx:75-79 | the three initial quick-access files, the starting value set by the constructor |
| Desk.SeedLongTermFiles | components/DeskScene.tsx:81-87 | the five initial cabinet files, the starting value set by the constructor |
| Desk.DeskScene.constructor | components/DeskScene.tsx:50-93 | the scene starts with the seed collections and counter 10, and its invariants hold |
| Desk.DeskScene.GetNextZIndex | components/DeskScene.tsx:95-98 | returns the counter plus one and advances the counter to it, as one corrected allocation |
| Desk.DeskScene.UpdateStickyNote | components/DeskScene.tsx:100-104 | the notes become the per-id update with the next z-index; the counter advances exactly when a present note moves; invariants kept |
| Desk.DeskScene.DeleteStickyNote | components/DeskScene.tsx:106-108 | the notes become the filtered list; invariants kept |
| Desk.DeskScene.AddStickyNote | components/DeskScene.tsx:110-120 | the new note is appended with a freshly allocated z-index; invariants kept |
| Desk.DeskScene.UpdateDeskFile | components/DeskScene.tsx:122-126 | the file counterpart of the note update |
| Desk.DeskScene.DeleteDeskFile | components/DeskScene.tsx:128-130 | the files become the filtered list |
| Desk.DeskScene.UpdateDeskFolder | components/DeskScene.tsx:132-136 | the folder counterpart of the note update |
| Desk.DeskScene.DeleteDeskFolder | components/DeskScene.tsx:138-140 | the folders become the filtered list |
| Desk.DeskScene.AddNewFile | components/DeskScene.tsx:142-154 | the new file is appended with a freshly allocated z-index |
| Desk.DeskScene.AddNewFolder | components/DeskScene.tsx:156-166 | the new empty folder is appended with a freshly allocated z-index |
| Desk.DeskScene.HandleQuickAccessFileImported | components/DeskScene.tsx:172-174 | the imported file is prepended to the quick-access list |
| Desk.DeskScene.HandleLongTermFileImported | components/DeskScene.tsx:176-178 | the imported file is prepended to the long-term list |
| Draggable.Clamp | components/DraggableItem.tsx:77-84 | with lo ≤ hi the result lies in [lo, hi], equals v inside and the nearer bound outside; with lo > hi the lower bound wins |
| Draggable.ClampIdempotent | components/DraggableItem.tsx:77-84 | clamping twice is clamping once |
| Draggable.SampleX | components/DraggableItem.tsx:77-80 | the live x: prop x plus the translation, clamped to the defaulted minX 0 and maxX W − 100; UpdateForgetsHistory and UpdateStaysInBounds state it |
| Draggable.SampleY | components/DraggableItem.tsx:81-84 | the live y: prop y plus the translation, clamped to the defaulted minY 50 and maxY H − 150; UpdateForgetsHistory and UpdateStaysInBounds state it |
| Draggable.Step | components/DraggableItem.tsx:61-114 | a disabled gesture changes nothing; start marks the drag and calls `onDragStart` if given; an update moves only the translation; end clears the drag, commits the current translation, then calls `onDragEnd` if given |
| Draggable.UpdateForgetsHistory | components/DraggableItem.tsx:72-88 | a sample depends only on the props and the cumulative translation, not on earlier samples |
| Draggable.UpdateStaysInBounds | components/DraggableItem.tsx:77-87 | with consistent bounds the live position stays within the defaulted bounds (0, W − 100, 50, H − 150) |
| Draggable.RunUpdates | components/DraggableItem.tsx:72-88 | a run of samples calls nothing, keeps the drag flag, and leaves the last sample's clamped position |
| Draggable.RunConcat | components/DraggableItem.tsx:61-114 | running two event sequences in turn is running their concatenation |
| Draggable.Run | components/DraggableItem.tsx:61-114 | the callbacks of one gesture applied in order; RunConcat, RunUpdates and GestureCommitsOnce state what it does |
| Draggable.GestureCommitsOnce | components/DraggableItem.tsx:63-114 | every gesture, with or without samples, ends idle and adds the optional `onDragStart`, exactly one position commit, and the optional `onDragEnd`, in that order; the commit carries the last clamped sample, or the untouched translation when no sample arrived |
| Draggable.DisabledRunsNothing | components/DraggableItem.tsx:62 | a disabled item ignores every gesture |
| Draggable.ElevationValues | components/DraggableItem.tsx:116-121 | the painted z-index is the item's own when idle and 1000 higher while dragged |
| Draggable.Interpolate | components/DraggableItem.tsx:116-121 | `interpolate` on its input range [0, 1]; ElevationValues states its two end values |
| Draggable.Elevation | components/DraggableItem.tsx:116-121 | the animated z-index; ElevationValues states it is the item's z-index idle and z-index + 1000 while dragged |
| Draggable.TornPageClamp | components/TornPage.tsx:33 | with the torn page's bounds, samples past the edges stop at 300/570 and 0/50 |
| Draggable.DraggableItem.constructor | components/DraggableItem.tsx:43-47 | the translation starts at the prop position, idle, with no calls |
| Draggable.DraggableItem.Rerender | components/DraggableItem.tsx:50-59 | new props are taken; the translation follows the position only when x or y changed |
| Draggable.DraggableItem.OnStart | components/DraggableItem.tsx:63-71 | performs the start transition |
| Draggable.DraggableItem.OnUpdate | components/DraggableItem.tsx:72-88 | performs the sample transition |
| Draggable.DraggableItem.OnEnd | components/DraggableItem.tsx:89-114 | performs the release transition |
| StickyNote.PatchesAndZOrder | components/StickyNote.tsx:34-42 | a commit's patch moves the note (so the store raises it), a save's patch does not |
| StickyNote.SaveUpdatesOnlyTheBody | components/StickyNote.tsx:38-42 | saving replaces exactly the note's text and color in the store |
| StickyNote.PositionChangeMovesAndRaises | components/StickyNote.tsx:34-36 | a commit moves exactly that note and gives it the supplied z-index |
| StickyNote.TapOpensIffIdle | components/StickyNote.tsx:44-49 | a tap opens the editor exactly when no drag is in progress, and sends nothing |
| StickyNote.TapAtReleaseIsSuppressed | components/StickyNote.tsx:51-60 | a tap right after a drag is ignored until the 100 ms reset has fired, and opens the editor after it |
| StickyNote.SelectColorTouchesOnlyTheBuffer | components/StickyNote.tsx:68-71 | choosing a color changes only the edit color and closes the dropdown |
| StickyNote.CloseSendsNothing | components/StickyNote.tsx:108-113 | closing the editor sends nothing and keeps the buffers |
| StickyNote.MessagesNameTheNote | components/StickyNote.tsx:34-42 | every message the component ever sends names its own note |
| StickyNote.PositionPatch | components/StickyNote.tsx:34-36 | `{ x, y }`; PatchesAndZOrder and PositionChangeMovesAndRaises state that it moves and raises the note |
| StickyNote.SavePatch | components/StickyNote.tsx:38-42 | `{ text, color }`; SaveUpdatesOnlyTheBody states that it changes only the note's text and color |
| StickyNote.Initial | components/StickyNote.tsx:28-32 | the mount state; CloseSendsNothing and TapOpensIffIdle start from it |
| StickyNote.Step | components/StickyNote.tsx:34-125 | one handler of the note; TapOpensIffIdle, TapAtReleaseIsSuppressed, SelectColorTouchesOnlyTheBuffer and CloseSendsNothing state it |
| StickyNote.Run | components/StickyNote.tsx:34-125 | a sequence of handlers; MessagesNameTheNote states that every message it sends names the note |
| StickyNote.StickyNoteView.constructor | components/StickyNote.tsx:28-32 | buffers start from the note, nothing open, nothing sent |
| StickyNote.StickyNoteView.HandlePositionChange | components/StickyNote.tsx:34-36 | performs the commit transition |
| StickyNote.StickyNoteView.HandleSave | components/StickyNote.tsx:38-42 | performs the save transition |
| StickyNote.StickyNoteView.HandleTap | components/StickyNote.tsx:74-79 | performs the tap transition |
| StickyNote.StickyNoteView.HandleDragStart | components/StickyNote.tsx:51-53 | performs the drag-start transition |
| StickyNote.StickyNoteView.HandleDragEnd | components/StickyNote.tsx:55-60 | schedules one reset |
| StickyNote.StickyNoteView.HandleTimerFired | components/StickyNote.tsx:57-59 | a pending reset clears the drag flag |
| StickyNote.StickyNoteView.HandleColorSelect | components/StickyNote.tsx:68-71 | performs the color-select transition |
| StickyNote.StickyNoteView.ToggleColorDropdown | components/StickyNote.tsx:120 | flips the dropdown |
| StickyNote.StickyNoteView.HandleEditText | components/StickyNote.tsx:158 | sets the text buffer |
| StickyNote.StickyNoteView.HandleClose | components/StickyNote.tsx:108-113 | closes the editor |
| StickyNote.StickyNoteView.HandleDelete | components/StickyNote.tsx:125 | sends the delete message for the note |
| DeskFile.IconFor | components/DeskFile.tsx:31-48 | text, image and video icons exactly for their listed extensions |
| DeskFile.FileIconOfDotted | components/DeskFile.tsx:29-30 | only the lower-cased text after the last dot decides the icon |
| DeskFile.FileIcon | components/DeskFile.tsx:29-48 | `getFileIcon`; FileIconOfDotted, UpperCaseExtension, ArchiveIsGeneric and UndottedNameIsItsExtension state which icon each name gets |
| DeskFile.UpperCaseExtension | components/DeskFile.tsx:30 | `Report.PDF` shows the text icon |
| DeskFile.ArchiveIsGeneric | components/DeskFile.tsx:46-47 | `Team_Photos.zip` shows the generic icon |
| DeskFile.UndottedNameIsItsExtension | components/DeskFile.tsx:30 | a name without a dot is its own extension: `pdf` shows the text icon |
| DeskFile.SaveRenamesOnly | components/DeskFile.tsx:51-54 | renaming keeps the file's position, z-index, type, size and date |
| DeskFile.PositionChangeMovesAndRaises | components/DeskFile.tsx:25-27 | a commit moves exactly that file and gives it the supplied z-index |
| DeskFile.TapAndSave | components/DeskFile.tsx:51-60 | a tap opens the editor exactly when not dragging; a save closes it and sends the new name |
| DeskFile.PositionPatch | components/DeskFile.tsx:25-27 | `{ x, y }`; PositionChangeMovesAndRaises states that it moves and raises the file |
| DeskFile.SavePatch | components/DeskFile.tsx:51-54 | `{ name }`; SaveRenamesOnly states that it changes only the file's name |
| DeskFile.Initial | components/DeskFile.tsx:21-23 | the mount state, with the edit buffer holding the file's name |
| DeskFile.Step | components/DeskFile.tsx:25-115 | one handler of the file; TapAndSave states its tap and save branches |
| DeskFile.DeskFileView.constructor | components/DeskFile.tsx:21-23 | the name buffer starts from the file, nothing open |
| DeskFile.DeskFileView.HandlePositionChange | components/DeskFile.tsx:25-27 | performs the commit transition |
| DeskFile.DeskFileView.HandleSave | components/DeskFile.tsx:51-54 | performs the save transition |
| DeskFile.DeskFileView.HandleTap | components/DeskFile.tsx:72-77 | performs the tap transition |
| DeskFile.DeskFileView.HandleDragStart | components/DeskFile.tsx:62-64 | performs the drag-start transition |
| DeskFile.DeskFileView.HandleDragEnd | components/DeskFile.tsx:66-70 | schedules one reset |
| DeskFile.DeskFileView.HandleTimerFired | components/DeskFile.tsx:67-69 | a pending reset clears the drag flag |
| DeskFile.DeskFileView.HandleEditName | components/DeskFile.tsx:132 | sets the name buffer |
| DeskFile.DeskFileView.HandleClose | components/DeskFile.tsx:106-111 | closes the editor |
| DeskFile.DeskFileView.HandleDelete | components/DeskFile.tsx:115 | sends the delete message for the file |
| DragDrop.DropDispatchesIff | components/DragDropManager.tsx:33-37 | a drop calls `onFileDrop` with the held file exactly when a file is held and the target is non-empty, then ends the drag |
| DragDrop.DropEndsIdle | components/DragDropManager.tsx:27-37 | every drop leaves the manager idle with no file |
| DragDrop.StartThenDropDeliversTheFile | components/DragDropManager.tsx:21-37 | start then drop on a named target calls start, drop with that file and target, and end, in order |
| DragDrop.DragStart | components/DragDropManager.tsx:21-25 | `handleDragStart`; StartThenDropDeliversTheFile states that a later drop delivers this file |
| DragDrop.DragEnd | components/DragDropManager.tsx:27-31 | `handleDragEnd`; DropEndsIdle states the idle state it leaves |
| DragDrop.Drop | components/DragDropManager.tsx:33-37 | `handleDrop`; DropDispatchesIff and DropEndsIdle state when it dispatches and that it ends idle |
| DragDrop.DragDropManager.constructor | components/DragDropManager.tsx:18-19 | idle, no file |
| DragDrop.DragDropManager.HandleDragStart | components/DragDropManager.tsx:21-25 | performs the start transition |
| DragDrop.DragDropManager.HandleDragEnd | components/DragDropManager.tsx:27-31 | performs the end transition |
| DragDrop.DragDropManager.HandleDrop | components/DragDropManager.tsx:33-37 | performs the drop transition |
| Storage.LayoutKey | lib/storage.ts:70 | the key is `desk_layout_` followed by the user id |
| Storage.LayoutKeyInjective | lib/storage.ts:70 | distinct users never share a key |
| Storage.Stamp | lib/storage.ts:64-68 | the stored record carries the given user id and save time |
| Storage.AfterSave | lib/storage.ts:62-75 | the store after a save; LoadAfterSave, SaveLeavesOthers and LastSaveWins state it |
| Storage.AfterDelete | lib/storage.ts:90-97 | the store after a delete; LoadAfterDelete states it |
| Storage.Lookup | lib/storage.ts:78-87 | what load returns; LoadAfterSave and LoadAfterDelete state it after a save and after a delete |
| Storage.LoadAfterSave | lib/storage.ts:62-87 | load after a successful save returns what was saved, stamped with that user |
| Storage.SaveLeavesOthers | lib/storage.ts:62-71 | saving for one user leaves every other user's layout as it was |
| Storage.LastSaveWins | lib/storage.ts:62-71 | a second save overwrites the first |
| Storage.LoadAfterDelete | lib/storage.ts:78-97 | after a successful delete, load returns null; other users are untouched |
| Storage.SaveAndDeleteKeepKeysMatchingUsers | lib/storage.ts:62-97 | every stored layout stays under its own user's key |
| Storage.StorageService.constructor | lib/storage.ts:52-60 | the service starts over the backend's current entries, which may hold layouts of earlier sessions, each under its own user's key |
| Storage.StorageService.SaveDeskLayout | lib/storage.ts:62-75 | returns true exactly when the backend accepted the write, and the store is the saved store |
| Storage.StorageService.LoadDeskLayout | lib/storage.ts:78-87 | returns the entry, or null when there is none or the backend throws; a returned layout belongs to the user asked for |
| Storage.StorageService.DeleteDeskLayout | lib/storage.ts:90-97 | returns true exactly when the backend accepted the removal |
| Storage.StorageService.GetAllUserLayouts | lib/storage.ts:100-113 | always the empty list |
| Auth.SanitizeChar | lib/auth.ts:45-48 | the result is alphanumeric or `_`; alphanumerics are kept |
| Auth.SanitizePhoneForKey | lib/auth.ts:45-48 | the key has the number's JavaScript `length` and holds only ASCII letters, digits and `_`; in a number without astral characters, each character is kept when ASCII-alphanumeric and becomes `_` otherwise |
| Auth.SanitizeUnits | lib/auth.ts:47 | one character gives one replaced code unit, and an astral character gives two underscores, as the regular expression without the `u` flag does |
| Auth.SanitizeAstral | lib/auth.ts:47 | `+1` followed by an emoji becomes `_1__` |
| Auth.SanitizeIdempotent | lib/auth.ts:45-48 | sanitising twice is sanitising once |
| Auth.VerificationKeysSeparate | lib/auth.ts:202-203 | the code key of a sanitised number starting with `_` (every `+1…`) is never a timestamp key, and each kind of key is distinct for distinct numbers |
| Auth.CodeKey | lib/auth.ts:202 | `verification_code_` plus the sanitised number; VerificationKeysSeparate states it is injective and never a timestamp key |
| Auth.TimestampKey | lib/auth.ts:203 | `verification_code_timestamp_` plus the sanitised number; VerificationKeysSeparate states it is injective |
| Auth.CodeValue | lib/auth.ts:196 | a draw in [0, 1) gives a code between 100000 and 999999 |
| Auth.CodeHasSixDigits | lib/auth.ts:196 | the code's decimal text has six digits |
| Auth.AfterSendStores | lib/auth.ts:196-203 | after a send, the code key holds the code's decimal text and the timestamp key the send time |
| Auth.AfterSend | lib/auth.ts:196-203 | the code store after a send; AfterSendStores and SentCodeWindow state what it holds and when it is accepted |
| Auth.CheckCode | lib/auth.ts:231-261 | the check order missing, expired, mismatch, accepted; SentCodeWindow, WrongCodeKeepsKeys and UnreadableTimestampNeverExpires state it |
| Auth.CodesAfterCheck | lib/auth.ts:246-248 | the two keys removed on expiry and on success only; WrongCodeKeepsKeys states that a mismatch keeps them |
| Auth.CheckMessage | lib/auth.ts:237-285 | the message of each outcome, as returned by VerifyCode |
| Auth.SentCodeWindow | lib/auth.ts:234-265 | the code just sent is accepted up to and including five minutes after the send, and expired after that |
| Auth.WrongCodeKeepsKeys | lib/auth.ts:256-261 | within the window, any other input is a mismatch and both keys stay stored |
| Auth.UnreadableTimestampNeverExpires | lib/auth.ts:245-246 | a stored timestamp that does not parse never expires the code |
| Auth.FindIndexById | lib/auth.ts:325 | the index of the first user with that id, or −1 exactly when there is none |
| Auth.Upsert | lib/auth.ts:325-330 | an existing entry with the same id is replaced in place; otherwise the user is appended |
| Auth.UpsertKeepsIdsUnique | lib/auth.ts:320-336 | the list keeps one entry per id, contains the saved user, and grows by at most one |
| Auth.FindIndexByPhone | lib/auth.ts:301 | the index of the first user with that number, or −1 exactly when there is none |
| Auth.FindByPhone | lib/auth.ts:301 | `users.find(...) \|\| null`: through FindIndexByPhone, the first user with the number, or none exactly when no user has it |
| Auth.SignInUser | lib/auth.ts:268-275 | the signed-in user has the number, and its `lastLoginAt` is the login clock reading |
| Auth.SignInUserIdentity | lib/auth.ts:268-275 | a returning user keeps id and creation date; a new one gets the fresh id and `createUser`'s first clock reading (line 312) as creation date |
| Auth.Deliveries | lib/auth.ts:164-171 | one notification delivers the state to every listener, in subscription order |
| Auth.Without | lib/auth.ts:183-185 | unsubscribing removes every registration of that listener and keeps every other |
| Auth.WithoutKeepsOrder | lib/auth.ts:184 | the filter acts piecewise on concatenations, so the others keep their order |
| Auth.StateOf | lib/auth.ts:165-169 | the announced state: the user, not loading, authenticated exactly when there is a user |
| Auth.AuthService.constructor | lib/auth.ts:146-150 | the service starts over the store's contents, with no user and no listeners |
| Auth.AuthService.NotifyListeners | lib/auth.ts:164-171 | the current state is delivered to every listener in order |
| Auth.AuthService.InitializeAuth | lib/auth.ts:152-162 | a stored user becomes current and is announced; without one nothing changes |
| Auth.AuthService.Subscribe | lib/auth.ts:173-180 | the listener is appended and called once with the current state |
| Auth.AuthService.Unsubscribe | lib/auth.ts:183-185 | the listeners become the filtered list |
| Auth.AuthService.SendVerificationCode | lib/auth.ts:195-211 | the code and the send time are stored under the number's keys, and the demo message is returned |
| Auth.AuthService.GetUserByPhone | lib/auth.ts:295-306 | null without a `users` key, otherwise the first user with that number |
| Auth.AuthService.SaveUser | lib/auth.ts:320-336 | the `users` list becomes the upsert of the user into the stored list (empty when absent) |
| Auth.AuthService.CheckStoredCode | lib/auth.ts:231-261 | the outcome of the checks, in source order, with nothing changed |
| Auth.AuthService.ForgetCode | lib/auth.ts:247-248 | exactly the number's two verification keys are removed |
| Auth.AuthService.VerifyCode | lib/auth.ts:221-285 | success exactly on an accepted code; the message per outcome; keys removed on expiry and success only; on success the user is got or created, saved, made current, stored and announced; on failure nothing else changes |
| Auth.AuthService.SignIn | lib/auth.ts:268-279 | the got-or-created user is upserted, made current, stored under `user` and announced |
| Auth.AuthService.SignOut | lib/auth.ts:338-342 | no current user, the `user` key removed, and the signed-out state announced |
| Auth.AuthService.GetCurrentUser | lib/auth.ts:344-346 | the current user, the same one `Auth.StateOf` puts in the announced state |
| Auth.AuthService.IsAuthenticated | lib/auth.ts:348-350 | authenticated exactly when there is a current user, the flag `Auth.StateOf` announces |
| AuthScreen.FormatPhoneNumber | components/AuthScreen.tsx:25-37 | `formatPhoneNumber`; FormatKeepsLeadingDigits, TenDigitsFitTheField and FormatIdempotent state it |
| AuthScreen.FormatKeepsLeadingDigits | components/AuthScreen.tsx:25-37 | the formatted text carries exactly the first ten (or fewer) digits typed, in order |
| AuthScreen.TenDigitsFitTheField | components/AuthScreen.tsx:31 | ten or more digits format to exactly 14 characters, the field's maximum length |
| AuthScreen.FormatIdempotent | components/AuthScreen.tsx:25-37 | formatting a formatted value changes nothing |
| AuthScreen.CheckPhoneOutcome | components/AuthScreen.tsx:40-55 | a number passes exactly when it is not blank and has ten digits, and is then sent as `+1` plus those digits |
| AuthScreen.CheckPhone | components/AuthScreen.tsx:40-50 | `handlePhoneSubmit`'s checks; CheckPhoneOutcome, BlankPhoneRejected and FormattedNumberPasses state them |
| AuthScreen.CheckCode | components/AuthScreen.tsx:73-81 | `handleCodeSubmit`'s checks; CheckCodeOutcome and AstralCodeRejected state them |
| AuthScreen.CheckCodeOutcome | components/AuthScreen.tsx:73-81 | a code passes exactly when it is not blank and its JavaScript `length` is six, and is sent as typed |
| AuthScreen.AstralCodeRejected | components/AuthScreen.tsx:78-81 | five digits and an emoji (length 7 in UTF-16) are rejected as incomplete |
| AuthScreen.FormattedNumberPasses | components/AuthScreen.tsx:25-55 | a field showing ten or more typed digits always passes with its first ten |
| AuthScreen.BlankPhoneRejected | components/AuthScreen.tsx:40-43 | a blank field gets the blank-field message before the digit count is checked |
| AuthScreen.PhoneSubmitRequestsIffValid | components/AuthScreen.tsx:39-55 | a phone submit requests a code exactly when the number passes, and then for `+1` plus its ten digits; otherwise only the error changes |
| AuthScreen.CodeSubmitRequestsIffValid | components/AuthScreen.tsx:72-87 | a code submit requests verification exactly when the code is not blank and has a JavaScript `length` of six, and the request carries that code |
| AuthScreen.TypedNumberIsSent | components/AuthScreen.tsx:145 | typing ten digits and submitting requests the code for `+1` and those digits |
| AuthScreen.BackKeepsTheNumber | components/AuthScreen.tsx:97-101 | going back clears the code and error and keeps the number |
| AuthScreen.AnswersAndSteps | components/AuthScreen.tsx:57-93 | only a successful send leaves the phone step; failures show their message; loading ends |
| AuthScreen.TransitionsKeepLoadingMatchesWaiting | components/AuthScreen.tsx:52-113 | every transition keeps `isLoading` true exactly while an answer is awaited, so the disabled buttons are exactly those with a request outstanding and no submit can replace a pending one |
| AuthScreen.InitialScreen | components/AuthScreen.tsx:17-21 | the initial screen: the phone step, empty fields, not loading |
| AuthScreen.PhoneSubmit | components/AuthScreen.tsx:39-55 | `handlePhoneSubmit` up to the call, only while not loading (its button is `disabled={isLoading}`, line 157); PhoneSubmitRequestsIffValid and TypedNumberIsSent state it |
| AuthScreen.PhoneAnswer | components/AuthScreen.tsx:57-69 | the rest of `handlePhoneSubmit`; AnswersAndSteps states that only success moves to the code step |
| AuthScreen.CodeSubmit | components/AuthScreen.tsx:72-87 | `handleCodeSubmit` up to the call, only while not loading (line 195); CodeSubmitRequestsIffValid states it |
| AuthScreen.CodeAnswer | components/AuthScreen.tsx:89-93 | the rest of `handleCodeSubmit` and `handleResendCode`; AnswersAndSteps states that only a failure sets the error |
| AuthScreen.BackToPhone | components/AuthScreen.tsx:97-101 | `handleBackToPhone`; BackKeepsTheNumber states it |
| AuthScreen.ResendCode | components/AuthScreen.tsx:103-106 | `handleResendCode` up to the call, only while not loading (line 206): a code request for the typed digits, unchecked, with the error left as it was |
| AuthScreen.AuthScreenView.constructor | components/AuthScreen.tsx:17-21 | phone step, empty fields, not loading |
| AuthScreen.AuthScreenView.ChangePhoneText | components/AuthScreen.tsx:145 | the field holds the formatted text |
| AuthScreen.AuthScreenView.ChangeCodeText | components/AuthScreen.tsx:183 | the code field holds the text |
| AuthScreen.AuthScreenView.HandlePhoneSubmit | components/AuthScreen.tsx:39-55 | callable only while not loading, as the button's `disabled={isLoading}` (line 157) ensures; performs the phone-submit transition |
| AuthScreen.AuthScreenView.RequestCode | components/AuthScreen.tsx:52-55 | starts loading, clears the error and requests the code |
| AuthScreen.AuthScreenView.CompletePhoneSubmit | components/AuthScreen.tsx:57-69 | performs the send-answer transition |
| AuthScreen.AuthScreenView.HandleCodeSubmit | components/AuthScreen.tsx:72-87 | callable only while not loading, as `disabled={isLoading}` (line 195) ensures; performs the code-submit transition |
| AuthScreen.AuthScreenView.RequestVerification | components/AuthScreen.tsx:83-87 | starts loading, clears the error and requests verification |
| AuthScreen.AuthScreenView.CompleteCodeSubmit | components/AuthScreen.tsx:89-93 | performs the verify-answer transition |
| AuthScreen.AuthScreenView.HandleBackToPhone | components/AuthScreen.tsx:97-101 | performs the back transition |
| AuthScreen.AuthScreenView.HandleResendCode | components/AuthScreen.tsx:103-106 | callable only while not loading, as `disabled={isLoading}` (line 206) ensures; requests a code for the typed digits without checking the input |
| AuthScreen.AuthScreenView.CompleteResendCode | components/AuthScreen.tsx:107-113 | performs the resend-answer transition |
| FileImport.GetFileType | components/FileImportButton.tsx:25-36 | the result is one of the seven labels |
| FileImport.FirstMatchAt | components/FileImportButton.tsx:28-33 | the first matching test decides, whatever later tests say |
| FileImport.FirstMatch | components/FileImportButton.tsx:28-35 | the reference reading of the if-chain; FirstMatchAt and NoMatchIsFallback state it is the label of the first matching test, else the fallback |
| FileImport.NoMatchIsFallback | components/FileImportButton.tsx:35 | with no test matching, the result is the fallback |
| FileImport.FileTypeIsEarliestMatch | components/FileImportButton.tsx:25-33 | the label is that of the earliest matching test |
| FileImport.ByExtensionOnly | components/FileImportButton.tsx:26-33 | with an empty MIME type the first test listing the extension decides |
| FileImport.UnmatchedIsDocument | components/FileImportButton.tsx:35 | nothing matched gives "Document" |
| FileImport.SevenLabels | components/FileImportButton.tsx:28-35 | there are exactly seven labels, and every result is one of them |
| FileImport.PdfWins | components/FileImportButton.tsx:28 | a `pdf` extension or a MIME type mentioning `pdf` gives "PDF Document" |
| FileImport.TextPlainPdfIsPdf | components/FileImportButton.tsx:28-30 | a `text/plain` upload named `notes.pdf` is filed as a PDF |
| FileImport.ImportedFile | components/FileImportButton.tsx:79-84 | the record keeps the picked name, size and date, and its type is `getFileType(mimeType, name)`: one of the labels, and PDF for a `pdf` extension |
| AddItem.FindType | components/AddItemModal.tsx:27 | none exactly when no row has the label; otherwise the first row carrying it |
| AddItem.FindTypeAt | components/AddItemModal.tsx:27 | `find` returns the first row with the label |
| AddItem.RowIsFound | components/AddItemModal.tsx:17-27 | every row of the table is found by its own label |
| AddItem.Title | components/AddItemModal.tsx:62 | each title belongs to exactly one mode |
| AddItem.InitialIsValid | components/AddItemModal.tsx:13-18 | the default label names a row of the table |
| AddItem.BlankNameIsNoOp | components/AddItemModal.tsx:25-39 | a blank name makes both add buttons do nothing, not even close |
| AddItem.AddFileUsesTheRow | components/AddItemModal.tsx:25-32 | a file is added under the trimmed name plus its row's extension with its row's type, then the dialog resets and closes |
| AddItem.UnknownLabelFallsBack | components/AddItemModal.tsx:28-29 | a label outside the table falls back to `.txt` and "Document" |
| AddItem.AddFolderTrims | components/AddItemModal.tsx:34-39 | a folder is added under the trimmed name, then the dialog resets and closes |
| AddItem.DefaultIsWordDocument | components/AddItemModal.tsx:15-29 | with the default label the file is a `.docx` Word document |
| AddItem.StepsKeepValid | components/AddItemModal.tsx:41-46 | every step keeps the selected label in the table, so the fallbacks are never used from the dialog |
| AddItem.CreatedExtension | components/AddItemModal.tsx:28 | the created name's extension is the row's extension without its dot |
| AddItem.CreatedFileTypeAgreesWithImport | components/AddItemModal.tsx:17-23 | the import classifier files a created name under the very type its row names |
| AddItem.NewFileName | components/AddItemModal.tsx:28 | the created name; AddFileUsesTheRow, UnknownLabelFallsBack and CreatedExtension state it |
| AddItem.NewFileType | components/AddItemModal.tsx:29 | the created type; AddFileUsesTheRow and UnknownLabelFallsBack state it |
| AddItem.InitialModal | components/AddItemModal.tsx:13-15 | the initial dialog state; InitialIsValid states that its label names a row |
| AddItem.Reset | components/AddItemModal.tsx:41-46 | `resetModal`; StepsKeepValid states it keeps the label valid |
| AddItem.AddFile | components/AddItemModal.tsx:25-32 | `handleAddFile`; BlankNameIsNoOp and AddFileUsesTheRow state it |
| AddItem.AddFolder | components/AddItemModal.tsx:34-39 | `handleAddFolder`; BlankNameIsNoOp and AddFolderTrims state it |
| AddItem.AddItemModalView.constructor | components/AddItemModal.tsx:13-15 | choice mode, empty name, default label |
| AddItem.AddItemModalView.ChooseMode | components/AddItemModal.tsx:71-79 | sets the mode |
| AddItem.AddItemModalView.ChangeName | components/AddItemModal.tsx:93 | sets the name |
| AddItem.AddItemModalView.PickType | components/AddItemModal.tsx:100-107 | selects its own row's label |
| AddItem.AddItemModalView.ResetModal | components/AddItemModal.tsx:41-46 | performs the reset transition |
| AddItem.AddItemModalView.HandleAddFile | components/AddItemModal.tsx:25-32 | performs the add-file transition |
| AddItem.AddItemModalView.HandleAddFolder | components/AddItemModal.tsx:34-39 | performs the add-folder transition |
| FileViewer.Classify | components/FileViewer.tsx:46-56 | text, image and PDF kinds for exactly their extension sets, tested in source order |
| FileViewer.PreviewMentionsTheFile | components/FileViewer.tsx:48 | the text preview contains the file's name, type, size and date |
| FileViewer.PreviewIsNoMarker | components/FileViewer.tsx:48 | the preview text is longer than the `image` and `pdf` markers |
| FileViewer.LoadOutcome | components/FileViewer.tsx:36-63 | after a load, loading is over, and the error is set exactly for an unsupported extension |
| FileViewer.RenderAfterLoad | components/FileViewer.tsx:36-171 | a loaded file renders by its kind: text preview, image, PDF or the unsupported error, never the fallback |
| FileViewer.TextAndImageDisjoint | components/FileViewer.tsx:46-52 | a text extension is neither an image extension nor `pdf` |
| FileViewer.RenderPrecedence | components/FileViewer.tsx:88-174 | hidden or fileless shows nothing; then loading, then the error, then the image marker |
| FileViewer.HideAndCloseReset | components/FileViewer.tsx:23-34 | hiding or closing leaves no content, no error and no loading; only closing calls the parent |
| FileViewer.OpeningLoads | components/FileViewer.tsx:23-34 | opening on a file loads it |
| FileViewer.SameNameKeepsContent | components/FileViewer.tsx:34 | a new file under the same name does not reload, and the old content stays |
| FileViewer.PreviewText | components/FileViewer.tsx:48 | the simulated text preview; PreviewMentionsTheFile and PreviewIsNoMarker state it |
| FileViewer.PreviewContent | components/FileViewer.tsx:46-54 | the content a load leaves for each kind; LoadOutcome states it |
| FileViewer.Load | components/FileViewer.tsx:36-63 | `loadFileContent`; LoadOutcome and RenderAfterLoad state it |
| FileViewer.Cleared | components/FileViewer.tsx:24-28 | the reset of content, error and loading; HideAndCloseReset states it |
| FileViewer.Effect | components/FileViewer.tsx:23-34 | the effect; HideAndCloseReset and OpeningLoads state it |
| FileViewer.Rerender | components/FileViewer.tsx:34 | new props with the `[visible, file?.name]` dependency; SameNameKeepsContent states it |
| FileViewer.Mount | components/FileViewer.tsx:18-34 | the first render; the constructor's state |
| FileViewer.Close | components/FileViewer.tsx:80-86 | `handleClose`; HideAndCloseReset states it |
| FileViewer.Render | components/FileViewer.tsx:88-174 | what the dialog shows; RenderPrecedence and RenderAfterLoad state it |
| FileViewer.ContentView | components/FileViewer.tsx:113-174 | the branch past loading and error; RenderPrecedence and RenderAfterLoad state it |
| FileViewer.FileViewerView.constructor | components/FileViewer.tsx:18-34 | the empty state, then the effect |
| FileViewer.FileViewerView.LoadFileContent | components/FileViewer.tsx:36-63 | performs the load transition |
| FileViewer.FileViewerView.RunEffect | components/FileViewer.tsx:23-34 | performs the effect |
| FileViewer.FileViewerView.SetProps | components/FileViewer.tsx:23-34 | new props, with the effect run only when its dependencies changed |
| FileViewer.FileViewerView.HandleClose | components/FileViewer.tsx:80-86 | performs the close transition |
| Text.LastSegment | components/DeskFile.tsx:30 | the text after the last dot is a dot-free suffix of the name |
| Text.Extension | components/DeskFile.tsx:30 | `split('.').pop()?.toLowerCase()`; FileIconOfDotted and ByExtensionOnly state it |
| Text.AsciiLower | components/DeskFile.tsx:30 | `toLowerCase` on ASCII: same length, each character lower-cased |
| Text.Includes | components/FileImportButton.tsx:28 | true exactly when the needle occurs at some position |
| Text.Trim | components/AddItemModal.tsx:26 | the result occurs in the input with only white space before and after it, and has no white space at either end: exactly the maximal white-space ends are removed |
| Text.TrimStart | components/AddItemModal.tsx:26 | strips exactly the maximal JavaScript white-space prefix |
| Text.TrimEnd | components/AddItemModal.tsx:26 | strips exactly the maximal JavaScript white-space suffix |
| Text.TrimEmptyIffBlank | components/AddItemModal.tsx:26 | the trimmed text is empty exactly when the input is all white space |
| Text.Digits | components/AuthScreen.tsx:27 | the result consists of digits only |
| Text.DigitsConcat | components/AuthScreen.tsx:46 | the digit filter acts piecewise on concatenations |
| Text.Utf16Length | components/AuthScreen.tsx:78 | JavaScript's `length`: at least the number of characters, and equal to it exactly when no character is astral |
| Text.DecimalValueOfNatToDecimal | lib/auth.ts:196 | the decimal text of a number reads back as that number |
| Text.NatToDecimal | lib/auth.ts:196 | `toString()` of a natural number; DecimalValueOfNatToDecimal and DecimalLength state it |
| Text.ParseIntOfNatToDecimal | lib/auth.ts:245 | `parseInt` of a decimal text gives back the number |
| Text.ParseInt | lib/auth.ts:245 | `parseInt`; ParseIntOfNatToDecimal states that it reads back a decimal timestamp |

## Left out

- The production (non-development) branches of `sendVerificationCode` and `verifyCode`, the Twilio client (`lib/auth.ts` lines 50-130) and the API routes under `app/api`. They are network calls.
- Exception paths. These include the `catch` branches that return "Failed to … Please try again.", `'Failed to load file content'`, and storage errors inside `saveUser` and `getUserByPhone`. Storage failure is modelled only in `lib/storage.ts`, as a per-call parameter.
- JSON serialisation is taken as the identity. A `users` key holding unparsable text is not modelled.
- Auth.AuthService.VerifyCode: its two `removeItem` calls are one step (`ForgetCode`). It also returns which outcome was taken, as an extra result.
- Auth.AuthService.NotifyListeners: a listener is a number, and a call to it is a `Delivery` record. What listeners do with the state is not modelled.
- Animations: springs, timings, and Reanimated's interpolation on non-integer inputs. The shared values are the values assigned, not animated ones.
- Gesture-handler internals, such as event ordering and cancellation. A gesture is the sequence of its callbacks.
- Concurrency: React batching and stale closures beyond the z-index counter. Events run one at a time, with a re-render between them, except where ZOrder says otherwise.
- `formatFileSize`, the document picker, the copy into the app directory, the Supabase insert and the success alert (`components/FileImportButton.tsx` lines 17-23, 38-115). These are file-system and network I/O.
- The `isImporting` flag of the import button. It is a loading indicator only.
- `handleDownload` of the viewer (`components/FileViewer.tsx` lines 65-78). It only logs or alerts.
- Alerts, and the console output of the demo code. They are side effects that show messages.
- `components/TornPage.tsx`, Notepad, FileTray and the other desk components are not part of this model. Their layout fields are opaque JSON text in `Storage.DeskLayout`.
- The `maxLength` truncation of the input fields. The formatter alone already caps the phone field at 14 characters (TenDigitsFitTheField).
- The edit buffers of StickyNote and DeskFile are not resynced when the item's props change. This matches the source, which does not resync them either.
- Text.AsciiLower: `toLowerCase` is modelled on ASCII letters only. Other letters are left as they are.
- Text.Trim: `trim`'s white-space set is the one listed in `Text.IsJsSpace`.
- Desk.DeskScene.AddStickyNote, Desk.DeskScene.AddNewFile, Desk.DeskScene.AddNewFolder: the `Date.now()` id is a parameter. It is required to be new in its collection, which the clock-based id does not guarantee.
- The clock (`Date.now()`, `new Date().toISOString()`, `toLocaleDateString()`), `Math.random()` and the screen size are parameters.
- The created user's id (`Date.now()` plus random base-36 text) is a parameter.
- Auth.CodeValue: `toString()` of the drawn number is `Text.NatToDecimal`. Floating-point rounding in `Math.floor(100000 + r * 900000)` is not modelled; exact reals are used.
- Text.ParseInt: `parseInt` skips leading JavaScript white space and reads an optional sign and the leading decimal digits, as JavaScript does. Only the `0x`/`0X` prefix is not modelled: `parseInt("0x1A")` is 26 in JavaScript and 0 here. The stored timestamps are always decimal, so this does not reach Auth.AuthService.CheckStoredCode. An unparsable timestamp never expires, as with `NaN` in the source.
- Desk.Patch, Desk.UpdateById: an update never carries `id` (or `zIndex`). In the source, `Partial<...>` would let `{ ...note, ...updates }` rename an entry, and an incoming `zIndex` is overridden anyway. No caller sends either field, and a rename would break unique ids.
- Strings are sequences of Unicode scalar values, while JavaScript strings are sequences of UTF-16 code units. `length` and the non-`u` regular expression of `sanitizePhoneForKey` are modelled on code units (Text.Utf16Length, Auth.SanitizeUnits). The other operations (`trim`, `split('.')`, `toLowerCase`, `includes`, `replace(/\D/g, '')`, equality) give the same result on either reading, because none of the characters they test for is half of a surrogate pair.
- Desk.FileItems, Desk.AllItems: the render list gives each file its stored type, the corrected reading of `components/DeskScene.tsx` line 183. The as-written overwrite with "file" is Desk.AsWrittenFileItems (see Findings). The edit dialog of `components/DeskFile.tsx` (line 123) is not modelled beyond the record it receives.

## Findings

| source | as written | input that shows it | evidently intended | confidence | as-written member | corrected member |
|---|---|---|---|---|---|---|
| components/DeskScene.tsx:95-98 | `getNextZIndex` queues `prev => prev + 1` but returns `maxZIndex + 1` from the value captured at the last render. So every call before the next render returns the same z-index, while the counter advances once per call. | Counter 10; two items moved (or added) before the scene re-renders: both get z-index 11 and the counter becomes 12. | Each call hands out a fresh, strictly larger z-index, so the most recently moved item is on top. | not executed | ZOrder.AsWrittenRepeats | ZOrder.AllocationsStrictlyIncrease |
| components/DeskScene.tsx:183 | `{ ...file, type: 'file' as const }` tags each desk file for the render switch with the key `type`, which is already the file's own type. The later key of a spread wins. | The seeded `Contract.pdf` (type "PDF Document", line 57): its edit dialog prints `{file.type}` (`components/DeskFile.tsx` line 123) and shows "file". | The dialog shows the file's stored type. The tag wants a key of its own. | not executed | Desk.AsWrittenSeedFileShowsFile | Desk.FileItems |
