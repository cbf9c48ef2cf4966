# Sticky notes: a verified model of the board, the note forms and the note service

This project models the behaviour of the sticky-notes web application: a board of short
coloured notes that users create and drag around, backed by a server that stores the
notes. The model covers what the code does, in four groups:

- **Dragging a note** (`NoteDrag`). A pointer press, or a touch start, records where the
  pointer is and where the note is. Each later move puts the note at that initial position
  plus the pointer's displacement from the press point. A release ends the drag and
  reports the final position once through `onPositionUpdate`. Touch events use their
  first touch point. The window listeners become explicit `Down`, `Move` and `Up` events.
  `Step` and `Run` give the meaning of one event and of an event sequence, and the
  `StickyNote` class's handlers are proved to follow `Step`.
- **Note content** (`Text`, `AddNoteModal`, `StickyNoteService`). Blank means that
  JavaScript's `trim` leaves nothing. `Text` writes out the ECMAScript whitespace set that
  `trim` strips. The dialog caps content at 120 UTF-16 code units, which is what
  JavaScript's `length` counts. An over-long edit is refused as a whole. The service
  rejects empty or whitespace-only content before the table is touched. It stores
  accepted content verbatim under a fresh id, and lists notes newest first.
- **Creator forms** (`NoteCreator`, `AddNoteForm`). Each form holds its content, colour and
  submitting flag, and the note creator also holds its expanded flag. Each
  `handleSubmit` awaits the parent's promise, so the model splits it at the await into
  `BeginSubmit` and `FinishSubmit`. The promise's outcome is an input.
- **Board lists** (`StickyBoard`, `App`, `NoteList`). A fetch replaces the note list. A
  successful create puts the new note in front. A failed create keeps the list. A position
  update changes no board state. The board renders the loading message first, then the
  error, then the notes. Network outcomes are inputs.

The model uses integers for coordinates. The database's `created_at` timestamp and the
board's random default position are parameters.

## Model

| member | source | states |
|---|---|---|
| `Text.TrimStart` | server/src/services/StickyNoteService.ts:15 | the leading half of `trim`: the result is a suffix, every dropped character is whitespace, and the result does not start with whitespace |
| `Text.TrimEnd` | server/src/services/StickyNoteService.ts:15 | the trailing half of `trim`: the result is a prefix, every dropped character is whitespace, and the result does not end with whitespace |
| `Text.Trim` | server/src/services/StickyNoteService.ts:15 | `trim` never lengthens the content, and what remains starts and ends with a non-whitespace character |
| `Text.TrimIsSlice` | server/src/services/StickyNoteService.ts:15 | what `trim` keeps is a contiguous slice of the content, and everything before and after that slice is whitespace |
| `Text.BlankIffAllWhitespace` | client/src/components/NoteCreator.tsx:21 | content is blank (its trim is empty) exactly when every character is whitespace, the empty string included |
| `Text.Utf16Length` | client/src/components/AddNoteModal.tsx:26 | JavaScript `length` counts each character outside the Basic Multilingual Plane as two units: it lies between the character count and twice that, and equals the character count when every character is in the Basic Multilingual Plane |
| `NoteDrag.Moves` | client/src/components/StickyNote.tsx:44-54 | a sequence of pointer positions becomes one move event per position, in order |
| `NoteDrag.RunConcat` | client/src/components/StickyNote.tsx:79-93 | handling two batches of events one after the other is the same as handling their concatenation |
| `NoteDrag.MoveWhileIdleIgnored` | client/src/components/StickyNote.tsx:44-45 | a move while no drag is in progress changes nothing |
| `NoteDrag.MovesWhileIdleIgnored` | client/src/components/StickyNote.tsx:44-57 | any number of mouse or touch moves while no drag is in progress change nothing |
| `NoteDrag.MoveSetsAbsoluteOffset` | client/src/components/StickyNote.tsx:47-53 | during a drag, a move to p puts the note at initial + (p − press point) and changes nothing else |
| `NoteDrag.MovesDependOnlyOnLastPointer` | client/src/components/StickyNote.tsx:47-53 | during a drag, any non-empty burst of moves has the effect of one move to the last pointer position, however many intermediate moves there were |
| `NoteDrag.MovesKeepDragging` | client/src/components/StickyNote.tsx:44-54 | moves issue no position update and keep the drag, its press point and its initial position |
| `NoteDrag.DownSnapshotsPosition` | client/src/components/StickyNote.tsx:28-31 | a press starts dragging, records the pointer, snapshots the current position as the initial one, and moves nothing |
| `NoteDrag.UpReportsOnce` | client/src/components/StickyNote.tsx:72-76 | a release during a drag ends it and adds exactly one update carrying the id and the current position; a release with no drag changes nothing |
| `NoteDrag.PressReleaseKeepsPosition` | client/src/components/StickyNote.tsx:28-76 | press then release with no move leaves the note in place and reports that unchanged position once |
| `NoteDrag.GestureEffect` | client/src/components/StickyNote.tsx:28-76 | a whole press–moves–release gesture moves the note by the pointer's travel from the press to the last move, ends the drag, and reports the final position exactly once |
| `NoteDrag.DragsCompose` | client/src/components/StickyNote.tsx:28-76 | the second of two drags starts where the first ended: the note ends at start + travel₁ + travel₂, and each drag reports its own end position, in order |
| `NoteDrag.UpdatesOnlyOnRelease` | client/src/components/StickyNote.tsx:72-93 | for any event sequence, updates are only appended, and there are at most as many new updates as releases, whatever the number of moves |
| `NoteDrag.StickyNote.constructor` | client/src/components/StickyNote.tsx:22-26 | a mounted note is not dragging and sits at the position given by its props |
| `NoteDrag.StickyNote.HandleMouseDown` | client/src/components/StickyNote.tsx:28-35 | follows `Step` on `Down`: dragging, press point recorded, initial position = current position |
| `NoteDrag.StickyNote.HandleTouchStart` | client/src/components/StickyNote.tsx:37-42 | the same as a mouse press at the first touch point |
| `NoteDrag.StickyNote.HandleMouseMove` | client/src/components/StickyNote.tsx:44-54 | follows `Step` on `Move`: ignored unless dragging, otherwise the absolute offset from the press |
| `NoteDrag.StickyNote.HandleTouchMove` | client/src/components/StickyNote.tsx:56-70 | ignored unless dragging, otherwise the same as a mouse move to the first touch point |
| `NoteDrag.StickyNote.HandleMouseUp` | client/src/components/StickyNote.tsx:72-77 | follows `Step` on `Up`: an update is appended exactly when a drag was in progress, and the drag ends |
| `AddNoteModal.NoteModal.constructor` | client/src/components/AddNoteModal.tsx:13-14 | the dialog opens with empty content and the colour `yellow`, the first swatch id |
| `AddNoteModal.NoteModal.HandleContentChange` | client/src/components/AddNoteModal.tsx:23-29 | an edit within 120 code units replaces the content; a longer one leaves the content as it was (never truncated); the 120 cap is preserved |
| `AddNoteModal.NoteModal.SelectColor` | client/src/components/AddNoteModal.tsx:64-69 | the colour can only become one of the five swatch ids, and the content is untouched |
| `AddNoteModal.NoteModal.RemainingChars` | client/src/components/AddNoteModal.tsx:39 | the counter plus the content's length is 120, so the counter lies in 0..120 |
| `AddNoteModal.NoteModal.AddEnabled` | client/src/components/AddNoteModal.tsx:79 | the Add Note button is enabled exactly when some character is not whitespace |
| `AddNoteModal.NoteModal.HandleSubmit` | client/src/components/AddNoteModal.tsx:16-21 | `onAdd` is called exactly when some character is not whitespace, with the untrimmed content and the current colour |
| `StickyNoteService.EmptyContentIffAllWhitespace` | server/src/services/StickyNoteService.ts:15-17 | content is rejected exactly when it is empty or consists only of whitespace |
| `StickyNoteService.InsertByDate` | server/src/services/StickyNoteService.ts:7 | inserting into a newest-first list keeps it newest-first, adds exactly that note, and puts a note no older than the head in front |
| `StickyNoteService.NewestFirst` | server/src/services/StickyNoteService.ts:7 | the ordered query returns every stored row exactly once (a permutation), sorted by `created_at` descending |
| `StickyNoteService.CreatedNoteListedFirst` | server/src/services/StickyNoteService.ts:5-22 | under the model's own tie order (`NewestFirst`), a note stamped no earlier than every stored note comes first, before the earlier rows in their previous order |
| `StickyNoteService.StrictlyNewestListedFirst` | server/src/services/StickyNoteService.ts:5-22 | a note stamped strictly later than every stored note comes first in every newest-first permutation of the table, so in whatever `GetAllNotes` returns, whatever tie order the database picks |
| `StickyNoteService.NoteStore.Insert` | server/src/services/StickyNoteService.ts:19-22 | the insert appends one row with the given content, colour and timestamp under an id no stored row has, and the id invariant is preserved |
| `StickyNoteService.NoteStore.SelectNewestFirst` | server/src/services/StickyNoteService.ts:6-8 | the ordered select returns the rows in the order `NewestFirst` gives them, without changing the table |
| `StickyNoteService.NoteService.GetAllNotes` | server/src/services/StickyNoteService.ts:5-10 | every stored note is returned exactly once, newest first |
| `StickyNoteService.NoteService.CreateNote` | server/src/services/StickyNoteService.ts:12-25 | fails with "Note content cannot be empty" exactly for empty or whitespace-only content, and then the table is unchanged; otherwise it stores the content verbatim (untrimmed) with the given colour under a fresh id and returns that row |
| `NoteCreator.NoteCreatorForm.constructor` | client/src/components/NoteCreator.tsx:10-13 | empty, collapsed, not submitting, with colour `COLORS[0]` |
| `NoteCreator.NoteCreatorForm.HandleExpand` | client/src/components/NoteCreator.tsx:39-40 | expands the form and changes nothing else |
| `NoteCreator.NoteCreatorForm.ChangeContent` | client/src/components/NoteCreator.tsx:61-68 | the text area (disabled while submitting) replaces the content and nothing else |
| `NoteCreator.NoteCreatorForm.HandleColorChange` | client/src/components/NoteCreator.tsx:16-18 | the colour becomes the chosen entry of `COLORS` and nothing else changes |
| `NoteCreator.NoteCreatorForm.Cancel` | client/src/components/NoteCreator.tsx:83-89 | collapses the form without clearing the content |
| `NoteCreator.NoteCreatorForm.AddEnabled` | client/src/components/NoteCreator.tsx:93 | the Add button is enabled exactly when not submitting and some character is not whitespace |
| `NoteCreator.NoteCreatorForm.BeginSubmit` | client/src/components/NoteCreator.tsx:20-28 | blank content makes no call and changes nothing; otherwise the form is marked submitting and the callback gets the untrimmed content and the current colour |
| `NoteCreator.NoteCreatorForm.FinishSubmit` | client/src/components/NoteCreator.tsx:28-36 | success clears the content and collapses; failure keeps both; submitting ends either way and the colour is kept |
| `NoteCreator.NoteCreatorForm.Submit` | client/src/components/NoteCreator.tsx:20-37 | a whole submission: no call for blank content; otherwise success clears and collapses, failure keeps content and expansion, and the form is no longer submitting |
| `AddNoteForm.NoteForm.constructor` | client/src/components/AddNoteForm.tsx:10-12 | empty, not submitting, with colour `COLORS[0]` |
| `AddNoteForm.NoteForm.ChangeContent` | client/src/components/AddNoteForm.tsx:42-50 | the text area (disabled while submitting) replaces the content and nothing else |
| `AddNoteForm.NoteForm.SelectColor` | client/src/components/AddNoteForm.tsx:56-63 | the colour becomes the chosen entry of `COLORS`; the content is untouched |
| `AddNoteForm.NoteForm.BeginSubmit` | client/src/components/AddNoteForm.tsx:14-28 | blank content makes no call and leaves content and colour unchanged; otherwise the form is marked submitting and the callback gets the untrimmed content and the current colour |
| `AddNoteForm.NoteForm.FinishSubmit` | client/src/components/AddNoteForm.tsx:28-33 | success clears the content, failure keeps it, submitting ends either way, and the colour is kept for the next note |
| `AddNoteForm.NoteForm.Submit` | client/src/components/AddNoteForm.tsx:14-34 | a whole submission with the callback's outcome as input: content cleared only on a successful non-blank submit, colour always kept |
| `NoteList.PrependToCaptured` | client/src/components/StickyBoard.tsx:70 | the list update as written: the created note first, followed by exactly the list the handler captured when the request was sent |
| `NoteList.StaleCaptureDropsNote` | client/src/components/StickyBoard.tsx:70 | a note present now but absent from the captured list is missing after the update as written |
| `NoteList.CreateDuringFetchLosesFetchedNotes` | client/src/App.tsx:49 | a create sent before the first fetch completed leaves only the created note after the fetch delivered another |
| `NoteList.Prepend` | client/src/App.tsx:49 | the intended update: one more note, the created note first, every current note behind it in its old order |
| `NoteList.PrependKeepsCurrentNotes` | client/src/App.tsx:49 | the intended update keeps every current note, in order |
| `NoteList.NoInterleavingNoLoss` | client/src/components/StickyBoard.tsx:70 | when nothing changed the list during the request, the update as written and the intended one agree |
| `StickyBoard.Board.constructor` | client/src/components/StickyBoard.tsx:18-21 | no notes, dialog closed, loading, no error |
| `StickyBoard.Board.Render` | client/src/components/StickyBoard.tsx:104-122 | loading is shown exactly while loading; otherwise the error exactly when one is set; otherwise the notes |
| `StickyBoard.Board.BeginFetch` | client/src/components/StickyBoard.tsx:23-26 | raises the loading flag and changes nothing else |
| `StickyBoard.Board.FinishFetch` | client/src/components/StickyBoard.tsx:27-38 | a delivered list replaces the notes and clears the error; a failure sets the fetch error and keeps the notes; loading ends either way |
| `StickyBoard.Board.FetchNotes` | client/src/components/StickyBoard.tsx:23-43 | after a fetch the board shows the delivered notes, or the fetch error |
| `StickyBoard.Board.SetModalOpen` | client/src/components/StickyBoard.tsx:124-130 | the add button and the dialog's close set the dialog flag and change nothing else |
| `StickyBoard.Board.HandleAddNote` | client/src/components/StickyBoard.tsx:45-76 | posts content, colour and the default position; success puts the new note first (length + 1, old order kept) and closes the dialog without clearing the error; failure keeps the list and dialog and sets the error, so the board shows the error instead of the notes |
| `StickyBoard.Board.HandlePositionUpdate` | client/src/components/StickyBoard.tsx:78-100 | sends exactly the reported id and coordinates and, succeeding or failing, changes no board state |
| `StickyBoard.SubmitFromModal` | client/src/components/StickyBoard.tsx:126-130 | the board posts exactly when the dialog content is not blank, with the dialog's content and colour; blank content leaves the board untouched; a created note is listed first with the dialog closed; a failed create keeps the list and the dialog open and sets the add error; the loading flag is never touched |
| `StickyBoard.ReleaseNote` | client/src/components/StickyBoard.tsx:110-119 | a release that ends a drag sends one position request with the note's final position; a release with no drag sends none |
| `App.AppState.constructor` | client/src/App.tsx:9-11 | no notes, loading, no error |
| `App.AppState.FetchNotes` | client/src/App.tsx:13-28 | a delivered list replaces the notes and clears the error; a failure sets the error message and keeps the notes; loading ends either way |
| `App.AppState.HandleAddNote` | client/src/App.tsx:34-55 | resolves exactly when the note was created, which puts it first; a failure keeps the list and rejects; the error banner and loading flag are never touched |
| `App.SubmitFromCreator` | client/src/App.tsx:61 | the creator's promise settles as the app's create did: a created note is listed first and the creator cleared and collapsed; a failure keeps the list and the creator's content and expansion; blank content touches neither |

## Left out

- HTTP, JSON and the API address: each fetch, create or position update is an outcome given as an input.
- Server wiring (Express routes, middleware, `listen`, the SIGTERM handler), the `pg` wrapper in server/src/db/index.ts and the cron job in server/src/jobs/job.ts: I/O plumbing with no note logic. The service works against an abstract table.
- A storage error thrown by the database query: `CreateNote` and `GetAllNotes` model only the answers the table gives.
- `StickyNoteService.NoteService.CreateNote`: a request body whose `content` is missing or is not a string is not modelled; content is always a string here.
- `StickyNoteService.NewestFirst`: for rows with equal `created_at` the model picks one order (the later insert first), which the database leaves open; `GetAllNotes` promises only the order by timestamp.
- The default create position (`Math.random`, `window.innerWidth`/`innerHeight`) is an arbitrary integer input. Coordinates are integers, not JavaScript floating-point numbers.
- Browser plumbing: listener registration and removal, `preventDefault`, the focus timeout after expanding, `alert` and `console` messages.
- The moment React re-registers the window listeners after a state change is not modelled: each event sees the state left by the previous one.
- `NoteDrag.StickyNote.HandleTouchStart` and `NoteDrag.StickyNote.HandleTouchMove` require at least one touch point (touch moves only while dragging), as the browser always supplies one for these events.
- Disabled controls (submit buttons and text areas while submitting, Cancel while submitting) are preconditions of the handlers behind them: a disabled control fires no event.
- A note's local position is not copied back into the board's list. The source does not do it either, and the model keeps the two apart.
- Strings are sequences of Unicode scalar values: lone UTF-16 surrogates, which JavaScript strings may hold, cannot be expressed.
- Presentational components (NotesBoard, InfoButton, HelloWorld, AddNoteButton), CSS and markup.
- Pan, viewport offset, selection, click-versus-drag threshold and z-order are not modelled, because the code implements none of them. The help text in client/src/components/InfoButton.tsx mentions them, and `updateStickyNoteZIndex` in server/src/db/index.ts is never called.
- Creation is not optimistic: a created note enters the list only once the server has answered, and there is no local placeholder.
- Only the board's dialog enforces the 120 cap and the swatch palette: the service stores any colour and content of any length, and it ignores the position the board posts.
- `StickyBoard.Board.HandleAddNote` and `App.AppState.HandleAddNote` handle a create in one step, from the request to the answer, so no other event can change the list while the create awaits. Inside them the as-written and the corrected list updates agree (`NoteList.NoInterleavingNoLoss`); the loss across the await is stated separately in `NoteList`, and the board models use the corrected `NoteList.Prepend`.

## Findings

| source | as written | input that shows it | evidently intended | confidence | as-written member | corrected member |
|---|---|---|---|---|---|---|
| client/src/components/StickyBoard.tsx:70 | `setNotes([newNote, ...notes])` uses the `notes` captured when the create was sent | two Add Note clicks before the first create answers: both capture `[a]`; the first creates `n1` and the list is `[n1, a]`; the second creates `n2` and the list is `[n2, a]`, so `n1` vanishes from the board although it is stored | prepend to the current list (`setNotes(prev => [newNote, ...prev])`) | medium; not executed | `NoteList.StaleCaptureDropsNote` | `NoteList.PrependKeepsCurrentNotes` |
| client/src/App.tsx:49 | `setNotes([newNote, ...notes])` uses the `notes` captured when the create was sent | the creator is usable while the first fetch is pending: a create sent with `[]` captured, the fetch then delivers `[1]`, the create returns `2`, and the list becomes `[2]` | prepend to the current list | medium; not executed | `NoteList.CreateDuringFetchLosesFetchedNotes` | `NoteList.PrependKeepsCurrentNotes` |
