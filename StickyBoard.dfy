/**
 * The board that renders the stored notes and opens the add-note dialog
 * (client/src/components/StickyBoard.tsx). Network responses are inputs: a fetch or a create
 * either delivers its JSON body or fails.
 */
module StickyBoard {
  import opened Wrappers
  import NoteList
  import AddNoteModal
  import NoteDrag
  import Text

  /** A note as the board receives it from the API. */
  datatype Note = Note(id: int, content: string, color: string, positionX: int, positionY: int, createdAt: string)

  datatype FetchOutcome = Fetched(data: seq<Note>) | FetchFailed

  datatype CreateOutcome = Created(note: Note) | CreateFailed

  /** The body of `POST /api/sticky-notes`. */
  datatype CreateRequest = CreateRequest(content: string, color: string, positionX: int, positionY: int)

  /** `PATCH /api/sticky-notes/{id}/position` with its body. */
  datatype PositionRequest = PositionRequest(id: int, positionX: int, positionY: int)

  /** What the board area shows. */
  datatype View = LoadingView | ErrorView(message: string) | NotesView(notes: seq<Note>)

  const FetchErrorMessage: string := "Failed to load sticky notes. Please try again later."

  const AddErrorMessage: string := "Failed to add note. Please try again."

  class Board {
    var notes: seq<Note>
    var isModalOpen: bool
    var isLoading: bool
    var error: Option<string>

    /** First render: no notes, dialog closed, loading, no error. */
    constructor ()
      ensures notes == [] && !isModalOpen && isLoading && error.None?
    {
      notes := [];
      isModalOpen := false;
      isLoading := true;
      error := None;
    }

    /**
     * The render choice: the loading message while loading, otherwise the error if there is
     * one, otherwise the notes.
     */
    function Render(): (v: View)
      reads this
      ensures v.LoadingView? <==> isLoading
      ensures v.ErrorView? <==> !isLoading && error.Some?
      ensures v.ErrorView? ==> v.message == error.value
      ensures v.NotesView? ==> !isLoading && error.None? && v.notes == notes
    {
      if isLoading then LoadingView
      else if error.Some? then ErrorView(error.value)
      else NotesView(notes)
    }

    /** `fetchNotes` up to the await: raise the loading flag. */
    method BeginFetch()
      modifies this
      ensures isLoading
      ensures notes == old(notes) && error == old(error) && isModalOpen == old(isModalOpen)
    {
      isLoading := true;
    }

    /**
     * `fetchNotes` after the response: a delivered list replaces the notes and clears the
     * error; a failure sets the error and keeps the notes. Loading ends either way.
     */
    method FinishFetch(outcome: FetchOutcome)
      modifies this
      ensures !isLoading && isModalOpen == old(isModalOpen)
      ensures outcome.Fetched? ==> notes == outcome.data && error.None?
      ensures outcome.FetchFailed? ==> notes == old(notes) && error == Some(FetchErrorMessage)
    {
      match outcome {
        case Fetched(data) =>
          notes := data;
          error := None;
        case FetchFailed =>
          error := Some(FetchErrorMessage);
      }
      isLoading := false;
    }

    /** A whole `fetchNotes`, as run once on mount. */
    method FetchNotes(outcome: FetchOutcome)
      modifies this
      ensures !isLoading && isModalOpen == old(isModalOpen)
      ensures outcome.Fetched? ==> notes == outcome.data && error.None? && Render() == NotesView(outcome.data)
      ensures outcome.FetchFailed? ==> notes == old(notes) && Render() == ErrorView(FetchErrorMessage)
    {
      BeginFetch();
      FinishFetch(outcome);
    }

    /** The add button and the dialog's close actions. */
    method SetModalOpen(open: bool)
      modifies this
      ensures isModalOpen == open
      ensures notes == old(notes) && isLoading == old(isLoading) && error == old(error)
    {
      isModalOpen := open;
    }

    /**
     * `handleAddNote`: posts the content, colour and a default position (chosen at random
     * around the window centre, here an input). A created note goes in front of the list and
     * the dialog closes; a failure keeps the list and the dialog and sets the error, which
     * hides the board until a fetch succeeds. A create never clears the error.
     */
    method HandleAddNote(content: string, color: string, positionX: int, positionY: int, outcome: CreateOutcome)
      returns (request: CreateRequest)
      modifies this
      ensures request == CreateRequest(content, color, positionX, positionY)
      ensures isLoading == old(isLoading)
      ensures outcome.Created? ==>
        notes == NoteList.Prepend(old(notes), outcome.note) && !isModalOpen && error == old(error)
      ensures outcome.CreateFailed? ==>
        notes == old(notes) && isModalOpen == old(isModalOpen) && error == Some(AddErrorMessage)
      ensures outcome.CreateFailed? && !isLoading ==> Render() == ErrorView(AddErrorMessage)
    {
      request := CreateRequest(content, color, positionX, positionY);
      match outcome
      case Created(newNote) =>
        notes := NoteList.Prepend(notes, newNote);
        isModalOpen := false;
      case CreateFailed =>
        error := Some(AddErrorMessage);
    }

    /**
     * `handlePositionUpdate`: sends the reported coordinates for the note; whether the request
     * succeeds or fails, no board state changes (a failure is only logged).
     */
    method HandlePositionUpdate(id: int, x: int, y: int, succeeded: bool) returns (request: PositionRequest)
      ensures request.id == id && request.positionX == x && request.positionY == y
    {
      request := PositionRequest(id, x, y);
    }
  }

  /**
   * The dialog's submit wired to `handleAddNote`: blank content reaches neither the board
   * nor the network; otherwise the board posts the dialog's content and colour.
   */
  method SubmitFromModal(board: Board, modal: AddNoteModal.NoteModal, positionX: int, positionY: int, outcome: CreateOutcome)
    returns (request: Option<CreateRequest>)
    modifies board
    ensures request.Some? <==> !Text.IsBlank(modal.content)
    ensures board.isLoading == old(board.isLoading)
    ensures request.None? ==> board.notes == old(board.notes) && board.error == old(board.error)
                              && board.isModalOpen == old(board.isModalOpen)
    ensures request.Some? ==> request.value == CreateRequest(modal.content, modal.color, positionX, positionY)
    ensures request.Some? && outcome.Created? ==>
      board.notes == NoteList.Prepend(old(board.notes), outcome.note) && !board.isModalOpen
    ensures request.Some? && outcome.CreateFailed? ==>
      board.notes == old(board.notes) && board.isModalOpen == old(board.isModalOpen)
      && board.error == Some(AddErrorMessage)
  {
    var call := modal.HandleSubmit();
    if call.None? {
      return None;
    }
    var r := board.HandleAddNote(call.value.content, call.value.color, positionX, positionY, outcome);
    request := Some(r);
  }

  /**
   * A note's release wired to `handlePositionUpdate`: a release that ends a drag sends one
   * request with the note's final position; the board's state is untouched.
   */
  method ReleaseNote(board: Board, note: NoteDrag.StickyNote, succeeded: bool) returns (request: Option<PositionRequest>)
    modifies note
    ensures note.State() == NoteDrag.Step(note.id, old(note.State()), NoteDrag.Up)
    ensures request.Some? <==> old(note.isDragging)
    ensures request.Some? ==> request.value == PositionRequest(note.id, note.position.x, note.position.y)
  {
    var wasDragging := note.isDragging;
    note.HandleMouseUp();
    if wasDragging {
      var update := note.updates[|note.updates| - 1];
      var r := board.HandlePositionUpdate(update.id, update.x, update.y, succeeded);
      request := Some(r);
    } else {
      request := None;
    }
  }
}
