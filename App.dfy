/**
 * The whiteboard app's note list (client/src/App.tsx) and its wiring to the note creator.
 * Network responses are inputs.
 */
module App {
  import opened Wrappers
  import opened Text
  import opened NoteModels
  import NoteList
  import NoteCreator

  /** A note as the app receives it (client/src/models/StickyNote.ts). */
  datatype ClientNote = ClientNote(id: int, content: string, color: string, createdAt: string)

  datatype FetchOutcome = Fetched(data: seq<ClientNote>) | FetchFailed

  datatype CreateOutcome = Created(note: ClientNote) | CreateFailed

  const FetchErrorMessage: string := "Failed to load notes. Please refresh the page."

  class AppState {
    var notes: seq<ClientNote>
    var isLoading: bool
    var error: Option<string>

    /** First render: no notes, loading, no error. */
    constructor ()
      ensures notes == [] && isLoading && error.None?
    {
      notes := [];
      isLoading := true;
      error := None;
    }

    /**
     * `fetchNotes`: a delivered list replaces the notes and clears the error; a failure sets
     * the error and keeps the notes. Loading ends either way.
     */
    method FetchNotes(outcome: FetchOutcome)
      modifies this
      ensures !isLoading
      ensures outcome.Fetched? ==> notes == outcome.data && error.None?
      ensures outcome.FetchFailed? ==> notes == old(notes) && error == Some(FetchErrorMessage)
    {
      match outcome {
        case Fetched(data) =>
          notes := data;
          error := None;
        case FetchFailed =>
          error := Some(FetchErrorMessage);
      }
      isLoading := false;
    }

    /**
     * `handleAddNote`: a created note goes in front of the list and the promise resolves; a
     * failure keeps the list and rejects the promise. The error banner and the loading flag
     * are never touched.
     */
    method HandleAddNote(noteData: CreateNoteDto, outcome: CreateOutcome) returns (resolved: bool)
      modifies this
      ensures resolved <==> outcome.Created?
      ensures error == old(error) && isLoading == old(isLoading)
      ensures outcome.Created? ==> notes == NoteList.Prepend(old(notes), outcome.note)
      ensures outcome.CreateFailed? ==> notes == old(notes)
    {
      match outcome {
        case Created(newNote) =>
          notes := NoteList.Prepend(notes, newNote);
          resolved := true;
        case CreateFailed =>
          resolved := false;
      }
    }
  }

  /**
   * The creator's submit wired to `handleAddNote`: its promise outcome is the app's. Blank
   * content touches neither; a created note is listed first and the creator is cleared and
   * collapsed; a failure leaves the list and the creator's content and expansion as they were.
   */
  method SubmitFromCreator(app: AppState, creator: NoteCreator.NoteCreatorForm, outcome: CreateOutcome)
    returns (call: Option<CreateNoteDto>)
    requires creator.Valid() && !creator.isSubmitting
    modifies app, creator
    ensures creator.Valid() && !creator.isSubmitting && creator.color == old(creator.color)
    ensures app.error == old(app.error) && app.isLoading == old(app.isLoading)
    ensures call.None? <==> IsBlank(old(creator.content))
    ensures call.None? ==>
      app.notes == old(app.notes)
      && creator.content == old(creator.content) && creator.isExpanded == old(creator.isExpanded)
    ensures call.Some? ==> call.value == CreateNoteDto(old(creator.content), old(creator.color))
    ensures call.Some? && outcome.Created? ==>
      app.notes == NoteList.Prepend(old(app.notes), outcome.note)
      && creator.content == "" && !creator.isExpanded
    ensures call.Some? && outcome.CreateFailed? ==>
      app.notes == old(app.notes)
      && creator.content == old(creator.content) && creator.isExpanded == old(creator.isExpanded)
  {
    call := creator.BeginSubmit();
    if call.Some? {
      var resolved := app.HandleAddNote(call.value, outcome);
      creator.FinishSubmit(resolved);
    }
  }
}
