/**
 * The plain add-note form (client/src/components/AddNoteForm.tsx). As in the note creator,
 * `handleSubmit` is split at its await into `BeginSubmit` and `FinishSubmit`.
 */
module AddNoteForm {
  import opened Wrappers
  import opened Text
  import opened NoteModels

  class NoteForm {
    var content: string
    var color: string
    var isSubmitting: bool

    /** The colour is always one of `COLORS`. */
    ghost predicate Valid()
      reads this
    {
      color in Colors
    }

    /** Empty, not submitting, with the first colour of `COLORS`. */
    constructor ()
      ensures Valid()
      ensures content == "" && color == Colors[0] && !isSubmitting
    {
      content := "";
      color := Colors[0];
      isSubmitting := false;
    }

    /** The text area's `onChange`; the text area is disabled while submitting. */
    method ChangeContent(newContent: string)
      requires Valid() && !isSubmitting
      modifies this
      ensures Valid()
      ensures content == newContent && color == old(color) && isSubmitting == old(isSubmitting)
    {
      content := newContent;
    }

    /** Clicking the swatch at `index` of `COLORS`. */
    method SelectColor(index: nat)
      requires Valid() && index < |Colors|
      modifies this
      ensures Valid()
      ensures color == Colors[index] && content == old(content) && isSubmitting == old(isSubmitting)
    {
      color := Colors[index];
    }

    /**
     * `handleSubmit` up to the await. Blank content is refused (with an alert): no call, no
     * change. Otherwise the form is marked submitting and `onAddNote` receives the untrimmed
     * content and the current colour. The submit button is disabled while submitting.
     */
    method BeginSubmit() returns (call: Option<CreateNoteDto>)
      requires Valid() && !isSubmitting
      modifies this
      ensures Valid()
      ensures call.None? <==> IsBlank(old(content))
      ensures content == old(content) && color == old(color)
      ensures isSubmitting <==> call.Some?
      ensures call.Some? ==> call.value == CreateNoteDto(old(content), old(color))
    {
      if Trim(content) == "" {
        return None;
      }
      isSubmitting := true;
      call := Some(CreateNoteDto(content, color));
    }

    /**
     * The continuation after `await onAddNote(...)`: on success clear the content, on failure
     * keep it; stop submitting either way. The colour is kept for the next note.
     */
    method FinishSubmit(succeeded: bool)
      requires Valid() && isSubmitting
      modifies this
      ensures Valid()
      ensures !isSubmitting && color == old(color)
      ensures content == if succeeded then "" else old(content)
    {
      if succeeded {
        content := "";
      }
      isSubmitting := false;
    }

    /** A whole submission whose promise settles with `succeeded`. */
    method Submit(succeeded: bool) returns (call: Option<CreateNoteDto>)
      requires Valid() && !isSubmitting
      modifies this
      ensures Valid() && !isSubmitting && color == old(color)
      ensures call.None? <==> IsBlank(old(content))
      ensures call.Some? ==> call.value == CreateNoteDto(old(content), old(color))
      ensures content == if call.Some? && succeeded then "" else old(content)
    {
      call := BeginSubmit();
      if call.Some? {
        FinishSubmit(succeeded);
      }
    }
  }
}
