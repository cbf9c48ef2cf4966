/**
 * The expandable note creator of the whiteboard app (client/src/components/NoteCreator.tsx).
 *
 * `handleSubmit` awaits the `onAddNote` promise, so it is split at the await: `BeginSubmit`
 * runs up to the call (and issues it), `FinishSubmit` runs the continuation once the promise
 * has settled, with the outcome as input. `Submit` is the two back to back.
 */
module NoteCreator {
  import opened Wrappers
  import opened Text
  import opened NoteModels

  class NoteCreatorForm {
    var content: string
    var color: string
    var isExpanded: bool
    var isSubmitting: bool

    /** The colour is always one of `COLORS`. */
    ghost predicate Valid()
      reads this
    {
      color in Colors
    }

    /** Collapsed, empty, not submitting, with the first colour of `COLORS`. */
    constructor ()
      ensures Valid()
      ensures content == "" && color == Colors[0] && !isExpanded && !isSubmitting
    {
      content := "";
      color := Colors[0];
      isExpanded := false;
      isSubmitting := false;
    }

    /** `handleExpand`: open the form; nothing else changes. */
    method HandleExpand()
      requires Valid()
      modifies this
      ensures Valid()
      ensures isExpanded
      ensures content == old(content) && color == old(color) && isSubmitting == old(isSubmitting)
    {
      isExpanded := true;
    }

    /** The text area's `onChange`; the text area is disabled while submitting. */
    method ChangeContent(newContent: string)
      requires Valid() && !isSubmitting
      modifies this
      ensures Valid()
      ensures content == newContent
      ensures color == old(color) && isExpanded == old(isExpanded) && isSubmitting == old(isSubmitting)
    {
      content := newContent;
    }

    /** `handleColorChange` from the swatch at `index` of `COLORS`. */
    method HandleColorChange(index: nat)
      requires Valid() && index < |Colors|
      modifies this
      ensures Valid()
      ensures color == Colors[index]
      ensures content == old(content) && isExpanded == old(isExpanded) && isSubmitting == old(isSubmitting)
    {
      color := Colors[index];
    }

    /** The Cancel button (disabled while submitting): collapse, keeping the content. */
    method Cancel()
      requires Valid() && !isSubmitting
      modifies this
      ensures Valid()
      ensures !isExpanded
      ensures content == old(content) && color == old(color) && isSubmitting == old(isSubmitting)
    {
      isExpanded := false;
    }

    /** The Add button is enabled only when not submitting and some character is not whitespace. */
    function AddEnabled(): (r: bool)
      reads this
      ensures r <==> !isSubmitting && exists i :: 0 <= i < |content| && !IsWhitespace(content[i])
    {
      BlankIffAllWhitespace(content);
      !(isSubmitting || Trim(content) == "")
    }

    /**
     * `handleSubmit` up to the await. Blank content returns at once: no call, no change.
     * Otherwise the form is marked submitting and `onAddNote` receives the untrimmed content
     * and the current colour. The only trigger, the Add button, is disabled while submitting.
     */
    method BeginSubmit() returns (call: Option<CreateNoteDto>)
      requires Valid() && !isSubmitting
      modifies this
      ensures Valid()
      ensures call.None? <==> IsBlank(old(content))
      ensures call.None? ==> content == old(content) && color == old(color)
                             && isExpanded == old(isExpanded) && !isSubmitting
      ensures call.Some? ==> call.value == CreateNoteDto(old(content), old(color))
                             && isSubmitting
                             && content == old(content) && color == old(color) && isExpanded == old(isExpanded)
    {
      if Trim(content) == "" {
        return None;
      }
      isSubmitting := true;
      call := Some(CreateNoteDto(content, color));
    }

    /**
     * The continuation after `await onAddNote(...)`: on success clear the content and collapse;
     * on failure keep both; in either case stop submitting (`finally`). The colour is kept.
     */
    method FinishSubmit(succeeded: bool)
      requires Valid() && isSubmitting
      modifies this
      ensures Valid()
      ensures !isSubmitting && color == old(color)
      ensures succeeded ==> content == "" && !isExpanded
      ensures !succeeded ==> content == old(content) && isExpanded == old(isExpanded)
    {
      if succeeded {
        content := "";
        isExpanded := false;
      }
      isSubmitting := false;
    }

    /** A whole submission whose promise settles with `succeeded`. */
    method Submit(succeeded: bool) returns (call: Option<CreateNoteDto>)
      requires Valid() && !isSubmitting
      modifies this
      ensures Valid() && !isSubmitting && color == old(color)
      ensures call.None? <==> IsBlank(old(content))
      ensures call.None? ==> content == old(content) && isExpanded == old(isExpanded)
      ensures call.Some? ==> call.value == CreateNoteDto(old(content), old(color))
      ensures call.Some? && succeeded ==> content == "" && !isExpanded
      ensures call.Some? && !succeeded ==> content == old(content) && isExpanded == old(isExpanded)
    {
      call := BeginSubmit();
      if call.Some? {
        FinishSubmit(succeeded);
      }
    }
  }
}
