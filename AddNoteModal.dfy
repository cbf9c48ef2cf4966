/** The add-note dialog of the board (client/src/components/AddNoteModal.tsx). */
module AddNoteModal {
  import opened Wrappers
  import opened Text

  /** `MAX_CHAR_COUNT`. */
  const MaxCharCount: nat := 120

  /** The ids of the dialog's colour swatches, in display order. */
  const ColorIds: seq<string> := ["yellow", "green", "blue", "pink", "purple"]

  /** One call of the `onAdd(content, color)` callback. */
  datatype AddCall = AddCall(content: string, color: string)

  class NoteModal {
    var content: string
    var color: string

    /** The content never exceeds the cap (in UTF-16 code units) and the colour is a swatch id. */
    ghost predicate Valid()
      reads this
    {
      Utf16Length(content) <= MaxCharCount && color in ColorIds
    }

    /** Opening the dialog: empty content, the yellow swatch. */
    constructor ()
      ensures Valid()
      ensures content == "" && color == "yellow" && color == ColorIds[0]
    {
      content := "";
      color := "yellow";
    }

    /**
     * `handleContentChange`: an edit that would exceed the cap is refused as a whole; the
     * content is never truncated.
     */
    method HandleContentChange(newContent: string)
      requires Valid()
      modifies this
      ensures Valid()
      ensures color == old(color)
      ensures Utf16Length(newContent) <= MaxCharCount ==> content == newContent
      ensures Utf16Length(newContent) > MaxCharCount ==> content == old(content)
    {
      if Utf16Length(newContent) <= MaxCharCount {
        content := newContent;
      }
    }

    /** Clicking the swatch at `index`: the colour becomes that swatch's id. */
    method SelectColor(index: nat)
      requires Valid()
      requires index < |ColorIds|
      modifies this
      ensures Valid()
      ensures color == ColorIds[index] && content == old(content)
    {
      color := ColorIds[index];
    }

    /** `remainingChars`: what the counter under the text area shows. */
    function RemainingChars(): (r: int)
      requires Valid()
      reads this
      ensures 0 <= r <= MaxCharCount
      ensures r + Utf16Length(content) == MaxCharCount
      ensures content == "" ==> r == MaxCharCount
    {
      MaxCharCount - Utf16Length(content)
    }

    /** The Add Note button is enabled exactly when some character is not whitespace. */
    function AddEnabled(): (r: bool)
      reads this
      ensures r <==> exists i :: 0 <= i < |content| && !IsWhitespace(content[i])
    {
      BlankIffAllWhitespace(content);
      Trim(content) != []
    }

    /**
     * `handleSubmit`: calls `onAdd` with the untrimmed content and the current colour exactly
     * when the content is not blank. The dialog's own state does not change.
     */
    method HandleSubmit() returns (call: Option<AddCall>)
      ensures call.Some? <==> exists i :: 0 <= i < |content| && !IsWhitespace(content[i])
      ensures call.Some? ==> call.value == AddCall(content, color)
    {
      BlankIffAllWhitespace(content);
      if Trim(content) != [] {
        call := Some(AddCall(content, color));
      } else {
        call := None;
      }
    }
  }
}
