/** The client's shared note vocabulary (client/src/models/StickyNote.ts). */
module NoteModels {

  /** `COLORS`: the eight background colours offered by the note creator and form. */
  const Colors: seq<string> := [
    "#ffadad", "#ffd6a5", "#fdffb6", "#caffbf", "#9bf6ff", "#a0c4ff", "#bdb2ff", "#ffc6ff"
  ]

  /** `CreateStickyNoteDto`: what a creator hands to its `onAddNote` callback. */
  datatype CreateNoteDto = CreateNoteDto(content: string, color: string)
}
