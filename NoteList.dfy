/**
 * The list update both boards perform when a create succeeds
 * (client/src/components/StickyBoard.tsx:70, client/src/App.tsx:49).
 *
 * As written, the handler computes `[newNote, ...notes]` from the `notes` its closure captured
 * when the request was sent. If the list changed while the request was in flight (the initial
 * fetch completed, or an earlier create completed), the notes added meanwhile disappear from
 * the view. `PrependToCaptured` is that behaviour; `Prepend` is the intended one, and the
 * board models use it.
 */
module NoteList {

  /** The update as written: the created note in front of the list captured at send time. */
  function PrependToCaptured<T>(captured: seq<T>, current: seq<T>, created: T): (r: seq<T>)
    ensures |r| == |captured| + 1 && r[0] == created && r[1..] == captured
  {
    [created] + captured
  }

  /**
   * A note present in the current list but not in the captured one, other than the created
   * note itself, is missing after the update as written.
   */
  lemma StaleCaptureDropsNote<T>(captured: seq<T>, current: seq<T>, created: T, lost: T)
    requires lost in current && lost !in captured && lost != created
    ensures lost in current && lost !in PrependToCaptured(captured, current, created)
  {
  }

  /**
   * The concrete case: a create is sent before the first fetch completes (captured list empty),
   * the fetch then delivers note 1, the create returns note 2. The board ends up with note 2
   * only.
   */
  lemma CreateDuringFetchLosesFetchedNotes()
    ensures PrependToCaptured<int>([], [1], 2) == [2]
  {
  }

  /** The intended update: the created note in front of the current list. */
  function Prepend<T>(current: seq<T>, created: T): (r: seq<T>)
    ensures |r| == |current| + 1
    ensures r[0] == created
    ensures forall i :: 0 <= i < |current| ==> r[i + 1] == current[i]
  {
    [created] + current
  }

  /** The intended update keeps every note of the current list, in order, whatever was captured. */
  lemma PrependKeepsCurrentNotes<T>(current: seq<T>, created: T)
    ensures Prepend(current, created)[1..] == current
    ensures forall x :: x in current ==> x in Prepend(current, created)
  {
  }

  /** Without an interleaved change the two coincide: the model's single-step handlers use either. */
  lemma NoInterleavingNoLoss<T>(notes: seq<T>, created: T)
    ensures PrependToCaptured(notes, notes, created) == Prepend(notes, created)
  {
  }
}
