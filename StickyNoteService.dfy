/**
 * The server's note service (server/src/services/StickyNoteService.ts) over an abstract
 * `sticky_notes` table. The table is an in-memory sequence of rows in insertion order with a
 * serial id counter; the timestamp the database assigns to `created_at` is a parameter.
 */
module StickyNoteService {
  import opened Wrappers
  import opened Text

  /** A row of `sticky_notes` as the service returns it (server/src/models/StickyNote.ts). */
  datatype StoredNote = StoredNote(id: int, content: string, color: string, createdAt: int)

  /** The request body a create carries. */
  datatype CreateNoteDto = CreateNoteDto(content: string, color: string)

  const EmptyContentError: string := "Note content cannot be empty"

  /** The service's rejection test, `!content || content.trim() === ''`. */
  predicate IsEmptyContent(content: string)
  {
    content == "" || IsBlank(content)
  }

  /** Content is rejected exactly when it is empty or consists of whitespace only. */
  lemma EmptyContentIffAllWhitespace(content: string)
    ensures IsEmptyContent(content) <==> forall i :: 0 <= i < |content| ==> IsWhitespace(content[i])
  {
    BlankIffAllWhitespace(content);
  }

  /** `ORDER BY created_at DESC`. */
  ghost predicate NewestFirstOrder(s: seq<StoredNote>)
  {
    forall i, j :: 0 <= i < j < |s| ==> s[i].createdAt >= s[j].createdAt
  }

  /** Places `n` in a newest-first list, in front of every note that is not newer. */
  function InsertByDate(n: StoredNote, s: seq<StoredNote>): (r: seq<StoredNote>)
    requires NewestFirstOrder(s)
    ensures |r| == |s| + 1
    ensures r[0] == n || (s != [] && r[0] == s[0])
    ensures NewestFirstOrder(r)
    ensures multiset(r) == multiset(s) + multiset{n}
    ensures s == [] || n.createdAt >= s[0].createdAt ==> r == [n] + s
  {
    if s == [] || n.createdAt >= s[0].createdAt then [n] + s
    else
      var t := InsertByDate(n, s[1..]);
      assert s == [s[0]] + s[1..];
      assert t[0].createdAt <= s[0].createdAt;
      [s[0]] + t
  }

  /**
   * The rows as the ordered query returns them: a reordering of all rows, newest first.
   * Rows with equal timestamps, whose relative order the database leaves open, come out
   * latest-inserted first.
   */
  function NewestFirst(rows: seq<StoredNote>): (r: seq<StoredNote>)
    ensures NewestFirstOrder(r)
    ensures multiset(r) == multiset(rows)
    ensures |r| == |rows| && (rows != [] ==> r[0] in rows)
  {
    if rows == [] then []
    else
      var init, last := rows[..|rows| - 1], rows[|rows| - 1];
      assert rows == init + [last];
      var r := InsertByDate(last, NewestFirst(init));
      assert r[0] in rows by {
        if r[0] != last {
          assert r[0] in NewestFirst(init);
          assert r[0] in multiset(init);
        }
      }
      r
  }

  /**
   * Under the model's tie order (later insert first), a note created with a timestamp no
   * earlier than any stored one is listed first by `NewestFirst`, ahead of every earlier row.
   * `StrictlyNewestListedFirst` states what holds for any order the database may choose.
   */
  lemma CreatedNoteListedFirst(rows: seq<StoredNote>, n: StoredNote)
    requires forall x :: x in rows ==> x.createdAt <= n.createdAt
    ensures NewestFirst(rows + [n]) == [n] + NewestFirst(rows)
  {
    assert (rows + [n])[..|rows|] == rows;
  }

  /**
   * A note stamped strictly later than every stored note comes first in every newest-first
   * reordering of the table, whatever order the database gives to rows with equal stamps.
   */
  lemma StrictlyNewestListedFirst(rows: seq<StoredNote>, n: StoredNote, r: seq<StoredNote>)
    requires forall x :: x in rows ==> x.createdAt < n.createdAt
    requires NewestFirstOrder(r) && multiset(r) == multiset(rows + [n])
    ensures r != [] && r[0] == n
  {
    assert n in multiset(rows + [n]);
    assert n in r;
    var k :| 0 <= k < |r| && r[k] == n;
    assert r[0].createdAt >= n.createdAt by {
      if k > 0 {
        assert r[0].createdAt >= r[k].createdAt;
      }
    }
    assert r[0] in multiset(rows + [n]);
    assert r[0] in rows + [n];
  }

  /** The `sticky_notes` table. */
  class NoteStore {
    var rows: seq<StoredNote>
    var nextId: int

    /** Ids are handed out in increasing order and the counter is ahead of every stored id. */
    ghost predicate Valid()
      reads this
    {
      && (forall i, j :: 0 <= i < j < |rows| ==> rows[i].id < rows[j].id)
      && (forall i :: 0 <= i < |rows| ==> rows[i].id < nextId)
    }

    /** An empty table whose serial id starts at 1. */
    constructor ()
      ensures Valid() && rows == [] && nextId == 1
    {
      rows := [];
      nextId := 1;
    }

    /** `INSERT ... RETURNING *`: stores a row under a fresh id, stamped `now`. */
    method Insert(content: string, color: string, now: int) returns (note: StoredNote)
      requires Valid()
      modifies this
      ensures Valid()
      ensures note == StoredNote(old(nextId), content, color, now)
      ensures rows == old(rows) + [note]
      ensures forall x :: x in old(rows) ==> x.id != note.id
      ensures nextId > old(nextId)
    {
      note := StoredNote(nextId, content, color, now);
      rows := rows + [note];
      nextId := nextId + 1;
    }

    /** `SELECT * ... ORDER BY created_at DESC`. */
    method SelectNewestFirst() returns (notes: seq<StoredNote>)
      ensures notes == NewestFirst(rows)
    {
      notes := NewestFirst(rows);
    }
  }

  /** `StickyNoteService`, against its table. */
  class NoteService {
    const db: NoteStore

    constructor (db: NoteStore)
      ensures this.db == db
    {
      this.db := db;
    }

    /** `getAllNotes`: every stored note, each once, newest first. */
    method GetAllNotes() returns (notes: seq<StoredNote>)
      ensures multiset(notes) == multiset(db.rows)
      ensures NewestFirstOrder(notes)
    {
      notes := db.SelectNewestFirst();
    }

    /**
     * `createNote`: empty or whitespace-only content is rejected before the table is touched;
     * other content is stored verbatim with the given colour under a fresh id, and the stored
     * row is returned.
     */
    method CreateNote(noteData: CreateNoteDto, now: int) returns (r: Result<StoredNote, string>)
      requires db.Valid()
      modifies db
      ensures db.Valid()
      ensures r.Failure? <==> IsEmptyContent(noteData.content)
      ensures r.Failure? ==> r.error == EmptyContentError && db.rows == old(db.rows) && db.nextId == old(db.nextId)
      ensures r.Success? ==>
        && r.value.content == noteData.content && r.value.color == noteData.color
        && r.value.createdAt == now
        && db.rows == old(db.rows) + [r.value]
        && (forall x :: x in old(db.rows) ==> x.id != r.value.id)
    {
      var content, color := noteData.content, noteData.color;
      if content == "" || Trim(content) == "" {
        return Failure(EmptyContentError);
      }
      var row := db.Insert(content, color, now);
      return Success(row);
    }
  }
}
