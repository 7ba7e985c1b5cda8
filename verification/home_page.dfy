/** `HomePage`: the local draft-and-list note board and its logout button,
    as state transitions. The clock (`Date.now()`) and the printed date
    (`new Date().toLocaleString()`) are inputs. */
module HomePage {
  import opened Js
  import opened LocalStorage
  import AuthResponseModel

  /** A note on the board: `{ id, content, createdAt }`. */
  datatype LocalNote = LocalNote(id: int, content: string, createdAt: string)

  /** The component's state: the textarea draft and the notes, newest first. */
  datatype Board = Board(noteText: string, notes: seq<LocalNote>)

  const LoginPath := "/login"

  /** `handleSaveNote()`: a draft that trims to '' changes nothing; any other
      draft becomes a new note, kept untrimmed, in front of the existing
      ones, and the draft is cleared. */
  function SaveNote(b: Board, now: int, stamp: string): (r: Board)
    ensures AllSpace(b.noteText) ==> r == b
    ensures !AllSpace(b.noteText) ==>
              && r.noteText == ""
              && |r.notes| == |b.notes| + 1
              && r.notes[0] == LocalNote(now, b.noteText, stamp)
              && r.notes[1..] == b.notes
  {
    if Trim(b.noteText) == "" then b
    else Board("", [LocalNote(now, b.noteText, stamp)] + b.notes)
  }

  /** `notes.filter(note => note.id !== id)`. */
  function Without(notes: seq<LocalNote>, id: int): (r: seq<LocalNote>)
    ensures |r| <= |notes|
    ensures forall n :: n in r <==> n in notes && n.id != id
  {
    if |notes| == 0 then []
    else (if notes[0].id != id then [notes[0]] else []) + Without(notes[1..], id)
  }

  /** `handleDeleteNote(id)`: the draft is untouched. */
  function DeleteNote(b: Board, id: int): (r: Board)
    ensures r.noteText == b.noteText
    ensures forall n :: n in r.notes <==> n in b.notes && n.id != id
  {
    Board(b.noteText, Without(b.notes, id))
  }

  /** `handleKeyPress(e)`: only Enter with Ctrl held saves. */
  function KeyPress(b: Board, key: string, ctrlKey: bool, now: int, stamp: string): (r: Board)
    ensures key == "Enter" && ctrlKey ==> r == SaveNote(b, now, stamp)
    ensures !(key == "Enter" && ctrlKey) ==> r == b
  {
    if key == "Enter" && ctrlKey then SaveNote(b, now, stamp) else b
  }

  /** `handleLogout()`: removes the flag key and nothing else, then
      navigates to the login page. */
  function Logout(st: Storage): (r: (Storage, string))
    ensures r.0.Keys == st.Keys - {AuthResponseModel.FlagKey}
    ensures forall k :: k in st && k != AuthResponseModel.FlagKey ==> r.0[k] == st[k]
    ensures r.1 == LoginPath
  {
    (RemoveItem(st, AuthResponseModel.FlagKey), LoginPath)
  }

  // ---------------------------------------------------------------------------
  // Properties of the board

  /** Deleting distributes over concatenation, so the notes kept stay in
      their original relative order. */
  lemma {:induction false} WithoutAppend(a: seq<LocalNote>, b: seq<LocalNote>, id: int)
    ensures Without(a + b, id) == Without(a, id) + Without(b, id)
  {
    if |a| == 0 {
      assert a + b == b;
    } else {
      assert (a + b)[0] == a[0];
      assert (a + b)[1..] == a[1..] + b;
      WithoutAppend(a[1..], b, id);
    }
  }

  /** Deleting an id that no note carries changes nothing. */
  lemma {:induction false} WithoutAbsentId(notes: seq<LocalNote>, id: int)
    requires forall i :: 0 <= i < |notes| ==> notes[i].id != id
    ensures Without(notes, id) == notes
  {
    if |notes| > 0 {
      WithoutAbsentId(notes[1..], id);
      assert [notes[0]] + notes[1..] == notes;
    }
  }

  /** Deleting twice is deleting once. */
  lemma WithoutIdempotent(notes: seq<LocalNote>, id: int)
    ensures Without(Without(notes, id), id) == Without(notes, id)
  {
    var r := Without(notes, id);
    forall i | 0 <= i < |r|
      ensures r[i].id != id
    {
      assert r[i] in r;
    }
    WithoutAbsentId(r, id);
  }

  /** A saved note can be deleted again by its id, which removes it and
      leaves the earlier board's notes with other ids in order, provided the
      clock value is fresh. */
  lemma SaveThenDelete(b: Board, now: int, stamp: string)
    requires !AllSpace(b.noteText)
    requires forall i :: 0 <= i < |b.notes| ==> b.notes[i].id != now
    ensures DeleteNote(SaveNote(b, now, stamp), now) == Board("", b.notes)
  {
    var saved := SaveNote(b, now, stamp);
    assert saved.notes == [LocalNote(now, b.noteText, stamp)] + b.notes;
    WithoutAppend([LocalNote(now, b.noteText, stamp)], b.notes, now);
    WithoutAbsentId(b.notes, now);
    assert Without([LocalNote(now, b.noteText, stamp)], now) == [];
  }
}
