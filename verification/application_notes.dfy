/** The notes panel of src/components/admin/ApplicationNotes.jsx: the notes of
    one application, newest first, and the handlers that create, edit, pin
    and delete them after the backend's reply. `created_at` is read as an
    integer timestamp. */
module ApplicationNotes {
  import opened JsValue
  import opened JsObject
  import opened JsText
  import opened Records

  const LoadFailed := "Ошибка загрузки заметок"
  const EmptyNote := "Введите текст заметки"
  const Created := "Заметка успешно добавлена"
  const CreateFailed := "Ошибка создания заметки"
  const Updated := "Заметка успешно обновлена"
  const UpdateFailed := "Ошибка обновления заметки"
  const Deleted := "Заметка успешно удалена"
  const DeleteFailed := "Ошибка удаления заметки"
  const Pinned := "Заметка закреплена"
  const Unpinned := "Заметка откреплена"
  const PinFailed := "Ошибка изменения статуса закрепления"

  /** The note's `created_at` as a timestamp; anything that is not a number
      counts as 0. */
  function CreatedAt(note: Record): int {
    var v := Prop(note, "created_at");
    if v.Num? then v.n else 0
  }

  /** Newest first: `created_at` never increases along the list. */
  predicate NewestFirst(notes: seq<Record>) {
    forall i, j :: 0 <= i < j < |notes| ==> CreatedAt(notes[i]) >= CreatedAt(notes[j])
  }

  /** Places `x` before the first note that is not newer than it. */
  function Insert(x: Record, s: seq<Record>): (r: seq<Record>)
    ensures multiset(r) == multiset(s) + multiset{x}
    ensures |r| == |s| + 1
  {
    if s == [] || CreatedAt(s[0]) <= CreatedAt(x) then [x] + s
    else
      assert s == [s[0]] + s[1..];
      [s[0]] + Insert(x, s[1..])
  }

  /** A bound on every timestamp survives an insertion under it. */
  lemma {:induction false} InsertBound(x: Record, s: seq<Record>, b: int)
    requires CreatedAt(x) <= b
    requires forall k :: 0 <= k < |s| ==> CreatedAt(s[k]) <= b
    ensures forall k :: 0 <= k < |Insert(x, s)| ==> CreatedAt(Insert(x, s)[k]) <= b
  {
    if s != [] && CreatedAt(s[0]) > CreatedAt(x) {
      InsertBound(x, s[1..], b);
    }
  }

  /** Inserting into a newest-first list keeps it newest first. */
  lemma {:induction false} InsertKeepsOrder(x: Record, s: seq<Record>)
    requires NewestFirst(s)
    ensures NewestFirst(Insert(x, s))
  {
    if s != [] && CreatedAt(s[0]) > CreatedAt(x) {
      var tail := s[1..];
      assert NewestFirst(tail);
      InsertKeepsOrder(x, tail);
      assert forall k :: 0 <= k < |tail| ==> CreatedAt(tail[k]) <= CreatedAt(s[0]);
      InsertBound(x, tail, CreatedAt(s[0]));
      PrependNewestKeepsOrder(s[0], Insert(x, tail));
    } else if s != [] {
      PrependNewestKeepsOrder(x, s);
    }
  }

  /** The loaded notes, newest first: the same notes, reordered. */
  function SortNewestFirst(notes: seq<Record>): (r: seq<Record>)
    ensures NewestFirst(r)
    ensures multiset(r) == multiset(notes)
    ensures |r| == |notes|
  {
    if notes == [] then []
    else
      assert notes == [notes[0]] + notes[1..];
      var sortedTail := SortNewestFirst(notes[1..]);
      InsertKeepsOrder(notes[0], sortedTail);
      Insert(notes[0], sortedTail)
  }

  /** Notes already newest first are left in place. */
  lemma {:induction false} SortedInputUnchanged(notes: seq<Record>)
    requires NewestFirst(notes)
    ensures SortNewestFirst(notes) == notes
  {
    if notes != [] {
      var rest := notes[1..];
      assert NewestFirst(rest);
      SortedInputUnchanged(rest);
      if rest != [] {
        assert CreatedAt(rest[0]) <= CreatedAt(notes[0]);
      }
      assert notes == [notes[0]] + rest;
    }
  }

  /** A new note that is at least as new as every note keeps the list newest
      first when it is put in front. */
  lemma {:induction false} PrependNewestKeepsOrder(note: Record, notes: seq<Record>)
    requires NewestFirst(notes)
    requires forall i :: 0 <= i < |notes| ==> CreatedAt(notes[i]) <= CreatedAt(note)
    ensures NewestFirst([note] + notes)
  {
    var r := [note] + notes;
    forall i, j | 0 <= i < j < |r| ensures CreatedAt(r[i]) >= CreatedAt(r[j]) {
      assert r[j] == notes[j - 1];
      if i > 0 { assert r[i] == notes[i - 1]; }
    }
  }

  /** The body of the create request: `{content, noteType}`. */
  function NoteRequest(content: string, noteType: string): Record {
    [("content", Str(content)), ("noteType", Str(noteType))]
  }

  /** The roles allowed to edit, pin and delete notes. */
  predicate CanEditNotes(user: Record) {
    var role := Prop(user, "role");
    role == Str("manager") || role == Str("admin") || role == Str("super_admin")
  }

  class NotesPanel {
    const user: Record
    var notes: seq<Record>
    var newNote: string
    var loading: bool
    var saving: bool
    /** `null` is `Null`. */
    var expandedNoteId: Value
    var selectedNoteType: string

    constructor(user: Record)
      ensures this.user == user && notes == [] && newNote == ""
      ensures loading && !saving && expandedNoteId == Null && selectedNoteType == "comment"
    {
      this.user := user;
      notes := [];
      newNote := "";
      loading := true;
      saving := false;
      expandedNoteId := Null;
      selectedNoteType := "comment";
    }

    /** `loadNotes`: success stores the reply's notes newest first; a failure
        keeps the list and shows an error toast. */
    method LoadNotes(reply: Reply<seq<Record>>) returns (toasts: seq<ToastRequest>)
      modifies this
      ensures !loading
      ensures reply.Ok? ==> notes == SortNewestFirst(reply.data) && toasts == []
      ensures reply.Ok? ==> NewestFirst(notes) && multiset(notes) == multiset(reply.data)
      ensures !reply.Ok? ==> notes == old(notes) && toasts == [FailureToast(reply, LoadFailed)]
      ensures newNote == old(newNote) && saving == old(saving) && expandedNoteId == old(expandedNoteId)
      ensures selectedNoteType == old(selectedNoteType)
    {
      loading := true;
      if reply.Ok? {
        notes := SortNewestFirst(reply.data);
        toasts := [];
      } else {
        toasts := [FailureToast(reply, LoadFailed)];
      }
      loading := false;
    }

    /** `handleCreateNote`: blank content shows a toast and sends nothing;
        otherwise the request carries the content and the note type, and a
        success puts the new note in front and clears the input. */
    method CreateNote(reply: Reply<Record>) returns (request: Option<Record>, toasts: seq<ToastRequest>)
      modifies this
      ensures IsBlank(old(newNote)) ==>
                request == None && toasts == [ToastRequest(EmptyNote, "error")]
                && notes == old(notes) && newNote == old(newNote) && saving == old(saving)
      ensures !IsBlank(old(newNote)) ==>
                request == Some(NoteRequest(old(newNote), selectedNoteType)) && !saving
      ensures !IsBlank(old(newNote)) && reply.Ok? ==>
                notes == [reply.data] + old(notes) && newNote == ""
                && toasts == [ToastRequest(Created, "success")]
      ensures !IsBlank(old(newNote)) && !reply.Ok? ==>
                notes == old(notes) && newNote == old(newNote)
                && toasts == [FailureToast(reply, CreateFailed)]
      ensures loading == old(loading) && expandedNoteId == old(expandedNoteId)
      ensures selectedNoteType == old(selectedNoteType)
    {
      if IsBlank(newNote) {
        request := None;
        toasts := [ToastRequest(EmptyNote, "error")];
        return;
      }
      saving := true;
      request := Some(NoteRequest(newNote, selectedNoteType));
      if reply.Ok? {
        newNote := "";
        notes := [reply.data] + notes;
        toasts := [ToastRequest(Created, "success")];
      } else {
        toasts := [FailureToast(reply, CreateFailed)];
      }
      saving := false;
    }

    /** `handleUpdateNote(noteId, content)`: success merges the reply's note
        into the notes with that id and closes the editor. */
    method UpdateNote(noteId: Value, reply: Reply<Record>) returns (toasts: seq<ToastRequest>)
      requires reply.Ok? ==> UniqueKeys(reply.data)
      modifies this
      ensures reply.Ok? ==> |notes| == |old(notes)| && expandedNoteId == Null
      ensures reply.Ok? ==> forall i :: 0 <= i < |notes| ==>
                notes[i] == (if IdOf(old(notes)[i]) == noteId then Merge(old(notes)[i], reply.data) else old(notes)[i])
      ensures reply.Ok? ==> toasts == [ToastRequest(Updated, "success")]
      ensures !reply.Ok? ==> notes == old(notes) && expandedNoteId == old(expandedNoteId)
                             && toasts == [FailureToast(reply, UpdateFailed)]
      ensures newNote == old(newNote) && loading == old(loading) && saving == old(saving)
      ensures selectedNoteType == old(selectedNoteType)
    {
      if reply.Ok? {
        MergeInto(noteId, reply.data);
        toasts := [ToastRequest(Updated, "success")];
        expandedNoteId := Null;
      } else {
        toasts := [FailureToast(reply, UpdateFailed)];
      }
    }

    /** `handleDeleteNote(noteId)`: nothing without confirmation; success
        removes exactly the notes with that id. */
    method DeleteNote(noteId: Value, confirmed: bool, reply: Reply<()>) returns (toasts: seq<ToastRequest>)
      modifies this
      ensures !confirmed ==> notes == old(notes) && toasts == []
      ensures confirmed && reply.Ok? ==>
                notes == RemoveById(old(notes), noteId) && toasts == [ToastRequest(Deleted, "success")]
      ensures confirmed && reply.Ok? ==> |notes| == |old(notes)| - CountId(old(notes), noteId)
      ensures confirmed && !reply.Ok? ==> notes == old(notes) && toasts == [FailureToast(reply, DeleteFailed)]
      ensures newNote == old(newNote) && loading == old(loading) && saving == old(saving)
      ensures expandedNoteId == old(expandedNoteId) && selectedNoteType == old(selectedNoteType)
    {
      if !confirmed {
        return [];
      }
      if reply.Ok? {
        RemoveByIdLength(notes, noteId);
        notes := RemoveById(notes, noteId);
        toasts := [ToastRequest(Deleted, "success")];
      } else {
        toasts := [FailureToast(reply, DeleteFailed)];
      }
    }

    /** The merge shared by an update and a pin toggle: every note with the
        id takes the reply's fields over its own, the others stay. */
    method MergeInto(noteId: Value, changes: Record)
      requires UniqueKeys(changes)
      modifies this
      ensures |notes| == |old(notes)|
      ensures forall i :: 0 <= i < |notes| ==>
                notes[i] == (if IdOf(old(notes)[i]) == noteId then Merge(old(notes)[i], changes) else old(notes)[i])
      ensures newNote == old(newNote) && loading == old(loading) && saving == old(saving)
      ensures expandedNoteId == old(expandedNoteId) && selectedNoteType == old(selectedNoteType)
    {
      notes := UpdateById(notes, noteId, MergedWith(changes));
    }

    /** `handleTogglePin(noteId)`: success merges the reply's note like an
        update and reports the new pin state. */
    method TogglePin(noteId: Value, reply: Reply<Record>) returns (toasts: seq<ToastRequest>)
      requires reply.Ok? ==> UniqueKeys(reply.data)
      modifies this
      ensures reply.Ok? ==> |notes| == |old(notes)|
      ensures reply.Ok? ==> forall i :: 0 <= i < |notes| ==>
                notes[i] == (if IdOf(old(notes)[i]) == noteId then Merge(old(notes)[i], reply.data) else old(notes)[i])
      ensures reply.Ok? ==>
                toasts == [ToastRequest(if Truthy(Prop(reply.data, "is_pinned")) then Pinned else Unpinned, "info")]
      ensures !reply.Ok? ==> notes == old(notes) && toasts == [FailureToast(reply, PinFailed)]
      ensures newNote == old(newNote) && loading == old(loading) && saving == old(saving)
      ensures expandedNoteId == old(expandedNoteId) && selectedNoteType == old(selectedNoteType)
    {
      if reply.Ok? {
        MergeInto(noteId, reply.data);
        var message := if Truthy(Prop(reply.data, "is_pinned")) then Pinned else Unpinned;
        toasts := [ToastRequest(message, "info")];
      } else {
        toasts := [FailureToast(reply, PinFailed)];
      }
    }

    /** A click on a note's text opens its editor only for the editing roles. */
    method StartEditing(noteId: Value)
      modifies this
      ensures CanEditNotes(user) ==> expandedNoteId == noteId
      ensures !CanEditNotes(user) ==> expandedNoteId == old(expandedNoteId)
      ensures notes == old(notes) && newNote == old(newNote) && loading == old(loading)
      ensures saving == old(saving) && selectedNoteType == old(selectedNoteType)
    {
      if CanEditNotes(user) {
        expandedNoteId := noteId;
      }
    }
  }

  /** The update applied to a note with the reply's fields. */
  function MergedWith(changes: Record): Record -> Record
    requires UniqueKeys(changes)
  {
    note => Merge(note, changes)
  }

  /** A merged note keeps its id unless the reply's note carries another. */
  lemma {:induction false} MergeKeepsId(note: Record, changes: Record)
    requires UniqueKeys(changes) && !Has(changes, "id")
    ensures IdOf(Merge(note, changes)) == IdOf(note)
    ensures forall k :: Has(changes, k) ==> Get(Merge(note, changes), k) == Get(changes, k)
  {
  }
}
