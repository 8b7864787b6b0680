/** The file picker of src/components/utils/FileUpload.jsx: a list of picked
    files that never grows past `maxFiles`, with removal by position and the
    parent notified of every new list. The random ids of the source are a
    counter here. */
module FileUploadBounded {
  import opened JsValue
  import opened JsText
  import opened Lists

  /** A file chosen in the browser's dialog. */
  datatype SelectedFile = SelectedFile(name: string, size: nat, mime: string)

  /** `{id, file, name, size, type}`: the name, size and type are the file's own. */
  datatype PickedFile = PickedFile(id: nat, file: SelectedFile)

  const DefaultMaxFiles := 5
  const FileRemoved := "Файл удален"

  function TooManyFiles(maxFiles: nat): string {
    "Можно загрузить не более " + NatText(maxFiles) + " файлов"
  }

  /** The success toast: the file's name for one file, the count otherwise. */
  function AddedMessage(selected: seq<SelectedFile>): string
    requires selected != []
  {
    if |selected| == 1 then "Файл " + selected[0].name + " добавлен"
    else NatText(|selected|) + " файла(ов) добавлено"
  }

  /** `selectedFiles.map(file => ({id: generateId(), file, …}))` with ids
      `first`, `first + 1`, … */
  function WithIds(selected: seq<SelectedFile>, first: nat): (r: seq<PickedFile>)
    ensures |r| == |selected|
    ensures forall i :: 0 <= i < |r| ==> r[i] == PickedFile(first + i, selected[i])
  {
    if selected == [] then [] else [PickedFile(first, selected[0])] + WithIds(selected[1..], first + 1)
  }

  /** The files in the list, in order. */
  function FilesOf(ps: seq<PickedFile>): (r: seq<SelectedFile>)
    ensures |r| == |ps| && forall i :: 0 <= i < |ps| ==> r[i] == ps[i].file
  {
    if ps == [] then [] else [ps[0].file] + FilesOf(ps[1..])
  }

  /** Fresh ids from the counter keep the ids increasing and below the new
      counter. */
  lemma {:induction false} AppendKeepsIds(files: seq<PickedFile>, selected: seq<SelectedFile>, next: nat)
    requires forall i :: 0 <= i < |files| ==> files[i].id < next
    requires forall i, j :: 0 <= i < j < |files| ==> files[i].id < files[j].id
    ensures var r := files + WithIds(selected, next);
            (forall i :: 0 <= i < |r| ==> r[i].id < next + |selected|)
            && (forall i, j :: 0 <= i < j < |r| ==> r[i].id < r[j].id)
  {
    var w := WithIds(selected, next);
    var r := files + w;
    forall i | 0 <= i < |r| ensures r[i].id < next + |selected| {
      if i >= |files| { assert r[i] == w[i - |files|]; }
    }
    forall i, j | 0 <= i < j < |r| ensures r[i].id < r[j].id {
      if j >= |files| {
        assert r[j] == w[j - |files|];
        if i >= |files| { assert r[i] == w[i - |files|]; }
      }
    }
  }

  lemma {:induction false} FilesOfAppend(a: seq<PickedFile>, b: seq<PickedFile>)
    ensures FilesOf(a + b) == FilesOf(a) + FilesOf(b)
  {
    assert |FilesOf(a + b)| == |FilesOf(a) + FilesOf(b)|;
    forall i | 0 <= i < |a + b| ensures FilesOf(a + b)[i] == (FilesOf(a) + FilesOf(b))[i] {
      if i >= |a| { assert (a + b)[i] == b[i - |a|]; }
    }
  }

  class FilePicker {
    var files: seq<PickedFile>
    const maxFiles: nat
    /** The next id `generateId` hands out. */
    var nextId: nat

    /** The list never exceeds the bound, and ids are distinct and below the
        next id. */
    ghost predicate Valid()
      reads this
    {
      |files| <= maxFiles
      && (forall i :: 0 <= i < |files| ==> files[i].id < nextId)
      && (forall i, j :: 0 <= i < j < |files| ==> files[i].id < files[j].id)
    }

    /** `maxFiles` defaults to 5 when the parent gives none. */
    constructor(maxFiles: Option<nat>)
      ensures Valid()
      ensures files == [] && this.maxFiles == maxFiles.GetOr(DefaultMaxFiles)
    {
      files := [];
      this.maxFiles := maxFiles.GetOr(DefaultMaxFiles);
      nextId := 0;
    }

    /** `handleFileChange`: nothing for an empty selection; a selection that
        would pass the bound is refused with a toast; otherwise the new files
        follow the old ones in selection order and the parent receives the new
        list. */
    method HandleFileChange(selected: seq<SelectedFile>)
      returns (notified: Option<seq<PickedFile>>, toasts: seq<ToastRequest>)
      requires Valid()
      modifies this
      ensures Valid()
      ensures selected == [] ==> files == old(files) && notified == None && toasts == []
      ensures selected != [] && |old(files)| + |selected| > maxFiles ==>
                files == old(files) && notified == None
                && toasts == [ToastRequest(TooManyFiles(maxFiles), "error")]
      ensures selected != [] && |old(files)| + |selected| <= maxFiles ==>
                files == old(files) + WithIds(selected, old(nextId))
                && FilesOf(files) == FilesOf(old(files)) + selected
                && notified == Some(files)
                && toasts == [ToastRequest(AddedMessage(selected), "success")]
    {
      if |selected| == 0 {
        notified := None;
        toasts := [];
        return;
      }
      if |files| + |selected| > maxFiles {
        notified := None;
        toasts := [ToastRequest(TooManyFiles(maxFiles), "error")];
        return;
      }
      var updatedFiles := Append(selected);
      notified := Some(updatedFiles);
      toasts := [ToastRequest(AddedMessage(selected), "success")];
    }

    /** The accepted selection: fresh ids, appended after the current files. */
    method Append(selected: seq<SelectedFile>) returns (updatedFiles: seq<PickedFile>)
      requires Valid() && |files| + |selected| <= maxFiles
      modifies this
      ensures Valid()
      ensures files == old(files) + WithIds(selected, old(nextId)) && updatedFiles == files
      ensures FilesOf(files) == FilesOf(old(files)) + selected
    {
      updatedFiles := files + WithIds(selected, nextId);
      AppendKeepsIds(files, selected, nextId);
      FilesOfAppend(files, WithIds(selected, nextId));
      assert FilesOf(WithIds(selected, nextId)) == selected;
      files := updatedFiles;
      nextId := nextId + |selected|;
    }

    /** `removeFile(index)`: exactly the file at that position goes (none for
        a position out of range); the parent receives the new list. */
    method RemoveFile(index: int) returns (notified: seq<PickedFile>, toasts: seq<ToastRequest>)
      requires Valid()
      modifies this
      ensures Valid()
      ensures files == RemoveAt(old(files), index) && notified == files
      ensures 0 <= index < |old(files)| ==> |files| == |old(files)| - 1
      ensures toasts == [ToastRequest(FileRemoved, "info")]
    {
      var updatedFiles := RemoveAt(files, index);
      if 0 <= index < |files| {
        forall i | 0 <= i < |updatedFiles|
          ensures updatedFiles[i] == files[if i < index then i else i + 1]
        {
        }
      }
      files := updatedFiles;
      notified := updatedFiles;
      toasts := [ToastRequest(FileRemoved, "info")];
    }
  }
}
