/** The uploader of src/components/FileUpload.jsx: the application's file
    list, extended by one upload per selected (or dropped) file in selection
    order, and shrunk by deleting a file by id. Each upload's reply is a
    parameter, one per file. */
module FileUpload {
  import opened JsValue
  import opened Records
  import FileUploadBounded

  type SelectedFile = FileUploadBounded.SelectedFile

  const DeleteSucceeded := "Файл успешно удален"
  const DeleteFailed := "Ошибка удаления файла"

  /** The request body of one upload: `{file, category: 'document', description: file.name}`. */
  datatype UploadRequest = UploadRequest(file: SelectedFile, category: string, description: string)

  /** The message a template literal prints for a missing reply message. */
  const MissingMessage := "undefined"

  /** The toast one upload produces: a success names the file; a rejection
      names it and appends the reply's message, which the template literal
      prints as "undefined" when the reply carries none; an exception names
      the file only. */
  function UploadToast(file: SelectedFile, reply: Reply<Record>): (r: ToastRequest)
    ensures r.kind == "success" <==> reply.Ok?
    ensures !reply.Ok? ==> r.kind == "error"
    ensures reply.Rejected? ==> r.message == "Ошибка загрузки файла " + file.name + ": " + OrText(reply.message, MissingMessage)
  {
    match reply
    case Ok(_) => ToastRequest("Файл " + file.name + " успешно загружен", "success")
    case Rejected(message) => ToastRequest("Ошибка загрузки файла " + file.name + ": " + OrText(message, MissingMessage), "error")
    case Thrown(_) => ToastRequest("Ошибка загрузки файла " + file.name, "error")
  }

  /** The file records of the successful replies, in order. */
  function Uploaded(replies: seq<Reply<Record>>): (r: seq<Record>)
    ensures |r| <= |replies|
    ensures (forall i :: 0 <= i < |replies| ==> replies[i].Ok?) ==> |r| == |replies|
    ensures (forall i :: 0 <= i < |replies| ==> !replies[i].Ok?) ==> r == []
  {
    if replies == [] then []
    else
      var last := replies[|replies| - 1];
      Uploaded(replies[..|replies| - 1]) + (if last.Ok? then [last.data] else [])
  }

  /** Every uploaded record comes from a successful reply, and every
      successful reply's record is uploaded. */
  lemma {:induction false} UploadedAreTheSuccesses(replies: seq<Reply<Record>>)
    ensures forall i :: 0 <= i < |replies| && replies[i].Ok? ==> replies[i].data in Uploaded(replies)
    ensures forall x :: x in Uploaded(replies) ==> exists i :: 0 <= i < |replies| && replies[i] == Ok(x)
  {
    if replies != [] {
      var front := replies[..|replies| - 1];
      UploadedAreTheSuccesses(front);
      forall i | 0 <= i < |replies| && replies[i].Ok? ensures replies[i].data in Uploaded(replies) {
        if i < |front| { assert replies[i] == front[i]; }
      }
      forall x | x in Uploaded(replies) ensures exists i :: 0 <= i < |replies| && replies[i] == Ok(x) {
        if x in Uploaded(front) {
          var i :| 0 <= i < |front| && front[i] == Ok(x);
          assert replies[i] == front[i];
        } else {
          assert replies[|replies| - 1] == Ok(x);
        }
      }
    }
  }

  /** The request bodies of a batch, one per file, in order. */
  function UploadRequests(files: seq<SelectedFile>): (r: seq<UploadRequest>)
    ensures |r| == |files|
    ensures forall i :: 0 <= i < |r| ==> r[i] == UploadRequest(files[i], "document", files[i].name)
  {
    if files == [] then []
    else UploadRequests(files[..|files| - 1]) + [UploadRequest(files[|files| - 1], "document", files[|files| - 1].name)]
  }

  /** The toasts of a batch: one per file, in order. */
  function UploadToasts(files: seq<SelectedFile>, replies: seq<Reply<Record>>): (r: seq<ToastRequest>)
    requires |files| == |replies|
    ensures |r| == |files|
    ensures forall i :: 0 <= i < |r| ==> r[i] == UploadToast(files[i], replies[i])
  {
    if files == [] then []
    else UploadToasts(files[..|files| - 1], replies[..|replies| - 1])
         + [UploadToast(files[|files| - 1], replies[|replies| - 1])]
  }

  lemma {:induction false} UploadedStep(replies: seq<Reply<Record>>, k: nat)
    requires k < |replies|
    ensures Uploaded(replies[..k + 1]) == Uploaded(replies[..k]) + (if replies[k].Ok? then [replies[k].data] else [])
  {
    assert replies[..k + 1][..k] == replies[..k];
  }

  lemma {:induction false} UploadToastsStep(files: seq<SelectedFile>, replies: seq<Reply<Record>>, k: nat)
    requires |files| == |replies| && k < |files|
    ensures UploadToasts(files[..k + 1], replies[..k + 1])
            == UploadToasts(files[..k], replies[..k]) + [UploadToast(files[k], replies[k])]
  {
    assert replies[..k + 1][..k] == replies[..k];
    assert files[..k + 1][..k] == files[..k];
  }

  /** The loop of `uploadFiles`: one upload after another in selection
      order, each reply's record kept when it succeeded, one toast each. */
  method UploadEach(selected: seq<SelectedFile>, replies: seq<Reply<Record>>)
    returns (requests: seq<UploadRequest>, uploaded: seq<Record>, toasts: seq<ToastRequest>)
    requires |replies| == |selected|
    ensures uploaded == Uploaded(replies)
    ensures toasts == UploadToasts(selected, replies)
    ensures requests == UploadRequests(selected)
  {
    requests, uploaded, toasts := [], [], [];
    var k := 0;
    while k < |selected|
      invariant 0 <= k <= |selected|
      invariant uploaded == Uploaded(replies[..k])
      invariant toasts == UploadToasts(selected[..k], replies[..k])
      invariant requests == UploadRequests(selected[..k])
    {
      var file := selected[k];
      requests := requests + [UploadRequest(file, "document", file.name)];
      var result := replies[k];
      UploadedStep(replies, k);
      UploadToastsStep(selected, replies, k);
      assert selected[..k + 1][..k] == selected[..k];
      if result.Ok? {
        uploaded := uploaded + [result.data];
      }
      toasts := toasts + [UploadToast(file, result)];
      k := k + 1;
    }
    assert replies[..k] == replies && selected[..k] == selected;
  }

  class Uploader {
    var files: seq<Record>
    var uploading: bool

    /** The list starts as `initialFiles` (empty when not given). */
    constructor(initialFiles: seq<Record>)
      ensures files == initialFiles && !uploading
    {
      files := initialFiles;
      uploading := false;
    }

    /** `handleFileChange` and `handleDrop`: for each selected file in order,
        one upload request; a success appends the returned record and hands it
        to the parent, a failure only shows a toast and the loop goes on.
        `uploading` is true during the batch and false after it. */
    method UploadBatch(selected: seq<SelectedFile>, replies: seq<Reply<Record>>)
      returns (requests: seq<UploadRequest>, handedToParent: seq<Record>, toasts: seq<ToastRequest>)
      requires |replies| == |selected|
      modifies this
      ensures selected == [] ==> files == old(files) && uploading == old(uploading) && requests == [] && toasts == []
      ensures selected != [] ==> !uploading
      ensures files == old(files) + Uploaded(replies)
      ensures handedToParent == Uploaded(replies)
      ensures toasts == UploadToasts(selected, replies)
      ensures requests == UploadRequests(selected)
    {
      if |selected| == 0 {
        requests, handedToParent, toasts := [], [], [];
        assert replies == [] && Uploaded(replies) == [];
        assert files + Uploaded(replies) == files;
        return;
      }
      uploading := true;
      requests, handedToParent, toasts := UploadEach(selected, replies);
      files := files + handedToParent;
      uploading := false;
    }

    /** `removeFile(fileId)`: success removes the records with that id; a
        failure keeps the list. */
    method RemoveFile(fileId: Value, reply: Reply<()>) returns (toasts: seq<ToastRequest>)
      modifies this
      ensures uploading == old(uploading)
      ensures reply.Ok? ==> files == RemoveById(old(files), fileId)
                            && |files| == |old(files)| - CountId(old(files), fileId)
                            && toasts == [ToastRequest(DeleteSucceeded, "success")]
      ensures reply.Rejected? ==> files == old(files)
                                  && toasts == [ToastRequest(OrText(reply.message, DeleteFailed), "error")]
      ensures reply.Thrown? ==> files == old(files) && toasts == [ToastRequest(DeleteFailed, "error")]
    {
      if reply.Ok? {
        RemoveByIdLength(files, fileId);
        files := RemoveById(files, fileId);
        toasts := [ToastRequest(DeleteSucceeded, "success")];
      } else if reply.Rejected? {
        toasts := [ToastRequest(OrText(reply.message, DeleteFailed), "error")];
      } else {
        toasts := [ToastRequest(DeleteFailed, "error")];
      }
    }
  }
}
