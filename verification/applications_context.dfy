/** The applications list of src/context/ApplicationsContext.jsx. Each
    operation is one atomic step: the backend's reply is a parameter, and the
    `loading` flag that is true while the request runs ends false. */
module ApplicationsContext {
  import opened JsValue
  import opened JsObject
  import opened Records

  /** What an operation returns: `{success, message}`; the message is "" on success. */
  datatype Outcome = Outcome(success: bool, message: string)

  const FetchFailed := "Ошибка получения заявок"
  const CreateFailed := "Ошибка создания заявки"
  const UpdateFailed := "Ошибка обновления заявки"
  const DeleteFailed := "Ошибка удаления заявки"
  const SubmitFailed := "Ошибка отправки заявки"

  /** The message a failed reply ends with: the reply's own message or the
      operation's default when it has none; an exception keeps its message. */
  function FailureMessage<T>(reply: Reply<T>, fallback: string): (r: string)
    requires !reply.Ok?
    ensures reply.Rejected? && reply.message != "" ==> r == reply.message
    ensures reply.Rejected? && reply.message == "" ==> r == fallback
    ensures reply.Thrown? ==> r == reply.message
  {
    if reply.Rejected? then OrText(reply.message, fallback) else reply.message
  }

  /** `{...app, status, statusDisplay}` with the values of the reply's application. */
  function WithStatusOf(submitted: Record): Record -> Record {
    (app: Record) => SetStatus(submitted, app)
  }

  function SetStatus(submitted: Record, app: Record): Record {
    Put(Put(app, "status", Prop(submitted, "status")), "statusDisplay", Prop(submitted, "statusDisplay"))
  }

  /** Submitting changes only `status` and `statusDisplay` of a record. */
  lemma {:induction false} WithStatusOfChangesTwoFields(submitted: Record, app: Record, k: string)
    requires k != "status" && k != "statusDisplay"
    ensures Get(SetStatus(submitted, app), k) == Get(app, k)
    ensures Prop(SetStatus(submitted, app), "status") == Prop(submitted, "status")
    ensures Prop(SetStatus(submitted, app), "statusDisplay") == Prop(submitted, "statusDisplay")
  {
  }

  /** Submitting never changes a record's id. */
  lemma {:induction false} WithStatusOfKeepsId(submitted: Record)
    ensures forall x :: IdOf(SetStatus(submitted, x)) == IdOf(x)
  {
    forall x ensures IdOf(SetStatus(submitted, x)) == IdOf(x) {
      WithStatusOfChangesTwoFields(submitted, x, "id");
    }
  }

  class ApplicationsProvider {
    var applications: seq<Record>
    var loading: bool
    /** `null` is `None`. */
    var error: Option<string>

    constructor()
      ensures applications == [] && !loading && error == None
    {
      applications := [];
      loading := false;
      error := None;
    }

    /** Common ending of a failed operation: the list stays, the error is set. */
    method Fail(message: string) returns (outcome: Outcome)
      modifies this
      ensures applications == old(applications)
      ensures error == Some(message) && !loading
      ensures outcome == Outcome(false, message)
    {
      error := Some(message);
      outcome := Outcome(false, message);
      loading := false;
    }

    /** `fetchApplications`: success replaces the list with the reply's list,
        or [] when the reply has none. */
    method FetchApplications(reply: Reply<Option<seq<Record>>>) returns (outcome: Outcome)
      modifies this
      ensures !loading
      ensures outcome.success <==> reply.Ok?
      ensures reply.Ok? ==> applications == reply.data.GetOr([]) && error == None
      ensures !reply.Ok? ==> applications == old(applications)
                             && outcome.message == FailureMessage(reply, FetchFailed)
                             && error == Some(outcome.message)
    {
      loading := true;
      error := None;
      if reply.Ok? {
        applications := reply.data.GetOr([]);
        outcome := Outcome(true, "");
        loading := false;
      } else {
        outcome := Fail(FailureMessage(reply, FetchFailed));
      }
    }

    /** `createApplication`: success appends the new application at the end. */
    method CreateApplication(reply: Reply<Record>) returns (outcome: Outcome)
      modifies this
      ensures !loading
      ensures outcome.success <==> reply.Ok?
      ensures reply.Ok? ==> applications == old(applications) + [reply.data] && error == None
      ensures !reply.Ok? ==> applications == old(applications)
                             && outcome.message == FailureMessage(reply, CreateFailed)
                             && error == Some(outcome.message)
    {
      loading := true;
      error := None;
      if reply.Ok? {
        applications := applications + [reply.data];
        outcome := Outcome(true, "");
        loading := false;
      } else {
        outcome := Fail(FailureMessage(reply, CreateFailed));
      }
    }

    /** `updateApplication(id, …)`: success replaces every entry with that id
        by the reply's application and leaves the others in place. */
    method UpdateApplication(id: Value, reply: Reply<Record>) returns (outcome: Outcome)
      modifies this
      ensures !loading
      ensures outcome.success <==> reply.Ok?
      ensures reply.Ok? ==> |applications| == |old(applications)| && error == None
      ensures reply.Ok? ==> forall i :: 0 <= i < |applications| ==>
                applications[i] == (if IdOf(old(applications)[i]) == id then reply.data else old(applications)[i])
      ensures !reply.Ok? ==> applications == old(applications)
                             && outcome.message == FailureMessage(reply, UpdateFailed)
                             && error == Some(outcome.message)
    {
      loading := true;
      error := None;
      if reply.Ok? {
        var updated := reply.data;
        applications := UpdateById(applications, id, (app: Record) => updated);
        outcome := Outcome(true, "");
        loading := false;
      } else {
        outcome := Fail(FailureMessage(reply, UpdateFailed));
      }
    }

    /** `deleteApplication(id)`: success removes every entry with that id; the
        rest keep their order. */
    method DeleteApplication(id: Value, reply: Reply<()>) returns (outcome: Outcome)
      modifies this
      ensures !loading
      ensures outcome.success <==> reply.Ok?
      ensures reply.Ok? ==> applications == RemoveById(old(applications), id) && error == None
      ensures reply.Ok? ==> |applications| == |old(applications)| - CountId(old(applications), id)
      ensures !reply.Ok? ==> applications == old(applications)
                             && outcome.message == FailureMessage(reply, DeleteFailed)
                             && error == Some(outcome.message)
    {
      loading := true;
      error := None;
      if reply.Ok? {
        RemoveByIdLength(applications, id);
        applications := RemoveById(applications, id);
        outcome := Outcome(true, "");
        loading := false;
      } else {
        outcome := Fail(FailureMessage(reply, DeleteFailed));
      }
    }

    /** `submitApplication(id)`: success changes only `status` and
        `statusDisplay` of the entries with that id. */
    method SubmitApplication(id: Value, reply: Reply<Record>) returns (outcome: Outcome)
      modifies this
      ensures !loading
      ensures outcome.success <==> reply.Ok?
      ensures reply.Ok? ==> |applications| == |old(applications)| && error == None
      ensures reply.Ok? ==> forall i :: 0 <= i < |applications| ==>
                applications[i] == (if IdOf(old(applications)[i]) == id
                                    then SetStatus(reply.data, old(applications)[i])
                                    else old(applications)[i])
      ensures reply.Ok? ==> Ids(applications) == Ids(old(applications))
      ensures !reply.Ok? ==> applications == old(applications)
                             && outcome.message == FailureMessage(reply, SubmitFailed)
                             && error == Some(outcome.message)
    {
      loading := true;
      error := None;
      if reply.Ok? {
        var submitted := reply.data;
        WithStatusOfKeepsId(submitted);
        UpdateByIdKeepsIds(applications, id, WithStatusOf(submitted));
        applications := UpdateById(applications, id, WithStatusOf(submitted));
        outcome := Outcome(true, "");
        loading := false;
      } else {
        outcome := Fail(FailureMessage(reply, SubmitFailed));
      }
    }
  }
}
