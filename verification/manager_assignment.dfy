/** The manager assignment table of src/components/admin/ManagerAssignment.jsx:
    the applications, the managers, and the assignment of a manager to an
    application after the backend's reply. */
module ManagerAssignment {
  import opened JsValue
  import opened JsObject
  import opened Records

  const ApplicationsLoadFailed := "Ошибка загрузки заявок"
  const ManagersLoadFailed := "Ошибка загрузки менеджеров"
  const Assigned := "Менеджер успешно назначен"
  const AssignFailed := "Ошибка назначения менеджера"
  const Unassigned := "Не назначен"

  /** `i` is the position of the first manager with that id. */
  predicate FirstWithId(managers: seq<Record>, managerId: Value, i: int) {
    0 <= i < |managers| && IdOf(managers[i]) == managerId
    && forall j :: 0 <= j < i ==> IdOf(managers[j]) != managerId
  }

  /** Past a first manager with another id, the search goes on in the rest. */
  lemma {:induction false} FirstWithIdTail(managers: seq<Record>, managerId: Value)
    requires managers != [] && IdOf(managers[0]) != managerId
    ensures forall i :: FirstWithId(managers, managerId, i) ==>
              i >= 1 && FirstWithId(managers[1..], managerId, i - 1) && managers[i] == managers[1..][i - 1]
    ensures (forall i :: 0 <= i < |managers| ==> IdOf(managers[i]) != managerId) ==>
              forall i :: 0 <= i < |managers[1..]| ==> IdOf(managers[1..][i]) != managerId
  {
    var rest := managers[1..];
    forall i | FirstWithId(managers, managerId, i)
      ensures i >= 1 && FirstWithId(rest, managerId, i - 1) && managers[i] == rest[i - 1]
    {
      assert i != 0;
      forall j | 0 <= j < i - 1 ensures IdOf(rest[j]) != managerId {
        assert rest[j] == managers[j + 1];
      }
    }
    if forall i :: 0 <= i < |managers| ==> IdOf(managers[i]) != managerId {
      forall i | 0 <= i < |rest| ensures IdOf(rest[i]) != managerId {
        assert rest[i] == managers[i + 1];
      }
    }
  }

  /** `managers.find(m => m.id === managerId)?.full_name`: the name of the
      first manager with that id, `undefined` when there is none. */
  function ManagerName(managers: seq<Record>, managerId: Value): (r: Value)
    ensures (forall i :: 0 <= i < |managers| ==> IdOf(managers[i]) != managerId) ==> r == Undefined
    ensures forall i :: FirstWithId(managers, managerId, i) ==> r == Prop(managers[i], "full_name")
  {
    if managers == [] then Undefined
    else if IdOf(managers[0]) == managerId then Prop(managers[0], "full_name")
    else
      var r := ManagerName(managers[1..], managerId);
      FirstWithIdTail(managers, managerId);
      r
  }

  /** `{...app, assigned_manager_id, assigned_manager_name}` */
  function Assign(managerId: Value, name: Value, app: Record): (r: Record)
    ensures Prop(r, "assigned_manager_id") == managerId && Prop(r, "assigned_manager_name") == name
    ensures forall k :: k != "assigned_manager_id" && k != "assigned_manager_name" ==> Get(r, k) == Get(app, k)
  {
    Put(Put(app, "assigned_manager_id", managerId), "assigned_manager_name", name)
  }

  /** The value of the row's select: `app.assigned_manager_id || ''`. */
  function SelectedManager(app: Record): (r: Value)
    ensures !Truthy(Prop(app, "assigned_manager_id")) ==> r == Str("")
    ensures Truthy(Prop(app, "assigned_manager_id")) ==> r == Prop(app, "assigned_manager_id")
  {
    Or(Prop(app, "assigned_manager_id"), Str(""))
  }

  /** The manager column: the assigned name or "Не назначен". */
  function ManagerLabel(app: Record): (r: Value)
    ensures Truthy(r)
    ensures !Truthy(Prop(app, "assigned_manager_name")) ==> r == Str(Unassigned)
  {
    Or(Prop(app, "assigned_manager_name"), Str(Unassigned))
  }

  /** Assigning an id no manager has leaves the row's name undefined, so the
      row reads "Не назначен" while its select shows the id. */
  lemma {:induction false} UnknownManagerShowsUnassigned(managers: seq<Record>, managerId: Value, app: Record)
    requires forall i :: 0 <= i < |managers| ==> IdOf(managers[i]) != managerId
    requires Truthy(managerId)
    ensures ManagerLabel(Assign(managerId, ManagerName(managers, managerId), app)) == Str(Unassigned)
    ensures SelectedManager(Assign(managerId, ManagerName(managers, managerId), app)) == managerId
  {
  }

  class AssignmentTable {
    var applications: seq<Record>
    var managers: seq<Record>
    var loading: bool
    var error: Option<string>

    constructor()
      ensures applications == [] && managers == [] && !loading && error == None
    {
      applications := [];
      managers := [];
      loading := false;
      error := None;
    }

    /** `loadApplications`: success replaces the list; a rejected reply shows
        a toast; an exception also sets the error. */
    method LoadApplications(reply: Reply<Option<seq<Record>>>) returns (toasts: seq<ToastRequest>)
      modifies this
      ensures !loading && managers == old(managers)
      ensures reply.Ok? ==> applications == reply.data.GetOr([]) && error == None && toasts == []
      ensures reply.Rejected? ==> applications == old(applications) && error == None
                                  && toasts == [ToastRequest(OrText(reply.message, ApplicationsLoadFailed), "error")]
      ensures reply.Thrown? ==> applications == old(applications) && error == Some(ApplicationsLoadFailed)
                                && toasts == [ToastRequest(ApplicationsLoadFailed, "error")]
    {
      loading := true;
      error := None;
      if reply.Ok? {
        applications := reply.data.GetOr([]);
        toasts := [];
      } else if reply.Rejected? {
        toasts := [ToastRequest(OrText(reply.message, ApplicationsLoadFailed), "error")];
      } else {
        error := Some(ApplicationsLoadFailed);
        toasts := [ToastRequest(ApplicationsLoadFailed, "error")];
      }
      loading := false;
    }

    /** `loadManagers`: success replaces the managers; a failure shows a toast. */
    method LoadManagers(reply: Reply<Option<seq<Record>>>) returns (toasts: seq<ToastRequest>)
      modifies this
      ensures applications == old(applications) && loading == old(loading) && error == old(error)
      ensures reply.Ok? ==> managers == reply.data.GetOr([]) && toasts == []
      ensures reply.Rejected? ==> managers == old(managers)
                                  && toasts == [ToastRequest(OrText(reply.message, ManagersLoadFailed), "error")]
      ensures reply.Thrown? ==> managers == old(managers) && toasts == [ToastRequest(ManagersLoadFailed, "error")]
    {
      if reply.Ok? {
        managers := reply.data.GetOr([]);
        toasts := [];
      } else if reply.Rejected? {
        toasts := [ToastRequest(OrText(reply.message, ManagersLoadFailed), "error")];
      } else {
        toasts := [ToastRequest(ManagersLoadFailed, "error")];
      }
    }

    /** `handleAssignManager(applicationId, managerId)`: success writes the
        manager's id and looked-up name into the applications with that id
        only; failure changes nothing. */
    method HandleAssignManager(applicationId: Value, managerId: Value, reply: Reply<()>)
      returns (toasts: seq<ToastRequest>)
      modifies this
      ensures reply.Ok? ==> |applications| == |old(applications)| && Ids(applications) == Ids(old(applications))
      ensures reply.Ok? ==> forall i :: 0 <= i < |applications| ==>
                applications[i] == (if IdOf(old(applications)[i]) == applicationId
                                    then Assign(managerId, ManagerName(managers, managerId), old(applications)[i])
                                    else old(applications)[i])
      ensures reply.Ok? ==> toasts == [ToastRequest(Assigned, "success")]
      ensures !reply.Ok? ==> applications == old(applications)
                             && toasts == [ToastRequest(OrText(reply.message, AssignFailed), "error")]
      ensures managers == old(managers) && loading == old(loading) && error == old(error)
    {
      if reply.Ok? {
        var name := ManagerName(managers, managerId);
        var f := (app: Record) => Assign(managerId, name, app);
        UpdateByIdKeepsIds(applications, applicationId, f);
        applications := UpdateById(applications, applicationId, f);
        toasts := [ToastRequest(Assigned, "success")];
      } else {
        toasts := [ToastRequest(OrText(reply.message, AssignFailed), "error")];
      }
    }
  }
}
