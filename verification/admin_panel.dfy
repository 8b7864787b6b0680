/** The admin panel of src/components/admin/AdminPanel.jsx: status labels,
    the status filter over the applications list, the dashboard counts, the
    role-dependent tabs, and the handlers that load lists and change an
    application's status. */
module AdminPanel {
  import opened JsValue
  import opened JsObject
  import opened Lists
  import opened Records
  import Validation

  /** `getStatusDisplay`'s table: ten status codes and their labels. */
  const StatusLabels: map<string, string> := map[
    "draft" := "Черновик",
    "submitted" := "Отправлено",
    "in_review" := "На рассмотрении",
    "needs_info" := "Требуется информация",
    "estimated" := "Оценено",
    "approved" := "Утверждено",
    "in_progress" := "В работе",
    "completed" := "Завершено",
    "cancelled" := "Отменено",
    "rejected" := "Отклонено"
  ]

  const StatusChangeFailed := "Ошибка изменения статуса"
  const ApplicationsLoadFailed := "Ошибка загрузки заявок"
  const UsersLoadFailed := "Ошибка загрузки пользователей"

  /** `getStatusDisplay(status)`: `statusMap[status] || status`. */
  function GetStatusDisplay(status: string): (r: string)
    ensures status in StatusLabels ==> r == StatusLabels[status]
    ensures status !in StatusLabels ==> r == status
  {
    if status in StatusLabels then OrText(StatusLabels[status], status) else status
  }

  /** A status code's label is never itself a code. */
  lemma {:induction false} LabelIsNotACode(a: string)
    requires a in StatusLabels
    ensures GetStatusDisplay(a) !in StatusLabels && GetStatusDisplay(a) != a
  {
  }

  /** The table read backwards: the code a label stands for. */
  function CodeOfLabel(shown: string): string {
    if shown == "Черновик" then "draft"
    else if shown == "Отправлено" then "submitted"
    else if shown == "На рассмотрении" then "in_review"
    else if shown == "Требуется информация" then "needs_info"
    else if shown == "Оценено" then "estimated"
    else if shown == "Утверждено" then "approved"
    else if shown == "В работе" then "in_progress"
    else if shown == "Завершено" then "completed"
    else if shown == "Отменено" then "cancelled"
    else if shown == "Отклонено" then "rejected"
    else shown
  }

  /** Each code is recovered from its label. */
  lemma {:induction false} LabelsInvert(a: string)
    requires a in StatusLabels
    ensures CodeOfLabel(StatusLabels[a]) == a
  {
  }

  /** Every label differs from every code, so a label tells whether the code
      was known; and two known codes never share a label. */
  lemma {:induction false} StatusLabelsAreDistinct(a: string, b: string)
    requires a in StatusLabels && b in StatusLabels && a != b
    ensures GetStatusDisplay(a) != GetStatusDisplay(b)
    ensures GetStatusDisplay(a) !in StatusLabels && GetStatusDisplay(a) != a
  {
    LabelIsNotACode(a);
    LabelsInvert(a);
    LabelsInvert(b);
  }

  /** Every status the shared validator accepts has a label here; the panel
      also offers two codes the validator refuses. */
  lemma {:induction false} ValidatedStatusesHaveLabels(v: Value)
    requires Validation.ValidateStatus(v)
    ensures v.s in StatusLabels && GetStatusDisplay(v.s) != v.s
  {
  }

  // ---- the status filter ----

  predicate IsRejected(app: Record) {
    Prop(app, "status") == Str("rejected")
  }

  predicate IsActive(app: Record) {
    Prop(app, "status") != Str("rejected")
  }

  const FilterOptions: seq<string> := ["all", "rejected", "active"]

  /** The list the filter effect stores for a filter value; `None` when the
      effect stores nothing (a value none of its branches names). */
  function FilterByStatus(apps: seq<Record>, filter: string): (r: Option<seq<Record>>)
    ensures r.Some? <==> filter in FilterOptions
    ensures filter == "all" ==> r == Some(apps)
  {
    if filter == "all" then Some(apps)
    else if filter == "rejected" then Some(Filter(apps, IsRejected))
    else if filter == "active" then Some(Filter(apps, IsActive))
    else None
  }

  /** "rejected" and "active" split the list: each application is in exactly
      one of them, and their lengths add up to the whole. */
  lemma {:induction false} FiltersPartition(apps: seq<Record>)
    ensures forall i :: 0 <= i < |apps| ==>
              (apps[i] in FilterByStatus(apps, "rejected").value <==> IsRejected(apps[i]))
              && (apps[i] in FilterByStatus(apps, "active").value <==> !IsRejected(apps[i]))
    ensures |FilterByStatus(apps, "rejected").value| + |FilterByStatus(apps, "active").value| == |apps|
  {
    PartitionCount(apps);
  }

  lemma {:induction false} PartitionCount(apps: seq<Record>)
    ensures |Filter(apps, IsRejected)| + |Filter(apps, IsActive)| == |apps|
  {
    if apps != [] {
      PartitionCount(apps[1..]);
    }
  }

  // ---- dashboard counts ----

  predicate IsApprovedLike(app: Record) {
    Prop(app, "status") == Str("approved") || Prop(app, "status") == Str("completed")
  }

  predicate IsInReviewLike(app: Record) {
    Prop(app, "status") == Str("in_review") || Prop(app, "status") == Str("submitted")
  }

  /** The "approved" card: approved or completed. */
  function ApprovedCount(apps: seq<Record>): nat {
    |Filter(apps, IsApprovedLike)|
  }

  /** The "in review" card: in review or submitted. */
  function InReviewCount(apps: seq<Record>): nat {
    |Filter(apps, IsInReviewLike)|
  }

  /** The two cards count disjoint sets, so together they never exceed the
      total card. */
  lemma {:induction false} DashboardCountsBounded(apps: seq<Record>)
    ensures ApprovedCount(apps) + InReviewCount(apps) <= |apps|
    ensures forall i :: 0 <= i < |apps| ==> !(IsApprovedLike(apps[i]) && IsInReviewLike(apps[i]))
  {
    if apps != [] {
      DashboardCountsBounded(apps[1..]);
      assert forall i :: 1 <= i < |apps| ==> apps[i] == apps[1..][i - 1];
    }
  }

  // ---- roles and tabs ----

  function Role(user: Option<Record>): Value {
    if user.Some? then Prop(user.value, "role") else Undefined
  }

  /** `user?.role === 'admin'` */
  predicate IsAdmin(user: Option<Record>) {
    Role(user) == Str("admin")
  }

  /** `user?.role === 'manager' || user?.role === 'admin'` */
  predicate IsManager(user: Option<Record>) {
    Role(user) == Str("manager") || Role(user) == Str("admin")
  }

  /** A tab, and whether it needs the admin role (otherwise a manager suffices). */
  datatype Tab = Tab(id: string, caption: string, adminOnly: bool)

  const Tabs: seq<Tab> := [
    Tab("dashboard", "Дашборд", false),
    Tab("applications", "Заявки", false),
    Tab("statistics", "Статистика", true),
    Tab("users", "Пользователи", true),
    Tab("reports", "Отчеты", true)
  ]

  predicate Allowed(user: Option<Record>, t: Tab) {
    if t.adminOnly then IsAdmin(user) else IsManager(user)
  }

  /** The sidebar's filter for this user. */
  function AllowedFor(user: Option<Record>): Tab -> bool {
    t => Allowed(user, t)
  }

  /** The tabs the sidebar shows. */
  function VisibleTabs(user: Option<Record>): (r: seq<Tab>)
    ensures forall i :: 0 <= i < |r| ==> r[i] in Tabs && Allowed(user, r[i])
  {
    Filter(Tabs, AllowedFor(user))
  }

  /** The first two tabs are for managers, the other three for admins. */
  lemma {:induction false} AdminOnlyTabs()
    ensures forall i :: 0 <= i < |Tabs| ==> (Tabs[i].adminOnly <==> i >= 2)
  {
    assert !Tabs[0].adminOnly && !Tabs[1].adminOnly && Tabs[2].adminOnly && Tabs[3].adminOnly && Tabs[4].adminOnly;
    forall i | 0 <= i < |Tabs| ensures Tabs[i].adminOnly <==> i >= 2 {
      assert i == 0 || i == 1 || i == 2 || i == 3 || i == 4;
    }
  }

  /** A tab is shown exactly when the user may see it. */
  lemma {:induction false} ShownIffAllowed(user: Option<Record>, i: int)
    requires 0 <= i < |Tabs|
    ensures Tabs[i] in VisibleTabs(user) <==> Allowed(user, Tabs[i])
  {
    FilterMember(Tabs, AllowedFor(user), Tabs[i]);
  }

  /** An admin sees all five tabs; a manager only the dashboard and the
      applications; anyone else none. */
  lemma {:induction false} TabsByRole(user: Option<Record>)
    ensures IsAdmin(user) ==> IsManager(user) && VisibleTabs(user) == Tabs
    ensures IsManager(user) && !IsAdmin(user) ==>
              forall i :: 0 <= i < |Tabs| ==> (Tabs[i] in VisibleTabs(user) <==> i < 2)
    ensures !IsManager(user) ==> VisibleTabs(user) == []
  {
    var keep := AllowedFor(user);
    if IsAdmin(user) {
      assert forall t :: keep(t);
    } else if IsManager(user) {
      AdminOnlyTabs();
      forall i | 0 <= i < |Tabs| ensures Tabs[i] in VisibleTabs(user) <==> i < 2 {
        ShownIffAllowed(user, i);
      }
    } else {
      assert forall t :: !keep(t);
      FilterNone(Tabs, keep);
    }
  }

  /** Which loads the tab effect starts: applications for a manager on the
      dashboard or applications tab, users for an admin on the dashboard or
      users tab. */
  function LoadsOnTab(user: Option<Record>, tab: string): (r: (bool, bool))
    ensures r.0 <==> IsManager(user) && (tab == "applications" || tab == "dashboard")
    ensures r.1 <==> IsAdmin(user) && (tab == "users" || tab == "dashboard")
  {
    var apps := (IsManager(user) && tab == "applications") || (tab == "dashboard" && IsManager(user));
    var users := (IsAdmin(user) && tab == "users") || (tab == "dashboard" && IsAdmin(user));
    (apps, users)
  }

  /** `{...app, status: newStatus, statusDisplay: getStatusDisplay(newStatus)}` */
  function WithNewStatus(newStatus: string, app: Record): Record {
    Put(Put(app, "status", Str(newStatus)), "statusDisplay", Str(GetStatusDisplay(newStatus)))
  }

  /** The new status only touches `status` and `statusDisplay`. */
  lemma {:induction false} WithNewStatusChangesTwoFields(newStatus: string, app: Record, k: string)
    ensures Prop(WithNewStatus(newStatus, app), "status") == Str(newStatus)
    ensures Prop(WithNewStatus(newStatus, app), "statusDisplay") == Str(GetStatusDisplay(newStatus))
    ensures k != "status" && k != "statusDisplay" ==> Get(WithNewStatus(newStatus, app), k) == Get(app, k)
  {
  }

  class AdminPanelState {
    const user: Option<Record>
    var activeTab: string
    var applications: seq<Record>
    var filteredApplications: seq<Record>
    var users: seq<Record>
    var loading: bool
    var error: Option<string>
    var statusFilter: string

    /** The filtered list always reflects the list and the chosen filter. */
    ghost predicate Valid()
      reads this
    {
      statusFilter in FilterOptions
      && filteredApplications == FilterByStatus(applications, statusFilter).value
    }

    constructor(user: Option<Record>)
      ensures Valid()
      ensures this.user == user && activeTab == "dashboard" && statusFilter == "all"
      ensures applications == [] && filteredApplications == [] && users == []
      ensures !loading && error == None
    {
      this.user := user;
      activeTab := "dashboard";
      applications := [];
      filteredApplications := [];
      users := [];
      loading := false;
      error := None;
      statusFilter := "all";
    }

    /** A click on a sidebar tab: the tab becomes active. The tab effect runs
        only when the active tab changes (React skips a state update to the
        same value, and the role flags and the fetch callbacks are stable), and
        then says which lists to load. */
    method SelectTab(tab: string) returns (loadApplications: bool, loadUsers: bool)
      modifies this
      ensures activeTab == tab
      ensures loadApplications <==>
                tab != old(activeTab) && IsManager(user) && (tab == "applications" || tab == "dashboard")
      ensures loadUsers <==> tab != old(activeTab) && IsAdmin(user) && (tab == "users" || tab == "dashboard")
      ensures tab == old(activeTab) ==> !loadApplications && !loadUsers
      ensures applications == old(applications) && filteredApplications == old(filteredApplications)
      ensures users == old(users) && loading == old(loading) && error == old(error)
      ensures statusFilter == old(statusFilter)
    {
      var changed := tab != activeTab;
      activeTab := tab;
      var loads := LoadsOnTab(user, tab);
      loadApplications := changed && loads.0;
      loadUsers := changed && loads.1;
    }

    /** The filter effect: recomputes the filtered list. */
    method RefreshFilter()
      requires statusFilter in FilterOptions
      modifies this
      ensures Valid()
      ensures applications == old(applications) && statusFilter == old(statusFilter)
      ensures users == old(users) && loading == old(loading) && error == old(error)
      ensures activeTab == old(activeTab)
    {
      if statusFilter == "all" {
        filteredApplications := applications;
      } else if statusFilter == "rejected" {
        filteredApplications := Filter(applications, IsRejected);
      } else if statusFilter == "active" {
        filteredApplications := Filter(applications, IsActive);
      }
    }

    /** Choosing one of the three options of the filter select. */
    method ChangeFilter(filter: string)
      requires filter in FilterOptions
      modifies this
      ensures Valid()
      ensures statusFilter == filter && filteredApplications == FilterByStatus(applications, filter).value
      ensures applications == old(applications) && users == old(users)
      ensures loading == old(loading) && error == old(error) && activeTab == old(activeTab)
    {
      statusFilter := filter;
      RefreshFilter();
    }

    /** `fetchApplications`: a successful reply replaces the list (or empties
        it when it carries none); a rejected reply changes nothing; an
        exception sets the error. */
    method FetchApplications(reply: Reply<Option<seq<Record>>>)
      requires Valid()
      modifies this
      ensures Valid() && !loading
      ensures reply.Ok? ==> applications == reply.data.GetOr([]) && error == None
      ensures reply.Rejected? ==> applications == old(applications) && error == None
      ensures reply.Thrown? ==> applications == old(applications) && error == Some(ApplicationsLoadFailed)
      ensures users == old(users) && statusFilter == old(statusFilter) && activeTab == old(activeTab)
    {
      loading := true;
      error := None;
      if reply.Ok? {
        applications := reply.data.GetOr([]);
      } else if reply.Thrown? {
        error := Some(ApplicationsLoadFailed);
      }
      loading := false;
      RefreshFilter();
    }

    /** `fetchUsers`: a non-admin changes nothing; otherwise a success
        replaces the users, a rejected reply or an exception sets the error. */
    method FetchUsers(reply: Reply<Option<seq<Record>>>)
      requires Valid()
      modifies this
      ensures Valid()
      ensures !IsAdmin(user) ==>
                users == old(users) && loading == old(loading) && error == old(error)
      ensures IsAdmin(user) && reply.Ok? ==> users == reply.data.GetOr([]) && error == None && !loading
      ensures IsAdmin(user) && reply.Rejected? ==>
                users == old(users) && error == Some(OrText(reply.message, UsersLoadFailed)) && !loading
      ensures IsAdmin(user) && reply.Thrown? ==>
                users == old(users) && error == Some(UsersLoadFailed) && !loading
      ensures applications == old(applications) && filteredApplications == old(filteredApplications)
      ensures statusFilter == old(statusFilter) && activeTab == old(activeTab)
    {
      if !IsAdmin(user) {
        return;
      }
      loading := true;
      error := None;
      if reply.Ok? {
        users := reply.data.GetOr([]);
      } else if reply.Rejected? {
        error := Some(OrText(reply.message, UsersLoadFailed));
      } else {
        error := Some(UsersLoadFailed);
      }
      loading := false;
    }

    /** `handleStatusChange(id, newStatus)`: success sets the status and its
        label on the applications with that id; failure changes nothing and
        raises an alert with the reply's message or the default. */
    method HandleStatusChange(id: Value, newStatus: string, reply: Reply<()>) returns (alert: Option<string>)
      requires Valid()
      modifies this
      ensures Valid()
      ensures reply.Ok? ==> alert == None
      ensures reply.Ok? ==> |applications| == |old(applications)| && Ids(applications) == Ids(old(applications))
      ensures reply.Ok? ==> forall i :: 0 <= i < |applications| ==>
                applications[i] == (if IdOf(old(applications)[i]) == id
                                    then WithNewStatus(newStatus, old(applications)[i])
                                    else old(applications)[i])
      ensures !reply.Ok? ==> applications == old(applications) && alert == Some(OrText(reply.message, StatusChangeFailed))
      ensures users == old(users) && loading == old(loading) && error == old(error)
      ensures statusFilter == old(statusFilter) && activeTab == old(activeTab)
    {
      if reply.Ok? {
        var f := (app: Record) => WithNewStatus(newStatus, app);
        forall x | IdOf(x) == id ensures IdOf(f(x)) == id {
          WithNewStatusChangesTwoFields(newStatus, x, "id");
        }
        UpdateByIdKeepsIds(applications, id, f);
        applications := UpdateById(applications, id, f);
        alert := None;
        RefreshFilter();
      } else {
        alert := Some(OrText(reply.message, StatusChangeFailed));
      }
    }
  }
}
