/** The notifications list of
    src/components/notifications/NotificationsList.jsx: a page of
    notifications, marking one or all of them read, and the pagination
    controls. */
module NotificationsList {
  import opened JsValue
  import opened JsObject
  import opened Lists
  import opened Records

  const LoadFailed := "Ошибка загрузки уведомлений"
  const LoadThrew := "Не удалось загрузить уведомления"
  const MarkedOne := "Уведомление отмечено как прочитанное"
  const MarkOneFailed := "Ошибка отметки уведомления"
  const MarkedAll := "Все уведомления отмечены как прочитанные"
  const MarkAllFailed := "Ошибка отметки уведомлений"

  /** The reply's `pagination` object with integer fields; `None` is the `{}`
      the list starts with (or gets when the reply has none). */
  datatype Pagination = Pagination(page: int, pages: int)

  /** What a successful load carries; a missing part is `None`. */
  datatype NotificationsPage = NotificationsPage(notifications: Option<seq<Record>>, pagination: Option<Pagination>)

  predicate IsUnread(n: Record) {
    !Truthy(Prop(n, "is_read"))
  }

  /** `notifications.some(n => !n.is_read)`: the "mark all" button is shown. */
  predicate SomeUnread(ns: seq<Record>) {
    exists i :: 0 <= i < |ns| && IsUnread(ns[i])
  }

  /** `{...notif, is_read: true}` */
  function MarkRead(n: Record): (r: Record)
    ensures !IsUnread(r)
    ensures forall k :: k != "is_read" ==> Get(r, k) == Get(n, k)
  {
    Put(n, "is_read", Bool(true))
  }

  /** The pagination bar is shown only with more than one page. */
  predicate ShowPagination(p: Option<Pagination>) {
    p.Some? && p.value.pages > 1
  }

  /** "Back" is enabled unless `page <= 1`. */
  predicate BackEnabled(p: Pagination) {
    !(p.page <= 1)
  }

  /** "Forward" is enabled unless `page >= pages`. */
  predicate ForwardEnabled(p: Pagination) {
    !(p.page >= p.pages)
  }

  /** An enabled button never asks for a page before the first or past the
      last; from a page inside 1..pages both targets stay inside it. */
  lemma {:induction false} NavigationStaysInRange(p: Pagination)
    ensures BackEnabled(p) ==> p.page - 1 >= 1
    ensures ForwardEnabled(p) ==> p.page + 1 <= p.pages
    ensures 1 <= p.page <= p.pages && BackEnabled(p) ==> 1 <= p.page - 1 <= p.pages
    ensures 1 <= p.page <= p.pages && ForwardEnabled(p) ==> 1 <= p.page + 1 <= p.pages
    ensures p.pages <= 1 ==> !ForwardEnabled(p) || p.page < 1
  {
  }

  class NotificationsPanel {
    var notifications: seq<Record>
    var loading: bool
    var error: Option<string>
    var pagination: Option<Pagination>

    constructor()
      ensures notifications == [] && loading && error == None && pagination == None
    {
      notifications := [];
      loading := true;
      error := None;
      pagination := None;
    }

    /** `loadNotifications(page)`: success replaces the list and the
        pagination (empty when absent); a rejected reply or an exception sets
        the error and keeps both. The page asked for is the parameter. */
    method LoadNotifications(page: int, reply: Reply<NotificationsPage>)
      modifies this
      ensures !loading
      ensures reply.Ok? ==>
                notifications == reply.data.notifications.GetOr([])
                && pagination == reply.data.pagination && error == None
      ensures reply.Rejected? ==>
                notifications == old(notifications) && pagination == old(pagination)
                && error == Some(OrText(reply.message, LoadFailed))
      ensures reply.Thrown? ==>
                notifications == old(notifications) && pagination == old(pagination)
                && error == Some(LoadThrew)
    {
      loading := true;
      error := None;
      if reply.Ok? {
        notifications := reply.data.notifications.GetOr([]);
        pagination := reply.data.pagination;
      } else if reply.Rejected? {
        error := Some(OrText(reply.message, LoadFailed));
      } else {
        error := Some(LoadThrew);
      }
      loading := false;
    }

    /** `markAsRead(id)`: success marks the notifications with that id read
        and leaves the others as they were; failure changes nothing. */
    method MarkAsRead(id: Value, reply: Reply<()>) returns (toasts: seq<ToastRequest>)
      modifies this
      ensures reply.Ok? ==> |notifications| == |old(notifications)| && Ids(notifications) == Ids(old(notifications))
      ensures reply.Ok? ==> forall i :: 0 <= i < |notifications| ==>
                notifications[i] == (if IdOf(old(notifications)[i]) == id then MarkRead(old(notifications)[i])
                                     else old(notifications)[i])
      ensures reply.Ok? ==> forall i :: 0 <= i < |notifications| && IdOf(notifications[i]) == id ==>
                !IsUnread(notifications[i])
      ensures reply.Ok? ==> toasts == [ToastRequest(MarkedOne, "success")]
      ensures !reply.Ok? ==> notifications == old(notifications) && toasts == [FailureToast(reply, MarkOneFailed)]
      ensures loading == old(loading) && error == old(error) && pagination == old(pagination)
    {
      if reply.Ok? {
        forall x | IdOf(x) == id ensures IdOf(MarkRead(x)) == id {
        }
        UpdateByIdKeepsIds(notifications, id, MarkRead);
        notifications := UpdateById(notifications, id, MarkRead);
        toasts := [ToastRequest(MarkedOne, "success")];
      } else {
        toasts := [FailureToast(reply, MarkOneFailed)];
      }
    }

    /** `markAllAsRead`: success marks every notification read, after which
        the "mark all" button is gone. */
    method MarkAllAsRead(reply: Reply<()>) returns (toasts: seq<ToastRequest>)
      modifies this
      ensures reply.Ok? ==> notifications == Map(old(notifications), MarkRead) && !SomeUnread(notifications)
      ensures reply.Ok? ==> toasts == [ToastRequest(MarkedAll, "success")]
      ensures !reply.Ok? ==> notifications == old(notifications) && toasts == [FailureToast(reply, MarkAllFailed)]
      ensures loading == old(loading) && error == old(error) && pagination == old(pagination)
    {
      if reply.Ok? {
        notifications := Map(notifications, MarkRead);
        toasts := [ToastRequest(MarkedAll, "success")];
      } else {
        toasts := [FailureToast(reply, MarkAllFailed)];
      }
    }
  }

  /** Marking one notification read takes away the last unread one exactly
      when it was the only id left unread. */
  lemma {:induction false} MarkingLastUnread(ns: seq<Record>, id: Value)
    ensures SomeUnread(UpdateById(ns, id, MarkRead)) <==>
              exists i :: 0 <= i < |ns| && IsUnread(ns[i]) && IdOf(ns[i]) != id
  {
    var r := UpdateById(ns, id, MarkRead);
    if SomeUnread(r) {
      var i :| 0 <= i < |r| && IsUnread(r[i]);
      assert IsUnread(ns[i]) && IdOf(ns[i]) != id;
    }
    if exists i :: 0 <= i < |ns| && IsUnread(ns[i]) && IdOf(ns[i]) != id {
      var i :| 0 <= i < |ns| && IsUnread(ns[i]) && IdOf(ns[i]) != id;
      assert IsUnread(r[i]);
    }
  }
}
