/** The toast list of src/context/ToastContext.jsx. Ids come from a counter
    that is incremented before each use; the timestamp suffix of the id is a
    parameter. Each toast schedules its own removal after five seconds, which
    is modelled as a pending timer that fires as a separate event. */
module ToastContext {
  import opened JsValue
  import opened Lists

  /** `toast-${n}-${time}` */
  datatype ToastId = ToastId(n: nat, time: int)

  datatype Toast = Toast(id: ToastId, message: string, kind: string)

  /** Ids strictly increase along the list. */
  predicate IncreasingIds(ts: seq<Toast>) {
    forall i, j :: 0 <= i < j < |ts| ==> ts[i].id.n < ts[j].id.n
  }

  /** `toasts.filter(toast => toast.id !== id)` */
  function WithoutId(ts: seq<Toast>, id: ToastId): (r: seq<Toast>)
    ensures forall i :: 0 <= i < |r| ==> r[i] in ts && r[i].id != id
    ensures forall i :: 0 <= i < |ts| && ts[i].id != id ==> ts[i] in r
    ensures (forall i :: 0 <= i < |ts| ==> ts[i].id != id) ==> r == ts
  {
    Filter(ts, (t: Toast) => t.id != id)
  }

  /** Increasing ids are pairwise distinct. */
  lemma {:induction false} IncreasingIdsDistinct(ts: seq<Toast>)
    requires IncreasingIds(ts)
    ensures forall i, j :: 0 <= i < |ts| && 0 <= j < |ts| && i != j ==> ts[i].id != ts[j].id
  {
    forall i, j | 0 <= i < |ts| && 0 <= j < |ts| && i != j ensures ts[i].id != ts[j].id {
      if i < j { assert ts[i].id.n < ts[j].id.n; } else { assert ts[j].id.n < ts[i].id.n; }
    }
  }

  /** A bound on every id survives removal. */
  lemma {:induction false} WithoutIdKeepsBound(ts: seq<Toast>, id: ToastId, b: int)
    requires forall i :: 0 <= i < |ts| ==> b < ts[i].id.n
    ensures forall k :: 0 <= k < |WithoutId(ts, id)| ==> b < WithoutId(ts, id)[k].id.n
  {
    var r := WithoutId(ts, id);
    forall k | 0 <= k < |r| ensures b < r[k].id.n {
      assert r[k] in ts;
    }
  }

  /** Removing toasts keeps the remaining ids increasing. */
  lemma {:induction false} WithoutIdKeepsIncreasing(ts: seq<Toast>, id: ToastId)
    requires IncreasingIds(ts)
    ensures IncreasingIds(WithoutId(ts, id))
  {
    if ts != [] {
      var rest := ts[1..];
      assert IncreasingIds(rest) by {
        forall i, j | 0 <= i < j < |rest| ensures rest[i].id.n < rest[j].id.n {
          assert rest[i] == ts[i + 1] && rest[j] == ts[j + 1];
        }
      }
      WithoutIdKeepsIncreasing(rest, id);
      WithoutIdCons(ts, id);
      if ts[0].id != id {
        FirstIsBelowRest(ts);
        WithoutIdKeepsBound(rest, id, ts[0].id.n);
        IncreasingCons(ts[0], WithoutId(rest, id));
      }
    }
  }

  /** Removal from a non-empty list: the head stays unless it has the id. */
  lemma {:induction false} WithoutIdCons(ts: seq<Toast>, id: ToastId)
    requires ts != []
    ensures WithoutId(ts, id) == (if ts[0].id != id then [ts[0]] else []) + WithoutId(ts[1..], id)
  {
  }

  lemma {:induction false} FirstIsBelowRest(ts: seq<Toast>)
    requires IncreasingIds(ts) && ts != []
    ensures forall i :: 0 <= i < |ts[1..]| ==> ts[0].id.n < ts[1..][i].id.n
  {
    forall i | 0 <= i < |ts[1..]| ensures ts[0].id.n < ts[1..][i].id.n {
      assert ts[1..][i] == ts[i + 1];
    }
  }

  lemma {:induction false} IncreasingCons(t: Toast, r: seq<Toast>)
    requires IncreasingIds(r)
    requires forall k :: 0 <= k < |r| ==> t.id.n < r[k].id.n
    ensures IncreasingIds([t] + r)
  {
    var s := [t] + r;
    forall i, j | 0 <= i < j < |s| ensures s[i].id.n < s[j].id.n {
      assert s[j] == r[j - 1];
      if i > 0 { assert s[i] == r[i - 1]; }
    }
  }

  /** With increasing ids, at most one toast is removed. */
  lemma {:induction false} WithoutIdRemovesAtMostOne(ts: seq<Toast>, id: ToastId)
    requires IncreasingIds(ts)
    ensures |WithoutId(ts, id)| >= |ts| - 1
  {
    if ts != [] {
      var rest := ts[1..];
      assert WithoutId(ts, id) == (if ts[0].id != id then [ts[0]] else []) + WithoutId(rest, id);
      if ts[0].id == id {
        forall k | 0 <= k < |rest| ensures rest[k].id != id {
          assert rest[k] == ts[k + 1];
        }
        assert WithoutId(rest, id) == rest;
      } else {
        WithoutIdRemovesAtMostOne(rest, id);
      }
    }
  }

  class ToastProvider {
    var toasts: seq<Toast>
    /** The module-level `toastCounter`. */
    var counter: nat
    /** Removals scheduled by `setTimeout` and not yet fired, oldest first. */
    var timers: seq<ToastId>

    ghost predicate Valid()
      reads this
    {
      IncreasingIds(toasts)
      && (forall i :: 0 <= i < |toasts| ==> 1 <= toasts[i].id.n <= counter)
      && (forall i :: 0 <= i < |timers| ==> 1 <= timers[i].n <= counter)
    }

    constructor()
      ensures Valid()
      ensures toasts == [] && counter == 0 && timers == []
    {
      toasts := [];
      counter := 0;
      timers := [];
    }

    /** `generateUniqueId()`: the counter goes up first, then names the id. */
    method GenerateUniqueId(now: int) returns (id: ToastId)
      requires Valid()
      modifies this
      ensures Valid()
      ensures counter == old(counter) + 1 && id == ToastId(counter, now)
      ensures toasts == old(toasts) && timers == old(timers)
      ensures forall i :: 0 <= i < |toasts| ==> toasts[i].id != id
      ensures forall i :: 0 <= i < |timers| ==> timers[i] != id
    {
      counter := counter + 1;
      id := ToastId(counter, now);
    }

    /** `showToast(message, type = 'info')`: one new toast at the end, under a
        fresh id, and its removal scheduled. */
    method ShowToast(message: string, kind: Option<string>, now: int) returns (id: ToastId)
      requires Valid()
      modifies this
      ensures Valid()
      ensures toasts == old(toasts) + [Toast(id, message, kind.GetOr("info"))]
      ensures timers == old(timers) + [id]
      ensures counter == old(counter) + 1 && id.n == counter
      ensures forall i :: 0 <= i < |old(toasts)| ==> old(toasts)[i].id != id
    {
      id := GenerateUniqueId(now);
      var newToast := Toast(id, message, kind.GetOr("info"));
      toasts := toasts + [newToast];
      timers := timers + [id];
    }

    /** `removeToast(id)`: only the toast with that id goes; an unknown id
        changes nothing. */
    method RemoveToast(id: ToastId)
      requires Valid()
      modifies this
      ensures Valid()
      ensures toasts == WithoutId(old(toasts), id)
      ensures |toasts| >= |old(toasts)| - 1
      ensures counter == old(counter) && timers == old(timers)
    {
      WithoutIdKeepsIncreasing(toasts, id);
      WithoutIdRemovesAtMostOne(toasts, id);
      toasts := WithoutId(toasts, id);
    }

    /** The timer at position `i` fires: it is exactly `removeToast` of the id
        it was scheduled with. */
    method Expire(i: nat)
      requires Valid() && i < |timers|
      modifies this
      ensures Valid()
      ensures toasts == WithoutId(old(toasts), old(timers)[i])
      ensures timers == old(timers)[..i] + old(timers)[i + 1..]
      ensures counter == old(counter)
    {
      var id := timers[i];
      timers := timers[..i] + timers[i + 1..];
      RemoveToast(id);
    }
  }

  /** A sequence of `showToast` calls from a fresh provider shows the toasts in
      call order, under pairwise distinct ids. */
  method ShowMany(messages: seq<string>, now: int) returns (p: ToastProvider)
    ensures fresh(p) && p.Valid()
    ensures |p.toasts| == |messages|
    ensures forall i :: 0 <= i < |messages| ==> p.toasts[i].message == messages[i] && p.toasts[i].kind == "info"
    ensures forall i, j :: 0 <= i < |p.toasts| && 0 <= j < |p.toasts| && i != j ==> p.toasts[i].id != p.toasts[j].id
  {
    p := new ToastProvider();
    var k := 0;
    while k < |messages|
      invariant 0 <= k <= |messages|
      invariant p.Valid() && |p.toasts| == k
      invariant forall i :: 0 <= i < k ==> p.toasts[i].message == messages[i] && p.toasts[i].kind == "info"
    {
      var _ := p.ShowToast(messages[k], None, now);
      k := k + 1;
    }
    IncreasingIdsDistinct(p.toasts);
  }
}
