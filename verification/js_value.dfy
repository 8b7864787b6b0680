/** JavaScript values as the front end sees them: the primitive values that
    form fields and backend records hold, their truthiness, and the shape of
    a backend reply. */
module JsValue {

  datatype Option<+T> = None | Some(value: T) {
    function GetOr(default: T): T {
      match this
      case Some(v) => v
      case None => default
    }
  }

  /** A primitive JavaScript value. Numbers are integers here (no NaN, no fractions). */
  datatype Value = Undefined | Null | Bool(b: bool) | Num(n: int) | Str(s: string)

  /** JavaScript truthiness: `undefined`, `null`, `false`, `0` and `""` are falsy. */
  predicate Truthy(v: Value) {
    match v
    case Undefined => false
    case Null => false
    case Bool(b) => b
    case Num(n) => n != 0
    case Str(s) => s != ""
  }

  /** `a || b` on values. */
  function Or(a: Value, b: Value): (r: Value)
    ensures Truthy(a) ==> r == a
    ensures !Truthy(a) ==> r == b
  {
    if Truthy(a) then a else b
  }

  /** `a || b` on strings, where the empty string is the only falsy string. */
  function OrText(a: string, b: string): (r: string)
    ensures a != "" ==> r == a
    ensures a == "" ==> r == b
  {
    if a != "" then a else b
  }

  /** The string a field holds, or "" when it holds anything else. */
  function AsText(v: Value): (r: string)
    ensures v.Str? ==> r == v.s
    ensures !v.Str? ==> r == ""
  {
    if v.Str? then v.s else ""
  }

  /** What a call to the backend produced: a reply with `success: true` and a
      payload, a reply with `success: false` and a message ("" when the reply
      carries none), or an exception with its message. */
  datatype Reply<+T> = Ok(data: T) | Rejected(message: string) | Thrown(message: string)

  /** A toast a component asks the toast container to show: `showToast(message, type)`. */
  datatype ToastRequest = ToastRequest(message: string, kind: string)

  /** The error toast of a failed call under `showToast(response.message ||
      fallback, 'error')` and a catch that shows only the fallback: a
      rejection shows the backend's message, or the fallback when it is
      empty; an exception always shows the fallback. */
  function FailureToast<T>(reply: Reply<T>, fallback: string): (r: ToastRequest)
    requires !reply.Ok?
    ensures r.kind == "error"
    ensures reply.Rejected? && reply.message != "" ==> r.message == reply.message
    ensures reply.Thrown? || reply.message == "" ==> r.message == fallback
  {
    if reply.Rejected? then ToastRequest(OrText(reply.message, fallback), "error")
    else ToastRequest(fallback, "error")
  }

  /** One error toast per message, in order. */
  function ErrorToasts(messages: seq<string>): (r: seq<ToastRequest>)
    ensures |r| == |messages|
    ensures forall i :: 0 <= i < |r| ==> r[i] == ToastRequest(messages[i], "error")
  {
    if messages == [] then [] else [ToastRequest(messages[0], "error")] + ErrorToasts(messages[1..])
  }
}
