/** The role gate of src/components/RequireRole.jsx: while the session loads
    it shows a placeholder; afterwards it renders its children for a user
    whose role is allowed and otherwise renders nothing and sends the browser
    to `redirectTo`. */
module RequireRole {
  import opened JsValue
  import opened JsObject
  import opened Records

  /** The gate's props, with the defaults `allowedRoles = []` and
      `redirectTo = '/login'`. */
  datatype GateProps = GateProps(allowedRoles: seq<Value>, redirectTo: string)

  const DefaultProps := GateProps([], "/login")

  /** What the gate renders. */
  datatype Rendered = Placeholder | Children | Nothing

  /** `user && allowedRoles.includes(user.role)` */
  predicate Admits(props: GateProps, user: Option<Record>) {
    user.Some? && Prop(user.value, "role") in props.allowedRoles
  }

  /** The render decision. */
  function Render(props: GateProps, user: Option<Record>, loading: bool): (r: Rendered)
    ensures r == Placeholder <==> loading
    ensures r == Children <==> !loading && Admits(props, user)
  {
    if loading then Placeholder
    else if Admits(props, user) then Children
    else Nothing
  }

  /** The effect: where `window.location.href` is sent, if anywhere. */
  function Redirect(props: GateProps, user: Option<Record>, loading: bool): (r: Option<string>)
    ensures r.Some? ==> r.value == props.redirectTo
  {
    if !loading && (user.None? || Prop(user.value, "role") !in props.allowedRoles) then Some(props.redirectTo)
    else None
  }

  /** Once loading is over, the gate either renders its children or
      redirects, never both and never neither; while loading it does
      neither. */
  lemma {:induction false} RenderOrRedirect(props: GateProps, user: Option<Record>, loading: bool)
    ensures loading ==> Redirect(props, user, loading) == None
    ensures !loading ==> (Render(props, user, loading) == Children <==> Redirect(props, user, loading) == None)
    ensures Render(props, user, loading) == Nothing <==> Redirect(props, user, loading).Some?
  {
  }

  /** With the default props nobody is admitted, and everyone ends on the
      login page. */
  lemma {:induction false} DefaultGateDeniesEveryone(user: Option<Record>)
    ensures Render(DefaultProps, user, false) == Nothing
    ensures Redirect(DefaultProps, user, false) == Some("/login")
  {
  }
}
