/**
 * The two admin gates: the customer shop's role-and-header chain
 * (src/middlewares/adminMiddleware.js) and the order service's API key check
 * (src/middleware/adminAuth.js). A header or a configured secret is an
 * optional string; JavaScript treats a missing one and the empty string alike
 * as falsy.
 */
module AdminGates {
  import opened Common

  datatype Decision = Pass | Deny(status: nat)

  predicate Present(v: Option<string>) {
    v.Some? && v.value != []
  }

  /** `checkAdminRole`: `req.user` is set by the JWT check that runs before; its roles decide. */
  function CheckAdminRole(user: Option<seq<string>>): (d: Decision)
    ensures d == Pass <==> user.Some? && ("admin" in user.value || "superadmin" in user.value)
    ensures d != Pass ==> d == Deny(403)
  {
    if user.Some? && ("admin" in user.value || "superadmin" in user.value) then Pass else Deny(403)
  }

  /** `checkAdminHeader`: an unset secret is a configuration error, reported before anything else. */
  function CheckAdminHeader(header: Option<string>, secret: Option<string>): (d: Decision)
    ensures !Present(secret) ==> d == Deny(500)
    ensures Present(secret) ==> (d == Pass <==> header == secret)
    ensures Present(secret) && d != Pass ==> d == Deny(401)
  {
    if !Present(secret) then Deny(500)
    else if !Present(header) || header != secret then Deny(401)
    else Pass
  }

  /** `adminAccess`: the role check, then the header check. */
  function AdminAccess(user: Option<seq<string>>, header: Option<string>, secret: Option<string>): (d: Decision)
    ensures d == Pass <==> CheckAdminRole(user) == Pass && CheckAdminHeader(header, secret) == Pass
    ensures CheckAdminRole(user) != Pass ==> d == Deny(403)
  {
    match CheckAdminRole(user)
    case Deny(s) => Deny(s)
    case Pass => CheckAdminHeader(header, secret)
  }

  /** `adminAuth`: unset key 500, missing header 401, wrong header 403. */
  function AdminAuth(header: Option<string>, key: Option<string>): (d: Decision)
    ensures !Present(key) ==> d == Deny(500)
    ensures Present(key) && !Present(header) ==> d == Deny(401)
    ensures Present(key) && Present(header) && header != key ==> d == Deny(403)
    ensures d == Pass <==> Present(key) && header == key
  {
    if !Present(key) then Deny(500)
    else if !Present(header) then Deny(401)
    else if header != key then Deny(403)
    else Pass
  }

  /** A caller without an admin role is refused with 403 even when the header is wrong or the secret unset. */
  lemma RoleCheckedFirst(user: Option<seq<string>>, header: Option<string>, secret: Option<string>)
    requires user.None? || !("admin" in user.value || "superadmin" in user.value)
    ensures AdminAccess(user, header, secret) == Deny(403)
  {
  }

  /** The two gates answer a wrong, present header differently: 401 in the shop, 403 in the order service. */
  lemma WrongKeyStatusesDiffer(header: string, key: string)
    requires header != [] && key != [] && header != key
    ensures CheckAdminHeader(Some(header), Some(key)) == Deny(401)
    ensures AdminAuth(Some(header), Some(key)) == Deny(403)
  {
  }

  /** Both gates let through exactly the configured value. */
  lemma GatesAgreeOnPass(header: Option<string>, key: Option<string>)
    ensures CheckAdminHeader(header, key) == Pass <==> AdminAuth(header, key) == Pass
  {
  }
}
