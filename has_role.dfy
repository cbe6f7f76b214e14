/**
 * The role gate (middlewares/hasRole.js): a factory that takes the required
 * role and returns a middleware admitting a request only when the caller's
 * decoded `roles` list is present and contains that role.
 *
 * JavaScript passes any number of arguments to the factory; they are the
 * sequence `args`, and only the first is read.
 */
module HasRole {
  import opened Wrappers
  import opened Auth

  const Denied: Outcome := Respond(403, "Accès refusé (ROLE)")

  /** The check made for one request, given the role the factory captured (`undefined` if none). */
  function RoleCheck(role: Option<string>, user: Payload): Outcome
  {
    if user.roles.None? || role.None? || role.value !in user.roles.value then Denied else Next
  }

  /** `hasRole(...args)`: the middleware it returns, as a function of `req.user`. */
  function HasRole(args: seq<string>): (middleware: Payload -> Outcome)
    ensures forall user :: (middleware(user) == Next
      <==> |args| > 0 && user.roles.Some? && args[0] in user.roles.value)
    ensures forall user :: middleware(user) == Next || middleware(user) == Denied
  {
    var role := if |args| > 0 then Some(args[0]) else None;
    (user: Payload) => RoleCheck(role, user)
  }

  /** A caller whose token carries no `roles` claim is always refused. */
  lemma NoRolesAlwaysDenied(args: seq<string>, user: Payload)
    requires user.roles == None
    ensures HasRole(args)(user) == Denied
  {
  }

  /** Every argument after the first is ignored. */
  lemma {:induction false} OnlyFirstArgument(args: seq<string>, user: Payload)
    requires |args| >= 1
    ensures HasRole(args)(user) == HasRole([args[0]])(user)
  {
    var gate, single := HasRole(args), HasRole([args[0]]);
    if gate(user) == Next {
      assert single(user) == Next;
    } else {
      assert gate(user) == Denied;
      assert single(user) != Next;
    }
  }

  /**
   * The delete route calls `hasRole("CLIENT", "RECEPTIONNISTE")`: a caller who is
   * only a receptionist is refused there, a client is admitted.
   */
  lemma DeleteRouteAdmitsOnlyClients(email: Option<string>)
    ensures HasRole(["CLIENT", "RECEPTIONNISTE"])(Payload(email, Some(["RECEPTIONNISTE"]))) == Denied
    ensures HasRole(["CLIENT", "RECEPTIONNISTE"])(Payload(email, Some(["CLIENT"]))) == Next
  {
    var gate := HasRole(["CLIENT", "RECEPTIONNISTE"]);
    assert "CLIENT" != "RECEPTIONNISTE";
    assert "CLIENT" !in ["RECEPTIONNISTE"];
    assert gate(Payload(email, Some(["RECEPTIONNISTE"]))) != Next;
  }

  /** Called with no argument, the gate refuses everyone. */
  lemma NoArgumentDeniesAll(user: Payload)
    ensures HasRole([])(user) == Denied
  {
  }
}
