/**
 * The parts of the web framework the controllers touch: the outcome of an action, the claims
 * of the signed-in user and the session. Sign-in and sign-out are recorded as events. The
 * permission claim holds the permission list as JSON text; here it holds the list itself.
 */
module Web {
  import opened Wrappers
  import opened Enums
  import opened ValidationResults
  import opened Linq

  /** What an action answers: a 418 validation result, 404, 500, or 200 with a value. */
  datatype ActionResult<T> = Teapot(result: ValidationResult) | NotFound | ServerError | Ok(value: T)

  /** `Constants.PaymentIdentity`, the authentication type of the identity made at login. */
  const PaymentIdentity := "PaymentGateway Identity"

  /** A claim of type `ClaimTypes.Name`, or of type `Constants.PermissionClaimType` ("Permissions"). */
  datatype Claim = NameClaim(name: string) | PermissionsClaim(permissions: Option<seq<Permission>>)

  datatype Identity = Identity(authenticationType: string, claims: seq<Claim>)

  /** A user: the identities in order. */
  type Principal = seq<Identity>

  datatype SessionEvent = SignedOut | SignedIn(principal: Principal)

  class HttpContext {
    var user: Principal
    var events: seq<SessionEvent>

    constructor(user: Principal)
      ensures this.user == user && events == []
    {
      this.user := user;
      events := [];
    }
  }

  predicate IsName(c: Claim) { c.NameClaim? }

  predicate IsPermissions(c: Claim) { c.PermissionsClaim? }

  /** The claims of every identity, in order. */
  function AllClaims(user: Principal): (r: seq<Claim>)
    ensures user == [] ==> r == []
  {
    if user == [] then [] else AllClaims(user[..|user| - 1]) + user[|user| - 1].claims
  }

  /** `User.FindFirst(ClaimTypes.Name)?.Value`. */
  function FindName(user: Principal): (r: Option<string>)
    ensures r.Some? ==> NameClaim(r.value) in AllClaims(user)
    ensures r.None? <==> forall c | c in AllClaims(user) :: !c.NameClaim?
  {
    var c := FirstOrDefault(AllClaims(user), IsName);
    if c.Some? then Some(c.value.name) else None
  }

  /** `User.FindFirst(Constants.PermissionClaimType)`. */
  function FindPermissionClaim(user: Principal): (r: Option<Claim>)
    ensures r.Some? ==> r.value.PermissionsClaim? && r.value in AllClaims(user)
    ensures r.None? <==> forall c | c in AllClaims(user) :: !c.PermissionsClaim?
  {
    FirstOrDefault(AllClaims(user), IsPermissions)
  }

  /** The permission claim as the permission filter receives it: absent, or the decoded list. */
  function PermissionClaimOf(user: Principal): Option<Option<seq<Permission>>> {
    var c := FindPermissionClaim(user);
    if c.Some? then Some(c.value.permissions) else None
  }

  /** The principal made at login: one identity with the name claim, then the permission claim. */
  function LoginPrincipal(name: string, permissions: Option<seq<Permission>>): Principal {
    [Identity(PaymentIdentity, [NameClaim(name), PermissionsClaim(permissions)])]
  }

  /** The position of `User.Identities.FirstOrDefault(i => i.AuthenticationType == PaymentIdentity)`. */
  function PaymentIdentityIndex(user: Principal): (r: Option<nat>)
    ensures r.None? <==> forall i | 0 <= i < |user| :: user[i].authenticationType != PaymentIdentity
    ensures r.Some? ==> r.value < |user| && user[r.value].authenticationType == PaymentIdentity
                        && forall i | 0 <= i < r.value :: user[i].authenticationType != PaymentIdentity
  {
    if user == [] then None
    else if user[0].authenticationType == PaymentIdentity then Some(0)
    else
      var r := PaymentIdentityIndex(user[1..]);
      if r.Some? then Some(r.value + 1) else None
  }

  /** `ClaimsIdentity.RemoveClaim`: the first claim equal to `c` is taken out. */
  function RemoveClaim(claims: seq<Claim>, c: Claim): (r: seq<Claim>)
    ensures c in claims ==> |r| == |claims| - 1 && multiset(r) == multiset(claims) - multiset{c}
    ensures c !in claims ==> r == claims
  {
    if claims == [] then []
    else if claims[0] == c then
      assert claims == [c] + claims[1..];
      claims[1..]
    else
      assert claims == [claims[0]] + claims[1..];
      [claims[0]] + RemoveClaim(claims[1..], c)
  }

  /**
   * The permission claim replaced in the payment identity: the first permission claim of the
   * user is removed from it and a claim with the new list is added at its end. A user without
   * a payment identity is left as is.
   */
  function Reissued(user: Principal, permissions: Option<seq<Permission>>): Principal {
    var i := PaymentIdentityIndex(user);
    if i.None? then user
    else
      var identity := user[i.value];
      var previous := FindPermissionClaim(user);
      var kept := if previous.Some? then RemoveClaim(identity.claims, previous.value) else identity.claims;
      user[i.value := Identity(identity.authenticationType, kept + [PermissionsClaim(permissions)])]
  }

  /** After login the filter sees the user's stored permissions, and the name claim is the login name. */
  lemma LoginPrincipalClaims(name: string, permissions: Option<seq<Permission>>)
    ensures FindName(LoginPrincipal(name, permissions)) == Some(name)
    ensures PermissionClaimOf(LoginPrincipal(name, permissions)) == Some(permissions)
  {
    var user := LoginPrincipal(name, permissions);
    assert user[..0] == [];
    var claims := [NameClaim(name), PermissionsClaim(permissions)];
    assert AllClaims(user) == claims;
    assert claims[1..] == [PermissionsClaim(permissions)];
    assert FirstOrDefault(claims, IsName) == Some(NameClaim(name));
    assert FirstOrDefault(claims[1..], IsPermissions) == Some(PermissionsClaim(permissions));
  }

  /** Re-issuing the login principal swaps the permission claim and keeps the name. */
  lemma ReissuedLoginPrincipal(name: string, previous: Option<seq<Permission>>, permissions: Option<seq<Permission>>)
    ensures Reissued(LoginPrincipal(name, previous), permissions) == LoginPrincipal(name, permissions)
  {
    var user := LoginPrincipal(name, previous);
    LoginPrincipalClaims(name, previous);
    assert FindPermissionClaim(user) == Some(PermissionsClaim(previous));
    assert PaymentIdentityIndex(user) == Some(0);
    var claims := [NameClaim(name), PermissionsClaim(previous)];
    assert claims[1..] == [PermissionsClaim(previous)];
    assert RemoveClaim(claims[1..], PermissionsClaim(previous)) == [];
    assert RemoveClaim(claims, PermissionsClaim(previous)) == [NameClaim(name)];
    var identity := Identity(PaymentIdentity, [NameClaim(name)] + [PermissionsClaim(permissions)]);
    assert Reissued(user, permissions) == user[0 := identity];
    assert [NameClaim(name)] + [PermissionsClaim(permissions)] == [NameClaim(name), PermissionsClaim(permissions)];
  }

  /** Re-issuing only ever rewrites the payment identity. */
  lemma ReissuedFrame(user: Principal, permissions: Option<seq<Permission>>)
    ensures |Reissued(user, permissions)| == |user|
    ensures forall i | 0 <= i < |user| && user[i].authenticationType != PaymentIdentity :: Reissued(user, permissions)[i] == user[i]
    ensures PaymentIdentityIndex(user).Some? ==>
              var k := PaymentIdentityIndex(user).value;
              && Reissued(user, permissions)[k].authenticationType == PaymentIdentity
              && PermissionsClaim(permissions) in Reissued(user, permissions)[k].claims
  {
  }
}
