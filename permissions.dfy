/**
 * The permission filter on API actions. Each action declares the permissions it requires;
 * a request whose permission claim does not cover them is short-circuited with 403. Coverage
 * is tested arithmetically: the enum values are summed on both sides and compared with `&`.
 */
module Permissions {
  import opened Wrappers
  import opened Enums

  /** `ps.Sum(p => (int)p)`. */
  function Sum(ps: seq<Permission>): nat {
    if ps == [] then 0 else Sum(ps[..|ps| - 1]) + Value(ps[|ps| - 1])
  }

  /** `&` on non-negative integers, bit by bit from the lowest. */
  function BitAnd(a: nat, b: nat): nat
    decreases a
  {
    if a == 0 || b == 0 then 0
    else 2 * BitAnd(a / 2, b / 2) + (if a % 2 == 1 && b % 2 == 1 then 1 else 0)
  }

  const ForbiddenStatus := 403

  /** The part of the action context the filter reads and writes. */
  class ActionExecutingContext {
    /** The permission claim of the user, already decoded: None when the user has no such claim. */
    const claim: Option<Option<seq<Permission>>>
    /** The status code of the result that short-circuits the action; None while the action may run. */
    var result: Option<int>

    constructor(claim: Option<Option<seq<Permission>>>, result: Option<int>)
      ensures this.claim == claim && this.result == result
    {
      this.claim := claim;
      this.result := result;
    }
  }

  class RequireApiPermissionAttribute {
    const requiredPermissions: seq<Permission>

    constructor(permissions: seq<Permission>)
      ensures requiredPermissions == permissions
    {
      requiredPermissions := permissions;
    }

    /** A null list holds nothing; otherwise the sums are compared bitwise. */
    predicate HasPermissions(userPermissions: Option<seq<Permission>>)
      ensures userPermissions.None? ==> !HasPermissions(userPermissions)
      ensures requiredPermissions == [] && userPermissions.Some? ==> HasPermissions(userPermissions)
    {
      userPermissions.Some? &&
      var required := Sum(requiredPermissions);
      var userHas := Sum(userPermissions.value);
      BitAnd(required, userHas) == required
    }

    /** Without a claim the request goes through untouched; with one it is refused unless covered. */
    method OnActionExecuting(context: ActionExecutingContext)
      modifies context
      ensures context.claim.None? ==> context.result == old(context.result)
      ensures context.claim.Some? && !HasPermissions(context.claim.value) ==> context.result == Some(ForbiddenStatus)
      ensures context.claim.Some? && HasPermissions(context.claim.value) ==> context.result == old(context.result)
    {
      var claim := context.claim;
      if claim.Some? {
        var userPermissions := claim.value;
        if !HasPermissions(userPermissions) {
          context.result := Some(ForbiddenStatus);
        }
      }
    }
  }

  // ---------------------------------------------------------------------------------------
  // The arithmetic test against set inclusion
  // ---------------------------------------------------------------------------------------

  predicate NoDuplicates(ps: seq<Permission>) {
    forall i, j | 0 <= i < j < |ps| :: ps[i] != ps[j]
  }

  /** The bit pattern of a set of permissions: 1 for view, 2 for create. */
  function Bits(ps: seq<Permission>): nat {
    (if PaymentView in ps then 1 else 0) + (if PaymentCreate in ps then 2 else 0)
  }

  /** Without duplicates each permission is counted once, so the sum is the bit pattern. */
  lemma {:induction false} SumOfDistinct(ps: seq<Permission>)
    requires NoDuplicates(ps)
    ensures Sum(ps) == Bits(ps)
  {
    if ps != [] {
      var init, last := ps[..|ps| - 1], ps[|ps| - 1];
      SumOfDistinct(init);
      assert last !in init;
      assert ps == init + [last];
      assert forall p :: p in ps <==> p in init || p == last;
    }
  }

  /** On two-bit patterns, `(r & g) == r` says the bits of `r` are among those of `g`. */
  lemma BitAndCovers(v1: bool, c1: bool, v2: bool, c2: bool)
    ensures var r, g := (if v1 then 1 else 0) + (if c1 then 2 else 0), (if v2 then 1 else 0) + (if c2 then 2 else 0);
            BitAnd(r, g) == r <==> (v1 ==> v2) && (c1 ==> c2)
  {
    assert BitAnd(1, 2) == 0 && BitAnd(2, 1) == 0;
    assert BitAnd(1, 1) == 1 && BitAnd(1, 3) == 1 && BitAnd(3, 1) == 1;
    assert BitAnd(2, 2) == 2 && BitAnd(2, 3) == 2 && BitAnd(3, 2) == 2;
    assert BitAnd(3, 3) == 3;
  }

  /** For duplicate-free lists the check is set inclusion: every required permission is held. */
  lemma HasPermissionsIsInclusion(attr: RequireApiPermissionAttribute, granted: seq<Permission>)
    requires NoDuplicates(attr.requiredPermissions) && NoDuplicates(granted)
    ensures attr.HasPermissions(Some(granted)) <==> forall p | p in attr.requiredPermissions :: p in granted
  {
    var required := attr.requiredPermissions;
    SumOfDistinct(required);
    SumOfDistinct(granted);
    BitAndCovers(PaymentView in required, PaymentCreate in required, PaymentView in granted, PaymentCreate in granted);
  }

  /** With duplicates the sums no longer stand for sets: requiring view twice admits a user holding only create. */
  lemma DuplicateRequirementAdmitsWrongUser(attr: RequireApiPermissionAttribute)
    requires attr.requiredPermissions == [PaymentView, PaymentView]
    ensures attr.HasPermissions(Some([PaymentCreate]))
    ensures PaymentView !in [PaymentCreate]
  {
    assert Sum([PaymentView, PaymentView]) == 2 by {
      assert [PaymentView, PaymentView][..1] == [PaymentView];
    }
    assert Sum([PaymentCreate]) == 2 by {
      assert [PaymentCreate][..0] == [];
    }
  }

  /** The filter's examples: an action needing create and view refuses a user missing either. */
  lemma CreateAndViewExamples(attr: RequireApiPermissionAttribute)
    requires attr.requiredPermissions == [PaymentCreate, PaymentView]
    ensures !attr.HasPermissions(Some([PaymentCreate]))
    ensures !attr.HasPermissions(Some([PaymentView]))
    ensures !attr.HasPermissions(Some([]))
    ensures attr.HasPermissions(Some([PaymentCreate, PaymentView]))
  {
    HasPermissionsIsInclusion(attr, [PaymentCreate]);
    HasPermissionsIsInclusion(attr, [PaymentView]);
    HasPermissionsIsInclusion(attr, []);
    HasPermissionsIsInclusion(attr, [PaymentCreate, PaymentView]);
  }
}
