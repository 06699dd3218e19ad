/**
 A member's effective permissions, computed from the masks of the roles assigned to
 it, against a bit-by-bit account of who may do what.
 */
module Permissions {
  import opened Common
  import opened Policy

  const PERM_DEFAULT := 1
  const PERM_ALL := 0xFFFF_FFFF

  // ----- masks, bit by bit -----

  predicate Bit(mask: nat, i: nat) {
    if i == 0 then mask % 2 == 1 else Bit(mask / 2, i - 1)
  }

  /** `a | b` */
  function Or(a: nat, b: nat): nat {
    if a == 0 && b == 0 then 0
    else (if a % 2 == 1 || b % 2 == 1 then 1 else 0) + 2 * Or(a / 2, b / 2)
  }

  /** `a & !b` */
  function Without(a: nat, b: nat): nat {
    if a == 0 then 0
    else (if a % 2 == 1 && b % 2 == 0 then 1 else 0) + 2 * Without(a / 2, b / 2)
  }

  lemma Halve(bit: nat, rest: nat)
    requires bit <= 1
    ensures (bit + 2 * rest) % 2 == bit && (bit + 2 * rest) / 2 == rest
  {
  }

  lemma {:induction false} OrBit(a: nat, b: nat, i: nat)
    ensures Bit(Or(a, b), i) == (Bit(a, i) || Bit(b, i))
    decreases i
  {
    Halve(if a % 2 == 1 || b % 2 == 1 then 1 else 0, Or(a / 2, b / 2));
    if i > 0 {
      OrBit(a / 2, b / 2, i - 1);
    }
  }

  lemma {:induction false} WithoutBit(a: nat, b: nat, i: nat)
    ensures Bit(Without(a, b), i) == (Bit(a, i) && !Bit(b, i))
    decreases i
  {
    Halve(if a % 2 == 1 && b % 2 == 0 then 1 else 0, Without(a / 2, b / 2));
    if i > 0 {
      WithoutBit(a / 2, b / 2, i - 1);
    }
  }

  lemma {:induction false} ZeroBit(i: nat)
    ensures !Bit(0, i)
  {
    if i > 0 {
      ZeroBit(i - 1);
    }
  }

  function Ones(width: nat): nat {
    if width == 0 then 0 else 1 + 2 * Ones(width - 1)
  }

  lemma {:induction false} OnesBit(width: nat, i: nat)
    requires i < width
    ensures Bit(Ones(width), i)
    decreases i
  {
    if i > 0 {
      assert Ones(width) / 2 == Ones(width - 1);
      OnesBit(width - 1, i - 1);
    }
  }

  lemma PermAllBit(i: nat)
    requires i < 32
    ensures Bit(PERM_ALL, i)
  {
    assert Ones(8) == 0xFF;
    assert Ones(16) == 0xFFFF;
    assert Ones(24) == 0xFF_FFFF;
    assert Ones(32) == PERM_ALL;
    OnesBit(32, i);
  }

  lemma {:induction false} OrBelow(a: nat, b: nat, width: nat)
    requires a <= Ones(width) && b <= Ones(width)
    ensures Or(a, b) <= Ones(width)
    decreases width
  {
    if width > 0 {
      OrBelow(a / 2, b / 2, width - 1);
    }
  }

  lemma OrStays(a: nat, b: nat)
    requires a <= PERM_ALL && b <= PERM_ALL
    ensures Or(a, b) <= PERM_ALL
  {
    assert Ones(8) == 0xFF;
    assert Ones(16) == 0xFFFF;
    assert Ones(24) == 0xFF_FFFF;
    assert Ones(32) == PERM_ALL;
    OrBelow(a, b, 32);
  }

  lemma {:induction false} WithoutShrinks(a: nat, b: nat)
    ensures Without(a, b) <= a
  {
    if a > 0 {
      WithoutShrinks(a / 2, b / 2);
    }
  }

  // ----- who may do what -----

  /** Role `k` is what `id` stands for: the first in the list that carries it. */
  predicate IsRole(roles: seq<Role>, id: nat, k: nat) {
    k < |roles| && roles[k].id == id && forall j :: 0 <= j < k ==> roles[j].id != id
  }

  /** Assignment `a` is the first that names the member. */
  predicate IsAssignment(assignments: seq<(bytes, seq<nat>)>, member: bytes, a: nat) {
    a < |assignments| && assignments[a].0 == member && forall j :: 0 <= j < a ==> assignments[j].0 != member
  }

  /** `ids` are the role ids of that assignment, and none if no assignment names the member. */
  ghost predicate HasIds(assignments: seq<(bytes, seq<nat>)>, member: bytes, ids: seq<nat>) {
    && (forall a: nat :: IsAssignment(assignments, member, a) ==> ids == assignments[a].1)
    && ((forall a: nat :: !IsAssignment(assignments, member, a)) ==> ids == [])
  }

  /** Whether one of the roles that `ids` stand for has bit `i` in the mask that `pick` selects. */
  ghost predicate AnyHas(roles: seq<Role>, ids: seq<nat>, pick: Role -> nat, i: nat) {
    exists x: nat, k: nat :: x < |ids| && IsRole(roles, ids[x], k) && Bit(pick(roles[k]), i)
  }

  /**
   Whether some role of the member has bit `i` in the mask that `pick` selects: the role
   that some id of the member's assignment stands for.
   */
  ghost predicate MemberHas(p: ServerPolicy, member: bytes, pick: Role -> nat, i: nat) {
    exists a: nat :: IsAssignment(p.assignments, member, a) && AnyHas(p.roles, p.assignments[a].1, pick, i)
  }

  /** What bit `i` of a member's mask should be: denies win over grants, and the owner has every bit. */
  ghost predicate May(p: ServerPolicy, member: bytes, i: nat) {
    member == p.ownerId ||
    ((i == 0 || MemberHas(p, member, (r: Role) => r.allow, i)) && !MemberHas(p, member, (r: Role) => r.deny, i))
  }

  // ----- the computation -----

  method FindIds(assignments: seq<(bytes, seq<nat>)>, member: bytes) returns (ids: seq<nat>)
    ensures HasIds(assignments, member, ids)
  {
    for a := 0 to |assignments|
      invariant forall j :: 0 <= j < a ==> assignments[j].0 != member
    {
      if assignments[a].0 == member {
        assert IsAssignment(assignments, member, a);
        return assignments[a].1;
      }
    }
    ids := [];
  }

  lemma MemberHasExactly(p: ServerPolicy, member: bytes, ids: seq<nat>, pick: Role -> nat, i: nat)
    requires HasIds(p.assignments, member, ids)
    ensures MemberHas(p, member, pick, i) <==> AnyHas(p.roles, ids, pick, i)
  {
    if a: nat :| IsAssignment(p.assignments, member, a) {
      assert ids == p.assignments[a].1;
    }
  }

  method FindRole(roles: seq<Role>, id: nat) returns (r: Option<nat>)
    ensures r.Some? ==> IsRole(roles, id, r.value)
    ensures r.None? ==> forall k :: !IsRole(roles, id, k)
  {
    for k := 0 to |roles|
      invariant forall j :: 0 <= j < k ==> roles[j].id != id
    {
      if roles[k].id == id {
        return Some(k);
      }
    }
    r := None;
  }

  /** `mask` collects the bits that the first `x` ids bring in. */
  ghost predicate Collects(mask: nat, roles: seq<Role>, ids: seq<nat>, pick: Role -> nat) {
    forall i: nat :: Bit(mask, i) == AnyHas(roles, ids, pick, i)
  }

  lemma CollectOne(mask: nat, roles: seq<Role>, ids: seq<nat>, pick: Role -> nat, id: nat, k: nat)
    requires Collects(mask, roles, ids, pick) && IsRole(roles, id, k)
    ensures Collects(Or(mask, pick(roles[k])), roles, ids + [id], pick)
  {
    var more := ids + [id];
    forall i: nat ensures Bit(Or(mask, pick(roles[k])), i) == AnyHas(roles, more, pick, i) {
      OrBit(mask, pick(roles[k]), i);
      if AnyHas(roles, ids, pick, i) {
        var x: nat, k': nat :| x < |ids| && IsRole(roles, ids[x], k') && Bit(pick(roles[k']), i);
        assert more[x] == ids[x];
      }
      assert more[|ids|] == id;
      if AnyHas(roles, more, pick, i) {
        var x: nat, k': nat :| x < |more| && IsRole(roles, more[x], k') && Bit(pick(roles[k']), i);
        if x < |ids| {
          assert IsRole(roles, ids[x], k');
        } else {
          assert k' == k;
        }
      }
    }
  }

  lemma CollectNone(mask: nat, roles: seq<Role>, ids: seq<nat>, pick: Role -> nat, id: nat)
    requires Collects(mask, roles, ids, pick) && forall k :: !IsRole(roles, id, k)
    ensures Collects(mask, roles, ids + [id], pick)
  {
    var more := ids + [id];
    forall i: nat ensures Bit(mask, i) == AnyHas(roles, more, pick, i) {
      if AnyHas(roles, ids, pick, i) {
        var x: nat, k: nat :| x < |ids| && IsRole(roles, ids[x], k) && Bit(pick(roles[k]), i);
        assert more[x] == ids[x];
      }
      if AnyHas(roles, more, pick, i) {
        var x: nat, k: nat :| x < |more| && IsRole(roles, more[x], k) && Bit(pick(roles[k]), i);
        assert IsRole(roles, ids[x], k);
      }
    }
  }

  /** Folds the masks of the member's roles, then lets the denies win. */
  method EffectivePerms(p: ServerPolicy, member: bytes) returns (mask: nat)
    ensures forall i: nat :: i < 32 ==> Bit(mask, i) == May(p, member, i)
    ensures (forall k :: 0 <= k < |p.roles| ==> p.roles[k].allow <= PERM_ALL) ==> mask <= PERM_ALL
  {
    if member == p.ownerId {
      forall i: nat | i < 32 ensures Bit(PERM_ALL, i) {
        PermAllBit(i);
      }
      return PERM_ALL;
    }
    var allow: nat, deny: nat := 0, 0;
    ghost var allows, denies := (r: Role) => r.allow, (r: Role) => r.deny;
    var ids := FindIds(p.assignments, member);
    forall i: nat ensures !Bit(0, i) { ZeroBit(i); }
    for x := 0 to |ids|
      invariant Collects(allow, p.roles, ids[..x], allows)
      invariant Collects(deny, p.roles, ids[..x], denies)
      invariant (forall k :: 0 <= k < |p.roles| ==> p.roles[k].allow <= PERM_ALL) ==> allow <= PERM_ALL
    {
      var found := FindRole(p.roles, ids[x]);
      assert ids[..x + 1] == ids[..x] + [ids[x]];
      if found.Some? {
        CollectOne(allow, p.roles, ids[..x], allows, ids[x], found.value);
        CollectOne(deny, p.roles, ids[..x], denies, ids[x], found.value);
        if allow <= PERM_ALL && p.roles[found.value].allow <= PERM_ALL {
          OrStays(allow, p.roles[found.value].allow);
        }
        allow, deny := Or(allow, p.roles[found.value].allow), Or(deny, p.roles[found.value].deny);
      } else {
        CollectNone(allow, p.roles, ids[..x], allows, ids[x]);
        CollectNone(deny, p.roles, ids[..x], denies, ids[x]);
      }
    }
    assert ids[..|ids|] == ids;
    mask := Without(Or(PERM_DEFAULT, allow), deny);
    if allow <= PERM_ALL {
      OrStays(PERM_DEFAULT, allow);
    }
    WithoutShrinks(Or(PERM_DEFAULT, allow), deny);
    forall i: nat | i < 32 ensures Bit(mask, i) == May(p, member, i) {
      WithoutBit(Or(PERM_DEFAULT, allow), deny, i);
      OrBit(PERM_DEFAULT, allow, i);
      MemberHasExactly(p, member, ids, allows, i);
      MemberHasExactly(p, member, ids, denies, i);
      if i > 0 {
        ZeroBit(i - 1);
      }
    }
  }
}
