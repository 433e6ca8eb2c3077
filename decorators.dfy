/**
 * The role wrappers of the moneypool views. Each looks the pool up by id
 * and the caller's poolship in it, refuses with an HTTP status, or admits
 * the call and hands the pool and the poolship to the wrapped view.
 * `.first()` is the first match in table order.
 */
module Decorators {
  import opened Common
  import opened Moneypool

  datatype Gate = Admitted(moneypool: Moneypool, poolship: Poolship) | Refused(status: int)

  function FindPool(pools: seq<Moneypool>, id: nat): (r: Option<Moneypool>)
    ensures r.Some? ==> r.value in pools && r.value.id == id
    ensures r.None? <==> forall k :: 0 <= k < |pools| ==> pools[k].id != id
  {
    if pools == [] then None
    else if pools[0].id == id then Some(pools[0])
    else FindPool(pools[1..], id)
  }

  function FindPoolship(poolships: seq<Poolship>, m: Moneypool, user: MemberId): (r: Option<Poolship>)
    ensures r.Some? ==> r.value in poolships && r.value.moneypool == m && r.value.member == user
    ensures r.None? <==> forall k :: 0 <= k < |poolships| ==> !(poolships[k].moneypool == m && poolships[k].member == user)
  {
    if poolships == [] then None
    else if poolships[0].moneypool == m && poolships[0].member == user then Some(poolships[0])
    else FindPoolship(poolships[1..], m, user)
  }

  /** `is_moneypool_member`: 404 without the pool, 404 without a poolship
      of the caller in it, else admitted. */
  function MemberGate(pools: seq<Moneypool>, poolships: seq<Poolship>, id: nat, user: MemberId): (g: Gate)
    ensures FindPool(pools, id).None? ==> g == Refused(404)
    ensures FindPool(pools, id).Some? && FindPoolship(poolships, FindPool(pools, id).value, user).None? ==>
              g == Refused(404)
    ensures g.Refused? ==> g.status == 404
    ensures g.Admitted? ==>
              && g.moneypool in pools && g.moneypool.id == id
              && g.poolship in poolships && g.poolship.moneypool == g.moneypool && g.poolship.member == user
  {
    match FindPool(pools, id)
    case None => Refused(404)
    case Some(m) =>
      match FindPoolship(poolships, m, user)
      case None => Refused(404)
      case Some(p) => Admitted(m, p)
  }

  /** `is_moneypool_owner`: as the member wrapper, then 403 unless the
      poolship's role is owner. */
  function OwnerGate(pools: seq<Moneypool>, poolships: seq<Poolship>, id: nat, user: MemberId): (g: Gate)
    ensures MemberGate(pools, poolships, id, user).Refused? ==> g == MemberGate(pools, poolships, id, user)
    ensures MemberGate(pools, poolships, id, user).Admitted? ==>
              if MemberGate(pools, poolships, id, user).poolship.role == Owner
              then g == MemberGate(pools, poolships, id, user)
              else g == Refused(403)
  {
    var g := MemberGate(pools, poolships, id, user);
    if g.Refused? then g
    else if g.poolship.role != Owner then Refused(403)
    else g
  }

  /** `is_moneypool_owner_or_manager`: as the member wrapper, then 403
      unless the poolship's role is owner or manager. */
  function OwnerOrManagerGate(pools: seq<Moneypool>, poolships: seq<Poolship>, id: nat, user: MemberId): (g: Gate)
    ensures MemberGate(pools, poolships, id, user).Refused? ==> g == MemberGate(pools, poolships, id, user)
    ensures MemberGate(pools, poolships, id, user).Admitted? ==>
              if MemberGate(pools, poolships, id, user).poolship.role in {Owner, Manager}
              then g == MemberGate(pools, poolships, id, user)
              else g == Refused(403)
  {
    var g := MemberGate(pools, poolships, id, user);
    if g.Refused? then g
    else if !(g.poolship.role == Owner || g.poolship.role == Manager) then Refused(403)
    else g
  }

  /** Whoever the owner wrapper admits, the owner-or-manager wrapper
      admits with the same pool and poolship, and so does the member
      wrapper; a refusal of the member wrapper is a refusal of all. */
  lemma AdmissionIsMonotone(pools: seq<Moneypool>, poolships: seq<Poolship>, id: nat, user: MemberId)
    ensures OwnerGate(pools, poolships, id, user).Admitted? ==>
              OwnerOrManagerGate(pools, poolships, id, user) == OwnerGate(pools, poolships, id, user)
    ensures OwnerOrManagerGate(pools, poolships, id, user).Admitted? ==>
              MemberGate(pools, poolships, id, user) == OwnerOrManagerGate(pools, poolships, id, user)
    ensures MemberGate(pools, poolships, id, user).Refused? ==>
              OwnerGate(pools, poolships, id, user).Refused? && OwnerOrManagerGate(pools, poolships, id, user).Refused?
  {
  }

  /** The wrappers admit exactly by role: a caller with a poolship in an
      existing pool is admitted by the owner wrapper iff an owner, by the
      owner-or-manager wrapper iff not a normal member. */
  lemma AdmissionByRole(pools: seq<Moneypool>, poolships: seq<Poolship>, id: nat, user: MemberId)
    requires MemberGate(pools, poolships, id, user).Admitted?
    ensures OwnerGate(pools, poolships, id, user).Admitted? <==>
              MemberGate(pools, poolships, id, user).poolship.role == Owner
    ensures OwnerOrManagerGate(pools, poolships, id, user).Admitted? <==>
              MemberGate(pools, poolships, id, user).poolship.role != Normal
  {
  }
}
