/**
 * The share-group views of a cashbox (cashbox_management/views/
 * share_group_function_views.py): creating a share group from a list of
 * (phone number, share residue) entries, kicking a share group out of the
 * current period, and replacing a share group's members.
 *
 * A view's response is its HTTP status (`Ok(status)`), or `Raised` for an
 * exception the view lets escape. `is_phone_number_valid` is not part of
 * this model and is the parameter `phoneValid`. The Member table
 * (`get_or_create`) is not modelled: a member is its phone number.
 */
module ShareGroupViews {
  import opened Common
  import opened Ledger
  import opened Cashbox

  /** One entry of `group_members`; either key may be missing. */
  datatype GroupMemberData = GroupMemberData(phoneNumber: Option<MemberId>, shareResidue: Option<int>)

  /** The `share_group` object of a request. */
  datatype ShareGroupData = ShareGroupData(id: Option<int>, name: Option<string>)

  /** The outcome of the first loop of `create_share_group`. */
  datatype Screening = Passed(total: int) | Rejected(status: int) | MissingResidue

  // ---------------------------------------------------------------------
  // Checks over the entries
  // ---------------------------------------------------------------------

  /** The first loop of `create_share_group`: every entry needs a phone
      number (400), a member already in a share group is refused (403), and
      a missing residue raises KeyError; otherwise the residues' total. */
  function Screen(items: seq<GroupMemberData>, ms: seq<Membership>): (r: Screening)
    reads set m | m in ms
    ensures r.Rejected? ==> r.status == 400 || r.status == 403
  {
    if items == [] then Passed(0)
    else
      var d := items[0];
      if d.phoneNumber.None? then Rejected(400)
      else if AlreadyGrouped(ms, d.phoneNumber.value) then Rejected(403)
      else if d.shareResidue.None? then MissingResidue
      else
        match Screen(items[1..], ms)
        case Passed(t) => Passed(d.shareResidue.value + t)
        case other => other
  }

  predicate AlreadyGrouped(ms: seq<Membership>, w: MemberId)
    reads set m | m in ms
  {
    var found := FindMembership(ms, w);
    found.Some? && found.value.shareGroup.Some?
  }

  /** The phone-number loop: the first entry without a phone number gives
      400, the first with an invalid one 401. */
  function PhoneCheck(items: seq<GroupMemberData>, phoneValid: MemberId -> bool): Option<int>
  {
    if items == [] then None
    else if items[0].phoneNumber.None? then Some(400)
    else if !phoneValid(items[0].phoneNumber.value) then Some(401)
    else PhoneCheck(items[1..], phoneValid)
  }

  /** The residues' total, or None when an entry has none (KeyError). */
  function ResidueTotal(items: seq<GroupMemberData>): Option<int>
  {
    if items == [] then Some(0)
    else if items[0].shareResidue.None? then None
    else
      match ResidueTotal(items[1..])
      case Some(t) => Some(items[0].shareResidue.value + t)
      case None => None
  }

  predicate Complete(items: seq<GroupMemberData>)
  {
    forall k :: 0 <= k < |items| ==> items[k].phoneNumber.Some? && items[k].shareResidue.Some?
  }

  /** The entries with both keys as (member, residue) pairs. */
  function EntriesOf(items: seq<GroupMemberData>): (r: seq<(MemberId, int)>)
    ensures |r| <= |items|
    ensures Complete(items) ==>
              (|r| == |items| && forall k :: 0 <= k < |items| ==> r[k] == (items[k].phoneNumber.value, items[k].shareResidue.value))
  {
    if items == [] then []
    else
      var d := items[0];
      assert Complete(items) ==> Complete(items[1..]) by {
        assert forall k :: 0 < k < |items| ==> items[k] == items[1..][k - 1];
      }
      (if d.phoneNumber.Some? && d.shareResidue.Some? then [(d.phoneNumber.value, d.shareResidue.value)] else [])
        + EntriesOf(items[1..])
  }

  /** The residue the assignment loop leaves on member `w`'s membership:
      that of the last entry for `w`, None when `w` is not listed. */
  function ListedResidue(entries: seq<(MemberId, int)>, w: MemberId): Option<int>
  {
    if entries == [] then None
    else if entries[|entries| - 1].0 == w then Some(entries[|entries| - 1].1)
    else ListedResidue(entries[..|entries| - 1], w)
  }

  function SumOfResidues(entries: seq<(MemberId, int)>): int
  {
    if entries == [] then 0 else entries[0].1 + SumOfResidues(entries[1..])
  }

  /** The first loop passes exactly when every entry has a phone number and
      a residue and no listed member is in a share group already; it then
      yields the residues' sum. */
  lemma {:induction false} ScreenPasses(items: seq<GroupMemberData>, ms: seq<Membership>)
    ensures Screen(items, ms).Passed? <==>
              Complete(items) && forall k :: 0 <= k < |items| ==> !AlreadyGrouped(ms, items[k].phoneNumber.value)
    ensures Screen(items, ms).Passed? ==> Screen(items, ms).total == SumOfResidues(EntriesOf(items))
  {
    if items != [] {
      ScreenPasses(items[1..], ms);
      assert forall k :: 0 < k < |items| ==> items[k] == items[1..][k - 1];
      if Complete(items) {
        assert EntriesOf(items)[1..] == EntriesOf(items[1..]);
      }
    }
  }

  /** The update's checks leave every entry with a phone number and a
      residue, and the total they compute is the residues' sum. */
  lemma {:induction false} ChecksComplete(items: seq<GroupMemberData>, phoneValid: MemberId -> bool)
    requires PhoneCheck(items, phoneValid).None? && ResidueTotal(items).Some?
    ensures Complete(items) && ResidueTotal(items).value == SumOfResidues(EntriesOf(items))
  {
    if items != [] {
      ChecksComplete(items[1..], phoneValid);
      assert forall k :: 0 < k < |items| ==> items[k] == items[1..][k - 1];
      assert EntriesOf(items)[1..] == EntriesOf(items[1..]);
    }
  }

  /** A failed phone check names the first offending entry. */
  lemma {:induction false} PhoneCheckFails(items: seq<GroupMemberData>, phoneValid: MemberId -> bool)
    ensures PhoneCheck(items, phoneValid).None? <==>
              forall k :: 0 <= k < |items| ==> items[k].phoneNumber.Some? && phoneValid(items[k].phoneNumber.value)
    ensures PhoneCheck(items, phoneValid).Some? ==> PhoneCheck(items, phoneValid).value in {400, 401}
  {
    if items != [] {
      PhoneCheckFails(items[1..], phoneValid);
      assert forall k :: 0 < k < |items| ==> items[k] == items[1..][k - 1];
    }
  }

  // ---------------------------------------------------------------------
  // The loops over the entries
  // ---------------------------------------------------------------------

  function Shift(t: int, s: Screening): Screening
  {
    if s.Passed? then Passed(t + s.total) else s
  }

  /** The first loop of `create_share_group`. */
  method ScreenMembers(items: seq<GroupMemberData>, ms: seq<Membership>) returns (s: Screening)
    ensures s == Screen(items, ms)
  {
    var total := 0;
    var i := 0;
    while i < |items|
      invariant 0 <= i <= |items|
      invariant Screen(items, ms) == Shift(total, Screen(items[i..], ms))
    {
      var d := items[i];
      assert items[i..][1..] == items[i + 1..];
      if d.phoneNumber.None? {
        return Rejected(400);
      }
      if AlreadyGrouped(ms, d.phoneNumber.value) {
        return Rejected(403);
      }
      if d.shareResidue.None? {
        return MissingResidue;
      }
      total := total + d.shareResidue.value;
      i := i + 1;
    }
    s := Passed(total);
  }

  /** A loop over the entries' phone numbers. */
  method CheckPhones(items: seq<GroupMemberData>, phoneValid: MemberId -> bool) returns (status: Option<int>)
    ensures status == PhoneCheck(items, phoneValid)
  {
    var i := 0;
    while i < |items|
      invariant 0 <= i <= |items|
      invariant PhoneCheck(items, phoneValid) == PhoneCheck(items[i..], phoneValid)
    {
      assert items[i..][1..] == items[i + 1..];
      if items[i].phoneNumber.None? {
        return Some(400);
      }
      if !phoneValid(items[i].phoneNumber.value) {
        return Some(401);
      }
      i := i + 1;
    }
    status := None;
  }

  /** The update's loop adding up `share_residue`. */
  method AddResidues(items: seq<GroupMemberData>) returns (total: Option<int>)
    ensures total == ResidueTotal(items)
  {
    var sum := 0;
    var i := 0;
    while i < |items|
      invariant 0 <= i <= |items|
      invariant ResidueTotal(items) == if ResidueTotal(items[i..]).None? then None
                                       else Some(sum + ResidueTotal(items[i..]).value)
    {
      assert items[i..][1..] == items[i + 1..];
      if items[i].shareResidue.None? {
        return None;
      }
      sum := sum + items[i].shareResidue.value;
      i := i + 1;
    }
    total := Some(sum);
  }

  // ---------------------------------------------------------------------
  // Share-group rows of a period
  // ---------------------------------------------------------------------

  function FindGroup(groups: seq<ShareGroup>, id: int): (r: Option<ShareGroup>)
    ensures r.Some? ==> r.value in groups && r.value.id as int == id
    ensures r.None? ==> forall g :: g in groups ==> g.id as int != id
  {
    if groups == [] then None
    else if groups[0].id as int == id then Some(groups[0])
    else FindGroup(groups[1..], id)
  }

  /** An id no group of the period has: one more than the largest. */
  function NextGroupId(groups: seq<ShareGroup>): (r: nat)
    ensures forall g :: g in groups ==> g.id < r
  {
    if groups == [] then 1
    else
      var rest := NextGroupId(groups[..|groups| - 1]);
      assert forall g :: g in groups ==> g in groups[..|groups| - 1] || g == groups[|groups| - 1];
      if groups[|groups| - 1].id < rest then rest else groups[|groups| - 1].id + 1
  }

  function RemoveGroup(groups: seq<ShareGroup>, id: nat): (r: seq<ShareGroup>)
    ensures forall g :: g in r <==> g in groups && g.id != id
  {
    if groups == [] then []
    else
      var rest := RemoveGroup(groups[..|groups| - 1], id);
      assert forall g :: g in groups ==> g in groups[..|groups| - 1] || g == groups[|groups| - 1];
      rest + (if groups[|groups| - 1].id == id then [] else [groups[|groups| - 1]])
  }

  function RenameGroup(groups: seq<ShareGroup>, id: nat, name: string): (r: seq<ShareGroup>)
    ensures |r| == |groups|
    ensures forall k :: 0 <= k < |groups| ==>
              r[k] == if groups[k].id == id then ShareGroup(id, name) else groups[k]
  {
    if groups == [] then []
    else
      RenameGroup(groups[..|groups| - 1], id, name) +
        [if groups[|groups| - 1].id == id then ShareGroup(id, name) else groups[|groups| - 1]]
  }

  // ---------------------------------------------------------------------
  // Releasing memberships from a group
  // ---------------------------------------------------------------------

  ghost predicate Distinct(g: seq<Membership>)
  {
    forall i, j :: 0 <= i < j < |g| ==> g[i] != g[j]
  }

  /** The first member of `group` with a successful transaction of the
      period's cycles (as payer or receiver), or `|group|`. */
  function FirstBlocked(group: seq<Membership>, txs: seq<Transaction>, cycleIds: set<nat>): (k: nat)
    ensures k <= |group|
    ensures forall j :: 0 <= j < k ==> !HasSuccessfulCycleTx(txs, cycleIds, AllAccounts, Some(group[j].member))
    ensures k < |group| ==> HasSuccessfulCycleTx(txs, cycleIds, AllAccounts, Some(group[k].member))
  {
    if group == [] then 0
    else if HasSuccessfulCycleTx(txs, cycleIds, AllAccounts, Some(group[0].member)) then 0
    else 1 + FirstBlocked(group[1..], txs, cycleIds)
  }

  /** The memberships among the first `n` of `group` that a release
      deletes: those without whole shares. */
  function Deleted(group: seq<Membership>, n: nat): set<Membership>
    requires n <= |group|
    reads (set m | m in group)`numberOfShares
  {
    set k | 0 <= k < n && group[k].numberOfShares == 0 :: group[k]
  }

  lemma DeletedStep(group: seq<Membership>, i: nat)
    requires i < |group|
    ensures Deleted(group, i + 1) == Deleted(group, i) + (if group[i].numberOfShares == 0 then {group[i]} else {})
  {
  }

  /** Resets the share group of each membership of `group` in turn and
      deletes it when it has no whole share. With `checkTransactions`
      (kick-out) it stops at the first member with a successful cycle
      transaction, leaving the memberships already released as they are;
      it returns how many it released. Memberships outside `group` are
      left alone. */
  method ReleaseGroup(p: Period, group: seq<Membership>, txs: seq<Transaction>, checkTransactions: bool)
    returns (released: nat)
    requires p.Valid() && Distinct(group)
    requires forall m :: m in group ==> m in p.memberships
    modifies p`memberships
    modifies (set m | m in group)`shareGroup, (set m | m in group)`shareResidue
    modifies (set m | m in group)`isOwnerAccept, (set m | m in group)`isMemberAccept
    ensures released == if checkTransactions then FirstBlocked(group, txs, old(p.CycleIds())) else |group|
    ensures p.Valid()
    ensures forall m :: m in p.memberships ==> m in old(p.memberships)
    ensures forall m :: m in old(p.memberships) ==> (m in p.memberships <==> m !in Deleted(group, released))
    ensures forall k :: 0 <= k < released ==> Released(group[k])
    ensures forall k :: released <= k < |group| ==> unchanged(group[k])
  {
    var cycleIds := p.CycleIds();
    ghost var stop := if checkTransactions then FirstBlocked(group, txs, cycleIds) else |group|;
    var i := 0;
    while i < |group|
      invariant 0 <= i <= stop
      invariant p.Valid()
      invariant forall m :: m in p.memberships ==> m in old(p.memberships)
      invariant forall m :: m in old(p.memberships) ==> (m in p.memberships <==> m !in Deleted(group, i))
      invariant forall k :: 0 <= k < i ==> Released(group[k])
      invariant forall k :: i <= k < |group| ==> unchanged(group[k])
    {
      var m := group[i];
      if checkTransactions && HasSuccessfulCycleTx(txs, cycleIds, AllAccounts, Some(m.member)) {
        return i;
      }
      ReleaseStep(p, group, i, m, old(p.memberships));
      i := i + 1;
    }
    released := i;
  }

  /** One turn of the loop of `ReleaseGroup`: releasing `group[i]` keeps
      the loop's invariant, with `orig` the memberships it started from. */
  method ReleaseStep(p: Period, group: seq<Membership>, i: nat, m: Membership, ghost orig: seq<Membership>)
    requires p.Valid() && Distinct(group) && i < |group| && m == group[i]
    requires forall m :: m in group ==> m in orig
    requires forall m :: m in p.memberships ==> m in orig
    requires forall m :: m in orig ==> (m in p.memberships <==> m !in Deleted(group, i))
    requires forall k :: i <= k < |group| ==> group[k] in p.memberships
    modifies p`memberships, m`shareGroup, m`shareResidue, m`isOwnerAccept, m`isMemberAccept
    ensures p.Valid() && Released(m)
    ensures forall m :: m in p.memberships ==> m in orig
    ensures forall m :: m in orig ==> (m in p.memberships <==> m !in Deleted(group, i + 1))
  {
    ReleaseOne(p, m);
    DeletedStep(group, i);
    forall x | x in orig
      ensures x in p.memberships <==> x !in Deleted(group, i + 1)
    {
      if x == m {
        assert x !in Deleted(group, i);
      }
    }
  }

  /** A membership released from its share group: no group, no residue,
      and withdrawn (deleted) when it has no whole share. */
  predicate Released(m: Membership)
    reads m`shareGroup, m`shareResidue, m`numberOfShares, m`isOwnerAccept, m`isMemberAccept
  {
    m.shareGroup.None? && m.shareResidue == 0 && (m.numberOfShares == 0 ==> !m.IsValid())
  }

  /** `reset_share_group`, then `delete` for a membership without shares. */
  method ReleaseOne(p: Period, m: Membership)
    requires p.Valid() && m in p.memberships
    modifies p`memberships, m`shareGroup, m`shareResidue, m`isOwnerAccept, m`isMemberAccept
    ensures p.Valid() && Released(m)
    ensures p.memberships == if m.numberOfShares == 0 then Without(old(p.memberships), m) else old(p.memberships)
  {
    m.ResetShareGroup();
    if m.numberOfShares == 0 {
      m.Delete();
    }
  }

  // ---------------------------------------------------------------------
  // Assigning memberships to a group
  // ---------------------------------------------------------------------

  /** A membership as the views create it for a listed member without
      one: no whole shares, nothing paid, nothing won, accepted. */
  predicate Enrolled(m: Membership)
    reads m`role, m`percentageBalance, m`numberOfShares, m`wonShares, m`roscaCommission
    reads m`isOwnerAccept, m`isMemberAccept
  {
    && m.role == Role.Normal && m.percentageBalance == 0.0 && m.numberOfShares == 0
    && m.wonShares == 0 && m.roscaCommission == 0 && m.isOwnerAccept && m.isMemberAccept
  }

  /** What the assignment loop leaves: the old memberships are kept and
      the new ones are fresh, enrolled listed members; every listed
      member's membership is in group `gid` with the residue of its last
      entry, and the other memberships keep their group and residue. */
  twostate predicate Assigned(p: Period, new entries: seq<(MemberId, int)>, gid: nat)
    reads p, set m | m in p.memberships
  {
    && old(p.memberships) <= p.memberships
    && (forall m :: m in p.memberships && m !in old(p.memberships) ==>
          fresh(m) && Enrolled(m) && ListedResidue(entries, m.member).Some?)
    && (forall m :: m in p.memberships ==>
          match ListedResidue(entries, m.member)
          case Some(r) => m.shareGroup == Some(gid) && m.shareResidue == r
          case None => old(allocated(m)) && m.shareGroup == old(m.shareGroup) && m.shareResidue == old(m.shareResidue))
    && (forall k :: 0 <= k < |entries| ==> FindMembership(p.memberships, entries[k].0).Some?)
  }

  /** The last loop of create and update: each listed member's membership,
      created with no shares when missing, joins group `gid` with its
      residue. */
  method AssignGroup(p: Period, entries: seq<(MemberId, int)>, gid: nat)
    requires p.Valid()
    modifies p`memberships, (set m | m in p.memberships)`shareGroup, (set m | m in p.memberships)`shareResidue
    ensures p.Valid() && Assigned(p, entries, gid)
  {
    ghost var orig := p.memberships;
    ghost var groups: map<Membership, Option<nat>> := map m: Membership | m in orig :: m.shareGroup;
    ghost var residues: map<Membership, int> := map m: Membership | m in orig :: m.shareResidue;
    var i := 0;
    ghost var done := [];
    while i < |entries|
      invariant 0 <= i <= |entries| && done == entries[..i]
      invariant p.Valid() && AssignedSoFar(p, done, gid, orig, groups, residues)
      invariant forall m :: m in p.memberships && m !in orig ==> fresh(m)
    {
      AssignStep(p, entries, i, gid, orig, groups, residues);
      done := entries[..i + 1];
      i := i + 1;
    }
    assert entries[..i] == entries;
  }

  /** The loop invariant of `AssignGroup` after the entries `done`, against
      the memberships `orig` it started from and their groups and residues
      then. */
  ghost predicate AssignedSoFar(p: Period, done: seq<(MemberId, int)>, gid: nat, orig: seq<Membership>,
                                groups: map<Membership, Option<nat>>, residues: map<Membership, int>)
    reads p`memberships, set m | m in p.memberships
  {
    && orig <= p.memberships
    && (forall m :: m in p.memberships && m !in orig ==> Enrolled(m) && ListedResidue(done, m.member).Some?)
    && (forall m :: m in p.memberships ==>
          match ListedResidue(done, m.member)
          case Some(r) => m.shareGroup == Some(gid) && m.shareResidue == r
          case None => m in groups && m in residues && m.shareGroup == groups[m] && m.shareResidue == residues[m])
    && (forall e :: e in done ==> FindMembership(p.memberships, e.0).Some?)
  }

  /** One iteration of `AssignGroup`'s loop. */
  method AssignStep(p: Period, entries: seq<(MemberId, int)>, i: nat, gid: nat, ghost orig: seq<Membership>,
                    ghost groups: map<Membership, Option<nat>>, ghost residues: map<Membership, int>)
    requires i < |entries| && p.Valid() && AssignedSoFar(p, entries[..i], gid, orig, groups, residues)
    modifies p`memberships, (set m | m in p.memberships)`shareGroup, (set m | m in p.memberships)`shareResidue
    ensures p.Valid() && AssignedSoFar(p, entries[..i + 1], gid, orig, groups, residues)
    ensures old(p.memberships) <= p.memberships
    ensures forall m :: m in p.memberships && m !in old(p.memberships) ==> fresh(m)
  {
    assert entries[..i + 1] == entries[..i] + [entries[i]];
    AssignOne(p, entries[i].0, entries[i].1, gid);
    ListedStep(entries, i);
    forall m | m in p.memberships
      ensures match ListedResidue(entries[..i + 1], m.member)
              case Some(r) => m.shareGroup == Some(gid) && m.shareResidue == r
              case None => m in groups && m in residues && m.shareGroup == groups[m] && m.shareResidue == residues[m]
    {
      if m.member != entries[i].0 {
        assert m in old(p.memberships);
      }
    }
    FindInExtensionAll(old(p.memberships), p.memberships);
    forall m | m in p.memberships && m !in orig
      ensures Enrolled(m) && ListedResidue(entries[..i + 1], m.member).Some?
    {
    }
    assert forall e :: e in entries[..i + 1] ==> FindMembership(p.memberships, e.0).Some?;
  }

  lemma ListedStep(entries: seq<(MemberId, int)>, i: nat)
    requires i < |entries|
    ensures forall x :: ListedResidue(entries[..i + 1], x) ==
                          if x == entries[i].0 then Some(entries[i].1) else ListedResidue(entries[..i], x)
  {
    var e := entries[..i + 1];
    assert e[..i] == entries[..i] && e[i] == entries[i];
    forall x ensures ListedResidue(e, x) == if x == entries[i].0 then Some(entries[i].1) else ListedResidue(entries[..i], x) {
      assert e[|e| - 1] == entries[i] && e[..|e| - 1] == entries[..i];
    }
  }

  /** One step of the assignment loop, for member `w`. */
  method AssignOne(p: Period, w: MemberId, residue: int, gid: nat)
    requires p.Valid()
    modifies p`memberships, (set m | m in p.memberships)`shareGroup, (set m | m in p.memberships)`shareResidue
    ensures p.Valid() && old(p.memberships) <= p.memberships
    ensures forall m :: m in p.memberships && m !in old(p.memberships) ==> fresh(m) && Enrolled(m) && m.member == w
    ensures forall m :: m in p.memberships ==>
              if m.member == w then m.shareGroup == Some(gid) && m.shareResidue == residue
              else m.shareGroup == old(m.shareGroup) && m.shareResidue == old(m.shareResidue)
    ensures FindMembership(p.memberships, w).Some?
  {
    var found := FindMembership(p.memberships, w);
    var m: Membership;
    if found.None? {
      m := p.CreateMembership(w, 0);
    } else {
      m := found.value;
    }
    m.SetShareGroup(Some(gid), residue);
    SameMemberIsThis(p.memberships, m);
  }

  lemma SameMemberIsThis(ms: seq<Membership>, x: Membership)
    requires UniqueMembers(ms) && x in ms
    ensures forall m :: m in ms && m.member == x.member ==> m == x
  {
    forall m | m in ms && m.member == x.member ensures m == x {
      SameMemberSameMembership(ms, m, x);
    }
  }

  /** Appending memberships does not change whom a lookup finds. */
  lemma FindInExtensionAll(ms: seq<Membership>, ms': seq<Membership>)
    requires ms <= ms'
    ensures forall w :: FindMembership(ms, w).Some? ==> FindMembership(ms', w) == FindMembership(ms, w)
  {
    forall w | FindMembership(ms, w).Some? ensures FindMembership(ms', w) == FindMembership(ms, w) {
      FindInExtension(ms, ms', w);
    }
  }

  lemma {:induction false} FindInExtension(ms: seq<Membership>, ms': seq<Membership>, w: MemberId)
    requires ms <= ms' && FindMembership(ms, w).Some?
    ensures FindMembership(ms', w) == FindMembership(ms, w)
  {
    if ms[0].member != w {
      assert ms[1..] <= ms'[1..];
      FindInExtension(ms[1..], ms'[1..], w);
    }
  }

  // ---------------------------------------------------------------------
  // Group membership facts
  // ---------------------------------------------------------------------

  lemma {:induction false} UniqueIsDistinct(ms: seq<Membership>)
    requires UniqueMembers(ms)
    ensures Distinct(ms)
  {
    if ms != [] {
      var init := ms[..|ms| - 1];
      UniqueIsDistinct(init);
      assert forall k :: 0 <= k < |init| ==> init[k] == ms[k];
    }
  }

  /** A group of distinct memberships holds each of them once. */
  lemma {:induction false} GroupOfDistinct(ms: seq<Membership>, g: nat)
    requires Distinct(ms)
    ensures Distinct(GroupOf(ms, g))
  {
    if ms != [] {
      var init, last := ms[..|ms| - 1], ms[|ms| - 1];
      assert forall k :: 0 <= k < |init| ==> init[k] == ms[k];
      GroupOfDistinct(init, g);
      var r := GroupOf(init, g);
      if last.shareGroup == Some(g) {
        assert last !in init;
        var s := [last] + r;
        assert GroupOf(ms, g) == s;
        forall i, j | 0 <= i < j < |s| ensures s[i] != s[j] {
          if i == 0 {
            assert s[j] in r;
          } else {
            assert s[i] == r[i - 1] && s[j] == r[j - 1];
          }
        }
      } else {
        assert GroupOf(ms, g) == r;
      }
    }
  }

  lemma EmptyGroup(p: Period, g: nat)
    requires forall m :: m in p.memberships ==> m.shareGroup != Some(g)
    ensures p.GroupMemberships(g) == []
  {
    GroupOfNone(p.memberships, g);
  }

  lemma {:induction false} GroupOfNone(ms: seq<Membership>, g: nat)
    requires forall m :: m in ms ==> m.shareGroup != Some(g)
    ensures GroupOf(ms, g) == []
  {
    if ms != [] {
      GroupOfNone(ms[..|ms| - 1], g);
      assert ms[|ms| - 1] in ms;
    }
  }

  // ---------------------------------------------------------------------
  // The views
  // ---------------------------------------------------------------------

  /** Whether `share_group` asks for a new group (no id, or id 0). */
  predicate NewGroupRequested(d: ShareGroupData)
  {
    d.id.None? || d.id == Some(0)
  }

  /** The group a create request fills: a new one with the next id, or
      the period's group with the given id; None when there is none. */
  function TargetGroup(groups: seq<ShareGroup>, d: ShareGroupData): (r: Option<nat>)
    ensures NewGroupRequested(d) ==> r == Some(NextGroupId(groups))
    ensures !NewGroupRequested(d) ==> (r.Some? <==> exists g :: g in groups && g.id as int == d.id.value)
  {
    if NewGroupRequested(d) then Some(NextGroupId(groups))
    else match FindGroup(groups, d.id.value)
      case Some(g) => Some(g.id)
      case None => None
  }

  /** The period's groups after a successful create. */
  function GroupsAfterCreate(groups: seq<ShareGroup>, d: ShareGroupData): seq<ShareGroup>
  {
    if NewGroupRequested(d) then groups + [ShareGroup(NextGroupId(groups), if d.name.Some? then d.name.value else "")]
    else groups
  }

  /** The response of `create_share_group` on a period. */
  function CreateStatus(p: Period, items: Option<seq<GroupMemberData>>, groupData: Option<ShareGroupData>,
                        phoneValid: MemberId -> bool): Result<int>
    reads p, set m | m in p.memberships
  {
    if items.None? then Ok(400)
    else if p.isTerminated then Ok(403)
    else match Screen(items.value, p.memberships)
      case Rejected(status) => Ok(status)
      case MissingResidue => Raised("KeyError")
      case Passed(total) =>
        if total != p.shareValue then Ok(400)
        else if PhoneCheck(items.value, phoneValid).Some? then Ok(PhoneCheck(items.value, phoneValid).value)
        else if groupData.None? || TargetGroup(p.shareGroups, groupData.value).None? then Ok(400)
        else if items.value == [] then Raised("UnboundLocalError")
        else Ok(200)
  }

  /** A create request succeeds exactly when the entries are complete,
      valid, not grouped yet and add up to the share value, and the
      request names a new group or one of the period's. */
  lemma CreateSucceeds(p: Period, items: Option<seq<GroupMemberData>>, groupData: Option<ShareGroupData>,
                       phoneValid: MemberId -> bool)
    ensures CreateStatus(p, items, groupData, phoneValid) == Ok(200) <==>
              && items.Some? && items.value != [] && !p.isTerminated && Complete(items.value)
              && (forall k :: 0 <= k < |items.value| ==>
                    !AlreadyGrouped(p.memberships, items.value[k].phoneNumber.value) &&
                    phoneValid(items.value[k].phoneNumber.value))
              && SumOfResidues(EntriesOf(items.value)) == p.shareValue
              && groupData.Some? && TargetGroup(p.shareGroups, groupData.value).Some?
  {
    if items.Some? {
      ScreenPasses(items.value, p.memberships);
      PhoneCheckFails(items.value, phoneValid);
    }
  }

  /** `create_share_group` on the current period `p`. Every refusal
      leaves the period as it was; on success (and on the
      UnboundLocalError an empty list raises after the writes) the target
      group exists and holds exactly the listed members. */
  method CreateShareGroup(p: Period, items: Option<seq<GroupMemberData>>, groupData: Option<ShareGroupData>,
                          phoneValid: MemberId -> bool) returns (r: Result<int>)
    requires p.Valid()
    modifies p`memberships, p`shareGroups
    modifies (set m | m in p.memberships)`shareGroup, (set m | m in p.memberships)`shareResidue
    ensures p.Valid()
    ensures r == old(CreateStatus(p, items, groupData, phoneValid))
    ensures r != Ok(200) && r != Raised("UnboundLocalError") ==>
              unchanged(p) && forall m :: m in old(p.memberships) ==> unchanged(m)
    ensures r == Ok(200) || r == Raised("UnboundLocalError") ==>
              && items.Some? && groupData.Some?
              && old(TargetGroup(p.shareGroups, groupData.value)).Some?
              && p.shareGroups == old(GroupsAfterCreate(p.shareGroups, groupData.value))
              && Assigned(p, EntriesOf(items.value), old(TargetGroup(p.shareGroups, groupData.value)).value)
  {
    if items.None? {
      return Ok(400);
    }
    if p.isTerminated {
      return Ok(403);
    }
    var screening := ScreenMembers(items.value, p.memberships);
    match screening
    case Rejected(status) =>
      return Ok(status);
    case MissingResidue =>
      return Raised("KeyError");
    case Passed(total) =>
      if total != p.shareValue {
        return Ok(400);
      }
    var phones := CheckPhones(items.value, phoneValid);
    if phones.Some? {
      PhoneCheckFails(items.value, phoneValid);
      return Ok(phones.value);
    }
    if groupData.None? {
      return Ok(400);
    }
    var target := TargetGroup(p.shareGroups, groupData.value);
    if target.None? {
      return Ok(400);
    }
    if NewGroupRequested(groupData.value) {
      var name := if groupData.value.name.Some? then groupData.value.name.value else "";
      p.shareGroups := p.shareGroups + [ShareGroup(target.value, name)];
    }
    AssignGroup(p, EntriesOf(items.value), target.value);
    if items.value == [] {
      return Raised("UnboundLocalError");
    }
    r := Ok(200);
  }

  // ---------------------------------------------------------------------
  // Kick-out
  // ---------------------------------------------------------------------

  /** The refusals `kick_out_share_group` makes before touching anything:
      400 once an activated box is past its first cycle, 403 for a
      terminated period, 404 when the period has no group `gid`. */
  function KickOutRefusal(box: Cashbox, p: Period, gid: nat): (r: Option<int>)
    reads box, p
    ensures r.None? <==> !(box.state == Activated && p.cycleIndex > 1) && !p.isTerminated &&
                         exists g :: g in p.shareGroups && g.id == gid
  {
    if box.state == Activated && p.cycleIndex > 1 then Some(400)
    else if p.isTerminated then Some(403)
    else if FindGroup(p.shareGroups, gid).None? then Some(404)
    else None
  }

  /** `kick_out_share_group` on the current period `p` of `box`, given the
      ledger's transactions. Past the refusals it releases the group's
      memberships one by one, newest first, and stops with 400 at the first member with a
      successful cycle transaction, keeping the memberships released
      before it (there is no rollback). When all are released no
      membership is left in the group, so the source's "still a member"
      400 cannot occur, and the group is deleted. */
  method KickOutShareGroup(box: Cashbox, p: Period, gid: nat, txs: seq<Transaction>) returns (status: int)
    requires p.Valid()
    modifies p`memberships, p`shareGroups
    modifies (set m | m in p.memberships)`shareGroup, (set m | m in p.memberships)`shareResidue
    modifies (set m | m in p.memberships)`isOwnerAccept, (set m | m in p.memberships)`isMemberAccept
    ensures p.Valid()
    ensures old(KickOutRefusal(box, p, gid)).Some? ==>
              && status == old(KickOutRefusal(box, p, gid)).value
              && unchanged(p) && forall m :: m in old(p.memberships) ==> unchanged(m)
    ensures old(KickOutRefusal(box, p, gid)).None? ==>
              var group := old(p.GroupMemberships(gid));
              var k := FirstBlocked(group, txs, old(p.CycleIds()));
              && (forall j :: 0 <= j < k ==> Released(group[j]))
              && (forall j :: k <= j < |group| ==> group[j] in old(p.memberships) && unchanged(group[j]))
              && (forall m :: m in old(p.memberships) ==> (m in p.memberships <==> m !in Deleted(group, k)))
              && (forall m :: m in p.memberships ==> m in old(p.memberships))
              && (forall m :: m in old(p.memberships) && m !in group ==> m in p.memberships && unchanged(m))
              && (k < |group| ==> status == 400 && p.shareGroups == old(p.shareGroups))
              && (k == |group| ==>
                    && status == 200
                    && p.shareGroups == RemoveGroup(old(p.shareGroups), gid)
                    && forall m :: m in p.memberships ==> m.shareGroup != Some(gid))
  {
    if box.state == Activated && p.cycleIndex > 1 {
      return 400;
    }
    if p.isTerminated {
      return 403;
    }
    if FindGroup(p.shareGroups, gid).None? {
      return 404;
    }
    status := KickOutMembers(p, gid, txs);
  }

  /** The part of `kick_out_share_group` past its refusals: release the
      group's memberships, and delete the group once all are released. */
  method KickOutMembers(p: Period, gid: nat, txs: seq<Transaction>) returns (status: int)
    requires p.Valid()
    modifies p`memberships, p`shareGroups
    modifies (set m | m in p.memberships)`shareGroup, (set m | m in p.memberships)`shareResidue
    modifies (set m | m in p.memberships)`isOwnerAccept, (set m | m in p.memberships)`isMemberAccept
    ensures p.Valid()
    ensures var group := old(p.GroupMemberships(gid));
            var k := FirstBlocked(group, txs, old(p.CycleIds()));
            && (forall j :: 0 <= j < k ==> Released(group[j]))
            && (forall j :: k <= j < |group| ==> group[j] in old(p.memberships) && unchanged(group[j]))
            && (forall m :: m in old(p.memberships) ==> (m in p.memberships <==> m !in Deleted(group, k)))
            && (forall m :: m in p.memberships ==> m in old(p.memberships))
            && (forall m :: m in old(p.memberships) && m !in group ==> m in p.memberships && unchanged(m))
            && (k < |group| ==> status == 400 && p.shareGroups == old(p.shareGroups))
            && (k == |group| ==>
                  && status == 200
                  && p.shareGroups == RemoveGroup(old(p.shareGroups), gid)
                  && forall m :: m in p.memberships ==> m.shareGroup != Some(gid))
  {
    var group, released := ReleaseShareGroup(p, gid, txs, true);
    if released < |group| {
      return 400;
    }
    p.shareGroups := RemoveGroup(p.shareGroups, gid);
    status := 200;
  }

  /** Releases the memberships of share group `gid` (see ReleaseGroup);
      once all are released, no membership of the period is in the group. */
  method ReleaseShareGroup(p: Period, gid: nat, txs: seq<Transaction>, checkTransactions: bool)
    returns (group: seq<Membership>, released: nat)
    requires p.Valid()
    modifies p`memberships
    modifies (set m | m in p.memberships)`shareGroup, (set m | m in p.memberships)`shareResidue
    modifies (set m | m in p.memberships)`isOwnerAccept, (set m | m in p.memberships)`isMemberAccept
    ensures group == old(p.GroupMemberships(gid)) && p.Valid()
    ensures released == if checkTransactions then FirstBlocked(group, txs, old(p.CycleIds())) else |group|
    ensures forall m :: m in p.memberships ==> m in old(p.memberships)
    ensures forall m :: m in old(p.memberships) ==> (m in p.memberships <==> m !in Deleted(group, released))
    ensures forall k :: 0 <= k < released ==> Released(group[k])
    ensures forall k :: released <= k < |group| ==> group[k] in old(p.memberships) && unchanged(group[k])
    ensures forall m :: m in old(p.memberships) && m !in group ==> m in p.memberships && unchanged(m)
    ensures released == |group| ==> forall m :: m in p.memberships ==> m.shareGroup != Some(gid)
  {
    group := p.GroupMemberships(gid);
    UniqueIsDistinct(p.memberships);
    GroupOfDistinct(p.memberships, gid);
    released := ReleaseGroup(p, group, txs, checkTransactions);
    if released == |group| {
      forall m | m in p.memberships && m !in group ensures m.shareGroup != Some(gid) {
        assert m in old(p.memberships);
      }
      NoneLeftInGroup(p, gid, group);
    }
  }

  /** Once every membership of a group is released and no other
      membership is in it, the group is empty. */
  lemma NoneLeftInGroup(p: Period, gid: nat, group: seq<Membership>)
    requires forall k :: 0 <= k < |group| ==> Released(group[k])
    requires forall m :: m in p.memberships && m !in group ==> m.shareGroup != Some(gid)
    ensures forall m :: m in p.memberships ==> m.shareGroup != Some(gid)
  {
    forall m | m in p.memberships ensures m.shareGroup != Some(gid) {
      if m in group {
        var j :| 0 <= j < |group| && group[j] == m;
      }
    }
  }

  // ---------------------------------------------------------------------
  // Update
  // ---------------------------------------------------------------------

  /** With every entry complete, the residues' total is their sum. */
  lemma {:induction false} ResidueTotalOfComplete(items: seq<GroupMemberData>)
    requires Complete(items)
    ensures ResidueTotal(items) == Some(SumOfResidues(EntriesOf(items)))
  {
    if items != [] {
      assert forall k :: 0 < k < |items| ==> items[k] == items[1..][k - 1];
      ResidueTotalOfComplete(items[1..]);
      assert EntriesOf(items)[1..] == EntriesOf(items[1..]);
    }
  }

  /** The response of `update_share_group` for group `gid` of period `p`:
      the entries are checked first (400 without a phone number, 401 for
      an invalid one), then the period (403 terminated or past its first
      cycle), the group (404), and the residues (KeyError when one is
      missing, 400 unless they add up to the share value). */
  function UpdateStatus(p: Period, gid: nat, items: Option<seq<GroupMemberData>>,
                        phoneValid: MemberId -> bool): Result<int>
    reads p
  {
    if items.None? then Ok(400)
    else if PhoneCheck(items.value, phoneValid).Some? then Ok(PhoneCheck(items.value, phoneValid).value)
    else if p.isTerminated then Ok(403)
    else if p.cycleIndex > 1 then Ok(403)
    else if FindGroup(p.shareGroups, gid).None? then Ok(404)
    else if ResidueTotal(items.value).None? then Raised("KeyError")
    else if ResidueTotal(items.value).value != p.shareValue then Ok(400)
    else Ok(200)
  }

  /** An update succeeds exactly when every entry has a valid phone number
      and a residue, the residues add up to the share value, the period is
      open and still on its first cycle, and the group is the period's. */
  lemma UpdateSucceeds(p: Period, gid: nat, items: Option<seq<GroupMemberData>>, phoneValid: MemberId -> bool)
    ensures UpdateStatus(p, gid, items, phoneValid) == Ok(200) <==>
              && items.Some? && Complete(items.value)
              && (forall k :: 0 <= k < |items.value| ==> phoneValid(items.value[k].phoneNumber.value))
              && SumOfResidues(EntriesOf(items.value)) == p.shareValue
              && !p.isTerminated && p.cycleIndex <= 1
              && exists g :: g in p.shareGroups && g.id == gid
  {
    if items.Some? {
      PhoneCheckFails(items.value, phoneValid);
      if Complete(items.value) {
        ResidueTotalOfComplete(items.value);
      }
      if PhoneCheck(items.value, phoneValid).None? && ResidueTotal(items.value).Some? {
        ChecksComplete(items.value, phoneValid);
      }
    }
  }

  /** `update_share_group`: past the checks it renames the group when a
      name is given, releases every membership of the group (deleting those
      without whole shares) and then puts exactly the listed members in
      the group with their residues; other memberships keep their group. */
  method UpdateShareGroup(p: Period, gid: nat, items: Option<seq<GroupMemberData>>,
                          groupData: Option<ShareGroupData>, phoneValid: MemberId -> bool)
    returns (r: Result<int>)
    requires p.Valid()
    modifies p`memberships, p`shareGroups
    modifies (set m | m in p.memberships)`shareGroup, (set m | m in p.memberships)`shareResidue
    modifies (set m | m in p.memberships)`isOwnerAccept, (set m | m in p.memberships)`isMemberAccept
    ensures p.Valid()
    ensures r == old(UpdateStatus(p, gid, items, phoneValid))
    ensures r != Ok(200) ==> unchanged(p) && forall m :: m in old(p.memberships) ==> unchanged(m)
    ensures r == Ok(200) ==>
              var entries := EntriesOf(items.value);
              && p.shareGroups == (if groupData.Some? && groupData.value.name.Some?
                                   then RenameGroup(old(p.shareGroups), gid, groupData.value.name.value)
                                   else old(p.shareGroups))
              && (forall k :: 0 <= k < |entries| ==> FindMembership(p.memberships, entries[k].0).Some?)
              && (forall m :: m in p.memberships ==>
                    match ListedResidue(entries, m.member)
                    case Some(res) => m.shareGroup == Some(gid) && m.shareResidue == res
                    case None => m.shareGroup != Some(gid))
              && (forall m :: m in old(p.memberships) ==>
                    (m in p.memberships <==> !(old(m.shareGroup) == Some(gid) && m.numberOfShares == 0)))
              && (forall m :: m in p.memberships && m !in old(p.memberships) ==>
                    fresh(m) && Enrolled(m) && ListedResidue(entries, m.member).Some?)
              && (forall m :: m in old(p.memberships) && old(m.shareGroup) != Some(gid) &&
                               ListedResidue(entries, m.member).None? ==>
                    && m.shareGroup == old(m.shareGroup) && m.shareResidue == old(m.shareResidue)
                    && m.isOwnerAccept == old(m.isOwnerAccept) && m.isMemberAccept == old(m.isMemberAccept))
              && (forall m :: (m in old(p.memberships) && m in p.memberships && old(m.shareGroup) == Some(gid) &&
                                ListedResidue(entries, m.member).None?) ==> Released(m))
  {
    if items.None? {
      return Ok(400);
    }
    var phones := CheckPhones(items.value, phoneValid);
    if phones.Some? {
      PhoneCheckFails(items.value, phoneValid);
      return Ok(phones.value);
    }
    if p.isTerminated {
      return Ok(403);
    }
    if p.cycleIndex > 1 {
      return Ok(403);
    }
    if FindGroup(p.shareGroups, gid).None? {
      return Ok(404);
    }
    var total := AddResidues(items.value);
    if total.None? {
      return Raised("KeyError");
    }
    if total.value != p.shareValue {
      return Ok(400);
    }
    if groupData.Some? && groupData.value.name.Some? {
      p.shareGroups := RenameGroup(p.shareGroups, gid, groupData.value.name.value);
    }
    Regroup(p, gid, EntriesOf(items.value));
    r := Ok(200);
  }

  /** The writes of `update_share_group` past its checks: every membership
      of group `gid` is released, then exactly the listed members join it. */
  method Regroup(p: Period, gid: nat, entries: seq<(MemberId, int)>)
    requires p.Valid()
    modifies p`memberships
    modifies (set m | m in p.memberships)`shareGroup, (set m | m in p.memberships)`shareResidue
    modifies (set m | m in p.memberships)`isOwnerAccept, (set m | m in p.memberships)`isMemberAccept
    ensures p.Valid()
    ensures forall k :: 0 <= k < |entries| ==> FindMembership(p.memberships, entries[k].0).Some?
    ensures forall m :: m in p.memberships ==>
              match ListedResidue(entries, m.member)
              case Some(res) => m.shareGroup == Some(gid) && m.shareResidue == res
              case None => m.shareGroup != Some(gid)
    ensures forall m :: m in old(p.memberships) ==>
              (m in p.memberships <==> !(old(m.shareGroup) == Some(gid) && m.numberOfShares == 0))
    ensures forall m :: m in p.memberships && m !in old(p.memberships) ==>
              fresh(m) && Enrolled(m) && ListedResidue(entries, m.member).Some?
    ensures forall m :: m in old(p.memberships) && old(m.shareGroup) != Some(gid) && ListedResidue(entries, m.member).None? ==>
              && m.shareGroup == old(m.shareGroup) && m.shareResidue == old(m.shareResidue)
              && m.isOwnerAccept == old(m.isOwnerAccept) && m.isMemberAccept == old(m.isMemberAccept)
    ensures forall m :: (m in old(p.memberships) && m in p.memberships && old(m.shareGroup) == Some(gid) &&
                         ListedResidue(entries, m.member).None?) ==> Released(m)
  {
    ghost var before := p.memberships;
    var group, _ := ReleaseShareGroup(p, gid, [], false);
    ghost var mid := p.memberships;
    AssignGroup(p, entries, gid);
    forall m | m in before
      ensures m in p.memberships <==> !(old(m.shareGroup) == Some(gid) && m.numberOfShares == 0)
    {
      DeletedIsGroupWithoutShares(group, m);
    }
  }

  /** A complete release deletes exactly the group's memberships without
      whole shares. */
  lemma DeletedIsGroupWithoutShares(group: seq<Membership>, m: Membership)
    ensures m in Deleted(group, |group|) <==> m in group && m.numberOfShares == 0
  {
    if m in group && m.numberOfShares == 0 {
      var k :| 0 <= k < |group| && group[k] == m;
    }
  }
}
