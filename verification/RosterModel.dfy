/**
 * Data of the roster builder: signups, locked picks, roles, buckets and the
 * soft score. Class and buff catalogues are parameters, names are abstracted to
 * their collation rank, scores are real numbers.
 */
module RosterModel {
  import opened Prelude
  import opened SlotMatching

  datatype Role = TANK | HEALER | MELEE_DPS | RANGED_DPS | GENERIC_DPS

  datatype Participation = BOOSTER | LOOTBUDDY

  datatype Bucket = BoosterSlot(slot: BoosterBucket) | LootbuddySlot

  datatype Candidate = Candidate(
    signupId: Id,
    userId: Id,
    nameRank: int,
    participation: Participation,
    assignableRoles: seq<Role>,
    primaryRole: Option<Role>,
    offspecRoles: seq<Role>,
    wowClass: Option<Id>,
    itemLevel: Option<real>,
    wclByRole: map<Role, real>)

  datatype LockedRow = LockedRow(
    signupId: Id,
    userId: Id,
    participation: Participation,
    selectedRole: Option<Role>,
    wowClass: Option<Id>,
    itemLevel: Option<real>,
    wclPct: Option<real>)

  datatype WorkingPick =
    | LockedPick(row: LockedRow, bucket: Bucket)
    | NewPick(candidate: Candidate, role: Option<Role>, bucket: Bucket, provided: seq<Id>,
              wclPct: Option<real>, debugScore: real)
  {
    function Signup(): Id {
      match this
      case LockedPick(row, _) => row.signupId
      case NewPick(c, _, _, _, _, _) => c.signupId
    }

    function User(): Id {
      match this
      case LockedPick(row, _) => row.userId
      case NewPick(c, _, _, _, _, _) => c.userId
    }

    predicate IsBooster() {
      match this
      case LockedPick(row, _) => row.participation == BOOSTER
      case NewPick(c, _, _, _, _, _) => c.participation == BOOSTER
    }

    function WowClass(): Option<Id> {
      match this
      case LockedPick(row, _) => row.wowClass
      case NewPick(c, _, _, _, _, _) => c.wowClass
    }
  }

  /** A tracked raid buff and the classes that bring it. */
  datatype Buff = Buff(id: Id, providers: set<Id>)

  datatype Input = Input(
    shortage: Capacity,
    lootbuddyShortage: nat,
    locked: seq<LockedRow>,
    externalClasses: seq<Id>,
    candidates: seq<Candidate>,
    catalog: seq<Buff>)
  {
    /** Signup ids identify signups. */
    ghost predicate Valid() {
      forall i, j :: 0 <= i < j < |candidates| ==> candidates[i].signupId != candidates[j].signupId
    }
  }

  // ---------------------------------------------------------------------
  // Roles and buckets
  // ---------------------------------------------------------------------

  predicate IsDpsRole(r: Role) {
    r == GENERIC_DPS || r == MELEE_DPS || r == RANGED_DPS
  }

  function BucketForRole(role: Option<Role>, participation: Participation): Option<Bucket> {
    if participation == LOOTBUDDY then Some(LootbuddySlot)
    else if role == Some(TANK) then Some(BoosterSlot(TANKS))
    else if role == Some(HEALER) then Some(BoosterSlot(HEALERS))
    else if role.Some? && IsDpsRole(role.value) then Some(BoosterSlot(DPS))
    else None
  }

  predicate RoleFits(r: Role, b: BoosterBucket) {
    match b
    case TANKS => r == TANK
    case HEALERS => r == HEALER
    case DPS => IsDpsRole(r)
  }

  function FittingRoles(roles: seq<Role>, b: BoosterBucket): (fitting: seq<Role>)
    ensures forall r :: r in fitting <==> r in roles && RoleFits(r, b)
  {
    if roles == [] then []
    else if RoleFits(roles[0], b) then [roles[0]] + FittingRoles(roles[1..], b)
    else FittingRoles(roles[1..], b)
  }

  function RolesForBucket(c: Candidate, b: Bucket): seq<Role> {
    match b
    case LootbuddySlot => []
    case BoosterSlot(slot) => FittingRoles(c.assignableRoles, slot)
  }

  function RolePreferenceRank(c: Candidate, r: Role): nat {
    if c.primaryRole == Some(r) then 2 else if r in c.offspecRoles then 1 else 0
  }

  function WclOf(c: Candidate, r: Role): Option<real> {
    if r in c.wclByRole then Some(c.wclByRole[r]) else None
  }

  /** A log percentage that is known and beats the other one; a missing one beats nothing. */
  predicate BetterLogs(a: Option<real>, b: Option<real>) {
    a.Some? && (b.None? || a.value > b.value)
  }

  /** The role a candidate would play in a bucket: always offered, best preference first. */
  function PickRoleForBucket(c: Candidate, b: Bucket): (r: Option<Role>)
    ensures r.Some? <==> RolesForBucket(c, b) != []
    ensures r.Some? ==> r.value in c.assignableRoles && BucketForRole(r, BOOSTER) == Some(b)
    ensures r.Some? ==> forall other :: other in RolesForBucket(c, b) && other != GENERIC_DPS ==>
                          RolePreferenceRank(c, other) <= RolePreferenceRank(c, r.value)
    ensures b == BoosterSlot(DPS) && MELEE_DPS in c.assignableRoles && RANGED_DPS in c.assignableRoles
            && RolePreferenceRank(c, MELEE_DPS) == RolePreferenceRank(c, RANGED_DPS) ==>
              r == Some(if BetterLogs(WclOf(c, RANGED_DPS), WclOf(c, MELEE_DPS)) then RANGED_DPS else MELEE_DPS)
    ensures r == Some(GENERIC_DPS) ==> MELEE_DPS !in c.assignableRoles && RANGED_DPS !in c.assignableRoles
  {
    var roles := RolesForBucket(c, b);
    if roles == [] then None
    else if b == BoosterSlot(DPS) then
      var melee, ranged := MELEE_DPS in roles, RANGED_DPS in roles;
      if melee && ranged then
        var meleeRank, rangedRank := RolePreferenceRank(c, MELEE_DPS), RolePreferenceRank(c, RANGED_DPS);
        if meleeRank != rangedRank then Some(if meleeRank > rangedRank then MELEE_DPS else RANGED_DPS)
        else
          var meleeWcl, rangedWcl := WclOf(c, MELEE_DPS), WclOf(c, RANGED_DPS);
          if meleeWcl.Some? && rangedWcl.Some? then
            Some(if meleeWcl.value >= rangedWcl.value then MELEE_DPS else RANGED_DPS)
          else if meleeWcl.Some? then Some(MELEE_DPS)
          else if rangedWcl.Some? then Some(RANGED_DPS)
          else Some(MELEE_DPS)
      else if melee then Some(MELEE_DPS)
      else if ranged then Some(RANGED_DPS)
      else Some(roles[0])
    else
      // All tank (or healer) roles are the same role, so sorting them by preference changes nothing.
      Some(roles[0])
  }

  /** May `c` be used for bucket `b` at all? */
  predicate Fits(c: Candidate, b: Bucket) {
    match b
    case LootbuddySlot => c.participation == LOOTBUDDY
    case BoosterSlot(_) => c.participation == BOOSTER && RolesForBucket(c, b) != []
  }

  // ---------------------------------------------------------------------
  // Soft score
  // ---------------------------------------------------------------------

  const UTILITY_FIRST_WEIGHT := 1000.0
  const UTILITY_DUPLICATE_WEIGHT := 0.0
  const PRIMARY_ROLE_WEIGHT := 200.0
  const OFFSPEC_ROLE_WEIGHT := 40.0
  const WCL_WEIGHT := 1.0
  const WCL_HEALER_WEIGHT := 0.35
  const ILVL_WEIGHT := 0.02
  const SWAP_EPSILON := 0.000000001

  function RolePreferenceScore(c: Candidate, role: Option<Role>): real {
    if role.None? then 0.0
    else if c.primaryRole == role then PRIMARY_ROLE_WEIGHT
    else if role.value in c.offspecRoles then OFFSPEC_ROLE_WEIGHT
    else 0.0
  }

  function WclForRole(c: Candidate, role: Option<Role>): Option<real> {
    if role.None? then None
    else if IsDpsRole(role.value) then
      if role.value in c.wclByRole then WclOf(c, role.value)
      else if MELEE_DPS in c.wclByRole then WclOf(c, MELEE_DPS)
      else if RANGED_DPS in c.wclByRole then WclOf(c, RANGED_DPS)
      else WclOf(c, GENERIC_DPS)
    else WclOf(c, role.value)
  }

  function SoftWclWeight(role: Option<Role>): real {
    if role == Some(HEALER) then WCL_HEALER_WEIGHT else WCL_WEIGHT
  }

  /** Ids of the buffs some present class provides. */
  function CoveredBuffs(catalog: seq<Buff>, classes: set<Id>): set<Id> {
    set buff | buff in catalog && buff.providers * classes != {} :: buff.id
  }

  function ClassesOf(picks: seq<WorkingPick>, externalClasses: seq<Id>): set<Id> {
    (set pick | pick in picks && pick.WowClass().Some? :: pick.WowClass().value) + (set e | e in externalClasses)
  }

  /** Buff ids of one class that are not covered yet, and the score for them. */
  function ProvidedUtilities(catalog: seq<Buff>, wowClass: Option<Id>, covered: set<Id>): seq<Id> {
    if catalog == [] || wowClass.None? then []
    else if wowClass.value in catalog[0].providers && catalog[0].id !in covered then
      [catalog[0].id] + ProvidedUtilities(catalog[1..], wowClass, covered)
    else ProvidedUtilities(catalog[1..], wowClass, covered)
  }

  function MarginalUtilityScore(catalog: seq<Buff>, wowClass: Option<Id>, covered: set<Id>): real {
    if catalog == [] || wowClass.None? then 0.0
    else
      (if wowClass.value !in catalog[0].providers then 0.0
       else if catalog[0].id in covered then UTILITY_DUPLICATE_WEIGHT
       else UTILITY_FIRST_WEIGHT)
      + MarginalUtilityScore(catalog[1..], wowClass, covered)
  }

  /** Role preference, logs and item level of one candidate in one role. */
  function ScoreParts(c: Candidate, role: Option<Role>, wclPct: Option<real>): real {
    RolePreferenceScore(c, role)
    + wclPct.GetOr(0.0) * SoftWclWeight(role)
    + c.itemLevel.GetOr(0.0) * ILVL_WEIGHT
  }

  function IndividualScore(c: Candidate, role: Option<Role>): real {
    ScoreParts(c, role, WclForRole(c, role))
  }

  function ScoreAgainstCoverage(catalog: seq<Buff>, c: Candidate, role: Option<Role>, covered: set<Id>): real {
    MarginalUtilityScore(catalog, c.wowClass, covered) + IndividualScore(c, role)
  }

  function PickScore(pick: WorkingPick): real {
    match pick
    case LockedPick(row, _) =>
      row.wclPct.GetOr(0.0) * SoftWclWeight(row.selectedRole) + row.itemLevel.GetOr(0.0) * ILVL_WEIGHT
    case NewPick(c, role, _, _, wclPct, _) => ScoreParts(c, role, wclPct)
  }

  function PickScores(picks: seq<WorkingPick>): real {
    if picks == [] then 0.0 else PickScore(picks[0]) + PickScores(picks[1..])
  }

  function SoftScore(catalog: seq<Buff>, externalClasses: seq<Id>, picks: seq<WorkingPick>): real {
    UTILITY_FIRST_WEIGHT * |CoveredBuffs(catalog, ClassesOf(picks, externalClasses))| as real + PickScores(picks)
  }

  // ---------------------------------------------------------------------
  // The soft score is bounded
  // ---------------------------------------------------------------------

  ghost function CatalogIds(catalog: seq<Buff>): set<Id> {
    if catalog == [] then {} else {catalog[0].id} + CatalogIds(catalog[1..])
  }

  lemma {:induction false} CoveredWithin(catalog: seq<Buff>, classes: set<Id>)
    ensures CoveredBuffs(catalog, classes) <= CatalogIds(catalog)
    ensures |CatalogIds(catalog)| <= |catalog|
  {
    if catalog != [] {
      CoveredWithin(catalog[1..], classes);
      assert catalog == [catalog[0]] + catalog[1..];
      forall id | id in CoveredBuffs(catalog, classes) ensures id in CatalogIds(catalog) {
        var buff :| buff in catalog && buff.providers * classes != {} && buff.id == id;
        if buff != catalog[0] {
          assert buff in catalog[1..];
          assert id in CoveredBuffs(catalog[1..], classes);
        }
      }
      SubsetSize(CatalogIds(catalog), CatalogIds(catalog[1..]) + {catalog[0].id});
    }
  }

  /** A value no candidate exceeds in any bucket, at least zero. */
  ghost function BestIndividual(candidates: seq<Candidate>): real {
    if candidates == [] then 0.0
    else
      var c := candidates[0];
      var rest := BestIndividual(candidates[1..]);
      MaxReal(MaxReal(rest, IndividualScore(c, PickRoleForBucket(c, LootbuddySlot))),
              MaxReal(IndividualScore(c, PickRoleForBucket(c, BoosterSlot(TANKS))),
                      MaxReal(IndividualScore(c, PickRoleForBucket(c, BoosterSlot(HEALERS))),
                              IndividualScore(c, PickRoleForBucket(c, BoosterSlot(DPS))))))
  }

  ghost function MaxReal(a: real, b: real): real {
    if a >= b then a else b
  }

  lemma {:induction false} IndividualBounded(candidates: seq<Candidate>, c: Candidate, b: Bucket)
    requires c in candidates
    ensures IndividualScore(c, PickRoleForBucket(c, b)) <= BestIndividual(candidates)
  {
    if c != candidates[0] {
      assert c in candidates[1..];
      IndividualBounded(candidates[1..], c, b);
    } else {
      match b {
        case LootbuddySlot =>
        case BoosterSlot(slot) =>
          match slot {
            case TANKS =>
            case HEALERS =>
            case DPS =>
          }
      }
    }
  }
}
