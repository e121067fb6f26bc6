/**
 * What the score prefers, in terms of the signups' own data: of two signups
 * alike in everything but one criterion, the better one wins.
 */
module RosterPreference {
  import opened Prelude
  import opened SlotMatching
  import opened RosterModel
  import opened RosterOptimizer

  // ---------------------------------------------------------------------
  // The criteria
  // ---------------------------------------------------------------------

  predicate SameRoles(p: Candidate, d: Candidate) {
    p.assignableRoles == d.assignableRoles && p.primaryRole == d.primaryRole && p.offspecRoles == d.offspecRoles
  }

  /** The log entry that counts for a role: its own, or for DPS roles the first of Melee, Ranged and generic DPS. */
  predicate IsLogKey(logs: map<Role, real>, role: Role, key: Role) {
    && key in logs
    && (|| key == role
        || (role !in logs && role in {MELEE_DPS, RANGED_DPS, GENERIC_DPS}
            && (|| key == MELEE_DPS
                || (MELEE_DPS !in logs && (key == RANGED_DPS || (RANGED_DPS !in logs && key == GENERIC_DPS))))))
  }

  /** `d` has logs for the same roles, none worse, and the one that counts is better by `gain`. */
  ghost predicate RaisedLogs(p: Candidate, d: Candidate, role: Role, gain: real) {
    && d.wclByRole.Keys == p.wclByRole.Keys
    && (forall r :: r in p.wclByRole ==> d.wclByRole[r] >= p.wclByRole[r])
    && exists key :: IsLogKey(p.wclByRole, role, key) && d.wclByRole[key] >= p.wclByRole[key] + gain
  }

  /** `p` has no logs, and the one of `d` that counts is `gain` at least. */
  ghost predicate FirstLogs(p: Candidate, d: Candidate, role: Role, gain: real) {
    && p.wclByRole == map[]
    && (forall r :: r in d.wclByRole ==> d.wclByRole[r] >= 0.0)
    && exists key :: IsLogKey(d.wclByRole, role, key) && d.wclByRole[key] >= gain
  }

  ghost predicate StrongerLogs(p: Candidate, d: Candidate, role: Role, gain: real) {
    gain >= 0.0 && (RaisedLogs(p, d, role, gain) || FirstLogs(p, d, role, gain))
  }

  /** `role` is `d`'s main role and not `p`'s, or with the same main role a further role of `d` and not of `p`. */
  predicate PrefersRoleMore(p: Candidate, d: Candidate, role: Role) {
    && p.primaryRole != Some(role)
    && (|| d.primaryRole == Some(role)
        || (d.primaryRole == p.primaryRole && role !in p.offspecRoles && role in d.offspecRoles))
  }

  function LevelOf(c: Candidate): real {
    c.itemLevel.GetOr(0.0)
  }

  /** A pick other than `i`, or an external booster, has a class providing the buff. */
  ghost predicate OthersBring(input: Input, picks: seq<WorkingPick>, i: int, buff: Buff) {
    || (exists j :: 0 <= j < |picks| && j != i && picks[j].WowClass().Some? && picks[j].WowClass().value in buff.providers)
    || (exists e :: e in input.externalClasses && e in buff.providers)
  }

  ghost predicate OthersCover(input: Input, picks: seq<WorkingPick>, i: int, id: Id) {
    exists buff :: buff in input.catalog && buff.id == id && OthersBring(input, picks, i, buff)
  }

  predicate Provides(wowClass: Option<Id>, buff: Buff) {
    wowClass.Some? && wowClass.value in buff.providers
  }

  /** A class provides a buff that nobody but pick `i` covers. */
  ghost predicate BringsNew(input: Input, picks: seq<WorkingPick>, i: int, wowClass: Option<Id>) {
    exists buff :: buff in input.catalog && Provides(wowClass, buff) && !OthersCover(input, picks, i, buff.id)
  }

  /** What a percentage point of logs weighs. */
  function LogWeight(b: Bucket): real {
    if b == BoosterSlot(HEALERS) then 0.35 else 1.0
  }

  /** Alike but for the logs: `d`'s are not stronger by more than `eps` in the score's units. */
  ghost predicate LogsNotBetter(b: Bucket, p: Candidate, role: Option<Role>, d: Candidate, eps: real) {
    (SameRoles(p, d) && p.itemLevel == d.itemLevel && p.wowClass == d.wowClass && role.Some?) ==>
      forall gain :: StrongerLogs(p, d, role.value, gain) ==> gain * LogWeight(b) <= eps
  }

  /** Alike but for the role preferences: `d` does not prefer the role more. */
  ghost predicate RoleNotBetter(p: Candidate, role: Option<Role>, d: Candidate) {
    (p.assignableRoles == d.assignableRoles && p.wclByRole == d.wclByRole && p.itemLevel == d.itemLevel
     && p.wowClass == d.wowClass && role.Some?) ==> !PrefersRoleMore(p, d, role.value)
  }

  /** Alike but for the item level: `d`'s is not higher by more than `eps` in the score's units. */
  ghost predicate LevelNotBetter(p: Candidate, d: Candidate, eps: real) {
    (SameRoles(p, d) && p.wclByRole == d.wclByRole && p.wowClass == d.wowClass) ==>
      (LevelOf(d) - LevelOf(p)) * 0.02 <= eps
  }

  /** Alike but for the class: `d` brings no buff the others lack where `p` brings none. */
  ghost predicate BuffsNotBetter(input: Input, picks: seq<WorkingPick>, i: int, p: Candidate, d: Candidate) {
    (SameRoles(p, d) && p.wclByRole == d.wclByRole && p.itemLevel == d.itemLevel
     && !BringsNew(input, picks, i, p.wowClass)) ==> !BringsNew(input, picks, i, d.wowClass)
  }

  /**
   * `d`, alike to `p` in all criteria but one, is not the better one in that
   * criterion by more than `eps`. Buffs are compared next to all picks but `i`.
   */
  ghost predicate NotBetter(input: Input, picks: seq<WorkingPick>, i: int, b: Bucket, p: Candidate, role: Option<Role>,
                            d: Candidate, eps: real)
  {
    && LogsNotBetter(b, p, role, d, eps) && RoleNotBetter(p, role, d)
    && LevelNotBetter(p, d, eps) && BuffsNotBetter(input, picks, i, p, d)
  }

  // ---------------------------------------------------------------------
  // Logs, role and item level
  // ---------------------------------------------------------------------

  function Own(c: Candidate, b: Bucket): real {
    IndividualScore(c, PickRoleForBucket(c, b))
  }

  lemma LogKeyCounts(c: Candidate, role: Role, key: Role)
    requires IsLogKey(c.wclByRole, role, key)
    ensures WclForRole(c, Some(role)) == Some(c.wclByRole[key])
  {
  }

  /** With the same roles and stronger logs the role may change between equally preferred ones, but not for worse. */
  ghost predicate RoleGains(p: Candidate, d: Candidate, b: Bucket, role: Role, gain: real) {
    var r := PickRoleForBucket(d, b);
    && r.Some? && RolePreferenceScore(d, r) == RolePreferenceScore(p, Some(role))
    && SoftWclWeight(r) == SoftWclWeight(Some(role)) == LogWeight(b)
    && WclForRole(d, r).GetOr(0.0) >= WclForRole(p, Some(role)).GetOr(0.0) + gain
  }

  lemma RaisedRole(p: Candidate, d: Candidate, b: Bucket, role: Role, gain: real)
    requires SameRoles(p, d) && PickRoleForBucket(p, b) == Some(role) && gain >= 0.0 && RaisedLogs(p, d, role, gain)
    ensures RoleGains(p, d, b, role, gain)
  {
    var key :| IsLogKey(p.wclByRole, role, key) && d.wclByRole[key] >= p.wclByRole[key] + gain;
    LogKeyCounts(p, role, key);
    assert forall r :: r in d.wclByRole <==> r in p.wclByRole;
    var r := PickRoleForBucket(d, b);
    if r == Some(role) {
      LogKeyCounts(d, role, key);
    }
  }

  lemma FirstRole(p: Candidate, d: Candidate, b: Bucket, role: Role, gain: real)
    requires SameRoles(p, d) && PickRoleForBucket(p, b) == Some(role) && gain >= 0.0 && FirstLogs(p, d, role, gain)
    ensures RoleGains(p, d, b, role, gain)
  {
    var key :| IsLogKey(d.wclByRole, role, key) && d.wclByRole[key] >= gain;
    LogKeyCounts(d, role, key);
    assert WclForRole(p, Some(role)).GetOr(0.0) == 0.0;
  }

  lemma StrongerLogsScore(p: Candidate, d: Candidate, b: Bucket, role: Role, gain: real)
    requires SameRoles(p, d) && p.itemLevel == d.itemLevel
    requires PickRoleForBucket(p, b) == Some(role) && StrongerLogs(p, d, role, gain)
    ensures Own(d, b) >= Own(p, b) + gain * LogWeight(b)
  {
    hide PickRoleForBucket, WclForRole, SoftWclWeight, RolePreferenceScore, RaisedLogs, FirstLogs;
    if RaisedLogs(p, d, role, gain) {
      RaisedRole(p, d, b, role, gain);
    } else {
      FirstRole(p, d, b, role, gain);
    }
    var had, has := WclForRole(p, Some(role)).GetOr(0.0), WclForRole(d, PickRoleForBucket(d, b)).GetOr(0.0);
    Weighted(had, has, gain, LogWeight(b));
  }

  lemma Weighted(had: real, has: real, gain: real, weight: real)
    requires has >= had + gain && weight > 0.0
    ensures has * weight >= had * weight + gain * weight
  {
    assert (has - had - gain) * weight >= 0.0;
  }

  lemma PreferredRoleScores(p: Candidate, d: Candidate, b: Bucket, role: Role)
    requires p.assignableRoles == d.assignableRoles && p.wclByRole == d.wclByRole && p.itemLevel == d.itemLevel
    requires PickRoleForBucket(p, b) == Some(role) && PrefersRoleMore(p, d, role)
    ensures Own(d, b) > Own(p, b) + 1.0
  {
    assert PickRoleForBucket(d, b) == Some(role);
  }

  lemma LevelScores(p: Candidate, d: Candidate, b: Bucket)
    requires SameRoles(p, d) && p.wclByRole == d.wclByRole
    ensures PickRoleForBucket(d, b) == PickRoleForBucket(p, b)
    ensures Own(d, b) == Own(p, b) + (LevelOf(d) - LevelOf(p)) * 0.02
  {
  }

  // ---------------------------------------------------------------------
  // Buffs
  // ---------------------------------------------------------------------

  /** Whoever covers a buff next to pick `i` covers it with any pick in that place. */
  lemma OthersStillCover(input: Input, picks: seq<WorkingPick>, i: nat, q: WorkingPick, id: Id)
    requires i < |picks| && OthersCover(input, picks, i, id)
    ensures id in CoveredBuffs(input.catalog, ClassesOf(picks[i := q], input.externalClasses))
  {
    var buff :| buff in input.catalog && buff.id == id && OthersBring(input, picks, i, buff);
    var classes := ClassesOf(picks[i := q], input.externalClasses);
    if exists j :: 0 <= j < |picks| && j != i && picks[j].WowClass().Some? && picks[j].WowClass().value in buff.providers {
      var j :| 0 <= j < |picks| && j != i && picks[j].WowClass().Some? && picks[j].WowClass().value in buff.providers;
      assert picks[i := q][j] in picks[i := q];
      assert picks[j].WowClass().value in buff.providers * classes;
    } else {
      var e :| e in input.externalClasses && e in buff.providers;
      assert e in buff.providers * classes;
    }
  }

  /** What a roster covers: by pick `i`'s class, or by the others. */
  lemma CoveredBy(input: Input, picks: seq<WorkingPick>, i: nat, id: Id)
    requires i < |picks|
    ensures id in CoveredBuffs(input.catalog, ClassesOf(picks, input.externalClasses)) <==>
            || OthersCover(input, picks, i, id)
            || exists buff :: buff in input.catalog && buff.id == id && Provides(picks[i].WowClass(), buff)
  {
    var classes := ClassesOf(picks, input.externalClasses);
    assert picks[i := picks[i]] == picks;
    if OthersCover(input, picks, i, id) {
      OthersStillCover(input, picks, i, picks[i], id);
    }
    if exists buff :: buff in input.catalog && buff.id == id && Provides(picks[i].WowClass(), buff) {
      var buff :| buff in input.catalog && buff.id == id && Provides(picks[i].WowClass(), buff);
      assert picks[i].WowClass().value in buff.providers * classes;
    }
    if id in CoveredBuffs(input.catalog, classes) {
      var buff :| buff in input.catalog && buff.providers * classes != {} && buff.id == id;
      var x :| x in buff.providers * classes;
      if !Provides(picks[i].WowClass(), buff) {
        assert OthersBring(input, picks, i, buff);
      }
    }
  }

  /** Replacing a pick that brings nothing new by one that does covers one buff more. */
  lemma CoversMore(input: Input, picks: seq<WorkingPick>, i: nat, q: WorkingPick)
    requires i < |picks| && !BringsNew(input, picks, i, picks[i].WowClass()) && BringsNew(input, picks, i, q.WowClass())
    ensures |CoveredBuffs(input.catalog, ClassesOf(picks[i := q], input.externalClasses))|
            >= |CoveredBuffs(input.catalog, ClassesOf(picks, input.externalClasses))| + 1
  {
    var was := CoveredBuffs(input.catalog, ClassesOf(picks, input.externalClasses));
    var now := CoveredBuffs(input.catalog, ClassesOf(picks[i := q], input.externalClasses));
    var buff :| buff in input.catalog && Provides(q.WowClass(), buff) && !OthersCover(input, picks, i, buff.id);
    hide CoveredBuffs, ClassesOf;
    forall id | id in was ensures id in now && id != buff.id {
      CoveredBy(input, picks, i, id);
      OthersStillCover(input, picks, i, q, id);
    }
    OthersUnchanged(input, picks, i, q, buff.id);
    CoveredBy(input, picks[i := q], i, buff.id);
    SubsetSize(was + {buff.id}, now);
  }

  lemma OthersUnchanged(input: Input, picks: seq<WorkingPick>, i: nat, q: WorkingPick, id: Id)
    requires i < |picks|
    ensures OthersCover(input, picks[i := q], i, id) <==> OthersCover(input, picks, i, id)
  {
    forall buff ensures OthersBring(input, picks[i := q], i, buff) <==> OthersBring(input, picks, i, buff) {
      assert forall j :: 0 <= j < |picks| && j != i ==> picks[i := q][j] == picks[j];
    }
  }

  // ---------------------------------------------------------------------
  // No better replacement
  // ---------------------------------------------------------------------

  function Covering(input: Input, picks: seq<WorkingPick>): nat {
    |CoveredBuffs(input.catalog, ClassesOf(picks, input.externalClasses))|
  }

  /** What a swap adds to the soft score. */
  lemma SwapScores(input: Input, picks: seq<WorkingPick>, i: nat, c: Candidate)
    requires i < |picks| && NewPickOk(input, picks[i]) && !Improves(input, picks, i, c)
    ensures var b := picks[i].bucket;
            1000.0 * Covering(input, picks[i := Trial(c, b)]) as real + Own(c, b)
            <= 1000.0 * Covering(input, picks) as real + Own(picks[i].candidate, b) + SWAP_EPSILON
  {
    PickScoresReplace(picks, i, Trial(c, picks[i].bucket));
    hide PickRoleForBucket, WclForRole, CoveredBuffs, ClassesOf, PickScores, ScoreParts;
  }

  lemma SameCovering(input: Input, picks: seq<WorkingPick>, i: nat, c: Candidate)
    requires i < |picks| && picks[i].NewPick? && c.wowClass == picks[i].candidate.wowClass
    ensures Covering(input, picks[i := Trial(c, picks[i].bucket)]) == Covering(input, picks)
  {
    assert picks[i := picks[i]] == picks;
    SameClasses(picks, i, picks[i], Trial(c, picks[i].bucket), input.externalClasses);
  }

  lemma PickNotBeaten(input: Input, picks: seq<WorkingPick>, i: nat, c: Candidate)
    requires i < |picks| && NewPickOk(input, picks[i]) && !Improves(input, picks, i, c)
    ensures NotBetter(input, picks, i, picks[i].bucket, picks[i].candidate, picks[i].role, c, SWAP_EPSILON)
  {
    hide Improves, Covering, Own, NewPickOk, PickRoleForBucket, SameRoles;
    hide LogsNotBetter, RoleNotBetter, LevelNotBetter, BuffsNotBetter;
    RoleOfPick(input, picks[i]);
    var p, b := picks[i].candidate, picks[i].bucket;
    SwapScores(input, picks, i, c);
    if c.wowClass == p.wowClass {
      SameCovering(input, picks, i, c);
    }
    OwnNotBeaten(b, p, c, SWAP_EPSILON);
    SwapBringsNothing(input, picks, i, c);
  }

  lemma SwapBringsNothing(input: Input, picks: seq<WorkingPick>, i: nat, c: Candidate)
    requires i < |picks| && picks[i].NewPick?
    requires var b := picks[i].bucket;
             1000.0 * Covering(input, picks[i := Trial(c, b)]) as real + Own(c, b)
             <= 1000.0 * Covering(input, picks) as real + Own(picks[i].candidate, b) + SWAP_EPSILON
    ensures BuffsNotBetter(input, picks, i, picks[i].candidate, c)
  {
    hide Covering, Own, BringsNew, SameRoles;
    var p, b := picks[i].candidate, picks[i].bucket;
    if SameRoles(p, c) && p.wclByRole == c.wclByRole && p.itemLevel == c.itemLevel
       && !BringsNew(input, picks, i, p.wowClass) && BringsNew(input, picks, i, c.wowClass) {
      LevelScores(p, c, b);
      TrialCoversMore(input, picks, i, c);
      assert false;
    }
  }

  /** What no more own score means for logs, role and item level. */
  lemma OwnNotBeaten(b: Bucket, p: Candidate, c: Candidate, eps: real)
    requires 0.0 <= eps <= 1.0 && (c.wowClass == p.wowClass ==> Own(c, b) <= Own(p, b) + eps)
    ensures LogsNotBetter(b, p, PickRoleForBucket(p, b), c, eps)
    ensures RoleNotBetter(p, PickRoleForBucket(p, b), c)
    ensures LevelNotBetter(p, c, eps)
  {
    hide Own, StrongerLogs, PrefersRoleMore, PickRoleForBucket, SameRoles;
    LogsCase(b, p, c, eps);
    RoleCase(b, p, c, eps);
    if SameRoles(p, c) && p.wclByRole == c.wclByRole {
      LevelScores(p, c, b);
    }
  }

  lemma LogsCase(b: Bucket, p: Candidate, c: Candidate, eps: real)
    requires c.wowClass == p.wowClass ==> Own(c, b) <= Own(p, b) + eps
    ensures LogsNotBetter(b, p, PickRoleForBucket(p, b), c, eps)
  {
    hide Own, StrongerLogs, PickRoleForBucket, SameRoles;
    var role := PickRoleForBucket(p, b);
    forall gain | SameRoles(p, c) && p.itemLevel == c.itemLevel && p.wowClass == c.wowClass && role.Some?
                  && StrongerLogs(p, c, role.value, gain)
      ensures gain * LogWeight(b) <= eps
    {
      StrongerLogsScore(p, c, b, role.value, gain);
    }
  }

  lemma RoleCase(b: Bucket, p: Candidate, c: Candidate, eps: real)
    requires eps <= 1.0 && (c.wowClass == p.wowClass ==> Own(c, b) <= Own(p, b) + eps)
    ensures RoleNotBetter(p, PickRoleForBucket(p, b), c)
  {
    hide Own, PrefersRoleMore, PickRoleForBucket;
    var role := PickRoleForBucket(p, b);
    if p.assignableRoles == c.assignableRoles && p.wclByRole == c.wclByRole && p.itemLevel == c.itemLevel
       && p.wowClass == c.wowClass && role.Some? && PrefersRoleMore(p, c, role.value) {
      PreferredRoleScores(p, c, b, role.value);
      assert false;
    }
  }

  lemma RoleOfPick(input: Input, p: WorkingPick)
    requires NewPickOk(input, p)
    ensures p.NewPick? && p.role == PickRoleForBucket(p.candidate, p.bucket)
  {
  }

  lemma TrialCoversMore(input: Input, picks: seq<WorkingPick>, i: nat, c: Candidate)
    requires i < |picks| && picks[i].NewPick?
    requires !BringsNew(input, picks, i, picks[i].candidate.wowClass) && BringsNew(input, picks, i, c.wowClass)
    ensures Covering(input, picks[i := Trial(c, picks[i].bucket)]) >= Covering(input, picks) + 1
  {
    CoversMore(input, picks, i, Trial(c, picks[i].bucket));
  }

  /** `c` is free for the place of pick `i`: its signup unused, its User without another Booster pick. */
  ghost predicate Replaces(picks: seq<WorkingPick>, i: nat, c: Candidate)
    requires i < |picks|
  {
    && !HasSignup(picks, c.signupId) && Fits(c, picks[i].bucket)
    && (picks[i].bucket.BoosterSlot? ==> !HasBooster(picks, c.userId) || c.userId == picks[i].User())
  }

  /** No new pick is beaten by a free signup that is better in one criterion and alike in the others. */
  ghost predicate NoBetterReplacement(input: Input, picks: seq<WorkingPick>) {
    forall i, c :: 0 <= i < |picks| && picks[i].NewPick? && c in input.candidates && Replaces(picks, i, c) ==>
      NotBetter(input, picks, i, picks[i].bucket, picks[i].candidate, picks[i].role, c, 0.000000001)
  }

  lemma LocallyOptimalPrefers(input: Input, picks: seq<WorkingPick>, signups: set<Id>, boosters: set<Id>)
    requires Draft(input, picks, signups, boosters) && LocallyOptimal(input, picks, signups, boosters)
    ensures NoBetterReplacement(input, picks)
  {
    hide NotBetter, NewPickOk, Improves, Compatible;
    forall i, c | 0 <= i < |picks| && picks[i].NewPick? && c in input.candidates && Replaces(picks, i, c)
      ensures NotBetter(input, picks, i, picks[i].bucket, picks[i].candidate, picks[i].role, c, 0.000000001)
    {
      NewPicksFollowLocked(input, picks, i);
      assert Swappable(picks, signups, boosters, i, c);
      PickNotBeaten(input, picks, i, c);
    }
  }

  // ---------------------------------------------------------------------
  // No better option
  // ---------------------------------------------------------------------

  function CoveredNow(input: Input, picks: seq<WorkingPick>): set<Id> {
    CoveredBuffs(input.catalog, ClassesOf(picks, input.externalClasses))
  }

  lemma CoveredByAll(input: Input, picks: seq<WorkingPick>, id: Id)
    ensures id in CoveredNow(input, picks) <==> OthersCover(input, picks, -1, id)
  {
    var classes := ClassesOf(picks, input.externalClasses);
    if OthersCover(input, picks, -1, id) {
      var buff :| buff in input.catalog && buff.id == id && OthersBring(input, picks, -1, buff);
      if exists e :: e in input.externalClasses && e in buff.providers {
        var e :| e in input.externalClasses && e in buff.providers;
        assert e in buff.providers * classes;
      } else {
        var j :| 0 <= j < |picks| && picks[j].WowClass().Some? && picks[j].WowClass().value in buff.providers;
        assert picks[j] in picks;
        assert picks[j].WowClass().value in buff.providers * classes;
      }
    }
    if id in CoveredNow(input, picks) {
      var buff :| buff in input.catalog && buff.providers * classes != {} && buff.id == id;
      var x :| x in buff.providers * classes;
      assert OthersBring(input, picks, -1, buff);
    }
  }

  lemma {:induction false} MarginalCounts(catalog: seq<Buff>, wowClass: Option<Id>, covered: set<Id>)
    ensures MarginalUtilityScore(catalog, wowClass, covered) >= 0.0
    ensures (forall buff :: buff in catalog && Provides(wowClass, buff) ==> buff.id in covered) ==>
              MarginalUtilityScore(catalog, wowClass, covered) == 0.0
    ensures (exists buff :: buff in catalog && Provides(wowClass, buff) && buff.id !in covered) ==>
              MarginalUtilityScore(catalog, wowClass, covered) >= 1000.0
  {
    if catalog != [] {
      MarginalCounts(catalog[1..], wowClass, covered);
      assert catalog == [catalog[0]] + catalog[1..];
      assert forall buff :: buff in catalog <==> buff == catalog[0] || buff in catalog[1..];
    }
  }

  lemma MarginalBrings(input: Input, picks: seq<WorkingPick>, wowClass: Option<Id>)
    ensures var marginal := MarginalUtilityScore(input.catalog, wowClass, CoveredNow(input, picks));
            if BringsNew(input, picks, -1, wowClass) then marginal >= 1000.0 else marginal == 0.0
  {
    hide CoveredNow, OthersCover;
    MarginalCounts(input.catalog, wowClass, CoveredNow(input, picks));
    forall id ensures id in CoveredNow(input, picks) <==> OthersCover(input, picks, -1, id) {
      CoveredByAll(input, picks, id);
    }
  }

  /** An option scoring at least as much is not beaten by the other one. */
  lemma OptionNotBeaten(input: Input, picks: seq<WorkingPick>, b: Bucket, p: Candidate, d: Candidate)
    requires MarginalUtilityScore(input.catalog, p.wowClass, CoveredNow(input, picks)) + Own(p, b)
             >= MarginalUtilityScore(input.catalog, d.wowClass, CoveredNow(input, picks)) + Own(d, b)
    ensures NotBetter(input, picks, -1, b, p, PickRoleForBucket(p, b), d, 0.0)
  {
    hide MarginalUtilityScore, CoveredNow, Own, BringsNew, PickRoleForBucket;
    MarginalBrings(input, picks, p.wowClass);
    MarginalBrings(input, picks, d.wowClass);
    OwnNotBeaten(b, p, d, 0.0);
    if SameRoles(p, d) && p.wclByRole == d.wclByRole {
      LevelScores(p, d, b);
    }
  }
}
