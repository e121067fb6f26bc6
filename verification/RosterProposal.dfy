/**
 * The optimizer's mutable state and its loops: greedy fill and improvement
 * swaps (`optimizeRosterProposal`), proved against the draft specification.
 */
module RosterProposal {
  import opened Prelude
  import opened Sorting
  import opened SlotMatching
  import opened RosterModel
  import opened RosterOptimizer
  import opened RosterPreference

  /** Candidate order: collation rank of User and character name, then signup id. */
  predicate CandidateLe(a: Candidate, b: Candidate) {
    a.nameRank < b.nameRank || (a.nameRank == b.nameRank && a.signupId.rank <= b.signupId.rank)
  }

  datatype ScoredOption = ScoredOption(candidate: Candidate, role: Option<Role>, score: real, provided: seq<Id>,
                                       wclPct: Option<real>)

  /** Better score first, then candidate order. */
  predicate OptionLe(a: ScoredOption, b: ScoredOption) {
    a.score > b.score || (a.score == b.score && CandidateLe(a.candidate, b.candidate))
  }

  lemma OptionOrder()
    ensures TotalPreorder(OptionLe)
  {
  }

  function OptionFor(input: Input, picks: seq<WorkingPick>, b: Bucket, c: Candidate): ScoredOption {
    var covered := CoveredBuffs(input.catalog, ClassesOf(picks, input.externalClasses));
    var role := PickRoleForBucket(c, b);
    ScoredOption(c, role, ScoreAgainstCoverage(input.catalog, c, role, covered),
                 ProvidedUtilities(input.catalog, c.wowClass, covered), WclForRole(c, role))
  }

  function PickOf(o: ScoredOption, b: Bucket): WorkingPick {
    NewPick(o.candidate, o.role, b, o.provided, o.wclPct, o.score)
  }

  ghost predicate SameCandidates(sorted: seq<Candidate>, input: Input) {
    forall c :: c in sorted <==> c in input.candidates
  }

  /** All Lootbuddy slots are filled, or every Lootbuddy signup is in use. */
  ghost predicate LootbuddiesDone(input: Input, picks: seq<WorkingPick>, signups: set<Id>) {
    || CountNew(picks, LootbuddySlot) == input.lootbuddyShortage
    || LootbuddiesUsedUp(input, signups)
  }

  /** The variables the fill and swap loops share. */
  datatype State = State(
    picks: seq<WorkingPick>,
    signups: set<Id>,
    boosters: set<Id>,
    openCapacity: Capacity,
    openUsers: Users,
    reachable: nat)

  ghost predicate FillState(input: Input, s: State, goal: nat) {
    Filling(input, s.picks, s.signups, s.boosters, s.openCapacity, s.openUsers, s.reachable, goal)
  }

  /** Seeds the draft with the locked picks and computes how many slots can be filled. */
  method Seed(input: Input, sorted: seq<Candidate>) returns (s: State)
    requires input.Valid() && SameCandidates(sorted, input)
    ensures s.picks == LockedPicks(input.locked) && s.openCapacity == input.shortage
    ensures s.signups == SignupsOf(s.picks) && s.boosters == BoostersOf(s.picks)
    ensures FillState(input, s, s.reachable)
  {
    var locked := SeedPicks(input.locked);
    var users := OpenBoosterUsers(sorted, SignupsOf(locked), BoostersOf(locked));
    var fill := MaxBoosterSlotFill(users, input.shortage);
    s := State(locked, SignupsOf(locked), BoostersOf(locked), input.shortage, users, fill);
    SeedFilling(input, sorted, users, fill);
  }

  /** Does giving a slot of `b` to `userId` still allow the maximum fill? */
  method KeepsMaximumFill(s: State, userId: Id, b: BoosterBucket) returns (keeps: bool)
    requires IsMaxFill(s.openUsers, s.openCapacity, s.reachable) && s.openCapacity.Of(b) > 0
    ensures keeps <==> Keeps(s.openUsers, s.openCapacity, s.reachable, userId, b)
  {
    var rest := MaxBoosterSlotFill(s.openUsers - {userId}, s.openCapacity.Take(b));
    keeps := 1 + rest == s.reachable;
    if s.reachable > 0 && IsMaxFill(s.openUsers - {userId}, s.openCapacity.Take(b), s.reachable - 1) {
      MaxFillUnique(s.openUsers - {userId}, s.openCapacity.Take(b), rest, s.reachable - 1);
    }
  }

  /** `options` are exactly the usable candidates of bucket `b`, best first. */
  ghost predicate AreOptions(input: Input, s: State, b: Bucket, options: seq<ScoredOption>) {
    && Sorted(options, OptionLe)
    && (forall o :: o in options ==>
          o.candidate in input.candidates && Usable(o.candidate, b, s.signups, s.boosters)
          && o == OptionFor(input, s.picks, b, o.candidate))
    && (forall c :: c in input.candidates && Usable(c, b, s.signups, s.boosters) ==>
          OptionFor(input, s.picks, b, c) in options)
  }

  method Options(input: Input, sorted: seq<Candidate>, s: State, b: Bucket) returns (options: seq<ScoredOption>)
    requires SameCandidates(sorted, input)
    ensures AreOptions(input, s, b, options)
  {
    var found: seq<ScoredOption> := [];
    for i := 0 to |sorted|
      invariant forall o :: o in found ==>
                  o.candidate in sorted && Usable(o.candidate, b, s.signups, s.boosters)
                  && o == OptionFor(input, s.picks, b, o.candidate)
      invariant forall k :: 0 <= k < i && Usable(sorted[k], b, s.signups, s.boosters) ==>
                  OptionFor(input, s.picks, b, sorted[k]) in found
    {
      var c := sorted[i];
      if Usable(c, b, s.signups, s.boosters) {
        found := found + [OptionFor(input, s.picks, b, c)];
      }
    }
    options := SortBy(found, OptionLe);
    SortPermutes(found, OptionLe);
    OptionOrder();
    SortSorts(found, OptionLe);
  }

  /** The best-ranked candidate for a `b` slot that keeps the maximum reachable, if any. */
  method BestBooster(input: Input, sorted: seq<Candidate>, s: State, b: BoosterBucket) returns (best: Option<ScoredOption>)
    requires SameCandidates(sorted, input)
    requires IsMaxFill(s.openUsers, s.openCapacity, s.reachable) && s.openCapacity.Of(b) > 0
    ensures best.Some? ==> BestKeeping(input, s, b, best.value) && NoBetterKeeper(input, s, b, best.value.candidate)
    ensures best.None? ==>
              forall c :: c in input.candidates && Usable(c, BoosterSlot(b), s.signups, s.boosters)
                          ==> !Keeps(s.openUsers, s.openCapacity, s.reachable, c.userId, b)
  {
    hide NoBetterKeeper;
    var options := Options(input, sorted, s, BoosterSlot(b));
    var i := FirstKeeper(s, options, b);
    if i < |options| {
      FirstKeeperIsBest(input, s, b, options, i);
      BestKeepingPrefers(input, s, b, options[i]);
      best := Some(options[i]);
    } else {
      NoKeeper(input, s, b, options);
      best := None;
    }
  }

  /** Index of the first option whose pick keeps the maximum reachable; `|options|` when there is none. */
  method FirstKeeper(s: State, options: seq<ScoredOption>, b: BoosterBucket) returns (i: nat)
    requires IsMaxFill(s.openUsers, s.openCapacity, s.reachable) && s.openCapacity.Of(b) > 0
    ensures i <= |options|
    ensures i < |options| ==> Keeps(s.openUsers, s.openCapacity, s.reachable, options[i].candidate.userId, b)
    ensures forall k :: 0 <= k < i ==> !Keeps(s.openUsers, s.openCapacity, s.reachable, options[k].candidate.userId, b)
  {
    for j := 0 to |options|
      invariant forall k :: 0 <= k < j ==> !Keeps(s.openUsers, s.openCapacity, s.reachable, options[k].candidate.userId, b)
    {
      var keeps := KeepsMaximumFill(s, options[j].candidate.userId, b);
      if keeps {
        return j;
      }
    }
    i := |options|;
  }

  function Committed(s: State, p: WorkingPick, b: BoosterBucket): State
    requires p.NewPick? && s.openCapacity.Of(b) > 0 && s.reachable > 0
  {
    State(s.picks + [p], s.signups + {p.candidate.signupId}, Added(s.boosters, p.candidate),
          s.openCapacity.Take(b), s.openUsers - {p.candidate.userId}, s.reachable - 1)
  }

  lemma OptionPrefers(input: Input, picks: seq<WorkingPick>, b: Bucket, p: Candidate, d: Candidate)
    requires OptionLe(OptionFor(input, picks, b, p), OptionFor(input, picks, b, d))
    ensures NotBetter(input, picks, -1, b, p, PickRoleForBucket(p, b), d, 0.0)
  {
    hide NotBetter, MarginalUtilityScore, ProvidedUtilities, PickRoleForBucket, IndividualScore, CoveredBuffs;
    OptionNotBeaten(input, picks, b, p, d);
  }

  /** `p` is not beaten by another usable candidate that keeps the maximum and is better in one criterion alone. */
  ghost predicate NoBetterKeeper(input: Input, s: State, b: BoosterBucket, p: Candidate)
    requires s.openCapacity.Of(b) > 0
  {
    forall d :: d in input.candidates && Usable(d, BoosterSlot(b), s.signups, s.boosters)
                && Keeps(s.openUsers, s.openCapacity, s.reachable, d.userId, b) ==>
                  NotBetter(input, s.picks, -1, BoosterSlot(b), p, PickRoleForBucket(p, BoosterSlot(b)), d, 0.0)
  }

  lemma BestKeepingPrefers(input: Input, s: State, b: BoosterBucket, o: ScoredOption)
    requires s.openCapacity.Of(b) > 0 && BestKeeping(input, s, b, o)
    ensures NoBetterKeeper(input, s, b, o.candidate)
  {
    hide NotBetter, OptionFor, OptionLe, PickRoleForBucket, Usable, Keeps;
    forall d | d in input.candidates && Usable(d, BoosterSlot(b), s.signups, s.boosters)
               && Keeps(s.openUsers, s.openCapacity, s.reachable, d.userId, b)
      ensures NotBetter(input, s.picks, -1, BoosterSlot(b), o.candidate, PickRoleForBucket(o.candidate, BoosterSlot(b)), d, 0.0)
    {
      OptionPrefers(input, s.picks, BoosterSlot(b), o.candidate, d);
    }
  }

  /** `p` is not beaten by another usable Lootbuddy signup that is better in one criterion alone. */
  ghost predicate NoBetterLootbuddy(input: Input, s: State, p: Candidate) {
    forall d :: d in input.candidates && Usable(d, LootbuddySlot, s.signups, s.boosters) ==>
                  NotBetter(input, s.picks, -1, LootbuddySlot, p, PickRoleForBucket(p, LootbuddySlot), d, 0.0)
  }

  lemma BestLootbuddyPrefers(input: Input, s: State, o: ScoredOption)
    requires BestLootbuddy(input, s, o)
    ensures NoBetterLootbuddy(input, s, o.candidate)
  {
    hide NotBetter, OptionFor, OptionLe, PickRoleForBucket, Usable;
    forall d | d in input.candidates && Usable(d, LootbuddySlot, s.signups, s.boosters)
      ensures NotBetter(input, s.picks, -1, LootbuddySlot, o.candidate, PickRoleForBucket(o.candidate, LootbuddySlot), d, 0.0)
    {
      OptionPrefers(input, s.picks, LootbuddySlot, o.candidate, d);
    }
  }

  /** Fills one Booster slot of `b` with the best candidate that keeps the maximum, or leaves it open. */
  method FillBoosterSlot(input: Input, sorted: seq<Candidate>, s: State, b: BoosterBucket, ghost goal: nat)
    returns (s': State, best: Option<ScoredOption>)
    requires input.Valid() && SameCandidates(sorted, input)
    requires FillState(input, s, goal) && s.openCapacity.Of(b) > 0
    ensures FillState(input, s', goal) && s'.openCapacity == s.openCapacity.Take(b)
    ensures best.Some? ==>
              BestKeeping(input, s, b, best.value) && s'.picks == s.picks + [PickOf(best.value, BoosterSlot(b))]
              && NoBetterKeeper(input, s, b, best.value.candidate)
    ensures best.None? ==> s'.picks == s.picks && s'.reachable == s.reachable && s'.openUsers == s.openUsers
  {
    hide NoBetterKeeper, SameCandidates;
    best := BestBooster(input, sorted, s, b);
    if best.None? {
      FillingSkips(input, s.picks, s.signups, s.boosters, s.openCapacity, s.openUsers, s.reachable, goal, b);
      s' := s.(openCapacity := s.openCapacity.Take(b));
    } else {
      CommitKeepsFilling(input, s, b, best.value, goal);
      s' := Committed(s, PickOf(best.value, BoosterSlot(b)), b);
    }
  }

  lemma CommitKeepsFilling(input: Input, s: State, b: BoosterBucket, o: ScoredOption, goal: nat)
    requires input.Valid() && FillState(input, s, goal) && s.openCapacity.Of(b) > 0
    requires BestKeeping(input, s, b, o)
    ensures s.reachable > 0 && FillState(input, Committed(s, PickOf(o, BoosterSlot(b)), b), goal)
  {
    FillingPicks(input, s.picks, s.signups, s.boosters, s.openCapacity, s.openUsers, s.reachable, goal,
                 PickOf(o, BoosterSlot(b)));
  }

  /** All slots of one Booster bucket. */
  method FillBucket(input: Input, sorted: seq<Candidate>, s: State, b: BoosterBucket, count: nat, ghost goal: nat)
    returns (s': State)
    requires input.Valid() && SameCandidates(sorted, input)
    requires FillState(input, s, goal) && s.openCapacity.Of(b) == count
    ensures FillState(input, s', goal) && s'.openCapacity.Of(b) == 0
    ensures forall other :: other != b ==> s'.openCapacity.Of(other) == s.openCapacity.Of(other)
    ensures CountNew(s'.picks, LootbuddySlot) == CountNew(s.picks, LootbuddySlot)
  {
    hide Filling, CountNew, BestKeeping, SameCandidates;
    s' := s;
    for slot := 0 to count
      invariant FillState(input, s', goal) && s'.openCapacity.Of(b) == count - slot
      invariant forall other :: other != b ==> s'.openCapacity.Of(other) == s.openCapacity.Of(other)
      invariant CountNew(s'.picks, LootbuddySlot) == CountNew(s.picks, LootbuddySlot)
    {
      ghost var before := s'.picks;
      var best;
      s', best := FillBoosterSlot(input, sorted, s', b, goal);
      if best.Some? {
        CountNewAppend(before, PickOf(best.value, BoosterSlot(b)), LootbuddySlot);
      }
    }
  }

  /** The Lootbuddy slots take the best-ranked Lootbuddy signups. */
  method FillLootbuddies(input: Input, sorted: seq<Candidate>, s: State, ghost goal: nat) returns (s': State)
    requires input.Valid() && SameCandidates(sorted, input)
    requires FillState(input, s, goal) && CountNew(s.picks, LootbuddySlot) == 0
    ensures FillState(input, s', goal) && s'.openCapacity == s.openCapacity
    ensures CountNew(s'.picks, LootbuddySlot) <= input.lootbuddyShortage
    ensures LootbuddiesDone(input, s'.picks, s'.signups)
  {
    s' := s;
    for slot := 0 to input.lootbuddyShortage
      invariant FillState(input, s', goal) && s'.openCapacity == s.openCapacity
      invariant CountNew(s'.picks, LootbuddySlot) <= slot
      invariant CountNew(s'.picks, LootbuddySlot) == slot || LootbuddiesUsedUp(input, s'.signups)
    {
      ghost var before := s'.picks;
      var best;
      s', best := FillLootbuddySlot(input, sorted, s', goal);
      if best.Some? {
        CountNewAppend(before, PickOf(best.value, LootbuddySlot), LootbuddySlot);
      }
    }
  }

  /** `o` ranks first among the usable Lootbuddy signups. */
  ghost predicate BestLootbuddy(input: Input, s: State, o: ScoredOption) {
    && o.candidate in input.candidates && Usable(o.candidate, LootbuddySlot, s.signups, s.boosters)
    && o == OptionFor(input, s.picks, LootbuddySlot, o.candidate)
    && forall d :: d in input.candidates && Usable(d, LootbuddySlot, s.signups, s.boosters)
                   ==> OptionLe(o, OptionFor(input, s.picks, LootbuddySlot, d))
  }

  /** Fills one Lootbuddy slot with the best-ranked signup; without one, every Lootbuddy signup is in use. */
  method FillLootbuddySlot(input: Input, sorted: seq<Candidate>, s: State, ghost goal: nat)
    returns (s': State, best: Option<ScoredOption>)
    requires input.Valid() && SameCandidates(sorted, input) && FillState(input, s, goal)
    ensures FillState(input, s', goal) && s'.openCapacity == s.openCapacity
    ensures best.Some? ==> BestLootbuddy(input, s, best.value) && s'.picks == s.picks + [PickOf(best.value, LootbuddySlot)]
                           && NoBetterLootbuddy(input, s, best.value.candidate)
    ensures best.None? ==> s' == s && LootbuddiesUsedUp(input, s.signups)
  {
    var options := Options(input, sorted, s, LootbuddySlot);
    if options == [] {
      NoOptionNoLootbuddy(input, s, options);
      return s, None;
    }
    FirstIsBestLootbuddy(input, s, options);
    BestLootbuddyPrefers(input, s, options[0]);
    var p := PickOf(options[0], LootbuddySlot);
    FillingLootbuddy(input, s.picks, s.signups, s.boosters, s.openCapacity, s.openUsers, s.reachable, goal, p);
    s' := s.(picks := s.picks + [p], signups := s.signups + {p.candidate.signupId});
    best := Some(options[0]);
  }

  lemma FirstIsBestLootbuddy(input: Input, s: State, options: seq<ScoredOption>)
    requires AreOptions(input, s, LootbuddySlot, options) && options != []
    ensures BestLootbuddy(input, s, options[0])
  {
    hide OptionFor, Usable, OptionLe;
    assert options[0] in options;
    forall d | d in input.candidates && Usable(d, LootbuddySlot, s.signups, s.boosters)
      ensures OptionLe(options[0], OptionFor(input, s.picks, LootbuddySlot, d))
    {
      OptionOrder();
      HeadIsLeast(options, OptionLe, OptionFor(input, s.picks, LootbuddySlot, d));
    }
  }

  lemma NoOptionNoLootbuddy(input: Input, s: State, options: seq<ScoredOption>)
    requires AreOptions(input, s, LootbuddySlot, options) && options == []
    ensures LootbuddiesUsedUp(input, s.signups)
  {
    forall c | c in input.candidates && c.participation == LOOTBUDDY ensures c.signupId in s.signups {
      assert Usable(c, LootbuddySlot, s.signups, s.boosters) ==> OptionFor(input, s.picks, LootbuddySlot, c) in options;
    }
  }

  ghost predicate LootbuddiesUsedUp(input: Input, signups: set<Id>) {
    forall c :: c in input.candidates && c.participation == LOOTBUDDY ==> c.signupId in signups
  }

  /** `o` ranks first among the usable candidates that keep the maximum reachable. */
  ghost predicate BestKeeping(input: Input, s: State, b: BoosterBucket, o: ScoredOption)
    requires s.openCapacity.Of(b) > 0
  {
    && o.candidate in input.candidates && Usable(o.candidate, BoosterSlot(b), s.signups, s.boosters)
    && o == OptionFor(input, s.picks, BoosterSlot(b), o.candidate)
    && Keeps(s.openUsers, s.openCapacity, s.reachable, o.candidate.userId, b)
    && forall d :: d in input.candidates && Usable(d, BoosterSlot(b), s.signups, s.boosters)
                   && Keeps(s.openUsers, s.openCapacity, s.reachable, d.userId, b)
                   ==> OptionLe(o, OptionFor(input, s.picks, BoosterSlot(b), d))
  }

  lemma FirstKeeperIsBest(input: Input, s: State, b: BoosterBucket, options: seq<ScoredOption>, i: nat)
    requires s.openCapacity.Of(b) > 0 && i < |options| && AreOptions(input, s, BoosterSlot(b), options)
    requires forall k :: 0 <= k < i ==> !Keeps(s.openUsers, s.openCapacity, s.reachable, options[k].candidate.userId, b)
    requires Keeps(s.openUsers, s.openCapacity, s.reachable, options[i].candidate.userId, b)
    ensures BestKeeping(input, s, b, options[i])
  {
    assert options[i] in options;
    OptionOrder();
    forall d | d in input.candidates && Usable(d, BoosterSlot(b), s.signups, s.boosters)
               && Keeps(s.openUsers, s.openCapacity, s.reachable, d.userId, b)
      ensures OptionLe(options[i], OptionFor(input, s.picks, BoosterSlot(b), d))
    {
      var o := OptionFor(input, s.picks, BoosterSlot(b), d);
      assert o in options;
      var j :| 0 <= j < |options| && options[j] == o;
      assert options[j].candidate == d;
      assert j >= i;
    }
  }

  lemma NoKeeper(input: Input, s: State, b: BoosterBucket, options: seq<ScoredOption>)
    requires s.openCapacity.Of(b) > 0 && AreOptions(input, s, BoosterSlot(b), options)
    requires forall k :: 0 <= k < |options| ==> !Keeps(s.openUsers, s.openCapacity, s.reachable, options[k].candidate.userId, b)
    ensures forall c :: c in input.candidates && Usable(c, BoosterSlot(b), s.signups, s.boosters)
                        ==> !Keeps(s.openUsers, s.openCapacity, s.reachable, c.userId, b)
  {
    forall c | c in input.candidates && Usable(c, BoosterSlot(b), s.signups, s.boosters)
      ensures !Keeps(s.openUsers, s.openCapacity, s.reachable, c.userId, b)
    {
      assert OptionFor(input, s.picks, BoosterSlot(b), c) in options;
      var k :| 0 <= k < |options| && options[k] == OptionFor(input, s.picks, BoosterSlot(b), c);
      assert options[k].candidate == c;
    }
  }

  function SignupsOf(picks: seq<WorkingPick>): set<Id> {
    set p | p in picks :: p.Signup()
  }

  function BoostersOf(picks: seq<WorkingPick>): set<Id> {
    set p | p in picks && p.IsBooster() :: p.User()
  }

  /** The locked rows that have a bucket, in order. */
  method SeedPicks(rows: seq<LockedRow>) returns (locked: seq<WorkingPick>)
    ensures locked == LockedPicks(rows)
  {
    locked := [];
    for i := 0 to |rows|
      invariant locked == LockedPicks(rows[..i])
    {
      var bucket := BucketForRole(rows[i].selectedRole, rows[i].participation);
      assert rows[..i + 1][..i] == rows[..i];
      if bucket.Some? {
        locked := locked + [LockedPick(rows[i], bucket.value)];
      }
    }
    assert rows[..|rows|] == rows;
  }

  lemma SeedFilling(input: Input, sorted: seq<Candidate>, users: Users, fill: nat)
    requires input.Valid() && SameCandidates(sorted, input)
    requires var locked := LockedPicks(input.locked);
             AreOpenUsers(users, sorted, SignupsOf(locked), BoostersOf(locked))
    requires IsMaxFill(users, input.shortage, fill)
    ensures var locked := LockedPicks(input.locked);
            Filling(input, locked, SignupsOf(locked), BoostersOf(locked), input.shortage, users, fill, fill)
  {
    hide IsMaxFill, AreOpenUsers, WithinShortage, BoostersPicked, Draft;
    var locked := LockedPicks(input.locked);
    SeedDraft(input);
    OpenUsersOfSameCandidates(users, sorted, input.candidates, SignupsOf(locked), BoostersOf(locked));
    SeedWithinShortage(input);
  }

  lemma SeedDraft(input: Input)
    ensures var locked := LockedPicks(input.locked);
            Draft(input, locked, SignupsOf(locked), BoostersOf(locked))
  {
    var locked := LockedPicks(input.locked);
    SeedTracks(locked);
    assert locked[..|locked|] == locked;
    hide Tracks, LockedPicks;
  }

  lemma SeedTracks(locked: seq<WorkingPick>)
    ensures Tracks(locked, SignupsOf(locked), BoostersOf(locked))
  {
    forall s ensures s in SignupsOf(locked) <==> HasSignup(locked, s) {
      if HasSignup(locked, s) {
        var i :| 0 <= i < |locked| && locked[i].Signup() == s;
        assert locked[i] in locked;
      }
    }
    forall u ensures u in BoostersOf(locked) <==> HasBooster(locked, u) {
      if HasBooster(locked, u) {
        var i :| 0 <= i < |locked| && locked[i].IsBooster() && locked[i].User() == u;
        assert locked[i] in locked;
      }
    }
  }

  lemma OpenUsersOfSameCandidates(users: Users, s: seq<Candidate>, t: seq<Candidate>, signups: set<Id>, boosters: set<Id>)
    requires AreOpenUsers(users, s, signups, boosters)
    requires forall c :: c in s <==> c in t
    ensures AreOpenUsers(users, t, signups, boosters)
  {
    forall u, b ensures Offers(s, signups, boosters, u, b) <==> Offers(t, signups, boosters, u, b) {}
  }

  lemma SeedWithinShortage(input: Input)
    ensures WithinShortage(LockedPicks(input.locked), input.shortage, input.shortage)
    ensures BoostersPicked(LockedPicks(input.locked)) == 0
    ensures CountNew(LockedPicks(input.locked), LootbuddySlot) == 0
  {
    forall b ensures CountNew(LockedPicks(input.locked), b) == 0 {
      CountNewLocked(input.locked, b);
    }
  }

  // ---------------------------------------------------------------------
  // Improvement swaps
  // ---------------------------------------------------------------------

  function Soft(input: Input, picks: seq<WorkingPick>): real {
    SoftScore(input.catalog, input.externalClasses, picks)
  }

  /** The pick a swap records: utilities and score against the coverage of the swapped roster. */
  function SwapPick(input: Input, picks: seq<WorkingPick>, i: nat, c: Candidate): WorkingPick
    requires i < |picks|
  {
    var b := picks[i].bucket;
    PickOf(OptionFor(input, picks[i := Trial(c, b)], b, c), b)
  }

  function Swapped(input: Input, s: State, i: nat, c: Candidate): State
    requires i < |s.picks| && s.picks[i].NewPick?
  {
    s.(picks := s.picks[i := SwapPick(input, s.picks, i, c)],
       signups := s.signups - {s.picks[i].Signup()} + {c.signupId},
       boosters := Added(Without(s.boosters, s.picks[i].candidate), c))
  }

  /** What swaps never change: the number of picks and the slots filled per bucket. */
  ghost predicate SameSlots(picks: seq<WorkingPick>, picks': seq<WorkingPick>) {
    |picks'| == |picks| && forall b :: CountNew(picks', b) == CountNew(picks, b)
  }

  lemma SwapIsDraft(input: Input, s: State, i: nat, c: Candidate)
    requires Draft(input, s.picks, s.signups, s.boosters)
    requires i < |s.picks| && s.picks[i].NewPick? && c in input.candidates
    requires Swappable(s.picks, s.signups, s.boosters, i, c)
    ensures var s' := Swapped(input, s, i, c);
            Draft(input, s'.picks, s'.signups, s'.boosters) && SameSlots(s.picks, s'.picks)
  {
    var p := SwapPick(input, s.picks, i, c);
    SwappedDraft(input, s.picks, s.signups, s.boosters, i, p);
    forall b ensures CountNew(s.picks[i := p], b) == CountNew(s.picks, b) {
      CountNewReplace(s.picks, i, p, b);
    }
  }

  lemma SwapRaisesScore(input: Input, s: State, i: nat, c: Candidate)
    requires i < |s.picks| && s.picks[i].NewPick? && c in input.candidates
    requires Swappable(s.picks, s.signups, s.boosters, i, c) && Improves(input, s.picks, i, c)
    ensures Soft(input, Swapped(input, s, i, c).picks) > Soft(input, s.picks) + SWAP_EPSILON
  {
    RecordedPickScoresAsTrial(input, s.picks, i, SwapPick(input, s.picks, i, c));
  }

  lemma SwapKeepsLootbuddiesDone(input: Input, s: State, i: nat, c: Candidate)
    requires input.Valid() && Roster(input, s.picks)
    requires i < |s.picks| && s.picks[i].NewPick? && c in input.candidates
    requires Swappable(s.picks, s.signups, s.boosters, i, c)
    requires LootbuddiesDone(input, s.picks, s.signups) && SameSlots(s.picks, Swapped(input, s, i, c).picks)
    ensures LootbuddiesDone(input, Swapped(input, s, i, c).picks, Swapped(input, s, i, c).signups)
  {
    if LootbuddiesUsedUp(input, s.signups) {
      NewPicksFollowLocked(input, s.picks, i);
      assert NewPickOk(input, s.picks[i]);
      assert c.participation == BOOSTER;
      forall d | d in input.candidates && d.participation == LOOTBUDDY
        ensures d.signupId in Swapped(input, s, i, c).signups
      {
        SignupIdentifies(input, d, s.picks[i].candidate);
      }
    }
  }

  ghost predicate Complete(input: Input, s: State) {
    Draft(input, s.picks, s.signups, s.boosters) && LootbuddiesDone(input, s.picks, s.signups)
  }

  lemma ImprovingSwap(input: Input, s: State, i: nat, c: Candidate)
    requires input.Valid() && Complete(input, s)
    requires i < |s.picks| && s.picks[i].NewPick? && c in input.candidates
    requires Swappable(s.picks, s.signups, s.boosters, i, c) && Improves(input, s.picks, i, c)
    ensures var s' := Swapped(input, s, i, c);
            Complete(input, s') && SameSlots(s.picks, s'.picks)
            && Soft(input, s'.picks) > Soft(input, s.picks) + SWAP_EPSILON
  {
    SwapIsDraft(input, s, i, c);
    SwapRaisesScore(input, s, i, c);
    SwapKeepsLootbuddiesDone(input, s, i, c);
  }

  /** The swap of pick `i` for `c` is allowed and improves the score. */
  predicate Gainful(input: Input, s: State, i: nat, c: Candidate)
    requires i < |s.picks|
  {
    s.picks[i].NewPick? && Swappable(s.picks, s.signups, s.boosters, i, c) && Improves(input, s.picks, i, c)
  }

  /** The first candidate that gains in place of pick `i`; `|sorted|` when there is none. */
  method FindReplacement(input: Input, sorted: seq<Candidate>, s: State, i: nat) returns (k: nat)
    requires i < |s.picks|
    ensures k <= |sorted| && (k < |sorted| ==> Gainful(input, s, i, sorted[k]))
    ensures forall m :: 0 <= m < k ==> !Gainful(input, s, i, sorted[m])
  {
    hide Gainful, Improves, Swappable;
    for j := 0 to |sorted|
      invariant forall m :: 0 <= m < j ==> !Gainful(input, s, i, sorted[m])
    {
      var gains := Gainful(input, s, i, sorted[j]);
      if gains {
        return j;
      }
    }
    k := |sorted|;
  }

  /** Pick `i` and candidate `k` make the first gainful swap, picks and candidates in order. */
  ghost predicate FirstGainful(input: Input, sorted: seq<Candidate>, s: State, i: nat, k: nat) {
    && i < |s.picks| && k < |sorted| && Gainful(input, s, i, sorted[k])
    && (forall j, m :: 0 <= j < i && 0 <= m < |sorted| ==> !Gainful(input, s, j, sorted[m]))
    && (forall m :: 0 <= m < k ==> !Gainful(input, s, i, sorted[m]))
  }

  method FindSwap(input: Input, sorted: seq<Candidate>, s: State) returns (found: bool, index: nat, k: nat)
    ensures found ==> FirstGainful(input, sorted, s, index, k)
    ensures !found ==> forall i, m :: 0 <= i < |s.picks| && 0 <= m < |sorted| ==> !Gainful(input, s, i, sorted[m])
  {
    hide Gainful, Improves, Swappable;
    for i := 0 to |s.picks|
      invariant forall j, m :: 0 <= j < i && 0 <= m < |sorted| ==> !Gainful(input, s, j, sorted[m])
    {
      k := FindReplacement(input, sorted, s, i);
      if k < |sorted| {
        return true, i, k;
      }
    }
    found, index, k := false, 0, 0;
  }

  lemma NoGainfulSwap(input: Input, sorted: seq<Candidate>, s: State)
    requires SameCandidates(sorted, input)
    requires forall i, k :: 0 <= i < |s.picks| && 0 <= k < |sorted| ==> !Gainful(input, s, i, sorted[k])
    ensures LocallyOptimal(input, s.picks, s.signups, s.boosters)
  {
    forall i, c | 0 <= i < |s.picks| && s.picks[i].NewPick? && c in input.candidates
                  && Swappable(s.picks, s.signups, s.boosters, i, c)
      ensures !Improves(input, s.picks, i, c)
    {
      var k :| 0 <= k < |sorted| && sorted[k] == c;
      assert !Gainful(input, s, i, sorted[k]);
    }
  }

  /** Looks for one swap that improves the soft score, and applies it. */
  method ImproveOnce(input: Input, sorted: seq<Candidate>, s: State) returns (s': State, improved: bool)
    requires input.Valid() && SameCandidates(sorted, input) && Complete(input, s)
    ensures Complete(input, s') && SameSlots(s.picks, s'.picks)
    ensures improved ==> exists i: nat, k: nat :: FirstGainful(input, sorted, s, i, k) && s' == Swapped(input, s, i, sorted[k])
    ensures improved ==> Soft(input, s'.picks) > Soft(input, s.picks) + SWAP_EPSILON
    ensures !improved ==> s' == s && LocallyOptimal(input, s.picks, s.signups, s.boosters)
  {
    var index, k;
    improved, index, k := FindSwap(input, sorted, s);
    if improved {
      assert sorted[k] in input.candidates;
      ImprovingSwap(input, s, index, sorted[k]);
      s' := Swapped(input, s, index, sorted[k]);
    } else {
      NoGainfulSwap(input, sorted, s);
      s' := s;
    }
  }

  /** Swaps until none improves; terminates because every swap uses up part of a bounded score. */
  method Improve(input: Input, sorted: seq<Candidate>, s: State) returns (s': State)
    requires input.Valid() && SameCandidates(sorted, input)
    requires Complete(input, s)
    ensures Complete(input, s')
    ensures SameSlots(s.picks, s'.picks)
    ensures LocallyOptimal(input, s'.picks, s'.signups, s'.boosters)
    ensures Soft(input, s'.picks) >= Soft(input, s.picks)
  {
    s' := s;
    var improved := true;
    ghost var ceiling := ScoreCeiling(input, |s.picks|);
    ScoreBounded(input, s.picks);
    while improved
      invariant Complete(input, s')
      invariant SameSlots(s.picks, s'.picks)
      invariant Soft(input, s.picks) <= Soft(input, s'.picks) <= ceiling
      invariant !improved ==> LocallyOptimal(input, s'.picks, s'.signups, s'.boosters)
      decreases (ceiling - Soft(input, s'.picks)) * 1000000000.0, improved
    {
      s', improved := ImproveOnce(input, sorted, s');
      ScoreBounded(input, s'.picks);
    }
  }

  // ---------------------------------------------------------------------
  // The whole proposal
  // ---------------------------------------------------------------------

  /** Some way of staffing the open Booster slots, keyed by User: the candidate used and its bucket. */
  type Choice = map<Id, (Candidate, BoosterBucket)>

  function ChosenFor(chosen: Choice, b: BoosterBucket): set<Id> {
    set u | u in chosen && chosen[u].1 == b
  }

  /** Candidate `c` offers a role of bucket `b`; neither its signup nor its User `u` is locked. */
  ghost predicate FreeOffer(input: Input, u: Id, c: Candidate, b: BoosterBucket) {
    var locked := LockedPicks(input.locked);
    && c in input.candidates && c.userId == u && Fits(c, BoosterSlot(b))
    && c.signupId !in SignupsOf(locked) && u !in BoostersOf(locked)
  }

  /** Only free offers, and no bucket beyond its shortage. */
  ghost predicate LegalChoice(input: Input, chosen: Choice) {
    && (forall u :: u in chosen ==> FreeOffer(input, u, chosen[u].0, chosen[u].1))
    && (forall b :: |ChosenFor(chosen, b)| <= input.shortage.Of(b))
  }

  /** No legal way of staffing the open Booster slots fills more of them than `picks`. */
  ghost predicate FillsMaximum(input: Input, picks: seq<WorkingPick>) {
    forall chosen :: LegalChoice(input, chosen) ==> |chosen| <= BoostersPicked(picks)
  }

  ghost function AssignmentOf(chosen: Choice): (a: Assignment)
    ensures a.Keys == chosen.Keys && |a| == |chosen|
    ensures forall b :: UsersAt(a, b) == ChosenFor(chosen, b)
  {
    var a := map u | u in chosen :: chosen[u].1;
    assert a.Keys == chosen.Keys;
    assert |a| == |a.Keys| && |chosen| == |chosen.Keys|;
    a
  }

  lemma ChoiceIsAssignment(input: Input, users: Users, chosen: Choice)
    requires LegalChoice(input, chosen)
    requires var locked := LockedPicks(input.locked);
             AreOpenUsers(users, input.candidates, SignupsOf(locked), BoostersOf(locked))
    ensures Legal(users, input.shortage, AssignmentOf(chosen))
  {
    var locked := LockedPicks(input.locked);
    var a := AssignmentOf(chosen);
    forall u | u in a ensures u in users && a[u] in users[u] {
      assert OpenCandidate(chosen[u].0, SignupsOf(locked), BoostersOf(locked));
      assert Offers(input.candidates, SignupsOf(locked), BoostersOf(locked), u, chosen[u].1);
    }
    forall b ensures |UsersAt(a, b)| <= input.shortage.Of(b) {
      assert UsersAt(a, b) == ChosenFor(chosen, b);
    }
  }

  lemma SeedMaximumIsGlobal(input: Input, seed: State)
    requires FillState(input, seed, seed.reachable)
    requires seed.picks == LockedPicks(input.locked) && seed.openCapacity == input.shortage
    requires seed.signups == SignupsOf(seed.picks) && seed.boosters == BoostersOf(seed.picks)
    ensures forall chosen :: LegalChoice(input, chosen) ==> |chosen| <= seed.reachable
  {
    forall chosen: Choice | LegalChoice(input, chosen) ensures |chosen| <= seed.reachable {
      ChoiceIsAssignment(input, seed.openUsers, chosen);
    }
  }

  /** `chosen` is the choice the new Booster picks make. */
  ghost predicate ChoiceMade(input: Input, picks: seq<WorkingPick>, chosen: Choice) {
    && |chosen| == BoostersPicked(picks)
    && (forall b :: |ChosenFor(chosen, b)| == CountNew(picks, BoosterSlot(b)))
    && (forall u :: u in chosen ==> HasBooster(picks, u) && FreeOffer(input, u, chosen[u].0, chosen[u].1))
  }

  lemma ChoiceWithBooster(input: Input, picks: seq<WorkingPick>, rest: Choice, last: WorkingPick)
    requires ChoiceMade(input, picks, rest)
    requires last.NewPick? && last.bucket.BoosterSlot? && last.IsBooster() && !HasBooster(picks, last.User())
    requires FreeOffer(input, last.User(), last.candidate, last.bucket.slot)
    ensures ChoiceMade(input, picks + [last], rest[last.User() := (last.candidate, last.bucket.slot)])
  {
    hide FreeOffer, CountNew, ChosenFor;
    BoostersPickedAppend(picks, last);
    assert last.User() !in rest;
    ChosenCountsMore(picks, rest, last);
    HasBoosterAppend(picks, last);
  }

  lemma ChosenCountsMore(picks: seq<WorkingPick>, rest: Choice, last: WorkingPick)
    requires last.NewPick? && last.bucket.BoosterSlot? && last.User() !in rest
    requires forall b :: |ChosenFor(rest, b)| == CountNew(picks, BoosterSlot(b))
    ensures forall b :: |ChosenFor(rest[last.User() := (last.candidate, last.bucket.slot)], b)|
                        == CountNew(picks + [last], BoosterSlot(b))
  {
    forall b
      ensures |ChosenFor(rest[last.User() := (last.candidate, last.bucket.slot)], b)|
              == CountNew(picks + [last], BoosterSlot(b))
    {
      CountNewAppend(picks, last, BoosterSlot(b));
      ChosenForMore(rest, last.User(), last.candidate, last.bucket.slot, b);
    }
  }

  lemma ChosenForMore(rest: Choice, u: Id, c: Candidate, slot: BoosterBucket, b: BoosterBucket)
    requires u !in rest
    ensures |ChosenFor(rest[u := (c, slot)], b)| == |ChosenFor(rest, b)| + if slot == b then 1 else 0
  {
    var added := if slot == b then {u} else {};
    assert ChosenFor(rest[u := (c, slot)], b) == ChosenFor(rest, b) + added;
  }

  lemma ChoiceWithLootbuddy(input: Input, picks: seq<WorkingPick>, rest: Choice, last: WorkingPick)
    requires ChoiceMade(input, picks, rest) && last.NewPick? && last.bucket.LootbuddySlot?
    ensures ChoiceMade(input, picks + [last], rest)
  {
    BoostersPickedAppend(picks, last);
    forall b ensures |ChosenFor(rest, b)| == CountNew(picks + [last], BoosterSlot(b)) {
      CountNewAppend(picks, last, BoosterSlot(b));
    }
    HasBoosterAppend(picks, last);
  }

  lemma HasBoosterAppend(picks: seq<WorkingPick>, last: WorkingPick)
    ensures forall u :: HasBooster(picks, u) ==> HasBooster(picks + [last], u)
    ensures last.IsBooster() ==> HasBooster(picks + [last], last.User())
  {
    forall u | HasBooster(picks, u) ensures HasBooster(picks + [last], u) {
      var i :| 0 <= i < |picks| && picks[i].IsBooster() && picks[i].User() == u;
      assert (picks + [last])[i] == picks[i];
    }
    assert (picks + [last])[|picks|] == last;
  }

  lemma NothingChosenYet(input: Input)
    ensures ChoiceMade(input, LockedPicks(input.locked), map[])
  {
    SeedWithinShortage(input);
    forall b ensures |ChosenFor(map[], b)| == CountNew(LockedPicks(input.locked), BoosterSlot(b)) {
      CountNewLocked(input.locked, BoosterSlot(b));
      assert ChosenFor(map[], b) == {};
    }
  }

  /** The first `k` picks make a choice. */
  lemma {:induction false} PicksMakeAChoice(input: Input, picks: seq<WorkingPick>, k: nat) returns (chosen: Choice)
    requires Roster(input, picks) && |LockedPicks(input.locked)| <= k <= |picks|
    ensures ChoiceMade(input, picks[..k], chosen)
    decreases k
  {
    hide ChoiceMade;
    if k == |LockedPicks(input.locked)| {
      NothingChosenYet(input);
      chosen := map[];
    } else {
      var rest := PicksMakeAChoice(input, picks, k - 1);
      PrefixIsRoster(input, picks, k);
      assert picks[..k][..k - 1] == picks[..k - 1];
      chosen := ChoiceWithLast(input, picks[..k], rest);
    }
  }

  lemma ChoiceWithLast(input: Input, picks: seq<WorkingPick>, rest: Choice) returns (chosen: Choice)
    requires Roster(input, picks) && |picks| > |LockedPicks(input.locked)|
    requires ChoiceMade(input, picks[..|picks| - 1], rest)
    ensures ChoiceMade(input, picks, chosen)
  {
    hide ChoiceMade, Roster;
    var n := |picks| - 1;
    assert picks == picks[..n] + [picks[n]];
    LastPickIsFree(input, picks);
    if picks[n].bucket.BoosterSlot? {
      ChoiceWithBooster(input, picks[..n], rest, picks[n]);
      chosen := rest[picks[n].User() := (picks[n].candidate, picks[n].bucket.slot)];
    } else {
      ChoiceWithLootbuddy(input, picks[..n], rest, picks[n]);
      chosen := rest;
    }
  }

  lemma PrefixIsRoster(input: Input, picks: seq<WorkingPick>, n: nat)
    requires Roster(input, picks) && |LockedPicks(input.locked)| <= n <= |picks|
    ensures Roster(input, picks[..n])
  {
    var m := |LockedPicks(input.locked)|;
    assert picks[..n][..m] == picks[..m];
    forall i, j | 0 <= i < j < n && m <= j ensures Compatible(picks[..n][i], picks[..n][j]) {
      assert Compatible(picks[i], picks[j]);
    }
  }

  /** Together: the picks are a legal choice of the largest possible size. */
  lemma MaximumIsAttained(input: Input, picks: seq<WorkingPick>)
    requires Roster(input, picks) && WithinShortage(picks, Capacity(0, 0, 0), input.shortage)
    ensures exists chosen :: LegalChoice(input, chosen) && |chosen| == BoostersPicked(picks)
  {
    var chosen := PicksMakeAChoice(input, picks, |picks|);
    assert picks[..|picks|] == picks;
    forall b ensures |ChosenFor(chosen, b)| <= input.shortage.Of(b) {
      assert CountNew(picks, BoosterSlot(b)) + Capacity(0, 0, 0).Of(b) <= input.shortage.Of(b);
    }
    assert LegalChoice(input, chosen);
  }

  lemma LastPickIsFree(input: Input, picks: seq<WorkingPick>)
    requires Roster(input, picks) && |picks| > |LockedPicks(input.locked)|
    ensures var last := picks[|picks| - 1];
            && NewPickOk(input, last)
            && last.Signup() !in SignupsOf(LockedPicks(input.locked))
            && (last.IsBooster() ==> last.User() !in BoostersOf(LockedPicks(input.locked)))
            && (last.IsBooster() ==> !HasBooster(picks[..|picks| - 1], last.User()))
  {
    var locked := LockedPicks(input.locked);
    var n := |picks| - 1;
    forall p | p in locked ensures Compatible(p, picks[n]) {
      var i :| 0 <= i < |locked| && locked[i] == p;
      assert picks[..|locked|][i] == p;
    }
  }

  /** What is still missing after the proposal, per bucket (`shortageRemaining`). */
  method ShortageRemaining(input: Input, picks: seq<WorkingPick>) returns (missing: Capacity, missingLootbuddies: nat)
    ensures forall b :: missing.Of(b) == Max(0, input.shortage.Of(b) - CountNew(picks, BoosterSlot(b)))
    ensures missingLootbuddies == Max(0, input.lootbuddyShortage - CountNew(picks, LootbuddySlot))
  {
    hide CountNew;
    var filled, lootbuddies := Capacity(0, 0, 0), 0;
    NothingCounted();
    for i := 0 to |picks|
      invariant forall b :: filled.Of(b) == CountNew(picks[..i], BoosterSlot(b))
      invariant lootbuddies == CountNew(picks[..i], LootbuddySlot)
    {
      var pick := picks[i];
      assert picks[..i + 1] == picks[..i] + [pick];
      forall b ensures CountNew(picks[..i + 1], b) == CountNew(picks[..i], b) + if pick.NewPick? && pick.bucket == b then 1 else 0 {
        CountNewAppend(picks[..i], pick, b);
      }
      if pick.NewPick? {
        match pick.bucket {
          case LootbuddySlot => lootbuddies := lootbuddies + 1;
          case BoosterSlot(TANKS) => filled := filled.(tanks := filled.tanks + 1);
          case BoosterSlot(HEALERS) => filled := filled.(healers := filled.healers + 1);
          case BoosterSlot(DPS) => filled := filled.(dps := filled.dps + 1);
        }
      }
    }
    assert picks[..|picks|] == picks;
    missing := Capacity(Max(0, input.shortage.tanks - filled.tanks), Max(0, input.shortage.healers - filled.healers),
                        Max(0, input.shortage.dps - filled.dps));
    missingLootbuddies := Max(0, input.lootbuddyShortage - lootbuddies);
    assert filled.Of(TANKS) == CountNew(picks, BoosterSlot(TANKS));
    assert filled.Of(HEALERS) == CountNew(picks, BoosterSlot(HEALERS));
    assert filled.Of(DPS) == CountNew(picks, BoosterSlot(DPS));
  }

  lemma NothingCounted()
    ensures forall b :: CountNew([], b) == 0
  {
  }

  lemma TracksAreTheSets(picks: seq<WorkingPick>, signups: set<Id>, boosters: set<Id>)
    requires Tracks(picks, signups, boosters)
    ensures signups == SignupsOf(picks) && boosters == BoostersOf(picks)
  {
    SeedTracks(picks);
    forall s ensures s in signups <==> s in SignupsOf(picks) {}
    forall u ensures u in boosters <==> u in BoostersOf(picks) {}
  }

  /**
   * The proposal: a legal roster on top of the untouched locked picks, with the
   * most Booster slots any legal roster can fill, the Lootbuddy slots filled as
   * far as there are signups, and no improving swap left.
   */
  method OptimizeRosterProposal(input: Input)
    returns (picks: seq<WorkingPick>, missing: Capacity, missingLootbuddies: nat)
    requires input.Valid()
    ensures Roster(input, picks)
    ensures WithinShortage(picks, Capacity(0, 0, 0), input.shortage)
    ensures FillsMaximum(input, picks)
    ensures forall b :: missing.Of(b) + CountNew(picks, BoosterSlot(b)) == input.shortage.Of(b)
    ensures CountNew(picks, LootbuddySlot) + missingLootbuddies == input.lootbuddyShortage
    ensures missingLootbuddies == 0 || LootbuddiesUsedUp(input, SignupsOf(picks))
    ensures LocallyOptimal(input, picks, SignupsOf(picks), BoostersOf(picks))
    ensures NoBetterReplacement(input, picks)
  {
    hide FillsMaximum, NoBetterReplacement, LocallyOptimal, SortBy, CountNew, Soft;
    var sorted := SortBy(input.candidates, CandidateLe);
    SortPermutes(input.candidates, CandidateLe);
    var s := FillAll(input, sorted);
    ghost var filled := s.picks;
    s := Improve(input, sorted, s);
    picks := s.picks;
    missing, missingLootbuddies := ShortageRemaining(input, picks);
    FinishedProposal(input, filled, s);
    LocallyOptimalPrefers(input, picks, s.signups, s.boosters);
    SameSlotsSameFill(filled, picks, input.shortage, missing);
    SameFillMaximum(input, filled, picks);
  }

  /** What the finished state says about its picks. */
  lemma FinishedProposal(input: Input, filled: seq<WorkingPick>, s: State)
    requires Complete(input, s) && SameSlots(filled, s.picks)
    ensures Draft(input, s.picks, s.signups, s.boosters)
    ensures s.signups == SignupsOf(s.picks) && s.boosters == BoostersOf(s.picks)
    ensures CountNew(s.picks, LootbuddySlot) == CountNew(filled, LootbuddySlot)
    ensures CountNew(s.picks, LootbuddySlot) == input.lootbuddyShortage || LootbuddiesUsedUp(input, s.signups)
  {
    TracksAreTheSets(s.picks, s.signups, s.boosters);
  }

  lemma SameFillMaximum(input: Input, filled: seq<WorkingPick>, picks: seq<WorkingPick>)
    requires FillsMaximum(input, filled) && BoostersPicked(picks) == BoostersPicked(filled)
    ensures FillsMaximum(input, picks)
  {
    forall chosen | LegalChoice(input, chosen) ensures |chosen| <= BoostersPicked(picks) {
      assert |chosen| <= BoostersPicked(filled);
    }
  }

  /** Seeding and greedy fill: the maximum number of Booster slots, then the Lootbuddies. */
  method FillAll(input: Input, sorted: seq<Candidate>) returns (s: State)
    requires input.Valid() && SameCandidates(sorted, input)
    ensures Complete(input, s)
    ensures WithinShortage(s.picks, Capacity(0, 0, 0), input.shortage)
    ensures CountNew(s.picks, LootbuddySlot) <= input.lootbuddyShortage
    ensures FillsMaximum(input, s.picks)
  {
    hide Filling, CountNew, SameCandidates, LootbuddiesUsedUp, LegalChoice;
    s := Seed(input, sorted);
    ghost var goal := s.reachable;
    SeedMaximumIsGlobal(input, s);
    SeedWithinShortage(input);
    s := FillBoosters(input, sorted, s, goal);
    s := FillLootbuddies(input, sorted, s, goal);
    EverySlotVisited(input, s, goal);
  }

  /** The Booster slots, bucket by bucket; afterwards none is left to visit. */
  method FillBoosters(input: Input, sorted: seq<Candidate>, s: State, ghost goal: nat) returns (s': State)
    requires input.Valid() && SameCandidates(sorted, input)
    requires FillState(input, s, goal) && s.openCapacity == input.shortage
    ensures FillState(input, s', goal) && s'.openCapacity == Capacity(0, 0, 0)
    ensures CountNew(s'.picks, LootbuddySlot) == CountNew(s.picks, LootbuddySlot)
  {
    hide FillState, CountNew, SameCandidates;
    s' := FillBucket(input, sorted, s, TANKS, input.shortage.tanks, goal);
    s' := FillBucket(input, sorted, s', HEALERS, input.shortage.healers, goal);
    s' := FillBucket(input, sorted, s', DPS, input.shortage.dps, goal);
    NothingOpen(s'.openCapacity);
  }

  lemma EverySlotVisited(input: Input, s: State, goal: nat)
    requires FillState(input, s, goal) && s.openCapacity == Capacity(0, 0, 0)
    ensures BoostersPicked(s.picks) == goal
    ensures WithinShortage(s.picks, Capacity(0, 0, 0), input.shortage)
    ensures Draft(input, s.picks, s.signups, s.boosters)
  {
    hide Draft, AreOpenUsers, WithinShortage, BoostersPicked, IsMaxFill;
    NoCapacityNoFill(s.openUsers, s.openCapacity, s.reachable);
  }

  lemma NothingOpen(c: Capacity)
    requires c.Of(TANKS) == 0 && c.Of(HEALERS) == 0 && c.Of(DPS) == 0
    ensures c == Capacity(0, 0, 0)
  {
  }

  lemma SameSlotsSameFill(filled: seq<WorkingPick>, picks: seq<WorkingPick>, shortage: Capacity, missing: Capacity)
    requires SameSlots(filled, picks) && WithinShortage(filled, Capacity(0, 0, 0), shortage)
    requires forall b :: missing.Of(b) == Max(0, shortage.Of(b) - CountNew(picks, BoosterSlot(b)))
    ensures BoostersPicked(picks) == BoostersPicked(filled)
    ensures WithinShortage(picks, Capacity(0, 0, 0), shortage)
    ensures forall b :: missing.Of(b) + CountNew(picks, BoosterSlot(b)) == shortage.Of(b)
  {
    forall b ensures missing.Of(b) == shortage.Of(b) - CountNew(picks, BoosterSlot(b)) {
      assert CountNew(picks, BoosterSlot(b)) == CountNew(filled, BoosterSlot(b));
      assert CountNew(filled, BoosterSlot(b)) + Capacity(0, 0, 0).Of(b) <= shortage.Of(b);
    }
  }

  // ---------------------------------------------------------------------
  // Which locked rows are protected
  // ---------------------------------------------------------------------

  ghost predicate DistinctSignups(rows: seq<LockedRow>) {
    forall i, j :: 0 <= i < j < |rows| ==> rows[i].signupId != rows[j].signupId
  }

  /** Another locked Booster row of the same User. */
  ghost predicate HasTwin(rows: seq<LockedRow>, row: LockedRow) {
    exists other :: other in rows && other != row && other.participation == BOOSTER && other.userId == row.userId
  }

  /**
   * A locked row keeps its place and its signup exactly when its role maps to a
   * bucket; so does a Booster row keep its User, unless another of the User's
   * rows does. A Booster row without a role is dropped.
   */
  lemma LockedRowProtected(input: Input, row: LockedRow)
    requires row in input.locked && DistinctSignups(input.locked)
    ensures var locked, mapped := LockedPicks(input.locked), row.participation == LOOTBUDDY || row.selectedRole.Some?;
            && ((exists p :: p in locked && p.LockedPick? && p.row == row) <==> mapped)
            && (row.signupId in SignupsOf(locked) <==> mapped)
            && (row.participation == BOOSTER && !HasTwin(input.locked, row) ==>
                  (row.userId in BoostersOf(locked) <==> mapped))
            && (row.participation == BOOSTER && mapped ==> row.userId in BoostersOf(locked))
  {
    LockedRowKept(input.locked, row);
    var locked := LockedPicks(input.locked);
    if row.signupId in SignupsOf(locked) {
      var p :| p in locked && p.Signup() == row.signupId;
      SameRow(input.locked, p.row, row);
    }
  }

  lemma SameRow(rows: seq<LockedRow>, a: LockedRow, b: LockedRow)
    requires DistinctSignups(rows) && a in rows && b in rows && a.signupId == b.signupId
    ensures a == b
  {
    var i :| 0 <= i < |rows| && rows[i] == a;
    var j :| 0 <= j < |rows| && rows[j] == b;
    assert i == j;
  }

  /**
   * The User of a dropped Booster row counts as free: each of the User's other
   * fitting signups may be picked for a second Booster slot of that User.
   */
  lemma DroppedUserIsFree(input: Input, row: LockedRow, c: Candidate, b: BoosterBucket)
    requires row in input.locked && DistinctSignups(input.locked) && !HasTwin(input.locked, row)
    requires row.participation == BOOSTER && row.selectedRole.None?
    requires c in input.candidates && c.userId == row.userId && Fits(c, BoosterSlot(b))
    requires forall other :: other in input.locked ==> other.signupId != c.signupId
    ensures FreeOffer(input, row.userId, c, b)
  {
    LockedRowProtected(input, row);
    var locked := LockedPicks(input.locked);
    assert forall p :: p in locked ==> p.Signup() == p.row.signupId && p.row in input.locked;
  }

  lemma {:induction false} LockedRowKept(rows: seq<LockedRow>, row: LockedRow)
    requires row in rows
    ensures BucketForRole(row.selectedRole, row.participation).Some?
            <==> exists p :: p in LockedPicks(rows) && p.LockedPick? && p.row == row
  {
    var n := |rows| - 1;
    var bucket := BucketForRole(rows[n].selectedRole, rows[n].participation);
    if row in rows[..n] {
      LockedRowKept(rows[..n], row);
      if bucket.Some? {
        assert LockedPick(rows[n], bucket.value) in LockedPicks(rows);
      }
    } else {
      assert row == rows[n];
      if bucket.Some? {
        assert LockedPick(row, bucket.value) in LockedPicks(rows);
      }
    }
  }
}
