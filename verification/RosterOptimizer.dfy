/**
 * The roster proposal: seed with the locked picks, fill the open slots without
 * ever lowering the reachable maximum, then swap within buckets while the soft
 * score rises.
 */
module RosterOptimizer {
  import opened Prelude
  import opened SlotMatching
  import opened RosterModel

  // ---------------------------------------------------------------------
  // What a draft is
  // ---------------------------------------------------------------------

  /** Locked rows that map to a bucket; other locked rows are skipped. */
  function LockedPicks(rows: seq<LockedRow>): (picks: seq<WorkingPick>)
    ensures forall p :: p in picks ==> p.LockedPick? && p.row in rows
  {
    if rows == [] then []
    else
      var last := rows[|rows| - 1];
      var bucket := BucketForRole(last.selectedRole, last.participation);
      LockedPicks(rows[..|rows| - 1]) + if bucket.Some? then [LockedPick(last, bucket.value)] else []
  }

  ghost predicate HasSignup(picks: seq<WorkingPick>, signup: Id) {
    exists i :: 0 <= i < |picks| && picks[i].Signup() == signup
  }

  ghost predicate HasBooster(picks: seq<WorkingPick>, user: Id) {
    exists i :: 0 <= i < |picks| && picks[i].IsBooster() && picks[i].User() == user
  }

  /** A new pick uses an offered role of an eligible candidate. */
  ghost predicate NewPickOk(input: Input, p: WorkingPick) {
    && p.NewPick?
    && p.candidate in input.candidates
    && Fits(p.candidate, p.bucket)
    && p.role == PickRoleForBucket(p.candidate, p.bucket)
    && p.wclPct == WclForRole(p.candidate, p.role)
  }

  /** Two picks that may stand in one roster: other signups, and no User boosting twice. */
  ghost predicate Compatible(p: WorkingPick, q: WorkingPick) {
    && p.Signup() != q.Signup()
    && (p.IsBooster() && q.IsBooster() ==> p.User() != q.User())
  }

  /** The locked picks first, unchanged; then new picks compatible with everything before them. */
  ghost predicate Roster(input: Input, picks: seq<WorkingPick>) {
    var n := |LockedPicks(input.locked)|;
    && n <= |picks| && picks[..n] == LockedPicks(input.locked)
    && (forall i :: n <= i < |picks| ==> NewPickOk(input, picks[i]))
    && (forall i, j :: 0 <= i < j < |picks| && n <= j ==> Compatible(picks[i], picks[j]))
  }

  /** The two id sets mirror the picks. */
  ghost predicate Tracks(picks: seq<WorkingPick>, signups: set<Id>, boosters: set<Id>) {
    && (forall s :: s in signups <==> HasSignup(picks, s))
    && (forall u :: u in boosters <==> HasBooster(picks, u))
  }

  function CountNew(picks: seq<WorkingPick>, b: Bucket): nat {
    if picks == [] then 0
    else
      var last := picks[|picks| - 1];
      CountNew(picks[..|picks| - 1], b) + if last.NewPick? && last.bucket == b then 1 else 0
  }

  function BoostersPicked(picks: seq<WorkingPick>): nat {
    CountNew(picks, BoosterSlot(TANKS)) + CountNew(picks, BoosterSlot(HEALERS)) + CountNew(picks, BoosterSlot(DPS))
  }

  lemma CountNewAppend(picks: seq<WorkingPick>, p: WorkingPick, b: Bucket)
    ensures CountNew(picks + [p], b) == CountNew(picks, b) + if p.NewPick? && p.bucket == b then 1 else 0
  {
    assert (picks + [p])[..|picks|] == picks;
  }

  lemma {:induction false} CountNewReplace(picks: seq<WorkingPick>, i: nat, p: WorkingPick, b: Bucket)
    requires i < |picks| && picks[i].NewPick? && p.NewPick? && p.bucket == picks[i].bucket
    ensures CountNew(picks[i := p], b) == CountNew(picks, b)
  {
    var n := |picks| - 1;
    if i < n {
      CountNewReplace(picks[..n], i, p, b);
      assert picks[i := p][..n] == picks[..n][i := p];
    } else {
      assert picks[i := p][..n] == picks[..n];
    }
  }

  lemma {:induction false} CountNewLocked(rows: seq<LockedRow>, b: Bucket)
    ensures CountNew(LockedPicks(rows), b) == 0
  {
    if rows != [] {
      var n := |rows| - 1;
      CountNewLocked(rows[..n], b);
      var bucket := BucketForRole(rows[n].selectedRole, rows[n].participation);
      if bucket.Some? {
        CountNewAppend(LockedPicks(rows[..n]), LockedPick(rows[n], bucket.value), b);
      } else {
        assert LockedPicks(rows) == LockedPicks(rows[..n]);
      }
    }
  }

  // ---------------------------------------------------------------------
  // Open Users
  // ---------------------------------------------------------------------

  predicate CanFill(c: Candidate, b: BoosterBucket) {
    RolesForBucket(c, BoosterSlot(b)) != []
  }

  /** A Booster candidate whose signup and User are both still free. */
  predicate OpenCandidate(c: Candidate, signups: set<Id>, boosters: set<Id>) {
    c.participation == BOOSTER && c.signupId !in signups && c.userId !in boosters
  }

  ghost predicate Offers(candidates: seq<Candidate>, signups: set<Id>, boosters: set<Id>, u: Id, b: BoosterBucket) {
    exists c :: c in candidates && OpenCandidate(c, signups, boosters) && c.userId == u && CanFill(c, b)
  }

  /** `users` maps exactly the Users with an open offer to the buckets they offer. */
  ghost predicate AreOpenUsers(users: Users, candidates: seq<Candidate>, signups: set<Id>, boosters: set<Id>) {
    && (forall u, b :: u in users && b in users[u] ==> Offers(candidates, signups, boosters, u, b))
    && (forall u, b :: Offers(candidates, signups, boosters, u, b) ==> u in users && b in users[u])
    && (forall u :: u in users ==> users[u] != {})
  }

  function FillableBuckets(c: Candidate): (buckets: set<BoosterBucket>)
    ensures forall b :: b in buckets <==> CanFill(c, b)
  {
    set b: BoosterBucket | CanFill(c, b)
  }

  method OpenBoosterUsers(candidates: seq<Candidate>, signups: set<Id>, boosters: set<Id>) returns (users: Users)
    ensures AreOpenUsers(users, candidates, signups, boosters)
  {
    users := map[];
    for i := 0 to |candidates|
      invariant AreOpenUsers(users, candidates[..i], signups, boosters)
    {
      var c := candidates[i];
      assert candidates[..i + 1] == candidates[..i] + [c];
      if !OpenCandidate(c, signups, boosters) {
        OffersUnchanged(candidates[..i], c, signups, boosters);
        continue;
      }
      OffersExtended(candidates[..i], c, signups, boosters);
      var buckets := (if c.userId in users then users[c.userId] else {}) + FillableBuckets(c);
      if buckets != {} {
        users := users[c.userId := buckets];
      }
    }
    assert candidates[..|candidates|] == candidates;
  }

  lemma OffersUnchanged(candidates: seq<Candidate>, c: Candidate, signups: set<Id>, boosters: set<Id>)
    requires !OpenCandidate(c, signups, boosters)
    ensures forall u, b :: Offers(candidates + [c], signups, boosters, u, b) <==> Offers(candidates, signups, boosters, u, b)
  {
    forall u, b ensures Offers(candidates + [c], signups, boosters, u, b) <==> Offers(candidates, signups, boosters, u, b) {
      assert forall d :: d in candidates + [c] <==> d in candidates || d == c;
    }
  }

  lemma OffersExtended(candidates: seq<Candidate>, c: Candidate, signups: set<Id>, boosters: set<Id>)
    requires OpenCandidate(c, signups, boosters)
    ensures forall u, b :: Offers(candidates + [c], signups, boosters, u, b)
                           <==> Offers(candidates, signups, boosters, u, b) || (u == c.userId && CanFill(c, b))
  {
    forall u, b ensures Offers(candidates + [c], signups, boosters, u, b)
                        <==> Offers(candidates, signups, boosters, u, b) || (u == c.userId && CanFill(c, b))
    {
      assert c in candidates + [c];
      assert forall d :: d in candidates + [c] <==> d in candidates || d == c;
    }
  }

  // ---------------------------------------------------------------------
  // Filling
  // ---------------------------------------------------------------------

  /** A draft in progress: a roster whose id sets are tracked. */
  ghost predicate Draft(input: Input, picks: seq<WorkingPick>, signups: set<Id>, boosters: set<Id>) {
    Roster(input, picks) && Tracks(picks, signups, boosters)
  }

  /** New Booster picks plus what is still reachable is the constant `goal`. */
  ghost predicate Filling(input: Input, picks: seq<WorkingPick>, signups: set<Id>, boosters: set<Id>,
                          cap: Capacity, users: Users, reachable: nat, goal: nat)
  {
    && Draft(input, picks, signups, boosters)
    && AreOpenUsers(users, input.candidates, signups, boosters)
    && IsMaxFill(users, cap, reachable)
    && BoostersPicked(picks) + reachable == goal
    && WithinShortage(picks, cap, input.shortage)
  }

  /** Per bucket, the new picks and the still open slots fit the shortage. */
  ghost predicate WithinShortage(picks: seq<WorkingPick>, cap: Capacity, shortage: Capacity) {
    forall b :: CountNew(picks, BoosterSlot(b)) + cap.Of(b) <= shortage.Of(b)
  }

  lemma WithinShortageAfterPick(picks: seq<WorkingPick>, cap: Capacity, shortage: Capacity, p: WorkingPick)
    requires WithinShortage(picks, cap, shortage)
    requires p.NewPick? && p.bucket.BoosterSlot? && cap.Of(p.bucket.slot) > 0
    ensures WithinShortage(picks + [p], cap.Take(p.bucket.slot), shortage)
  {
    forall b ensures CountNew(picks + [p], BoosterSlot(b)) + cap.Take(p.bucket.slot).Of(b) <= shortage.Of(b) {
      assert CountNew(picks, BoosterSlot(b)) + cap.Of(b) <= shortage.Of(b);
      CountNewAppend(picks, p, BoosterSlot(b));
    }
  }

  lemma WithinShortageAfterSkip(picks: seq<WorkingPick>, cap: Capacity, shortage: Capacity, b: BoosterBucket)
    requires WithinShortage(picks, cap, shortage) && cap.Of(b) > 0
    ensures WithinShortage(picks, cap.Take(b), shortage)
  {
    forall d ensures CountNew(picks, BoosterSlot(d)) + cap.Take(b).Of(d) <= shortage.Of(d) {
      assert CountNew(picks, BoosterSlot(d)) + cap.Of(d) <= shortage.Of(d);
    }
  }

  /** `c` may be added to the draft in bucket `b`. */
  predicate Usable(c: Candidate, b: Bucket, signups: set<Id>, boosters: set<Id>) {
    && c.signupId !in signups
    && Fits(c, b)
    && (b.BoosterSlot? ==> c.userId !in boosters)
  }

  function Added(boosters: set<Id>, c: Candidate): set<Id> {
    if c.participation == BOOSTER then boosters + {c.userId} else boosters
  }

  lemma DraftExtends(input: Input, picks: seq<WorkingPick>, signups: set<Id>, boosters: set<Id>, p: WorkingPick)
    requires Draft(input, picks, signups, boosters)
    requires NewPickOk(input, p) && Usable(p.candidate, p.bucket, signups, boosters)
    ensures Draft(input, picks + [p], signups + {p.candidate.signupId}, Added(boosters, p.candidate))
  {
    var picks' := picks + [p];
    var n := |LockedPicks(input.locked)|;
    assert picks'[..n] == picks[..n];
    forall i | 0 <= i < |picks| ensures Compatible(picks[i], p) {
      assert HasSignup(picks, picks[i].Signup());
      assert picks[i].IsBooster() ==> HasBooster(picks, picks[i].User());
    }
    assert Roster(input, picks');
    assert forall i :: 0 <= i < |picks| ==> picks'[i] == picks[i];
    forall s ensures s in signups + {p.candidate.signupId} <==> HasSignup(picks', s) {
      if HasSignup(picks, s) {
        var i :| 0 <= i < |picks| && picks[i].Signup() == s;
        assert picks'[i].Signup() == s;
      }
      assert picks'[|picks|].Signup() == p.candidate.signupId;
    }
    forall u ensures u in Added(boosters, p.candidate) <==> HasBooster(picks', u) {
      if HasBooster(picks, u) {
        var i :| 0 <= i < |picks| && picks[i].IsBooster() && picks[i].User() == u;
        assert picks'[i].User() == u;
      }
      assert picks'[|picks|].User() == p.candidate.userId;
    }
  }

  /** Choosing `c` takes its User, and only that User, out of the open Users. */
  lemma OpenUsersAfterPick(input: Input, users: Users, signups: set<Id>, boosters: set<Id>, c: Candidate)
    requires input.Valid() && c in input.candidates && c.participation == BOOSTER
    requires AreOpenUsers(users, input.candidates, signups, boosters)
    ensures AreOpenUsers(users - {c.userId}, input.candidates, signups + {c.signupId}, boosters + {c.userId})
  {
    var users', signups', boosters' := users - {c.userId}, signups + {c.signupId}, boosters + {c.userId};
    forall u, b
      ensures Offers(input.candidates, signups', boosters', u, b)
              <==> u != c.userId && Offers(input.candidates, signups, boosters, u, b)
    {
      if u != c.userId && Offers(input.candidates, signups, boosters, u, b) {
        var d :| d in input.candidates && OpenCandidate(d, signups, boosters) && d.userId == u && CanFill(d, b);
        assert d.signupId != c.signupId by { SignupIdentifies(input, c, d); }
        assert OpenCandidate(d, signups', boosters');
      }
    }
  }

  lemma SignupIdentifies(input: Input, c: Candidate, d: Candidate)
    requires input.Valid() && c in input.candidates && d in input.candidates && c != d
    ensures c.signupId != d.signupId
  {
    var i :| 0 <= i < |input.candidates| && input.candidates[i] == c;
    var j :| 0 <= j < |input.candidates| && input.candidates[j] == d;
    assert i < j || j < i;
  }

  /** Taking a Booster pick that keeps the maximum reachable. */
  lemma FillingPicks(input: Input, picks: seq<WorkingPick>, signups: set<Id>, boosters: set<Id>,
                     cap: Capacity, users: Users, reachable: nat, goal: nat, p: WorkingPick)
    requires input.Valid() && Filling(input, picks, signups, boosters, cap, users, reachable, goal)
    requires NewPickOk(input, p) && p.bucket.BoosterSlot? && Usable(p.candidate, p.bucket, signups, boosters)
    requires cap.Of(p.bucket.slot) > 0 && Keeps(users, cap, reachable, p.candidate.userId, p.bucket.slot)
    ensures Filling(input, picks + [p], signups + {p.candidate.signupId}, Added(boosters, p.candidate),
                    cap.Take(p.bucket.slot), users - {p.candidate.userId}, reachable - 1, goal)
  {
    DraftExtends(input, picks, signups, boosters, p);
    OpenUsersAfterPick(input, users, signups, boosters, p.candidate);
    BoostersPickedAppend(picks, p);
    WithinShortageAfterPick(picks, cap, input.shortage, p);
  }

  lemma BoostersPickedAppend(picks: seq<WorkingPick>, p: WorkingPick)
    requires p.NewPick?
    ensures BoostersPicked(picks + [p]) == BoostersPicked(picks) + if p.bucket.BoosterSlot? then 1 else 0
  {
    CountNewAppend(picks, p, BoosterSlot(TANKS));
    CountNewAppend(picks, p, BoosterSlot(HEALERS));
    CountNewAppend(picks, p, BoosterSlot(DPS));
    if p.bucket.BoosterSlot? {
      match p.bucket.slot {
        case TANKS =>
        case HEALERS =>
        case DPS =>
      }
    }
  }

  /** Leaving a slot open when no usable candidate keeps the maximum reachable. */
  lemma FillingSkips(input: Input, picks: seq<WorkingPick>, signups: set<Id>, boosters: set<Id>,
                     cap: Capacity, users: Users, reachable: nat, goal: nat, b: BoosterBucket)
    requires Filling(input, picks, signups, boosters, cap, users, reachable, goal)
    requires cap.Of(b) > 0
    requires forall c :: c in input.candidates && Usable(c, BoosterSlot(b), signups, boosters)
                         ==> !Keeps(users, cap, reachable, c.userId, b)
    ensures Filling(input, picks, signups, boosters, cap.Take(b), users, reachable, goal)
  {
    forall u | u in users && b in users[u] ensures !Keeps(users, cap, reachable, u, b) {
      assert Offers(input.candidates, signups, boosters, u, b);
      var c :| c in input.candidates && OpenCandidate(c, signups, boosters) && c.userId == u && CanFill(c, b);
      assert Usable(c, BoosterSlot(b), signups, boosters);
    }
    SlotUnused(users, cap, reachable, b);
    WithinShortageAfterSkip(picks, cap, input.shortage, b);
  }

  lemma OpenUsersAfterLootbuddy(input: Input, users: Users, signups: set<Id>, boosters: set<Id>, c: Candidate)
    requires input.Valid() && c in input.candidates && c.participation == LOOTBUDDY
    requires AreOpenUsers(users, input.candidates, signups, boosters)
    ensures AreOpenUsers(users, input.candidates, signups + {c.signupId}, boosters)
  {
    var signups' := signups + {c.signupId};
    forall u, b
      ensures Offers(input.candidates, signups', boosters, u, b) <==> Offers(input.candidates, signups, boosters, u, b)
    {
      if Offers(input.candidates, signups, boosters, u, b) {
        var d :| d in input.candidates && OpenCandidate(d, signups, boosters) && d.userId == u && CanFill(d, b);
        assert d.signupId != c.signupId by { SignupIdentifies(input, c, d); }
        assert OpenCandidate(d, signups', boosters);
      }
    }
  }

  lemma WithinShortageAfterLootbuddy(picks: seq<WorkingPick>, cap: Capacity, shortage: Capacity, p: WorkingPick)
    requires WithinShortage(picks, cap, shortage) && p.bucket.LootbuddySlot?
    ensures WithinShortage(picks + [p], cap, shortage)
  {
    forall b ensures CountNew(picks + [p], BoosterSlot(b)) + cap.Of(b) <= shortage.Of(b) {
      assert CountNew(picks, BoosterSlot(b)) + cap.Of(b) <= shortage.Of(b);
      CountNewAppend(picks, p, BoosterSlot(b));
    }
  }

  /** A Lootbuddy pick does not touch the Booster bookkeeping. */
  lemma FillingLootbuddy(input: Input, picks: seq<WorkingPick>, signups: set<Id>, boosters: set<Id>,
                         cap: Capacity, users: Users, reachable: nat, goal: nat, p: WorkingPick)
    requires input.Valid() && Filling(input, picks, signups, boosters, cap, users, reachable, goal)
    requires NewPickOk(input, p) && p.bucket.LootbuddySlot? && Usable(p.candidate, p.bucket, signups, boosters)
    ensures Filling(input, picks + [p], signups + {p.candidate.signupId}, boosters, cap, users, reachable, goal)
  {
    DraftExtends(input, picks, signups, boosters, p);
    OpenUsersAfterLootbuddy(input, users, signups, boosters, p.candidate);
    BoostersPickedAppend(picks, p);
    WithinShortageAfterLootbuddy(picks, cap, input.shortage, p);
  }

  // ---------------------------------------------------------------------
  // Swapping
  // ---------------------------------------------------------------------

  /** The swap loop considers `c` as a replacement of pick `i`. */
  predicate Swappable(picks: seq<WorkingPick>, signups: set<Id>, boosters: set<Id>, i: nat, c: Candidate)
    requires i < |picks|
  {
    && c.signupId !in signups
    && Fits(c, picks[i].bucket)
    && (picks[i].bucket.BoosterSlot? ==> c.userId !in boosters || c.userId == picks[i].User())
  }

  function Trial(c: Candidate, b: Bucket): WorkingPick {
    var role := PickRoleForBucket(c, b);
    NewPick(c, role, b, [], WclForRole(c, role), 0.0)
  }

  /** Replacing pick `i` by `c` would raise the soft score by more than the threshold. */
  predicate Improves(input: Input, picks: seq<WorkingPick>, i: nat, c: Candidate)
    requires i < |picks|
  {
    SoftScore(input.catalog, input.externalClasses, picks[i := Trial(c, picks[i].bucket)])
    > SoftScore(input.catalog, input.externalClasses, picks) + SWAP_EPSILON
  }

  /** No single replacement within a bucket raises the soft score any more. */
  ghost predicate LocallyOptimal(input: Input, picks: seq<WorkingPick>, signups: set<Id>, boosters: set<Id>) {
    forall i, c ::
      (0 <= i < |picks| && picks[i].NewPick? && c in input.candidates && Swappable(picks, signups, boosters, i, c))
      ==> !Improves(input, picks, i, c)
  }

  function Without(boosters: set<Id>, c: Candidate): set<Id> {
    if c.participation == BOOSTER then boosters - {c.userId} else boosters
  }

  lemma NewPicksFollowLocked(input: Input, picks: seq<WorkingPick>, i: nat)
    requires Roster(input, picks) && i < |picks| && picks[i].NewPick?
    ensures i >= |LockedPicks(input.locked)|
  {
    var locked := LockedPicks(input.locked);
    assert forall k :: 0 <= k < |locked| ==> picks[..|locked|][k] == locked[k] && locked[k].LockedPick?;
  }

  lemma SwappedRoster(input: Input, picks: seq<WorkingPick>, signups: set<Id>, boosters: set<Id>, i: nat, p: WorkingPick)
    requires Draft(input, picks, signups, boosters)
    requires i < |picks| && picks[i].NewPick? && NewPickOk(input, p) && p.bucket == picks[i].bucket
    requires Swappable(picks, signups, boosters, i, p.candidate)
    ensures Roster(input, picks[i := p])
  {
    var n := |LockedPicks(input.locked)|;
    NewPicksFollowLocked(input, picks, i);
    var picks' := picks[i := p];
    assert picks'[..n] == picks[..n];
    forall j | 0 <= j < |picks| && j != i ensures Compatible(picks[j], p) && Compatible(p, picks[j]) {
      assert HasSignup(picks, picks[j].Signup());
      if picks[j].IsBooster() && p.IsBooster() {
        assert HasBooster(picks, picks[j].User());
        assert Compatible(picks[if i < j then i else j], picks[if i < j then j else i]);
      }
    }
  }

  lemma SwappedSignups(picks: seq<WorkingPick>, signups: set<Id>, i: nat, p: WorkingPick)
    requires forall s :: s in signups <==> HasSignup(picks, s)
    requires i < |picks|
    requires forall j :: 0 <= j < |picks| && j != i ==> picks[j].Signup() != picks[i].Signup()
    ensures forall s :: s in signups - {picks[i].Signup()} + {p.Signup()} <==> HasSignup(picks[i := p], s)
  {
    var picks' := picks[i := p];
    forall s ensures s in signups - {picks[i].Signup()} + {p.Signup()} <==> HasSignup(picks', s) {
      if s in signups && s != picks[i].Signup() {
        var j :| 0 <= j < |picks| && picks[j].Signup() == s;
        assert picks'[j].Signup() == s;
      }
      if HasSignup(picks', s) && s != p.Signup() {
        var j :| 0 <= j < |picks| && picks'[j].Signup() == s;
        assert picks[j].Signup() == s;
      }
      assert picks'[i].Signup() == p.Signup();
    }
  }

  lemma SwappedBoosters(picks: seq<WorkingPick>, boosters: set<Id>, i: nat, p: WorkingPick)
    requires forall u :: u in boosters <==> HasBooster(picks, u)
    requires i < |picks| && picks[i].NewPick? && p.NewPick? && p.IsBooster() == picks[i].IsBooster()
    requires forall j :: 0 <= j < |picks| && j != i && picks[j].IsBooster() && picks[i].IsBooster() ==>
               picks[j].User() != picks[i].User()
    ensures forall u :: u in Added(Without(boosters, picks[i].candidate), p.candidate) <==> HasBooster(picks[i := p], u)
  {
    var picks' := picks[i := p];
    forall u ensures u in Added(Without(boosters, picks[i].candidate), p.candidate) <==> HasBooster(picks', u) {
      if u in Without(boosters, picks[i].candidate) {
        var j :| 0 <= j < |picks| && picks[j].IsBooster() && picks[j].User() == u;
        assert picks'[j].IsBooster() && picks'[j].User() == u;
      }
      if HasBooster(picks', u) {
        var j :| 0 <= j < |picks| && picks'[j].IsBooster() && picks'[j].User() == u;
        assert j != i ==> picks[j].IsBooster() && picks[j].User() == u;
      }
      assert picks'[i].User() == p.candidate.userId;
    }
  }

  /** A swap keeps the draft a draft. */
  lemma SwappedDraft(input: Input, picks: seq<WorkingPick>, signups: set<Id>, boosters: set<Id>, i: nat, p: WorkingPick)
    requires Draft(input, picks, signups, boosters)
    requires i < |picks| && picks[i].NewPick? && NewPickOk(input, p) && p.bucket == picks[i].bucket
    requires Swappable(picks, signups, boosters, i, p.candidate)
    ensures Draft(input, picks[i := p], signups - {picks[i].Signup()} + {p.Signup()},
                  Added(Without(boosters, picks[i].candidate), p.candidate))
  {
    SwappedRoster(input, picks, signups, boosters, i, p);
    NewPicksFollowLocked(input, picks, i);
    forall j | 0 <= j < |picks| && j != i ensures Compatible(picks[j], picks[i]) {
      assert Compatible(picks[if i < j then i else j], picks[if i < j then j else i]);
    }
    SwappedSignups(picks, signups, i, p);
    SwappedBoosters(picks, boosters, i, p);
  }

  // ---------------------------------------------------------------------
  // The soft score of a swap, and a ceiling for it
  // ---------------------------------------------------------------------

  lemma {:induction false} PickScoresReplace(picks: seq<WorkingPick>, i: nat, p: WorkingPick)
    requires i < |picks|
    ensures PickScores(picks[i := p]) == PickScores(picks) - PickScore(picks[i]) + PickScore(p)
  {
    if i == 0 {
      assert picks[i := p][1..] == picks[1..];
    } else {
      assert picks[i := p][1..] == picks[1..][i - 1 := p];
      PickScoresReplace(picks[1..], i - 1, p);
    }
  }

  /** The utilities and debug score recorded after a swap do not influence the soft score. */
  lemma RecordedPickScoresAsTrial(input: Input, picks: seq<WorkingPick>, i: nat, p: WorkingPick)
    requires i < |picks| && NewPickOk(input, p) && p.bucket == picks[i].bucket
    ensures SoftScore(input.catalog, input.externalClasses, picks[i := p])
            == SoftScore(input.catalog, input.externalClasses, picks[i := Trial(p.candidate, p.bucket)])
  {
    var t := Trial(p.candidate, p.bucket);
    PickScoresReplace(picks, i, p);
    PickScoresReplace(picks, i, t);
    SameClasses(picks, i, p, t, input.externalClasses);
  }

  lemma SameClasses(picks: seq<WorkingPick>, i: nat, p: WorkingPick, q: WorkingPick, external: seq<Id>)
    requires i < |picks| && p.WowClass() == q.WowClass()
    ensures ClassesOf(picks[i := p], external) == ClassesOf(picks[i := q], external)
  {
    ClassesWithin(picks, i, p, q, external);
    ClassesWithin(picks, i, q, p, external);
  }

  lemma ClassesWithin(picks: seq<WorkingPick>, i: nat, p: WorkingPick, q: WorkingPick, external: seq<Id>)
    requires i < |picks| && p.WowClass() == q.WowClass()
    ensures ClassesOf(picks[i := p], external) <= ClassesOf(picks[i := q], external)
  {
    var ps, qs := picks[i := p], picks[i := q];
    forall c | c in ClassesOf(ps, external) ensures c in ClassesOf(qs, external) {
      if c !in external {
        var pick :| pick in ps && pick.WowClass().Some? && pick.WowClass().value == c;
        var j :| 0 <= j < |ps| && ps[j] == pick;
        assert qs[j] in qs && qs[j].WowClass() == pick.WowClass();
      }
    }
  }

  ghost function Times(n: nat, x: real): real {
    if n == 0 then 0.0 else x + Times(n - 1, x)
  }

  /** No roster over the same locked rows and with the same number of picks scores more. */
  ghost function ScoreCeiling(input: Input, size: nat): real
    requires |LockedPicks(input.locked)| <= size
  {
    UTILITY_FIRST_WEIGHT * |input.catalog| as real
    + PickScores(LockedPicks(input.locked))
    + Times(size - |LockedPicks(input.locked)|, BestIndividual(input.candidates))
  }

  lemma {:induction false} PickScoresConcat(s: seq<WorkingPick>, t: seq<WorkingPick>)
    ensures PickScores(s + t) == PickScores(s) + PickScores(t)
  {
    if s == [] {
      assert s + t == t;
    } else {
      assert (s + t)[1..] == s[1..] + t;
      PickScoresConcat(s[1..], t);
    }
  }

  lemma NewPickScoreBounded(input: Input, p: WorkingPick)
    requires NewPickOk(input, p)
    ensures PickScore(p) <= BestIndividual(input.candidates)
  {
    IndividualBounded(input.candidates, p.candidate, p.bucket);
    assert PickScore(p) == IndividualScore(p.candidate, p.role);
  }

  lemma {:induction false} PickScoresBounded(picks: seq<WorkingPick>, best: real)
    requires forall p :: p in picks ==> PickScore(p) <= best
    ensures PickScores(picks) <= Times(|picks|, best)
  {
    if picks != [] {
      assert picks[0] in picks;
      PickScoresBounded(picks[1..], best);
    }
  }

  lemma ScoreBounded(input: Input, picks: seq<WorkingPick>)
    requires Roster(input, picks)
    ensures SoftScore(input.catalog, input.externalClasses, picks) <= ScoreCeiling(input, |picks|)
  {
    hide Roster, PickScores, CoveredBuffs, BestIndividual, LockedPicks, Times, ClassesOf;
    NewPicksBounded(input, picks);
    CoverageBounded(input, picks);
  }

  lemma NewPicksBounded(input: Input, picks: seq<WorkingPick>)
    requires Roster(input, picks)
    ensures var locked := LockedPicks(input.locked);
            PickScores(picks) <= PickScores(locked) + Times(|picks| - |locked|, BestIndividual(input.candidates))
  {
    hide PickScore, PickScores, BestIndividual, Times, Compatible;
    var n := |LockedPicks(input.locked)|;
    assert picks == picks[..n] + picks[n..];
    PickScoresConcat(picks[..n], picks[n..]);
    forall p | p in picks[n..] ensures PickScore(p) <= BestIndividual(input.candidates) {
      var i :| n <= i < |picks| && picks[i] == p;
      NewPickScoreBounded(input, picks[i]);
    }
    PickScoresBounded(picks[n..], BestIndividual(input.candidates));
  }

  lemma CoverageBounded(input: Input, picks: seq<WorkingPick>)
    ensures |CoveredBuffs(input.catalog, ClassesOf(picks, input.externalClasses))| <= |input.catalog|
  {
    var classes := ClassesOf(picks, input.externalClasses);
    CoveredWithin(input.catalog, classes);
    SubsetSize(CoveredBuffs(input.catalog, classes), CatalogIds(input.catalog));
  }
}
