/**
 * The settle loop around the planner
 * (`reconcileWeekSectionPositionsUntilSettled`): what its result says about the
 * channels, and that polling stops writing.
 */
module SectionPolling {
  import opened Prelude
  import opened SectionOrder
  import opened SectionPermutation
  import opened SectionSettled

  /**
   * What Discord does during one attempt: the listing planned from, whether
   * the write fails, whether the out-of-band refresh is due, and the fresh listing.
   */
  datatype Tick = Tick(listing: Option<seq<Child>>, failed: bool, due: bool, reread: Option<seq<Child>>)

  datatype Step = Refused | Kept | Wrote(order: seq<Chan>, moved: nat) {
    function Moved(): nat {
      if Wrote? then moved else 0
    }
    /** The attempts that wrote, given that this one is attempt `i`. */
    function Writes(i: nat): seq<nat> {
      if Wrote? then [i] else []
    }
  }

  /** The outcome, with the attempts that wrote and the listing a verified outcome rests on. */
  datatype Outcome = Outcome(skipped: bool, verified: bool, moved: nat, attempts: nat,
                             writes: seq<nat>, seen: Option<seq<Child>>)

  /** One pass of `reconcileWeekSectionPositions`. */
  function Reconciled(tick: Tick, env: Env, items: seq<Item>): Step {
    if tick.listing.None? then Refused
    else
      var plan := PlanOf(tick.listing.value, env, items);
      if plan.Skipped? then Refused
      else if plan.InOrder() then Kept
      else if tick.failed then Refused
      else Wrote(plan.order, ChangedCount(plan))
  }

  /** What one attempt decides; `Again` leads to the next attempt. */
  datatype Verdict = Skip | Verified(seen: seq<Child>) | Again

  function Judged(tick: Tick, step: Step, env: Env, items: seq<Item>): Verdict {
    if step.Refused? || tick.listing.None? then Skip
    else if step.Moved() == 0 && !tick.due then Verified(tick.listing.value)
    else if tick.reread.None? then Again
    else
      var plan := PlanOf(tick.reread.value, env, items);
      if plan.Skipped? then Skip
      else if plan.InOrder() then Verified(tick.reread.value)
      else Again
  }

  function Settle(ticks: seq<Tick>, i: nat, moved: nat, writes: seq<nat>, env: Env, items: seq<Item>): Outcome
    decreases |ticks| - i
  {
    if i >= |ticks| then Outcome(false, false, moved, |ticks|, writes, None)
    else
      var step := Reconciled(ticks[i], env, items);
      var m, w := moved + step.Moved(), writes + step.Writes(i);
      match Judged(ticks[i], step, env, items)
      case Skip => Outcome(true, false, m, i + 1, w, None)
      case Verified(seen) => Outcome(false, true, m, i + 1, w, Some(seen))
      case Again => Settle(ticks, i + 1, m, w, env, items)
  }

  method Judge(tick: Tick, step: Step, env: Env, items: seq<Item>) returns (v: Verdict)
    ensures v == Judged(tick, step, env, items)
  {
    if step.Refused? || tick.listing.None? {
      return Skip;
    }
    if step.Moved() == 0 && !tick.due {
      return Verified(tick.listing.value);
    }
    if tick.reread.None? {
      return Again;
    }
    var plan := PlanWeekSectionOrder(tick.reread.value, env, items);
    v := if plan.Skipped? then Skip else if plan.InOrder() then Verified(tick.reread.value) else Again;
  }

  method ReconcileUntilSettled(ticks: seq<Tick>, env: Env, items: seq<Item>) returns (r: Outcome)
    ensures r == Settle(ticks, 0, 0, [], env, items)
  {
    hide Judged, Reconciled;
    var moved: nat, writes: seq<nat> := 0, [];
    for i := 0 to |ticks|
      invariant Settle(ticks, i, moved, writes, env, items) == Settle(ticks, 0, 0, [], env, items)
    {
      var step := Reconciled(ticks[i], env, items);
      moved, writes := moved + step.Moved(), writes + step.Writes(i);
      var v := Judge(ticks[i], step, env, items);
      match v
      case Skip =>
        return Outcome(true, false, moved, i + 1, writes, None);
      case Verified(seen) =>
        return Outcome(false, true, moved, i + 1, writes, Some(seen));
      case Again =>
    }
    r := Outcome(false, false, moved, |ticks|, writes, None);
  }

  // ---------------------------------------------------------------------
  // What "moved nothing" means
  // ---------------------------------------------------------------------

  lemma {:induction false} NoDifferences(order: seq<Chan>, live: seq<Chan>, i: nat)
    requires i <= |order|
    ensures Differences(order, live, i) == 0 <==>
            |order| <= Max(i, |live|) && forall j :: i <= j < |order| ==> order[j] == live[j]
    decreases |order| - i
  {
    if i < |order| {
      NoDifferences(order, live, i + 1);
    }
  }

  /** `moved` is zero exactly when the planned order is a prefix of the live one. */
  lemma MovedNothingIffPrefix(plan: Plan)
    requires plan.Planned?
    ensures ChangedCount(plan) == 0 <==> plan.order <= plan.live
  {
    NoDifferences(plan.order, plan.live, 0);
    if |plan.order| <= |plan.live| && forall j :: 0 <= j < |plan.order| ==> plan.order[j] == plan.live[j] {
      assert plan.order == plan.live[..|plan.order|];
    }
  }

  /** Of a permutation, `moved` is zero exactly when everything is in order. */
  lemma MovedNothingIffInOrder(plan: Plan)
    requires plan.Planned? && |plan.order| == |plan.live|
    ensures ChangedCount(plan) == 0 <==> plan.InOrder()
  {
    MovedNothingIffPrefix(plan);
    if plan.order <= plan.live {
      assert plan.order == plan.live[..|plan.order|] == plan.live;
    }
  }

  /** The listing is planned with a clean layout, if it is planned at all. */
  ghost predicate CleanListing(children: seq<Child>, env: Env, items: seq<Item>) {
    var text := TextChildren(children);
    && DistinctIds(text)
    && var l := LayoutOf(text, env, items);
       l.Some? ==> Clean(l.value, text, items)
  }

  lemma CleanPlanPermutes(children: seq<Child>, env: Env, items: seq<Item>)
    requires CleanListing(children, env, items)
    ensures var plan := PlanOf(children, env, items);
            plan.Planned? ==> multiset(plan.order) == multiset(plan.live) && |plan.order| == |plan.live|
  {
    var text := TextChildren(children);
    if LayoutOf(text, env, items).Some? {
      LayoutFound(text, env, items);
      CleanPermutes(LayoutOf(text, env, items).value, text, items);
      var plan := PlanOf(children, env, items);
      assert |multiset(plan.order)| == |multiset(plan.live)|;
    }
  }

  // ---------------------------------------------------------------------
  // What the result says
  // ---------------------------------------------------------------------

  /** The listing a verdict rests on: planned, with its plan in order or a proper prefix of the live order. */
  ghost predicate Rests(seen: seq<Child>, env: Env, items: seq<Item>) {
    var plan := PlanOf(seen, env, items);
    plan.Planned? && plan.order <= plan.live
  }

  lemma VerdictRests(tick: Tick, env: Env, items: seq<Item>)
    ensures var step := Reconciled(tick, env, items);
            var v := Judged(tick, step, env, items);
            && (v.Verified? ==> Rests(v.seen, env, items) && (tick.listing == Some(v.seen) || tick.reread == Some(v.seen)))
            && |step.Writes(0)| <= 1
  {
    hide PlanOf, ChangedCount;
    if tick.listing.Some? && PlanOf(tick.listing.value, env, items).Planned? {
      MovedNothingIffPrefix(PlanOf(tick.listing.value, env, items));
    }
  }

  ghost predicate WasListed(ticks: seq<Tick>, seen: Option<seq<Child>>) {
    exists t :: t in ticks && (seen == t.listing || seen == t.reread)
  }

  /** A verified outcome rests on a listing that was read; without one every attempt was spent. */
  ghost predicate Sound(r: Outcome, ticks: seq<Tick>, env: Env, items: seq<Item>) {
    && (r.verified ==> r.seen.Some? && Rests(r.seen.value, env, items) && WasListed(ticks, r.seen))
    && (!r.skipped && !r.verified ==> r.attempts == |ticks|)
    && r.attempts <= |ticks|
  }

  lemma {:induction false} VerifiedRestsOnListing(ticks: seq<Tick>, i: nat, moved: nat, writes: seq<nat>,
                                                  env: Env, items: seq<Item>)
    requires i <= |ticks|
    ensures Sound(Settle(ticks, i, moved, writes, env, items), ticks, env, items)
    decreases |ticks| - i
  {
    hide Judged, Reconciled, Rests;
    if i < |ticks| {
      var step := Reconciled(ticks[i], env, items);
      VerdictRests(ticks[i], env, items);
      assert ticks[i] in ticks;
      VerifiedRestsOnListing(ticks, i + 1, moved + step.Moved(), writes + step.Writes(i), env, items);
    }
  }

  /** Each attempt writes at most once. */
  lemma {:induction false} WritesBounded(ticks: seq<Tick>, i: nat, moved: nat, writes: seq<nat>,
                                         env: Env, items: seq<Item>)
    requires i <= |ticks|
    ensures var r := Settle(ticks, i, moved, writes, env, items);
            i <= r.attempts <= |ticks| && writes <= r.writes && |r.writes| <= |writes| + (r.attempts - i)
    decreases |ticks| - i
  {
    hide Judged, Reconciled, Rests;
    if i < |ticks| {
      var step := Reconciled(ticks[i], env, items);
      WritesBounded(ticks, i + 1, moved + step.Moved(), writes + step.Writes(i), env, items);
    }
  }

  // ---------------------------------------------------------------------
  // When an attempt decides
  // ---------------------------------------------------------------------

  /** A listing was read, and it can be planned. */
  ghost predicate Plannable(listing: Option<seq<Child>>, env: Env, items: seq<Item>) {
    listing.Some? && PlanOf(listing.value, env, items).Planned?
  }

  ghost predicate ListedInOrder(listing: Option<seq<Child>>, env: Env, items: seq<Item>) {
    Plannable(listing, env, items) && PlanOf(listing.value, env, items).order == PlanOf(listing.value, env, items).live
  }

  /** The attempt's pass goes through: nothing to plan is missing, and a write it needs is accepted. */
  ghost predicate PassWorks(tick: Tick, env: Env, items: seq<Item>) {
    Plannable(tick.listing, env, items) && (ListedInOrder(tick.listing, env, items) || !tick.failed)
  }

  /** The attempt looks at the channels again: something moved, or the out-of-band refresh is due. */
  ghost predicate LooksAgain(tick: Tick, env: Env, items: seq<Item>) {
    PassWorks(tick, env, items) && (tick.due || !Rests(tick.listing.value, env, items))
  }

  /** The fresh listing cannot be read, or is out of order: the loop goes on. */
  ghost predicate Undecided(tick: Tick, env: Env, items: seq<Item>) {
    && LooksAgain(tick, env, items)
    && (tick.reread.Some? ==> Plannable(tick.reread, env, items) && !ListedInOrder(tick.reread, env, items))
  }

  ghost predicate Unplannable(tick: Tick, env: Env, items: seq<Item>) {
    || !PassWorks(tick, env, items)
    || (LooksAgain(tick, env, items) && tick.reread.Some? && !Plannable(tick.reread, env, items))
  }

  lemma VerdictMeans(tick: Tick, env: Env, items: seq<Item>)
    ensures var v := Judged(tick, Reconciled(tick, env, items), env, items);
            && (v.Again? <==> Undecided(tick, env, items))
            && (v.Skip? <==> Unplannable(tick, env, items))
    ensures Reconciled(tick, env, items).Wrote? <==>
            PassWorks(tick, env, items) && !ListedInOrder(tick.listing, env, items)
  {
    hide PlanOf, ChangedCount;
    if tick.listing.Some? && PlanOf(tick.listing.value, env, items).Planned? {
      MovedNothingIffPrefix(PlanOf(tick.listing.value, env, items));
    }
  }

  /** Attempt `j` is made and writes: its listing is planned, out of order, and the write is accepted. */
  ghost predicate WritesAt(ticks: seq<Tick>, j: nat, env: Env, items: seq<Item>) {
    j < |ticks| && PassWorks(ticks[j], env, items) && !ListedInOrder(ticks[j].listing, env, items)
  }

  /** What the loop returns when attempt `k` is the first to decide, or none does. */
  ghost predicate EndsAt(r: Outcome, ticks: seq<Tick>, k: nat, env: Env, items: seq<Item>) {
    if k >= |ticks| then !r.skipped && !r.verified && r.attempts == |ticks|
    else r.attempts == k + 1 && r.skipped == Unplannable(ticks[k], env, items) && r.verified == !r.skipped
  }

  /**
   * The loop goes on exactly over the attempts that cannot tell, ends with the
   * first that can, and writes in each attempt whose listing was out of order.
   */
  lemma {:induction false} FirstDecides(ticks: seq<Tick>, i: nat, moved: nat, writes: seq<nat>, env: Env, items: seq<Item>)
    returns (k: nat)
    requires i <= |ticks|
    ensures i <= k <= |ticks| && (k < |ticks| ==> !Undecided(ticks[k], env, items))
    ensures forall j :: i <= j < k ==> Undecided(ticks[j], env, items)
    ensures EndsAt(Settle(ticks, i, moved, writes, env, items), ticks, k, env, items)
    ensures forall j :: j in Settle(ticks, i, moved, writes, env, items).writes <==>
                          j in writes || (i <= j <= k && WritesAt(ticks, j, env, items))
    decreases |ticks| - i
  {
    hide Judged, Reconciled, Rests, Unplannable, Undecided, PassWorks, ListedInOrder;
    if i == |ticks| {
      return i;
    }
    VerdictMeans(ticks[i], env, items);
    if Judged(ticks[i], Reconciled(ticks[i], env, items), env, items) == Again {
      var step := Reconciled(ticks[i], env, items);
      k := FirstDecides(ticks, i + 1, moved + step.Moved(), writes + step.Writes(i), env, items);
    } else {
      k := i;
    }
  }

  ghost predicate CleanTicks(ticks: seq<Tick>, env: Env, items: seq<Item>) {
    forall t :: t in ticks ==>
      && (t.listing.Some? ==> CleanListing(t.listing.value, env, items))
      && (t.reread.Some? ==> CleanListing(t.reread.value, env, items))
  }

  /** On clean listings a verified outcome means the channels listed were in order. */
  lemma VerifiedMeansInOrder(ticks: seq<Tick>, env: Env, items: seq<Item>)
    requires CleanTicks(ticks, env, items)
    ensures var r := Settle(ticks, 0, 0, [], env, items);
            r.verified ==> r.seen.Some? && PlanOf(r.seen.value, env, items).InOrder()
  {
    var r := Settle(ticks, 0, 0, [], env, items);
    VerifiedRestsOnListing(ticks, 0, 0, [], env, items);
    if r.verified {
      CleanPlanPermutes(r.seen.value, env, items);
      MovedNothingIffPrefix(PlanOf(r.seen.value, env, items));
      MovedNothingIffInOrder(PlanOf(r.seen.value, env, items));
    }
  }

  /**
   * A poll of clean channels whose write succeeds and is applied faithfully
   * settles in one attempt, with a write only if the order was wrong.
   */
  lemma OnePollSettles(ticks: seq<Tick>, children: seq<Child>, after: seq<Child>, env: Env, items: seq<Item>)
    requires |ticks| > 0 && ticks[0].listing == Some(children) && !ticks[0].failed && ticks[0].reread == Some(after)
    requires CleanListing(children, env, items) && PlanOf(children, env, items).Planned?
    requires if PlanOf(children, env, items).InOrder() then after == children
             else Applied(TextChildren(children), TextChildren(after), PlanOf(children, env, items).order)
    ensures var r, plan := Settle(ticks, 0, 0, [], env, items), PlanOf(children, env, items);
            && r.verified && r.attempts == 1
            && r.writes == (if plan.InOrder() then [] else [0])
            && (r.moved == 0 <==> plan.InOrder())
            && PlanOf(after, env, items).InOrder()
  {
    var plan := PlanOf(children, env, items);
    CleanPlanPermutes(children, env, items);
    MovedNothingIffInOrder(plan);
    if !plan.InOrder() {
      SettlingListing(children, after, env, items);
      PlanIsFixpoint(children, after, env, items);
    }
    hide PlanOf, ChangedCount, CleanListing, Applied, Settling;
    FirstAttempt(ticks, children, after, env, items);
  }

  lemma FirstAttempt(ticks: seq<Tick>, children: seq<Child>, after: seq<Child>, env: Env, items: seq<Item>)
    requires |ticks| > 0 && ticks[0].listing == Some(children) && !ticks[0].failed && ticks[0].reread == Some(after)
    requires var plan := PlanOf(children, env, items);
             && plan.Planned? && (ChangedCount(plan) == 0 <==> plan.InOrder())
             && (plan.InOrder() ==> after == children)
    requires PlanOf(after, env, items).InOrder()
    ensures var r, plan := Settle(ticks, 0, 0, [], env, items), PlanOf(children, env, items);
            && r.verified && r.attempts == 1
            && r.writes == (if plan.InOrder() then [] else [0])
            && (r.moved == 0 <==> plan.InOrder())
  {
    hide PlanOf, ChangedCount;
    var plan := PlanOf(children, env, items);
    var step := Reconciled(ticks[0], env, items);
    assert step == if plan.InOrder() then Kept else Wrote(plan.order, ChangedCount(plan));
    assert Judged(ticks[0], step, env, items) == Verified(after);
    hide Reconciled, Judged;
    assert [] + step.Writes(0) == step.Writes(0);
  }

  lemma SettlingListing(children: seq<Child>, after: seq<Child>, env: Env, items: seq<Item>)
    requires CleanListing(children, env, items) && PlanOf(children, env, items).Planned?
    requires Applied(TextChildren(children), TextChildren(after), PlanOf(children, env, items).order)
    ensures Settling(children, after, env, items)
  {
  }

  lemma InOrderKeeps(tick: Tick, env: Env, items: seq<Item>)
    requires tick.listing.Some? ==> PlanOf(tick.listing.value, env, items).InOrder()
    ensures var step := Reconciled(tick, env, items);
            !step.Wrote? && step.Moved() == 0
  {
    hide PlanOf;
  }

  /** While the channels listed are in order, no poll writes, however often it runs. */
  lemma {:induction false} InOrderNeverWrites(ticks: seq<Tick>, i: nat, moved: nat, env: Env, items: seq<Item>)
    requires forall t :: t in ticks ==> t.listing.Some? ==> PlanOf(t.listing.value, env, items).InOrder()
    ensures Settle(ticks, i, moved, [], env, items).writes == []
    ensures Settle(ticks, i, moved, [], env, items).moved == moved
    decreases |ticks| - i
  {
    hide Reconciled, Judged, PlanOf;
    if i < |ticks| {
      assert ticks[i] in ticks;
      InOrderKeeps(ticks[i], env, items);
      assert [] + Reconciled(ticks[i], env, items).Writes(i) == [];
      InOrderNeverWrites(ticks, i + 1, moved, env, items);
    }
  }
}
