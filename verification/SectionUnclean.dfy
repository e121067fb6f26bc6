/**
 * Polling when the planned order is not a permutation of the channels: what
 * each poll then does, and that exactly the clean listings go quiet.
 */
module SectionUnclean {
  import opened Prelude
  import opened Sorting
  import opened SectionOrder
  import opened SectionPermutation
  import opened SectionSettled
  import opened SectionPolling

  // ---------------------------------------------------------------------
  // Only clean listings can be in order
  // ---------------------------------------------------------------------

  /** A poll is free of writes only on a clean listing. */
  lemma InOrderMeansClean(children: seq<Child>, env: Env, items: seq<Item>)
    requires DistinctIds(TextChildren(children)) && PlanOf(children, env, items).InOrder()
    ensures CleanListing(children, env, items)
  {
    var text := TextChildren(children);
    LayoutFound(text, env, items);
    PermutationIffClean(LayoutOf(text, env, items).value, text, items);
    hide FinalOrder, ByPosition, LayoutOf;
  }

  // ---------------------------------------------------------------------
  // Polls that keep seeing the same listing
  // ---------------------------------------------------------------------

  /** Every listing of the poll shows the same channels, and no write fails. */
  ghost predicate Unchanging(ticks: seq<Tick>, children: seq<Child>) {
    forall t :: t in ticks ==>
      t.listing == Some(children) && !t.failed && (t.reread == None || t.reread == Some(children))
  }

  lemma SameStep(tick: Tick, children: seq<Child>, env: Env, items: seq<Item>)
    requires tick.listing == Some(children) && !tick.failed && (tick.reread == None || tick.reread == Some(children))
    requires PlanOf(children, env, items).Planned? && !PlanOf(children, env, items).InOrder()
    ensures var plan := PlanOf(children, env, items);
            var step := Reconciled(tick, env, items);
            && step == Wrote(plan.order, ChangedCount(plan))
            && (step.moved == 0 <==> plan.order < plan.live)
            && Judged(tick, step, env, items)
               == if plan.order < plan.live && !tick.due then Verified(children) else Again
  {
    hide PlanOf, ChangedCount;
    MovedNothingIffPrefix(PlanOf(children, env, items));
  }

  /** From attempt `i` on: the exact outcome while the listing stays as it is, out of order. */
  lemma {:induction false} SameListing(ticks: seq<Tick>, i: nat, moved: nat, writes: seq<nat>, children: seq<Child>,
                                       env: Env, items: seq<Item>)
    requires Unchanging(ticks, children) && i <= |ticks|
    requires PlanOf(children, env, items).Planned? && !PlanOf(children, env, items).InOrder()
    ensures var plan := PlanOf(children, env, items);
            var r := Settle(ticks, i, moved, writes, env, items);
            && !r.skipped
            && (r.verified <==> plan.order < plan.live && exists j :: i <= j < |ticks| && !ticks[j].due)
            && (r.moved == moved <==> plan.order < plan.live || i == |ticks|) && r.moved >= moved
            && writes <= r.writes && (i < |ticks| ==> |writes| < |r.writes| && r.writes[|writes|] == i)
            && (!r.verified ==> |r.writes| == |writes| + (|ticks| - i))
    decreases |ticks| - i
  {
    hide PlanOf, ChangedCount, Reconciled, Judged;
    if i < |ticks| {
      assert ticks[i] in ticks;
      SameStep(ticks[i], children, env, items);
      var step := Reconciled(ticks[i], env, items);
      SameListing(ticks, i + 1, moved + step.Moved(), writes + step.Writes(i), children, env, items);
    }
  }

  /**
   * A listing that is not clean is written by every poll that keeps seeing it,
   * however often it is polled. Such a poll is verified although the channels
   * are out of order if and only if the planned order is a proper prefix of the
   * live one and some attempt does without the out-of-band refresh; then, and
   * only then, can it report that nothing moved.
   */
  lemma UncleanPoll(ticks: seq<Tick>, children: seq<Child>, env: Env, items: seq<Item>)
    requires DistinctIds(TextChildren(children)) && PlanOf(children, env, items).Planned?
    requires !CleanListing(children, env, items)
    requires ticks != [] && Unchanging(ticks, children)
    ensures var plan := PlanOf(children, env, items);
            var r := Settle(ticks, 0, 0, [], env, items);
            && !plan.InOrder() && r.writes != []
            && (r.verified <==> plan.order < plan.live && exists j :: 0 <= j < |ticks| && !ticks[j].due)
            && (r.moved == 0 <==> plan.order < plan.live)
            && (!r.verified ==> |r.writes| == |ticks|)
  {
    hide PlanOf, CleanListing;
    if PlanOf(children, env, items).InOrder() {
      InOrderMeansClean(children, env, items);
    }
    SameListing(ticks, 0, 0, [], children, env, items);
  }

  // ---------------------------------------------------------------------
  // When polling goes quiet
  // ---------------------------------------------------------------------

  /**
   * What Discord makes of the planned positions: a complete re-index is applied
   * faithfully, anything else is ignored. Without a write nothing changes.
   */
  ghost predicate Responds(children: seq<Child>, after: seq<Child>, env: Env, items: seq<Item>) {
    var text, plan := TextChildren(children), PlanOf(children, env, items);
    if plan.Planned? && !plan.InOrder() && multiset(plan.order) == multiset(plan.live)
    then Applied(text, TextChildren(after), plan.order)
    else TextChildren(after) == text
  }

  lemma SameTextSamePlan(children: seq<Child>, after: seq<Child>, env: Env, items: seq<Item>)
    requires TextChildren(after) == TextChildren(children)
    ensures PlanOf(after, env, items) == PlanOf(children, env, items)
    ensures CleanListing(after, env, items) == CleanListing(children, env, items)
  {
  }

  lemma PermutesIffCleanListing(children: seq<Child>, env: Env, items: seq<Item>)
    requires DistinctIds(TextChildren(children)) && PlanOf(children, env, items).Planned?
    ensures var plan := PlanOf(children, env, items);
            multiset(plan.order) == multiset(plan.live) <==> CleanListing(children, env, items)
  {
    var text := TextChildren(children);
    LayoutFound(text, env, items);
    PermutationIffClean(LayoutOf(text, env, items).value, text, items);
    hide FinalOrder, ByPosition, LayoutOf;
  }

  /** After one response the channels are in order exactly if the listing was clean. */
  lemma InOrderAfterIffClean(children: seq<Child>, after: seq<Child>, env: Env, items: seq<Item>)
    requires DistinctIds(TextChildren(children)) && PlanOf(children, env, items).Planned?
    requires Responds(children, after, env, items)
    ensures PlanOf(after, env, items).InOrder() <==> CleanListing(children, env, items)
    ensures !CleanListing(children, env, items) ==> TextChildren(after) == TextChildren(children)
  {
    PermutesIffCleanListing(children, env, items);
    var plan := PlanOf(children, env, items);
    if CleanListing(children, env, items) && !plan.InOrder() {
      SettlingListing(children, after, env, items);
      PlanIsFixpoint(children, after, env, items);
    } else {
      SameTextSamePlan(children, after, env, items);
      if plan.InOrder() {
        InOrderMeansClean(children, env, items);
      }
    }
    hide PlanOf, CleanListing, Applied;
  }

  /** Consecutive polls: each listing is what the poll before it left. */
  ghost predicate Polled(listings: seq<seq<Child>>, env: Env, items: seq<Item>) {
    forall i: nat :: i + 1 < |listings| ==> Responds(listings[i], listings[i + 1], env, items)
  }

  /** A listing that is not clean stays as it is. */
  lemma {:induction false} UncleanStays(listings: seq<seq<Child>>, k: nat, env: Env, items: seq<Item>)
    requires Polled(listings, env, items) && k < |listings|
    requires DistinctIds(TextChildren(listings[0])) && PlanOf(listings[0], env, items).Planned?
    requires !CleanListing(listings[0], env, items)
    ensures TextChildren(listings[k]) == TextChildren(listings[0])
  {
    hide PlanOf, CleanListing, Responds;
    if k > 0 {
      UncleanStays(listings, k - 1, env, items);
      SameTextSamePlan(listings[0], listings[k - 1], env, items);
      assert Responds(listings[k - 1], listings[k - 1 + 1], env, items);
      InOrderAfterIffClean(listings[k - 1], listings[k], env, items);
    }
  }

  /** Once in order, the channels stay in order. */
  lemma {:induction false} InOrderStays(listings: seq<seq<Child>>, j: nat, k: nat, env: Env, items: seq<Item>)
    requires Polled(listings, env, items) && j <= k < |listings|
    requires PlanOf(listings[j], env, items).InOrder()
    ensures PlanOf(listings[k], env, items).InOrder()
  {
    hide PlanOf;
    if j < k {
      InOrderStays(listings, j, k - 1, env, items);
      assert Responds(listings[k - 1], listings[k - 1 + 1], env, items);
      SameTextSamePlan(listings[k - 1], listings[k], env, items);
    }
  }

  /**
   * Polling goes quiet exactly from a clean listing: then every poll after the
   * first finds the channels in order, and otherwise none ever does.
   */
  lemma QuietIffClean(listings: seq<seq<Child>>, k: nat, env: Env, items: seq<Item>)
    requires Polled(listings, env, items) && 0 < k < |listings|
    requires DistinctIds(TextChildren(listings[0])) && PlanOf(listings[0], env, items).Planned?
    ensures PlanOf(listings[k], env, items).InOrder() <==> CleanListing(listings[0], env, items)
  {
    hide PlanOf, CleanListing, Responds;
    if CleanListing(listings[0], env, items) {
      assert Responds(listings[0], listings[0 + 1], env, items);
      InOrderAfterIffClean(listings[0], listings[1], env, items);
      InOrderStays(listings, 1, k, env, items);
    } else {
      UncleanStays(listings, k, env, items);
      SameTextSamePlan(listings[0], listings[k], env, items);
      if PlanOf(listings[k], env, items).InOrder() {
        InOrderMeansClean(listings[k], env, items);
      }
    }
  }

  // ---------------------------------------------------------------------
  // A witness
  // ---------------------------------------------------------------------

  lemma {:induction false} NoneInZone(l: Layout, ordered: seq<Child>, z: Zone)
    requires forall k :: k in ordered ==> ZoneOf(l, k) != z
    ensures InZone(l, ordered, z) == []
  {
    if ordered != [] {
      NoneInZone(l, ordered[..|ordered| - 1], z);
    }
  }

  const CURRENT_MARKER := Chan(Id(0), None)
  const NEXT_MARKER := Chan(Id(1), None)
  const TIED_CHILDREN :=
    [Child(CURRENT_MARKER, 0, false), Child(NEXT_MARKER, 1, false), Child(Chan(Id(2), None), 1, false)]
  const BOTH_MARKERS := Env(Some(Id(9)), Some(Id(0)), Some(Id(1)))

  lemma TiedPlan()
    ensures PlanOf(TIED_CHILDREN, BOTH_MARKERS, [])
            == Planned([CURRENT_MARKER, NEXT_MARKER], [CURRENT_MARKER, NEXT_MARKER, Chan(Id(2), None)])
  {
    TiedText();
    var l := Layout(TIED_CHILDREN[0], TIED_CHILDREN[1], {});
    TiedOrder(l);
    TiedLive();
    hide LayoutOf, TextChildren, FinalOrder, ByPosition, ChansOf;
  }

  lemma TiedLive()
    ensures ChansOf(ByPosition(TIED_CHILDREN)) == [CURRENT_MARKER, NEXT_MARKER, Chan(Id(2), None)]
  {
    SortedStays(TIED_CHILDREN, PositionLe);
    hide SortBy;
    assert ChansOf(TIED_CHILDREN) == [CURRENT_MARKER, NEXT_MARKER, Chan(Id(2), None)];
  }

  lemma TiedText()
    ensures TextChildren(TIED_CHILDREN) == TIED_CHILDREN
    ensures LayoutOf(TIED_CHILDREN, BOTH_MARKERS, []) == Some(Layout(TIED_CHILDREN[0], TIED_CHILDREN[1], {}))
  {
    var children := TIED_CHILDREN;
    assert children[1..] == [children[1], children[2]] && children[2..] == [children[2]];
    assert TextChildren(children[2..]) == [children[2]];
    assert TextChildren(children[1..]) == children[1..];
    assert FindChild(children, Id(0)) == Some(children[0]) && FindChild(children, Id(1)) == Some(children[1]);
    assert ManagedIds([]) == {};
  }

  lemma NoSection(text: seq<Child>, b: Bucket)
    ensures SortSection(Scheduled([], b), text, []) == []
  {
    assert Scheduled([], b) == [];
  }

  lemma TiedOrder(l: Layout)
    requires l == Layout(TIED_CHILDREN[0], TIED_CHILDREN[1], {})
    ensures FinalOrder(l, TIED_CHILDREN, []) == [CURRENT_MARKER, NEXT_MARKER]
  {
    TiedZones(l);
    NoSection(TIED_CHILDREN, CURRENT);
    NoSection(TIED_CHILDREN, NEXT);
    hide ByPosition, InZone, SortSection, Scheduled;
  }

  lemma TiedZones(l: Layout)
    requires l == Layout(TIED_CHILDREN[0], TIED_CHILDREN[1], {})
    ensures InZone(l, ByPosition(TIED_CHILDREN), BEFORE) == []
    ensures InZone(l, ByPosition(TIED_CHILDREN), BETWEEN) == []
    ensures InZone(l, ByPosition(TIED_CHILDREN), AFTER) == []
  {
    hide SortBy, InZone;
    SortedStays(TIED_CHILDREN, PositionLe);
    assert ZoneOf(l, TIED_CHILDREN[2]) == TIED;
    NoneInZone(l, TIED_CHILDREN, BEFORE);
    NoneInZone(l, TIED_CHILDREN, BETWEEN);
    NoneInZone(l, TIED_CHILDREN, AFTER);
  }

  /**
   * One such listing: a channel level with the next marker and listed after it.
   * It is not clean, and its planned order is a proper prefix of the live one.
   */
  lemma TiedListing()
    ensures DistinctIds(TextChildren(TIED_CHILDREN)) && !CleanListing(TIED_CHILDREN, BOTH_MARKERS, [])
    ensures var plan := PlanOf(TIED_CHILDREN, BOTH_MARKERS, []);
            plan.Planned? && plan.order < plan.live
  {
    hide PlanOf, CleanListing, TextChildren, LayoutOf;
    TiedPlan();
    TiedText();
    TiedIsUnclean();
    var plan := PlanOf(TIED_CHILDREN, BOTH_MARKERS, []);
    assert plan.order == plan.live[..2];
  }

  lemma TiedIsUnclean()
    ensures DistinctIds(TIED_CHILDREN) && !CleanListing(TIED_CHILDREN, BOTH_MARKERS, [])
  {
    hide PlanOf, CleanListing, TextChildren, LayoutOf;
    TiedPlan();
    if CleanListing(TIED_CHILDREN, BOTH_MARKERS, []) {
      CleanPlanPermutes(TIED_CHILDREN, BOTH_MARKERS, []);
      assert false;
    }
  }
}
