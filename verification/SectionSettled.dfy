/**
 * The planner after its own write: once the planned positions are applied,
 * planning again with the same items changes nothing.
 */
module SectionSettled {
  import opened Prelude
  import opened Sorting
  import opened SectionOrder
  import opened SectionPermutation
  import opened SectionFixpoint

  /** The same text channels, each at its index in `order` (`desiredPositions` applied faithfully). */
  ghost predicate Applied(text: seq<Child>, placed: seq<Child>, order: seq<Chan>) {
    && DistinctIds(placed)
    && (forall c :: c in ChansOf(placed) <==> c in ChansOf(text))
    && (forall k :: k in placed ==> 0 <= k.position < |order| && order[k.position] == k.chan && !k.voice)
  }

  function Placed(order: seq<Chan>): (placed: seq<Child>)
    ensures |placed| == |order|
    ensures forall i :: 0 <= i < |order| ==> placed[i] == Child(order[i], i, false)
  {
    seq(|order|, i requires 0 <= i < |order| => Child(order[i], i, false))
  }

  lemma ChanAt(text: seq<Child>, c: Chan) returns (k: Child)
    requires c in ChansOf(text)
    ensures k in text && k.chan == c
  {
    var i :| 0 <= i < |ChansOf(text)| && ChansOf(text)[i] == c;
    k := text[i];
  }

  lemma InChans(text: seq<Child>, k: Child)
    requires k in text
    ensures k.chan in ChansOf(text)
  {
    var i :| 0 <= i < |text| && text[i] == k;
    assert ChansOf(text)[i] == k.chan;
  }

  lemma PositionOrderTotal()
    ensures TotalPreorder(PositionLe)
  {
  }

  lemma PlacedSorted(order: seq<Chan>)
    ensures Sorted(Placed(order), PositionLe) && Distinct(Placed(order))
  {
  }

  /** After the write the live order is the planned order. */
  lemma AppliedIsPlaced(text: seq<Child>, placed: seq<Child>, order: seq<Chan>)
    requires Applied(text, placed, order) && Distinct(order)
    requires forall c :: c in order <==> c in ChansOf(text)
    ensures ByPosition(placed) == Placed(order)
  {
    var target := Placed(order);
    forall k ensures k in placed <==> k in target {
      if k in placed {
        assert target[k.position] == k;
      }
      if k in target {
        var i :| 0 <= i < |target| && target[i] == k;
        var m := ChanAt(placed, order[i]);
        assert m.position == i;
      }
    }
    PlacedSorted(order);
    SameElements(placed, target);
    SortPermutes(placed, PositionLe);
    PositionOrderTotal();
    SortSorts(placed, PositionLe);
    assert forall k :: k in ByPosition(placed) ==> k in target;
    SortedUnique(ByPosition(placed), target, PositionLe);
  }

  // ---------------------------------------------------------------------
  // The managed channels found by id do not change
  // ---------------------------------------------------------------------

  lemma SameById(text: seq<Child>, placed: seq<Child>, order: seq<Chan>, id: Id)
    requires DistinctIds(text) && Applied(text, placed, order)
    ensures ById(placed, id) == ById(text, id)
  {
    var before, after := ById(text, id), ById(placed, id);
    if before.Some? {
      var k :| k in text && k.chan == before.value;
      InChans(text, k);
      var m := ChanAt(placed, k.chan);
      FoundById(placed, m);
    } else if after.Some? {
      var m :| m in placed && m.chan == after.value;
      InChans(placed, m);
      var k := ChanAt(text, m.chan);
      assert false;
    }
  }

  lemma {:induction false} SameManaged(items: seq<Item>, text: seq<Child>, placed: seq<Child>, order: seq<Chan>)
    requires DistinctIds(text) && Applied(text, placed, order)
    ensures ManagedEntries(items, placed) == ManagedEntries(items, text)
  {
    if items != [] {
      var n := |items| - 1;
      SameManaged(items[..n], text, placed, order);
      SameById(text, placed, order, items[n].channelId);
    }
  }

  // ---------------------------------------------------------------------
  // The unmanaged channels each zone holds after the write
  // ---------------------------------------------------------------------

  function Others(chans: seq<Chan>, managed: set<Id>): seq<Chan> {
    if chans == [] then []
    else
      var n := |chans| - 1;
      Others(chans[..n], managed) + if chans[n].id in managed then [] else [chans[n]]
  }

  lemma {:induction false} OthersConcat(s: seq<Chan>, t: seq<Chan>, managed: set<Id>)
    ensures Others(s + t, managed) == Others(s, managed) + Others(t, managed)
  {
    if t == [] {
      assert s + t == s;
    } else {
      var n := |t| - 1;
      assert (s + t)[..|s + t| - 1] == s + t[..n];
      OthersConcat(s, t[..n], managed);
    }
  }

  lemma {:induction false} AllOthers(chans: seq<Chan>, managed: set<Id>)
    requires forall c :: c in chans ==> c.id !in managed
    ensures Others(chans, managed) == chans
  {
    if chans != [] {
      var n := |chans| - 1;
      AllOthers(chans[..n], managed);
      assert chans == chans[..n] + [chans[n]];
    }
  }

  lemma {:induction false} OthersForeign(s: seq<Entry>, managed: set<Id>)
    requires forall e :: e in s ==> (e.rank == 0 && e.chan.id in managed) || (e.rank == 1 && e.chan.id !in managed)
    ensures Others(Chans(s), managed) == Foreign(s)
  {
    if s != [] {
      var n := |s| - 1;
      OthersForeign(s[..n], managed);
      assert Chans(s)[..n] == Chans(s[..n]);
      ForeignSnoc(s);
      assert s[n] in s;
    }
  }

  /** The unmanaged channels of a sorted section are the ones its next sort starts from. */
  lemma OthersOfSection(items: seq<Item>, text: seq<Child>, us: seq<Chan>, managed: set<Id>)
    requires forall i :: i in items ==> i.channelId in managed
    requires forall c :: c in us ==> c.id !in managed
    ensures Others(SortSection(items, text, us), managed) == Foreign(SortedEntries(items, text, us)) + Untimed(us)
  {
    var s := SortedEntries(items, text, us);
    EntriesSplit(items, text, us, managed);
    OthersForeign(s, managed);
    AllOthers(Untimed(us), managed);
    OthersConcat(Chans(s), Untimed(us), managed);
  }

  lemma EntriesSplit(items: seq<Item>, text: seq<Child>, us: seq<Chan>, managed: set<Id>)
    requires forall i :: i in items ==> i.channelId in managed
    requires forall c :: c in us ==> c.id !in managed
    ensures forall e :: e in SortedEntries(items, text, us) ==>
                          (e.rank == 0 && e.chan.id in managed) || (e.rank == 1 && e.chan.id !in managed)
  {
    ManagedRanks(items, text);
    UnmanagedRanks(us);
    SortPermutes(ManagedEntries(items, text) + UnmanagedEntries(us), EntryLe);
  }

  lemma OthersStep(chans: seq<Chan>, lo: nat, n: nat, managed: set<Id>)
    requires lo < n <= |chans|
    ensures Others(chans[lo..n], managed)
            == Others(chans[lo..n - 1], managed) + if chans[n - 1].id in managed then [] else [chans[n - 1]]
  {
    assert chans[lo..n][..n - 1 - lo] == chans[lo..n - 1];
  }

  ghost predicate ZoneIsRun(l: Layout, placed: seq<Child>, z: Zone, lo: nat, hi: nat) {
    forall i :: 0 <= i < |placed| ==>
                  (ZoneOf(l, placed[i]) == z <==> lo <= i < hi && placed[i].chan.id !in l.managed)
  }

  /** One run of indices lies in one zone: the zone shows that run's unmanaged channels. */
  lemma {:induction false} ZoneRange(l: Layout, placed: seq<Child>, z: Zone, lo: nat, hi: nat, n: nat)
    requires n <= |placed| && lo <= hi <= |placed| && ZoneIsRun(l, placed, z, lo, hi)
    ensures InZone(l, placed[..n], z) == Others(ChansOf(placed)[Min(lo, n)..Min(hi, n)], l.managed)
  {
    if n > 0 {
      ZoneRange(l, placed, z, lo, hi, n - 1);
      assert placed[..n][..n - 1] == placed[..n - 1];
      var chans := ChansOf(placed);
      if lo < n <= hi {
        OthersStep(chans, lo, n, l.managed);
      } else {
        assert ZoneOf(l, placed[n - 1]) != z;
        assert InZone(l, placed[..n], z) == InZone(l, placed[..n - 1], z);
        assert lo >= n ==> chans[n..n] == chans[n - 1..n - 1] == [];
      }
      hide Others;
    }
  }

  lemma ZoneRun(l: Layout, placed: seq<Child>, z: Zone, lo: nat, hi: nat)
    requires lo <= hi <= |placed| && ZoneIsRun(l, placed, z, lo, hi)
    ensures InZone(l, placed, z) == Others(ChansOf(placed)[lo..hi], l.managed)
  {
    ZoneRange(l, placed, z, lo, hi, |placed|);
    assert placed[..|placed|] == placed;
  }

  // ---------------------------------------------------------------------
  // The five parts of the planned order
  // ---------------------------------------------------------------------

  datatype Parts = Parts(before: seq<Chan>, current: Chan, currents: seq<Chan>, next: Chan, nexts: seq<Chan>) {
    function Order(): (order: seq<Chan>)
      ensures |order| == |before| + |currents| + |nexts| + 2
    {
      before + [current] + currents + [next] + nexts
    }

    function NextAt(): nat {
      |before| + 1 + |currents|
    }

    /** The layout found once the order is applied. */
    function Moved(managed: set<Id>): Layout {
      Layout(Child(current, |before|, false), Child(next, NextAt(), false), managed)
    }
  }

  lemma PartsAt(p: Parts)
    ensures var order := p.Order();
            && order[|p.before|] == p.current && order[p.NextAt()] == p.next
            && order[0..|p.before|] == p.before
            && order[|p.before| + 1..p.NextAt()] == p.currents
            && order[p.NextAt() + 1..|order|] == p.nexts
  {
  }

  lemma PlacedZones(p: Parts, managed: set<Id>)
    requires DistinctChanIds(p.Order())
    ensures var l, placed := p.Moved(managed), Placed(p.Order());
            && ZoneIsRun(l, placed, BEFORE, 0, |p.before|)
            && ZoneIsRun(l, placed, BETWEEN, |p.before| + 1, p.NextAt())
            && ZoneIsRun(l, placed, AFTER, p.NextAt() + 1, |placed|)
  {
    PartsAt(p);
    var order := p.Order();
    forall i | 0 <= i < |order|
      ensures order[i].id == p.current.id <==> i == |p.before|
      ensures order[i].id == p.next.id <==> i == p.NextAt()
    {
    }
  }

  /** After the write every zone shows exactly the unmanaged channels of its part. */
  lemma PlacedParts(p: Parts, managed: set<Id>)
    requires DistinctChanIds(p.Order())
    ensures InZone(p.Moved(managed), Placed(p.Order()), BEFORE) == Others(p.before, managed)
    ensures InZone(p.Moved(managed), Placed(p.Order()), BETWEEN) == Others(p.currents, managed)
    ensures InZone(p.Moved(managed), Placed(p.Order()), AFTER) == Others(p.nexts, managed)
  {
    var l, placed := p.Moved(managed), Placed(p.Order());
    PlacedZones(p, managed);
    PlacedSlices(p);
    hide ZoneIsRun, InZone, Others;
    ZoneRun(l, placed, BEFORE, 0, |p.before|);
    ZoneRun(l, placed, BETWEEN, |p.before| + 1, p.NextAt());
    ZoneRun(l, placed, AFTER, p.NextAt() + 1, |placed|);
  }

  lemma PlacedSlices(p: Parts)
    ensures var placed := Placed(p.Order());
            && p.NextAt() < |placed| && placed[..|placed|] == placed
            && ChansOf(placed)[0..|p.before|] == p.before
            && ChansOf(placed)[|p.before| + 1..p.NextAt()] == p.currents
            && ChansOf(placed)[p.NextAt() + 1..|placed|] == p.nexts
  {
    PartsAt(p);
    assert ChansOf(Placed(p.Order())) == p.Order();
  }

  function PartsOf(l: Layout, text: seq<Child>, items: seq<Item>): (p: Parts)
    ensures p.Order() == FinalOrder(l, text, items)
  {
    var ordered := ByPosition(text);
    Parts(InZone(l, ordered, BEFORE), l.current.chan,
          SortSection(Scheduled(items, CURRENT), text, InZone(l, ordered, BETWEEN)), l.next.chan,
          SortSection(Scheduled(items, NEXT), text, InZone(l, ordered, AFTER)))
  }

  lemma ScheduledManaged(items: seq<Item>, b: Bucket)
    requires b != ARCHIVE
    ensures forall i :: i in Scheduled(items, b) ==> i.channelId in ManagedIds(items)
  {
    SortPermutes(ItemsIn(items, b), ScheduleLe);
  }

  lemma ZoneUnmanaged(l: Layout, ordered: seq<Child>, z: Zone)
    requires z != MARKER && z != MANAGED
    ensures forall c :: c in InZone(l, ordered, z) ==> c.id !in l.managed
  {
  }

  /** A section sorted again from its own unmanaged channels is the same section. */
  lemma SectionSettles(items: seq<Item>, b: Bucket, text: seq<Child>, placed: seq<Child>, order: seq<Chan>, us: seq<Chan>)
    requires b != ARCHIVE && DistinctIds(text) && Applied(text, placed, order)
    requires forall c :: c in us ==> c.id !in ManagedIds(items)
    ensures var section := SortSection(Scheduled(items, b), text, us);
            SortSection(Scheduled(items, b), placed, Others(section, ManagedIds(items))) == section
  {
    ScheduledManaged(items, b);
    OthersOfSection(Scheduled(items, b), text, us, ManagedIds(items));
    SectionStable(Scheduled(items, b), text, us);
    SameManaged(Scheduled(items, b), text, placed, order);
  }

  /** Planning from the applied order gives the same order again. */
  lemma OrderSettles(l: Layout, text: seq<Child>, placed: seq<Child>, items: seq<Item>)
    requires DistinctIds(text) && l.managed == ManagedIds(items)
    requires var order := FinalOrder(l, text, items);
             && DistinctChanIds(order) && Applied(text, placed, order)
             && forall c :: c in order <==> c in ChansOf(text)
    ensures FinalOrder(PartsOf(l, text, items).Moved(l.managed), placed, items) == FinalOrder(l, text, items)
  {
    var p, order, ordered := PartsOf(l, text, items), FinalOrder(l, text, items), ByPosition(text);
    AppliedIsPlaced(text, placed, order);
    PlacedParts(p, l.managed);
    ZoneUnmanaged(l, ordered, BEFORE);
    ZoneUnmanaged(l, ordered, BETWEEN);
    ZoneUnmanaged(l, ordered, AFTER);
    AllOthers(p.before, l.managed);
    SectionSettles(items, CURRENT, text, placed, order, InZone(l, ordered, BETWEEN));
    SectionSettles(items, NEXT, text, placed, order, InZone(l, ordered, AFTER));
    hide InZone, ByPosition, SortSection, Scheduled, Others, ManagedIds;
  }

  // ---------------------------------------------------------------------
  // The whole plan
  // ---------------------------------------------------------------------

  lemma PermutationKeepsIds(text: seq<Child>, order: seq<Chan>)
    requires DistinctIds(text) && multiset(order) == multiset(ChansOf(text))
    ensures DistinctChanIds(order) && forall c :: c in order <==> c in ChansOf(text)
  {
    forall c ensures c in order <==> c in ChansOf(text) {
      assert c in order <==> c in multiset(order);
      assert c in ChansOf(text) <==> c in multiset(ChansOf(text));
    }
    forall c ensures multiset(order)[c] <= 1 {
      assert Distinct(ChansOf(text));
      OnceInDistinct(ChansOf(text), c);
    }
    OnceMeansDistinct(order);
    forall i, j | 0 <= i < j < |order| ensures order[i].id != order[j].id {
      var a := ChanAt(text, order[i]);
      var b := ChanAt(text, order[j]);
      IdIdentifies(text, a, b);
    }
  }

  lemma ChansOfSorted(text: seq<Child>)
    requires DistinctIds(text)
    ensures multiset(ChansOf(ByPosition(text))) == multiset(ChansOf(text))
  {
    OrderedText(text);
    assert Distinct(ChansOf(text)) && Distinct(ChansOf(ByPosition(text)));
    forall c ensures c in ChansOf(text) <==> c in ChansOf(ByPosition(text)) {
      if c in ChansOf(text) {
        var k := ChanAt(text, c);
        InChans(ByPosition(text), k);
      }
      if c in ChansOf(ByPosition(text)) {
        var k := ChanAt(ByPosition(text), c);
        InChans(text, k);
      }
    }
    SameElements(ChansOf(text), ChansOf(ByPosition(text)));
  }

  lemma FoundAt(placed: seq<Child>, text: seq<Child>, order: seq<Chan>, c: Chan, i: nat)
    requires Applied(text, placed, order) && DistinctChanIds(order)
    requires i < |order| && order[i] == c && c in ChansOf(text)
    ensures FindChild(placed, c.id) == Some(Child(c, i, false))
  {
    var k := ChanAt(placed, c);
    assert k.position == i;
    var found := FindChild(placed, c.id);
    if found.Some? {
      IdIdentifies(placed, k, found.value);
    }
  }

  /** The layout of a plan comes from the text channels. */
  lemma LayoutFound(text: seq<Child>, env: Env, items: seq<Item>)
    requires LayoutOf(text, env, items).Some?
    ensures var l := LayoutOf(text, env, items).value;
            && LayoutFits(l, text, items)
            && env.currentMarker == Some(l.current.chan.id) && env.nextMarker == Some(l.next.chan.id)
            && env.category.Some?
  {
  }

  lemma LayoutMoves(text: seq<Child>, placed: seq<Child>, env: Env, items: seq<Item>)
    requires DistinctIds(text) && LayoutOf(text, env, items).Some?
    requires var l := LayoutOf(text, env, items).value;
             var order := FinalOrder(l, text, items);
             && DistinctChanIds(order) && Applied(text, placed, order)
             && forall c :: c in order <==> c in ChansOf(text)
    ensures var l := LayoutOf(text, env, items).value;
            LayoutOf(placed, env, items) == Some(PartsOf(l, text, items).Moved(l.managed))
  {
    LayoutFound(text, env, items);
    var l := LayoutOf(text, env, items).value;
    var p := PartsOf(l, text, items);
    PartsAt(p);
    InChans(text, l.current);
    InChans(text, l.next);
    FoundAt(placed, text, p.Order(), l.current.chan, |p.before|);
    FoundAt(placed, text, p.Order(), l.next.chan, p.NextAt());
    hide FinalOrder, FindChild;
  }

  /** The text channels of `children` under their planned positions. */
  ghost predicate Settling(children: seq<Child>, after: seq<Child>, env: Env, items: seq<Item>) {
    var text, plan := TextChildren(children), PlanOf(children, env, items);
    && DistinctIds(text) && plan.Planned?
    && Clean(LayoutOf(text, env, items).value, text, items)
    && Applied(text, TextChildren(after), plan.order)
  }

  /** Fixpoint: once the plan is applied, planning again finds everything in order. */
  lemma PlanIsFixpoint(children: seq<Child>, after: seq<Child>, env: Env, items: seq<Item>)
    requires Settling(children, after, env, items)
    ensures PlanOf(after, env, items).InOrder()
    ensures PlanOf(after, env, items).order == PlanOf(children, env, items).order
  {
    hide FinalOrder, ByPosition, Clean, Applied, LayoutOf;
    var text, placed := TextChildren(children), TextChildren(after);
    var l := LayoutOf(text, env, items).value;
    LayoutFound(text, env, items);
    CleanPermutes(l, text, items);
    ChansOfSorted(text);
    var order := FinalOrder(l, text, items);
    PermutationKeepsIds(text, order);
    LayoutMoves(text, placed, env, items);
    OrderSettles(l, text, placed, items);
    AppliedIsPlaced(text, placed, order);
    assert ChansOf(Placed(order)) == order;
  }

  // ---------------------------------------------------------------------
  // What the write leaves in place
  // ---------------------------------------------------------------------

  lemma {:induction false} OthersCounts(chans: seq<Chan>, managed: set<Id>, c: Chan)
    ensures multiset(Others(chans, managed))[c] == if c.id in managed then 0 else multiset(chans)[c]
  {
    if chans != [] {
      var n := |chans| - 1;
      OthersCounts(chans[..n], managed, c);
      assert chans == chans[..n] + [chans[n]];
    }
  }

  /** The unmanaged channels of a section are those of its zone, the untimed ones in their old order. */
  lemma SectionKeepsZone(items: seq<Item>, b: Bucket, text: seq<Child>, us: seq<Chan>)
    requires b != ARCHIVE && forall c :: c in us ==> c.id !in ManagedIds(items)
    ensures var kept := Others(SortSection(Scheduled(items, b), text, us), ManagedIds(items));
            multiset(kept) == multiset(us) && Untimed(kept) == Untimed(us)
  {
    var section := SortSection(Scheduled(items, b), text, us);
    var kept := Others(section, ManagedIds(items));
    forall c ensures multiset(kept)[c] == multiset(us)[c] {
      KeptCount(items, b, text, us, c);
    }
    SameCounts(kept, us);
    ScheduledManaged(items, b);
    OthersOfSection(Scheduled(items, b), text, us, ManagedIds(items));
    EntriesSorted(Scheduled(items, b), text, us);
    ForeignTimed(SortedEntries(Scheduled(items, b), text, us));
    UntimedAppended(Foreign(SortedEntries(Scheduled(items, b), text, us)), Untimed(us));
  }

  lemma KeptCount(items: seq<Item>, b: Bucket, text: seq<Child>, us: seq<Chan>, c: Chan)
    requires b != ARCHIVE && forall c :: c in us ==> c.id !in ManagedIds(items)
    ensures multiset(Others(SortSection(Scheduled(items, b), text, us), ManagedIds(items)))[c] == multiset(us)[c]
  {
    OthersCounts(SortSection(Scheduled(items, b), text, us), ManagedIds(items), c);
    if c.id in ManagedIds(items) {
      AbsentCounts(us, c);
    } else {
      SectionPermutes(Scheduled(items, b), text, us, c);
      ScheduledManaged(items, b);
      ManagedChansAre(Scheduled(items, b), text);
      AbsentCounts(ManagedChans(Scheduled(items, b), text), c);
    }
  }

  /** Unmanaged channels never change zone: above the markers they keep their order, below it among the untimed. */
  lemma ZonesKept(l: Layout, text: seq<Child>, placed: seq<Child>, items: seq<Item>)
    requires DistinctIds(text) && l.managed == ManagedIds(items)
    requires var order := FinalOrder(l, text, items);
             && DistinctChanIds(order) && Applied(text, placed, order)
             && forall c :: c in order <==> c in ChansOf(text)
    ensures var moved := PartsOf(l, text, items).Moved(l.managed);
            var was, now := ByPosition(text), ByPosition(placed);
            && InZone(moved, now, BEFORE) == InZone(l, was, BEFORE)
            && multiset(InZone(moved, now, BETWEEN)) == multiset(InZone(l, was, BETWEEN))
            && Untimed(InZone(moved, now, BETWEEN)) == Untimed(InZone(l, was, BETWEEN))
            && multiset(InZone(moved, now, AFTER)) == multiset(InZone(l, was, AFTER))
            && Untimed(InZone(moved, now, AFTER)) == Untimed(InZone(l, was, AFTER))
  {
    var p, order, ordered := PartsOf(l, text, items), FinalOrder(l, text, items), ByPosition(text);
    AppliedIsPlaced(text, placed, order);
    PlacedParts(p, l.managed);
    ZoneUnmanaged(l, ordered, BEFORE);
    ZoneUnmanaged(l, ordered, BETWEEN);
    ZoneUnmanaged(l, ordered, AFTER);
    AllOthers(p.before, l.managed);
    SectionKeepsZone(items, CURRENT, text, InZone(l, ordered, BETWEEN));
    SectionKeepsZone(items, NEXT, text, InZone(l, ordered, AFTER));
    hide InZone, ByPosition, SortSection, Scheduled, Others, ManagedIds, Untimed;
  }

  /** A managed channel of a bucket is shown in that bucket's section, the sections in time order. */
  lemma ManagedInSection(items: seq<Item>, b: Bucket, text: seq<Child>, us: seq<Chan>, i: Item)
    requires i in items && i.bucket == b && ById(text, i.channelId).Some?
    ensures ById(text, i.channelId).value in SortSection(Scheduled(items, b), text, us)
  {
    var c := ById(text, i.channelId).value;
    SortPermutes(ItemsIn(items, b), ScheduleLe);
    ManagedChansAre(Scheduled(items, b), text);
    SectionPermutes(Scheduled(items, b), text, us, c);
    assert c in multiset(ManagedChans(Scheduled(items, b), text));
    assert c in multiset(SortSection(Scheduled(items, b), text, us));
  }
}
