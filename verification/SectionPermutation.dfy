/**
 * When the planned order is a permutation of the text channels.
 */
module SectionPermutation {
  import opened Prelude
  import opened Sorting
  import opened SectionOrder

  // ---------------------------------------------------------------------
  // One section holds its managed and its unmanaged channels
  // ---------------------------------------------------------------------

  lemma {:induction false} ChansInsert(x: Entry, s: seq<Entry>)
    ensures multiset(Chans(Insert(x, s, EntryLe))) == multiset{x.chan} + multiset(Chans(s))
  {
    if s == [] || EntryLe(x, s[0]) {
      assert Chans([x] + s) == [x.chan] + Chans(s);
    } else {
      ChansInsert(x, s[1..]);
      assert Chans(Insert(x, s, EntryLe)) == [s[0].chan] + Chans(Insert(x, s[1..], EntryLe));
      assert Chans(s) == [s[0].chan] + Chans(s[1..]);
    }
  }

  lemma {:induction false} ChansSort(s: seq<Entry>)
    ensures multiset(Chans(SortBy(s, EntryLe))) == multiset(Chans(s))
  {
    if s != [] {
      ChansSort(s[1..]);
      ChansInsert(s[0], SortBy(s[1..], EntryLe));
      assert Chans(s) == [s[0].chan] + Chans(s[1..]);
    }
  }

  lemma AppendCounts(s: seq<Chan>, t: seq<Chan>, c: Chan)
    ensures multiset(s + t)[c] == multiset(s)[c] + multiset(t)[c]
  {
  }

  lemma EntriesStep(us: seq<Chan>)
    requires us != []
    ensures var n := |us| - 1;
            && (us[n].minute.Some? ==>
                  UnmanagedEntries(us) == UnmanagedEntries(us[..n]) + [Entry(us[n], us[n].minute.value, 1, n)])
            && (us[n].minute.None? ==> UnmanagedEntries(us) == UnmanagedEntries(us[..n]))
  {
  }

  lemma UnmanagedStep(us: seq<Chan>)
    requires us != []
    ensures var n := |us| - 1;
            && (us[n].minute.Some? ==> Chans(UnmanagedEntries(us)) == Chans(UnmanagedEntries(us[..n])) + [us[n]])
            && (us[n].minute.None? ==> Chans(UnmanagedEntries(us)) == Chans(UnmanagedEntries(us[..n])))
  {
    hide Chans, UnmanagedEntries;
    var n := |us| - 1;
    EntriesStep(us);
    if us[n].minute.Some? {
      ChansSnoc(UnmanagedEntries(us[..n]), Entry(us[n], us[n].minute.value, 1, n));
    }
  }

  lemma UntimedStep(us: seq<Chan>)
    requires us != []
    ensures var n := |us| - 1;
            && (us[n].minute.Some? ==> Untimed(us) == Untimed(us[..n]))
            && (us[n].minute.None? ==> Untimed(us) == Untimed(us[..n]) + [us[n]])
  {
  }

  lemma ChansSnoc(s: seq<Entry>, e: Entry)
    ensures Chans(s + [e]) == Chans(s) + [e.chan]
  {
  }

  function CountOf(s: seq<Chan>, c: Chan): nat {
    multiset(s)[c]
  }

  lemma SnocCount(s: seq<Chan>, whole: seq<Chan>, x: Chan, c: Chan)
    requires whole == s + [x]
    ensures CountOf(whole, c) == CountOf(s, c) + if x == c then 1 else 0
  {
  }

  lemma UnmanagedSplitStep(us: seq<Chan>, c: Chan)
    requires us != []
    ensures var rest := us[..|us| - 1];
            CountOf(Chans(UnmanagedEntries(us)), c) + CountOf(Untimed(us), c) + CountOf(rest, c)
            == CountOf(Chans(UnmanagedEntries(rest)), c) + CountOf(Untimed(rest), c) + CountOf(us, c)
  {
    hide Chans, UnmanagedEntries, Untimed, CountOf;
    var n := |us| - 1;
    UnmanagedStep(us);
    UntimedStep(us);
    SnocCount(us[..n], us, us[n], c);
    if us[n].minute.Some? {
      SnocCount(Chans(UnmanagedEntries(us[..n])), Chans(UnmanagedEntries(us)), us[n], c);
    } else {
      SnocCount(Untimed(us[..n]), Untimed(us), us[n], c);
    }
  }

  lemma {:induction false} UnmanagedSplit(us: seq<Chan>, c: Chan)
    ensures CountOf(Chans(UnmanagedEntries(us)), c) + CountOf(Untimed(us), c) == CountOf(us, c)
  {
    if us != [] {
      hide Chans, UnmanagedEntries, Untimed, CountOf;
      UnmanagedSplit(us[..|us| - 1], c);
      UnmanagedSplitStep(us, c);
    }
  }

  function ManagedChans(items: seq<Item>, text: seq<Child>): seq<Chan> {
    Chans(ManagedEntries(items, text))
  }

  lemma ChansConcat(s: seq<Entry>, t: seq<Entry>)
    ensures Chans(s + t) == Chans(s) + Chans(t)
  {
  }

  lemma PilesCount(sorted: seq<Chan>, managed: seq<Chan>, timed: seq<Chan>, untimed: seq<Chan>, us: seq<Chan>, c: Chan)
    requires multiset(sorted) == multiset(managed + timed)
    requires multiset(timed)[c] + multiset(untimed)[c] == multiset(us)[c]
    ensures multiset(sorted + untimed)[c] == multiset(managed)[c] + multiset(us)[c]
  {
    AppendCounts(managed, timed, c);
    AppendCounts(sorted, untimed, c);
  }

  /** A section shows exactly its managed channels and its zone's unmanaged channels. */
  lemma SectionPermutes(items: seq<Item>, text: seq<Child>, us: seq<Chan>, c: Chan)
    ensures multiset(SortSection(items, text, us))[c] == multiset(ManagedChans(items, text))[c] + multiset(us)[c]
  {
    var m, u := ManagedEntries(items, text), UnmanagedEntries(us);
    ChansSort(m + u);
    ChansConcat(m, u);
    UnmanagedSplit(us, c);
    hide Chans, UnmanagedEntries, ManagedEntries, Untimed;
    PilesCount(Chans(SortedEntries(items, text, us)), Chans(m), Chans(u), Untimed(us), us, c);
  }

  // ---------------------------------------------------------------------
  // Every channel is in exactly one zone
  // ---------------------------------------------------------------------

  function InZoneCount(l: Layout, ordered: seq<Child>, z: Zone, c: Chan): nat {
    multiset(InZone(l, ordered, z))[c]
  }

  lemma ZoneStep(l: Layout, ordered: seq<Child>, z: Zone, c: Chan)
    requires ordered != []
    ensures InZoneCount(l, ordered, z, c)
            == InZoneCount(l, ordered[..|ordered| - 1], z, c)
             + if ZoneOf(l, ordered[|ordered| - 1]) == z && ordered[|ordered| - 1].chan == c then 1 else 0
  {
    var n := |ordered| - 1;
    AppendCounts(InZone(l, ordered[..n], z), if ZoneOf(l, ordered[n]) == z then [ordered[n].chan] else [], c);
  }

  function ZoneSum(l: Layout, ordered: seq<Child>, c: Chan): nat {
    InZoneCount(l, ordered, MARKER, c) + InZoneCount(l, ordered, MANAGED, c)
    + InZoneCount(l, ordered, BEFORE, c) + InZoneCount(l, ordered, BETWEEN, c)
    + InZoneCount(l, ordered, AFTER, c) + InZoneCount(l, ordered, TIED, c)
  }

  lemma ZoneSumStep(l: Layout, ordered: seq<Child>, c: Chan)
    requires ordered != []
    ensures ZoneSum(l, ordered, c)
            == ZoneSum(l, ordered[..|ordered| - 1], c) + if ordered[|ordered| - 1].chan == c then 1 else 0
  {
    hide InZoneCount, ZoneOf;
    ZoneStep(l, ordered, MARKER, c);
    ZoneStep(l, ordered, MANAGED, c);
    ZoneStep(l, ordered, BEFORE, c);
    ZoneStep(l, ordered, BETWEEN, c);
    ZoneStep(l, ordered, AFTER, c);
    ZoneStep(l, ordered, TIED, c);
  }

  lemma {:induction false} ZonesPartition(l: Layout, ordered: seq<Child>, c: Chan)
    ensures multiset(ChansOf(ordered))[c]
            == InZoneCount(l, ordered, MARKER, c) + InZoneCount(l, ordered, MANAGED, c)
             + InZoneCount(l, ordered, BEFORE, c) + InZoneCount(l, ordered, BETWEEN, c)
             + InZoneCount(l, ordered, AFTER, c) + InZoneCount(l, ordered, TIED, c)
  {
    if ordered != [] {
      hide InZoneCount;
      var n := |ordered| - 1;
      ZonesPartition(l, ordered[..n], c);
      ChansOfSnoc(ordered);
      AppendCounts(ChansOf(ordered[..n]), [ordered[n].chan], c);
      ZoneSumStep(l, ordered, c);
    }
  }

  lemma ChansOfSnoc(ordered: seq<Child>)
    requires ordered != []
    ensures ChansOf(ordered) == ChansOf(ordered[..|ordered| - 1]) + [ordered[|ordered| - 1].chan]
  {
  }

  ghost predicate DistinctIds(text: seq<Child>) {
    forall i, j :: 0 <= i < j < |text| ==> text[i].chan.id != text[j].chan.id
  }

  ghost predicate DistinctChanIds(chans: seq<Chan>) {
    forall i, j :: 0 <= i < j < |chans| ==> chans[i].id != chans[j].id
  }

  lemma {:induction false} OnceInDistinct<T>(s: seq<T>, x: T)
    requires Distinct(s)
    ensures multiset(s)[x] == if x in s then 1 else 0
  {
    if s != [] {
      var n := |s| - 1;
      assert s == s[..n] + [s[n]];
      OnceInDistinct(s[..n], x);
      if s[n] == x {
        assert x !in s[..n];
      }
    }
  }

  lemma {:induction false} OnceMeansDistinct(chans: seq<Chan>)
    requires forall c :: multiset(chans)[c] <= 1
    ensures Distinct(chans)
  {
    if chans != [] {
      var n := |chans| - 1;
      assert chans == chans[..n] + [chans[n]];
      forall c ensures multiset(chans[..n])[c] <= 1 {
        assert multiset(chans)[c] <= 1;
      }
      OnceMeansDistinct(chans[..n]);
      assert multiset(chans)[chans[n]] <= 1;
      assert chans[n] !in multiset(chans[..n]);
    }
  }

  lemma {:induction false} ZoneDistinct(l: Layout, ordered: seq<Child>, z: Zone)
    requires DistinctIds(ordered)
    ensures Distinct(InZone(l, ordered, z))
  {
    if ordered != [] {
      var n := |ordered| - 1;
      ZoneDistinct(l, ordered[..n], z);
      assert ordered[n].chan !in InZone(l, ordered[..n], z);
    }
  }

  lemma SameElements<T(!new)>(s: seq<T>, t: seq<T>)
    requires Distinct(s) && Distinct(t) && forall x :: x in s <==> x in t
    ensures multiset(s) == multiset(t)
  {
    forall x ensures multiset(s)[x] == multiset(t)[x] {
      OnceInDistinct(s, x);
      OnceInDistinct(t, x);
    }
  }

  /** The two markers and only they are in the marker zone. */
  lemma MarkersAre(l: Layout, ordered: seq<Child>)
    requires DistinctIds(ordered) && l.current in ordered && l.next in ordered
    requires l.current.chan.id != l.next.chan.id
    ensures multiset(InZone(l, ordered, MARKER)) == multiset{l.current.chan, l.next.chan}
  {
    var pair := [l.current.chan, l.next.chan];
    ZoneDistinct(l, ordered, MARKER);
    forall c ensures c in InZone(l, ordered, MARKER) <==> c in pair {
      if c in InZone(l, ordered, MARKER) {
        var k :| k in ordered && ZoneOf(l, k) == MARKER && k.chan == c;
        IdIdentifies(ordered, k, if k.chan.id == l.current.chan.id then l.current else l.next);
      }
    }
    SameElements(InZone(l, ordered, MARKER), pair);
    assert multiset(pair) == multiset{l.current.chan, l.next.chan};
  }

  lemma IdIdentifies(text: seq<Child>, a: Child, b: Child)
    requires DistinctIds(text) && a in text && b in text
    ensures a.chan.id == b.chan.id ==> a == b
  {
    var i :| 0 <= i < |text| && text[i] == a;
    var j :| 0 <= j < |text| && text[j] == b;
    assert a.chan.id == b.chan.id ==> i == j;
  }

  // ---------------------------------------------------------------------
  // When the planned order is a permutation
  // ---------------------------------------------------------------------

  /** The managed channels of both sections, in the order of their items. */
  function AllManaged(text: seq<Child>, items: seq<Item>): seq<Chan> {
    ManagedChans(Scheduled(items, CURRENT), text) + ManagedChans(Scheduled(items, NEXT), text)
  }

  /**
   * What a caller can check: no unmanaged channel stands level with a marker,
   * no marker is managed, and no channel belongs to two items.
   */
  ghost predicate Clean(l: Layout, text: seq<Child>, items: seq<Item>) {
    && (forall c :: c in text ==> ZoneOf(l, c) != TIED)
    && (forall c :: c in AllManaged(text, items) ==> c.id != l.current.chan.id && c.id != l.next.chan.id)
    && Distinct(AllManaged(text, items))
  }

  lemma {:induction false} ManagedChansAre(items: seq<Item>, text: seq<Child>)
    ensures forall c :: c in ManagedChans(items, text) <==>
                        exists i :: i in items && ById(text, i.channelId) == Some(c)
  {
    if items != [] {
      var n := |items| - 1;
      ManagedChansAre(items[..n], text);
      assert items == items[..n] + [items[n]];
      var found := ById(text, items[n].channelId);
      if found.Some? {
        assert ManagedChans(items, text) == ManagedChans(items[..n], text) + [found.value];
      } else {
        assert ManagedChans(items, text) == ManagedChans(items[..n], text);
      }
      forall c ensures c in ManagedChans(items, text) <==> exists i :: i in items && ById(text, i.channelId) == Some(c) {
        if exists i :: i in items && ById(text, i.channelId) == Some(c) {
          var i :| i in items && ById(text, i.channelId) == Some(c);
          assert i in items[..n] || i == items[n];
        }
        assert items[n] in items;
      }
    }
  }

  lemma AllManagedAre(text: seq<Child>, items: seq<Item>)
    ensures forall c :: c in AllManaged(text, items) <==>
                        exists i :: i in items && i.bucket != ARCHIVE && ById(text, i.channelId) == Some(c)
  {
    var current, next := Scheduled(items, CURRENT), Scheduled(items, NEXT);
    ManagedChansAre(current, text);
    ManagedChansAre(next, text);
    SortPermutes(ItemsIn(items, CURRENT), ScheduleLe);
    SortPermutes(ItemsIn(items, NEXT), ScheduleLe);
    forall c ensures c in AllManaged(text, items) <==>
                     exists i :: i in items && i.bucket != ARCHIVE && ById(text, i.channelId) == Some(c)
    {
      if exists i :: i in items && i.bucket != ARCHIVE && ById(text, i.channelId) == Some(c) {
        var i :| i in items && i.bucket != ARCHIVE && ById(text, i.channelId) == Some(c);
        assert i in current || i in next;
      }
    }
  }

  lemma FinalOrderCounts(l: Layout, text: seq<Child>, items: seq<Item>, c: Chan)
    ensures multiset(FinalOrder(l, text, items))[c]
            == InZoneCount(l, ByPosition(text), BEFORE, c) + InZoneCount(l, ByPosition(text), BETWEEN, c)
             + InZoneCount(l, ByPosition(text), AFTER, c) + multiset(AllManaged(text, items))[c]
             + multiset([l.current.chan, l.next.chan])[c]
  {
    var ordered := ByPosition(text);
    var before := InZone(l, ordered, BEFORE);
    var current := SortSection(Scheduled(items, CURRENT), text, InZone(l, ordered, BETWEEN));
    var next := SortSection(Scheduled(items, NEXT), text, InZone(l, ordered, AFTER));
    SectionPermutes(Scheduled(items, CURRENT), text, InZone(l, ordered, BETWEEN), c);
    SectionPermutes(Scheduled(items, NEXT), text, InZone(l, ordered, AFTER), c);
    hide SortSection, InZone, ManagedChans, Scheduled, ByPosition;
    AppendCounts(before, [l.current.chan], c);
    AppendCounts(before + [l.current.chan], current, c);
    AppendCounts(before + [l.current.chan] + current, [l.next.chan], c);
    AppendCounts(before + [l.current.chan] + current + [l.next.chan], next, c);
    AppendCounts(ManagedChans(Scheduled(items, CURRENT), text), ManagedChans(Scheduled(items, NEXT), text), c);
    AppendCounts([l.current.chan], [l.next.chan], c);
    assert [l.current.chan] + [l.next.chan] == [l.current.chan, l.next.chan];
  }

  ghost predicate LayoutFits(l: Layout, text: seq<Child>, items: seq<Item>) {
    l.current in text && l.next in text && l.current.position < l.next.position && l.managed == ManagedIds(items)
  }

  lemma OrderedText(text: seq<Child>)
    requires DistinctIds(text)
    ensures DistinctIds(ByPosition(text)) && forall c :: c in ByPosition(text) <==> c in text
  {
    SortPermutes(text, PositionLe);
    DistinctIdsPermute(text, ByPosition(text));
  }

  lemma {:induction false} DistinctIdsPermute(s: seq<Child>, t: seq<Child>)
    requires DistinctIds(s) && multiset(s) == multiset(t)
    ensures DistinctIds(t)
  {
    forall i, j | 0 <= i < j < |t| ensures t[i].chan.id != t[j].chan.id {
      assert Distinct(s);
      OnceInDistinct(s, t[i]);
      assert t == t[..i] + [t[i]] + t[i + 1..];
      assert t[j] in t[i + 1..];
      assert t[i] in multiset(s) && t[j] in multiset(s);
      IdIdentifies(s, t[i], t[j]);
    }
  }

  lemma MarkerCounts(l: Layout, text: seq<Child>, items: seq<Item>, c: Chan)
    requires DistinctIds(text) && LayoutFits(l, text, items)
    ensures InZoneCount(l, ByPosition(text), MARKER, c) == multiset([l.current.chan, l.next.chan])[c]
  {
    OrderedText(text);
    IdIdentifies(text, l.current, l.next);
    MarkersAre(l, ByPosition(text));
    assert multiset([l.current.chan, l.next.chan]) == multiset{l.current.chan, l.next.chan};
  }

  /** Planned and live counts differ by the managed channels against the managed and tied zones. */
  lemma CountsCompared(l: Layout, text: seq<Child>, items: seq<Item>, c: Chan)
    requires DistinctIds(text) && LayoutFits(l, text, items)
    ensures multiset(FinalOrder(l, text, items))[c] + InZoneCount(l, ByPosition(text), MANAGED, c)
             + InZoneCount(l, ByPosition(text), TIED, c)
            == multiset(ChansOf(ByPosition(text)))[c] + multiset(AllManaged(text, items))[c]
  {
    FinalOrderCounts(l, text, items, c);
    ZonesPartition(l, ByPosition(text), c);
    MarkerCounts(l, text, items, c);
    hide *;
  }

  /** A channel is in the managed list iff it is in the managed zone or is a managed marker. */
  lemma ManagedZone(l: Layout, text: seq<Child>, items: seq<Item>, c: Chan)
    requires DistinctIds(text) && LayoutFits(l, text, items)
    ensures c in AllManaged(text, items) <==> exists k :: k in text && k.chan == c && c.id in l.managed
    ensures c in InZone(l, ByPosition(text), MANAGED) <==>
            c in AllManaged(text, items) && c.id != l.current.chan.id && c.id != l.next.chan.id
    ensures c in InZone(l, ByPosition(text), TIED) <==> exists k :: k in text && k.chan == c && ZoneOf(l, k) == TIED
    ensures c in InZone(l, ByPosition(text), TIED) ==> c !in AllManaged(text, items)
  {
    OrderedText(text);
    AllManagedAre(text, items);
    hide InZone, AllManaged;
    if exists k :: k in text && k.chan == c && c.id in l.managed {
      var k :| k in text && k.chan == c && c.id in l.managed;
      var i :| i in items && i.bucket != ARCHIVE && i.channelId == c.id;
      FoundById(text, k);
    }
  }

  lemma FoundById(text: seq<Child>, k: Child)
    requires DistinctIds(text) && k in text
    ensures ById(text, k.chan.id) == Some(k.chan)
  {
    var found := ById(text, k.chan.id);
    if found.Some? {
      var m :| m in text && m.chan == found.value;
      IdIdentifies(text, k, m);
    }
  }

  /**
   * The planned order is a permutation of the live channels exactly when no
   * unmanaged channel is level with a marker, no marker is managed and no
   * channel is managed twice.
   */
  lemma PermutationIffClean(l: Layout, text: seq<Child>, items: seq<Item>)
    requires DistinctIds(text) && LayoutFits(l, text, items)
    ensures multiset(FinalOrder(l, text, items)) == multiset(ChansOf(ByPosition(text))) <==> Clean(l, text, items)
  {
    if Clean(l, text, items) {
      CleanPermutes(l, text, items);
    }
    if multiset(FinalOrder(l, text, items)) == multiset(ChansOf(ByPosition(text))) {
      PermutesClean(l, text, items);
    }
  }

  lemma CleanZone(l: Layout, text: seq<Child>, items: seq<Item>)
    requires DistinctIds(text) && LayoutFits(l, text, items) && Clean(l, text, items)
    ensures multiset(AllManaged(text, items)) == multiset(InZone(l, ByPosition(text), MANAGED))
    ensures forall c :: c !in InZone(l, ByPosition(text), TIED)
  {
    var managed, zone := AllManaged(text, items), InZone(l, ByPosition(text), MANAGED);
    OrderedText(text);
    ZoneDistinct(l, ByPosition(text), MANAGED);
    hide AllManaged, InZone, ByPosition;
    forall c
      ensures c in managed <==> c in zone
      ensures c !in InZone(l, ByPosition(text), TIED)
    {
      ManagedZone(l, text, items, c);
    }
    SameElements(managed, zone);
  }

  lemma CleanPermutes(l: Layout, text: seq<Child>, items: seq<Item>)
    requires DistinctIds(text) && LayoutFits(l, text, items) && Clean(l, text, items)
    ensures multiset(FinalOrder(l, text, items)) == multiset(ChansOf(ByPosition(text)))
  {
    forall c ensures multiset(FinalOrder(l, text, items))[c] == multiset(ChansOf(ByPosition(text)))[c] {
      CleanCounts(l, text, items, c);
    }
    SameCounts(FinalOrder(l, text, items), ChansOf(ByPosition(text)));
  }

  lemma CleanCounts(l: Layout, text: seq<Child>, items: seq<Item>, c: Chan)
    requires DistinctIds(text) && LayoutFits(l, text, items) && Clean(l, text, items)
    ensures multiset(FinalOrder(l, text, items))[c] == multiset(ChansOf(ByPosition(text)))[c]
  {
    CountsCompared(l, text, items, c);
    hide FinalOrder, ByPosition, ChansOf, Clean;
    CleanZone(l, text, items);
    AbsentCounts(InZone(l, ByPosition(text), TIED), c);
    hide InZone, AllManaged;
  }

  lemma AbsentCounts(s: seq<Chan>, c: Chan)
    requires c !in s
    ensures multiset(s)[c] == 0
  {
  }

  lemma SameCounts(s: seq<Chan>, t: seq<Chan>)
    requires forall c :: multiset(s)[c] == multiset(t)[c]
    ensures multiset(s) == multiset(t)
  {
  }

  lemma PermutesOnce(l: Layout, text: seq<Child>, items: seq<Item>, c: Chan)
    requires DistinctIds(text) && LayoutFits(l, text, items)
    requires multiset(FinalOrder(l, text, items)) == multiset(ChansOf(ByPosition(text)))
    ensures c !in InZone(l, ByPosition(text), TIED)
    ensures multiset(AllManaged(text, items))[c] <= 1
    ensures c in AllManaged(text, items) ==> c in InZone(l, ByPosition(text), MANAGED)
  {
    OrderedText(text);
    ZoneDistinct(l, ByPosition(text), MANAGED);
    CountsCompared(l, text, items, c);
    ManagedZone(l, text, items, c);
    OnceInDistinct(InZone(l, ByPosition(text), MANAGED), c);
    hide FinalOrder, AllManaged, InZone, ByPosition;
  }

  lemma PermutesClean(l: Layout, text: seq<Child>, items: seq<Item>)
    requires DistinctIds(text) && LayoutFits(l, text, items)
    requires multiset(FinalOrder(l, text, items)) == multiset(ChansOf(ByPosition(text)))
    ensures Clean(l, text, items)
  {
    var managed := AllManaged(text, items);
    hide FinalOrder, AllManaged, InZone, ByPosition;
    forall c ensures multiset(managed)[c] <= 1 {
      PermutesOnce(l, text, items, c);
    }
    OnceMeansDistinct(managed);
    forall k | k in text ensures ZoneOf(l, k) != TIED {
      PermutesOnce(l, text, items, k.chan);
      ManagedZone(l, text, items, k.chan);
    }
    forall c | c in managed ensures c.id != l.current.chan.id && c.id != l.next.chan.id {
      PermutesOnce(l, text, items, c);
      ManagedZone(l, text, items, c);
    }
  }
}
