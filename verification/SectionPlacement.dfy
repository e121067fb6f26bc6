/**
 * Where the planner puts each channel, in terms of the listing and the items:
 * the Runs of each week under their marker in time order, everything else on
 * the side of the markers where it stood.
 */
module SectionPlacement {
  import opened Prelude
  import opened Sorting
  import opened SectionOrder
  import opened SectionPermutation
  import opened SectionFixpoint
  import opened SectionSettled
  import opened SectionPolling

  // ---------------------------------------------------------------------
  // What is promised
  // ---------------------------------------------------------------------

  /** `c` stands strictly between two indices. */
  ghost predicate Within(order: seq<Chan>, c: Chan, lo: int, hi: int) {
    exists j :: lo < j < hi && 0 <= j < |order| && order[j] == c
  }

  predicate IsText(children: seq<Child>, k: Child) {
    k in children && !k.voice
  }

  /** Every existing channel of the bucket's items stands strictly between two indices. */
  ghost predicate BucketWithin(children: seq<Child>, items: seq<Item>, b: Bucket, order: seq<Chan>, lo: int, hi: int) {
    forall i, k :: i in items && i.bucket == b && IsText(children, k) && k.chan.id == i.channelId ==>
      Within(order, k.chan, lo, hi)
  }

  /** A text channel that is neither a marker nor any Run's. */
  ghost predicate Unrelated(children: seq<Child>, env: Env, items: seq<Item>, k: Child) {
    && IsText(children, k) && env.currentMarker != Some(k.chan.id) && env.nextMarker != Some(k.chan.id)
    && forall i :: i in items && i.bucket != ARCHIVE ==> i.channelId != k.chan.id
  }

  /** The minute a channel has in its section: its item's for a Run's channel, else the one its name carries. */
  ghost predicate TimeIn(items: seq<Item>, b: Bucket, c: Chan, minute: int) {
    || (exists i :: i in items && i.bucket == b && i.channelId == c.id && i.minute == minute)
    || ((forall i :: i in items && i.bucket != ARCHIVE ==> i.channelId != c.id) && c.minute == Some(minute))
  }

  /** From `lo` to `hi` the timed channels come first, by minute. */
  ghost predicate TimeOrder(items: seq<Item>, b: Bucket, order: seq<Chan>, lo: int, hi: int) {
    forall u, v :: lo < u < v < hi && 0 <= u && v < |order| ==> Precedes(items, b, order[u], order[v])
  }

  /** `c`'s item starts no later than `d`'s, the Run id deciding between equal starts. */
  ghost predicate StartsBefore(items: seq<Item>, b: Bucket, c: Chan, d: Chan) {
    forall i, j :: i in items && i.bucket == b && i.channelId == c.id && j in items && j.bucket == b && j.channelId == d.id ==>
      i.startAt < j.startAt || (i.startAt == j.startAt && i.runId.rank <= j.runId.rank)
  }

  /**
   * If `d` is timed, so is `c`, and no later; at one minute the Runs' own
   * channels come first, by their start.
   */
  ghost predicate Precedes(items: seq<Item>, b: Bucket, c: Chan, d: Chan) {
    forall late :: TimeIn(items, b, d, late) ==>
      && (exists early :: TimeIn(items, b, c, early))
      && forall early :: TimeIn(items, b, c, early) ==>
           early <= late
           && (early == late && d.id in ManagedIds(items) ==> c.id in ManagedIds(items) && StartsBefore(items, b, c, d))
  }

  // ---------------------------------------------------------------------
  // One section
  // ---------------------------------------------------------------------

  lemma ScheduledHas(items: seq<Item>, b: Bucket)
    ensures forall i :: i in Scheduled(items, b) <==> i in items && i.bucket == b
  {
    SortPermutes(ItemsIn(items, b), ScheduleLe);
  }

  /** Without a channel managed twice, each channel found belongs to one item of the section. */
  lemma {:induction false} OneItemEach(s: seq<Item>, text: seq<Child>, q: nat, r: nat)
    requires Distinct(ManagedChans(s, text)) && q < r < |s|
    requires ById(text, s[q].channelId).Some?
    ensures s[q].channelId != s[r].channelId
  {
    var n := |s| - 1;
    ManagedSnoc(s, text);
    ManagedChansAre(s[..n], text);
    if r == n {
      assert s[..n][q] == s[q] && s[q] in s[..n];
      if s[q].channelId == s[n].channelId {
        LastTwice(ManagedChans(s[..n], text), ById(text, s[n].channelId).value);
        assert false;
      }
    } else {
      DistinctPrefix(ManagedChans(s[..n], text), ManagedChans(s, text));
      OneItemEach(s[..n], text, q, r);
    }
  }

  lemma ManagedSnoc(s: seq<Item>, text: seq<Child>)
    requires s != []
    ensures var n, found := |s| - 1, ById(text, s[|s| - 1].channelId);
            && (found.Some? ==> ManagedChans(s, text) == ManagedChans(s[..n], text) + [found.value])
            && (found.None? ==> ManagedChans(s, text) == ManagedChans(s[..n], text))
  {
    var n := |s| - 1;
    var found := ById(text, s[n].channelId);
    if found.Some? {
      ChansSnoc(ManagedEntries(s[..n], text), Entry(found.value, s[n].minute, 0, n));
    }
  }

  lemma LastTwice(chans: seq<Chan>, c: Chan)
    requires c in chans
    ensures !Distinct(chans + [c])
  {
    var i :| 0 <= i < |chans| && chans[i] == c;
    assert (chans + [c])[i] == (chans + [c])[|chans|];
  }

  lemma DistinctPrefix(part: seq<Chan>, whole: seq<Chan>)
    requires part <= whole && Distinct(whole)
    ensures Distinct(part)
  {
  }

  /** A managed entry's channel has one item in the section: the one at its index. */
  lemma EntryItem(items: seq<Item>, b: Bucket, text: seq<Child>, us: seq<Chan>, e: Entry)
    requires b != ARCHIVE && Distinct(ManagedChans(Scheduled(items, b), text))
    requires e in SortedEntries(Scheduled(items, b), text, us) && e.rank == 0
    ensures 0 <= e.index < |Scheduled(items, b)| && e.minute == Scheduled(items, b)[e.index].minute
    ensures Scheduled(items, b)[e.index].channelId == e.chan.id && e.chan.id in ManagedIds(items)
    ensures forall i :: i in items && i.bucket == b && i.channelId == e.chan.id <==> i == Scheduled(items, b)[e.index]
  {
    var s := Scheduled(items, b);
    SectionInTimeOrder(s, text, us);
    ScheduledHas(items, b);
    hide SortedEntries, ManagedChans, Scheduled;
    var own := s[e.index];
    assert own in s;
    forall i | i in items && i.bucket == b && i.channelId == e.chan.id ensures i == own {
      var q :| 0 <= q < |s| && s[q] == i;
      if q < e.index {
        OneItemEach(s, text, q, e.index);
      } else if e.index < q {
        OneItemEach(s, text, e.index, q);
      }
    }
  }

  /** An entry's minute is the one its channel has in the section. */
  lemma EntryTime(items: seq<Item>, b: Bucket, text: seq<Child>, us: seq<Chan>, e: Entry, minute: int)
    requires b != ARCHIVE && Distinct(ManagedChans(Scheduled(items, b), text))
    requires forall c :: c in us ==> c.id !in ManagedIds(items)
    requires e in SortedEntries(Scheduled(items, b), text, us)
    ensures TimeIn(items, b, e.chan, minute) <==> minute == e.minute
  {
    SectionInTimeOrder(Scheduled(items, b), text, us);
    hide SortedEntries, ManagedChans, Scheduled;
    if e.rank == 0 {
      EntryItem(items, b, text, us, e);
      assert Scheduled(items, b)[e.index] in items;
    } else {
      assert e.chan.id !in ManagedIds(items);
    }
  }

  lemma EntriesStart(items: seq<Item>, b: Bucket, text: seq<Child>, us: seq<Chan>, e: Entry, f: Entry)
    requires b != ARCHIVE && Distinct(ManagedChans(Scheduled(items, b), text))
    requires e in SortedEntries(Scheduled(items, b), text, us) && f in SortedEntries(Scheduled(items, b), text, us)
    requires e.rank == f.rank == 0 && e.index <= f.index
    ensures StartsBefore(items, b, e.chan, f.chan)
  {
    EntryItem(items, b, text, us, e);
    EntryItem(items, b, text, us, f);
    ScheduleOrderTotal();
    SortSorts(ItemsIn(items, b), ScheduleLe);
    hide SortedEntries, ManagedChans;
    var s := Scheduled(items, b);
    assert e.index < f.index ==> ScheduleLe(s[e.index], s[f.index]);
  }

  lemma ScheduleOrderTotal()
    ensures TotalPreorder(ScheduleLe)
  {
  }

  /** A section is in time order. */
  lemma SectionTimes(items: seq<Item>, b: Bucket, text: seq<Child>, us: seq<Chan>)
    requires b != ARCHIVE && Distinct(ManagedChans(Scheduled(items, b), text))
    requires forall c :: c in us ==> c.id !in ManagedIds(items)
    ensures var section := SortSection(Scheduled(items, b), text, us);
            TimeOrder(items, b, section, -1, |section|)
  {
    var s := SortedEntries(Scheduled(items, b), text, us);
    var section := SortSection(Scheduled(items, b), text, us);
    SectionInTimeOrder(Scheduled(items, b), text, us);
    hide SortedEntries, SortSection, TimeIn, ById;
    forall u, v | -1 < u < v < |section| ensures Precedes(items, b, section[u], section[v]) {
      if v >= |s| {
        assert section[v] == Untimed(us)[v - |s|] && section[v] in Untimed(us);
        UntimedHasNoTime(items, b, section[v], us);
      } else {
        assert s[v] in s && s[u] in s && section[v] == s[v].chan && section[u] == s[u].chan;
        EntriesPrecede(items, b, text, us, s[u], s[v]);
      }
    }
  }

  lemma EntriesPrecede(items: seq<Item>, b: Bucket, text: seq<Child>, us: seq<Chan>, e: Entry, f: Entry)
    requires b != ARCHIVE && Distinct(ManagedChans(Scheduled(items, b), text))
    requires forall c :: c in us ==> c.id !in ManagedIds(items)
    requires e in SortedEntries(Scheduled(items, b), text, us) && f in SortedEntries(Scheduled(items, b), text, us)
    requires EarlierEntry(e, f)
    ensures Precedes(items, b, e.chan, f.chan)
  {
    ScheduledManaged(items, b);
    EntriesSplit(Scheduled(items, b), text, us, ManagedIds(items));
    hide TimeIn, SortedEntries, ManagedIds, StartsBefore, ManagedChans, Scheduled;
    EntryTime(items, b, text, us, e, e.minute);
    if e.rank == 0 && f.rank == 0 && e.index <= f.index {
      EntriesStart(items, b, text, us, e, f);
    }
    forall late, early | TimeIn(items, b, f.chan, late) && TimeIn(items, b, e.chan, early)
      ensures early <= late
      ensures early == late && f.chan.id in ManagedIds(items) ==>
                e.chan.id in ManagedIds(items) && StartsBefore(items, b, e.chan, f.chan)
    {
      EntryTime(items, b, text, us, f, late);
      EntryTime(items, b, text, us, e, early);
    }
  }

  lemma UntimedHasNoTime(items: seq<Item>, b: Bucket, c: Chan, us: seq<Chan>)
    requires b != ARCHIVE && c in us && c.minute.None? && forall x :: x in us ==> x.id !in ManagedIds(items)
    ensures forall minute :: !TimeIn(items, b, c, minute)
  {
    assert c.id !in ManagedIds(items);
  }

  // ---------------------------------------------------------------------
  // The whole plan
  // ---------------------------------------------------------------------

  /** The parts of the planned order as stretches of it. */
  lemma InPart(p: Parts, c: Chan)
    ensures c in p.before ==> Within(p.Order(), c, -1, |p.before|)
    ensures c in p.currents ==> Within(p.Order(), c, |p.before|, p.NextAt())
    ensures c in p.nexts ==> Within(p.Order(), c, p.NextAt(), |p.Order()|)
  {
    var order := p.Order();
    if c in p.before {
      var i :| 0 <= i < |p.before| && p.before[i] == c;
      assert order[i] == c;
    }
    if c in p.currents {
      var i :| 0 <= i < |p.currents| && p.currents[i] == c;
      assert order[|p.before| + 1 + i] == c;
    }
    if c in p.nexts {
      var i :| 0 <= i < |p.nexts| && p.nexts[i] == c;
      assert order[p.NextAt() + 1 + i] == c;
    }
  }

  /** Time order of a part is time order of its stretch. */
  lemma PartTimes(p: Parts, items: seq<Item>, b: Bucket)
    ensures TimeOrder(items, b, p.currents, -1, |p.currents|) ==> TimeOrder(items, b, p.Order(), |p.before|, p.NextAt())
    ensures TimeOrder(items, b, p.nexts, -1, |p.nexts|) ==> TimeOrder(items, b, p.Order(), p.NextAt(), |p.Order()|)
  {
    hide Precedes;
    var order, a, z := p.Order(), |p.before|, p.NextAt();
    if TimeOrder(items, b, p.currents, -1, |p.currents|) {
      forall u, v | a < u < v < z ensures Precedes(items, b, order[u], order[v]) {
        assert order[u] == p.currents[u - a - 1] && order[v] == p.currents[v - a - 1];
      }
    }
    if TimeOrder(items, b, p.nexts, -1, |p.nexts|) {
      forall u, v | z < u < v < |order| ensures Precedes(items, b, order[u], order[v]) {
        assert order[u] == p.nexts[u - z - 1] && order[v] == p.nexts[v - z - 1];
      }
    }
  }

  /** The sections of a clean listing hold no channel twice. */
  lemma CleanSections(l: Layout, text: seq<Child>, items: seq<Item>)
    requires Clean(l, text, items)
    ensures Distinct(ManagedChans(Scheduled(items, CURRENT), text))
    ensures Distinct(ManagedChans(Scheduled(items, NEXT), text))
  {
    DistinctParts(ManagedChans(Scheduled(items, CURRENT), text), ManagedChans(Scheduled(items, NEXT), text));
    hide ManagedChans, Scheduled;
  }

  lemma DistinctParts(s: seq<Chan>, t: seq<Chan>)
    ensures Distinct(s + t) ==> Distinct(s) && Distinct(t)
  {
    var all := s + t;
    if Distinct(all) {
      forall i, j | 0 <= i < j < |s| ensures s[i] != s[j] {
        assert all[i] != all[j];
      }
      forall i, j | 0 <= i < j < |t| ensures t[i] != t[j] {
        assert all[|s| + i] != all[|s| + j];
      }
    }
  }

  lemma ZoneInSection(items: seq<Item>, text: seq<Child>, us: seq<Chan>, c: Chan)
    requires c in us
    ensures c in SortSection(items, text, us)
  {
    SectionPermutes(items, text, us, c);
    assert c in multiset(us);
    assert c in multiset(SortSection(items, text, us));
  }

  /** The planned order with its two marker indices, as the listing and the items determine it. */
  ghost predicate WellPlaced(children: seq<Child>, env: Env, items: seq<Item>, order: seq<Chan>, a: int, b: int) {
    && 0 <= a < b < |order| && env.currentMarker == Some(order[a].id) && env.nextMarker == Some(order[b].id)
    && BucketWithin(children, items, CURRENT, order, a, b) && BucketWithin(children, items, NEXT, order, b, |order|)
    && TimeOrder(items, CURRENT, order, a, b) && TimeOrder(items, NEXT, order, b, |order|)
    && SidesKept(children, env, items, order, a, b)
  }

  predicate IsMarker(children: seq<Child>, id: Option<Id>, m: Child) {
    IsText(children, m) && id == Some(m.chan.id)
  }

  /** `k` stands on the side of the markers `m` and `n` that its position says. */
  ghost predicate OnSide(order: seq<Chan>, k: Child, m: Child, n: Child, a: int, b: int) {
    && (k.position < m.position ==> Within(order, k.chan, -1, a))
    && (m.position < k.position < n.position ==> Within(order, k.chan, a, b))
    && (n.position < k.position ==> Within(order, k.chan, b, |order|))
  }

  /** Other channels stay on their side of the markers. */
  ghost predicate SidesKept(children: seq<Child>, env: Env, items: seq<Item>, order: seq<Chan>, a: int, b: int) {
    forall m, n, k ::
      (IsMarker(children, env.currentMarker, m) && IsMarker(children, env.nextMarker, n) && Unrelated(children, env, items, k))
      ==> OnSide(order, k, m, n, a, b)
  }

  lemma BucketInPart(children: seq<Child>, items: seq<Item>, b: Bucket, us: seq<Chan>)
    requires DistinctIds(TextChildren(children))
    ensures forall i, k :: i in items && i.bucket == b && IsText(children, k) && k.chan.id == i.channelId ==>
                             k.chan in SortSection(Scheduled(items, b), TextChildren(children), us)
  {
    hide SortSection, Scheduled;
    var text := TextChildren(children);
    forall i, k | i in items && i.bucket == b && IsText(children, k) && k.chan.id == i.channelId
      ensures k.chan in SortSection(Scheduled(items, b), text, us)
    {
      FoundById(text, k);
      ManagedInSection(items, b, text, us, i);
    }
  }

  /** A channel of a zone is in the part planned from it. */
  lemma ZonePart(l: Layout, text: seq<Child>, items: seq<Item>, k: Child)
    requires k in ByPosition(text)
    ensures var p := PartsOf(l, text, items);
            && (ZoneOf(l, k) == BEFORE ==> k.chan in p.before)
            && (ZoneOf(l, k) == BETWEEN ==> k.chan in p.currents)
            && (ZoneOf(l, k) == AFTER ==> k.chan in p.nexts)
  {
    hide ByPosition, SortSection, Scheduled, ZoneOf;
    var ordered := ByPosition(text);
    if ZoneOf(l, k) == BETWEEN {
      ZoneInSection(Scheduled(items, CURRENT), text, InZone(l, ordered, BETWEEN), k.chan);
    } else if ZoneOf(l, k) == AFTER {
      ZoneInSection(Scheduled(items, NEXT), text, InZone(l, ordered, AFTER), k.chan);
    }
  }

  lemma SideOf(text: seq<Child>, items: seq<Item>, l: Layout, k: Child)
    requires k in ByPosition(text) && l.current.position < l.next.position
    requires k.chan.id != l.current.chan.id && k.chan.id != l.next.chan.id && k.chan.id !in l.managed
    ensures var p := PartsOf(l, text, items);
            OnSide(p.Order(), k, l.current, l.next, |p.before|, p.NextAt())
  {
    hide ByPosition, PartsOf, Within;
    ZonePart(l, text, items, k);
    InPart(PartsOf(l, text, items), k.chan);
  }

  lemma UnrelatedFacts(children: seq<Child>, env: Env, items: seq<Item>, l: Layout, k: Child)
    requires DistinctIds(TextChildren(children)) && LayoutOf(TextChildren(children), env, items) == Some(l)
    requires Unrelated(children, env, items, k)
    ensures k in ByPosition(TextChildren(children))
    ensures k.chan.id != l.current.chan.id && k.chan.id != l.next.chan.id && k.chan.id !in l.managed
  {
    LayoutFound(TextChildren(children), env, items);
    OrderedText(TextChildren(children));
    hide ByPosition, LayoutOf, DistinctIds;
  }

  lemma MarkerIs(children: seq<Child>, env: Env, items: seq<Item>, l: Layout, m: Child, n: Child)
    requires DistinctIds(TextChildren(children)) && LayoutOf(TextChildren(children), env, items) == Some(l)
    requires IsMarker(children, env.currentMarker, m) && IsMarker(children, env.nextMarker, n)
    ensures m == l.current && n == l.next && m.position < n.position
  {
    LayoutFound(TextChildren(children), env, items);
    hide LayoutOf;
    IdIdentifies(TextChildren(children), m, l.current);
    IdIdentifies(TextChildren(children), n, l.next);
  }

  lemma SidesOf(children: seq<Child>, env: Env, items: seq<Item>, l: Layout)
    requires DistinctIds(TextChildren(children)) && LayoutOf(TextChildren(children), env, items) == Some(l)
    ensures var p := PartsOf(l, TextChildren(children), items);
            SidesKept(children, env, items, p.Order(), |p.before|, p.NextAt())
  {
    hide PartsOf, OnSide, LayoutOf, DistinctIds, Unrelated, IsMarker, TextChildren, ByPosition;
    var text := TextChildren(children);
    var p := PartsOf(l, text, items);
    forall m, n, k | IsMarker(children, env.currentMarker, m) && IsMarker(children, env.nextMarker, n)
                     && Unrelated(children, env, items, k)
      ensures OnSide(p.Order(), k, m, n, |p.before|, p.NextAt())
    {
      MarkerIs(children, env, items, l, m, n);
      UnrelatedFacts(children, env, items, l, k);
      SideOf(text, items, l, k);
    }
  }

  lemma BucketsPlaced(children: seq<Child>, items: seq<Item>, l: Layout)
    requires DistinctIds(TextChildren(children))
    ensures var p := PartsOf(l, TextChildren(children), items);
            && BucketWithin(children, items, CURRENT, p.Order(), |p.before|, p.NextAt())
            && BucketWithin(children, items, NEXT, p.Order(), p.NextAt(), |p.Order()|)
  {
    var text, ordered := TextChildren(children), ByPosition(TextChildren(children));
    var p := PartsOf(l, text, items);
    BucketInPart(children, items, CURRENT, InZone(l, ordered, BETWEEN));
    BucketInPart(children, items, NEXT, InZone(l, ordered, AFTER));
    hide Within, InZone, SortSection, Scheduled, ByPosition, TextChildren;
    forall c
      ensures c in p.currents ==> Within(p.Order(), c, |p.before|, p.NextAt())
      ensures c in p.nexts ==> Within(p.Order(), c, p.NextAt(), |p.Order()|)
    {
      InPart(p, c);
    }
  }

  lemma TimesPlaced(l: Layout, text: seq<Child>, items: seq<Item>)
    requires Clean(l, text, items) && l.managed == ManagedIds(items)
    ensures var p := PartsOf(l, text, items);
            && TimeOrder(items, CURRENT, p.Order(), |p.before|, p.NextAt())
            && TimeOrder(items, NEXT, p.Order(), p.NextAt(), |p.Order()|)
  {
    var p, ordered := PartsOf(l, text, items), ByPosition(text);
    hide TimeOrder, InZone, SortSection, Scheduled, ByPosition, Clean, ManagedIds;
    CleanSections(l, text, items);
    ZoneUnmanaged(l, ordered, BETWEEN);
    ZoneUnmanaged(l, ordered, AFTER);
    SectionTimes(items, CURRENT, text, InZone(l, ordered, BETWEEN));
    SectionTimes(items, NEXT, text, InZone(l, ordered, AFTER));
    PartTimes(p, items, CURRENT);
    PartTimes(p, items, NEXT);
  }

  /**
   * In the plan of a clean listing the CURRENT Runs' channels stand between the
   * two markers and the NEXT Runs' after the second one, both in time order,
   * and every other channel stays on its side of the markers.
   */
  lemma PlanPlaces(children: seq<Child>, env: Env, items: seq<Item>) returns (a: nat, b: nat)
    requires CleanListing(children, env, items) && PlanOf(children, env, items).Planned?
    ensures WellPlaced(children, env, items, PlanOf(children, env, items).order, a, b)
  {
    var text := TextChildren(children);
    var l := LayoutOf(text, env, items).value;
    LayoutFound(text, env, items);
    hide TimeOrder, SidesKept, BucketWithin, Clean, FinalOrder, LayoutOf;
    BucketsPlaced(children, items, l);
    TimesPlaced(l, text, items);
    SidesOf(children, env, items, l);
    var p := PartsOf(l, text, items);
    PartsAt(p);
    MarkersOf(l, text, items);
    a, b := |p.before|, p.NextAt();
  }

  ghost predicate MarkersInOrder(children: seq<Child>, env: Env) {
    exists m, n :: IsMarker(children, env.currentMarker, m) && IsMarker(children, env.nextMarker, n) && m.position < n.position
  }

  /** A plan is made exactly when the category is set and holds both markers, the current one first. */
  lemma PlannedIffMarkers(children: seq<Child>, env: Env, items: seq<Item>)
    requires DistinctIds(TextChildren(children))
    ensures PlanOf(children, env, items).Planned? <==> env.category.Some? && MarkersInOrder(children, env)
  {
    hide FinalOrder, DistinctIds;
    var text := TextChildren(children);
    if env.category.Some? && MarkersInOrder(children, env) {
      var m, n :| IsMarker(children, env.currentMarker, m) && IsMarker(children, env.nextMarker, n) && m.position < n.position;
      IdIdentifies(text, m, FindChild(text, m.chan.id).value);
      IdIdentifies(text, n, FindChild(text, n.chan.id).value);
    }
    if LayoutOf(text, env, items).Some? {
      var l := LayoutOf(text, env, items).value;
      assert IsMarker(children, env.currentMarker, l.current) && IsMarker(children, env.nextMarker, l.next);
    }
  }

  lemma MarkersOf(l: Layout, text: seq<Child>, items: seq<Item>)
    ensures var p := PartsOf(l, text, items);
            p.current == l.current.chan && p.next == l.next.chan
  {
  }
}
