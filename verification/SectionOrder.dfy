/**
 * The single planner of the CURRENT / NEXT channel order
 * (`planWeekSectionOrder`, `sortSectionByTime`). Weekday and time parsing is
 * abstracted: a channel name and a schedule give a minute of the raid week.
 */
module SectionOrder {
  import opened Prelude
  import opened Sorting

  /** A channel and the time its name carries, if any. */
  datatype Chan = Chan(id: Id, minute: Option<int>)

  datatype Child = Child(chan: Chan, position: int, voice: bool)

  datatype Bucket = CURRENT | NEXT | ARCHIVE

  datatype Item = Item(runId: Id, channelId: Id, bucket: Bucket, startAt: int, minute: int)

  datatype Env = Env(category: Option<Id>, currentMarker: Option<Id>, nextMarker: Option<Id>)

  // ---------------------------------------------------------------------
  // One section
  // ---------------------------------------------------------------------

  datatype Entry = Entry(chan: Chan, minute: int, rank: int, index: int)

  /** By minute, then BoostingHub's own channels, then previous order. */
  predicate EntryLe(a: Entry, b: Entry) {
    if a.minute != b.minute then a.minute < b.minute
    else if a.rank != b.rank then a.rank < b.rank
    else a.index <= b.index
  }

  function ById(text: seq<Child>, id: Id): (c: Option<Chan>)
    ensures c.Some? ==> c.value.id == id && exists k :: k in text && k.chan == c.value
    ensures c.None? ==> forall k :: k in text ==> k.chan.id != id
  {
    if text == [] then None
    else
      var n := |text| - 1;
      if text[n].chan.id == id then Some(text[n].chan) else ById(text[..n], id)
  }

  function ManagedEntries(items: seq<Item>, text: seq<Child>): seq<Entry> {
    if items == [] then []
    else
      var n := |items| - 1;
      var found := ById(text, items[n].channelId);
      ManagedEntries(items[..n], text) + if found.Some? then [Entry(found.value, items[n].minute, 0, n)] else []
  }

  function UnmanagedEntries(us: seq<Chan>): seq<Entry> {
    if us == [] then []
    else
      var n := |us| - 1;
      UnmanagedEntries(us[..n]) + if us[n].minute.Some? then [Entry(us[n], us[n].minute.value, 1, n)] else []
  }

  function Untimed(us: seq<Chan>): (untimed: seq<Chan>)
    ensures forall c :: c in untimed <==> c in us && c.minute.None?
  {
    if us == [] then []
    else
      var n := |us| - 1;
      Untimed(us[..n]) + if us[n].minute.None? then [us[n]] else []
  }

  function Chans(entries: seq<Entry>): seq<Chan> {
    seq(|entries|, i requires 0 <= i < |entries| => entries[i].chan)
  }

  function SortedEntries(items: seq<Item>, text: seq<Child>, us: seq<Chan>): seq<Entry> {
    SortBy(ManagedEntries(items, text) + UnmanagedEntries(us), EntryLe)
  }

  function SortSection(items: seq<Item>, text: seq<Child>, us: seq<Chan>): seq<Chan> {
    Chans(SortedEntries(items, text, us)) + Untimed(us)
  }

  method SortSectionByTime(items: seq<Item>, text: seq<Child>, us: seq<Chan>) returns (section: seq<Chan>)
    ensures section == SortSection(items, text, us)
  {
    hide SortBy, Chans, ById;
    var timed: seq<Entry> := [];
    for i := 0 to |items|
      invariant timed == ManagedEntries(items[..i], text)
    {
      var found := ById(text, items[i].channelId);
      assert items[..i + 1][..i] == items[..i];
      if found.Some? {
        timed := timed + [Entry(found.value, items[i].minute, 0, i)];
      }
    }
    assert items[..|items|] == items;
    var untimed: seq<Chan> := [];
    for i := 0 to |us|
      invariant timed == ManagedEntries(items, text) + UnmanagedEntries(us[..i])
      invariant untimed == Untimed(us[..i])
    {
      assert us[..i + 1][..i] == us[..i];
      if us[i].minute.None? {
        untimed := untimed + [us[i]];
      } else {
        timed := timed + [Entry(us[i], us[i].minute.value, 1, i)];
      }
    }
    assert us[..|us|] == us;
    section := Chans(SortBy(timed, EntryLe)) + untimed;
  }

  // ---------------------------------------------------------------------
  // The plan
  // ---------------------------------------------------------------------

  predicate ScheduleLe(a: Item, b: Item) {
    a.startAt < b.startAt || (a.startAt == b.startAt && a.runId.rank <= b.runId.rank)
  }

  function ItemsIn(items: seq<Item>, b: Bucket): (of: seq<Item>)
    ensures forall i :: i in of <==> i in items && i.bucket == b
  {
    if items == [] then []
    else (if items[0].bucket == b then [items[0]] else []) + ItemsIn(items[1..], b)
  }

  function Scheduled(items: seq<Item>, b: Bucket): seq<Item> {
    SortBy(ItemsIn(items, b), ScheduleLe)
  }

  function ManagedIds(items: seq<Item>): set<Id> {
    set i | i in items && i.bucket != ARCHIVE :: i.channelId
  }

  function TextChildren(children: seq<Child>): (text: seq<Child>)
    ensures forall c :: c in text <==> c in children && !c.voice
  {
    if children == [] then []
    else (if children[0].voice then [] else [children[0]]) + TextChildren(children[1..])
  }

  predicate PositionLe(a: Child, b: Child) {
    a.position <= b.position
  }

  function ByPosition(text: seq<Child>): seq<Child> {
    SortBy(text, PositionLe)
  }

  function FindChild(text: seq<Child>, id: Id): (c: Option<Child>)
    ensures c.Some? ==> c.value in text && c.value.chan.id == id
    ensures c.None? ==> forall k :: k in text ==> k.chan.id != id
  {
    if text == [] then None else if text[0].chan.id == id then Some(text[0]) else FindChild(text[1..], id)
  }

  /** Where a child belongs: a marker, a BoostingHub channel, one of the three zones, or level with a marker. */
  datatype Zone = MARKER | MANAGED | BEFORE | BETWEEN | AFTER | TIED

  datatype Layout = Layout(current: Child, next: Child, managed: set<Id>)

  function ZoneOf(l: Layout, c: Child): Zone {
    if c.chan.id == l.current.chan.id || c.chan.id == l.next.chan.id then MARKER
    else if c.chan.id in l.managed then MANAGED
    else if c.position < l.current.position then BEFORE
    else if l.current.position < c.position < l.next.position then BETWEEN
    else if c.position > l.next.position then AFTER
    else TIED
  }

  function InZone(l: Layout, ordered: seq<Child>, z: Zone): (zone: seq<Chan>)
    ensures forall c :: c in zone <==> exists k :: k in ordered && ZoneOf(l, k) == z && k.chan == c
  {
    if ordered == [] then []
    else
      var n := |ordered| - 1;
      InZone(l, ordered[..n], z) + if ZoneOf(l, ordered[n]) == z then [ordered[n].chan] else []
  }

  function ChansOf(children: seq<Child>): (chans: seq<Chan>)
    ensures |chans| == |children| && forall i :: 0 <= i < |children| ==> chans[i] == children[i].chan
  {
    seq(|children|, i requires 0 <= i < |children| => children[i].chan)
  }

  function FinalOrder(l: Layout, text: seq<Child>, items: seq<Item>): seq<Chan> {
    var ordered := ByPosition(text);
    InZone(l, ordered, BEFORE) + [l.current.chan]
    + SortSection(Scheduled(items, CURRENT), text, InZone(l, ordered, BETWEEN)) + [l.next.chan]
    + SortSection(Scheduled(items, NEXT), text, InZone(l, ordered, AFTER))
  }

  datatype Plan = Skipped | Planned(order: seq<Chan>, live: seq<Chan>) {
    predicate InOrder() {
      Planned? && order == live
    }
  }

  function LayoutOf(text: seq<Child>, env: Env, items: seq<Item>): Option<Layout> {
    if env.category.None? || env.currentMarker.None? || env.nextMarker.None? then None
    else
      var current, next := FindChild(text, env.currentMarker.value), FindChild(text, env.nextMarker.value);
      if current.None? || next.None? || current.value.position >= next.value.position then None
      else Some(Layout(current.value, next.value, ManagedIds(items)))
  }

  /** The planned and the live order of the text channels; skipped without both markers in order. */
  function PlanOf(children: seq<Child>, env: Env, items: seq<Item>): Plan {
    var text := TextChildren(children);
    match LayoutOf(text, env, items)
    case None => Skipped
    case Some(l) => Planned(FinalOrder(l, text, items), ChansOf(ByPosition(text)))
  }

  method PlanWeekSectionOrder(children: seq<Child>, env: Env, items: seq<Item>) returns (plan: Plan)
    ensures plan == PlanOf(children, env, items)
  {
    var text := TextChildren(children);
    var layout := LayoutOf(text, env, items);
    if layout.None? {
      return Skipped;
    }
    var l := layout.value;
    var ordered := ByPosition(text);
    var current := SortSectionByTime(Scheduled(items, CURRENT), text, InZone(l, ordered, BETWEEN));
    var next := SortSectionByTime(Scheduled(items, NEXT), text, InZone(l, ordered, AFTER));
    plan := Planned(InZone(l, ordered, BEFORE) + [l.current.chan] + current + [l.next.chan] + next, ChansOf(ordered));
  }

  /** How many channels change their index (`changedCount`). */
  function ChangedCount(plan: Plan): nat
    requires plan.Planned?
  {
    Differences(plan.order, plan.live, 0)
  }

  function Differences(order: seq<Chan>, live: seq<Chan>, i: nat): nat
    decreases |order| - i
  {
    if i >= |order| then 0
    else (if i < |live| && order[i] == live[i] then 0 else 1) + Differences(order, live, i + 1)
  }
}
