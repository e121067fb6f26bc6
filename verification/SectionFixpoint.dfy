/**
 * A faithfully applied plan is its own fixpoint: planning again with the same
 * items finds the channels already in order.
 */
module SectionFixpoint {
  import opened Prelude
  import opened Sorting
  import opened SectionOrder

  // ---------------------------------------------------------------------
  // The timed sort is stable under its own output
  // ---------------------------------------------------------------------

  function OfRank(s: seq<Entry>, rank: int): (r: seq<Entry>)
    ensures forall e :: e in r <==> e in s && e.rank == rank
  {
    if s == [] then []
    else
      var n := |s| - 1;
      OfRank(s[..n], rank) + if s[n].rank == rank then [s[n]] else []
  }

  /** The unmanaged channels of a sorted section, in the order shown. */
  function Foreign(s: seq<Entry>): seq<Chan> {
    Chans(OfRank(s, 1))
  }

  /** The entries the next planning pass makes of a sorted section. */
  function Reindexed(s: seq<Entry>): (r: seq<Entry>)
    ensures |r| == |s|
    ensures forall i :: 0 <= i < |s| ==> r[i].chan == s[i].chan && r[i].minute == s[i].minute && r[i].rank == s[i].rank
  {
    if s == [] then []
    else
      var n := |s| - 1;
      Reindexed(s[..n])
      + [if s[n].rank == 1 then s[n].(index := |OfRank(s[..n], 1)|) else s[n]]
  }

  ghost predicate Ranked(s: seq<Entry>) {
    forall e :: e in s ==> e.rank == 0 || (e.rank == 1 && e.chan.minute == Some(e.minute))
  }

  lemma {:induction false} OwnEntriesStay(s: seq<Entry>)
    ensures OfRank(Reindexed(s), 0) == OfRank(s, 0)
  {
    if s != [] {
      var n := |s| - 1;
      OwnEntriesStay(s[..n]);
      assert Reindexed(s)[..n] == Reindexed(s[..n]);
    }
  }

  lemma UnmanagedSnoc(us: seq<Chan>, c: Chan)
    ensures c.minute.Some? ==> UnmanagedEntries(us + [c]) == UnmanagedEntries(us) + [Entry(c, c.minute.value, 1, |us|)]
    ensures c.minute.Some? ==> Untimed(us + [c]) == Untimed(us)
    ensures c.minute.None? ==> UnmanagedEntries(us + [c]) == UnmanagedEntries(us)
    ensures c.minute.None? ==> Untimed(us + [c]) == Untimed(us) + [c]
  {
    assert (us + [c])[..|us|] == us;
  }

  lemma RankSnoc(s: seq<Entry>, rank: int)
    requires s != []
    ensures s[|s| - 1].rank == rank ==> OfRank(s, rank) == OfRank(s[..|s| - 1], rank) + [s[|s| - 1]]
    ensures s[|s| - 1].rank != rank ==> OfRank(s, rank) == OfRank(s[..|s| - 1], rank)
  {
  }

  lemma ReindexedSnoc(s: seq<Entry>)
    requires s != []
    ensures var n, r := |s| - 1, Reindexed(s);
            && r[..n] == Reindexed(s[..n])
            && r[n] == if s[n].rank == 1 then s[n].(index := |OfRank(s[..n], 1)|) else s[n]
  {
  }

  lemma ForeignSnoc(s: seq<Entry>)
    requires s != []
    ensures s[|s| - 1].rank == 1 ==> Foreign(s) == Foreign(s[..|s| - 1]) + [s[|s| - 1].chan]
    ensures s[|s| - 1].rank != 1 ==> Foreign(s) == Foreign(s[..|s| - 1])
  {
  }

  lemma {:induction false} ForeignEntries(s: seq<Entry>)
    requires Ranked(s)
    ensures UnmanagedEntries(Foreign(s)) == OfRank(Reindexed(s), 1)
  {
    if s != [] {
      var n := |s| - 1;
      ForeignEntries(s[..n]);
      ReindexedSnoc(s);
      RankSnoc(Reindexed(s), 1);
      ForeignSnoc(s);
      assert s[n] in s;
      UnmanagedSnoc(Foreign(s[..n]), s[n].chan);
      hide UnmanagedEntries, OfRank, Reindexed;
    }
  }

  lemma {:induction false} ForeignTimed(s: seq<Entry>)
    requires Ranked(s)
    ensures Untimed(Foreign(s)) == []
  {
    if s != [] {
      var n := |s| - 1;
      ForeignTimed(s[..n]);
      ForeignSnoc(s);
      assert s[n] in s;
      UnmanagedSnoc(Foreign(s[..n]), s[n].chan);
      hide Foreign;
    }
  }

  lemma AppendSnoc(us: seq<Chan>, rest: seq<Chan>)
    requires rest != []
    ensures us + rest == us + rest[..|rest| - 1] + [rest[|rest| - 1]]
  {
  }

  lemma {:induction false} AppendUntimed(us: seq<Chan>, rest: seq<Chan>)
    requires forall c :: c in rest ==> c.minute.None?
    ensures UnmanagedEntries(us + rest) == UnmanagedEntries(us)
  {
    if rest == [] {
      assert us + rest == us;
    } else {
      var n := |rest| - 1;
      AppendUntimed(us, rest[..n]);
      AppendSnoc(us, rest);
      UnmanagedSnoc(us + rest[..n], rest[n]);
      hide UnmanagedEntries;
    }
  }

  lemma {:induction false} UntimedAppended(us: seq<Chan>, rest: seq<Chan>)
    requires forall c :: c in rest ==> c.minute.None?
    requires Untimed(us) == []
    ensures Untimed(us + rest) == rest
  {
    if rest == [] {
      assert us + rest == us;
    } else {
      var n := |rest| - 1;
      UntimedAppended(us, rest[..n]);
      AppendSnoc(us, rest);
      UnmanagedSnoc(us + rest[..n], rest[n]);
      assert rest == rest[..n] + [rest[n]];
      hide Untimed;
    }
  }

  lemma {:induction false} ReindexedSorted(s: seq<Entry>)
    requires Sorted(s, EntryLe)
    ensures Sorted(Reindexed(s), EntryLe)
  {
    if s != [] {
      var n := |s| - 1;
      ReindexedSorted(s[..n]);
      var r := Reindexed(s);
      forall i | 0 <= i < n ensures EntryLe(r[i], r[n]) {
        assert EntryLe(s[i], s[n]);
        if s[i].rank != 1 {
          ReindexedOwn(s[..n], i);
        } else {
          ReindexedBelow(s[..n], i);
        }
      }
      assert r[..n] == Reindexed(s[..n]);
    }
  }

  lemma {:induction false} ReindexedOwn(s: seq<Entry>, i: nat)
    requires i < |s| && s[i].rank != 1
    ensures Reindexed(s)[i] == s[i]
  {
    if i < |s| - 1 {
      ReindexedOwn(s[..|s| - 1], i);
    }
  }

  lemma {:induction false} ReindexedBelow(s: seq<Entry>, i: nat)
    requires i < |s| && s[i].rank == 1
    ensures Reindexed(s)[i].index < |OfRank(s, 1)|
  {
    if i < |s| - 1 {
      ReindexedBelow(s[..|s| - 1], i);
    }
  }

  lemma {:induction false} RankCounts(s: seq<Entry>, rank: int, e: Entry)
    ensures multiset(OfRank(s, rank))[e] == if e.rank == rank then multiset(s)[e] else 0
  {
    if s != [] {
      var n := |s| - 1;
      assert s == s[..n] + [s[n]];
      RankCounts(s[..n], rank, e);
    }
  }

  lemma {:induction false} ManagedRanks(items: seq<Item>, text: seq<Child>)
    ensures forall e :: e in ManagedEntries(items, text) ==>
                          e.rank == 0 && 0 <= e.index < |items| && Some(e.chan) == ById(text, items[e.index].channelId)
                          && e.minute == items[e.index].minute
  {
    if items != [] {
      var n := |items| - 1;
      ManagedRanks(items[..n], text);
    }
  }

  lemma {:induction false} UnmanagedRanks(us: seq<Chan>)
    ensures forall e :: e in UnmanagedEntries(us) ==>
                          e.rank == 1 && 0 <= e.index < |us| && e.chan == us[e.index] && Some(e.minute) == e.chan.minute
  {
    if us != [] {
      UnmanagedRanks(us[..|us| - 1]);
    }
  }

  lemma EntryOrderTotal()
    ensures TotalPreorder(EntryLe)
  {
  }

  lemma EntryAppend(s: seq<Entry>, t: seq<Entry>, e: Entry)
    ensures multiset(s + t)[e] == multiset(s)[e] + multiset(t)[e]
  {
  }

  lemma EntryAbsent(s: seq<Entry>, e: Entry)
    requires e !in s
    ensures multiset(s)[e] == 0
  {
  }

  lemma ReindexedCounts(m: seq<Entry>, u: seq<Entry>, s: seq<Entry>, e: Entry)
    requires Ranked(s) && (forall e :: e in m ==> e.rank == 0) && (forall e :: e in u ==> e.rank == 1)
    requires multiset(s) == multiset(m + u)
    ensures multiset(Reindexed(s))[e] == multiset(m + UnmanagedEntries(Foreign(s)))[e]
  {
    var r, f := Reindexed(s), UnmanagedEntries(Foreign(s));
    ForeignEntries(s);
    OwnEntriesStay(s);
    RankCounts(r, e.rank, e);
    RankCounts(s, e.rank, e);
    EntryAppend(m, f, e);
    EntryAppend(m, u, e);
    assert multiset(s)[e] == multiset(m + u)[e];
    if e.rank == 0 {
      EntryAbsent(f, e);
      EntryAbsent(u, e);
    } else {
      EntryAbsent(m, e);
      if e.rank != 1 {
        EntryAbsent(f, e);
        EntryAbsent(r, e);
      }
    }
  }

  /** The entries of the second pass are the first pass's sorted entries, reindexed. */
  lemma ReindexedEntries(m: seq<Entry>, u: seq<Entry>, s: seq<Entry>)
    requires Ranked(s) && (forall e :: e in m ==> e.rank == 0) && (forall e :: e in u ==> e.rank == 1)
    requires multiset(s) == multiset(m + u)
    ensures multiset(Reindexed(s)) == multiset(m + UnmanagedEntries(Foreign(s)))
  {
    forall e ensures multiset(Reindexed(s))[e] == multiset(m + UnmanagedEntries(Foreign(s)))[e] {
      ReindexedCounts(m, u, s, e);
    }
  }

  /** No two entries of a pass tie: entries of one rank carry distinct indices. */
  lemma EntriesNeverTie(items: seq<Item>, text: seq<Child>, us: seq<Chan>)
    ensures var entries := ManagedEntries(items, text) + UnmanagedEntries(us);
            forall a, b :: a in entries && b in entries && EntryLe(a, b) && EntryLe(b, a) ==> a == b
  {
    ManagedRanks(items, text);
    UnmanagedRanks(us);
  }

  lemma SecondEntries(items: seq<Item>, text: seq<Child>, us: seq<Chan>, again: seq<Chan>)
    requires UnmanagedEntries(again) == UnmanagedEntries(Foreign(SortedEntries(items, text, us)))
    ensures SortedEntries(items, text, again) == Reindexed(SortedEntries(items, text, us))
  {
    var m, u := ManagedEntries(items, text), UnmanagedEntries(us);
    var s, t := SortedEntries(items, text, us), SortedEntries(items, text, again);
    EntriesSorted(items, text, us);
    ReindexedEntries(m, u, s);
    ReindexedSorted(s);
    EntriesSorted(items, text, again);
    EntriesNeverTie(items, text, again);
    TiesInSorted(t, m + UnmanagedEntries(again));
    hide SortedEntries, Reindexed, UnmanagedEntries, ManagedEntries, Foreign, Ranked;
    SortedUnique(t, Reindexed(s), EntryLe);
  }

  /** Sorting a section's own output again gives the same section. */
  lemma SectionStable(items: seq<Item>, text: seq<Child>, us: seq<Chan>)
    ensures var again := Foreign(SortedEntries(items, text, us)) + Untimed(us);
            SortSection(items, text, again) == SortSection(items, text, us)
  {
    var s := SortedEntries(items, text, us);
    var again := Foreign(s) + Untimed(us);
    EntriesSorted(items, text, us);
    ForeignTimed(s);
    AppendUntimed(Foreign(s), Untimed(us));
    UntimedAppended(Foreign(s), Untimed(us));
    SecondEntries(items, text, us, again);
    ReindexedChans(s);
    hide SortedEntries, Foreign, Untimed, Reindexed, Ranked;
  }

  lemma ReindexedChans(s: seq<Entry>)
    ensures Chans(Reindexed(s)) == Chans(s)
  {
  }

  lemma TiesInSorted(t: seq<Entry>, entries: seq<Entry>)
    requires multiset(t) == multiset(entries)
    ensures forall e :: e in t ==> e in entries
  {
    forall e | e in t ensures e in entries {
      assert e in multiset(t);
    }
  }

  /** What is known of a section's entries in sorted order. */
  lemma EntriesSorted(items: seq<Item>, text: seq<Child>, us: seq<Chan>)
    ensures var m, u, s := ManagedEntries(items, text), UnmanagedEntries(us), SortedEntries(items, text, us);
            && Ranked(s) && Sorted(s, EntryLe) && multiset(s) == multiset(m + u) && TotalPreorder(EntryLe)
            && (forall e :: e in m ==> e.rank == 0) && (forall e :: e in u ==> e.rank == 1)
  {
    var m, u := ManagedEntries(items, text), UnmanagedEntries(us);
    ManagedRanks(items, text);
    UnmanagedRanks(us);
    SortPermutes(m + u, EntryLe);
    EntryOrderTotal();
    SortSorts(m + u, EntryLe);
    hide SortBy, UnmanagedEntries, ManagedEntries;
  }

  /** Earlier minute, or at one minute a Run's own channel before another, or the one listed before. */
  predicate EarlierEntry(e: Entry, f: Entry) {
    || e.minute < f.minute
    || (e.minute == f.minute && (e.rank < f.rank || (e.rank == f.rank && e.index <= f.index)))
  }

  /**
   * A section is in time order: the timed channels by minute, with the Runs'
   * own channels first at equal minutes, then the untimed ones. A managed
   * channel's minute is its item's, an unmanaged one's comes from its name.
   */
  lemma SectionInTimeOrder(items: seq<Item>, text: seq<Child>, us: seq<Chan>)
    ensures var s := SortedEntries(items, text, us);
            && SortSection(items, text, us) == Chans(s) + Untimed(us)
            && (forall i, j :: 0 <= i < j < |s| ==> EarlierEntry(s[i], s[j]))
            && (forall e :: e in s ==>
                  || (e.rank == 0 && 0 <= e.index < |items| && e.minute == items[e.index].minute
                      && Some(e.chan) == ById(text, items[e.index].channelId))
                  || (e.rank == 1 && e.chan in us && Some(e.minute) == e.chan.minute))
  {
    var s := SortedEntries(items, text, us);
    EntriesSorted(items, text, us);
    ManagedRanks(items, text);
    UnmanagedRanks(us);
    SortPermutes(ManagedEntries(items, text) + UnmanagedEntries(us), EntryLe);
    hide SortBy, UnmanagedEntries, ManagedEntries;
    forall i, j | 0 <= i < j < |s| ensures EarlierEntry(s[i], s[j]) {
      assert EntryLe(s[i], s[j]);
    }
  }
}
