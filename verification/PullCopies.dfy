/**
 * The canonical order of a pull's copies and the staleness check of a snapshot
 * (`rankCopies`, `snapshotCoversRealPulls`).
 */
module PullCopies {
  import opened Prelude
  import opened Sorting
  import opened PullMatching
  import opened PullGroups

  datatype Report = Report(code: Id, attachedAt: int)

  // ---------------------------------------------------------------------
  // Ranking
  // ---------------------------------------------------------------------

  function Coverage(allFights: seq<Fight>, code: Id): nat {
    |FightsOf(allFights, code)|
  }

  /** When a report was linked; None sorts last. */
  function AttachedAt(reports: seq<Report>, code: Id): Option<int> {
    if reports == [] then None
    else
      var n := |reports| - 1;
      if reports[n].code == code then Some(reports[n].attachedAt) else AttachedAt(reports[..n], code)
  }

  predicate AttachedBefore(a: Option<int>, b: Option<int>) {
    a.Some? && (b.None? || a.value < b.value)
  }

  /** More identified players, then more coverage, then linked earlier, then report code. */
  predicate RanksBefore(reports: seq<Report>, allFights: seq<Fight>, a: Fight, b: Fight) {
    var pa, pb := a.rosterMatched.GetOr(-1), b.rosterMatched.GetOr(-1);
    var ca, cb := Coverage(allFights, a.reportCode), Coverage(allFights, b.reportCode);
    var ta, tb := AttachedAt(reports, a.reportCode), AttachedAt(reports, b.reportCode);
    if pa != pb then pa > pb
    else if ca != cb then ca > cb
    else if ta != tb then AttachedBefore(ta, tb)
    else a.reportCode.rank <= b.reportCode.rank
  }

  function ByRank(reports: seq<Report>, allFights: seq<Fight>): (Fight, Fight) -> bool {
    (a, b) => RanksBefore(reports, allFights, a, b)
  }

  function RankCopies(group: seq<Fight>, reports: seq<Report>, allFights: seq<Fight>): seq<Fight> {
    SortBy(group, ByRank(reports, allFights))
  }

  lemma RankOrder(reports: seq<Report>, allFights: seq<Fight>)
    ensures TotalPreorder(ByRank(reports, allFights))
  {
    hide Coverage, AttachedAt;
    var le := ByRank(reports, allFights);
    forall a, b, c | le(a, b) && le(b, c) ensures le(a, c) {}
  }

  lemma {:induction false} FightsOfCount(fights: seq<Fight>, code: Id, f: Fight)
    ensures multiset(FightsOf(fights, code))[f] == if f.reportCode == code then multiset(fights)[f] else 0
  {
    if fights != [] {
      var n := |fights| - 1;
      FightsOfCount(fights[..n], code, f);
      assert fights == fights[..n] + [fights[n]];
    }
  }

  lemma CoverageIgnoresOrder(s: seq<Fight>, t: seq<Fight>, code: Id)
    requires multiset(s) == multiset(t)
    ensures Coverage(s, code) == Coverage(t, code)
  {
    forall f ensures multiset(FightsOf(s, code))[f] == multiset(FightsOf(t, code))[f] {
      FightsOfCount(s, code, f);
      FightsOfCount(t, code, f);
    }
    assert multiset(FightsOf(s, code)) == multiset(FightsOf(t, code));
    assert |multiset(FightsOf(s, code))| == |FightsOf(s, code)|;
  }

  predicate DistinctCodes(reports: seq<Report>) {
    forall i, j :: 0 <= i < j < |reports| ==> reports[i].code != reports[j].code
  }

  lemma {:induction false} AttachedAtIs(reports: seq<Report>, code: Id)
    requires DistinctCodes(reports)
    ensures forall r :: r in reports && r.code == code ==> AttachedAt(reports, code) == Some(r.attachedAt)
    ensures (forall r :: r in reports ==> r.code != code) ==> AttachedAt(reports, code) == None
  {
    if reports != [] {
      var n := |reports| - 1;
      AttachedAtIs(reports[..n], code);
      assert reports == reports[..n] + [reports[n]];
    }
  }

  lemma AttachedIgnoresOrder(s: seq<Report>, t: seq<Report>, code: Id)
    requires DistinctCodes(s) && DistinctCodes(t) && multiset(s) == multiset(t)
    ensures AttachedAt(s, code) == AttachedAt(t, code)
  {
    AttachedAtIs(s, code);
    AttachedAtIs(t, code);
    forall r ensures r in s <==> r in t {
      assert r in s <==> r in multiset(s);
      assert r in t <==> r in multiset(t);
    }
  }

  lemma RankIgnoresOrder(reports: seq<Report>, reports': seq<Report>, all: seq<Fight>, all': seq<Fight>, a: Fight, b: Fight)
    requires DistinctCodes(reports) && DistinctCodes(reports') && multiset(reports) == multiset(reports')
    requires multiset(all) == multiset(all')
    ensures RanksBefore(reports, all, a, b) == RanksBefore(reports', all', a, b)
  {
    CoverageIgnoresOrder(all, all', a.reportCode);
    CoverageIgnoresOrder(all, all', b.reportCode);
    AttachedIgnoresOrder(reports, reports', a.reportCode);
    AttachedIgnoresOrder(reports, reports', b.reportCode);
  }

  /** The order of a pull's copies never depends on array or database order. */
  lemma RankCopiesCanonical(group: seq<Fight>, group': seq<Fight>, reports: seq<Report>, reports': seq<Report>,
                            all: seq<Fight>, all': seq<Fight>)
    requires DistinctReports(group) && multiset(group) == multiset(group')
    requires DistinctCodes(reports) && DistinctCodes(reports') && multiset(reports) == multiset(reports')
    requires multiset(all) == multiset(all')
    ensures RankCopies(group, reports, all) == RankCopies(group', reports', all')
  {
    var le, le' := ByRank(reports, all), ByRank(reports', all');
    forall a, b ensures le(a, b) == le'(a, b) {
      RankIgnoresOrder(reports, reports', all, all', a, b);
    }
    RankOrder(reports, all);
    RankOrder(reports', all');
    SortPermutes(group, le);
    SortPermutes(group', le');
    SortSorts(group, le);
    SortSorts(group', le');
    assert Sorted(RankCopies(group', reports', all'), le);
    forall a, b | a in RankCopies(group, reports, all) && b in RankCopies(group, reports, all) && le(a, b) && le(b, a)
      ensures a == b
    {
      NoTies(group, reports, all, a, b);
    }
    SortedUnique(RankCopies(group, reports, all), RankCopies(group', reports', all'), le);
  }

  /** Linked later than `other`, or not known to be linked while `other` is. */
  ghost predicate LinkedLater(reports: seq<Report>, code: Id, other: Id) {
    exists r :: r in reports && r.code == other
                && forall q :: q in reports && q.code == code ==> q.attachedAt > r.attachedAt
  }

  lemma AttachedBeforeMeans(reports: seq<Report>, a: Id, b: Id)
    requires DistinctCodes(reports)
    ensures AttachedBefore(AttachedAt(reports, a), AttachedAt(reports, b)) <==> LinkedLater(reports, b, a)
  {
    AttachedAtIs(reports, a);
    AttachedAtIs(reports, b);
  }

  /**
   * The canonical copy is a copy of the pull identifying the most players; among
   * those its report covers the most of the Run, among those it is not linked
   * later than another's, and among those its report code comes first.
   */
  lemma CanonicalCopyIsBest(group: seq<Fight>, reports: seq<Report>, all: seq<Fight>, f: Fight)
    requires f in group
    ensures |RankCopies(group, reports, all)| == |group|
    ensures var best := RankCopies(group, reports, all)[0];
            && best in group
            && best.rosterMatched.GetOr(-1) >= f.rosterMatched.GetOr(-1)
            && (best.rosterMatched.GetOr(-1) == f.rosterMatched.GetOr(-1) ==>
                  && |FightsOf(all, best.reportCode)| >= |FightsOf(all, f.reportCode)|
                  && (DistinctCodes(reports) && |FightsOf(all, best.reportCode)| == |FightsOf(all, f.reportCode)| ==>
                        && !LinkedLater(reports, best.reportCode, f.reportCode)
                        && (LinkedLater(reports, f.reportCode, best.reportCode)
                            || best.reportCode.rank <= f.reportCode.rank)))
  {
    var le := ByRank(reports, all);
    RankOrder(reports, all);
    SortPermutes(group, le);
    SortSorts(group, le);
    HeadIsLeast(RankCopies(group, reports, all), le, f);
    var best := RankCopies(group, reports, all)[0];
    hide AttachedAt, LinkedLater;
    if DistinctCodes(reports) {
      AttachedBeforeMeans(reports, best.reportCode, f.reportCode);
      AttachedBeforeMeans(reports, f.reportCode, best.reportCode);
    }
  }

  lemma NoTies(group: seq<Fight>, reports: seq<Report>, all: seq<Fight>, a: Fight, b: Fight)
    requires DistinctReports(group) && a in group && b in group
    requires RanksBefore(reports, all, a, b) && RanksBefore(reports, all, b, a)
    ensures a == b
  {
    hide Coverage, AttachedAt;
    assert a.reportCode == b.reportCode;
    var i :| 0 <= i < |group| && group[i] == a;
    var j :| 0 <= j < |group| && group[j] == b;
    assert i == j;
  }

  // ---------------------------------------------------------------------
  // Staleness
  // ---------------------------------------------------------------------

  ghost predicate HasKey(pull: seq<Fight>, key: Id) {
    exists f :: f in pull && f.key == key
  }

  /** Every key stands for at most one pull. */
  ghost predicate DisjointPulls(pulls: seq<seq<Fight>>) {
    forall i, j, key :: 0 <= i < j < |pulls| && HasKey(pulls[i], key) ==> !HasKey(pulls[j], key)
  }

  ghost predicate InSomePull(pulls: seq<seq<Fight>>, key: Id) {
    exists i :: 0 <= i < |pulls| && HasKey(pulls[i], key)
  }

  /** The snapshot's keys name every pull exactly once and nothing else. */
  ghost predicate CoversOnce(keys: seq<Id>, pulls: seq<seq<Fight>>) {
    && (forall p :: 0 <= p < |keys| ==> InSomePull(pulls, keys[p]))
    && (forall p, q, i :: 0 <= p < q < |keys| && 0 <= i < |pulls| && HasKey(pulls[i], keys[p]) ==> !HasKey(pulls[i], keys[q]))
    && (forall i :: 0 <= i < |pulls| ==> IsHit(keys, pulls[i]))
  }

  ghost predicate IsHit(keys: seq<Id>, pull: seq<Fight>) {
    exists p :: 0 <= p < |keys| && HasKey(pull, keys[p])
  }

  /** Which pull a key belongs to, among the first `n` pulls. */
  ghost predicate PullIndex(pulls: seq<seq<Fight>>, n: nat, pullOf: map<Id, nat>)
    requires n <= |pulls|
  {
    && (forall key :: key in pullOf ==> pullOf[key] < n && HasKey(pulls[pullOf[key]], key))
    && (forall i, key :: 0 <= i < n && HasKey(pulls[i], key) ==> key in pullOf && pullOf[key] == i)
  }

  method IndexPulls(pulls: seq<seq<Fight>>) returns (pullOf: map<Id, nat>)
    requires DisjointPulls(pulls)
    ensures PullIndex(pulls, |pulls|, pullOf)
  {
    pullOf := map[];
    for i := 0 to |pulls|
      invariant PullIndex(pulls, i, pullOf)
    {
      ghost var before := pullOf;
      for c := 0 to |pulls[i]|
        invariant forall key :: key in pullOf <==> key in before || HasKey(pulls[i][..c], key)
        invariant forall key :: key in pullOf ==> pullOf[key] == if HasKey(pulls[i][..c], key) then i else before[key]
      {
        assert pulls[i][..c + 1] == pulls[i][..c] + [pulls[i][c]];
        HasKeyAppend(pulls[i][..c], pulls[i][c]);
        pullOf := pullOf[pulls[i][c].key := i];
      }
      assert pulls[i][..|pulls[i]|] == pulls[i];
    }
  }

  lemma HasKeyAppend(pull: seq<Fight>, f: Fight)
    ensures forall key :: HasKey(pull + [f], key) <==> HasKey(pull, key) || key == f.key
  {
    forall key ensures HasKey(pull + [f], key) <==> HasKey(pull, key) || key == f.key {
      assert f in pull + [f] && forall g :: g in pull + [f] <==> g in pull || g == f;
    }
  }

  ghost function FirstIds(n: nat): (ids: set<Id>)
    ensures |ids| == n && forall id :: id in ids <==> 0 <= id.rank < n
  {
    if n == 0 then {} else FirstIds(n - 1) + {Id(n - 1)}
  }

  lemma AllSeen(seen: set<Id>, n: nat)
    requires forall id :: id in seen ==> 0 <= id.rank < n
    ensures |seen| <= n
    ensures |seen| == n <==> forall i :: 0 <= i < n ==> Id(i) in seen
  {
    var all := FirstIds(n);
    assert seen <= all;
    assert all == seen + (all - seen);
    if |seen| == n {
      assert all - seen == {};
      forall i | 0 <= i < n ensures Id(i) in seen {
        assert Id(i) in all && Id(i) !in all - seen;
      }
    }
    if forall i :: 0 <= i < n ==> Id(i) in seen {
      forall id | id in all ensures id in seen {
        assert Id(id.rank) == id;
      }
      assert all == seen;
    }
  }

  /** The snapshot keys looked at so far: all known, no pull twice, `seen` holds their pulls. */
  ghost predicate Scanned(keys: seq<Id>, p: nat, pulls: seq<seq<Fight>>, pullOf: map<Id, nat>, seen: set<Id>) {
    && p <= |keys|
    && (forall q :: 0 <= q < p ==> keys[q] in pullOf && Id(pullOf[keys[q]]) in seen)
    && (forall q, r :: 0 <= q < r < p ==> pullOf[keys[q]] != pullOf[keys[r]])
    && (forall id :: id in seen ==> 0 <= id.rank < |pulls| && exists q :: 0 <= q < p && pullOf[keys[q]] == id.rank)
  }

  lemma UnknownKey(keys: seq<Id>, p: nat, pulls: seq<seq<Fight>>, pullOf: map<Id, nat>)
    requires PullIndex(pulls, |pulls|, pullOf) && p < |keys| && keys[p] !in pullOf
    ensures !CoversOnce(keys, pulls)
  {
  }

  lemma PullSeenTwice(keys: seq<Id>, p: nat, pulls: seq<seq<Fight>>, pullOf: map<Id, nat>, seen: set<Id>)
    requires PullIndex(pulls, |pulls|, pullOf) && Scanned(keys, p, pulls, pullOf, seen)
    requires p < |keys| && keys[p] in pullOf && Id(pullOf[keys[p]]) in seen
    ensures !CoversOnce(keys, pulls)
  {
    var i := pullOf[keys[p]];
    var q :| 0 <= q < p && pullOf[keys[q]] == Id(i).rank;
    assert HasKey(pulls[i], keys[q]) && HasKey(pulls[i], keys[p]);
  }

  lemma ScannedNext(keys: seq<Id>, p: nat, pulls: seq<seq<Fight>>, pullOf: map<Id, nat>, seen: set<Id>)
    requires PullIndex(pulls, |pulls|, pullOf) && Scanned(keys, p, pulls, pullOf, seen)
    requires p < |keys| && keys[p] in pullOf && Id(pullOf[keys[p]]) !in seen
    ensures Scanned(keys, p + 1, pulls, pullOf, seen + {Id(pullOf[keys[p]])})
  {
  }

  lemma SeenIffHit(keys: seq<Id>, pulls: seq<seq<Fight>>, pullOf: map<Id, nat>, seen: set<Id>, i: nat)
    requires PullIndex(pulls, |pulls|, pullOf) && Scanned(keys, |keys|, pulls, pullOf, seen) && i < |pulls|
    ensures Id(i) in seen <==> IsHit(keys, pulls[i])
  {
    hide HasKey;
    if Id(i) in seen {
      var q :| 0 <= q < |keys| && pullOf[keys[q]] == Id(i).rank;
      assert HasKey(pulls[i], keys[q]);
    }
    if IsHit(keys, pulls[i]) {
      var p :| 0 <= p < |keys| && HasKey(pulls[i], keys[p]);
      assert pullOf[keys[p]] == i;
    }
  }

  lemma AllScanned(keys: seq<Id>, pulls: seq<seq<Fight>>, pullOf: map<Id, nat>, seen: set<Id>)
    requires PullIndex(pulls, |pulls|, pullOf) && Scanned(keys, |keys|, pulls, pullOf, seen)
    ensures |seen| == |pulls| <==> CoversOnce(keys, pulls)
  {
    hide IsHit, PullIndex, Scanned, CoversOnce;
    SeenInRange(keys, pulls, pullOf, seen);
    AllSeen(seen, |pulls|);
    CoversIffAllHit(keys, pulls, pullOf, seen);
    forall i | 0 <= i < |pulls| ensures Id(i) in seen <==> IsHit(keys, pulls[i]) {
      SeenIffHit(keys, pulls, pullOf, seen, i);
    }
  }

  lemma CoversIffAllHit(keys: seq<Id>, pulls: seq<seq<Fight>>, pullOf: map<Id, nat>, seen: set<Id>)
    requires PullIndex(pulls, |pulls|, pullOf) && Scanned(keys, |keys|, pulls, pullOf, seen)
    ensures CoversOnce(keys, pulls) <==> forall i :: 0 <= i < |pulls| ==> IsHit(keys, pulls[i])
  {
    hide HasKey, IsHit, InSomePull, PullIndex, Scanned;
    KeysDistinctPulls(keys, pulls, pullOf, seen);
  }

  lemma SeenInRange(keys: seq<Id>, pulls: seq<seq<Fight>>, pullOf: map<Id, nat>, seen: set<Id>)
    requires Scanned(keys, |keys|, pulls, pullOf, seen)
    ensures forall id :: id in seen ==> 0 <= id.rank < |pulls|
  {
  }

  lemma KeysDistinctPulls(keys: seq<Id>, pulls: seq<seq<Fight>>, pullOf: map<Id, nat>, seen: set<Id>)
    requires PullIndex(pulls, |pulls|, pullOf) && Scanned(keys, |keys|, pulls, pullOf, seen)
    ensures forall p :: 0 <= p < |keys| ==> InSomePull(pulls, keys[p])
    ensures forall p, q, i :: 0 <= p < q < |keys| && 0 <= i < |pulls| && HasKey(pulls[i], keys[p]) ==> !HasKey(pulls[i], keys[q])
  {
    forall p | 0 <= p < |keys| ensures InSomePull(pulls, keys[p]) {
      assert HasKey(pulls[pullOf[keys[p]]], keys[p]);
    }
    forall p, q, i | 0 <= p < q < |keys| && 0 <= i < |pulls| && HasKey(pulls[i], keys[p])
      ensures !HasKey(pulls[i], keys[q])
    {
      assert pullOf[keys[p]] == i && pullOf[keys[p]] != pullOf[keys[q]];
    }
  }

  /** Does a snapshot represent every real pull exactly once? Any copy of a pull counts. */
  method SnapshotCoversRealPulls(keys: seq<Id>, pulls: seq<seq<Fight>>) returns (covers: bool)
    requires DisjointPulls(pulls)
    ensures covers <==> CoversOnce(keys, pulls)
  {
    hide HasKey, CoversOnce;
    var pullOf := IndexPulls(pulls);
    var seen: set<Id> := {};
    for p := 0 to |keys|
      invariant Scanned(keys, p, pulls, pullOf, seen)
    {
      if keys[p] !in pullOf {
        UnknownKey(keys, p, pulls, pullOf);
        return false;
      }
      if Id(pullOf[keys[p]]) in seen {
        PullSeenTwice(keys, p, pulls, pullOf, seen);
        return false;
      }
      ScannedNext(keys, p, pulls, pullOf, seen);
      seen := seen + {Id(pullOf[keys[p]])};
    }
    AllScanned(keys, pulls, pullOf, seen);
    covers := |seen| == |pulls|;
  }

  ghost predicate DistinctFightKeys(fights: seq<Fight>) {
    forall i, j :: 0 <= i < j < |fights| ==> fights[i].key != fights[j].key
  }

  ghost function Keyed(fights: seq<Fight>, key: Id): seq<Fight> {
    if fights == [] then [] else (if fights[0].key == key then [fights[0]] else []) + Keyed(fights[1..], key)
  }

  ghost function KeyCount(fights: seq<Fight>, key: Id): nat {
    |Keyed(fights, key)|
  }

  lemma {:induction false} KeyCountConcat(s: seq<Fight>, t: seq<Fight>, key: Id)
    ensures KeyCount(s + t, key) == KeyCount(s, key) + KeyCount(t, key)
  {
    if s == [] {
      assert s + t == t;
    } else {
      assert (s + t)[1..] == s[1..] + t;
      KeyCountConcat(s[1..], t, key);
    }
  }

  lemma {:induction false} KeyedCount(fights: seq<Fight>, key: Id, f: Fight)
    ensures multiset(Keyed(fights, key))[f] == if f.key == key then multiset(fights)[f] else 0
  {
    if fights != [] {
      KeyedCount(fights[1..], key, f);
      assert fights == [fights[0]] + fights[1..];
    }
  }

  lemma KeyCountPermutes(s: seq<Fight>, t: seq<Fight>, key: Id)
    requires multiset(s) == multiset(t)
    ensures KeyCount(s, key) == KeyCount(t, key)
  {
    forall f ensures multiset(Keyed(s, key))[f] == multiset(Keyed(t, key))[f] {
      KeyedCount(s, key, f);
      KeyedCount(t, key, f);
    }
    assert multiset(Keyed(s, key)) == multiset(Keyed(t, key));
    assert |multiset(Keyed(s, key))| == |Keyed(s, key)|;
  }

  lemma {:induction false} KeyCountAtMostOne(fights: seq<Fight>, key: Id)
    requires DistinctFightKeys(fights)
    ensures KeyCount(fights, key) <= 1
    ensures KeyCount(fights, key) == 1 <==> HasKey(fights, key)
  {
    if fights != [] {
      KeyCountAtMostOne(fights[1..], key);
      assert forall f :: f in fights <==> f == fights[0] || f in fights[1..];
      forall i | 0 <= i < |fights[1..]| ensures fights[1..][i].key != fights[0].key {}
    }
  }

  lemma {:induction false} KeyCountPositive(fights: seq<Fight>, key: Id)
    ensures KeyCount(fights, key) > 0 <==> HasKey(fights, key)
  {
    if fights != [] {
      KeyCountPositive(fights[1..], key);
      assert forall f :: f in fights <==> f == fights[0] || f in fights[1..];
    }
  }

  lemma {:induction false} CountInFlatten(pulls: seq<seq<Fight>>, i: nat, j: nat, key: Id)
    requires i < j < |pulls| && HasKey(pulls[i], key) && HasKey(pulls[j], key)
    ensures KeyCount(Flatten(pulls), key) >= 2
  {
    KeyCountConcat(pulls[0], Flatten(pulls[1..]), key);
    if i > 0 {
      CountInFlatten(pulls[1..], i - 1, j - 1, key);
    } else {
      KeyCountPositive(pulls[0], key);
      CountOneInFlatten(pulls[1..], j - 1, key);
    }
  }

  lemma {:induction false} CountOneInFlatten(pulls: seq<seq<Fight>>, j: nat, key: Id)
    requires j < |pulls| && HasKey(pulls[j], key)
    ensures KeyCount(Flatten(pulls), key) >= 1
  {
    KeyCountConcat(pulls[0], Flatten(pulls[1..]), key);
    if j > 0 {
      CountOneInFlatten(pulls[1..], j - 1, key);
    } else {
      KeyCountPositive(pulls[0], key);
    }
  }

  /** The pulls of distinct report fights are disjoint, as the staleness check needs them. */
  lemma PartitionIsDisjoint(fights: seq<Fight>, pulls: seq<seq<Fight>>)
    requires DistinctFightKeys(fights) && multiset(Flatten(pulls)) == multiset(fights)
    ensures DisjointPulls(pulls)
  {
    forall i, j, key | 0 <= i < j < |pulls| && HasKey(pulls[i], key) ensures !HasKey(pulls[j], key) {
      if HasKey(pulls[j], key) {
        CountInFlatten(pulls, i, j, key);
        KeyCountPermutes(Flatten(pulls), fights, key);
        KeyCountAtMostOne(fights, key);
      }
    }
  }
}
