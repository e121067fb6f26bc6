/**
 * Which fights of two reports are the same real pull: the clock offset most
 * same-shaped pairs agree on, and a one-to-one matching around it
 * (`sameFightShape`, `matchReportPair`).
 */
module PullMatching {
  import opened Prelude
  import opened Sorting

  const TOLERANCE_MS := 2000
  const MAX_CLOCK_OFFSET_MS := 30 * 60000

  datatype Fight = Fight(
    key: Id,
    reportCode: Id,
    encounterId: int,
    difficulty: Option<int>,
    kill: bool,
    raidContentId: Option<Id>,
    startAtMs: int,
    endAtMs: int,
    rosterMatched: Option<int>)
  {
    function Duration(): int {
      endAtMs - startAtMs
    }
  }

  /** Could these two report fights be the same pull, ignoring when they happened? */
  predicate SameFightShape(a: Fight, b: Fight) {
    && a.encounterId == b.encounterId
    && a.difficulty == b.difficulty
    && a.kill == b.kill
    && (a.raidContentId == None || b.raidContentId == None || a.raidContentId == b.raidContentId)
    && Abs(a.Duration() - b.Duration()) <= TOLERANCE_MS
  }

  datatype Pair = Pair(x: Fight, y: Fight) {
    function Delta(): int {
      y.startAtMs - x.startAtMs
    }
  }

  /** Same shape, and clocks that could be this far apart. */
  predicate IsCandidate(p: Pair) {
    SameFightShape(p.x, p.y) && Abs(p.Delta()) <= MAX_CLOCK_OFFSET_MS
  }

  function CandidatesWith(x: Fight, b: seq<Fight>): (pairs: seq<Pair>)
    ensures forall p :: p in pairs <==> p.x == x && p.y in b && IsCandidate(p)
  {
    if b == [] then []
    else (if IsCandidate(Pair(x, b[0])) then [Pair(x, b[0])] else []) + CandidatesWith(x, b[1..])
  }

  function Candidates(a: seq<Fight>, b: seq<Fight>): (pairs: seq<Pair>)
    ensures forall p :: p in pairs <==> p.x in a && p.y in b && IsCandidate(p)
  {
    if a == [] then [] else CandidatesWith(a[0], b) + Candidates(a[1..], b)
  }

  predicate Agrees(p: Pair, offset: int) {
    Abs(p.Delta() - offset) <= TOLERANCE_MS
  }

  /** How many fights on the smaller side agree with an offset. */
  function Support(candidates: seq<Pair>, offset: int): nat {
    var xs := set p | p in candidates && Agrees(p, offset) :: p.x.key;
    var ys := set p | p in candidates && Agrees(p, offset) :: p.y.key;
    Min(|xs|, |ys|)
  }

  /** `offset` has the most support; among equally supported ones it is the smallest. */
  ghost predicate IsBestOffset(candidates: seq<Pair>, offset: int) {
    && (exists p :: p in candidates && p.Delta() == offset)
    && forall p :: p in candidates ==>
         || Support(candidates, p.Delta()) < Support(candidates, offset)
         || (Support(candidates, p.Delta()) == Support(candidates, offset) && Abs(offset) <= Abs(p.Delta()))
  }

  /** The offset kept after the first `n` candidates: a later one must be strictly better. */
  function OffsetUpTo(candidates: seq<Pair>, n: nat): int
    requires 0 < n <= |candidates|
  {
    if n == 1 then candidates[0].Delta()
    else
      var offset, delta := OffsetUpTo(candidates, n - 1), candidates[n - 1].Delta();
      if Support(candidates, delta) > Support(candidates, offset)
         || (Support(candidates, delta) == Support(candidates, offset) && Abs(delta) < Abs(offset)) then delta
      else offset
  }

  method BestOffset(candidates: seq<Pair>) returns (offset: int, support: nat)
    requires candidates != []
    ensures IsBestOffset(candidates, offset) && support == Support(candidates, offset)
    ensures offset == OffsetUpTo(candidates, |candidates|)
  {
    hide Support;
    offset, support := candidates[0].Delta(), Support(candidates, candidates[0].Delta());
    for i := 1 to |candidates|
      invariant support == Support(candidates, offset) && offset == OffsetUpTo(candidates, i)
      invariant exists p :: p in candidates && p.Delta() == offset
      invariant forall k :: 0 <= k < i ==>
                  || Support(candidates, candidates[k].Delta()) < support
                  || (Support(candidates, candidates[k].Delta()) == support && Abs(offset) <= Abs(candidates[k].Delta()))
    {
      var delta := candidates[i].Delta();
      var s := Support(candidates, delta);
      if s > support || (s == support && Abs(delta) < Abs(offset)) {
        assert candidates[i] in candidates;
        offset, support := delta, s;
      }
    }
  }

  predicate CloserTo(offset: int, p: Pair, q: Pair) {
    Abs(p.Delta() - offset) <= Abs(q.Delta() - offset)
  }

  function ByDistance(offset: int): (Pair, Pair) -> bool {
    (p, q) => CloserTo(offset, p, q)
  }

  lemma DistanceOrder(offset: int)
    ensures TotalPreorder(ByDistance(offset))
  {
  }

  /** The index of the first pair with exactly this delta. */
  method FirstWithDelta(candidates: seq<Pair>, offset: int) returns (i: nat)
    requires exists p :: p in candidates && p.Delta() == offset
    ensures i < |candidates| && candidates[i].Delta() == offset
    ensures forall k :: 0 <= k < i ==> candidates[k].Delta() != offset
  {
    i := 0;
    ghost var p :| p in candidates && p.Delta() == offset;
    ghost var at :| 0 <= at < |candidates| && candidates[at] == p;
    while candidates[i].Delta() != offset
      invariant i <= at
      invariant forall k :: 0 <= k < i ==> candidates[k].Delta() != offset
      decreases at - i
    {
      i := i + 1;
    }
  }

  /** No fight of either report is matched twice. */
  ghost predicate OneToOne(matches: seq<Pair>) {
    forall i, j :: 0 <= i < j < |matches| ==>
      matches[i].x.key != matches[j].x.key && matches[i].y.key != matches[j].y.key
  }

  ghost predicate Touches(matches: seq<Pair>, p: Pair) {
    exists m :: m in matches && (m.x.key == p.x.key || m.y.key == p.y.key)
  }

  /** A one-to-one matching of candidates agreeing with `offset` that cannot be extended. */
  ghost predicate IsMatching(candidates: seq<Pair>, offset: int, matches: seq<Pair>) {
    && OneToOne(matches)
    && (forall m :: m in matches ==> m in candidates && Agrees(m, offset))
    && (forall p :: p in candidates && Agrees(p, offset) ==> Touches(matches, p))
  }

  function XKeys(matches: seq<Pair>): set<Id> {
    set m | m in matches :: m.x.key
  }

  function YKeys(matches: seq<Pair>): set<Id> {
    set m | m in matches :: m.y.key
  }

  /** The loop state after the first `i` pairs of the sorted candidates. */
  ghost predicate Taken(sorted: seq<Pair>, i: nat, offset: int, matches: seq<Pair>, usedA: set<Id>, usedB: set<Id>) {
    && i <= |sorted|
    && OneToOne(matches) && usedA == XKeys(matches) && usedB == YKeys(matches)
    && (forall m :: m in matches ==> m in sorted && Agrees(m, offset))
    && (forall k :: 0 <= k < i ==> sorted[k].x.key in usedA || sorted[k].y.key in usedB)
    && (if i == 0 then matches == [] && usedA == {} && usedB == {} else matches != [] && matches[0] == sorted[0])
  }

  lemma TakeOne(sorted: seq<Pair>, i: nat, offset: int, matches: seq<Pair>, usedA: set<Id>, usedB: set<Id>)
    requires Taken(sorted, i, offset, matches, usedA, usedB) && i < |sorted| && Agrees(sorted[i], offset)
    requires sorted[i].x.key !in usedA && sorted[i].y.key !in usedB
    ensures Taken(sorted, i + 1, offset, matches + [sorted[i]], usedA + {sorted[i].x.key}, usedB + {sorted[i].y.key})
  {
    var p := sorted[i];
    forall k | 0 <= k < |matches| ensures matches[k].x.key != p.x.key && matches[k].y.key != p.y.key {
      assert matches[k] in matches;
    }
    OneToOneMore(matches, p);
    KeysMore(matches, p);
  }

  lemma OneToOneMore(matches: seq<Pair>, p: Pair)
    requires OneToOne(matches)
    requires forall i :: 0 <= i < |matches| ==> matches[i].x.key != p.x.key && matches[i].y.key != p.y.key
    ensures OneToOne(matches + [p])
  {
  }

  lemma KeysMore(matches: seq<Pair>, p: Pair)
    ensures XKeys(matches + [p]) == XKeys(matches) + {p.x.key}
    ensures YKeys(matches + [p]) == YKeys(matches) + {p.y.key}
  {
    var more := matches + [p];
    assert p in more && forall m :: m in more <==> m in matches || m == p;
    forall id ensures id in XKeys(more) <==> id in XKeys(matches) + {p.x.key} {}
    forall id ensures id in YKeys(more) <==> id in YKeys(matches) + {p.y.key} {}
  }

  lemma TakenIsMatching(candidates: seq<Pair>, sorted: seq<Pair>, i: nat, offset: int, matches: seq<Pair>,
                        usedA: set<Id>, usedB: set<Id>)
    requires sorted == SortBy(candidates, ByDistance(offset))
    requires Taken(sorted, i, offset, matches, usedA, usedB)
    requires i < |sorted| ==> !Agrees(sorted[i], offset)
    ensures IsMatching(candidates, offset, matches)
    ensures (exists p :: p in candidates && Agrees(p, offset)) ==> i > 0
  {
    hide SortBy, OneToOne;
    DistanceOrder(offset);
    SortPermutes(candidates, ByDistance(offset));
    SortSorts(candidates, ByDistance(offset));
    forall p | p in candidates && Agrees(p, offset) ensures Touches(matches, p) && i > 0 {
      var k :| 0 <= k < |sorted| && sorted[k] == p;
      assert ByDistance(offset)(sorted[if i < k then i else k], sorted[k]) || k <= i;
      assert k < i;
    }
  }

  /** The pairs taken from the first `n`: each that agrees and whose fights are both still free. */
  function TakenFrom(sorted: seq<Pair>, offset: int, n: nat): seq<Pair>
    requires n <= |sorted|
  {
    if n == 0 then []
    else
      var matches, p := TakenFrom(sorted, offset, n - 1), sorted[n - 1];
      if Agrees(p, offset) && p.x.key !in XKeys(matches) && p.y.key !in YKeys(matches) then matches + [p]
      else matches
  }

  lemma {:induction false} NothingLater(sorted: seq<Pair>, offset: int, i: nat, n: nat)
    requires i <= n <= |sorted| && forall k :: i <= k < |sorted| ==> !Agrees(sorted[k], offset)
    ensures TakenFrom(sorted, offset, n) == TakenFrom(sorted, offset, i)
  {
    if i < n {
      NothingLater(sorted, offset, i, n - 1);
    }
  }

  function Closest(candidates: seq<Pair>, offset: int): seq<Pair> {
    var sorted := SortBy(candidates, ByDistance(offset));
    TakenFrom(sorted, offset, |sorted|)
  }

  lemma FarAfter(candidates: seq<Pair>, offset: int, i: nat)
    requires i <= |SortBy(candidates, ByDistance(offset))|
    requires var sorted := SortBy(candidates, ByDistance(offset));
             i < |sorted| ==> !Agrees(sorted[i], offset)
    ensures TakenFrom(SortBy(candidates, ByDistance(offset)), offset, i) == Closest(candidates, offset)
  {
    var sorted := SortBy(candidates, ByDistance(offset));
    DistanceOrder(offset);
    SortSorts(candidates, ByDistance(offset));
    forall k | i <= k < |sorted| ensures !Agrees(sorted[k], offset) {
      assert i < k ==> ByDistance(offset)(sorted[i], sorted[k]);
    }
    NothingLater(sorted, offset, i, |sorted|);
  }

  method TakeClosest(candidates: seq<Pair>, offset: int) returns (matches: seq<Pair>)
    ensures matches == Closest(candidates, offset)
    ensures IsMatching(candidates, offset, matches)
    ensures (exists p :: p in candidates && Agrees(p, offset)) ==>
              matches != [] && matches[0] == SortBy(candidates, ByDistance(offset))[0]
  {
    hide IsMatching, Closest, SortBy;
    var sorted := SortBy(candidates, ByDistance(offset));
    matches := [];
    var usedA: set<Id>, usedB: set<Id> := {}, {};
    var i := 0;
    while i < |sorted| && Agrees(sorted[i], offset)
      invariant Taken(sorted, i, offset, matches, usedA, usedB)
      invariant matches == TakenFrom(sorted, offset, i)
    {
      var p := sorted[i];
      if p.x.key !in usedA && p.y.key !in usedB {
        TakeOne(sorted, i, offset, matches, usedA, usedB);
        usedA, usedB, matches := usedA + {p.x.key}, usedB + {p.y.key}, matches + [p];
      }
      i := i + 1;
    }
    TakenIsMatching(candidates, sorted, i, offset, matches, usedA, usedB);
    FarAfter(candidates, offset, i);
  }

  // ---------------------------------------------------------------------
  // One pair of reports
  // ---------------------------------------------------------------------

  lemma {:induction false} KeyCounts(matches: seq<Pair>)
    requires OneToOne(matches)
    ensures |XKeys(matches)| == |matches| && |YKeys(matches)| == |matches|
  {
    if matches != [] {
      var n := |matches| - 1;
      assert matches == matches[..n] + [matches[n]];
      KeyCounts(matches[..n]);
      KeysMore(matches[..n], matches[n]);
      assert matches[n].x.key !in XKeys(matches[..n]) && matches[n].y.key !in YKeys(matches[..n]);
    }
  }

  /** A matching is never larger than the support of its offset. */
  lemma MatchingWithinSupport(candidates: seq<Pair>, offset: int, matches: seq<Pair>)
    requires IsMatching(candidates, offset, matches)
    ensures |matches| <= Support(candidates, offset)
  {
    KeyCounts(matches);
    SubsetSize(XKeys(matches), set p | p in candidates && Agrees(p, offset) :: p.x.key);
    SubsetSize(YKeys(matches), set p | p in candidates && Agrees(p, offset) :: p.y.key);
  }

  lemma {:induction false} HeadTaken(sorted: seq<Pair>, offset: int, n: nat)
    requires 0 < n <= |sorted| && Agrees(sorted[0], offset)
    ensures TakenFrom(sorted, offset, n) != [] && TakenFrom(sorted, offset, n)[0] == sorted[0]
  {
    if n == 1 {
      assert TakenFrom(sorted, offset, 0) == [];
    } else {
      HeadTaken(sorted, offset, n - 1);
    }
  }

  /** The closest matching starts with the very first pair that has exactly the chosen offset. */
  lemma FirstTaken(candidates: seq<Pair>, offset: int, i: nat)
    requires i < |candidates| && candidates[i].Delta() == offset
    requires forall k :: 0 <= k < i ==> candidates[k].Delta() != offset
    ensures |SortBy(candidates, ByDistance(offset))| > 0 && SortBy(candidates, ByDistance(offset))[0] == candidates[i]
    ensures Closest(candidates, offset) != [] && Closest(candidates, offset)[0] == candidates[i]
  {
    SortPermutes(candidates, ByDistance(offset));
    DistanceOrder(offset);
    var j := HeadIsFirstLeast(candidates, ByDistance(offset));
    assert ByDistance(offset)(candidates[j], candidates[i]);
    assert forall k :: 0 <= k < j ==> !CloserTo(offset, candidates[k], candidates[j]) && candidates[k].Delta() != offset;
    HeadTaken(SortBy(candidates, ByDistance(offset)), offset, |candidates|);
  }

  /** The clocks are apart by less than either fight lasts. */
  predicate CloserThanLong(p: Pair) {
    && Abs(p.y.startAtMs - p.x.startAtMs) < p.x.endAtMs - p.x.startAtMs
    && Abs(p.y.startAtMs - p.x.startAtMs) < p.y.endAtMs - p.y.startAtMs
  }

  /** The first candidate whose clocks differ by exactly `offset`. */
  ghost predicate FirstOf(candidates: seq<Pair>, offset: int, i: nat) {
    && i < |candidates| && candidates[i].Delta() == offset
    && forall k :: 0 <= k < i ==> candidates[k].Delta() != offset
  }

  /**
   * What the two reports' matching is around the best offset: with two
   * supporting fights or more a full matching; with a lone one the first pair of
   * that offset, exactly if its clocks are closer than both fights are long.
   */
  ghost predicate MatchesAround(candidates: seq<Pair>, offset: int, matches: seq<Pair>) {
    && IsBestOffset(candidates, offset)
    && (Support(candidates, offset) >= 2 ==> IsMatching(candidates, offset, matches))
    && (Support(candidates, offset) < 2 ==>
          exists i: nat :: FirstOf(candidates, offset, i)
                      && matches == if CloserThanLong(candidates[i]) then [candidates[i]] else [])
  }

  function FirstPair(candidates: seq<Pair>, offset: int): (p: Option<Pair>)
    ensures p.None? ==> forall c :: c in candidates ==> c.Delta() != offset
  {
    if candidates == [] then None
    else if candidates[0].Delta() == offset then Some(candidates[0])
    else FirstPair(candidates[1..], offset)
  }

  lemma {:induction false} FirstPairAt(candidates: seq<Pair>, offset: int, i: nat)
    requires i < |candidates| && candidates[i].Delta() == offset
    requires forall k :: 0 <= k < i ==> candidates[k].Delta() != offset
    ensures FirstPair(candidates, offset) == Some(candidates[i])
  {
    if i > 0 {
      FirstPairAt(candidates[1..], offset, i - 1);
    }
  }

  /** A lone agreement between fights too far apart in absolute time. */
  predicate LoneAndApart(candidates: seq<Pair>, offset: int) {
    Support(candidates, offset) < 2
    && match FirstPair(candidates, offset)
       case Some(single) => Abs(offset) >= Min(single.x.Duration(), single.y.Duration())
       case None => false
  }

  /** The matching of two reports as one expression. */
  function MatchReport(a: seq<Fight>, b: seq<Fight>): seq<Pair> {
    var candidates := Candidates(a, b);
    if candidates == [] then []
    else
      var offset := OffsetUpTo(candidates, |candidates|);
      if LoneAndApart(candidates, offset) then [] else Closest(candidates, offset)
  }

  /** Pairs of the same real pull between two reports; a lone agreeing pair must overlap in absolute time. */
  method MatchReportPair(a: seq<Fight>, b: seq<Fight>) returns (matches: seq<Pair>)
    ensures matches == MatchReport(a, b)
    ensures forall m :: m in matches ==> m.x in a && m.y in b && IsCandidate(m)
    ensures OneToOne(matches)
    ensures Candidates(a, b) == [] ==> matches == []
    ensures Candidates(a, b) != [] ==> exists offset :: MatchesAround(Candidates(a, b), offset, matches)
  {
    hide Support, OffsetUpTo, Closest;
    var candidates := Candidates(a, b);
    if candidates == [] {
      return [];
    }
    var offset, support := BestOffset(candidates);
    var i := FirstWithDelta(candidates, offset);
    assert FirstOf(candidates, offset, i);
    var single := candidates[i];
    FirstPairAt(candidates, offset, i);
    if support < 2 && Abs(offset) >= Min(single.x.Duration(), single.y.Duration()) {
      assert MatchesAround(candidates, offset, []);
      return [];
    }
    assert Agrees(single, offset) && single in candidates;
    matches := TakeClosest(candidates, offset);
    MatchingWithinSupport(candidates, offset, matches);
    FirstTaken(candidates, offset, i);
    assert support < 2 ==> CloserThanLong(single) && matches == [single];
    assert MatchesAround(candidates, offset, matches);
  }

  /** A candidate that is the only one is matched exactly if its clocks are closer than both fights are long. */
  lemma OnlyCandidate(a: seq<Fight>, b: seq<Fight>, p: Pair)
    requires Candidates(a, b) == [p]
    ensures MatchReport(a, b) == if CloserThanLong(p) then [p] else []
  {
    var candidates := Candidates(a, b);
    LoneSupport(p);
    FirstPairAt(candidates, p.Delta(), 0);
    hide Support;
    if CloserThanLong(p) {
      SortedStays(candidates, ByDistance(p.Delta()));
      hide SortBy;
      assert TakenFrom(candidates, p.Delta(), 0) == [];
      assert TakenFrom(candidates, p.Delta(), 1) == [p];
    }
  }

  lemma LoneSupport(p: Pair)
    ensures Support([p], p.Delta()) == 1
  {
    var xs := set q | q in [p] && Agrees(q, p.Delta()) :: q.x.key;
    var ys := set q | q in [p] && Agrees(q, p.Delta()) :: q.y.key;
    forall id ensures (id in xs <==> id == p.x.key) && (id in ys <==> id == p.y.key) {
    }
    assert xs == {p.x.key} && ys == {p.y.key};
  }

  lemma {:induction false} TakenIn(sorted: seq<Pair>, offset: int, n: nat)
    requires n <= |sorted|
    ensures forall m :: m in TakenFrom(sorted, offset, n) ==> m in sorted
  {
    if n > 0 {
      TakenIn(sorted, offset, n - 1);
    }
  }

  lemma MatchReportIn(a: seq<Fight>, b: seq<Fight>, m: Pair)
    requires m in MatchReport(a, b)
    ensures m.x in a && m.y in b && IsCandidate(m)
  {
    var candidates := Candidates(a, b);
    var offset := OffsetUpTo(candidates, |candidates|);
    var sorted := SortBy(candidates, ByDistance(offset));
    TakenIn(sorted, offset, |sorted|);
    SortPermutes(candidates, ByDistance(offset));
  }
}
