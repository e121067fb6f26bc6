/**
 * `chunkEmbedFieldLines`: lines are packed in order into chunks that fit an
 * embed field, none split and none lost, with as few chunks as possible.
 */
module Chunking {
  datatype Chunks = TooLong(length: nat) | Chunks(value: seq<seq<string>>)

  /** The text of a chunk: its lines joined by newlines. */
  function Joined(chunk: seq<string>): string {
    if chunk == [] then ""
    else if |chunk| == 1 then chunk[0]
    else Joined(chunk[..|chunk| - 1]) + "\n" + chunk[|chunk| - 1]
  }

  function Flatten(chunks: seq<seq<string>>): seq<string> {
    if chunks == [] then [] else Flatten(chunks[..|chunks| - 1]) + chunks[|chunks| - 1]
  }

  predicate Fits(chunk: seq<string>, limit: int) {
    |Joined(chunk)| <= limit
  }

  ghost predicate AllFit(chunks: seq<seq<string>>, limit: int) {
    forall i: nat :: i < |chunks| ==> Fits(chunks[i], limit)
  }

  ghost predicate NoneEmpty(chunks: seq<seq<string>>) {
    forall i: nat :: i < |chunks| ==> chunks[i] != []
  }

  /** A way to cut the lines into chunks that fit. */
  ghost predicate Split(chunks: seq<seq<string>>, lines: seq<string>, limit: int) {
    Flatten(chunks) == lines && AllFit(chunks, limit)
  }

  // ---------------------------------------------------------------------
  // Greedy packing stays ahead of every other split
  // ---------------------------------------------------------------------

  lemma JoinedSnoc(chunk: seq<string>, line: string)
    ensures |Joined(chunk + [line])| == if chunk == [] then |line| else |Joined(chunk)| + 1 + |line|
  {
    if chunk == [] {
      assert chunk + [line] == [line];
    } else {
      assert (chunk + [line])[..|chunk|] == chunk;
    }
  }

  /** A longer run of lines is no shorter text. */
  lemma {:induction false} JoinedGrows(lines: seq<string>, i: nat, j: nat, k: nat)
    requires i < j <= k <= |lines|
    ensures |Joined(lines[i..j])| <= |Joined(lines[i..k])|
    decreases k
  {
    if j < k {
      JoinedGrows(lines, i, j, k - 1);
      assert lines[i..k] == lines[i..k - 1] + [lines[k - 1]];
      JoinedSnoc(lines[i..k - 1], lines[k - 1]);
    }
  }

  /** A run of lines that starts later is no longer text. */
  lemma {:induction false} JoinedShrinks(lines: seq<string>, h: nat, i: nat, k: nat)
    requires h <= i < k <= |lines|
    ensures |Joined(lines[i..k])| <= |Joined(lines[h..k])|
    decreases k
  {
    assert lines[i..k] == lines[i..k - 1] + [lines[k - 1]];
    assert lines[h..k] == lines[h..k - 1] + [lines[k - 1]];
    JoinedSnoc(lines[i..k - 1], lines[k - 1]);
    JoinedSnoc(lines[h..k - 1], lines[k - 1]);
    if i < k - 1 {
      JoinedShrinks(lines, h, i, k - 1);
    }
  }

  /** Where the lines of the first `n` chunks end. */
  function End(chunks: seq<seq<string>>, n: nat): nat
    requires n <= |chunks|
  {
    if n == 0 then 0 else End(chunks, n - 1) + |chunks[n - 1]|
  }

  lemma {:induction false} ChunkAt(chunks: seq<seq<string>>, n: nat)
    requires n < |chunks|
    ensures End(chunks, n + 1) <= |Flatten(chunks)|
    ensures Flatten(chunks)[End(chunks, n)..End(chunks, n + 1)] == chunks[n]
  {
    var last := |chunks| - 1;
    EndOfPrefix(chunks, last);
    if n < last {
      ChunkAt(chunks[..last], n);
      EndSame(chunks, last, n + 1);
      EndSame(chunks, last, n);
    } else {
      EndSame(chunks, last, last);
    }
  }

  lemma {:induction false} EndSame(chunks: seq<seq<string>>, last: nat, n: nat)
    requires n <= last <= |chunks|
    ensures End(chunks[..last], n) == End(chunks, n)
  {
    if n > 0 {
      EndSame(chunks, last, n - 1);
    }
  }

  lemma {:induction false} EndOfPrefix(chunks: seq<seq<string>>, n: nat)
    requires n <= |chunks|
    ensures End(chunks, n) == |Flatten(chunks[..n])|
  {
    if n > 0 {
      EndOfPrefix(chunks, n - 1);
      assert chunks[..n][..n - 1] == chunks[..n - 1];
    }
  }

  /**
   * Maximal: each chunk but the last is full - the line after it would not
   * have fitted into it.
   */
  ghost predicate Greedy(chunks: seq<seq<string>>, lines: seq<string>, limit: int) {
    forall n: nat :: n + 1 < |chunks| && End(chunks, n + 1) < |lines| ==>
                       Full(chunks[n], lines[End(chunks, n + 1)], limit)
  }

  /** The line does not fit into the chunk any more. */
  predicate Full(chunk: seq<string>, line: string, limit: int) {
    !Fits(chunk + [line], limit)
  }

  lemma WithinFits(lines: seq<string>, limit: int, h: nat, i: nat, j: nat, k: nat)
    requires h <= i < j <= k <= |lines| && Fits(lines[h..k], limit)
    ensures Fits(lines[i..j], limit)
  {
    JoinedShrinks(lines, h, i, j);
    JoinedGrows(lines, h, j, k);
  }

  /** A chunk of a split is a run of lines that fits. */
  lemma ChunkRun(chunks: seq<seq<string>>, lines: seq<string>, limit: int, n: nat)
    requires Split(chunks, lines, limit) && n < |chunks|
    ensures End(chunks, n) <= End(chunks, n + 1) <= |lines|
    ensures NoneEmpty(chunks) ==> End(chunks, n) < End(chunks, n + 1)
    ensures lines[End(chunks, n)..End(chunks, n + 1)] == chunks[n]
    ensures Fits(lines[End(chunks, n)..End(chunks, n + 1)], limit)
  {
    ChunkAt(chunks, n);
    hide Flatten, Fits;
  }

  /** A greedy chunk with the next line does not fit. */
  lemma GreedyRun(chunks: seq<seq<string>>, lines: seq<string>, limit: int, n: nat)
    requires Split(chunks, lines, limit) && NoneEmpty(chunks) && Greedy(chunks, lines, limit) && n + 1 < |chunks|
    ensures End(chunks, n) < End(chunks, n + 1) < |lines|
    ensures !Fits(lines[End(chunks, n)..End(chunks, n + 1) + 1], limit)
  {
    hide Flatten, Fits, Split, Joined;
    ChunkRun(chunks, lines, limit, n);
    ChunkRun(chunks, lines, limit, n + 1);
    OneLineMore(lines, End(chunks, n), End(chunks, n + 1));
  }

  lemma OneLineMore(lines: seq<string>, from: nat, to: nat)
    requires from <= to < |lines|
    ensures lines[from..to + 1] == lines[from..to] + [lines[to]]
  {
  }

  /** No split of the same lines is ahead of the greedy one after the same number of chunks. */
  lemma {:induction false} GreedyStaysAhead(greedy: seq<seq<string>>, other: seq<seq<string>>, lines: seq<string>,
                                             limit: int, n: nat)
    requires Split(greedy, lines, limit) && NoneEmpty(greedy) && Greedy(greedy, lines, limit)
    requires Split(other, lines, limit)
    requires n < |greedy| && n <= |other|
    ensures End(greedy, n) >= End(other, n)
  {
    hide Flatten, Fits, Split, Joined, Greedy;
    if n > 0 {
      GreedyStaysAhead(greedy, other, lines, limit, n - 1);
      GreedyRun(greedy, lines, limit, n - 1);
      ChunkRun(other, lines, limit, n - 1);
      if End(greedy, n) < End(other, n) {
        WithinFits(lines, limit, End(other, n - 1), End(greedy, n - 1), End(greedy, n) + 1, End(other, n));
      }
    }
  }

  /** The greedy split uses no more chunks than any other. */
  lemma GreedyIsFewest(greedy: seq<seq<string>>, other: seq<seq<string>>, lines: seq<string>, limit: int)
    requires Split(greedy, lines, limit) && NoneEmpty(greedy) && Greedy(greedy, lines, limit)
    requires Split(other, lines, limit)
    ensures |greedy| <= |other|
  {
    if |other| < |greedy| {
      GreedyStaysAhead(greedy, other, lines, limit, |other|);
      EndOfPrefix(other, |other|);
      EndOfPrefix(greedy, |other|);
      assert other[..|other|] == other;
      ChunkAt(greedy, |other|);
      assert false;
    }
  }

  // ---------------------------------------------------------------------
  // The loop
  // ---------------------------------------------------------------------

  method ChunkEmbedFieldLines(lines: seq<string>, limit: int) returns (r: Chunks)
    ensures r.TooLong? <==> exists i :: 0 <= i < |lines| && |lines[i]| > limit
    ensures lines == [] ==> r == Chunks([[]])
    ensures lines != [] && r.Chunks? ==>
              && Split(r.value, lines, limit) && NoneEmpty(r.value)
              && forall other :: Split(other, lines, limit) ==> |r.value| <= |other|
  {
    hide Packed, Joined, Flatten, Greedy, Split, NoneEmpty;
    if lines == [] {
      return Chunks([[]]);
    }
    var chunks: seq<seq<string>> := [];
    var current: seq<string> := [];
    var currentLen := 0;
    NothingPacked(limit);
    for i := 0 to |lines|
      invariant forall j :: 0 <= j < i ==> |lines[j]| <= limit
      invariant Packed(chunks, current, lines[..i], limit)
      invariant currentLen == |Joined(current)| && (i > 0 ==> current != [])
    {
      var line := lines[i];
      if |line| > limit {
        return TooLong(|line|);
      }
      var separator := if |current| > 0 then 1 else 0;
      JoinedSnoc(current, line);
      JoinedSnoc([], line);
      assert [] + [line] == [line];
      OneLineMore(lines, 0, i);
      if |current| > 0 && currentLen + separator + |line| > limit {
        NewChunk(chunks, current, lines[..i], line, limit);
        chunks, current, currentLen := chunks + [current], [line], |line|;
      } else {
        SameChunk(chunks, current, lines[..i], line, limit);
        current, currentLen := current + [line], currentLen + separator + |line|;
      }
    }
    assert lines[..|lines|] == lines;
    r := Chunks(chunks + [current]);
    AllPacked(chunks, current, lines, limit);
    forall other | Split(other, lines, limit) ensures |r.value| <= |other| {
      GreedyIsFewest(r.value, other, lines, limit);
    }
  }

  /** The finished chunks and the current one hold the lines read so far, greedily. */
  ghost predicate Packed(chunks: seq<seq<string>>, current: seq<string>, read: seq<string>, limit: int) {
    if current == [] then chunks == [] && read == []
    else
      && Split(chunks + [current], read, limit) && NoneEmpty(chunks + [current])
      && Greedy(chunks + [current], read, limit)
  }

  lemma NothingPacked(limit: int)
    ensures Packed([], [], [], limit) && |Joined([])| == 0
  {
  }

  lemma AllPacked(chunks: seq<seq<string>>, current: seq<string>, lines: seq<string>, limit: int)
    requires Packed(chunks, current, lines, limit) && current != []
    ensures Split(chunks + [current], lines, limit) && NoneEmpty(chunks + [current])
    ensures Greedy(chunks + [current], lines, limit)
  {
  }

  lemma FlattenSnoc(chunks: seq<seq<string>>, last: seq<string>)
    ensures Flatten(chunks + [last]) == Flatten(chunks) + last
    ensures End(chunks + [last], |chunks|) == |Flatten(chunks)|
    ensures End(chunks + [last], |chunks| + 1) == |Flatten(chunks)| + |last|
  {
    assert (chunks + [last])[..|chunks|] == chunks;
    EndOfPrefix(chunks + [last], |chunks|);
  }

  lemma EndKept(chunks: seq<seq<string>>, a: seq<seq<string>>, b: seq<seq<string>>, n: nat)
    requires n <= |chunks|
    ensures End(chunks + a, n) == End(chunks + b, n)
  {
    assert (chunks + a)[..|chunks|] == chunks == (chunks + b)[..|chunks|];
    EndSame(chunks + a, |chunks|, n);
    EndSame(chunks + b, |chunks|, n);
  }

  lemma SameChunk(chunks: seq<seq<string>>, current: seq<string>, read: seq<string>, line: string, limit: int)
    requires Packed(chunks, current, read, limit) && Fits(current + [line], limit)
    ensures Packed(chunks, current + [line], read + [line], limit)
  {
    hide Joined, Fits;
    FlattenSnoc(chunks, current);
    FlattenSnoc(chunks, current + [line]);
    if current == [] {
      assert current + [line] == [line];
      assert chunks + [current + [line]] == [[line]];
    } else {
      var was, now := chunks + [current], chunks + [current + [line]];
      assert Flatten(now) == read + [line];
      assert forall i :: 0 <= i < |chunks| ==> now[i] == was[i];
      hide Flatten;
      SameGreedy(chunks, current, read, line, limit);
    }
  }

  lemma SameGreedy(chunks: seq<seq<string>>, current: seq<string>, read: seq<string>, line: string, limit: int)
    requires Greedy(chunks + [current], read, limit) && End(chunks + [current], |chunks|) < |read|
    ensures Greedy(chunks + [current + [line]], read + [line], limit)
  {
    hide Joined, Fits, Full;
    var was, now := chunks + [current], chunks + [current + [line]];
    forall n: nat | n + 1 < |now| && End(now, n + 1) < |read + [line]|
      ensures Full(now[n], (read + [line])[End(now, n + 1)], limit)
    {
      EndKept(chunks, [current], [current + [line]], n + 1);
      EndMonotone(was, n + 1, |chunks|);
      assert now[n] == was[n] && (read + [line])[End(now, n + 1)] == read[End(was, n + 1)];
    }
  }

  lemma {:induction false} EndMonotone(chunks: seq<seq<string>>, i: nat, j: nat)
    requires i <= j <= |chunks|
    ensures End(chunks, i) <= End(chunks, j)
  {
    if i < j {
      EndMonotone(chunks, i, j - 1);
    }
  }

  lemma NewChunk(chunks: seq<seq<string>>, current: seq<string>, read: seq<string>, line: string, limit: int)
    requires Packed(chunks, current, read, limit) && current != []
    requires Fits([line], limit) && !Fits(current + [line], limit)
    ensures Packed(chunks + [current], [line], read + [line], limit)
  {
    var was, now := chunks + [current], chunks + [current] + [[line]];
    FlattenSnoc(was, [line]);
    FlattenSnoc(chunks, current);
    hide Joined, Fits;
    assert forall i :: 0 <= i < |was| ==> now[i] == was[i];
    assert Split(now, read + [line], limit);
    hide Flatten, Split;
    NewGreedy(chunks, current, read, line, limit);
  }

  lemma NewGreedy(chunks: seq<seq<string>>, current: seq<string>, read: seq<string>, line: string, limit: int)
    requires Greedy(chunks + [current], read, limit) && Full(current, line, limit)
    requires End(chunks + [current], |chunks|) < |read| == End(chunks + [current], |chunks| + 1)
    ensures Greedy(chunks + [current] + [[line]], read + [line], limit)
  {
    hide Full, End;
    var now, more := chunks + [current] + [[line]], read + [line];
    forall n: nat | n + 1 < |now| && End(now, n + 1) < |more|
      ensures Full(now[n], more[End(now, n + 1)], limit)
    {
      NewFull(chunks, current, read, line, limit, n);
    }
  }

  lemma NewFull(chunks: seq<seq<string>>, current: seq<string>, read: seq<string>, line: string, limit: int, n: nat)
    requires Greedy(chunks + [current], read, limit) && Full(current, line, limit)
    requires End(chunks + [current], |chunks|) < |read| == End(chunks + [current], |chunks| + 1)
    requires n <= |chunks|
    ensures var now, at := chunks + [current] + [[line]], End(chunks + [current] + [[line]], n + 1);
            at < |read| + 1 && Full(now[n], (read + [line])[at], limit)
  {
    hide Full, End;
    var was, more := chunks + [current], read + [line];
    NewEnd(was, [line], n + 1);
    if n < |chunks| {
      EndMonotone(was, n + 1, |chunks|);
      assert Full(was[n], read[End(was, n + 1)], limit);
      assert more[End(was, n + 1)] == read[End(was, n + 1)];
    } else {
      assert more[|read|] == line;
    }
  }

  lemma NewEnd(chunks: seq<seq<string>>, last: seq<string>, n: nat)
    requires n <= |chunks|
    ensures End(chunks + [last], n) == End(chunks, n)
  {
    EndKept(chunks, [], [last], n);
    assert chunks + [] == chunks;
  }
}
