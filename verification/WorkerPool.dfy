/**
 * `mapWithConcurrency`: workers that share a counter and a result array, in
 * every interleaving. A schedule names the worker that moves next; a worker
 * moves from its claim to its call and from the settled call to its next claim.
 */
module WorkerPool {
  import opened Prelude

  datatype Worker = Idle | Busy(index: nat) | Finished | Failed(index: nat)

  /** The shared state; `claims` lists the indices in the order they were claimed. */
  datatype Pool<R> = Pool(next: nat, results: seq<Option<R>>, workers: seq<Worker>, claims: seq<nat>)

  /** How many workers run: as many as the limit and the items allow. */
  function Size(concurrency: int, count: nat): (size: nat)
    ensures size <= count && size <= Max(1, concurrency)
    ensures size == count || size >= Max(1, concurrency)
  {
    Min(Max(1, concurrency), count)
  }

  function InFlight(workers: seq<Worker>): (busy: set<nat>)
    ensures forall w :: w in busy <==> 0 <= w < |workers| && workers[w].Busy?
  {
    set w | 0 <= w < |workers| && workers[w].Busy?
  }

  /** The claimed indices are the first `next` ones, each claimed once and in order. */
  ghost predicate ClaimedInOrder<R>(p: Pool<R>) {
    && |p.claims| == Min(p.next, |p.results|)
    && forall k :: 0 <= k < |p.claims| ==> p.claims[k] == k
  }

  /** Each index is unclaimed, held by a worker, or settled with its own outcome. */
  ghost predicate Accounted<R>(p: Pool<R>, outcome: nat -> Option<R>) {
    && (forall i :: p.next <= i < |p.results| ==> p.results[i] == None)
    && (forall i :: 0 <= i < |p.results| && p.results[i].Some? ==> p.results[i] == outcome(i))
    && (forall i :: 0 <= i < p.next && i < |p.results| && p.results[i].None? ==> Held(p.workers, i, outcome))
    && (forall w :: 0 <= w < |p.workers| && p.workers[w].Failed? ==> outcome(p.workers[w].index).None?)
  }

  /** A worker is calling for the index, or its call failed. */
  ghost predicate Held<R>(workers: seq<Worker>, i: nat, outcome: nat -> Option<R>) {
    Busy(i) in workers || (Failed(i) in workers && outcome(i).None?)
  }

  /** No two workers hold the same index, and a finished worker has seen the end. */
  ghost predicate HeldOnce<R>(p: Pool<R>) {
    && (forall w :: 0 <= w < |p.workers| && (p.workers[w].Busy? || p.workers[w].Failed?) ==>
          p.workers[w].index < p.next && p.workers[w].index < |p.results| && p.results[p.workers[w].index].None?)
    && (forall v, w :: 0 <= v < w < |p.workers| && p.workers[v].Busy? && p.workers[w].Busy? ==>
          p.workers[v].index != p.workers[w].index)
    && (forall v, w :: 0 <= v < |p.workers| && 0 <= w < |p.workers| && p.workers[v].Failed? && p.workers[w].Busy? ==>
          p.workers[v].index != p.workers[w].index)
    && (forall w :: 0 <= w < |p.workers| && p.workers[w] == Finished ==> p.next >= |p.results|)
  }

  ghost predicate Consistent<R>(p: Pool<R>, outcome: nat -> Option<R>) {
    ClaimedInOrder(p) && Accounted(p, outcome) && HeldOnce(p)
  }

  predicate Done(w: Worker) {
    w.Finished? || w.Failed?
  }

  /** Moves left at most: claims to make, calls to settle and workers to end. */
  function Work<R>(p: Pool<R>): int {
    2 * (|p.results| - Min(p.next, |p.results|)) + Weight(p.workers)
  }

  function Weight(workers: seq<Worker>): nat {
    if workers == [] then 0
    else
      var n := |workers| - 1;
      Weight(workers[..n]) + match workers[n] case Idle => 1 case Busy(_) => 2 case Finished => 0 case Failed(_) => 0
  }

  lemma {:induction false} WeightMoves(workers: seq<Worker>, w: nat, to: Worker)
    requires w < |workers|
    ensures Weight(workers[w := to]) == Weight(workers) - Weight([workers[w]]) + Weight([to])
  {
    var n := |workers| - 1;
    assert [workers[w]][..0] == [] && [to][..0] == [];
    if w < n {
      WeightMoves(workers[..n], w, to);
      assert workers[w := to][..n] == workers[..n][w := to];
    } else {
      assert workers[w := to][..n] == workers[..n];
    }
  }

  /** One move of one worker. A worker that is done stays as it is. */
  method Move<R>(p: Pool<R>, w: nat, outcome: nat -> Option<R>) returns (q: Pool<R>)
    requires w < |p.workers| && Consistent(p, outcome)
    ensures Consistent(q, outcome) && |q.workers| == |p.workers| && |q.results| == |p.results|
    ensures p.claims <= q.claims
    ensures if Done(p.workers[w]) then q == p else Work(q) < Work(p)
    ensures forall v :: 0 <= v < |p.workers| && v != w ==> q.workers[v] == p.workers[v]
  {
    match p.workers[w]
    case Idle =>
      if p.next >= |p.results| {
        q := p.(next := p.next + 1, workers := p.workers[w := Finished]);
        Ended(p, w, q, outcome);
        WeightMoves(p.workers, w, Finished);
      } else {
        q := p.(next := p.next + 1, workers := p.workers[w := Busy(p.next)], claims := p.claims + [p.next]);
        Claimed(p, w, q, outcome);
        WeightMoves(p.workers, w, Busy(p.next));
      }
    case Busy(i) =>
      if outcome(i).Some? {
        q := p.(results := p.results[i := outcome(i)], workers := p.workers[w := Idle]);
        Settled(p, w, q, outcome);
        WeightMoves(p.workers, w, Idle);
      } else {
        q := p.(workers := p.workers[w := Failed(i)]);
        Rejected(p, w, q, outcome);
        WeightMoves(p.workers, w, Failed(i));
      }
    case _ =>
      q := p;
  }

  lemma OtherHeld<R>(workers: seq<Worker>, w: nat, to: Worker, i: nat, outcome: nat -> Option<R>)
    requires w < |workers| && Held(workers, i, outcome) && workers[w] != Busy(i) && !workers[w].Failed?
    ensures Held(workers[w := to], i, outcome)
  {
    if Busy(i) in workers {
      var v :| 0 <= v < |workers| && workers[v] == Busy(i);
      assert workers[w := to][v] == Busy(i);
    } else {
      var v :| 0 <= v < |workers| && workers[v] == Failed(i);
      assert workers[w := to][v] == Failed(i);
    }
  }

  lemma Ended<R>(p: Pool<R>, w: nat, q: Pool<R>, outcome: nat -> Option<R>)
    requires w < |p.workers| && Consistent(p, outcome) && p.workers[w] == Idle && p.next >= |p.results|
    requires q == p.(next := p.next + 1, workers := p.workers[w := Finished])
    ensures Consistent(q, outcome)
  {
    forall i | 0 <= i < |q.results| && q.results[i].None? ensures Held(q.workers, i, outcome) {
      OtherHeld(p.workers, w, Finished, i, outcome);
    }
  }

  lemma Claimed<R>(p: Pool<R>, w: nat, q: Pool<R>, outcome: nat -> Option<R>)
    requires w < |p.workers| && Consistent(p, outcome) && p.workers[w] == Idle && p.next < |p.results|
    requires q == p.(next := p.next + 1, workers := p.workers[w := Busy(p.next)], claims := p.claims + [p.next])
    ensures Consistent(q, outcome)
  {
    forall i | 0 <= i < q.next && q.results[i].None? ensures Held(q.workers, i, outcome) {
      if i == p.next {
        assert q.workers[w] == Busy(i);
      } else {
        OtherHeld(p.workers, w, Busy(p.next), i, outcome);
      }
    }
  }

  lemma Settled<R>(p: Pool<R>, w: nat, q: Pool<R>, outcome: nat -> Option<R>)
    requires w < |p.workers| && Consistent(p, outcome) && p.workers[w].Busy?
    requires outcome(p.workers[w].index).Some?
    requires p.workers[w].index < |p.results|
    requires q == p.(results := p.results[p.workers[w].index := outcome(p.workers[w].index)], workers := p.workers[w := Idle])
    ensures Consistent(q, outcome)
  {
    forall i | 0 <= i < q.next && i < |q.results| && q.results[i].None? ensures Held(q.workers, i, outcome) {
      assert i != p.workers[w].index;
      OtherHeld(p.workers, w, Idle, i, outcome);
    }
  }

  lemma Rejected<R>(p: Pool<R>, w: nat, q: Pool<R>, outcome: nat -> Option<R>)
    requires w < |p.workers| && Consistent(p, outcome) && p.workers[w].Busy?
    requires outcome(p.workers[w].index).None?
    requires q == p.(workers := p.workers[w := Failed(p.workers[w].index)])
    ensures Consistent(q, outcome)
  {
    var k := p.workers[w].index;
    forall i | 0 <= i < q.next && i < |q.results| && q.results[i].None? ensures Held(q.workers, i, outcome) {
      if i == k {
        assert q.workers[w] == Failed(k);
      } else {
        OtherHeld(p.workers, w, Failed(k), i, outcome);
      }
    }
  }

  // ---------------------------------------------------------------------
  // Every schedule
  // ---------------------------------------------------------------------

  function Effective(moves: nat, p: Worker): nat {
    if Done(p) then moves else moves + 1
  }

  lemma {:induction false} FreshWeight(count: nat)
    ensures Weight(seq(count, i => Idle)) == count
  {
    if count > 0 {
      assert seq(count, i => Idle)[..count - 1] == seq(count - 1, i => Idle);
      FreshWeight(count - 1);
    }
  }

  /** Busy workers hold distinct indices, so there are no more calls than workers. */
  lemma {:induction false} FlightBounded(workers: seq<Worker>)
    ensures |InFlight(workers)| <= |workers|
  {
    if workers != [] {
      var n := |workers| - 1;
      FlightBounded(workers[..n]);
      var busy := InFlight(workers[..n]) + if workers[n].Busy? then {n} else {};
      forall w ensures w in InFlight(workers) <==> w in busy {
        if w in InFlight(workers) && w != n {
          assert workers[..n][w] == workers[w];
        }
      }
      assert InFlight(workers) == busy;
    }
  }

  /** When every worker is finished without failure, every result is in place. */
  lemma FinishedResults<R>(p: Pool<R>, outcome: nat -> Option<R>)
    requires Consistent(p, outcome) && p.workers != [] && forall w :: w in p.workers ==> w == Finished
    ensures forall i :: 0 <= i < |p.results| ==> p.results[i].Some? && p.results[i] == outcome(i)
    ensures |p.claims| == |p.results|
  {
    assert p.workers[0] in p.workers;
  }

  /** When all workers are done without the whole list claimed, some call failed. */
  lemma DoneMeansSettled<R>(p: Pool<R>, outcome: nat -> Option<R>)
    requires Consistent(p, outcome) && forall w :: w in p.workers ==> Done(w)
    ensures forall i :: 0 <= i < p.next && i < |p.results| ==>
                          p.results[i] == outcome(i) && (p.results[i].None? ==> Failed(i) in p.workers)
  {
    forall i | 0 <= i < p.next && i < |p.results| && p.results[i].None?
      ensures outcome(i).None? && Failed(i) in p.workers
    {
      assert Held(p.workers, i, outcome);
      assert Busy(i) !in p.workers;
    }
  }

  /** How often a schedule lets a worker move. */
  function Turns(schedule: seq<nat>, w: nat): nat {
    multiset(schedule)[w]
  }

  lemma TurnsSnoc(schedule: seq<nat>, k: nat)
    requires k < |schedule|
    ensures forall w: nat :: Turns(schedule[..k + 1], w) == Turns(schedule[..k], w) + if w == schedule[k] then 1 else 0
  {
    assert schedule[..k + 1] == schedule[..k] + [schedule[k]];
  }

  lemma NoTurnsYet()
    ensures forall w: nat :: Turns([], w) == 0
  {
  }

  /** No worker that is not done has had more turns than the moves that were made. */
  ghost predicate TurnsUsed<R>(p: Pool<R>, turns: seq<nat>, moves: nat) {
    forall w :: 0 <= w < |p.workers| && !Done(p.workers[w]) ==> Turns(turns, w) <= moves
  }

  lemma TurnTaken<R>(p: Pool<R>, q: Pool<R>, schedule: seq<nat>, k: nat, moves: nat)
    requires k < |schedule| && schedule[k] < |p.workers| == |q.workers|
    requires TurnsUsed(p, schedule[..k], moves)
    requires Done(p.workers[schedule[k]]) ==> q == p
    requires forall v :: 0 <= v < |p.workers| && v != schedule[k] ==> q.workers[v] == p.workers[v]
    ensures TurnsUsed(q, schedule[..k + 1], Effective(moves, p.workers[schedule[k]]))
  {
    TurnsSnoc(schedule, k);
    hide Turns;
  }

  lemma ConsistentAtStart<R>(count: nat, size: nat, outcome: nat -> Option<R>)
    ensures Consistent(Pool(0, seq(count, i => None), seq(size, i => Idle), []), outcome)
  {
  }

  /**
   * Settled results are the right ones. All are there once every worker is
   * finished, and without a rejection a worker that is done is finished.
   */
  lemma AtEnd<R>(p: Pool<R>, outcome: nat -> Option<R>)
    requires Consistent(p, outcome) && (|p.results| > 0 ==> p.workers != [])
    ensures forall i :: 0 <= i < |p.results| && p.results[i].Some? ==> p.results[i] == outcome(i)
    ensures (forall w :: w in p.workers ==> w == Finished) ==>
              forall i :: 0 <= i < |p.results| ==> p.results[i].Some? && p.results[i] == outcome(i)
    ensures (forall i :: 0 <= i < |p.results| ==> outcome(i).Some?)
            && (forall w :: 0 <= w < |p.workers| ==> Done(p.workers[w])) ==>
              forall i :: 0 <= i < |p.results| ==> p.results[i] == outcome(i)
  {
    if |p.results| > 0 && forall w :: w in p.workers ==> w == Finished {
      FinishedResults(p, outcome);
    }
    if (forall i :: 0 <= i < |p.results| ==> outcome(i).Some?) && (forall w :: 0 <= w < |p.workers| ==> Done(p.workers[w])) {
      assert forall w :: w in p.workers ==> w == Finished;
    }
  }

  /**
   * `mapWithConcurrency` under a schedule: `outcome(i)` is what the worker
   * function gives for item `i`, `None` when it rejects. `moves` counts the
   * moves of workers that were not done.
   */
  method MapWithConcurrency<R>(count: nat, concurrency: int, outcome: nat -> Option<R>, schedule: seq<nat>)
    returns (p: Pool<R>, moves: nat)
    requires forall w :: w in schedule ==> w < Size(concurrency, count)
    ensures |p.results| == count && |p.workers| == Size(concurrency, count)
    ensures Consistent(p, outcome)
    ensures |InFlight(p.workers)| <= Max(1, concurrency)
    ensures forall i :: 0 <= i < count && p.results[i].Some? ==> p.results[i] == outcome(i)
    ensures (forall w :: w in p.workers ==> w == Finished) ==>
              forall i :: 0 <= i < count ==> p.results[i].Some? && p.results[i] == outcome(i)
    ensures moves <= 2 * count + Size(concurrency, count)
    ensures forall w :: 0 <= w < |p.workers| && Turns(schedule, w) > 2 * count + |p.workers| ==> Done(p.workers[w])
    ensures (forall i :: 0 <= i < count ==> outcome(i).Some?)
            && (forall w :: 0 <= w < |p.workers| ==> Turns(schedule, w) > 2 * count + |p.workers|) ==>
              forall i :: 0 <= i < count ==> p.results[i] == outcome(i)
  {
    hide Consistent, Turns, Weight, InFlight;
    var size := Size(concurrency, count);
    p, moves := Pool(0, seq(count, i => None), seq(size, i => Idle), []), 0;
    FreshWeight(size);
    ConsistentAtStart<R>(count, size, outcome);
    NoTurnsYet();
    for k := 0 to |schedule|
      invariant |p.results| == count && |p.workers| == size && Consistent(p, outcome)
      invariant moves + Work(p) <= 2 * count + size
      invariant TurnsUsed(p, schedule[..k], moves)
    {
      assert schedule[k] in schedule;
      var q := Move(p, schedule[k], outcome);
      TurnTaken(p, q, schedule, k, moves);
      p, moves := q, Effective(moves, p.workers[schedule[k]]);
    }
    assert schedule[..|schedule|] == schedule;
    AtEnd(p, outcome);
    FlightBounded(p.workers);
  }
}
