/**
 * Wall-clock times and instants (`fromDatetimeLocalValue`,
 * `toDatetimeLocalValue`). Instants and wall times are milliseconds; a time
 * zone is an offset function whose values are whole minutes.
 */
module LocalTime {
  const MINUTE: int := 60_000
  const ATTEMPTS: nat := 4

  /** The zone's offset from UTC at an instant. */
  type Zone = int -> int

  function Floor(u: int): int {
    u - u % MINUTE
  }

  /** The wall minute shown at an instant (`zonedParts`, `toDatetimeLocalValue`). */
  function ToLocal(off: Zone, u: int): int {
    Floor(u) + off(u)
  }

  /** The next guess. */
  function Correct(off: Zone, wall: int, guess: int): int {
    guess + (wall - ToLocal(off, guess))
  }

  function Search(off: Zone, wall: int, guess: int, attempts: nat): int
    decreases attempts
  {
    if attempts == 0 || ToLocal(off, guess) == wall then guess
    else Search(off, wall, Correct(off, wall, guess), attempts - 1)
  }

  method FromDatetimeLocalValue(off: Zone, wall: int) returns (instant: int)
    ensures instant == Search(off, wall, wall, ATTEMPTS)
  {
    instant := wall;
    for attempt := 0 to ATTEMPTS
      invariant Search(off, wall, instant, ATTEMPTS - attempt) == Search(off, wall, wall, ATTEMPTS)
    {
      var delta := wall - ToLocal(off, instant);
      if delta == 0 {
        break;
      }
      instant := instant + delta;
    }
  }

  /** The offset around `wall`: `before` until the transition, `later` from then on. */
  datatype Transition = Transition(at: int, before: int, later: int) {
    function Offset(u: int): int {
      if u < at then before else later
    }
  }

  /** One transition at most among the instants that could show the wall time, and the wall time read as UTC. */
  ghost predicate OneTransition(off: Zone, wall: int, t: Transition) {
    && t.before % MINUTE == 0 && t.later % MINUTE == 0
    && off(wall) == t.Offset(wall)
    && off(wall - t.before) == t.Offset(wall - t.before)
    && off(wall - t.later) == t.Offset(wall - t.later)
  }

  /** An instant before the transition, or from it on, shows the wall time. */
  predicate ShownBefore(t: Transition, wall: int) {
    wall - t.before < t.at
  }

  predicate ShownLater(t: Transition, wall: int) {
    wall - t.later >= t.at
  }

  lemma AttemptOnMinute(off: Zone, wall: int, guess: int)
    requires wall % MINUTE == 0 && guess % MINUTE == 0
    ensures Correct(off, wall, guess) == wall - off(guess)
    ensures ToLocal(off, guess) == wall <==> guess == wall - off(guess)
  {
  }

  lemma Unfold(off: Zone, wall: int, guess: int, attempts: nat)
    requires wall % MINUTE == 0 && guess % MINUTE == 0 && attempts > 0
    ensures Search(off, wall, guess, attempts)
            == if guess == wall - off(guess) then guess else Search(off, wall, wall - off(guess), attempts - 1)
  {
    AttemptOnMinute(off, wall, guess);
  }

  lemma OnMinutes(wall: int, t: Transition)
    requires wall % MINUTE == 0 && t.before % MINUTE == 0 && t.later % MINUTE == 0
    ensures (wall - t.before) % MINUTE == 0 && (wall - t.later) % MINUTE == 0
  {
  }

  /** The four attempts, written out: `a` is the offset at `wall` read as UTC, `b` the other one. */
  lemma FourAttempts(off: Zone, wall: int, a: int, b: int)
    requires wall % MINUTE == 0 && (wall - a) % MINUTE == 0 && (wall - b) % MINUTE == 0
    requires off(wall) == a && off(wall - a) in {a, b} && off(wall - b) in {a, b}
    ensures Search(off, wall, wall, ATTEMPTS)
            == if off(wall - a) == a then wall - a else wall - b
  {
    Unfold(off, wall, wall, 4);
    if a != 0 {
      Unfold(off, wall, wall - a, 3);
      if off(wall - a) != a {
        Unfold(off, wall, wall - b, 2);
        if off(wall - b) != b {
          Unfold(off, wall, wall - a, 1);
        }
      }
    }
    hide ToLocal, Correct;
  }

  function OtherOffset(t: Transition, wall: int): int {
    if wall < t.at then t.later else t.before
  }

  /**
   * With one transition among the three instants probed, the search ends at an
   * instant showing the wall time exactly when one of the two offsets admits it. A wall time shown twice gives the instant
   * with the offset in force at `wall` read as UTC; one that is skipped gives
   * an instant off by the jump.
   */
  lemma SearchFindsShown(off: Zone, wall: int, t: Transition)
    requires wall % MINUTE == 0 && OneTransition(off, wall, t)
    ensures var r := Search(off, wall, wall, ATTEMPTS);
            && (r == wall - t.before || r == wall - t.later)
            && (ToLocal(off, r) == wall <==> ShownBefore(t, wall) || ShownLater(t, wall))
            && (ShownBefore(t, wall) && ShownLater(t, wall) ==> r == wall - t.Offset(wall))
            && (!ShownBefore(t, wall) && !ShownLater(t, wall) ==>
                  ToLocal(off, r) == wall + t.Offset(wall) - OtherOffset(t, wall))
  {
    OnMinutes(wall, t);
    FourAttempts(off, wall, t.Offset(wall), OtherOffset(t, wall));
    AttemptOnMinute(off, wall, wall - t.before);
    AttemptOnMinute(off, wall, wall - t.later);
    hide Search;
  }

  /** The zone changes its offset at one whole minute and at no other time. */
  ghost predicate Follows(off: Zone, t: Transition) {
    && t.at % MINUTE == 0 && t.before % MINUTE == 0 && t.later % MINUTE == 0
    && forall u :: off(u) == t.Offset(u)
  }

  /** In a zone with one transition the search shows the wall time if and only if some instant does. */
  lemma SearchFindsInstant(off: Zone, wall: int, t: Transition)
    requires wall % MINUTE == 0 && Follows(off, t)
    ensures ToLocal(off, Search(off, wall, wall, ATTEMPTS)) == wall <==> exists u :: ToLocal(off, u) == wall
  {
    SearchFindsShown(off, wall, t);
    hide Search;
    forall u | ToLocal(off, u) == wall ensures ShownBefore(t, wall) || ShownLater(t, wall) {
      assert off(u) == t.Offset(u);
      NoMinuteCrosses(u, t.at);
    }
  }

  lemma NoMinuteCrosses(u: int, at: int)
    requires at % MINUTE == 0
    ensures u < at <==> Floor(u) < at
  {
  }

  /**
   * Reading back what the form shows: the instant comes back to the minute,
   * or, if the clock shows that minute twice, as the other of the two instants.
   */
  lemma ShownTimeReadsBack(off: Zone, u: int, t: Transition)
    requires off(Floor(u)) == off(u) == t.Offset(Floor(u))
    requires OneTransition(off, ToLocal(off, u), t)
    ensures var wall := ToLocal(off, u);
            var r := Search(off, wall, wall, ATTEMPTS);
            && ToLocal(off, r) == wall
            && (r != Floor(u) ==> ShownBefore(t, wall) && ShownLater(t, wall))
  {
    var wall := ToLocal(off, u);
    FloorIsMinute(u, off(u));
    SearchFindsShown(off, wall, t);
    assert Floor(u) == wall - off(u);
    OnMinutes(wall, t);
    AttemptOnMinute(off, wall, wall - t.before);
    AttemptOnMinute(off, wall, wall - t.later);
    hide Search, Floor;
  }

  lemma FloorIsMinute(u: int, o: int)
    requires o % MINUTE == 0
    ensures (Floor(u) + o) % MINUTE == 0
  {
  }

  /** A zone that changes its offset three times within three hours. */
  function ThreeJumps(u: int): int {
    if u < -150 * MINUTE then 180 * MINUTE
    else if -90 * MINUTE <= u < -30 * MINUTE then 120 * MINUTE
    else 60 * MINUTE
  }

  /** Beyond one transition four attempts can miss an instant that shows the wall time. */
  lemma MoreTransitionsCanMiss()
    ensures ToLocal(ThreeJumps, -180 * MINUTE) == 0
    ensures ToLocal(ThreeJumps, Search(ThreeJumps, 0, 0, ATTEMPTS)) != 0
  {
    FourAttempts(ThreeJumps, 0, 60 * MINUTE, 120 * MINUTE);
  }
}
