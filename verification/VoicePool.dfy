/**
 * The voice-channel reconciler of `voice-channels.ts`: a fixed pool of channels
 * shared by the Runs, with temporary channels as a fallback, against a remote
 * where any call may fail - also after it took effect.
 */
module VoicePool {
  import opened Prelude

  datatype Action = PROVISION | RECONCILE | RETIRE_IF_EMPTY

  datatype Item = Item(runId: Id, existing: Option<Id>, desiredName: Id, action: Action)

  datatype Fetch = Voice(name: Id, members: nat) | Other | Unresolved | UnknownChannel | FetchError

  /** A call that writes: done, or failed with or without its effect. */
  datatype Call = Done | FailedAfter | FailedBefore

  datatype Removal = Removed | Gone | Refused

  /**
   * The answers of one pass. `heldFetch`, `clear`, `record` and `remove` answer
   * the one call made for a Run, `poolFetch` the call for a Run and a position in
   * the pool. Nothing kept depends on whether a rename, or the removal of a
   * channel that could not be recorded, succeeds.
   */
  datatype World = World(heldFetch: Id -> Fetch, poolFetch: (Id, nat) -> Fetch, clear: Id -> Call, record: Id -> Call,
                         remove: Id -> Removal, canCreate: bool, create: Id -> Option<Id>)

  datatype Effect = Rename(channel: Id) | Delete(channel: Id) | Create(channel: Id)

  /** The channel each Run holds in the database, this pass's resolution map and what was asked of Discord. */
  datatype State = State(held: map<Id, Id>, resolved: map<Id, Option<Id>>, log: seq<Effect>)

  // ---------------------------------------------------------------------
  // Holdings
  // ---------------------------------------------------------------------

  /** No two Runs hold the same channel. */
  ghost predicate Exclusive(held: map<Id, Id>) {
    forall r, s :: r in held && s in held && r != s ==> held[r] != held[s]
  }

  ghost predicate DistinctRuns(items: seq<Item>) {
    forall i, j :: 0 <= i < j < |items| ==> items[i].runId != items[j].runId
  }

  /** The work list is the database: every Run holding a channel has an item that says so. */
  ghost predicate Covers(items: seq<Item>, held: map<Id, Id>) {
    && (forall i :: i in items ==> (i.existing.Some? <==> i.runId in held) && (i.existing.Some? ==> held[i.runId] == i.existing.value))
    && (forall r :: r in held ==> r in RunIds(items))
  }

  function RunIds(items: seq<Item>): set<Id> {
    set i | i in items :: i.runId
  }

  /** Pool channels are only assigned and released. */
  ghost predicate PoolUntouched(log: seq<Effect>, pool: seq<Id>) {
    forall e :: e in log ==> e.channel !in pool
  }

  /** A channel the pass shows for a Run is recorded for that Run. */
  ghost predicate ResolvedRecorded(s: State) {
    forall r :: r in s.resolved && s.resolved[r].Some? ==> r in s.held && s.held[r] == s.resolved[r].value
  }

  /** `clearVoiceChannel`: releases the Run's channel, unless it fails before taking effect. */
  function Cleared(held: map<Id, Id>, run: Id, call: Call): map<Id, Id> {
    if call == FailedBefore then held else held - {run}
  }

  function Recorded(held: map<Id, Id>, run: Id, channel: Id, call: Call): map<Id, Id> {
    if call == FailedBefore then held else held[run := channel]
  }

  // ---------------------------------------------------------------------
  // A Run that holds a channel
  // ---------------------------------------------------------------------

  /** A Run gives its channel up only if it is confirmed gone, or released or removed after the Run. */
  predicate MayLose(item: Item, pool: seq<Id>, world: World)
    requires item.existing.Some?
  {
    match item.action
    case PROVISION => false
    case RECONCILE => world.heldFetch(item.runId) == UnknownChannel
    case RETIRE_IF_EMPTY =>
      item.existing.value in pool || world.heldFetch(item.runId) == UnknownChannel
      || (world.heldFetch(item.runId).Voice? && world.heldFetch(item.runId).members == 0
          && world.remove(item.runId) != Refused)
  }

  /** A Run to be given a channel: starting without one, or going on after its channel was confirmed gone and cleared. */
  predicate NeedsChannel(item: Item, world: World) {
    if item.existing.None? then item.action == PROVISION
    else item.action == RECONCILE && world.heldFetch(item.runId) == UnknownChannel && world.clear(item.runId) == Done
  }

  /** What handling the channel an item holds does to the state. */
  ghost predicate ItemStep(item: Item, pool: seq<Id>, world: World, s: State, t: State, needs: bool)
    requires item.existing.Some?
  {
    var run, channel := item.runId, item.existing.value;
    && t.held == (if MayLose(item, pool, world) then Cleared(s.held, run, world.clear(run)) else s.held)
    && t.resolved == (if MayLose(item, pool, world)
                      then if world.clear(run) == Done then s.resolved[run := None] else s.resolved
                      else if item.action == RECONCILE && world.heldFetch(run).Voice? then s.resolved[run := Some(channel)]
                      else s.resolved)
    && (needs <==> NeedsChannel(item, world))
    && s.log <= t.log
    && (forall e :: e in t.log[|s.log|..] ==>
          e == (if Renames(item, pool, world) then Rename(channel) else Delete(channel))
          && (Renames(item, pool, world) || Empties(item, pool, world)))
    && (Renames(item, pool, world) ==> Rename(channel) in t.log)
    && (Empties(item, pool, world) ==> Delete(channel) in t.log)
  }

  /** A temporary channel of a Run still going, under another name than wanted. */
  predicate Renames(item: Item, pool: seq<Id>, world: World) {
    && item.action == RECONCILE && item.existing.Some? && item.existing.value !in pool
    && world.heldFetch(item.runId).Voice? && world.heldFetch(item.runId).name != item.desiredName
  }

  /** A temporary channel of an ended Run with nobody in it. */
  predicate Empties(item: Item, pool: seq<Id>, world: World) {
    && item.action == RETIRE_IF_EMPTY && item.existing.Some? && item.existing.value !in pool
    && world.heldFetch(item.runId).Voice? && world.heldFetch(item.runId).members == 0
  }

  // ---------------------------------------------------------------------
  // What becomes of each item
  // ---------------------------------------------------------------------

  /** An ended Run whose channel is the pool's, gone, or empty and deleted, and whose release is recorded. */
  predicate Released(item: Item, pool: seq<Id>, world: World) {
    && item.action == RETIRE_IF_EMPTY && item.existing.Some? && world.clear(item.runId) == Done
    && (|| item.existing.value in pool
        || world.heldFetch(item.runId) == UnknownChannel
        || (world.heldFetch(item.runId).Voice? && world.heldFetch(item.runId).members == 0
            && world.remove(item.runId) != Refused))
  }

  /** A Run still going whose channel is there. */
  predicate Present(item: Item, world: World) {
    item.action == RECONCILE && item.existing.Some? && world.heldFetch(item.runId).Voice?
  }

  /** A channel kept without being seen, or whose release is not recorded. */
  predicate LeftAlone(item: Item, pool: seq<Id>, world: World) {
    && item.existing.Some? && item.action != PROVISION
    && !Released(item, pool, world) && !Present(item, world) && !NeedsChannel(item, world)
  }

  /** What the pass owes an item that had a channel. */
  ghost predicate ItemOutcome(item: Item, pool: seq<Id>, world: World, s: State) {
    var run := item.runId;
    && (Released(item, pool, world) ==> run !in s.held && run in s.resolved && s.resolved[run] == None)
    && (Present(item, world) ==> run in s.resolved && s.resolved[run] == item.existing)
    && (LeftAlone(item, pool, world) ==> run !in s.resolved)
    && (Renames(item, pool, world) ==> Rename(item.existing.value) in s.log)
    && (Empties(item, pool, world) ==> Delete(item.existing.value) in s.log)
  }

  /** Each thing asked of Discord has its reason. */
  ghost predicate Justified(items: seq<Item>, pool: seq<Id>, world: World, e: Effect) {
    match e
    case Rename(c) => exists i :: i in items && Renames(i, pool, world) && i.existing == Some(c)
    case Delete(c) =>
      || (exists i :: i in items && Empties(i, pool, world) && i.existing == Some(c))
      || (exists i :: i in items && NeedsChannel(i, world) && world.create(i.runId) == Some(c) && world.record(i.runId) != Done)
    case Create(c) =>
      world.canCreate && exists i :: i in items && NeedsChannel(i, world) && world.create(i.runId) == Some(c)
  }

  ghost predicate AllJustified(items: seq<Item>, pool: seq<Id>, world: World, log: seq<Effect>) {
    forall e :: e in log ==> Justified(items, pool, world, e)
  }

  ghost predicate Outcomes(items: seq<Item>, n: nat, pool: seq<Id>, world: World, s: State) {
    n <= |items| && forall i :: 0 <= i < n ==> ItemOutcome(items[i], pool, world, s)
  }

  /** The step for an item gives its outcome. */
  lemma StepOutcome(items: seq<Item>, item: Item, pool: seq<Id>, world: World, s: State, t: State, needs: bool)
    requires item in items && item.existing.Some? && item.action != PROVISION && ItemStep(item, pool, world, s, t, needs)
    requires item.runId !in s.resolved && AllJustified(items, pool, world, s.log)
    ensures ItemOutcome(item, pool, world, t) && AllJustified(items, pool, world, t.log) && s.log <= t.log
  {
    forall e | e in t.log ensures Justified(items, pool, world, e) {
      assert e in s.log || e in t.log[|s.log|..];
    }
  }

  /** Nothing of a Run's holding and resolution changed, and the log only grew. */
  ghost predicate SameFor(r: Id, s: State, t: State) {
    && (r in t.held <==> r in s.held) && (r in t.resolved <==> r in s.resolved)
    && (r in s.resolved ==> t.resolved[r] == s.resolved[r])
    && s.log <= t.log
  }

  lemma OutcomeKept(item: Item, pool: seq<Id>, world: World, s: State, t: State)
    requires ItemOutcome(item, pool, world, s) && (SameFor(item.runId, s, t) || NeedsChannel(item, world))
    ensures ItemOutcome(item, pool, world, t)
  {
  }

  method Reconcile(item: Item, pool: seq<Id>, world: World, s: State) returns (t: State, needs: bool)
    requires item.existing.Some? && item.action == RECONCILE
    ensures ItemStep(item, pool, world, s, t, needs)
  {
    var run, channel := item.runId, item.existing.value;
    var fetched := world.heldFetch(run);
    if fetched == UnknownChannel {
      var call := world.clear(run);
      var held := Cleared(s.held, run, call);
      if call != Done {
        return s.(held := held), false;
      }
      return s.(held := held, resolved := s.resolved[run := None]), true;
    }
    if !fetched.Voice? {
      return s, false;
    }
    t, needs := s.(resolved := s.resolved[run := Some(channel)]), false;
    if channel !in pool && fetched.name != item.desiredName {
      t := t.(log := s.log + [Rename(channel)]);
    }
  }

  method ReleasePooled(item: Item, pool: seq<Id>, world: World, s: State) returns (t: State)
    requires item.existing.Some? && item.action == RETIRE_IF_EMPTY && item.existing.value in pool
    ensures ItemStep(item, pool, world, s, t, false)
  {
    var call := world.clear(item.runId);
    t := s.(held := Cleared(s.held, item.runId, call));
    if call == Done {
      t := t.(resolved := s.resolved[item.runId := None]);
    }
  }

  method RetireIfEmpty(item: Item, pool: seq<Id>, world: World, s: State) returns (t: State)
    requires item.existing.Some? && item.action == RETIRE_IF_EMPTY && item.existing.value !in pool
    ensures ItemStep(item, pool, world, s, t, false)
  {
    var run := item.runId;
    t := s;
    var fetched := world.heldFetch(run);
    if fetched != UnknownChannel {
      if !fetched.Voice? || fetched.members > 0 {
        return;
      }
      t := t.(log := s.log + [Delete(item.existing.value)]);
      if world.remove(run) == Refused {
        return;
      }
    }
    var call := world.clear(run);
    t := t.(held := Cleared(s.held, run, call));
    if call == Done {
      t := t.(resolved := s.resolved[run := None]);
    }
  }

  method HandleItem(item: Item, pool: seq<Id>, world: World, s: State) returns (t: State, needs: bool)
    ensures item.existing.Some? && item.action != PROVISION ==> ItemStep(item, pool, world, s, t, needs)
    ensures item.existing.None? || item.action == PROVISION ==> t == s
    ensures needs <==> NeedsChannel(item, world)
    ensures item.action == PROVISION && item.existing.Some? ==> !needs
  {
    t, needs := s, false;
    if item.action == PROVISION {
      needs := item.existing.None?;
    } else if item.existing.Some? {
      if item.action == RECONCILE {
        t, needs := Reconcile(item, pool, world, s);
      } else if item.existing.value in pool {
        t := ReleasePooled(item, pool, world, s);
      } else {
        t := RetireIfEmpty(item, pool, world, s);
      }
    }
  }

  // ---------------------------------------------------------------------
  // A Run that needs a channel
  // ---------------------------------------------------------------------

  /** Position `i` of the pool is free and usable for the Run. */
  predicate Usable(world: World, run: Id, pool: seq<Id>, taken: set<Id>, i: nat)
    requires i < |pool|
  {
    pool[i] !in taken && world.poolFetch(run, i).Voice?
  }

  /** Assigns the first usable pool channel; false when there is none. */
  method AssignFromPool(run: Id, pool: seq<Id>, world: World, s: State, taken: set<Id>)
    returns (t: State, now: set<Id>, handled: bool, at: nat)
    ensures handled <==> exists i :: 0 <= i < |pool| && Usable(world, run, pool, taken, i)
    ensures !handled ==> t == s && now == taken
    ensures handled ==>
              && at < |pool| && Usable(world, run, pool, taken, at)
              && (forall i :: 0 <= i < at ==> !Usable(world, run, pool, taken, i))
              && now == taken + {pool[at]}
              && t.held == Recorded(s.held, run, pool[at], world.record(run))
              && t.resolved == (if world.record(run) == Done then s.resolved[run := Some(pool[at])] else s.resolved)
              && t.log == s.log
  {
    for i := 0 to |pool|
      invariant forall j :: 0 <= j < i ==> !Usable(world, run, pool, taken, j)
    {
      if pool[i] !in taken && world.poolFetch(run, i).Voice? {
        assert Usable(world, run, pool, taken, i);
        now, handled, at := taken + {pool[i]}, true, i;
        t := s.(held := Recorded(s.held, run, pool[i], world.record(run)));
        if world.record(run) == Done {
          t := t.(resolved := s.resolved[run := Some(pool[i])]);
        }
        return;
      }
    }
    return s, taken, false, 0;
  }

  /** Creates a temporary channel; one that cannot be recorded is deleted again and never shown. */
  method Provision(run: Id, world: World, s: State) returns (t: State)
    ensures !world.canCreate || world.create(run).None? ==> t == s
    ensures world.canCreate && world.create(run).Some? ==>
              var channel := world.create(run).value;
              && t.held == Recorded(s.held, run, channel, world.record(run))
              && t.resolved == (if world.record(run) == Done then s.resolved[run := Some(channel)] else s.resolved)
              && t.log == s.log + [Create(channel)] + (if world.record(run) == Done then [] else [Delete(channel)])
  {
    t := s;
    if !world.canCreate || world.create(run).None? {
      return;
    }
    var channel := world.create(run).value;
    t := t.(log := s.log + [Create(channel)], held := Recorded(s.held, run, channel, world.record(run)));
    if world.record(run) != Done {
      t := t.(log := t.log + [Delete(channel)]);
      return;
    }
    t := t.(resolved := s.resolved[run := Some(channel)]);
  }

  // ---------------------------------------------------------------------
  // Existing assignments first
  // ---------------------------------------------------------------------

  /** The calls of a Run are all done when they are made. */
  ghost predicate AllDone(items: seq<Item>, world: World) {
    forall i :: i in items ==> world.clear(i.runId) == Done && world.record(i.runId) == Done
  }

  /** What a Run that had a channel has after its item was handled. */
  ghost predicate Settled(item: Item, pool: seq<Id>, world: World, s: State) {
    var run := item.runId;
    && (item.existing.Some? && !MayLose(item, pool, world) ==> run in s.held)
    && (item.existing.Some? && run !in s.held && world.clear(run) == Done ==> run in s.resolved && s.resolved[run] == None)
  }

  ghost predicate Inherited(held: map<Id, Id>, s: State) {
    forall r :: r in s.held ==> r in held && s.held[r] == held[r]
  }

  ghost predicate Pending(items: seq<Item>, n: nat, s: State) {
    forall i :: n <= i < |items| ==> items[i].runId !in s.resolved && (items[i].existing.Some? ==> items[i].runId in s.held)
  }

  ghost predicate NullReleased(s: State) {
    forall r :: r in s.resolved && s.resolved[r] == None ==> r !in s.held
  }

  ghost predicate SettledBefore(items: seq<Item>, n: nat, pool: seq<Id>, world: World, s: State) {
    n <= |items| && forall i :: 0 <= i < n ==> Settled(items[i], pool, world, s)
  }

  ghost predicate Started(items: seq<Item>, n: nat, pool: seq<Id>, world: World, held: map<Id, Id>, s: State) {
    && Inherited(held, s) && Pending(items, n, s) && SettledBefore(items, n, pool, world, s)
    && NullReleased(s) && ResolvedRecorded(s) && PoolUntouched(s.log, pool)
  }

  /** Nothing but one Run's holding and resolution changed. */
  ghost predicate OnlyRun(run: Id, s: State, t: State) {
    && (forall r :: r != run ==> (r in t.held <==> r in s.held) && (r in t.resolved <==> r in s.resolved))
    && (forall r :: r != run && r in s.held ==> t.held[r] == s.held[r])
    && (forall r :: r != run && r in s.resolved ==> t.resolved[r] == s.resolved[r])
  }

  lemma StepIsLocal(item: Item, pool: seq<Id>, world: World, s: State, t: State, needs: bool)
    requires item.existing.Some? && ItemStep(item, pool, world, s, t, needs)
    ensures OnlyRun(item.runId, s, t)
    ensures item.runId in t.held ==> item.runId in s.held && t.held[item.runId] == s.held[item.runId]
    ensures PoolUntouched(s.log, pool) ==> PoolUntouched(t.log, pool)
  {
    assert forall e :: e in t.log ==> e in s.log || e in t.log[|s.log|..];
  }

  lemma StepSettles(item: Item, pool: seq<Id>, world: World, held: map<Id, Id>, s: State, t: State, needs: bool)
    requires item.existing.Some? && item.action != PROVISION && ItemStep(item, pool, world, s, t, needs)
    requires item.runId in s.held && s.held[item.runId] == item.existing.value && item.runId !in s.resolved
    ensures Settled(item, pool, world, t)
    ensures item.runId in t.resolved && t.resolved[item.runId] == None ==> item.runId !in t.held
    ensures item.runId in t.resolved && t.resolved[item.runId].Some? ==>
              item.runId in t.held && t.held[item.runId] == t.resolved[item.runId].value
    ensures needs ==> item.runId !in t.held
  {
  }

  lemma LocalKeeps(items: seq<Item>, n: nat, pool: seq<Id>, world: World, held: map<Id, Id>, s: State, t: State)
    requires Started(items, n, pool, world, held, s) && n < |items| && DistinctRuns(items)
    requires OnlyRun(items[n].runId, s, t)
    requires items[n].runId in t.held ==> items[n].runId in s.held && t.held[items[n].runId] == s.held[items[n].runId]
    ensures Inherited(held, t) && Pending(items, n + 1, t) && SettledBefore(items, n, pool, world, t)
  {
    forall i | 0 <= i < n ensures Settled(items[i], pool, world, t) {
      assert items[i].runId != items[n].runId;
      assert Settled(items[i], pool, world, s);
    }
  }

  lemma ShownKeeps(run: Id, s: State, t: State)
    requires OnlyRun(run, s, t) && NullReleased(s) && ResolvedRecorded(s)
    requires run in t.resolved && t.resolved[run] == None ==> run !in t.held
    requires run in t.resolved && t.resolved[run].Some? ==> run in t.held && t.held[run] == t.resolved[run].value
    ensures NullReleased(t) && ResolvedRecorded(t)
  {
  }

  lemma HandledStarts(items: seq<Item>, n: nat, pool: seq<Id>, world: World, held: map<Id, Id>, s: State, t: State, needs: bool)
    requires Started(items, n, pool, world, held, s) && n < |items| && DistinctRuns(items) && Covers(items, held)
    requires items[n].existing.Some? && items[n].action != PROVISION && ItemStep(items[n], pool, world, s, t, needs)
    ensures Started(items, n + 1, pool, world, held, t)
    ensures needs ==> items[n].runId !in t.held
    ensures OnlyRun(items[n].runId, s, t)
  {
    hide MayLose;
    assert items[n] in items;
    StepIsLocal(items[n], pool, world, s, t, needs);
    StepSettles(items[n], pool, world, held, s, t, needs);
    hide ItemStep, Settled, Covers, OnlyRun, PoolUntouched, NeedsChannel;
    LocalKeeps(items, n, pool, world, held, s, t);
    ShownKeeps(items[n].runId, s, t);
    hide Inherited, Pending, NullReleased, ResolvedRecorded;
  }

  lemma SkippedStarts(items: seq<Item>, n: nat, pool: seq<Id>, world: World, held: map<Id, Id>, s: State)
    requires Started(items, n, pool, world, held, s) && n < |items| && Covers(items, held)
    requires items[n].existing.None? || items[n].action == PROVISION
    ensures Started(items, n + 1, pool, world, held, s)
    ensures items[n].existing.None? ==> items[n].runId !in s.held
    ensures OnlyRun(items[n].runId, s, s)
  {
    assert items[n] in items;
  }

  /** The items still to be served: their Runs hold nothing. */
  ghost predicate Needing(items: seq<Item>, n: nat, needs: seq<Item>, s: State) {
    && DistinctRuns(needs) && n <= |items|
    && forall i :: i in needs ==> i in items[..n] && i.runId !in s.held
  }

  /** Exactly the Runs that need a channel wait for one. */
  ghost predicate Waiting(items: seq<Item>, n: nat, needs: seq<Item>, world: World) {
    n <= |items| && forall i :: 0 <= i < n ==> (items[i] in needs <==> NeedsChannel(items[i], world))
  }

  lemma NeedsNext(items: seq<Item>, n: nat, needs: seq<Item>, world: World, s: State, t: State, need: bool)
    requires DistinctRuns(items) && n < |items| && Needing(items, n, needs, s) && Waiting(items, n, needs, world)
    requires OnlyRun(items[n].runId, s, t)
    requires need ==> items[n].runId !in t.held
    requires need <==> NeedsChannel(items[n], world)
    ensures var more := if need then needs + [items[n]] else needs;
            Needing(items, n + 1, more, t) && Waiting(items, n + 1, more, world)
  {
    hide NeedsChannel;
    var more := if need then needs + [items[n]] else needs;
    NeedsElsewhere(items, n, needs, s);
    OneMore(items, n);
    hide DistinctRuns;
    assert DistinctRuns(more) by {
      RunsStayDistinct(needs, items[n]);
    }
    forall i | 0 <= i < n ensures items[i] in more <==> items[i] in needs {
      OtherRun(items, i, n);
    }
  }

  lemma OneMore(items: seq<Item>, n: nat)
    requires n < |items|
    ensures forall i :: i in items[..n + 1] <==> i in items[..n] || i == items[n]
  {
    assert items[..n + 1] == items[..n] + [items[n]];
  }

  lemma OtherRun(items: seq<Item>, i: nat, n: nat)
    requires DistinctRuns(items) && i < n < |items|
    ensures items[i].runId != items[n].runId
  {
  }

  lemma RunsStayDistinct(needs: seq<Item>, item: Item)
    requires DistinctRuns(needs) && forall i :: i in needs ==> i.runId != item.runId
    ensures DistinctRuns(needs + [item])
  {
  }

  lemma NeedsElsewhere(items: seq<Item>, n: nat, needs: seq<Item>, s: State)
    requires DistinctRuns(items) && n < |items| && Needing(items, n, needs, s)
    ensures forall i :: i in needs ==> i.runId != items[n].runId
  {
    forall i | i in needs ensures i.runId != items[n].runId {
      var j :| 0 <= j < |items[..n]| && items[..n][j] == i;
      OtherRun(items, j, n);
    }
  }

  method HandleExisting(items: seq<Item>, pool: seq<Id>, world: World, held: map<Id, Id>)
    returns (s: State, needs: seq<Item>)
    requires DistinctRuns(items) && Covers(items, held)
    ensures Started(items, |items|, pool, world, held, s)
    ensures Needing(items, |items|, needs, s) && Waiting(items, |items|, needs, world)
    ensures Outcomes(items, |items|, pool, world, s) && AllJustified(items, pool, world, s.log)
  {
    s, needs := State(held, map[], []), [];
    assert Started(items, 0, pool, world, held, s) by {
      assert forall i :: 0 <= i < |items| ==> items[i] in items;
    }
    hide Started, Needing, Waiting, ItemStep, Settled, Covers, DistinctRuns, OnlyRun, NeedsChannel;
    assert Needing(items, 0, [], s) && Waiting(items, 0, [], world) by {
      NoneNeeding(items, world, s);
    }
    for n := 0 to |items|
      invariant Started(items, n, pool, world, held, s)
      invariant Needing(items, n, needs, s) && Waiting(items, n, needs, world)
      invariant Outcomes(items, n, pool, world, s) && AllJustified(items, pool, world, s.log)
    {
      s, needs := HandleNext(items, n, pool, world, held, s, needs);
    }
  }

  lemma OutcomesNext(items: seq<Item>, n: nat, pool: seq<Id>, world: World, held: map<Id, Id>, s: State, t: State, needs: bool)
    requires n < |items| && DistinctRuns(items) && Started(items, n, pool, world, held, s)
    requires Outcomes(items, n, pool, world, s) && AllJustified(items, pool, world, s.log)
    requires items[n].existing.Some? && items[n].action != PROVISION ==> ItemStep(items[n], pool, world, s, t, needs)
    requires items[n].existing.None? || items[n].action == PROVISION ==> t == s
    ensures Outcomes(items, n + 1, pool, world, t) && AllJustified(items, pool, world, t.log)
  {
    assert items[n] in items;
    hide ItemOutcome, Justified, Settled;
    if items[n].existing.Some? && items[n].action != PROVISION {
      StepOutcome(items, items[n], pool, world, s, t, needs);
      forall i | 0 <= i < n ensures ItemOutcome(items[i], pool, world, t) {
        OtherRun(items, i, n);
        assert SameFor(items[i].runId, s, t);
        OutcomeKept(items[i], pool, world, s, t);
      }
    } else {
      NothingOwed(items[n], pool, world, t);
    }
  }

  lemma NothingOwed(item: Item, pool: seq<Id>, world: World, s: State)
    requires item.existing.None? || item.action == PROVISION
    ensures ItemOutcome(item, pool, world, s)
  {
  }

  method HandleNext(items: seq<Item>, n: nat, pool: seq<Id>, world: World, ghost held: map<Id, Id>, s: State, needs: seq<Item>)
    returns (t: State, more: seq<Item>)
    requires n < |items| && DistinctRuns(items) && Covers(items, held)
    requires Started(items, n, pool, world, held, s)
    requires Needing(items, n, needs, s) && Waiting(items, n, needs, world)
    ensures Started(items, n + 1, pool, world, held, t)
    ensures Needing(items, n + 1, more, t) && Waiting(items, n + 1, more, world)
    requires Outcomes(items, n, pool, world, s) && AllJustified(items, pool, world, s.log)
    ensures Outcomes(items, n + 1, pool, world, t) && AllJustified(items, pool, world, t.log)
  {
    hide Started, Needing, Waiting, ItemStep, Settled, Covers, DistinctRuns, OnlyRun, NeedsChannel, MayLose;
    var need;
    t, need := HandleItem(items[n], pool, world, s);
    more := if need then needs + [items[n]] else needs;
    OutcomesNext(items, n, pool, world, held, s, t, need);
    if items[n].existing.Some? && items[n].action != PROVISION {
      HandledStarts(items, n, pool, world, held, s, t, need);
    } else {
      SkippedStarts(items, n, pool, world, held, s);
    }
    NeedsNext(items, n, needs, world, s, t, need);
  }

  lemma NoneNeeding(items: seq<Item>, world: World, s: State)
    ensures Needing(items, 0, [], s) && Waiting(items, 0, [], world)
  {
  }

  // ---------------------------------------------------------------------
  // Then the Runs without a channel
  // ---------------------------------------------------------------------

  /** The channels no Run may be given: held ones, also when their fetch failed. */
  function Taken(items: seq<Item>, resolved: map<Id, Option<Id>>): (taken: set<Id>) {
    set i | i in items && i.existing.Some? && !(i.runId in resolved && resolved[i.runId] == None) :: i.existing.value
  }

  method TakenChannels(items: seq<Item>, resolved: map<Id, Option<Id>>) returns (taken: set<Id>)
    ensures taken == Taken(items, resolved)
  {
    taken := {};
    for n := 0 to |items|
      invariant taken == Taken(items[..n], resolved)
    {
      TakenNext(items, n, resolved);
      if items[n].existing.Some? && !(items[n].runId in resolved && resolved[items[n].runId] == None) {
        taken := taken + {items[n].existing.value};
      }
    }
    assert items[..|items|] == items;
  }

  lemma TakenNext(items: seq<Item>, n: nat, resolved: map<Id, Option<Id>>)
    requires n < |items|
    ensures var was := Taken(items[..n], resolved);
            Taken(items[..n + 1], resolved)
            == if items[n].existing.Some? && !(items[n].runId in resolved && resolved[items[n].runId] == None)
               then was + {items[n].existing.value} else was
  {
    assert forall i :: i in items[..n + 1] <==> i in items[..n] || i == items[n];
    var was, now := Taken(items[..n], resolved), Taken(items[..n + 1], resolved);
    var added := if items[n].existing.Some? && !(items[n].runId in resolved && resolved[items[n].runId] == None)
                 then was + {items[n].existing.value} else was;
    forall c ensures c in now <==> c in added {
    }
  }

  ghost predicate HeldTaken(held: map<Id, Id>, taken: set<Id>, pool: seq<Id>) {
    forall r :: r in held ==> held[r] in taken || held[r] !in pool
  }

  /** Discord gives created channels new ids. */
  ghost predicate FreshCreates(items: seq<Item>, held: map<Id, Id>, pool: seq<Id>, world: World) {
    && (forall i :: i in items && world.create(i.runId).Some? ==>
          world.create(i.runId).value !in pool && world.create(i.runId).value !in held.Values)
    && (forall i, j :: i in items && j in items && i.runId != j.runId && world.create(i.runId).Some? ==>
          world.create(i.runId) != world.create(j.runId))
  }

  ghost predicate Open(needs: seq<Item>, k: nat, world: World, held: map<Id, Id>) {
    forall j :: k <= j < |needs| ==>
      needs[j].runId !in held && (world.create(needs[j].runId).Some? ==> world.create(needs[j].runId).value !in held.Values)
  }

  ghost predicate Serving(needs: seq<Item>, k: nat, pool: seq<Id>, world: World, taken: set<Id>, s: State) {
    && Exclusive(s.held) && HeldTaken(s.held, taken, pool) && Open(needs, k, world, s.held)
    && ResolvedRecorded(s) && PoolUntouched(s.log, pool)
  }

  /** A Run ends up with a channel unless recording failed or nothing is left to give. */
  predicate Served(run: Id, pool: seq<Id>, world: World, taken: set<Id>, s: State) {
    || (run in s.resolved && s.resolved[run].Some?)
    || world.record(run) != Done
    || ((!world.canCreate || world.create(run).None?) && forall i :: 0 <= i < |pool| ==> !Usable(world, run, pool, taken, i))
  }

  /** Giving a Run without a channel one that no Run holds. */
  lemma Given(needs: seq<Item>, k: nat, pool: seq<Id>, world: World, taken: set<Id>, s: State, channel: Id,
              log: seq<Effect>, t: State)
    requires k < |needs| && DistinctRuns(needs) && Serving(needs, k, pool, world, taken, s)
    requires channel !in s.held.Values && PoolUntouched(log, pool)
    requires forall j :: k < j < |needs| && world.create(needs[j].runId).Some? ==> world.create(needs[j].runId).value != channel
    requires var run := needs[k].runId;
             t == State(Recorded(s.held, run, channel, world.record(run)),
                        if world.record(run) == Done then s.resolved[run := Some(channel)] else s.resolved, log)
    ensures Exclusive(t.held) && Open(needs, k + 1, world, t.held) && ResolvedRecorded(t)
    ensures HeldTaken(t.held, taken + {channel}, pool)
    ensures channel !in pool ==> HeldTaken(t.held, taken, pool)
  {
    var run := needs[k].runId;
    assert run !in s.held;
    forall c ensures c in t.held.Values ==> c in s.held.Values || c == channel {
    }
  }

  /** A channel of the pool that no one has taken is held by no Run. */
  lemma FreeIsUnheld(held: map<Id, Id>, taken: set<Id>, pool: seq<Id>, channel: Id)
    requires HeldTaken(held, taken, pool) && channel in pool && channel !in taken
    ensures channel !in held.Values
  {
  }

  /** Other Runs keep what they hold. */
  ghost predicate Keeps(run: Id, s: State, t: State) {
    && (forall r :: r in s.held && r != run ==> r in t.held && t.held[r] == s.held[r])
    && (forall r :: r in t.held && r != run ==> r in s.held)
    && (forall r :: r != run ==> (r in t.resolved <==> r in s.resolved))
    && (forall r :: r != run && r in s.resolved ==> t.resolved[r] == s.resolved[r])
  }

  ghost predicate Separate(needs: seq<Item>, pool: seq<Id>, world: World) {
    && (forall j :: 0 <= j < |needs| && world.create(needs[j].runId).Some? ==> world.create(needs[j].runId).value !in pool)
    && (forall j, k :: 0 <= j < k < |needs| && world.create(needs[j].runId).Some? ==>
          world.create(needs[j].runId) != world.create(needs[k].runId))
  }

  /** Serving a Run asks at most for a new channel, and for its removal if it could not be recorded. */
  ghost predicate LogServes(run: Id, world: World, was: seq<Effect>, now: seq<Effect>) {
    || now == was
    || (&& world.canCreate && world.create(run).Some?
        && now == was + [Create(world.create(run).value)]
                  + if world.record(run) == Done then [] else [Delete(world.create(run).value)])
  }

  lemma ServedOutcomes(items: seq<Item>, item: Item, pool: seq<Id>, world: World, s: State, t: State)
    requires DistinctRuns(items) && item in items && NeedsChannel(item, world)
    requires Outcomes(items, |items|, pool, world, s) && AllJustified(items, pool, world, s.log)
    requires Keeps(item.runId, s, t) && LogServes(item.runId, world, s.log, t.log)
    ensures Outcomes(items, |items|, pool, world, t) && AllJustified(items, pool, world, t.log)
  {
    hide ItemOutcome, NeedsChannel;
    var n :| 0 <= n < |items| && items[n] == item;
    forall i | 0 <= i < |items| ensures ItemOutcome(items[i], pool, world, t) {
      if i != n {
        assert items[i].runId != item.runId;
        assert SameFor(items[i].runId, s, t);
      }
      OutcomeKept(items[i], pool, world, s, t);
    }
    forall e | e in t.log ensures Justified(items, pool, world, e) {
      if e in s.log {
        assert Justified(items, pool, world, e);
      }
    }
  }

  method ServeRun(ghost needs: seq<Item>, ghost k: nat, run: Id, pool: seq<Id>, world: World, s: State, taken: set<Id>)
    returns (t: State, now: set<Id>)
    requires k < |needs| && run == needs[k].runId && DistinctRuns(needs) && Separate(needs, pool, world)
    requires Serving(needs, k, pool, world, taken, s)
    ensures Serving(needs, k + 1, pool, world, now, t) && Keeps(run, s, t)
    ensures LogServes(run, world, s.log, t.log)
    ensures taken <= now && Served(run, pool, world, now, t)
    ensures world.record(run) == Done ==> forall c :: c in now && c !in taken ==> c in t.held.Values
  {
    var handled, at;
    t, now, handled, at := AssignFromPool(run, pool, world, s, taken);
    if handled {
      FreeIsUnheld(s.held, taken, pool, pool[at]);
      Given(needs, k, pool, world, taken, s, pool[at], s.log, t);
      assert world.record(run) == Done ==> run in t.held && t.held[run] == pool[at];
      return;
    }
    t := Provision(run, world, s);
    if world.canCreate && world.create(run).Some? {
      var channel := world.create(run).value;
      assert forall e :: e in t.log ==> e in s.log || e.channel == channel;
      Given(needs, k, pool, world, taken, s, channel, t.log, t);
    }
  }

  /** A Run whose channel is not confirmed gone or released keeps it. */
  ghost predicate ChannelsKept(items: seq<Item>, pool: seq<Id>, world: World, held: map<Id, Id>) {
    forall i :: i in items && i.existing.Some? && !MayLose(i, pool, world) ==>
                  i.runId in held && held[i.runId] == i.existing.value
  }

  /** Every item that waits for a channel was served. */
  ghost predicate AllServed(needs: seq<Item>, n: nat, pool: seq<Id>, world: World, taken: set<Id>, s: State) {
    n <= |needs| && forall k :: 0 <= k < n ==> Served(needs[k].runId, pool, world, taken, s)
  }

  ghost predicate TakenHeld(taken: set<Id>, held: map<Id, Id>) {
    forall c :: c in taken ==> c in held.Values
  }

  lemma ServedStays(needs: seq<Item>, n: nat, pool: seq<Id>, world: World, taken: set<Id>, now: set<Id>, s: State, t: State)
    requires n < |needs| && DistinctRuns(needs) && AllServed(needs, n, pool, world, taken, s)
    requires taken <= now && Keeps(needs[n].runId, s, t) && Served(needs[n].runId, pool, world, now, t)
    ensures AllServed(needs, n + 1, pool, world, now, t)
  {
    forall k | 0 <= k < n ensures Served(needs[k].runId, pool, world, now, t) {
      assert needs[k].runId != needs[n].runId;
      assert Served(needs[k].runId, pool, world, taken, s);
      assert forall i :: 0 <= i < |pool| && Usable(world, needs[k].runId, pool, now, i) ==>
                           Usable(world, needs[k].runId, pool, taken, i);
    }
  }

  lemma TakenHeldStays(needs: seq<Item>, n: nat, world: World, taken: set<Id>, now: set<Id>, s: State, t: State)
    requires n < |needs| && TakenHeld(taken, s.held) && Keeps(needs[n].runId, s, t) && needs[n].runId !in s.held
    requires forall c :: c in now && c !in taken ==> c in t.held.Values
    ensures TakenHeld(now, t.held)
  {
    forall c | c in now ensures c in t.held.Values {
      if c in taken {
        var r :| r in s.held && s.held[r] == c;
        assert t.held[r] == c;
      }
    }
  }

  lemma KeptStays(items: seq<Item>, needs: seq<Item>, n: nat, pool: seq<Id>, world: World, s: State, t: State)
    requires n < |needs| && ChannelsKept(items, pool, world, s.held) && Keeps(needs[n].runId, s, t)
    requires needs[n].runId !in s.held
    ensures ChannelsKept(items, pool, world, t.held)
  {
  }

  /** What holds when the second phase begins. */
  lemma ServingStarts(items: seq<Item>, needs: seq<Item>, pool: seq<Id>, world: World, held: map<Id, Id>, s: State)
    requires Started(items, |items|, pool, world, held, s) && Needing(items, |items|, needs, s)
    requires DistinctRuns(items) && Covers(items, held) && Exclusive(held) && FreshCreates(items, held, pool, world)
    ensures Serving(needs, 0, pool, world, Taken(items, s.resolved), s) && Separate(needs, pool, world)
  {
    var taken := Taken(items, s.resolved);
    assert items[..|items|] == items;
    forall r | r in s.held ensures s.held[r] in taken {
      var i :| i in items && i.runId == r;
    }
    forall j | 0 <= j < |needs|
      ensures needs[j] in items && needs[j].runId !in s.held
    {
      assert needs[j] in needs;
    }
    forall c ensures c in s.held.Values ==> c in held.Values {
      if c in s.held.Values {
        var r :| r in s.held && s.held[r] == c;
        assert held[r] == c;
      }
    }
  }

  lemma KeptStarts(items: seq<Item>, pool: seq<Id>, world: World, held: map<Id, Id>, s: State)
    requires Started(items, |items|, pool, world, held, s) && Covers(items, held)
    ensures ChannelsKept(items, pool, world, s.held)
  {
    forall i | i in items && i.existing.Some? && !MayLose(i, pool, world)
      ensures i.runId in s.held && s.held[i.runId] == i.existing.value
    {
      var n :| 0 <= n < |items| && items[n] == i;
      assert Settled(items[n], pool, world, s);
    }
  }

  lemma TakenHeldStarts(items: seq<Item>, pool: seq<Id>, world: World, held: map<Id, Id>, s: State)
    requires Started(items, |items|, pool, world, held, s) && Covers(items, held) && AllDone(items, world)
    ensures TakenHeld(Taken(items, s.resolved), s.held)
  {
    forall c | c in Taken(items, s.resolved) ensures c in s.held.Values {
      var i :| i in items && i.existing.Some? && !(i.runId in s.resolved && s.resolved[i.runId] == None) && i.existing.value == c;
      var n :| 0 <= n < |items| && items[n] == i;
      assert Settled(items[n], pool, world, s);
      assert s.held[i.runId] == c;
    }
  }

  /**
   * `reconcileRunVoiceChannels`: whatever the calls answer, no two Runs hold
   * one channel, pool channels are neither renamed nor deleted, only recorded
   * channels are shown and no Run loses a channel that was not confirmed gone,
   * released or removed. When every write is done, a Run left without a
   * channel found the whole pool held or unusable and nothing could be created.
   */
  method ReconcileRunVoiceChannels(items: seq<Item>, pool: seq<Id>, world: World, held: map<Id, Id>)
    returns (s: State, needs: seq<Item>, taken: set<Id>)
    requires DistinctRuns(items) && Covers(items, held) && Exclusive(held) && FreshCreates(items, held, pool, world)
    ensures Exclusive(s.held) && PoolUntouched(s.log, pool) && ResolvedRecorded(s)
    ensures ChannelsKept(items, pool, world, s.held)
    ensures Outcomes(items, |items|, pool, world, s) && AllJustified(items, pool, world, s.log)
    ensures forall i :: i in needs <==> i in items && NeedsChannel(i, world)
    ensures AllServed(needs, |needs|, pool, world, taken, s)
    ensures AllDone(items, world) ==> TakenHeld(taken, s.held)
  {
    s, needs := HandleExisting(items, pool, world, held);
    taken := TakenChannels(items, s.resolved);
    ServingStarts(items, needs, pool, world, held, s);
    KeptStarts(items, pool, world, held, s);
    if AllDone(items, world) {
      TakenHeldStarts(items, pool, world, held, s);
    }
    NeedsAreItems(items, needs, world, s);
    for n := 0 to |needs|
      invariant Serving(needs, n, pool, world, taken, s)
      invariant ChannelsKept(items, pool, world, s.held) && AllServed(needs, n, pool, world, taken, s)
      invariant Outcomes(items, |items|, pool, world, s) && AllJustified(items, pool, world, s.log)
      invariant AllDone(items, world) ==> TakenHeld(taken, s.held)
    {
      hide Exclusive, PoolUntouched, ResolvedRecorded, ChannelsKept, HeldTaken, Covers, TakenHeld, AllServed;
      hide Outcomes, AllJustified, NeedsChannel, LogServes;
      assert needs[n] in needs;
      var t, now := ServeRun(needs, n, needs[n].runId, pool, world, s, taken);
      ServedStays(needs, n, pool, world, taken, now, s, t);
      KeptStays(items, needs, n, pool, world, s, t);
      ServedOutcomes(items, needs[n], pool, world, s, t);
      if AllDone(items, world) {
        TakenHeldStays(needs, n, world, taken, now, s, t);
      }
      s, taken := t, now;
    }
  }

  lemma NeedsAreItems(items: seq<Item>, needs: seq<Item>, world: World, s: State)
    requires Needing(items, |items|, needs, s) && Waiting(items, |items|, needs, world)
    ensures forall i :: i in needs <==> i in items && NeedsChannel(i, world)
  {
    hide NeedsChannel;
    assert items[..|items|] == items;
    forall i | i in items ensures i in needs <==> NeedsChannel(i, world) {
      var n :| 0 <= n < |items| && items[n] == i;
    }
  }
}
