/**
 * The emoji snapshot cache of `class-emoji-lookup.ts` (`createGuildEmojiCache`):
 * a time to live, one refresh in flight per Guild, write-back by the owner
 * alone. Fetches settle as events between the calls, in any order.
 */
module EmojiCache {
  import opened Prelude

  /** A snapshot (opaque) with the time its fetch succeeded. */
  datatype Stamped = Stamped(snapshot: Id, fetchedAt: int)

  datatype Entry = Entry(kept: Option<Stamped>, refresh: Option<nat>)

  /** A refresh once started: its Guild, what the Guild had before, and whether it settled. */
  datatype Flight = Flight(guild: Id, previous: Option<Stamped>, settled: bool)

  /** A fetch that succeeded. */
  datatype Success = Success(guild: Id, stamped: Stamped)

  /** What a caller of `get` gets: a cached snapshot, or the result of a refresh to await. */
  datatype Reply = Cached(snapshot: Id) | Awaits(refresh: nat)

  /** A JavaScript `Map`: its keys in insertion order and its values. */
  datatype Table = Table(order: seq<Id>, entries: map<Id, Entry>)

  // ---------------------------------------------------------------------
  // The table
  // ---------------------------------------------------------------------

  ghost predicate Ordered(t: Table) {
    Distinct(t.order) && forall g :: g in t.order <==> g in t.entries
  }

  function Without(order: seq<Id>, g: Id): (rest: seq<Id>)
    ensures forall k :: k in rest <==> k in order && k != g
  {
    if order == [] then []
    else
      var n := |order| - 1;
      Without(order[..n], g) + if order[n] == g then [] else [order[n]]
  }

  lemma {:induction false} WithoutDistinct(order: seq<Id>, g: Id)
    requires Distinct(order)
    ensures Distinct(Without(order, g))
  {
    if order != [] {
      var n := |order| - 1;
      WithoutDistinct(order[..n], g);
      assert order[n] !in Without(order[..n], g);
    }
  }

  /** `x` was inserted before `y`. */
  ghost predicate Earlier(order: seq<Id>, x: Id, y: Id) {
    exists i, j :: 0 <= i < j < |order| && order[i] == x && order[j] == y
  }

  lemma {:induction false} WithoutEarlier(order: seq<Id>, g: Id, x: Id, y: Id)
    requires Earlier(order, x, y) && x != g && y != g
    ensures Earlier(Without(order, g), x, y)
  {
    var n := |order| - 1;
    var rest := Without(order[..n], g);
    var i, j :| 0 <= i < j < |order| && order[i] == x && order[j] == y;
    assert order[..n][i] == x;
    if j == n {
      assert x in rest;
      var k :| 0 <= k < |rest| && rest[k] == x;
      assert (rest + [y])[k] == x && (rest + [y])[|rest|] == y;
    } else {
      assert order[..n][j] == y;
      WithoutEarlier(order[..n], g, x, y);
      var k, l :| 0 <= k < l < |rest| && rest[k] == x && rest[l] == y;
      var longer := Without(order, g);
      assert longer[k] == x && longer[l] == y;
    }
  }

  /** The entries of `u` stand in the order they had in `t`. */
  ghost predicate AgesKept(t: Table, u: Table) {
    forall x, y :: x in u.entries && y in u.entries && Earlier(t.order, x, y) ==> Earlier(u.order, x, y)
  }

  lemma DropAges(t: Table, u: Table, g: Id)
    requires AgesKept(t, u)
    ensures AgesKept(t, Drop(u, g))
  {
    forall x, y | x in u.entries && y in u.entries && x != g && y != g && Earlier(t.order, x, y)
      ensures Earlier(Without(u.order, g), x, y)
    {
      WithoutEarlier(u.order, g, x, y);
    }
  }

  lemma PutAges(t: Table, g: Id, e: Entry)
    requires Ordered(t)
    ensures forall x, y :: Earlier(t.order, x, y) ==> Earlier(Put(t, g, e).order, x, y)
    ensures g !in t.entries ==> forall x :: x in t.entries ==> Earlier(Put(t, g, e).order, x, g)
  {
    var u := Put(t, g, e);
    if g !in t.entries {
      assert forall i :: 0 <= i < |t.order| ==> u.order[i] == t.order[i];
      forall x | x in t.entries ensures Earlier(u.order, x, g) {
        var i :| 0 <= i < |t.order| && t.order[i] == x;
        assert u.order[i] == x && u.order[|t.order|] == g;
      }
    }
  }

  function Put(t: Table, g: Id, e: Entry): (u: Table)
    ensures Ordered(t) ==> Ordered(u)
    ensures u.entries == t.entries[g := e]
  {
    Table(if g in t.entries then t.order else t.order + [g], t.entries[g := e])
  }

  function Drop(t: Table, g: Id): (u: Table)
    ensures Ordered(t) ==> Ordered(u)
    ensures u.entries == t.entries - {g}
  {
    assert Ordered(t) ==> Distinct(Without(t.order, g)) by {
      if Ordered(t) {
        WithoutDistinct(t.order, g);
      }
    }
    Table(Without(t.order, g), t.entries - {g})
  }

  // ---------------------------------------------------------------------
  // Pruning
  // ---------------------------------------------------------------------

  /** An entry that may be dropped: not the one asked for, no refresh in flight. */
  predicate Idle(t: Table, g: Id, keep: Id) {
    g in t.entries && g != keep && t.entries[g].refresh.None?
  }

  predicate Expired(e: Entry, at: int, ttl: int) {
    e.kept.None? || at - e.kept.value.fetchedAt >= ttl
  }

  ghost predicate Shrunk(t: Table, u: Table, keep: Id) {
    && Ordered(u)
    && (forall g :: g in u.entries ==> g in t.entries && u.entries[g] == t.entries[g])
    && (forall g :: g in t.entries && !Idle(t, g, keep) ==> g in u.entries)
  }

  lemma DropOne(t: Table, u: Table, i: nat, keep: Id)
    requires Ordered(t) && i < |t.order| && Shrunk(t, u, keep)
    ensures t.order[i] in u.entries && Idle(u, t.order[i], keep) ==> Shrunk(t, Drop(u, t.order[i]), keep)
    ensures forall j :: 0 <= j < |t.order| && j != i ==>
                          (t.order[j] in Drop(u, t.order[i]).entries <==> t.order[j] in u.entries)
    ensures t.order[i] !in Drop(u, t.order[i]).entries
    ensures t.order[i] in u.entries ==> (Idle(u, t.order[i], keep) <==> Idle(t, t.order[i], keep))
                                        && u.entries[t.order[i]] == t.entries[t.order[i]]
  {
  }

  lemma DropSize(t: Table, g: Id)
    ensures |Drop(t, g).entries| + 1 >= |t.entries|
  {
    var u := Drop(t, g);
    assert u.entries.Keys == t.entries.Keys - {g};
  }

  /** First loop: expired idle entries go. */
  method DropExpired(t: Table, at: int, keep: Id, ttl: int) returns (u: Table)
    requires Ordered(t)
    ensures Shrunk(t, u, keep)
    ensures forall g :: g in t.entries ==> (g in u.entries <==> !(Idle(t, g, keep) && Expired(t.entries[g], at, ttl)))
    ensures AgesKept(t, u)
  {
    u := t;
    assert forall j :: 0 <= j < |t.order| ==> t.order[j] in t.entries;
    for i := 0 to |t.order|
      invariant Shrunk(t, u, keep) && AgesKept(t, u)
      invariant forall j :: i <= j < |t.order| ==> t.order[j] in u.entries
      invariant forall j :: 0 <= j < i ==>
                              (t.order[j] in u.entries <==> !(Idle(t, t.order[j], keep) && Expired(t.entries[t.order[j]], at, ttl)))
    {
      var g := t.order[i];
      DropOne(t, u, i, keep);
      DropAges(t, u, g);
      hide Shrunk, Ordered, Drop, Idle, Expired, AgesKept;
      if Idle(u, g, keep) && Expired(u.entries[g], at, ttl) {
        u := Drop(u, g);
      }
    }
  }

  /**
   * Second loop: the oldest idle entries go while the bound is reached. What
   * stays fits, or cannot go; an idle entry that stays is younger than all that went.
   */
  method DropOldest(t: Table, keep: Id, maxGuilds: int) returns (u: Table, ghost n: nat)
    requires Ordered(t)
    ensures Shrunk(t, u, keep)
    ensures |u.entries| < maxGuilds || forall g :: g in u.entries ==> !Idle(u, g, keep)
    ensures n <= |t.order| && forall i :: 0 <= i < |t.order| ==>
              (t.order[i] in u.entries <==> i >= n || !Idle(t, t.order[i], keep))
    ensures |t.entries| < maxGuilds ==> u == t
    ensures u == t || |u.entries| + 1 >= maxGuilds
    ensures AgesKept(t, u)
  {
    u := t;
    assert forall j :: 0 <= j < |t.order| ==> t.order[j] in t.entries;
    for i := 0 to |t.order|
      invariant Shrunk(t, u, keep) && AgesKept(t, u)
      invariant forall j :: i <= j < |t.order| ==> t.order[j] in u.entries
      invariant forall j :: 0 <= j < i ==> (t.order[j] in u.entries <==> !Idle(t, t.order[j], keep))
      invariant |t.entries| < maxGuilds ==> u == t
      invariant u == t || |u.entries| + 1 >= maxGuilds
    {
      if |u.entries| < maxGuilds {
        return u, i;
      }
      var g := t.order[i];
      DropOne(t, u, i, keep);
      DropAges(t, u, g);
      hide Shrunk, Ordered, Drop, Idle, AgesKept;
      if Idle(u, g, keep) {
        DropSize(u, g);
        u := Drop(u, g);
      }
    }
    n := |t.order|;
  }

  /** While an idle entry stays, no younger one goes that has not expired. */
  ghost predicate OldestGo(t: Table, u: Table, at: int, keep: Id, ttl: int) {
    forall x, y :: Earlier(t.order, x, y) && y in t.entries && x in u.entries && Idle(t, x, keep) ==>
      y in u.entries || Expired(t.entries[y], at, ttl)
  }

  lemma OldestWent(t: Table, v: Table, u: Table, n: nat, at: int, keep: Id, ttl: int)
    requires Shrunk(t, v, keep) && AgesKept(t, v) && n <= |v.order|
    requires forall i :: 0 <= i < |v.order| ==> (v.order[i] in u.entries <==> i >= n || !Idle(v, v.order[i], keep))
    requires forall g :: g in t.entries && g !in v.entries ==> Expired(t.entries[g], at, ttl)
    requires Shrunk(v, u, keep)
    ensures OldestGo(t, u, at, keep, ttl)
  {
    forall x, y | Earlier(t.order, x, y) && y in t.entries && x in u.entries && Idle(t, x, keep) && y in v.entries
      ensures y in u.entries
    {
      assert Earlier(v.order, x, y);
      var i, j :| 0 <= i < j < |v.order| && v.order[i] == x && v.order[j] == y;
      assert v.order[i] in u.entries;
    }
  }

  lemma AgesThrough(t: Table, v: Table, u: Table)
    requires AgesKept(t, v) && AgesKept(v, u) && forall g :: g in u.entries ==> g in v.entries
    ensures AgesKept(t, u)
  {
  }

  /** Both loops: what stays besides `keep` fits the bound or has a refresh in flight. */
  method Prune(t: Table, at: int, keep: Id, ttl: int, maxGuilds: int) returns (u: Table)
    requires Ordered(t)
    ensures Shrunk(t, u, keep)
    ensures |u.entries| < maxGuilds || forall g :: g in u.entries && g != keep ==> u.entries[g].refresh.Some?
    ensures forall g :: g in u.entries && Idle(u, g, keep) ==> !Expired(u.entries[g], at, ttl)
    ensures forall g :: g in t.entries && g !in u.entries ==> Expired(t.entries[g], at, ttl) || |u.entries| + 1 >= maxGuilds
    ensures OldestGo(t, u, at, keep, ttl) && AgesKept(t, u)
  {
    var v := DropExpired(t, at, keep, ttl);
    ghost var n;
    u, n := DropOldest(v, keep, maxGuilds);
    OldestWent(t, v, u, n, at, keep, ttl);
    AgesThrough(t, v, u);
    hide AgesKept, OldestGo, Earlier;
    assert forall g :: g in u.entries && g != keep && u.entries[g].refresh.None? ==> Idle(u, g, keep);
    assert forall g :: g in u.entries && Idle(u, g, keep) ==> Idle(t, g, keep);
  }

  lemma PutSize(t: Table, g: Id, e: Entry)
    ensures |t.entries| <= |Put(t, g, e).entries| <= |t.entries| + 1
  {
    var u := Put(t, g, e);
    assert u.entries.Keys == t.entries.Keys + {g};
  }

  // ---------------------------------------------------------------------
  // The invariant
  // ---------------------------------------------------------------------

  /** A refresh started since the last `clear` that has not settled. */
  ghost predicate Flying(flights: seq<Flight>, epoch: nat, r: nat) {
    epoch <= r < |flights| && !flights[r].settled
  }

  /** An entry with a refresh belongs to that refresh and still shows what was there before it. */
  ghost predicate Owned(t: Table, flights: seq<Flight>, epoch: nat) {
    forall g :: g in t.entries && t.entries[g].refresh.Some? ==>
      var r := t.entries[g].refresh.value;
      Flying(flights, epoch, r) && flights[r].guild == g && flights[r].previous == t.entries[g].kept
  }

  /** Every refresh in flight since the last `clear` owns its Guild's entry: there is one per Guild. */
  ghost predicate Registered(t: Table, flights: seq<Flight>, epoch: nat) {
    forall r: nat :: Flying(flights, epoch, r) ==>
      flights[r].guild in t.entries && t.entries[flights[r].guild].refresh == Some(r)
  }

  /** Every snapshot kept, or to be restored, was fetched for that Guild at its stamp. */
  ghost predicate Genuine(t: Table, flights: seq<Flight>, log: seq<Success>) {
    && (forall g :: g in t.entries && t.entries[g].kept.Some? ==> Success(g, t.entries[g].kept.value) in log)
    && (forall r :: 0 <= r < |flights| && flights[r].previous.Some? ==>
          Success(flights[r].guild, flights[r].previous.value) in log)
  }

  /** Nothing empty is cached: an entry has a snapshot or a refresh in flight. */
  ghost predicate NothingEmpty(t: Table) {
    forall g :: g in t.entries ==> t.entries[g].kept.Some? || t.entries[g].refresh.Some?
  }

  ghost predicate Sound(t: Table, flights: seq<Flight>, epoch: nat, log: seq<Success>) {
    && epoch <= |flights|
    && Ordered(t) && Owned(t, flights, epoch) && Registered(t, flights, epoch) && Genuine(t, flights, log) && NothingEmpty(t)
  }

  /** At most one refresh per Guild is in flight since the last `clear`. */
  lemma SingleFlight(t: Table, flights: seq<Flight>, epoch: nat, log: seq<Success>, r: nat, q: nat)
    requires Sound(t, flights, epoch, log) && Flying(flights, epoch, r) && Flying(flights, epoch, q)
    requires flights[r].guild == flights[q].guild
    ensures r == q
  {
    assert t.entries[flights[r].guild].refresh == Some(r);
  }

  /** What an entry tells: a kept snapshot is genuine, and it has a refresh exactly if one is in flight. */
  lemma EntryFacts(t: Table, flights: seq<Flight>, epoch: nat, log: seq<Success>, g: Id)
    requires Sound(t, flights, epoch, log)
    ensures g in t.entries && t.entries[g].kept.Some? ==> Success(g, t.entries[g].kept.value) in log
    ensures g in t.entries && t.entries[g].refresh.Some? ==>
              Flying(flights, epoch, t.entries[g].refresh.value) && flights[t.entries[g].refresh.value].guild == g
    ensures (g in t.entries ==> t.entries[g].refresh.None?) ==>
              forall r: nat :: Flying(flights, epoch, r) ==> flights[r].guild != g
    ensures epoch <= |flights|
  {
  }

  /** The table after a refresh was registered. */
  lemma StartedTable(t: Table, u: Table, g: Id, e: Entry, maxGuilds: int)
    requires Shrunk(t, u, g)
    requires |u.entries| < maxGuilds || forall k :: k in u.entries && k != g ==> u.entries[k].refresh.Some?
    ensures |Put(u, g, e).entries| >= |u.entries|
    ensures var v := Put(u, g, e);
            && (forall k :: k in v.entries && k != g ==> k in t.entries && v.entries[k] == t.entries[k])
            && (forall k :: k in t.entries && t.entries[k].refresh.Some? ==> k in v.entries)
            && (|v.entries| <= maxGuilds || forall k :: k in v.entries && k != g ==> v.entries[k].refresh.Some?)
  {
    PutSize(u, g, e);
  }

  lemma StartedAges(t: Table, u: Table, g: Id, e: Entry, at: int, ttl: int)
    requires Shrunk(t, u, g) && OldestGo(t, u, at, g, ttl) && AgesKept(t, u) && Ordered(t)
    ensures OldestGo(t, Put(u, g, e), at, g, ttl) && AgesKept(t, Put(u, g, e))
    ensures g !in t.entries ==> forall k :: k in u.entries ==> Earlier(Put(u, g, e).order, k, g)
  {
    PutAges(u, g, e);
    assert Shrunk(t, u, g) && g in t.entries ==> g in u.entries;
    forall x, y | Earlier(t.order, x, y) ensures x in t.entries && y in t.entries {
      assert x in t.order && y in t.order;
    }
    hide Earlier, Expired, Put;
  }

  /** Dropping entries without a refresh keeps the invariant. */
  lemma PrunedSound(t: Table, u: Table, keep: Id, flights: seq<Flight>, epoch: nat, log: seq<Success>)
    requires Sound(t, flights, epoch, log) && Shrunk(t, u, keep)
    ensures Sound(u, flights, epoch, log)
  {
    forall r: nat | Flying(flights, epoch, r)
      ensures flights[r].guild in u.entries && u.entries[flights[r].guild].refresh == Some(r)
    {
      assert !Idle(t, flights[r].guild, keep);
    }
  }

  /** Registering a refresh for a Guild that has none. */
  lemma StartedSound(t: Table, g: Id, kept: Option<Stamped>, flights: seq<Flight>, epoch: nat, log: seq<Success>)
    requires Sound(t, flights, epoch, log)
    requires g in t.entries ==> t.entries[g].refresh.None? && t.entries[g].kept == kept
    requires g !in t.entries ==> kept.None?
    ensures Sound(Put(t, g, Entry(kept, Some(|flights|))), flights + [Flight(g, kept, false)], epoch, log)
  {
    var u, more := Put(t, g, Entry(kept, Some(|flights|))), flights + [Flight(g, kept, false)];
    assert forall r :: 0 <= r < |flights| ==> more[r] == flights[r];
    forall r: nat | Flying(more, epoch, r)
      ensures more[r].guild in u.entries && u.entries[more[r].guild].refresh == Some(r)
    {
      if r < |flights| {
        assert Flying(flights, epoch, r);
      }
    }
    forall k | k in u.entries && u.entries[k].refresh.Some? ensures Flying(more, epoch, u.entries[k].refresh.value) {
      if k != g {
        assert Flying(flights, epoch, t.entries[k].refresh.value);
      }
    }
  }

  function SettledAt(flights: seq<Flight>, r: nat): seq<Flight>
    requires r < |flights|
  {
    flights[r := flights[r].(settled := true)]
  }

  ghost predicate Owns(t: Table, g: Id, r: nat) {
    g in t.entries && t.entries[g].refresh == Some(r)
  }

  /** A refresh that no longer owns its entry, started before `clear`, leaves everything alone. */
  lemma StaleSound(t: Table, flights: seq<Flight>, r: nat, epoch: nat, log: seq<Success>)
    requires Sound(t, flights, epoch, log) && r < |flights| && !Owns(t, flights[r].guild, r)
    ensures Sound(t, SettledAt(flights, r), epoch, log)
    ensures !flights[r].settled ==> r < epoch
  {
    var after := SettledAt(flights, r);
    assert !flights[r].settled && r >= epoch ==> Flying(flights, epoch, r);
    forall k | k in t.entries && t.entries[k].refresh.Some? ensures Flying(after, epoch, t.entries[k].refresh.value) {
      assert Flying(flights, epoch, t.entries[k].refresh.value);
    }
    forall q: nat | Flying(after, epoch, q) ensures t.entries[after[q].guild].refresh == Some(q) && after[q].guild in t.entries {
      assert Flying(flights, epoch, q);
    }
  }

  /** The owner writes back a snapshot, or drops its entry when there is none to keep. */
  lemma WrittenSound(t: Table, u: Table, flights: seq<Flight>, r: nat, kept: Option<Stamped>, epoch: nat, log: seq<Success>)
    requires Sound(t, flights, epoch, log) && r < |flights| && Owns(t, flights[r].guild, r) && Ordered(u)
    requires u.entries == if kept.Some? then t.entries[flights[r].guild := Entry(kept, None)] else t.entries - {flights[r].guild}
    requires kept.Some? ==> Success(flights[r].guild, kept.value) in log
    ensures Sound(u, SettledAt(flights, r), epoch, log)
  {
    var g, after := flights[r].guild, SettledAt(flights, r);
    forall k | k in u.entries && u.entries[k].refresh.Some? ensures Flying(after, epoch, u.entries[k].refresh.value) {
      assert Flying(flights, epoch, t.entries[k].refresh.value);
    }
    forall q: nat | Flying(after, epoch, q) ensures after[q].guild in u.entries && u.entries[after[q].guild].refresh == Some(q) {
      assert Flying(flights, epoch, q);
    }
  }

  lemma LongerLog(t: Table, flights: seq<Flight>, epoch: nat, log: seq<Success>, s: Success)
    requires Sound(t, flights, epoch, log)
    ensures Sound(t, flights, epoch, log + [s])
  {
  }

  // ---------------------------------------------------------------------
  // The cache
  // ---------------------------------------------------------------------

  class GuildEmojiCache {
    const ttl: int
    const maxGuilds: int
    var table: Table
    var flights: seq<Flight>
    /** Refreshes below `epoch` started before the last `clear`. */
    ghost var epoch: nat
    ghost var log: seq<Success>

    ghost predicate Valid()
      reads this
    {
      Sound(table, flights, epoch, log)
    }

    constructor (ttl: int, maxGuilds: int)
      ensures Valid() && this.ttl == ttl && this.maxGuilds == maxGuilds
      ensures table == Table([], map[]) && flights == [] && epoch == 0 && log == []
    {
      this.ttl, this.maxGuilds := ttl, maxGuilds;
      table, flights := Table([], map[]), [];
      epoch, log := 0, [];
    }

    /**
     * `get`: a snapshot younger than `ttl` is served without a fetch; else the
     * refresh in flight is awaited, and only without one a fetch starts.
     */
    method Get(at: int, g: Id) returns (reply: Reply, started: bool)
      requires Valid()
      modifies this
      ensures Valid() && epoch == old(epoch) && log == old(log)
      ensures reply.Cached? ==> exists s :: s in log && s.guild == g && s.stamped.snapshot == reply.snapshot
                                            && at - s.stamped.fetchedAt < ttl
      ensures reply.Cached? <==> g in old(table.entries) && old(table.entries)[g].kept.Some?
                                 && at - old(table.entries)[g].kept.value.fetchedAt < ttl
      ensures reply.Awaits? ==> Flying(flights, epoch, reply.refresh) && flights[reply.refresh].guild == g
      ensures started <==> reply.Awaits? && forall r: nat :: Flying(old(flights), old(epoch), r) ==> old(flights)[r].guild != g
      ensures !started ==> table == old(table) && flights == old(flights)
      ensures started ==>
                && flights == old(flights)
                   + [Flight(g, if g in old(table.entries) then old(table.entries)[g].kept else None, false)]
                && (forall k :: k in table.entries && k != g ==> k in old(table.entries) && table.entries[k] == old(table.entries)[k])
                && (forall k :: k in old(table.entries) && old(table.entries)[k].refresh.Some? ==> k in table.entries)
                && (forall k :: k in old(table.entries) && k !in table.entries ==>
                      Expired(old(table.entries)[k], at, ttl) || |table.entries| + 1 >= maxGuilds)
                && (|table.entries| <= maxGuilds || forall k :: k in table.entries && k != g ==> table.entries[k].refresh.Some?)
                && OldestGo(old(table), table, at, g, ttl) && AgesKept(old(table), table)
                && (g !in old(table.entries) ==> forall k :: k in table.entries && k != g ==> Earlier(table.order, k, g))
    {
      hide Owned, Registered, Genuine, NothingEmpty, Distinct, OldestGo, AgesKept, Earlier;
      EntryFacts(table, flights, epoch, log, g);
      if g in table.entries {
        var e := table.entries[g];
        if e.kept.Some? && at - e.kept.value.fetchedAt < ttl {
          assert Success(g, e.kept.value) in log;
          return Cached(e.kept.value.snapshot), false;
        }
        if e.refresh.Some? {
          return Awaits(e.refresh.value), false;
        }
      }
      var previous := if g in table.entries then table.entries[g].kept else None;
      var u := Prune(table, at, g, ttl, maxGuilds);
      PrunedSound(table, u, g, flights, epoch, log);
      reply, started := Awaits(|flights|), true;
      StartedTable(table, u, g, Entry(previous, Some(|flights|)), maxGuilds);
      StartedAges(table, u, g, Entry(previous, Some(|flights|)), at, ttl);
      StartedSound(u, g, previous, flights, epoch, log);
      table, flights := Put(u, g, Entry(previous, Some(|flights|))), flights + [Flight(g, previous, false)];
    }
  
    /** The fetch succeeds: the owner replaces its entry as the youngest; a stale refresh writes nothing. */
    method OnFetched(r: nat, snapshot: Id, at: int)
      requires Valid() && r < |flights| && !flights[r].settled
      modifies this
      ensures Valid() && epoch == old(epoch) && flights == SettledAt(old(flights), r)
      ensures log == old(log) + [Success(old(flights)[r].guild, Stamped(snapshot, at))]
      ensures if r < epoch then table == old(table)
              else table.entries == old(table.entries)[old(flights)[r].guild := Entry(Some(Stamped(snapshot, at)), None)]
      ensures r >= epoch ==> table.order == Without(old(table.order), old(flights)[r].guild) + [old(flights)[r].guild]
    {
      var g, stamped := flights[r].guild, Stamped(snapshot, at);
      LongerLog(table, flights, epoch, log, Success(g, stamped));
      log := log + [Success(g, stamped)];
      if g in table.entries && table.entries[g].refresh == Some(r) {
        var u := Put(Drop(table, g), g, Entry(Some(stamped), None));
        assert u.entries == table.entries[g := Entry(Some(stamped), None)];
        assert Flying(flights, epoch, r);
        WrittenSound(table, u, flights, r, Some(stamped), epoch, log);
        table := u;
      } else {
        StaleSound(table, flights, r, epoch, log);
      }
      flights := SettledAt(flights, r);
    }

    /**
     * The fetch fails: awaiting callers get what the Guild had before, if
     * anything. The owner's entry shows that again, with its age; without it
     * the entry goes.
     */
    method OnFailed(r: nat) returns (served: Option<Id>)
      requires Valid() && r < |flights| && !flights[r].settled
      modifies this
      ensures Valid() && epoch == old(epoch) && log == old(log) && flights == SettledAt(old(flights), r)
      ensures served == (match old(flights)[r].previous case Some(s) => Some(s.snapshot) case None => None)
      ensures r < epoch ==> table == old(table)
      ensures r >= epoch ==>
                var g := old(flights)[r].guild;
                && g in old(table.entries) && old(table.entries)[g].kept == old(flights)[r].previous
                && table.entries == if old(flights)[r].previous.Some?
                                    then old(table.entries)[g := Entry(old(table.entries)[g].kept, None)]
                                    else old(table.entries) - {g}
      ensures r >= epoch ==>
                table.order == if old(flights)[r].previous.Some? then old(table.order) else Without(old(table.order), old(flights)[r].guild)
    {
      var g, previous := flights[r].guild, flights[r].previous;
      served := match previous case Some(s) => Some(s.snapshot) case None => None;
      if g in table.entries && table.entries[g].refresh == Some(r) {
        assert Flying(flights, epoch, r);
        var u := if previous.Some? then Put(table, g, Entry(previous, None)) else Drop(table, g);
        assert Success(g, flights[r].previous.GetOr(Stamped(Id(0), 0))) in log || previous.None?;
        WrittenSound(table, u, flights, r, previous, epoch, log);
        table := u;
      } else {
        StaleSound(table, flights, r, epoch, log);
      }
      flights := SettledAt(flights, r);
    }

    /** `clear`: every entry goes; refreshes in flight no longer own anything. */
    method Clear()
      requires Valid()
      modifies this
      ensures Valid() && table == Table([], map[]) && flights == old(flights) && log == old(log)
      ensures epoch == |flights|
    {
      table := Table([], map[]);
      epoch := |flights|;
    }
  }
}
