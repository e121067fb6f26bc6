/**
 * The exact-maximum computation behind the roster builder: augmenting paths
 * over capacity-expanded Booster slots (`maxBoosterSlotFill`).
 *
 * The specification knows nothing about slots. An assignment sends Users to
 * buckets; it is legal when every User offers its bucket and no bucket is used
 * beyond its capacity. The computed number is the size of a largest one.
 */
module SlotMatching {
  import opened Prelude

  type UserId = Id

  datatype BoosterBucket = TANKS | HEALERS | DPS

  datatype Capacity = Capacity(tanks: nat, healers: nat, dps: nat) {
    function Of(b: BoosterBucket): nat {
      match b
      case TANKS => tanks
      case HEALERS => healers
      case DPS => dps
    }

    function Total(): nat {
      tanks + healers + dps
    }

    /** One slot of `b` less. */
    function Take(b: BoosterBucket): (c: Capacity)
      requires Of(b) > 0
      ensures c.Of(b) == Of(b) - 1
      ensures forall other :: other != b ==> c.Of(other) == Of(other)
    {
      match b
      case TANKS => this.(tanks := tanks - 1)
      case HEALERS => this.(healers := healers - 1)
      case DPS => this.(dps := dps - 1)
    }
  }

  type Users = map<UserId, set<BoosterBucket>>
  type Assignment = map<UserId, BoosterBucket>

  // ---------------------------------------------------------------------
  // Specification
  // ---------------------------------------------------------------------

  function UsersAt(a: Assignment, b: BoosterBucket): set<UserId> {
    set u | u in a && a[u] == b
  }

  ghost predicate Legal(users: Users, cap: Capacity, a: Assignment) {
    && (forall u :: u in a ==> u in users && a[u] in users[u])
    && (forall b :: |UsersAt(a, b)| <= cap.Of(b))
  }

  /** `n` slots can be filled at once, and no legal assignment fills more. */
  ghost predicate IsMaxFill(users: Users, cap: Capacity, n: nat) {
    && (exists a :: Legal(users, cap, a) && |a| == n)
    && (forall a :: Legal(users, cap, a) ==> |a| <= n)
  }

  // ---------------------------------------------------------------------
  // Optimality certificate
  // ---------------------------------------------------------------------

  lemma SizeByBucket(a: Assignment)
    ensures |a| == |UsersAt(a, TANKS)| + |UsersAt(a, HEALERS)| + |UsersAt(a, DPS)|
  {
    var t, h, d := UsersAt(a, TANKS), UsersAt(a, HEALERS), UsersAt(a, DPS);
    assert a.Keys == t + h + d;
    assert |t + h + d| == |t + h| + |d| == |t| + |h| + |d|;
  }

  function UsersIn(a: Assignment, buckets: set<BoosterBucket>): set<UserId> {
    set u | u in a && a[u] in buckets
  }

  lemma OneBucketMore(a: Assignment, buckets: set<BoosterBucket>, b: BoosterBucket)
    requires b in buckets
    ensures |UsersIn(a, buckets)| == |UsersIn(a, buckets - {b})| + |UsersAt(a, b)|
  {
    assert UsersIn(a, buckets) == UsersIn(a, buckets - {b}) + UsersAt(a, b);
    DisjointSize(UsersIn(a, buckets - {b}), UsersAt(a, b));
  }

  /** Bucket by bucket at most as many Users, so at most as many in all of `buckets`. */
  lemma {:induction false} FewerIn(other: Assignment, a: Assignment, buckets: set<BoosterBucket>)
    requires forall b :: b in buckets ==> |UsersAt(other, b)| <= |UsersAt(a, b)|
    ensures |UsersIn(other, buckets)| <= |UsersIn(a, buckets)|
    decreases buckets
  {
    if buckets == {} {
      assert UsersIn(other, buckets) == {};
    } else {
      var b :| b in buckets;
      FewerIn(other, a, buckets - {b});
      OneBucketMore(other, buckets, b);
      OneBucketMore(a, buckets, b);
    }
  }

  lemma DisjointSize<T>(a: set<T>, b: set<T>)
    requires a !! b
    ensures |a + b| == |a| + |b|
  {
  }

  /**
   * A set of frozen buckets proves an assignment maximal: the frozen buckets are
   * full, their owners offer only frozen buckets, and so do all unassigned Users.
   */
  ghost predicate Certifies(users: Users, cap: Capacity, a: Assignment, frozen: set<BoosterBucket>) {
    && Legal(users, cap, a)
    && (forall b :: b in frozen ==> |UsersAt(a, b)| == cap.Of(b))
    && (forall u :: u in a && a[u] in frozen ==> users[u] <= frozen)
    && (forall u :: u in users && u !in a ==> users[u] <= frozen)
  }

  lemma CertifiedIsMaximal(users: Users, cap: Capacity, a: Assignment, frozen: set<BoosterBucket>)
    requires Certifies(users, cap, a, frozen)
    ensures IsMaxFill(users, cap, |a|)
  {
    forall other: Assignment | Legal(users, cap, other)
      ensures |other| <= |a|
    {
      SplitAt(other, frozen);
      SplitAt(a, frozen);
      FewerIn(other, a, frozen);
      // Outside the frozen buckets every User of `other` also has a slot outside them in `a`.
      SubsetSize(other.Keys - UsersIn(other, frozen), a.Keys - UsersIn(a, frozen));
    }
  }

  lemma SplitAt(a: Assignment, buckets: set<BoosterBucket>)
    ensures |a| == |UsersIn(a, buckets)| + |a.Keys - UsersIn(a, buckets)|
  {
    assert a.Keys == UsersIn(a, buckets) + (a.Keys - UsersIn(a, buckets));
    assert |a.Keys| == |a|;
  }

  lemma MaxFillUnique(users: Users, cap: Capacity, n: nat, m: nat)
    requires IsMaxFill(users, cap, n) && IsMaxFill(users, cap, m)
    ensures n == m
  {
    var a :| Legal(users, cap, a) && |a| == n;
    var b :| Legal(users, cap, b) && |b| == m;
  }

  // ---------------------------------------------------------------------
  // Committing to one slot
  // ---------------------------------------------------------------------

  /** Giving one slot of `b` to `u` still leaves the rest of the maximum reachable. */
  ghost predicate Keeps(users: Users, cap: Capacity, n: nat, u: UserId, b: BoosterBucket)
    requires cap.Of(b) > 0
  {
    n > 0 && IsMaxFill(users - {u}, cap.Take(b), n - 1)
  }

  lemma RemoveUser(users: Users, cap: Capacity, a: Assignment, u: UserId)
    requires Legal(users, cap, a) && u in a && cap.Of(a[u]) > 0
    ensures Legal(users - {u}, cap.Take(a[u]), a - {u}) && |a - {u}| == |a| - 1
  {
    var rest := a - {u};
    assert rest.Keys == a.Keys - {u};
    forall b ensures |UsersAt(rest, b)| <= cap.Take(a[u]).Of(b) {
      assert UsersAt(rest, b) == UsersAt(a, b) - {u};
      assert a[u] == b ==> u in UsersAt(a, b);
      assert a[u] != b ==> UsersAt(rest, b) == UsersAt(a, b);
    }
  }

  lemma AddUser(users: Users, cap: Capacity, rest: Assignment, u: UserId, b: BoosterBucket)
    requires cap.Of(b) > 0 && u in users && b in users[u]
    requires Legal(users - {u}, cap.Take(b), rest)
    ensures Legal(users, cap, rest[u := b]) && |rest[u := b]| == |rest| + 1
  {
    var a := rest[u := b];
    assert u !in rest;
    assert a.Keys == rest.Keys + {u};
    forall c ensures |UsersAt(a, c)| <= cap.Of(c) {
      UsersAtUpdated(rest, u, b, c);
    }
  }

  /** A slot that none of its Users may take without lowering the maximum is in no maximum assignment. */
  lemma SlotUnused(users: Users, cap: Capacity, n: nat, b: BoosterBucket)
    requires IsMaxFill(users, cap, n) && cap.Of(b) > 0
    requires forall u :: u in users && b in users[u] ==> !Keeps(users, cap, n, u, b)
    ensures IsMaxFill(users, cap.Take(b), n)
  {
    var a :| Legal(users, cap, a) && |a| == n;
    if |UsersAt(a, b)| == cap.Of(b) {
      var u :| u in UsersAt(a, b);
      RemoveUser(users, cap, a, u);
      forall rest | Legal(users - {u}, cap.Take(b), rest) ensures |rest| <= n - 1 {
        AddUser(users, cap, rest, u, b);
      }
      assert Keeps(users, cap, n, u, b);
    } else {
      assert Legal(users, cap.Take(b), a);
    }
    forall other | Legal(users, cap.Take(b), other) ensures |other| <= n {
      forall c ensures |UsersAt(other, c)| <= cap.Of(c) {
        assert |UsersAt(other, c)| <= cap.Take(b).Of(c);
      }
      assert Legal(users, cap, other);
    }
  }

  lemma NoCapacityNoFill(users: Users, cap: Capacity, n: nat)
    requires IsMaxFill(users, cap, n) && cap == Capacity(0, 0, 0)
    ensures n == 0
  {
    var a :| Legal(users, cap, a) && |a| == n;
    SizeByBucket(a);
  }

  // ---------------------------------------------------------------------
  // Slots
  // ---------------------------------------------------------------------

  type Owners = seq<Option<UserId>>

  /** Every owner offers its slot. */
  ghost predicate Eligible(users: Users, slots: seq<BoosterBucket>, owner: Owners) {
    && |owner| == |slots|
    && forall s :: 0 <= s < |owner| && owner[s].Some? ==> owner[s].value in users && slots[s] in users[owner[s].value]
  }

  /** No User owns two slots. */
  ghost predicate OneSlotEach(owner: Owners) {
    forall u :: multiset(owner)[Some(u)] <= 1
  }

  /** All slots of the frozen buckets are owned, by Users offering frozen buckets only. */
  ghost predicate Closed(users: Users, slots: seq<BoosterBucket>, owner: Owners, frozen: set<BoosterBucket>)
    requires |owner| == |slots|
  {
    forall s :: 0 <= s < |slots| && slots[s] in frozen ==>
      owner[s].Some? && owner[s].value in users && users[owner[s].value] <= frozen
  }

  /** The assignment read off the slot owners. */
  ghost function ToAssignment(slots: seq<BoosterBucket>, owner: Owners): (a: Assignment)
    requires |owner| == |slots|
  {
    if owner == [] then map[]
    else
      var n := |owner| - 1;
      var rest := ToAssignment(slots[..n], owner[..n]);
      if owner[n].Some? then rest[owner[n].value := slots[n]] else rest
  }

  ghost function OwnedCount(slots: seq<BoosterBucket>, owner: Owners, b: BoosterBucket): nat
    requires |owner| == |slots|
  {
    if owner == [] then 0
    else
      var n := |owner| - 1;
      OwnedCount(slots[..n], owner[..n], b) + if owner[n].Some? && slots[n] == b then 1 else 0
  }

  lemma DropLast<T>(s: seq<T>)
    requires s != []
    ensures multiset(s) == multiset(s[..|s| - 1]) + multiset{s[|s| - 1]}
  {
    assert s == s[..|s| - 1] + [s[|s| - 1]];
  }

  /** What `ToAssignment` reads off, one slot at a time. */
  ghost predicate ReadsAs(slots: seq<BoosterBucket>, owner: Owners, a: Assignment)
    requires |owner| == |slots|
  {
    && (forall u :: u in a <==> Some(u) in owner)
    && (forall s :: 0 <= s < |owner| && owner[s].Some? ==> owner[s].value in a && slots[s] == a[owner[s].value])
    && (forall b :: |UsersAt(a, b)| == OwnedCount(slots, owner, b))
    && |a| == |owner| - multiset(owner)[None]
  }

  lemma UsersAtUpdated(rest: Assignment, u: UserId, b: BoosterBucket, c: BoosterBucket)
    requires u !in rest
    ensures |UsersAt(rest[u := b], c)| == |UsersAt(rest, c)| + if c == b then 1 else 0
  {
    var added := if c == b then {u} else {};
    assert UsersAt(rest[u := b], c) == UsersAt(rest, c) + added;
  }

  lemma ReadOneMore(slots: seq<BoosterBucket>, owner: Owners, rest: Assignment, b: BoosterBucket, u: UserId)
    requires |owner| == |slots| && ReadsAs(slots, owner, rest)
    requires Some(u) !in owner
    ensures ReadsAs(slots + [b], owner + [Some(u)], rest[u := b])
  {
    assert (owner + [Some(u)])[..|owner|] == owner && (slots + [b])[..|owner|] == slots;
    forall c ensures |UsersAt(rest[u := b], c)| == OwnedCount(slots + [b], owner + [Some(u)], c) {
      UsersAtUpdated(rest, u, b, c);
    }
  }

  lemma ReadFreeSlot(slots: seq<BoosterBucket>, owner: Owners, rest: Assignment, b: BoosterBucket)
    requires |owner| == |slots| && ReadsAs(slots, owner, rest)
    ensures ReadsAs(slots + [b], owner + [None], rest)
  {
    assert (owner + [None])[..|owner|] == owner && (slots + [b])[..|owner|] == slots;
  }

  lemma OneSlotEachPrefix(owner: Owners, last: Option<UserId>)
    requires OneSlotEach(owner + [last])
    ensures OneSlotEach(owner) && (last.Some? ==> last !in owner)
  {
    var whole := owner + [last];
    assert multiset(whole) == multiset(owner) + multiset{last};
    forall u ensures multiset(owner)[Some(u)] <= 1 {
      assert multiset(whole)[Some(u)] <= 1;
    }
    if last.Some? {
      assert multiset(whole)[Some(last.value)] == multiset(owner)[Some(last.value)] + 1;
    }
  }

  lemma {:induction false} ReadOff(slots: seq<BoosterBucket>, owner: Owners)
    requires |owner| == |slots| && OneSlotEach(owner)
    ensures ReadsAs(slots, owner, ToAssignment(slots, owner))
  {
    if owner == [] {
      forall b ensures UsersAt(map[], b) == {} {}
    } else {
      var n := |owner| - 1;
      var slots', owner' := slots[..n], owner[..n];
      assert slots == slots' + [slots[n]] && owner == owner' + [owner[n]];
      OneSlotEachPrefix(owner', owner[n]);
      ReadOff(slots', owner');
      if owner[n].Some? {
        ReadOneMore(slots', owner', ToAssignment(slots', owner'), slots[n], owner[n].value);
      } else {
        ReadFreeSlot(slots', owner', ToAssignment(slots', owner'), slots[n]);
      }
    }
  }

  lemma {:induction false} OwnedWithinSlots(slots: seq<BoosterBucket>, owner: Owners, b: BoosterBucket)
    requires |owner| == |slots|
    ensures OwnedCount(slots, owner, b) <= multiset(slots)[b]
    ensures (forall s :: 0 <= s < |slots| && slots[s] == b ==> owner[s].Some?)
              ==> OwnedCount(slots, owner, b) == multiset(slots)[b]
  {
    if owner != [] {
      var n := |owner| - 1;
      DropLast(slots);
      OwnedWithinSlots(slots[..n], owner[..n], b);
    }
  }

  /** What the whole search leaves behind is a certified assignment. */
  lemma MatchingIsMaximal(users: Users, cap: Capacity, slots: seq<BoosterBucket>, owner: Owners,
                          frozen: set<BoosterBucket>)
    requires forall b :: multiset(slots)[b] == cap.Of(b)
    requires Eligible(users, slots, owner) && OneSlotEach(owner)
    requires Closed(users, slots, owner, frozen)
    requires forall u :: u in users && Some(u) !in owner ==> users[u] <= frozen
    ensures var a, size := ToAssignment(slots, owner), |owner| - multiset(owner)[None];
            Legal(users, cap, a) && |a| == size && IsMaxFill(users, cap, size)
  {
    var a := ToAssignment(slots, owner);
    ReadOff(slots, owner);
    forall u | u in a ensures u in users && a[u] in users[u] && (a[u] in frozen ==> users[u] <= frozen) {
      var s :| 0 <= s < |owner| && owner[s] == Some(u);
      assert slots[s] == a[u];
    }
    forall b ensures |UsersAt(a, b)| <= cap.Of(b) && (b in frozen ==> |UsersAt(a, b)| == cap.Of(b)) {
      OwnedWithinSlots(slots, owner, b);
    }
    CertifiedIsMaximal(users, cap, a, frozen);
  }

  // ---------------------------------------------------------------------
  // The search
  // ---------------------------------------------------------------------

  ghost function Below(n: nat): (s: set<nat>)
    ensures forall k: nat :: k in s <==> k < n
  {
    if n == 0 then {} else Below(n - 1) + {n - 1}
  }

  /** The slots the current search has entered are owned, and their owners lead nowhere new. */
  ghost predicate Explored(users: Users, slots: seq<BoosterBucket>, owner: Owners, entered: set<nat>, visited: set<nat>)
    requires |owner| == |slots|
  {
    forall s :: s in entered ==>
      && s < |slots| && owner[s].Some? && owner[s].value in users
      && Reaches(users, slots, owner[s].value, visited)
  }

  /** Every slot `u` could take is in `visited`. */
  ghost predicate Reaches(users: Users, slots: seq<BoosterBucket>, u: UserId, visited: set<nat>)
    requires u in users
  {
    forall s :: 0 <= s < |slots| && slots[s] in users[u] ==> s in visited
  }

  /** Slots that were visited before, or are frozen, keep their owner. */
  ghost predicate Kept(slots: seq<BoosterBucket>, before: Owners, after: Owners, visited: set<nat>,
                       frozen: set<BoosterBucket>)
    requires |before| == |after| == |slots|
  {
    forall s :: 0 <= s < |slots| && (s in visited || slots[s] in frozen) ==> after[s] == before[s]
  }

  /** One more slot is owned, by `u`; the other owners may have moved but are the same. */
  ghost predicate Augmented(before: Owners, after: Owners, u: UserId) {
    && None in before
    && multiset(after) == multiset(before) - multiset{None} + multiset{Some(u)}
  }

  /** A successful search for `u`. */
  ghost predicate Found(users: Users, slots: seq<BoosterBucket>, before: Owners, after: Owners,
                        visited: set<nat>, frozen: set<BoosterBucket>, u: UserId)
    requires |before| == |slots| && u in users
  {
    && Eligible(users, slots, after)
    && Kept(slots, before, after, visited, frozen)
    && Augmented(before, after, u)
    && !(users[u] <= frozen)
  }

  lemma TakeFree(users: Users, slots: seq<BoosterBucket>, owner: Owners, visited: set<nat>,
                 frozen: set<BoosterBucket>, u: UserId, slot: nat)
    requires Eligible(users, slots, owner) && Closed(users, slots, owner, frozen)
    requires u in users && slot < |slots| && slots[slot] in users[u] && slot !in visited
    requires owner[slot] == None
    ensures Found(users, slots, owner, owner[slot := Some(u)], visited, frozen, u)
  {
  }

  lemma AugmentedTakeOver(before: Owners, moved: Owners, slot: nat, owner: UserId, u: UserId)
    requires slot < |moved| && moved[slot] == Some(owner) && Augmented(before, moved, owner)
    ensures Augmented(before, moved[slot := Some(u)], u)
  {
    assert multiset(moved[slot := Some(u)]) == multiset(moved) - multiset{Some(owner)} + multiset{Some(u)};
  }

  lemma TakeOver(users: Users, slots: seq<BoosterBucket>, before: Owners, moved: Owners, visited: set<nat>,
                 frozen: set<BoosterBucket>, u: UserId, slot: nat)
    requires Eligible(users, slots, before) && Closed(users, slots, before, frozen)
    requires u in users && slot < |slots| && slots[slot] in users[u] && slot !in visited
    requires before[slot].Some?
    requires Found(users, slots, before, moved, visited + {slot}, frozen, before[slot].value)
    ensures Found(users, slots, before, moved[slot := Some(u)], visited, frozen, u)
  {
    assert slot in visited + {slot};
    AugmentedTakeOver(before, moved, slot, before[slot].value, u);
    assert slots[slot] !in frozen;
    assert Kept(slots, before, moved[slot := Some(u)], visited, frozen);
  }

  lemma FoundWidens(users: Users, slots: seq<BoosterBucket>, before: Owners, after: Owners,
                    visited: set<nat>, more: set<nat>, frozen: set<BoosterBucket>, u: UserId)
    requires |before| == |slots| && u in users && visited <= more
    requires Found(users, slots, before, after, more, frozen, u)
    ensures Found(users, slots, before, after, visited, frozen, u)
  {
  }

  /** A failed search for `u`: all its slots are visited, and so are all slots reachable from them. */
  ghost predicate Failed(users: Users, slots: seq<BoosterBucket>, owner: Owners,
                         visited: set<nat>, visited': set<nat>, u: UserId)
    requires |owner| == |slots| && u in users
  {
    && Reaches(users, slots, u, visited')
    && Explored(users, slots, owner, visited' - visited, visited')
  }

  /** The search state the augmenting recursion shares: slot owners and the visited slots. */
  class SlotSearch {
    const users: Users
    const slots: seq<BoosterBucket>
    var slotOwner: Owners
    var visited: set<nat>

    constructor (users: Users, slots: seq<BoosterBucket>)
      ensures this.users == users && this.slots == slots
      ensures slotOwner == seq(|slots|, _ => None)
    {
      this.users := users;
      this.slots := slots;
      slotOwner := seq(|slots|, _ => None);
      visited := {};
    }

    /**
     * Depth-first search for an augmenting path from `userId`. Success adds one
     * owner for `userId` and never touches a frozen bucket; failure changes no
     * owner and leaves a closed explored region.
     */
    method Assign(userId: UserId, ghost frozen: set<BoosterBucket>) returns (found: bool)
      requires userId in users && visited <= Below(|slots|)
      requires Eligible(users, slots, slotOwner) && Closed(users, slots, slotOwner, frozen)
      modifies this
      ensures old(visited) <= visited <= Below(|slots|)
      ensures found ==> Found(users, slots, old(slotOwner), slotOwner, old(visited), frozen, userId)
      ensures !found ==> slotOwner == old(slotOwner) && Failed(users, slots, slotOwner, old(visited), visited, userId)
      decreases Below(|slots|) - visited
    {
      var buckets := users[userId];
      for slot := 0 to |slots|
        invariant old(visited) <= visited <= Below(|slots|)
        invariant slotOwner == old(slotOwner)
        invariant forall s :: 0 <= s < slot && slots[s] in buckets ==> s in visited
        invariant Explored(users, slots, slotOwner, visited - old(visited), visited)
      {
        if slot in visited || slots[slot] !in buckets {
          continue;
        }
        ghost var earlier := visited;
        visited := visited + {slot};
        var owner := slotOwner[slot];
        if owner == None {
          TakeFree(users, slots, slotOwner, old(visited), frozen, userId, slot);
          slotOwner := slotOwner[slot := Some(userId)];
          return true;
        }
        assert slot in Below(|slots|) - old(visited);
        var free := Assign(owner.value, frozen);
        if free {
          TakeOver(users, slots, old(slotOwner), slotOwner, earlier, frozen, userId, slot);
          slotOwner := slotOwner[slot := Some(userId)];
          FoundWidens(users, slots, old(slotOwner), slotOwner, old(visited), earlier, frozen, userId);
          return true;
        }
        ExploredMore(users, slots, slotOwner, old(visited), earlier + {slot}, slot, visited);
      }
      found := false;
    }
  }

  lemma ExploredMore(users: Users, slots: seq<BoosterBucket>, owner: Owners, visited: set<nat>,
                     entered: set<nat>, slot: nat, visited': set<nat>)
    requires slot < |slots| == |owner| && owner[slot].Some? && owner[slot].value in users
    requires slot in entered && entered <= visited'
    requires Explored(users, slots, owner, entered - {slot} - visited, entered - {slot})
    requires Reaches(users, slots, owner[slot].value, visited')
    requires Explored(users, slots, owner, visited' - entered, visited')
    ensures Explored(users, slots, owner, visited' - visited, visited')
  {
    forall s | s in visited' - visited
      ensures s < |slots| && owner[s].Some? && owner[s].value in users && Reaches(users, slots, owner[s].value, visited')
    {
      if s in entered && s != slot {
        assert s in entered - {slot} - visited;
      } else if s !in entered {
        assert s in visited' - entered;
      }
    }
  }

  /** The slot list: every bucket repeated up to its capacity. */
  method ExpandSlots(cap: Capacity) returns (slots: seq<BoosterBucket>)
    ensures |slots| == cap.Total()
    ensures forall b :: multiset(slots)[b] == cap.Of(b)
  {
    slots := [];
    ghost var done := Capacity(0, 0, 0);
    var order := [TANKS, HEALERS, DPS];
    for i := 0 to 3
      invariant forall k, b :: 0 <= k < 3 && b == order[k] ==> multiset(slots)[b] == if k < i then cap.Of(b) else 0
      invariant |slots| == (if 0 < i then cap.tanks else 0) + (if 1 < i then cap.healers else 0) + (if 2 < i then cap.dps else 0)
    {
      var bucket := order[i];
      ghost var start := slots;
      for index := 0 to cap.Of(bucket)
        invariant multiset(slots)[bucket] == index && |slots| == |start| + index
        invariant forall b :: b != bucket ==> multiset(slots)[b] == multiset(start)[b]
      {
        slots := slots + [bucket];
      }
    }
    forall b ensures multiset(slots)[b] == cap.Of(b) {
      assert b == order[0] || b == order[1] || b == order[2];
    }
  }

  lemma {:induction false} LeastExists(s: set<UserId>)
    requires s != {}
    ensures exists u :: u in s && forall v :: v in s ==> u.rank <= v.rank
  {
    var u :| u in s;
    var rest := s - {u};
    if rest == {} {
      assert forall v :: v in s ==> v == u || v in rest;
    } else {
      LeastExists(rest);
      var w :| w in rest && forall v :: v in rest ==> w.rank <= v.rank;
      var m := if u.rank <= w.rank then u else w;
      assert m in s && forall v :: v in s ==> m.rank <= v.rank by {
        forall v | v in s ensures m.rank <= v.rank {
          assert v == u || v in rest;
        }
      }
    }
  }

  /** The slots of bucket `b` were all visited. */
  ghost predicate WentThrough(slots: seq<BoosterBucket>, b: BoosterBucket, visited: set<nat>) {
    forall s :: 0 <= s < |slots| && slots[s] == b ==> s in visited
  }

  /** After the Users outside `todo` had their one search each. */
  ghost predicate Searched(users: Users, slots: seq<BoosterBucket>, owner: Owners, todo: set<UserId>,
                           frozen: set<BoosterBucket>)
  {
    && Eligible(users, slots, owner) && OneSlotEach(owner)
    && Closed(users, slots, owner, frozen)
    && (forall u :: u in users && u !in todo && Some(u) !in owner ==> users[u] <= frozen)
    && (forall u :: u in todo ==> Some(u) !in owner)
  }

  lemma SearchedFound(users: Users, slots: seq<BoosterBucket>, owner: Owners, owner': Owners, todo: set<UserId>,
                      frozen: set<BoosterBucket>, u: UserId)
    requires Searched(users, slots, owner, todo, frozen) && u in todo && u in users
    requires Found(users, slots, owner, owner', {}, frozen, u)
    ensures Searched(users, slots, owner', todo - {u}, frozen)
    ensures multiset(owner')[None] == multiset(owner)[None] - 1
  {
    OwnersAfter(owner, owner', u);
    assert Closed(users, slots, owner', frozen) by {
      forall s | 0 <= s < |slots| && slots[s] in frozen ensures owner'[s] == owner[s] {}
    }
  }

  lemma SearchedFailed(users: Users, slots: seq<BoosterBucket>, owner: Owners, todo: set<UserId>,
                       frozen: set<BoosterBucket>, u: UserId, visited: set<nat>) returns (full: set<BoosterBucket>)
    requires Searched(users, slots, owner, todo, frozen) && u in todo && u in users
    requires Failed(users, slots, owner, {}, visited, u)
    ensures Searched(users, slots, owner, todo - {u}, frozen + full)
  {
    full := set b: BoosterBucket | WentThrough(slots, b, visited);
    assert visited - {} == visited;
    FreezeMore(users, slots, owner, u, frozen, full, visited);
  }

  /** Most Booster slots fillable at once, Users tried once each in id order. */
  method MaxBoosterSlotFill(users: Users, cap: Capacity) returns (filled: nat)
    ensures IsMaxFill(users, cap, filled)
  {
    var slots := ExpandSlots(cap);
    var search := new SlotSearch(users, slots);
    filled := 0;
    var todo := users.Keys;
    ghost var frozen: set<BoosterBucket> := {};
    AllFree(search.slotOwner);
    while todo != {}
      invariant todo <= users.Keys
      invariant Searched(users, slots, search.slotOwner, todo, frozen)
      invariant filled == |slots| - multiset(search.slotOwner)[None]
      decreases todo
    {
      LeastExists(todo);
      var userId :| userId in todo && forall v :: v in todo ==> userId.rank <= v.rank;
      ghost var owner := search.slotOwner;
      search.visited := {};
      var found := search.Assign(userId, frozen);
      if found {
        filled := filled + 1;
        SearchedFound(users, slots, owner, search.slotOwner, todo, frozen, userId);
      } else {
        ghost var full := SearchedFailed(users, slots, owner, todo, frozen, userId, search.visited);
        frozen := frozen + full;
      }
      todo := todo - {userId};
    }
    MatchingIsMaximal(users, cap, slots, search.slotOwner, frozen);
  }

  lemma AllFree(owner: Owners)
    requires forall s :: 0 <= s < |owner| ==> owner[s] == None
    ensures multiset(owner)[None] == |owner|
    ensures forall u :: Some(u) !in owner && multiset(owner)[Some(u)] == 0
  {
    if owner != [] {
      DropLast(owner);
      AllFree(owner[..|owner| - 1]);
    }
    forall u ensures multiset(owner)[Some(u)] == 0 {
      assert Some(u) !in owner;
      assert Some(u) !in multiset(owner);
    }
  }

  lemma OwnersAfter(owner: Owners, owner': Owners, userId: UserId)
    requires Some(userId) !in owner && OneSlotEach(owner) && Augmented(owner, owner', userId)
    ensures OneSlotEach(owner')
    ensures forall u :: Some(u) in owner' <==> Some(u) in owner || u == userId
    ensures multiset(owner')[None] == multiset(owner)[None] - 1
  {
    forall u
      ensures multiset(owner')[Some(u)] <= 1 && (Some(u) in owner' <==> Some(u) in owner || u == userId)
    {
      assert multiset(owner)[Some(u)] <= 1;
      assert Some(u) in owner <==> Some(u) in multiset(owner);
      assert Some(u) in owner' <==> Some(u) in multiset(owner');
    }
    assert None in multiset(owner);
  }

  /** A failed search freezes every bucket it went through completely. */
  lemma FreezeMore(users: Users, slots: seq<BoosterBucket>, owner: Owners, userId: UserId,
                   frozen: set<BoosterBucket>, full: set<BoosterBucket>, visited: set<nat>)
    requires |owner| == |slots| && userId in users
    requires Closed(users, slots, owner, frozen)
    requires forall b :: b in full <==> WentThrough(slots, b, visited)
    requires Reaches(users, slots, userId, visited)
    requires Explored(users, slots, owner, visited, visited)
    ensures Closed(users, slots, owner, frozen + full)
    ensures users[userId] <= full
  {
    forall s | 0 <= s < |slots| && slots[s] in full
      ensures owner[s].Some? && owner[s].value in users && users[owner[s].value] <= full
    {
      assert s in visited;
      assert Reaches(users, slots, owner[s].value, visited);
    }
  }
}
