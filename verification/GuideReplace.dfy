/**
 * The two replacement runs, publish and retire, with a possible failure or
 * crash at every Discord call and every save. A run that crashes simply
 * returns; the next run starts from the world it left behind.
 */
module GuideReplace {
  import opened Prelude
  import opened Sorting
  import opened GuideModel
  import opened GuideVerify

  // ---------------------------------------------------------------------
  // Calls that may fail
  // ---------------------------------------------------------------------

  /** One attempt of a call: it may be refused, lose its answer, be rate limited, or the process may die. */
  datatype Fault = Works | Refused | AnswerLost | CrashBefore | CrashAfter | RateLimited(short: bool)

  datatype Reply = Answered | Failed | Crashed

  method NextFault(reliable: bool) returns (f: Fault)
    ensures reliable ==> f == Works
  {
    f := *;
    if reliable {
      f := Works;
    }
  }

  /** One short rate limit is waited out and the call made once more; every other 429 stops the run. */
  method WithRateLimitPolicy(reliable: bool) returns (f: Fault)
    ensures reliable ==> f == Works
  {
    f := NextFault(reliable);
    if f == RateLimited(true) {
      f := NextFault(reliable);
    }
  }

  method CreateCardMessage(w: World, card: Card, reliable: bool) returns (w': World, reply: Reply, id: Id)
    ensures w' == w || w' == Posted(w, card)
    ensures reply == Answered ==> w' == Posted(w, card) && id == Id(w.nextRank)
    ensures reliable ==> reply == Answered
  {
    var f := WithRateLimitPolicy(reliable);
    id := Id(w.nextRank);
    match f
    case Works => w', reply := Posted(w, card), Answered;
    case Refused => w', reply := w, Failed;
    case AnswerLost => w', reply := Posted(w, card), Failed;
    case CrashBefore => w', reply := w, Crashed;
    case CrashAfter => w', reply := Posted(w, card), Crashed;
    case RateLimited(_) => w', reply := w, Failed;
  }

  /** Deleting a message that is already gone counts as done. */
  method DeleteMessage(w: World, id: Id, reliable: bool) returns (w': World, reply: Reply)
    ensures w' == w || w' == Removed(w, id)
    ensures reply == Answered ==> w' == Removed(w, id)
    ensures reliable ==> reply == Answered
  {
    var f := WithRateLimitPolicy(reliable);
    match f
    case Works => w', reply := Removed(w, id), Answered;
    case Refused => w', reply := w, if HasMessage(w.channel, id) then Failed else Answered;
    case AnswerLost => w', reply := Removed(w, id), Failed;
    case CrashBefore => w', reply := w, Crashed;
    case CrashAfter => w', reply := Removed(w, id), Crashed;
    case RateLimited(_) => w', reply := w, Failed;
  }

  /** Atomic replacement of the state file. */
  method SaveState(w: World, st: State, reliable: bool) returns (w': World, reply: Reply)
    ensures w' == w || w' == Saved(w, st)
    ensures reply == Answered ==> w' == Saved(w, st)
    ensures reliable ==> reply == Answered
  {
    var f := NextFault(reliable);
    match f
    case Works => w', reply := Saved(w, st), Answered;
    case Refused => w', reply := w, Failed;
    case AnswerLost => w', reply := Saved(w, st), Failed;
    case CrashBefore => w', reply := w, Crashed;
    case CrashAfter => w', reply := Saved(w, st), Crashed;
    case RateLimited(_) => w', reply := w, Failed;
  }

  /** What stopped the run is saved with the state as it is in memory, unless the process is gone. */
  method RecordStop(w: World, st: State, reply: Reply, reliable: bool) returns (w': World)
    ensures w' == w || w' == Saved(w, st)
  {
    w' := w;
    if reply != Crashed {
      var saved;
      w', saved := SaveState(w, st, reliable);
    }
  }

  // ---------------------------------------------------------------------
  // Facts the runs need from the invariant
  // ---------------------------------------------------------------------

  lemma {:induction false} IdsByKeyAt(cards: seq<Card>, messages: seq<Message>, i: nat)
    requires DistinctKeys(cards) && |cards| == |messages| && i < |cards|
    ensures cards[i].key in IdsByKey(cards, messages) && IdsByKey(cards, messages)[cards[i].key] == messages[i].id
  {
    var n := |cards| - 1;
    if i < n {
      IdsByKeyAt(cards[..n], messages[..n], i);
      assert cards[i].key != cards[n].key;
    }
  }

  lemma {:induction false} IdsByKeyOnly(cards: seq<Card>, messages: seq<Message>, key: Id)
    requires |cards| == |messages| && key in IdsByKey(cards, messages)
    ensures exists i :: 0 <= i < |cards| && cards[i].key == key && IdsByKey(cards, messages)[key] == messages[i].id
  {
    var n := |cards| - 1;
    if key != cards[n].key {
      IdsByKeyOnly(cards[..n], messages[..n], key);
      var i :| 0 <= i < n && cards[..n][i].key == key && IdsByKey(cards[..n], messages[..n])[key] == messages[..n][i].id;
      assert cards[i].key == key;
    }
  }

  lemma SavedMap(st: State, w: World, k: nat, m: nat, d: nat, e: nat)
    requires TrackedAt(st, w, k, m, d, e)
    ensures k <= |st.cards| && e <= |st.oldMessages| && |w.channel| >= |st.oldMessages| - e + k
    ensures st.newByCard == IdsByKey(st.cards[..k], w.channel[|st.oldMessages| - e..][..k])
  {
  }

  /** Which keys are saved, and with which ids. */
  lemma SavedIds(st: State, w: World, k: nat, m: nat, d: nat, e: nat, i: nat)
    requires TrackedAt(st, w, k, m, d, e) && i < |st.cards|
    ensures st.cards[i].key in st.newByCard <==> i < k
    ensures i < k ==> st.newByCard[st.cards[i].key] == w.channel[|st.oldMessages| - e + i].id
  {
    hide TrackedAt;
    Bounds(st, w, k, m, d, e);
    SavedMap(st, w, k, m, d, e);
    var n := |st.oldMessages|;
    var cards, news := st.cards[..k], w.channel[n - e..][..k];
    if i < k {
      IdsByKeyAt(cards, news, i);
      assert news[i] == w.channel[n - e..][i] == w.channel[n - e + i];
    } else {
      hide IdsByKey;
      forall j | 0 <= j < k ensures cards[j].key != st.cards[i].key {
        assert st.cards[j].key != st.cards[i].key;
      }
      if st.cards[i].key in st.newByCard {
        IdsByKeyOnly(cards, news, st.cards[i].key);
      }
    }
  }

  /** A save that may or may not have happened leaves a safe world when both states track it. */
  lemma EitherSafe(w: World, st: State, st': State, w': World,
                   k: nat, m: nat, d: nat, e: nat, k': nat, m': nat, d': nat, e': nat)
    requires w' == w || w' == Saved(w, st')
    requires w.file == Some(st) && TrackedAt(st, w, k, m, d, e) && TrackedAt(st', w, k', m', d', e')
    ensures Safe(w')
    ensures TrackedAt(st', w', k', m', d', e')
  {
    hide TrackedAt;
    FileIrrelevant(st', w, st', k', m', d', e');
    assert w' == w ==> Tracked(st, w');
    assert w' == Saved(w, st') ==> Tracked(st', w');
  }

  // ---------------------------------------------------------------------
  // A tracked world passes verification
  // ---------------------------------------------------------------------

  lemma {:induction false} DropDeleted(olds: seq<OldMessage>, d: nat, deletedIds: seq<Id>)
    requires d <= |olds|
    requires forall i :: 0 <= i < d ==> olds[i].id in deletedIds
    requires forall i :: d <= i < |olds| ==> olds[i].id !in deletedIds
    ensures RemainingOld(olds, deletedIds) == olds[d..]
  {
    if olds != [] {
      if d == 0 {
        DropDeleted(olds[1..], 0, deletedIds);
      } else {
        DropDeleted(olds[1..], d - 1, deletedIds);
        assert olds[d..] == olds[1..][d - 1..];
      }
    }
  }

  lemma RemainingIsTail(st: State, w: World, k: nat, m: nat, d: nat, e: nat)
    requires TrackedAt(st, w, k, m, d, e)
    ensures RemainingOld(st.oldMessages, st.deletedOldIds) == st.oldMessages[d..]
    ensures forall i :: 0 <= i < |st.oldMessages| ==> (st.oldMessages[i].id in st.deletedOldIds <==> i < d)
  {
    var olds := st.oldMessages;
    forall i | 0 <= i < |olds| ensures olds[i].id in st.deletedOldIds <==> i < d {
      if i < d {
        assert st.deletedOldIds[i] == olds[i].id;
      }
      assert forall j :: 0 <= j < d ==> st.deletedOldIds[j] == olds[j].id && (j < i ==> olds[j].id.rank < olds[i].id.rank);
    }
    DropDeleted(olds, d, st.deletedOldIds);
  }

  lemma {:induction false} ByIdAt(channel: seq<Message>, nextRank: int, i: nat)
    requires Ascending(channel, nextRank) && i < |channel|
    ensures ById(channel, channel[i].id) == Some(channel[i])
  {
    var n := |channel| - 1;
    if i < n {
      ByIdAt(channel[..n], nextRank, i);
    }
  }

  lemma CardAt(st: State, w: World, k: nat, m: nat, d: nat, e: nat, i: nat)
    requires TrackedAt(st, w, k, m, d, e) && i < m
    ensures IsCard(w.channel[|st.oldMessages| - e + i], st.cards[i])
    ensures Ascending(w.channel, w.nextRank)
  {
    var n := |st.oldMessages|;
    assert IsCard(w.channel[n - e..][i], st.cards[..m][i]);
  }

  lemma NewMessageAt(st: State, w: World, k: nat, m: nat, d: nat, e: nat, i: nat)
    requires TrackedAt(st, w, k, m, d, e) && i < k
    ensures NewMessage(st, w.channel, st.cards[i]) == Some(w.channel[|st.oldMessages| - e + i])
    ensures IsCard(w.channel[|st.oldMessages| - e + i], st.cards[i])
  {
    hide TrackedAt, IsCard;
    Bounds(st, w, k, m, d, e);
    CardAt(st, w, k, m, d, e, i);
    var n := |st.oldMessages|;
    SavedIds(st, w, k, m, d, e, i);
    ByIdAt(w.channel, w.nextRank, n - e + i);
  }

  lemma {:induction false} FoundRanksAre(st: State, w: World, k: nat, m: nat, d: nat, e: nat, j: nat)
    requires TrackedAt(st, w, k, m, d, e) && j <= k
    ensures var found := FoundRanks(st, w.channel, st.cards[..j]);
            |found| == j && forall i :: 0 <= i < j ==> found[i] == w.channel[|st.oldMessages| - e + i].id.rank
  {
    hide TrackedAt;
    Bounds(st, w, k, m, d, e);
    if j > 0 {
      FoundRanksAre(st, w, k, m, d, e, j - 1);
      assert st.cards[..j][..j - 1] == st.cards[..j - 1];
      NewMessageAt(st, w, k, m, d, e, j - 1);
    }
  }

  lemma OldAt(st: State, w: World, k: nat, m: nat, d: nat, e: nat, i: nat)
    requires TrackedAt(st, w, k, m, d, e) && i < |st.oldMessages|
    ensures i >= e ==> IsOld(w.channel[i - e], st.oldMessages[i])
                       && ById(w.channel, st.oldMessages[i].id) == Some(w.channel[i - e])
    ensures i < e ==> !HasMessage(w.channel, st.oldMessages[i].id)
    ensures d <= i < e ==> st.deletingOldId == Some(st.oldMessages[i].id)
  {
    hide IdsByKey, CardsAre, Keys, OldIds, DistinctKeys;
    var n := |st.oldMessages|;
    if i >= e {
      assert IsOld(w.channel[..n - e][i - e], st.oldMessages[e..][i - e]);
      ByIdAt(w.channel, w.nextRank, i - e);
    } else {
      forall j | 0 <= j < |w.channel| ensures w.channel[j].id != st.oldMessages[i].id {
        if j < n - e {
          assert IsOld(w.channel[..n - e][j], st.oldMessages[e..][j]);
        } else {
          assert w.channel[n - e..][j - (n - e)] == w.channel[j];
        }
      }
    }
  }

  lemma MessagesExpected(st: State, w: World, k: nat, d: nat, e: nat, j: nat)
    requires TrackedAt(st, w, k, k, d, e) && j < |w.channel|
    ensures Expected(st, st.oldMessages[d..], w.channel[j])
  {
    hide TrackedAt;
    Bounds(st, w, k, k, d, e);
    var n := |st.oldMessages|;
    if j < n - e {
      OldAt(st, w, k, k, d, e, e + j);
      assert st.oldMessages[d..][e + j - d] == st.oldMessages[e + j];
    } else {
      SavedIds(st, w, k, k, d, e, j - (n - e));
      assert st.cards[j - (n - e)].key in st.newByCard;
    }
  }

  lemma OldsIntact(st: State, w: World, d: nat, e: nat)
    requires TrackedAt(st, w, |st.cards|, |st.cards|, d, e)
    ensures forall i :: 0 <= i < |st.oldMessages[d..]| ==> OldIntact(st.oldMessages[d..][i], w.channel, st.deletingOldId)
  {
    hide TrackedAt;
    Bounds(st, w, |st.cards|, |st.cards|, d, e);
    forall i | 0 <= i < |st.oldMessages[d..]| ensures OldIntact(st.oldMessages[d..][i], w.channel, st.deletingOldId) {
      OldAt(st, w, |st.cards|, |st.cards|, d, e, d + i);
    }
  }

  lemma CardsIntact(st: State, w: World, d: nat, e: nat)
    requires TrackedAt(st, w, |st.cards|, |st.cards|, d, e)
    ensures forall i :: 0 <= i < |st.cards| ==> CardIntact(st, w.channel, st.cards[i])
    ensures var found := FoundRanks(st, w.channel, st.cards);
            forall i :: 1 <= i < |found| ==> found[i - 1] < found[i]
  {
    hide TrackedAt;
    Bounds(st, w, |st.cards|, |st.cards|, d, e);
    forall i | 0 <= i < |st.cards| ensures CardIntact(st, w.channel, st.cards[i]) {
      NewMessageAt(st, w, |st.cards|, |st.cards|, d, e, i);
    }
    FoundRanksAre(st, w, |st.cards|, |st.cards|, d, e, |st.cards|);
    assert st.cards[..|st.cards|] == st.cards;
  }

  lemma TrackedVerifies(st: State, w: World, d: nat, e: nat)
    requires TrackedAt(st, w, |st.cards|, |st.cards|, d, e)
    ensures VerifyOk(st.cards, st, w.channel)
  {
    RemainingIsTail(st, w, |st.cards|, |st.cards|, d, e);
    forall j | 0 <= j < |w.channel| ensures Expected(st, st.oldMessages[d..], w.channel[j]) {
      MessagesExpected(st, w, |st.cards|, d, e, j);
    }
    OldsIntact(st, w, d, e);
    CardsIntact(st, w, d, e);
    OldsBelow(st, w, d, e);
  }

  lemma OldsBelow(st: State, w: World, d: nat, e: nat)
    requires TrackedAt(st, w, |st.cards|, |st.cards|, d, e)
    ensures OldBelow(st.oldMessages[d..], w.channel, FoundRanks(st, w.channel, st.cards))
  {
    var n, c := |st.oldMessages|, |st.cards|;
    FoundRanksAre(st, w, c, c, d, e, c);
    assert st.cards[..c] == st.cards;
    if c > 0 {
      assert w.channel[n - e..][0] == w.channel[n - e];
    }
  }

  // ---------------------------------------------------------------------
  // Placing one card
  // ---------------------------------------------------------------------

  /** Between two cards of a publish run. */
  ghost predicate Placing(w: World, st: State, cards: seq<Card>, k: nat, m: nat) {
    w.file == Some(st) && st.phase == Creating && st.cards == cards && TrackedAt(st, w, k, m, 0, 0)
  }

  /** The unsaved or saved new message of card `i` that the first listing showed. */
  ghost predicate FreshIs(w: World, st: State, m: nat, i: nat, shown: seq<Message>) {
    && |st.oldMessages| + m <= |w.channel|
    && shown == if i < m then [w.channel[|st.oldMessages| + i]] else []
  }

  /** Keeps, adopts or creates the message of card `i`. `stopped` means the run ends here. */
  method PlaceCard(w: World, st: State, cards: seq<Card>, i: nat, shown: seq<Message>, reliable: bool,
                   ghost k: nat, ghost m: nat)
    returns (w': World, st': State, stopped: bool)
    requires i < |cards|
    ensures w.channel <= w'.channel && w'.deleted == w.deleted
    ensures st'.oldMessages == st.oldMessages && st'.target == st.target && st'.cards == st.cards
    ensures Placing(w, st, cards, k, m) && i <= k && FreshIs(w, st, m, i, shown) ==>
              && (stopped ==> Safe(w'))
              && (!stopped ==> Placing(w', st', cards, Max(k, i + 1), Max(m, i + 1)))
              && (reliable ==> !stopped)
  {
    hide TrackedAt;
    var card := cards[i];
    ghost var expected := Placing(w, st, cards, k, m) && i <= k && FreshIs(w, st, m, i, shown);
    if expected {
      SavedIds(st, w, k, m, 0, 0, i);
      Bounds(st, w, k, m, 0, 0);
      assert Safe(w) && Safe(Saved(w, st)) by {
        EitherSafe(w, st, st, w, k, m, 0, 0, k, m, 0, 0);
        EitherSafe(w, st, st, Saved(w, st), k, m, 0, 0, k, m, 0, 0);
      }
    }
    var reply;
    if card.key in st.newByCard {
      var savedId := st.newByCard[card.key];
      assert expected ==> shown[0].id == savedId;
      if !HasMessage(shown, savedId) || |shown| > 1 {
        w' := RecordStop(w, st, Failed, reliable);
        return w', st, true;
      }
      return w, st, false;
    }
    if |shown| > 1 {
      w' := RecordStop(w, st, Failed, reliable);
      return w', st, true;
    }
    if |shown| == 1 {
      w', st', stopped := AdoptCard(w, st, card, shown[0].id, reliable, k);
      return;
    }
    st' := st.(pendingCardKey := Some(card.key));
    if expected {
      PendingSet(st, w, k);
    }
    w', reply := SaveState(w, st', reliable);
    if reply != Answered {
      w' := RecordStop(w', st', reply, reliable);
      if expected {
        EitherSafe(w, st, st', w', k, k, 0, 0, k, k, 0, 0);
      }
      return w', st', true;
    }
    if expected {
      FileIrrelevant(st', w, st', k, k, 0, 0);
    }
    w', st', stopped := CreateCard(w', st', card, reliable, k);
  }

  /** `id` is the unsaved new message of card `k`. */
  ghost predicate Adopts(w: World, st: State, card: Card, id: Id, k: nat) {
    k < |st.cards| && |st.oldMessages| + k < |w.channel|
    && card == st.cards[k] && id == w.channel[|st.oldMessages| + k].id
  }

  /** A message whose create call was never answered is saved as this card's new message. */
  method AdoptCard(w: World, st: State, card: Card, id: Id, reliable: bool, ghost k: nat)
    returns (w': World, st': State, stopped: bool)
    ensures w'.channel == w.channel && w'.deleted == w.deleted
    ensures st'.oldMessages == st.oldMessages && st'.target == st.target && st'.cards == st.cards
    ensures Placing(w, st, st.cards, k, k + 1) && Adopts(w, st, card, id, k) ==>
              && (stopped ==> Safe(w'))
              && (!stopped ==> Placing(w', st', st.cards, k + 1, k + 1))
              && (reliable ==> !stopped)
  {
    hide TrackedAt;
    ghost var expected := Placing(w, st, st.cards, k, k + 1) && Adopts(w, st, card, id, k);
    st' := Recorded(st, card.key, id);
    if expected {
      CardRecorded(st, w, k);
    }
    var reply;
    w', reply := SaveState(w, st', reliable);
    stopped := reply != Answered;
    if stopped {
      w' := RecordStop(w', st', reply, reliable);
    }
    if expected {
      EitherSafe(w, st, st', w', k, k + 1, 0, 0, k + 1, k + 1, 0, 0);
    }
  }

  /** The create call with its bookkeeping. */
  method CreateCard(w: World, st: State, card: Card, reliable: bool, ghost k: nat)
    returns (w': World, st': State, stopped: bool)
    ensures w.channel <= w'.channel && w'.deleted == w.deleted
    ensures st'.oldMessages == st.oldMessages && st'.target == st.target && st'.cards == st.cards
    ensures Pending(w, st, card, k) ==>
              && (stopped ==> Safe(w'))
              && (!stopped ==> Placing(w', st', st.cards, k + 1, k + 1))
              && (reliable ==> !stopped)
  {
    ghost var expected := Pending(w, st, card, k);
    if expected {
      CardPosted(st, w, k);
    }
    var reply, id;
    w', reply, id := CreateCardMessage(w, card, reliable);
    if reply != Answered {
      w' := RecordStop(w', st, reply, reliable);
      return w', st, true;
    }
    st' := Recorded(st, card.key, id);
    if expected {
      CardRecorded(st, w', k);
      assert w'.channel[|st.oldMessages| + k].id == id;
    }
    ghost var posted := w';
    w', reply := SaveState(w', st', reliable);
    if reply != Answered {
      w' := RecordStop(w', st', reply, reliable);
      if expected {
        EitherSafe(posted, st, st', w', k, k + 1, 0, 0, k + 1, k + 1, 0, 0);
      }
      return w', st', true;
    }
    stopped := false;
  }

  ghost predicate Pending(w: World, st: State, card: Card, k: nat) {
    && Placing(w, st, st.cards, k, k) && k < |st.cards|
    && card == st.cards[k] && st.pendingCardKey == Some(card.key)
  }

  // ---------------------------------------------------------------------
  // Publish
  // ---------------------------------------------------------------------

  /** The messages that are not among the saved old ids. */
  function NotOld(messages: seq<Message>, oldIds: seq<Id>): seq<Message> {
    if messages == [] then []
    else
      var n := |messages| - 1;
      NotOld(messages[..n], oldIds) + if messages[n].id in oldIds then [] else [messages[n]]
  }

  lemma NotOldAppend(messages: seq<Message>, m: Message, oldIds: seq<Id>)
    ensures NotOld(messages + [m], oldIds) == NotOld(messages, oldIds) + if m.id in oldIds then [] else [m]
  {
    assert (messages + [m])[..|messages|] == messages;
  }

  lemma TrackedIsRecognised(st: State, w: World, k: nat, m: nat, j: nat)
    requires TrackedAt(st, w, k, m, 0, 0) && j < |w.channel|
    ensures Recognised(st.cards, w.channel[j])
    ensures j < |st.oldMessages| ==> w.channel[j].id in OldIds(st.oldMessages)
    ensures j >= |st.oldMessages| ==> w.channel[j].id !in OldIds(st.oldMessages)
                                      && w.channel[j].marker == Some(st.cards[j - |st.oldMessages|].key)
  {
    var n := |st.oldMessages|;
    if j < n {
      OldAt(st, w, k, m, 0, 0, j);
      assert OldIds(st.oldMessages)[j] == w.channel[j].id;
    } else {
      assert IsCard(w.channel[n..][j - n], st.cards[..m][j - n]);
      assert w.channel[n..][j - n] == w.channel[j];
    }
  }

  /** The part of the channel after the first `n` messages shows the cards in order, one message each. */
  ghost predicate ShowsInOrder(cards: seq<Card>, channel: seq<Message>, n: nat, oldIds: seq<Id>) {
    && DistinctKeys(cards) && |channel| <= n + |cards|
    && (forall j :: 0 <= j < |channel| ==> Recognised(cards, channel[j]) && (channel[j].id in oldIds <==> j < n))
    && (forall j :: n <= j < |channel| ==> channel[j].marker == Some(cards[j - n].key))
  }

  lemma {:induction false} ShownIn(cards: seq<Card>, channel: seq<Message>, n: nat, oldIds: seq<Id>, i: nat)
    requires ShowsInOrder(cards, channel, n, oldIds) && i < |cards|
    ensures NotOld(OfCard(cards, channel, cards[i].key), oldIds) == if n + i < |channel| then [channel[n + i]] else []
  {
    if channel != [] {
      var j, key := |channel| - 1, cards[i].key;
      var last, rest := channel[j], OfCard(cards, channel[..j], key);
      ShownIn(cards, channel[..j], n, oldIds, i);
      NotOldAppend(rest, last, oldIds);
      assert Recognised(cards, last);
      assert n <= j && j != n + i ==> cards[j - n].key != key;
      assert OfCard(cards, channel, key) == if last.marker == Some(key) then rest + [last] else rest;
    }
  }

  lemma ShownIs(st: State, w: World, k: nat, m: nat, i: nat)
    requires TrackedAt(st, w, k, m, 0, 0) && i < |st.cards|
    ensures NotOld(OfCard(st.cards, w.channel, st.cards[i].key), OldIds(st.oldMessages))
            == if i < m then [w.channel[|st.oldMessages| + i]] else []
  {
    hide TrackedAt, OfCard, NotOld, Recognised;
    Bounds(st, w, k, m, 0, 0);
    forall j | 0 <= j < |w.channel|
      ensures Recognised(st.cards, w.channel[j])
      ensures w.channel[j].id in OldIds(st.oldMessages) <==> j < |st.oldMessages|
      ensures j >= |st.oldMessages| ==> w.channel[j].marker == Some(st.cards[j - |st.oldMessages|].key)
    {
      TrackedIsRecognised(st, w, k, m, j);
    }
    ShownIn(st.cards, w.channel, |st.oldMessages|, OldIds(st.oldMessages), i);
  }

  lemma PlannedOlds(w: World, cards: seq<Card>)
    requires Ascending(w.channel, w.nextRank) && AllRecognised(cards, w.channel)
    ensures var olds := SortBy(AsOldRecognised(cards, w.channel), OldLe);
            OldsOk(olds, cards) && OldsAre(w.channel, olds) && Older(olds, [], w.nextRank)
  {
    var olds := AsOldRecognised(cards, w.channel);
    assert forall i :: 0 <= i < |w.channel| ==> Recognised(cards, w.channel[i]);
    SortedStays(olds, OldLe);
  }

  /** The state a fresh replacement starts from tracks the planned channel. */
  lemma StartTracked(w: World, adapter: Adapter)
    requires Safe(w) && w.file == None && DistinctKeys(adapter.cards) && PlanOk(adapter.cards, w.channel)
    ensures var st := StartState(adapter, w.channel);
            TrackedAt(st, w, 0, 0, 0, 0) && Safe(Saved(w, st))
  {
    var st := StartState(adapter, w.channel);
    PlannedOlds(w, adapter.cards);
    assert st.oldMessages[0..] == st.oldMessages && w.channel[..|st.oldMessages|] == w.channel;
    assert w.channel[|st.oldMessages|..] == [];
    assert OldIds(st.oldMessages[..0]) == [] && Keys(st.cards[..0]) == [];
    assert TrackedAt(st, w, 0, 0, 0, 0);
    assert TrackedAt(st, Saved(w, st), 0, 0, 0, 0);
  }

  function StartState(adapter: Adapter, messages: seq<Message>): State
    requires AllRecognised(adapter.cards, messages)
  {
    State(adapter.target, adapter.cards, Creating, SortBy(AsOldRecognised(adapter.cards, messages), OldLe),
          map[], None, [], None)
  }

  /** Publishing can do its work: the cards are valid, and the saved or planned replacement is this one. */
  ghost predicate CanPublish(w: World, adapter: Adapter) {
    && !adapter.CardErrors()
    && match w.file
       case Some(st) => st.target == adapter.target && st.cards == adapter.cards
       case None => PlanOk(adapter.cards, w.channel)
  }

  /** The replacement saved in the file is this adapter's, and everything was created and verified. */
  ghost predicate Published(w: World, adapter: Adapter) {
    w.file.Some? && w.file.value.target == adapter.target && w.file.value.cards == adapter.cards
    && w.file.value.phase != Creating
  }

  method PublishGuideReplacement(w: World, adapter: Adapter, reliable: bool) returns (w': World, ok: bool)
    ensures w.channel <= w'.channel && w'.deleted == w.deleted
    ensures Safe(w) ==> Safe(w')
    ensures ok ==> Published(w', adapter)
    ensures ok && (w.file.None? || w.file.value.phase == Creating) ==> FreshlyVerified(w', adapter)
    ensures !CanPublish(w, adapter) ==> w' == w && !ok
    ensures w.file.Some? && w.file.value.phase != Creating ==> w' == w
    ensures !AllRecognised(adapter.cards, w.channel) && !Published(w, adapter) ==> w'.channel == w.channel && !ok
    ensures reliable && Safe(w) && CanPublish(w, adapter) ==> ok && Published(w', adapter)
  {
    hide TrackedAt;
    if adapter.CardErrors() {
      return w, false;
    }
    var f := NextFault(reliable);
    if f != Works {
      return w, false;
    }
    var messages := w.channel;
    var st;
    if w.file.Some? {
      st := w.file.value;
      if st.target != adapter.target || st.cards != adapter.cards {
        return w, false;
      }
      if st.phase != Creating {
        return w, true;
      }
      w' := w;
    } else {
      var errors, oldMessages := PlanGuideReplacement(adapter.cards, messages);
      if errors > 0 {
        return w, false;
      }
      f := NextFault(reliable);  // the snapshot of the old messages
      if f != Works {
        return w, false;
      }
      st := StartState(adapter, messages);
      if Safe(w) {
        StartTracked(w, adapter);
      }
      var reply;
      w', reply := SaveState(w, st, reliable);
      if reply != Answered {
        return w', false;
      }
    }
    w', ok := CreateAndVerify(w', st, messages, adapter, reliable);
  }

  /** Creates the missing cards in order and verifies them. */
  method CreateAndVerify(w: World, st: State, messages: seq<Message>, adapter: Adapter, reliable: bool)
    returns (w': World, ok: bool)
    requires messages == w.channel && st.target == adapter.target && st.cards == adapter.cards
    ensures w.channel <= w'.channel && w'.deleted == w.deleted
    ensures ok ==> FreshlyVerified(w', adapter)
    ensures !AllRecognised(adapter.cards, w.channel) ==> w'.channel == w.channel && !ok
    ensures Safe(w) && w.file == Some(st) && st.phase == Creating ==> Safe(w') && (reliable ==> ok && Published(w', adapter))
  {
    hide TrackedAt;
    ghost var expected := Safe(w) && w.file == Some(st) && st.phase == Creating;
    ghost var k: nat, m: nat := 0, 0;
    if expected {
      k, m := CreatingCounts(st, w);
    }
    var byKey, problems := ClassifyChannel(adapter.cards, messages);
    if problems > 0 {
      w' := RecordStop(w, st, Failed, reliable);
      return w', false;
    }
    var st';
    var stopped;
    w', st', stopped := PlaceCards(w, st, byKey, adapter.cards, reliable, k, m);
    if stopped {
      return w', false;
    }
    w', ok := VerifyAndMark(w', st', adapter, reliable);
  }

  lemma CreatingCounts(st: State, w: World) returns (k: nat, m: nat)
    requires Tracked(st, w) && st.phase == Creating
    ensures TrackedAt(st, w, k, m, 0, 0)
    ensures AllRecognised(st.cards, w.channel)
  {
    var d, e;
    k, m, d, e :| TrackedAt(st, w, k, m, d, e);
    forall j | 0 <= j < |w.channel| ensures Recognised(st.cards, w.channel[j]) {
      TrackedIsRecognised(st, w, k, m, j);
    }
  }

  lemma TrackedLength(st: State, w: World, k: nat, m: nat)
    requires TrackedAt(st, w, k, m, 0, 0)
    ensures |w.channel| == |st.oldMessages| + m
  {
    Bounds(st, w, k, m, 0, 0);
  }

  /** What the first listing shows of card `i` is still accurate when its turn comes. */
  lemma FirstListing(w: World, st: State, w': World, st': State, k: nat, m: nat, i: nat, shown: seq<Message>)
    requires TrackedAt(st, w, k, m, 0, 0) && i < |st.cards|
    requires |w'.channel| == |st.oldMessages| + Max(m, i) && w.channel <= w'.channel && st'.oldMessages == st.oldMessages
    requires shown == NotOld(OfCard(st.cards, w.channel, st.cards[i].key), OldIds(st.oldMessages))
    ensures FreshIs(w', st', Max(m, i), i, shown)
  {
    hide TrackedAt, NotOld, OfCard;
    ShownIs(st, w, k, m, i);
    TrackedLength(st, w, k, m);
    if i < m {
      assert w'.channel[|st.oldMessages| + i] == w.channel[|st.oldMessages| + i];
    }
  }

  method PlaceCards(w: World, st: State, byKey: map<Id, seq<Message>>, cards: seq<Card>, reliable: bool,
                    ghost k: nat, ghost m: nat)
    returns (w': World, st': State, stopped: bool)
    requires forall key :: Bucket(byKey, key) == OfCard(cards, w.channel, key)
    ensures w.channel <= w'.channel && w'.deleted == w.deleted && st'.target == st.target && st'.cards == st.cards
    ensures Placing(w, st, cards, k, m) ==>
              && (stopped ==> Safe(w'))
              && (!stopped ==> Placing(w', st', cards, |cards|, |cards|))
              && (reliable ==> !stopped)
  {
    hide TrackedAt, FreshIs, NotOld, OfCard, Safe;
    ghost var expected := Placing(w, st, cards, k, m);
    w', st' := w, st;
    for i := 0 to |cards|
      invariant w.channel <= w'.channel && w'.deleted == w.deleted
      invariant st'.oldMessages == st.oldMessages && st'.target == st.target && st'.cards == st.cards
      invariant expected ==> Placing(w', st', cards, Max(k, i), Max(m, i))
    {
      var shown := NotOld(Bucket(byKey, cards[i].key), OldIds(st.oldMessages));
      if expected {
        TrackedLength(st', w', Max(k, i), Max(m, i));
        FirstListing(w, st, w', st', k, m, i, shown);
      }
      w', st', stopped := PlaceCard(w', st', cards, i, shown, reliable, Max(k, i), Max(m, i));
      if stopped {
        return w', st', true;
      }
    }
    stopped := false;
    if expected {
      Bounds(st, w, k, m, 0, 0);
    }
  }

  /** Verification looks at the saved ids, not at the phase. */
  lemma VerifyIgnoresPhase(cards: seq<Card>, st: State, phase: Phase, messages: seq<Message>)
    ensures VerifyOk(cards, st.(phase := phase), messages) == VerifyOk(cards, st, messages)
  {
    FoundIgnoresPhase(cards, st, phase, messages);
    assert forall i :: 0 <= i < |cards| ==>
                         CardIntact(st.(phase := phase), messages, cards[i]) == CardIntact(st, messages, cards[i]);
  }

  lemma {:induction false} FoundIgnoresPhase(cards: seq<Card>, st: State, phase: Phase, messages: seq<Message>)
    ensures FoundRanks(st.(phase := phase), messages, cards) == FoundRanks(st, messages, cards)
  {
    if cards != [] {
      FoundIgnoresPhase(cards[..|cards| - 1], st, phase, messages);
    }
  }

  /** What success of a publication means: the complete new guide was found in the channel. */
  ghost predicate FreshlyVerified(w: World, adapter: Adapter) {
    Published(w, adapter) && w.file.value.phase == Verified && VerifyOk(adapter.cards, w.file.value, w.channel)
  }

  method VerifyAndMark(w: World, st: State, adapter: Adapter, reliable: bool) returns (w': World, ok: bool)
    requires st.target == adapter.target && st.cards == adapter.cards
    ensures w'.channel == w.channel && w'.deleted == w.deleted
    ensures ok ==> FreshlyVerified(w', adapter)
    ensures st.target == adapter.target && Placing(w, st, adapter.cards, |adapter.cards|, |adapter.cards|) ==>
              Safe(w') && (reliable ==> ok && Published(w', adapter))
  {
    hide TrackedAt;
    ghost var c := |adapter.cards|;
    ghost var expected := Placing(w, st, adapter.cards, c, c);
    if expected {
      TrackedVerifies(st, w, 0, 0);
    }
    var f := NextFault(reliable);
    if f != Works {
      w' := RecordStop(w, st, Failed, reliable);
      return w', false;
    }
    var errors := VerifyGuideReplacement(adapter.cards, st, w.channel, reliable);
    if errors > 0 {
      w' := RecordStop(w, st, Failed, reliable);
      return w', false;
    }
    var st' := st.(phase := Verified);
    VerifyIgnoresPhase(adapter.cards, st, Verified, w.channel);
    if expected {
      MarkVerified(st, w);
    }
    var reply;
    w', reply := SaveState(w, st', reliable);
    ok := reply == Answered;
    if !ok {
      w' := RecordStop(w', st', reply, reliable);
    }
    if expected {
      EitherSafe(w, st, st', w', c, c, 0, 0, c, c, 0, 0);
    }
  }

  // ---------------------------------------------------------------------
  // Retire
  // ---------------------------------------------------------------------

  /** Messages disappear only when their id is a saved old id and not a saved new one; none appear. */
  ghost predicate OnlyOldRemoved(before: seq<Message>, after: seq<Message>, olds: seq<OldMessage>, newIds: set<Id>) {
    && (forall m :: m in after ==> m in before)
    && (forall m :: m in before && m !in after ==> m.id in OldIds(olds) && m.id !in newIds)
  }

  lemma {:induction false} WithoutIdMembers(messages: seq<Message>, id: Id)
    ensures forall m :: m in WithoutId(messages, id) <==> m in messages && m.id != id
  {
    if messages != [] {
      WithoutIdMembers(messages[1..], id);
      assert messages == [messages[0]] + messages[1..];
    }
  }

  /** Between two deletions of a retire run. */
  ghost predicate Retiring(w: World, st: State, cards: seq<Card>, d: nat, e: nat) {
    && w.file == Some(st) && st.phase == Deleting && st.cards == cards
    && TrackedAt(st, w, |st.cards|, |st.cards|, d, e)
  }

  /** Deletes old message `i` unless that is done already. `stopped` means the run ends here. */
  method RetireOne(w: World, st: State, i: nat, present: bool, reliable: bool, ghost d: nat, ghost e: nat)
    returns (w': World, st': State, stopped: bool)
    requires i < |st.oldMessages|
    ensures OnlyOldRemoved(w.channel, w'.channel, st.oldMessages, st.newByCard.Values) && w'.created == w.created
    ensures st'.oldMessages == st.oldMessages && st'.newByCard == st.newByCard && st'.target == st.target && st'.cards == st.cards
    ensures st.deletedOldIds <= st'.deletedOldIds && (!stopped ==> st.oldMessages[i].id in st'.deletedOldIds)
    ensures Retiring(w, st, st.cards, d, e) && i <= d && (present <==> i >= e) ==>
              && (stopped ==> Safe(w'))
              && (!stopped ==> Retiring(w', st', st.cards, Max(d, i + 1), Max(e, i + 1)))
              && (reliable ==> !stopped)
  {
    hide TrackedAt;
    var id := st.oldMessages[i].id;
    ghost var c := |st.cards|;
    ghost var expected := Retiring(w, st, st.cards, d, e) && i <= d && (present <==> i >= e);
    if expected {
      RemainingIsTail(st, w, c, c, d, e);
      OldIsNotNew(st, w, d, e, i);
      Bounds(st, w, c, c, d, e);
    }
    w', st' := w, st;
    if id in st.deletedOldIds {
      return w', st', false;
    }
    if id in st.newByCard.Values {
      w' := RecordStop(w, st, Failed, reliable);
      return w', st', true;
    }
    if present {
      w', st', stopped := DeleteOld(w, st, i, reliable, d);
      if stopped {
        return w', st', true;
      }
    }
    if expected {
      assert Retiring(w', st', st.cards, d, d + 1);
    }
    w', st', stopped := RecordDeletion(w', st', i, reliable, d);
  }

  /** The deletion of old message `i` is saved. */
  method RecordDeletion(w: World, st: State, i: nat, reliable: bool, ghost d: nat)
    returns (w': World, st': State, stopped: bool)
    requires i < |st.oldMessages|
    ensures w'.channel == w.channel && w'.created == w.created
    ensures st'.oldMessages == st.oldMessages && st'.newByCard == st.newByCard && st'.target == st.target && st'.cards == st.cards
    ensures st.deletedOldIds <= st'.deletedOldIds && st.oldMessages[i].id in st'.deletedOldIds
    ensures Retiring(w, st, st.cards, d, d + 1) && i == d ==>
              && (stopped ==> Safe(w'))
              && (!stopped ==> Retiring(w', st', st.cards, d + 1, d + 1))
              && (reliable ==> !stopped)
  {
    hide TrackedAt;
    ghost var c := |st.cards|;
    ghost var expected := Retiring(w, st, st.cards, d, d + 1) && i == d;
    st' := DeletionRecorded(st, st.oldMessages[i].id);
    if expected {
      OldRecorded(st, w, c, c, d);
    }
    var reply;
    w', reply := SaveState(w, st', reliable);
    stopped := reply != Answered;
    if stopped {
      w' := RecordStop(w', st', reply, reliable);
    }
    if expected {
      EitherSafe(w, st, st', w', c, c, d, d + 1, c, c, d + 1, d + 1);
    }
  }

  lemma OldIsNotNew(st: State, w: World, d: nat, e: nat, i: nat)
    requires TrackedAt(st, w, |st.cards|, |st.cards|, d, e) && i < |st.oldMessages|
    ensures st.oldMessages[i].id !in st.newByCard.Values
  {
    var n, c := |st.oldMessages|, |st.cards|;
    forall key | key in st.newByCard ensures st.newByCard[key] != st.oldMessages[i].id {
      IdsByKeyOnly(st.cards[..c], w.channel[n - e..][..c], key);
    }
  }

  /** Marks the deletion in the state file, then deletes. */
  method DeleteOld(w: World, st: State, i: nat, reliable: bool, ghost d: nat)
    returns (w': World, st': State, stopped: bool)
    requires i < |st.oldMessages| && st.oldMessages[i].id !in st.newByCard.Values
    ensures OnlyOldRemoved(w.channel, w'.channel, st.oldMessages, st.newByCard.Values) && w'.created == w.created
    ensures st' == st.(deletingOldId := Some(st.oldMessages[i].id))
    ensures Retiring(w, st, st.cards, d, d) && i == d ==>
              && (stopped ==> Safe(w'))
              && (!stopped ==> Retiring(w', st', st.cards, d, d + 1))
              && (reliable ==> !stopped)
  {
    var id := st.oldMessages[i].id;
    ghost var c := |st.cards|;
    ghost var expected := Retiring(w, st, st.cards, d, d) && i == d;
    var reply;
    st' := st.(deletingOldId := Some(id));
    if expected {
      DeletingSet(st, w, d, id);
    }
    w', reply := SaveState(w, st', reliable);
    if reply != Answered {
      w' := RecordStop(w', st', reply, reliable);
      if expected {
        EitherSafe(w, st, st', w', c, c, d, d, c, c, d, d);
      }
      return w', st', true;
    }
    w', stopped := DeleteMarked(w', st', i, reliable, d);
  }

  lemma RemovedIsOld(w: World, st: State, i: nat)
    requires i < |st.oldMessages| && st.oldMessages[i].id !in st.newByCard.Values
    ensures OnlyOldRemoved(w.channel, Removed(w, st.oldMessages[i].id).channel, st.oldMessages, st.newByCard.Values)
  {
    WithoutIdMembers(w.channel, st.oldMessages[i].id);
    assert OldIds(st.oldMessages)[i] == st.oldMessages[i].id;
  }

  /** The delete call of an old message that the state file already names. */
  method DeleteMarked(w: World, st: State, i: nat, reliable: bool, ghost d: nat) returns (w': World, stopped: bool)
    requires i < |st.oldMessages| && st.oldMessages[i].id !in st.newByCard.Values
    ensures OnlyOldRemoved(w.channel, w'.channel, st.oldMessages, st.newByCard.Values) && w'.created == w.created
    ensures Retiring(w, st, st.cards, d, d) && i == d && st.deletingOldId == Some(st.oldMessages[i].id) ==>
              && (stopped ==> Safe(w'))
              && (!stopped ==> Retiring(w', st, st.cards, d, d + 1))
              && (reliable ==> !stopped)
  {
    var id := st.oldMessages[i].id;
    ghost var c := |st.cards|;
    if Retiring(w, st, st.cards, d, d) && i == d && st.deletingOldId == Some(id) {
      OldRemoved(st, w, c, c, d);
      assert Safe(Removed(w, id)) by { assert TrackedAt(st, Removed(w, id), c, c, d, d + 1); }
      assert TrackedAt(st, Saved(Removed(w, id), st), c, c, d, d + 1);
      assert Safe(w);
    }
    RemovedIsOld(w, st, i);
    var reply;
    w', reply := DeleteMessage(w, id, reliable);
    stopped := reply != Answered;
    if stopped {
      w' := RecordStop(w', st, reply, reliable);
    }
  }

  /** The saved replacement this run may retire. */
  ghost predicate Retirable(w: World, st: State, adapter: Adapter) {
    w.file == Some(st) && st.target == adapter.target && st.cards == adapter.cards
    && (st.phase == Verified || st.phase == Deleting)
  }

  /**
   * Verifies once more, then deletes the saved old messages one by one. Without
   * any assumption about the channel: nothing is created, nothing but saved old
   * messages disappears, and only after the complete new guide verified.
   */
  method RetireOldGuideMessages(w: World, adapter: Adapter, reliable: bool) returns (w': World, ok: bool)
    ensures w'.created == w.created
    ensures w'.channel != w.channel ==>
              w.file.Some? && VerifyOk(adapter.cards, w.file.value, w.channel)
              && OnlyOldRemoved(w.channel, w'.channel, w.file.value.oldMessages, w.file.value.newByCard.Values)
    ensures Safe(w) ==> Safe(w')
    ensures ok ==> Published(w', adapter) && w'.file.value.phase == Done
    ensures ok ==> w.file.Some? && (w.file.value.phase != Done ==> Finished(w', adapter))
    ensures w.file.None? || !Published(w, adapter) || w.file.value.phase == Done ==> w' == w
    ensures reliable && Safe(w) && Published(w, adapter) ==>
              ok && Published(w', adapter) && w'.file.value.phase == Done
  {
    hide TrackedAt;
    if w.file.None? {
      return w, false;
    }
    var st := w.file.value;
    if st.target != adapter.target || st.cards != adapter.cards {
      return w, false;
    }
    if st.phase == Done {
      return w, true;
    }
    if st.phase == Creating {
      return w, false;
    }
    w', ok := VerifyAndDelete(w, st, adapter, reliable);
  }

  lemma RetirableCounts(st: State, w: World, adapter: Adapter) returns (d: nat, e: nat)
    requires Safe(w) && Retirable(w, st, adapter)
    ensures TrackedAt(st, w, |st.cards|, |st.cards|, d, e) && VerifyOk(st.cards, st, w.channel)
    ensures TrackedAt(st.(phase := Deleting), w, |st.cards|, |st.cards|, d, e)
  {
    var k, m;
    k, m, d, e :| TrackedAt(st, w, k, m, d, e);
    AllCreated(st, w, k, m, d, e);
    hide TrackedAt;
    TrackedVerifies(st, w, d, e);
    MarkDeleting(st, w, d, e);
  }

  lemma AllCreated(st: State, w: World, k: nat, m: nat, d: nat, e: nat)
    requires TrackedAt(st, w, k, m, d, e) && st.phase != Creating
    ensures k == m == |st.cards|
  {
  }

  method VerifyAndDelete(w: World, st: State, adapter: Adapter, reliable: bool) returns (w': World, ok: bool)
    requires Retirable(w, st, adapter)
    ensures w'.created == w.created
    ensures w'.channel != w.channel ==> VerifyOk(adapter.cards, st, w.channel)
    ensures OnlyOldRemoved(w.channel, w'.channel, st.oldMessages, st.newByCard.Values)
    ensures Safe(w) ==> Safe(w')
    ensures ok ==> Finished(w', adapter)
    ensures reliable && Safe(w) ==> ok && Published(w', adapter) && w'.file.value.phase == Done
  {
    hide TrackedAt;
    ghost var expected := Safe(w);
    ghost var c := |st.cards|;
    ghost var d: nat, e: nat := 0, 0;
    if expected {
      d, e := RetirableCounts(st, w, adapter);
    }
    var f := NextFault(reliable);
    if f != Works {
      return w, false;
    }
    var errors := VerifyGuideReplacement(adapter.cards, st, w.channel, reliable);
    if errors > 0 {
      w' := RecordStop(w, st, Failed, reliable);
      return w', false;
    }
    var st' := st.(phase := Deleting);
    var reply;
    w', reply := SaveState(w, st', reliable);
    if reply != Answered {
      if expected {
        EitherSafe(w, st, st', w', c, c, d, e, c, c, d, e);
      }
      return w', false;
    }
    if expected {
      FileIrrelevant(st', w, st', c, c, d, e);
    }
    w', ok := DeleteAll(w', st', w.channel, adapter, reliable, d, e);
  }

  lemma OnlyOldRemovedTrans(a: seq<Message>, b: seq<Message>, c: seq<Message>, olds: seq<OldMessage>, newIds: set<Id>)
    requires OnlyOldRemoved(a, b, olds, newIds) && OnlyOldRemoved(b, c, olds, newIds)
    ensures OnlyOldRemoved(a, c, olds, newIds)
  {
  }

  /** Old message `i` shows in the first listing exactly when it is not among the `e` deleted ones. */
  lemma PresentIs(st: State, w: World, d: nat, e: nat, i: nat)
    requires TrackedAt(st, w, |st.cards|, |st.cards|, d, e) && i < |st.oldMessages|
    ensures HasMessage(w.channel, st.oldMessages[i].id) <==> i >= e
  {
    OldAt(st, w, |st.cards|, |st.cards|, d, e, i);
  }

  /** Every saved old message is recorded as deleted. */
  ghost predicate AllDeleted(st: State) {
    forall j :: 0 <= j < |st.oldMessages| ==> st.oldMessages[j].id in st.deletedOldIds
  }

  /** What success of a retirement means: verified once more with nothing of the old guide left. */
  ghost predicate Finished(w: World, adapter: Adapter) {
    && Published(w, adapter) && w.file.value.phase == Done
    && AllDeleted(w.file.value) && VerifyOk(adapter.cards, w.file.value, w.channel)
  }

  method DeleteAll(w: World, st: State, before: seq<Message>, adapter: Adapter, reliable: bool, ghost d: nat, ghost e: nat)
    returns (w': World, ok: bool)
    requires before == w.channel && st.target == adapter.target && st.cards == adapter.cards
    ensures w'.created == w.created
    ensures ok ==> Finished(w', adapter)
    ensures OnlyOldRemoved(w.channel, w'.channel, st.oldMessages, st.newByCard.Values)
    ensures Retiring(w, st, adapter.cards, d, e) ==>
              Safe(w') && (reliable ==> ok && Published(w', adapter) && w'.file.value.phase == Done)
  {
    hide TrackedAt;
    var st';
    var stopped;
    w', st', stopped := DeleteEach(w, st, before, adapter.cards, reliable, d, e);
    if stopped {
      return w', false;
    }
    w', ok := VerifyAndFinish(w', st', adapter, reliable);
  }

  method DeleteEach(w: World, st: State, before: seq<Message>, cards: seq<Card>, reliable: bool, ghost d: nat, ghost e: nat)
    returns (w': World, st': State, stopped: bool)
    requires before == w.channel
    ensures w'.created == w.created && st'.target == st.target && st'.cards == st.cards
    ensures !stopped ==> AllDeleted(st')
    ensures OnlyOldRemoved(w.channel, w'.channel, st.oldMessages, st.newByCard.Values)
    ensures Retiring(w, st, cards, d, e) ==>
              && (stopped ==> Safe(w'))
              && (!stopped ==> Retiring(w', st', cards, |st'.oldMessages|, |st'.oldMessages|))
              && (reliable ==> !stopped)
  {
    hide TrackedAt;
    ghost var expected := Retiring(w, st, cards, d, e);
    w', st' := w, st;
    for i := 0 to |st.oldMessages|
      invariant w'.created == w.created
      invariant OnlyOldRemoved(w.channel, w'.channel, st.oldMessages, st.newByCard.Values)
      invariant st'.oldMessages == st.oldMessages && st'.newByCard == st.newByCard && st'.target == st.target && st'.cards == st.cards
      invariant forall j :: 0 <= j < i ==> st.oldMessages[j].id in st'.deletedOldIds
      invariant expected ==> Retiring(w', st', cards, Max(d, i), Max(e, i))
    {
      var present := HasMessage(before, st.oldMessages[i].id);
      if expected {
        PresentIs(st, w, d, e, i);
      }
      ghost var earlier := w'.channel;
      w', st', stopped := RetireOne(w', st', i, present, reliable, Max(d, i), Max(e, i));
      OnlyOldRemovedTrans(w.channel, earlier, w'.channel, st.oldMessages, st.newByCard.Values);
      if stopped {
        return w', st', true;
      }
    }
    stopped := false;
    if expected {
      RetiringBounds(w, st, cards, d, e);
    }
  }

  lemma RetiringBounds(w: World, st: State, cards: seq<Card>, d: nat, e: nat)
    requires Retiring(w, st, cards, d, e)
    ensures Max(d, |st.oldMessages|) == Max(e, |st.oldMessages|) == |st.oldMessages|
  {
  }

  method VerifyAndFinish(w: World, st: State, adapter: Adapter, reliable: bool) returns (w': World, ok: bool)
    requires st.target == adapter.target && st.cards == adapter.cards && AllDeleted(st)
    ensures w'.created == w.created && w'.channel == w.channel
    ensures ok ==> Finished(w', adapter)
    ensures Retiring(w, st, adapter.cards, |st.oldMessages|, |st.oldMessages|) ==>
              Safe(w') && (reliable ==> ok && Published(w', adapter) && w'.file.value.phase == Done)
  {
    hide TrackedAt;
    ghost var c, n := |st.cards|, |st.oldMessages|;
    ghost var expected := Retiring(w, st, adapter.cards, n, n);
    if expected {
      TrackedVerifies(st, w, n, n);
    }
    var f := NextFault(reliable);
    if f != Works {
      w' := RecordStop(w, st, Failed, reliable);
      return w', false;
    }
    var errors := VerifyGuideReplacement(adapter.cards, st, w.channel, reliable);
    if errors > 0 {
      w' := RecordStop(w, st, Failed, reliable);
      return w', false;
    }
    var st' := st.(phase := Done);
    VerifyIgnoresPhase(adapter.cards, st, Done, w.channel);
    if expected {
      MarkDone(st, w);
    }
    var reply;
    w', reply := SaveState(w, st', reliable);
    ok := reply == Answered;
    if !ok {
      w' := RecordStop(w', st', reply, reliable);
    }
    if expected {
      EitherSafe(w, st, st', w', c, c, n, n, c, c, n, n);
    }
  }

  // ---------------------------------------------------------------------
  // All runs
  // ---------------------------------------------------------------------

  datatype Run = PublishRun(adapter: Adapter) | RetireRun(adapter: Adapter)

  /** Any sequence of runs, each failing or crashing anywhere, keeps the world safe. */
  method AnyHistory(w: World, runs: seq<Run>) returns (w': World)
    requires Safe(w)
    ensures Safe(w')
  {
    w' := w;
    for i := 0 to |runs|
      invariant Safe(w')
    {
      var ok;
      match runs[i]
      case PublishRun(adapter) => w', ok := PublishGuideReplacement(w', adapter, false);
      case RetireRun(adapter) => w', ok := RetireOldGuideMessages(w', adapter, false);
    }
  }

  /** From every safe world, one undisturbed publish and one undisturbed retire finish the replacement. */
  method Resume(w: World, adapter: Adapter) returns (w': World)
    requires Safe(w) && CanPublish(w, adapter)
    ensures Safe(w') && CardsAre(w'.channel, adapter.cards)
    ensures w'.file.Some? && w'.file.value.phase == Done
  {
    var ok;
    w', ok := PublishGuideReplacement(w, adapter, true);
    w', ok := RetireOldGuideMessages(w', adapter, true);
    DoneMeansComplete(w');
  }

  lemma DoneMeansComplete(w: World)
    requires Safe(w) && w.file.Some? && w.file.value.phase == Done
    ensures CardsAre(w.channel, w.file.value.cards)
  {
    var st := w.file.value;
    var k: nat, m: nat, d: nat, e: nat :| TrackedAt(st, w, k, m, d, e);
    assert w.channel[|st.oldMessages| - e..] == w.channel && st.cards[..m] == st.cards;
  }

  /** No card is ever created twice. */
  lemma OneNewMessagePerCard(w: World)
    requires Safe(w)
    ensures Distinct(w.created)
    ensures w.file.Some? ==> forall key :: key in w.created ==> KnownKey(w.file.value.cards, key)
  {
    if w.file.Some? {
      var st := w.file.value;
      var k: nat, m: nat, d: nat, e: nat :| TrackedAt(st, w, k, m, d, e);
      forall i, j | 0 <= i < j < |w.created| ensures w.created[i] != w.created[j] {
        assert st.cards[i].key != st.cards[j].key;
      }
      forall key | key in w.created ensures KnownKey(st.cards, key) {
        var i :| 0 <= i < |w.created| && w.created[i] == key;
        assert st.cards[i].key == key;
      }
    }
  }

  /** Only saved old ids are deleted, never a new one. */
  lemma OnlyOldIdsDeleted(w: World)
    requires Safe(w) && w.file.Some?
    ensures forall id :: id in w.deleted ==> id in OldIds(w.file.value.oldMessages) && id !in w.file.value.newByCard.Values
  {
    var st := w.file.value;
    var k: nat, m: nat, d: nat, e: nat :| TrackedAt(st, w, k, m, d, e);
    forall id | id in w.deleted ensures id in OldIds(st.oldMessages) && id !in st.newByCard.Values {
      var i :| 0 <= i < |w.deleted| && w.deleted[i] == id;
      assert OldIds(st.oldMessages)[i] == id;
      OldIsNotNew(st, w, d, e, i);
    }
  }

  /** Readers always find a whole guide: every saved old message, or the complete new one. */
  lemma AlwaysAWholeGuide(w: World)
    requires Safe(w) && w.file.Some?
    ensures var st := w.file.value;
            || (forall i :: 0 <= i < |st.oldMessages| ==> HasMessage(w.channel, st.oldMessages[i].id))
            || (|st.cards| <= |w.channel| && CardsAre(w.channel[|w.channel| - |st.cards|..], st.cards))
  {
    var st := w.file.value;
    var k: nat, m: nat, d: nat, e: nat :| TrackedAt(st, w, k, m, d, e);
    if e == 0 {
      forall i | 0 <= i < |st.oldMessages| ensures HasMessage(w.channel, st.oldMessages[i].id) {
        OldAt(st, w, k, m, d, e, i);
      }
    } else {
      assert st.cards[..m] == st.cards;
      assert |w.channel| - |st.cards| == |st.oldMessages| - e;
    }
  }
}
