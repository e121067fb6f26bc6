/**
 * Classification, planning and verification of the guide channel
 * (`classifyChannel`, `planGuideReplacement`, `verifyGuideReplacement`).
 */
module GuideVerify {
  import opened Prelude
  import opened Sorting
  import opened GuideModel

  // ---------------------------------------------------------------------
  // Classification and plan
  // ---------------------------------------------------------------------

  predicate Recognised(cards: seq<Card>, m: Message) {
    m.ours && m.marker.Some? && KnownKey(cards, m.marker.value)
  }

  predicate AllRecognised(cards: seq<Card>, messages: seq<Message>) {
    forall i :: 0 <= i < |messages| ==> Recognised(cards, messages[i])
  }

  /** The recognised messages of one card. */
  function OfCard(cards: seq<Card>, messages: seq<Message>, key: Id): seq<Message> {
    if messages == [] then []
    else
      var n := |messages| - 1;
      OfCard(cards, messages[..n], key)
      + if Recognised(cards, messages[n]) && messages[n].marker == Some(key) then [messages[n]] else []
  }

  function Bucket(byKey: map<Id, seq<Message>>, key: Id): seq<Message> {
    if key in byKey then byKey[key] else []
  }

  method ClassifyChannel(cards: seq<Card>, messages: seq<Message>)
    returns (byKey: map<Id, seq<Message>>, problems: nat)
    ensures problems == 0 <==> AllRecognised(cards, messages)
    ensures forall key :: Bucket(byKey, key) == OfCard(cards, messages, key)
  {
    hide KnownKey;
    byKey, problems := map[], 0;
    for i := 0 to |messages|
      invariant problems == 0 <==> AllRecognised(cards, messages[..i])
      invariant forall key :: Bucket(byKey, key) == OfCard(cards, messages[..i], key)
    {
      var m := messages[i];
      assert messages[..i + 1][..i] == messages[..i];
      assert forall k :: 0 <= k < i ==> messages[..i][k] == messages[..i + 1][k];
      assert messages[..i + 1][i] == m;
      if !m.ours {
        problems := problems + 1;
      } else if m.marker.None? {
        problems := problems + 1;
      } else if !KnownKey(cards, m.marker.value) {
        problems := problems + 1;
      } else {
        byKey := byKey[m.marker.value := Bucket(byKey, m.marker.value) + [m]];
      }
    }
    assert messages[..|messages|] == messages;
  }

  predicate OldLe(a: OldMessage, b: OldMessage) {
    a.id.rank <= b.id.rank
  }

  /** Every recognised message as a saved old message. */
  function AsOld(messages: seq<Message>): (olds: seq<OldMessage>)
    requires forall i :: 0 <= i < |messages| ==> messages[i].marker.Some?
    ensures |olds| == |messages|
    ensures forall i :: 0 <= i < |messages| ==> olds[i] == OldMessage(messages[i].id, messages[i].marker.value)
  {
    seq(|messages|, i requires 0 <= i < |messages| => OldMessage(messages[i].id, messages[i].marker.value))
  }

  ghost predicate PlanOk(cards: seq<Card>, messages: seq<Message>) {
    && AllRecognised(cards, messages)
    && forall i, j :: 0 <= i < j < |messages| ==> messages[i].marker != messages[j].marker
  }

  /** Refuses unrecognised messages and cards shown twice; otherwise every message is an old one, oldest first. */
  method PlanGuideReplacement(cards: seq<Card>, messages: seq<Message>)
    returns (errors: nat, oldMessages: seq<OldMessage>)
    ensures errors == 0 <==> PlanOk(cards, messages)
    ensures errors == 0 ==> oldMessages == SortBy(AsOldRecognised(cards, messages), OldLe)
  {
    var byKey, problems := ClassifyChannel(cards, messages);
    errors := problems;
    oldMessages := [];
    if problems == 0 {
      errors := CountDuplicates(cards, byKey, messages);
      OneEach(cards, messages);
      oldMessages := SortBy(AsOldRecognised(cards, messages), OldLe);
    }
  }

  function AsOldRecognised(cards: seq<Card>, messages: seq<Message>): seq<OldMessage>
    requires AllRecognised(cards, messages)
  {
    assert forall i :: 0 <= i < |messages| ==> Recognised(cards, messages[i]);
    AsOld(messages)
  }

  method CountDuplicates(cards: seq<Card>, byKey: map<Id, seq<Message>>, messages: seq<Message>) returns (errors: nat)
    requires forall key :: Bucket(byKey, key) == OfCard(cards, messages, key)
    ensures errors == 0 <==> forall k :: 0 <= k < |cards| ==> |OfCard(cards, messages, cards[k].key)| <= 1
  {
    errors := 0;
    for i := 0 to |cards|
      invariant errors == 0 <==> forall k :: 0 <= k < i ==> |OfCard(cards, messages, cards[k].key)| <= 1
    {
      if |Bucket(byKey, cards[i].key)| > 1 {
        errors := errors + 1;
      }
    }
  }

  lemma {:induction false} OfCardCount(cards: seq<Card>, messages: seq<Message>, key: Id)
    requires AllRecognised(cards, messages)
    ensures |OfCard(cards, messages, key)| == 0 <==> forall i :: 0 <= i < |messages| ==> messages[i].marker != Some(key)
    ensures |OfCard(cards, messages, key)| <= 1 <==>
            forall i, j :: 0 <= i < j < |messages| ==> !(messages[i].marker == messages[j].marker == Some(key))
  {
    if messages != [] {
      var n := |messages| - 1;
      assert Recognised(cards, messages[n]);
      OfCardCount(cards, messages[..n], key);
    }
  }

  lemma OneEach(cards: seq<Card>, messages: seq<Message>)
    requires AllRecognised(cards, messages)
    ensures (forall k :: 0 <= k < |cards| ==> |OfCard(cards, messages, cards[k].key)| <= 1)
            <==> forall i, j :: 0 <= i < j < |messages| ==> messages[i].marker != messages[j].marker
  {
    forall k | 0 <= k < |cards|
      ensures |OfCard(cards, messages, cards[k].key)| <= 1 <==>
              forall i, j :: 0 <= i < j < |messages| ==> !(messages[i].marker == messages[j].marker == Some(cards[k].key))
    {
      OfCardCount(cards, messages, cards[k].key);
    }
    forall i, j | 0 <= i < j < |messages| && messages[i].marker == messages[j].marker
      ensures exists k :: 0 <= k < |cards| && |OfCard(cards, messages, cards[k].key)| > 1
    {
      assert Recognised(cards, messages[i]);
      var k :| 0 <= k < |cards| && cards[k].key == messages[i].marker.value;
      assert messages[i].marker == messages[j].marker == Some(cards[k].key);
    }
  }

  // ---------------------------------------------------------------------
  // Verification
  // ---------------------------------------------------------------------

  function ById(messages: seq<Message>, id: Id): (m: Option<Message>)
    ensures m.Some? ==> m.value in messages && m.value.id == id
    ensures m.Some? <==> HasMessage(messages, id)
  {
    if messages == [] then None
    else
      var n := |messages| - 1;
      if messages[n].id == id then Some(messages[n]) else ById(messages[..n], id)
  }

  function RemainingOld(olds: seq<OldMessage>, deletedIds: seq<Id>): (remaining: seq<OldMessage>)
    ensures forall o :: o in remaining <==> o in olds && o.id !in deletedIds
  {
    if olds == [] then []
    else if olds[0].id in deletedIds then RemainingOld(olds[1..], deletedIds)
    else [olds[0]] + RemainingOld(olds[1..], deletedIds)
  }

  predicate OldIntact(saved: OldMessage, messages: seq<Message>, deletingOldId: Option<Id>) {
    var found := ById(messages, saved.id);
    if found.None? then deletingOldId == Some(saved.id)
    else found.value.ours && found.value.marker == Some(saved.cardKey)
  }

  function NewMessage(st: State, messages: seq<Message>, card: Card): Option<Message> {
    if card.key in st.newByCard then ById(messages, st.newByCard[card.key]) else None
  }

  predicate CardIntact(st: State, messages: seq<Message>, card: Card) {
    var found := NewMessage(st, messages, card);
    found.Some? && IsCard(found.value, card)
  }

  /** Ranks of the new messages that were found, in card order. */
  function FoundRanks(st: State, messages: seq<Message>, cards: seq<Card>): seq<int> {
    if cards == [] then []
    else
      var n := |cards| - 1;
      var found := NewMessage(st, messages, cards[n]);
      FoundRanks(st, messages, cards[..n]) + if found.Some? then [found.value.id.rank] else []
  }

  predicate Expected(st: State, remaining: seq<OldMessage>, m: Message) {
    m.id in st.newByCard.Values || exists o :: o in remaining && o.id == m.id
  }

  predicate OldBelow(remaining: seq<OldMessage>, messages: seq<Message>, newOrder: seq<int>) {
    newOrder == [] || forall o :: o in remaining && HasMessage(messages, o.id) ==> o.id.rank < newOrder[0]
  }

  /** Only saved messages, old ones intact (one tolerated gap), every card correct, in order, below the old ones. */
  ghost predicate VerifyOk(cards: seq<Card>, st: State, messages: seq<Message>) {
    var remaining := RemainingOld(st.oldMessages, st.deletedOldIds);
    var newOrder := FoundRanks(st, messages, cards);
    && (forall i :: 0 <= i < |messages| ==> Expected(st, remaining, messages[i]))
    && (forall i :: 0 <= i < |remaining| ==> OldIntact(remaining[i], messages, st.deletingOldId))
    && (forall i :: 0 <= i < |cards| ==> CardIntact(st, messages, cards[i]))
    && (forall i :: 1 <= i < |newOrder| ==> newOrder[i - 1] < newOrder[i])
    && OldBelow(remaining, messages, newOrder)
  }

  /** Counts the verification errors. An image that cannot be read is one more error, unless `reliable`. */
  method VerifyGuideReplacement(cards: seq<Card>, st: State, messages: seq<Message>, reliable: bool)
    returns (errors: nat)
    ensures errors == 0 ==> VerifyOk(cards, st, messages)
    ensures reliable && VerifyOk(cards, st, messages) ==> errors == 0
  {
    var remaining := RemainingOld(st.oldMessages, st.deletedOldIds);
    errors := 0;
    for i := 0 to |messages|
      invariant errors == 0 <==> forall k :: 0 <= k < i ==> Expected(st, remaining, messages[k])
    {
      if !Expected(st, remaining, messages[i]) {
        errors := errors + 1;
      }
    }
    ghost var errors1 := errors;
    for i := 0 to |remaining|
      invariant errors == 0 <==> errors1 == 0 && forall k :: 0 <= k < i ==> OldIntact(remaining[k], messages, st.deletingOldId)
    {
      if !OldIntact(remaining[i], messages, st.deletingOldId) {
        errors := errors + 1;
      }
    }
    ghost var errors2 := errors;
    var newOrder: seq<int> := [];
    for i := 0 to |cards|
      invariant newOrder == FoundRanks(st, messages, cards[..i])
      invariant errors == 0 ==> errors2 == 0 && forall k :: 0 <= k < i ==> CardIntact(st, messages, cards[k])
      invariant reliable && errors2 == 0 && (forall k :: 0 <= k < i ==> CardIntact(st, messages, cards[k])) ==> errors == 0
    {
      var found := NewMessage(st, messages, cards[i]);
      assert cards[..i + 1][..i] == cards[..i];
      if found.None? {
        errors := errors + 1;
      } else {
        newOrder := newOrder + [found.value.id.rank];
        var readable: bool := *;
        if !IsCard(found.value, cards[i]) || (!readable && !reliable) {
          errors := errors + 1;
        }
      }
    }
    assert cards[..|cards|] == cards;
    ghost var errors3 := errors;
    var i := 1;
    while i < |newOrder|
      invariant 1 <= i
      invariant errors == 0 <==> errors3 == 0 && forall k :: 1 <= k < i && k < |newOrder| ==> newOrder[k - 1] < newOrder[k]
    {
      if newOrder[i] <= newOrder[i - 1] {
        errors := errors + 1;
      }
      i := i + 1;
    }
    if !OldBelow(remaining, messages, newOrder) {
      errors := errors + 1;
    }
  }

  // ---------------------------------------------------------------------
  // What verification means for the channel
  // ---------------------------------------------------------------------

  /** The channel shows message `id` as ours with this marker. */
  ghost predicate Shows(messages: seq<Message>, id: Id, marker: Id) {
    exists m :: m in messages && m.id == id && m.ours && m.marker == Some(marker)
  }

  /** The channel shows `card` as saved: ours, with its marker and its content. */
  ghost predicate ShowsCard(st: State, messages: seq<Message>, card: Card) {
    card.key in st.newByCard
    && exists m :: m in messages && m.id == st.newByCard[card.key] && m.ours && m.marker == Some(card.key) && m.body == card.body
  }

  /** Saved as old and not recorded as deleted. */
  ghost predicate StillOld(st: State, o: OldMessage) {
    o in st.oldMessages && o.id !in st.deletedOldIds
  }

  /** The saved channel, spelled out over the state file and the messages. */
  ghost predicate SavedChannel(cards: seq<Card>, st: State, messages: seq<Message>) {
    && (forall m :: m in messages ==> m.id in st.newByCard.Values || exists o :: StillOld(st, o) && o.id == m.id)
    && (forall o :: StillOld(st, o) ==>
          Shows(messages, o.id, o.cardKey) || (!HasMessage(messages, o.id) && st.deletingOldId == Some(o.id)))
    && (forall i :: 0 <= i < |cards| ==> ShowsCard(st, messages, cards[i]))
    && (forall i :: 1 <= i < |cards| ==> RankOf(st, cards[i - 1]) < RankOf(st, cards[i]))
    && (cards == [] || forall o :: StillOld(st, o) && HasMessage(messages, o.id) ==> o.id.rank < RankOf(st, cards[0]))
  }

  function RankOf(st: State, card: Card): int {
    if card.key in st.newByCard then st.newByCard[card.key].rank else 0
  }

  ghost predicate DistinctMessages(messages: seq<Message>) {
    forall a, b :: a in messages && b in messages && a.id == b.id ==> a == b
  }

  lemma FoundIs(messages: seq<Message>, m: Message)
    requires DistinctMessages(messages) && m in messages
    ensures ById(messages, m.id) == Some(m)
  {
    var i :| 0 <= i < |messages| && messages[i] == m;
    assert HasMessage(messages, m.id);
  }

  lemma OldIntactMeans(messages: seq<Message>, o: OldMessage, deletingOldId: Option<Id>)
    requires DistinctMessages(messages)
    ensures OldIntact(o, messages, deletingOldId) <==>
            Shows(messages, o.id, o.cardKey) || (!HasMessage(messages, o.id) && deletingOldId == Some(o.id))
  {
    if Shows(messages, o.id, o.cardKey) {
      var m :| m in messages && m.id == o.id && m.ours && m.marker == Some(o.cardKey);
      FoundIs(messages, m);
    }
  }

  lemma CardIntactMeans(st: State, messages: seq<Message>, card: Card)
    requires DistinctMessages(messages)
    ensures CardIntact(st, messages, card) <==> ShowsCard(st, messages, card)
  {
    if ShowsCard(st, messages, card) {
      var m :| m in messages && m.id == st.newByCard[card.key] && m.ours && m.marker == Some(card.key) && m.body == card.body;
      FoundIs(messages, m);
    }
  }

  lemma {:induction false} FoundRanksAll(st: State, messages: seq<Message>, cards: seq<Card>)
    requires forall i :: 0 <= i < |cards| ==> CardIntact(st, messages, cards[i])
    ensures |FoundRanks(st, messages, cards)| == |cards|
    ensures forall i :: 0 <= i < |cards| ==> FoundRanks(st, messages, cards)[i] == RankOf(st, cards[i])
  {
    if cards != [] {
      var n := |cards| - 1;
      FoundRanksAll(st, messages, cards[..n]);
      assert CardIntact(st, messages, cards[n]);
    }
  }

  lemma ExpectedMeans(st: State, m: Message)
    ensures Expected(st, RemainingOld(st.oldMessages, st.deletedOldIds), m) <==>
            m.id in st.newByCard.Values || exists o :: StillOld(st, o) && o.id == m.id
  {
    var remaining := RemainingOld(st.oldMessages, st.deletedOldIds);
    assert forall o :: StillOld(st, o) <==> o in remaining;
  }

  /** Verification passes exactly for the saved channel. */
  lemma VerifyOkMeans(cards: seq<Card>, st: State, messages: seq<Message>)
    requires DistinctMessages(messages)
    ensures VerifyOk(cards, st, messages) <==> SavedChannel(cards, st, messages)
  {
    hide OldIntact, CardIntact, Expected, Shows, ShowsCard, HasMessage, FoundRanks, RankOf;
    var remaining := RemainingOld(st.oldMessages, st.deletedOldIds);
    assert forall o :: StillOld(st, o) <==> o in remaining;
    forall m ensures Expected(st, remaining, m) <==> m.id in st.newByCard.Values || exists o :: StillOld(st, o) && o.id == m.id {
      ExpectedMeans(st, m);
    }
    forall o ensures OldIntact(o, messages, st.deletingOldId) <==>
                       Shows(messages, o.id, o.cardKey) || (!HasMessage(messages, o.id) && st.deletingOldId == Some(o.id)) {
      OldIntactMeans(messages, o, st.deletingOldId);
    }
    forall i | 0 <= i < |cards| ensures CardIntact(st, messages, cards[i]) <==> ShowsCard(st, messages, cards[i]) {
      CardIntactMeans(st, messages, cards[i]);
    }
    if forall i :: 0 <= i < |cards| ==> CardIntact(st, messages, cards[i]) {
      FoundRanksAll(st, messages, cards);
    }
  }
}
