/**
 * The guide replacement's durable world: the Discord channel, the saved state
 * file, and the invariant every call, save and crash point keeps.
 */
module GuideModel {
  import opened Prelude

  /** A channel message; `body` stands for everything verification compares besides the marker. */
  datatype Message = Message(id: Id, ours: bool, marker: Option<Id>, body: Id)

  datatype Card = Card(key: Id, body: Id)

  datatype OldMessage = OldMessage(id: Id, cardKey: Id)

  datatype Phase = Creating | Verified | Deleting | Done

  /** The state file. `cards` is what the desired hash identifies, `target` is guide, channel and bot. */
  datatype State = State(
    target: Id,
    cards: seq<Card>,
    phase: Phase,
    oldMessages: seq<OldMessage>,
    newByCard: map<Id, Id>,
    pendingCardKey: Option<Id>,
    deletedOldIds: seq<Id>,
    deletingOldId: Option<Id>)

  /** `channel` is in creation order; `created` and `deleted` are the history of effective calls. */
  datatype World = World(
    channel: seq<Message>,
    file: Option<State>,
    nextRank: int,
    created: seq<Id>,
    deleted: seq<Id>)

  datatype Adapter = Adapter(target: Id, cards: seq<Card>, contentErrors: bool) {
    predicate CardErrors() {
      contentErrors || !DistinctKeys(cards)
    }
  }

  predicate DistinctKeys(cards: seq<Card>) {
    forall i, j :: 0 <= i < j < |cards| ==> cards[i].key != cards[j].key
  }

  predicate KnownKey(cards: seq<Card>, key: Id) {
    exists i :: 0 <= i < |cards| && cards[i].key == key
  }

  // ---------------------------------------------------------------------
  // Effects
  // ---------------------------------------------------------------------

  function Posted(w: World, card: Card): World {
    w.(channel := w.channel + [Message(Id(w.nextRank), true, Some(card.key), card.body)],
       nextRank := w.nextRank + 1, created := w.created + [card.key])
  }

  function WithoutId(messages: seq<Message>, id: Id): seq<Message> {
    if messages == [] then []
    else if messages[0].id == id then WithoutId(messages[1..], id)
    else [messages[0]] + WithoutId(messages[1..], id)
  }

  predicate HasMessage(messages: seq<Message>, id: Id) {
    exists i :: 0 <= i < |messages| && messages[i].id == id
  }

  function Removed(w: World, id: Id): World {
    if HasMessage(w.channel, id) then
      w.(channel := WithoutId(w.channel, id), deleted := w.deleted + [id])
    else w
  }

  function Saved(w: World, st: State): World {
    w.(file := Some(st))
  }

  // ---------------------------------------------------------------------
  // The invariant
  // ---------------------------------------------------------------------

  predicate IsOld(m: Message, saved: OldMessage) {
    m.id == saved.id && m.ours && m.marker == Some(saved.cardKey)
  }

  predicate IsCard(m: Message, card: Card) {
    m.ours && m.marker == Some(card.key) && m.body == card.body
  }

  function Keys(cards: seq<Card>): seq<Id> {
    seq(|cards|, i requires 0 <= i < |cards| => cards[i].key)
  }

  function OldIds(olds: seq<OldMessage>): seq<Id> {
    seq(|olds|, i requires 0 <= i < |olds| => olds[i].id)
  }

  ghost predicate OldsAre(messages: seq<Message>, olds: seq<OldMessage>) {
    |messages| == |olds| && forall i :: 0 <= i < |olds| ==> IsOld(messages[i], olds[i])
  }

  ghost predicate CardsAre(messages: seq<Message>, cards: seq<Card>) {
    |messages| == |cards| && forall i :: 0 <= i < |cards| ==> IsCard(messages[i], cards[i])
  }

  /** What is left of the old guide, followed by the new cards so far, in card order. */
  ghost predicate ChannelIs(channel: seq<Message>, remaining: seq<OldMessage>, cards: seq<Card>) {
    && |channel| == |remaining| + |cards|
    && OldsAre(channel[..|remaining|], remaining)
    && CardsAre(channel[|remaining|..], cards)
  }

  /** Ids grow along the channel and stay below the next one Discord will give out. */
  ghost predicate Ascending(channel: seq<Message>, nextRank: int) {
    && (forall i, j :: 0 <= i < j < |channel| ==> channel[i].id.rank < channel[j].id.rank)
    && (forall i :: 0 <= i < |channel| ==> channel[i].id.rank < nextRank)
  }

  /** The saved old messages carry known cards, at most one each, and their ids grow. */
  ghost predicate OldsOk(olds: seq<OldMessage>, cards: seq<Card>) {
    && (forall i, j :: 0 <= i < j < |olds| ==> olds[i].id.rank < olds[j].id.rank)
    && (forall i :: 0 <= i < |olds| ==> KnownKey(cards, olds[i].cardKey))
  }

  ghost predicate Older(olds: seq<OldMessage>, news: seq<Message>, nextRank: int) {
    && (forall i, j :: 0 <= i < |olds| && 0 <= j < |news| ==> olds[i].id.rank < news[j].id.rank)
    && (forall i :: 0 <= i < |olds| ==> olds[i].id.rank < nextRank)
  }

  /** The saved ids of the first cards. */
  ghost function IdsByKey(cards: seq<Card>, messages: seq<Message>): map<Id, Id>
    requires |cards| == |messages|
  {
    if cards == [] then map[]
    else
      var n := |cards| - 1;
      IdsByKey(cards[..n], messages[..n])[cards[n].key := messages[n].id]
  }

  /**
   * The state file against the channel: `k` new ids saved of `m` new messages,
   * `d` deletions saved of `e` deleted messages. Each saved count lags by at
   * most one, and then the state names the card or id in question.
   */
  ghost predicate TrackedAt(st: State, w: World, k: nat, m: nat, d: nat, e: nat) {
    var n, c := |st.oldMessages|, |st.cards|;
    && k <= m <= k + 1 && m <= c && d <= e <= d + 1 && e <= n
    && DistinctKeys(st.cards) && OldsOk(st.oldMessages, st.cards)
    && ChannelIs(w.channel, st.oldMessages[e..], st.cards[..m])
    && Ascending(w.channel, w.nextRank)
    && Older(st.oldMessages, w.channel[n - e..], w.nextRank)
    && st.newByCard == IdsByKey(st.cards[..k], w.channel[n - e..][..k])
    && st.deletedOldIds == OldIds(st.oldMessages[..d])
    && w.created == Keys(st.cards[..m]) && w.deleted == OldIds(st.oldMessages[..e])
    && (m == k + 1 ==> st.phase == Creating && st.pendingCardKey == Some(st.cards[k].key))
    && (e == d + 1 ==> st.phase == Deleting && st.deletingOldId == Some(st.oldMessages[d].id))
    && (st.phase == Creating ==> e == 0)
    && (st.phase == Verified ==> k == c && e == 0)
    && (st.phase == Deleting ==> k == c)
    && (st.phase == Done ==> k == c && d == n)
  }

  ghost predicate Tracked(st: State, w: World) {
    exists k, m, d, e :: TrackedAt(st, w, k, m, d, e)
  }

  /** What holds between any two steps of any run, as long as nobody else edits the channel. */
  ghost predicate Safe(w: World) {
    match w.file
    case None => Ascending(w.channel, w.nextRank) && w.created == [] && w.deleted == []
    case Some(st) => Tracked(st, w)
  }

  // ---------------------------------------------------------------------
  // Steps of the invariant
  // ---------------------------------------------------------------------

  lemma CardPosted(st: State, w: World, k: nat)
    requires TrackedAt(st, w, k, k, 0, 0) && st.phase == Creating && k < |st.cards|
    requires st.pendingCardKey == Some(st.cards[k].key)
    ensures TrackedAt(st, Posted(w, st.cards[k]), k, k + 1, 0, 0)
  {
    var w', n := Posted(w, st.cards[k]), |st.oldMessages|;
    assert st.oldMessages[0..] == st.oldMessages;
    PostedChannel(w.channel, w'.channel, n, k);
    NextCard(st.cards, k);
    hide OldsOk, OldsAre, CardsAre, Keys, Ascending, Older, DistinctKeys;
    PostedChannelIs(w.channel, w'.channel, st.oldMessages, st.cards, k);
    PostedAscends(w, st.cards[k], st.oldMessages);
  }

  lemma PostedChannelIs(channel: seq<Message>, more: seq<Message>, olds: seq<OldMessage>, cards: seq<Card>, k: nat)
    requires k < |cards| && ChannelIs(channel, olds, cards[..k])
    requires |more| == |channel| + 1 && more[..|channel|] == channel && IsCard(more[|channel|], cards[k])
    ensures ChannelIs(more, olds, cards[..k + 1])
  {
    var n := |olds|;
    PostedChannel(channel, more, n, k);
    assert CardsAre(channel[n..], cards[..k]);
    forall i | 0 <= i < k + 1 ensures IsCard(more[n..][i], cards[..k + 1][i]) {
      if i < k {
        assert more[n..][i] == channel[n..][i] && cards[..k + 1][i] == cards[..k][i];
      }
    }
  }

  lemma PostedAscends(w: World, card: Card, olds: seq<OldMessage>)
    requires Ascending(w.channel, w.nextRank) && |olds| <= |w.channel| && Older(olds, w.channel[|olds|..], w.nextRank)
    ensures var w' := Posted(w, card);
            Ascending(w'.channel, w'.nextRank) && Older(olds, w'.channel[|olds|..], w'.nextRank)
  {
  }

  lemma PostedChannel(channel: seq<Message>, more: seq<Message>, n: nat, k: nat)
    requires |channel| == n + k && |more| == n + k + 1 && channel == more[..n + k]
    ensures more[..n] == channel[..n] && more[n..] == channel[n..] + [more[n + k]]
    ensures more[n..][..k] == channel[n..][..k]
  {
  }

  lemma NextCard(cards: seq<Card>, k: nat)
    requires k < |cards|
    ensures cards[..k + 1] == cards[..k] + [cards[k]]
    ensures Keys(cards[..k + 1]) == Keys(cards[..k]) + [cards[k].key]
  {
  }

  function Recorded(st: State, key: Id, id: Id): State {
    st.(newByCard := st.newByCard[key := id], pendingCardKey := None)
  }

  lemma CardRecorded(st: State, w: World, k: nat)
    requires TrackedAt(st, w, k, k + 1, 0, 0) && st.phase == Creating
    ensures TrackedAt(Recorded(st, st.cards[k].key, w.channel[|st.oldMessages| + k].id), w, k + 1, k + 1, 0, 0)
  {
    var n := |st.oldMessages|;
    var cards, news := st.cards[..k + 1], w.channel[n..][..k + 1];
    assert cards[..k] == st.cards[..k] && news[..k] == w.channel[n..][..k];
    assert news[k] == w.channel[n + k];
  }

  lemma {:induction false} WithoutAbsent(messages: seq<Message>, id: Id)
    requires forall i :: 0 <= i < |messages| ==> messages[i].id != id
    ensures WithoutId(messages, id) == messages
  {
    if messages != [] {
      WithoutAbsent(messages[1..], id);
    }
  }

  /** The oldest remaining old message is the first of the channel, so deleting it drops the head. */
  lemma HeadRemoved(st: State, w: World, k: nat, m: nat, d: nat)
    requires TrackedAt(st, w, k, m, d, d) && d < |st.oldMessages|
    ensures Removed(w, st.oldMessages[d].id)
            == w.(channel := w.channel[1..], deleted := w.deleted + [st.oldMessages[d].id])
  {
    var remaining := st.oldMessages[d..];
    assert IsOld(w.channel[..|remaining|][0], remaining[0]);
    assert w.channel[0].id == st.oldMessages[d].id;
    WithoutAbsent(w.channel[1..], st.oldMessages[d].id);
  }

  lemma HeadDropped(st: State, w: World, k: nat, m: nat, d: nat)
    requires TrackedAt(st, w, k, m, d, d) && st.phase == Deleting && d < |st.oldMessages|
    requires st.deletingOldId == Some(st.oldMessages[d].id)
    ensures TrackedAt(st, w.(channel := w.channel[1..], deleted := w.deleted + [st.oldMessages[d].id]), k, m, d, d + 1)
  {
    var n, remaining, rest := |st.oldMessages|, st.oldMessages[d..], w.channel[1..];
    assert st.oldMessages[d + 1..] == remaining[1..];
    assert rest[..n - d - 1] == w.channel[..n - d][1..];
    assert rest[n - d - 1..] == w.channel[n - d..];
    assert OldIds(st.oldMessages[..d + 1]) == OldIds(st.oldMessages[..d]) + [st.oldMessages[d].id];
  }

  lemma OldRemoved(st: State, w: World, k: nat, m: nat, d: nat)
    requires TrackedAt(st, w, k, m, d, d) && st.phase == Deleting && d < |st.oldMessages|
    requires st.deletingOldId == Some(st.oldMessages[d].id)
    ensures TrackedAt(st, Removed(w, st.oldMessages[d].id), k, m, d, d + 1)
  {
    hide TrackedAt;
    HeadRemoved(st, w, k, m, d);
    HeadDropped(st, w, k, m, d);
  }

  function DeletionRecorded(st: State, id: Id): State {
    st.(deletedOldIds := st.deletedOldIds + [id], deletingOldId := None)
  }

  lemma OldRecorded(st: State, w: World, k: nat, m: nat, d: nat)
    requires TrackedAt(st, w, k, m, d, d + 1)
    ensures TrackedAt(DeletionRecorded(st, st.oldMessages[d].id), w, k, m, d + 1, d + 1)
  {
    assert OldIds(st.oldMessages[..d + 1]) == OldIds(st.oldMessages[..d]) + [st.oldMessages[d].id];
  }

  // ---------------------------------------------------------------------
  // What does not disturb the invariant
  // ---------------------------------------------------------------------

  /** The channel side of the invariant does not look at the state file. */
  lemma FileIrrelevant(st: State, w: World, x: State, k: nat, m: nat, d: nat, e: nat)
    requires TrackedAt(st, w, k, m, d, e)
    ensures TrackedAt(st, Saved(w, x), k, m, d, e)
  {
  }

  lemma Bounds(st: State, w: World, k: nat, m: nat, d: nat, e: nat)
    requires TrackedAt(st, w, k, m, d, e)
    ensures k <= m <= k + 1 && m <= |st.cards| && d <= e <= d + 1 && e <= |st.oldMessages|
    ensures |w.channel| == |st.oldMessages| - e + m
    ensures DistinctKeys(st.cards) && Ascending(w.channel, w.nextRank)
  {
  }

  lemma PendingSet(st: State, w: World, k: nat)
    requires TrackedAt(st, w, k, k, 0, 0) && k < |st.cards|
    ensures TrackedAt(st.(pendingCardKey := Some(st.cards[k].key)), w, k, k, 0, 0)
  {
  }

  lemma DeletingSet(st: State, w: World, d: nat, id: Id)
    requires TrackedAt(st, w, |st.cards|, |st.cards|, d, d)
    ensures TrackedAt(st.(deletingOldId := Some(id)), w, |st.cards|, |st.cards|, d, d)
  {
  }

  lemma MarkVerified(st: State, w: World)
    requires TrackedAt(st, w, |st.cards|, |st.cards|, 0, 0)
    ensures TrackedAt(st.(phase := Verified), w, |st.cards|, |st.cards|, 0, 0)
  {
  }

  lemma MarkDeleting(st: State, w: World, d: nat, e: nat)
    requires TrackedAt(st, w, |st.cards|, |st.cards|, d, e)
    ensures TrackedAt(st.(phase := Deleting), w, |st.cards|, |st.cards|, d, e)
  {
  }

  lemma MarkDone(st: State, w: World)
    requires TrackedAt(st, w, |st.cards|, |st.cards|, |st.oldMessages|, |st.oldMessages|)
    ensures TrackedAt(st.(phase := Done), w, |st.cards|, |st.cards|, |st.oldMessages|, |st.oldMessages|)
  {
  }
}
