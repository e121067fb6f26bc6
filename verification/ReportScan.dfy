/**
 * The cursor scanner of `warcraft-logs-links.ts`: trusted report links are
 * read from a channel's history page by page, behind a durable cursor.
 */
module ReportScan {
  import opened Prelude
  import opened Sorting

  /** A message; `codes` are the report codes its text mentions, in order. */
  datatype Message = Message(id: nat, author: Id, codes: seq<Id>)

  /** The server's answer to one link (`AttachReport`), or the error it threw. */
  datatype Response = Attached | AlreadyAttached | Recorded | AlreadyRecorded
                    | Failed(retryable: bool) | OtherStatus | ApiError(status: nat) | OtherError

  datatype Verdict = Delivered | GaveUp | Retry

  datatype Attempt = Attempt(message: Message, code: Id, verdict: Verdict)

  /**
   * One pass: how many messages of the history each fetch can see (`None`
   * when it throws; the number of pages is the page limit), the answers of
   * the server, the options, and whether the new cursor gets saved.
   */
  datatype Pass = Pass(pages: seq<Option<nat>>, answer: (nat, Id) -> Response, trusted: set<Id>,
                       continuePastRetry: bool, giveUpBefore: Option<int>, saved: bool)

  const PAGE_SIZE: nat := 100

  // ---------------------------------------------------------------------
  // Links and verdicts
  // ---------------------------------------------------------------------

  /** Report links of one message: trusted authors only, one per code (`findTrustedReportLinks`). */
  function Links(m: Message, trusted: set<Id>): seq<Id> {
    if m.author in trusted then FirstOccurrences(m.codes) else []
  }

  function FirstOccurrences(codes: seq<Id>): (firsts: seq<Id>)
    ensures forall c :: c in firsts <==> c in codes
    ensures Distinct(firsts)
  {
    if codes == [] then []
    else
      var n := |codes| - 1;
      var before := FirstOccurrences(codes[..n]);
      if codes[n] in before then before else before + [codes[n]]
  }

  function PermanentStatus(status: nat): bool {
    status in {400, 403, 404, 409, 422}
  }

  function MustRetry(answer: Response): bool {
    match answer
    case Failed(retryable) => retryable
    case ApiError(status) => !PermanentStatus(status)
    case OtherError => true
    case _ => false
  }

  /** Creation time of a message in Unix milliseconds (`snowflakeTime`). */
  function Time(id: nat): int {
    id / 0x40_0000 + 1420070400000
  }

  function VerdictOf(pass: Pass, m: Message, code: Id): Verdict {
    if !MustRetry(pass.answer(m.id, code)) then Delivered
    else if pass.giveUpBefore.Some? && Time(m.id) < pass.giveUpBefore.value then GaveUp
    else Retry
  }

  // ---------------------------------------------------------------------
  // Histories and pages
  // ---------------------------------------------------------------------

  /** Message ids grow: a history is read oldest first. */
  ghost predicate Ascending(history: seq<Message>) {
    forall i, j :: 0 <= i < j < |history| ==> history[i].id < history[j].id
  }

  /** How many messages are at or below an id. */
  function UpTo(history: seq<Message>, id: nat): (k: nat)
    ensures k <= |history|
    ensures Ascending(history) ==> (forall j :: 0 <= j < k ==> history[j].id <= id)
                                   && (forall j :: k <= j < |history| ==> history[j].id > id)
  {
    if history == [] then 0
    else
      var n := |history| - 1;
      if history[n].id <= id then n + 1 else UpTo(history[..n], id)
  }

  predicate IdLe(a: Message, b: Message) {
    a.id <= b.id
  }

  /** The messages of one page: the newest ones without a position, else the next ones after it. */
  function PageOf(history: seq<Message>, visible: nat, position: Option<nat>): (page: seq<Message>)
    requires visible <= |history|
    ensures |page| <= PAGE_SIZE
  {
    match position
    case None => history[Max(0, visible - PAGE_SIZE)..visible]
    case Some(p) =>
      var k := Min(UpTo(history, p), visible);
      history[k..Min(k + PAGE_SIZE, visible)]
  }

  /** The remote call. Discord answers newest first; callers rely on the contents alone. */
  method FetchPage(history: seq<Message>, visible: nat, position: Option<nat>) returns (batch: seq<Message>)
    requires visible <= |history|
    ensures multiset(batch) == multiset(PageOf(history, visible, position))
  {
    var page := PageOf(history, visible, position);
    batch := [];
    for i := 0 to |page|
      invariant multiset(batch) == multiset(page[..i])
    {
      assert page[..i + 1] == page[..i] + [page[i]];
      batch := [page[i]] + batch;
    }
    assert page[..|page|] == page;
  }

  lemma IdOrderTotal()
    ensures TotalPreorder(IdLe)
  {
  }

  lemma SortedPage(batch: seq<Message>, page: seq<Message>)
    requires multiset(batch) == multiset(page) && Ascending(page)
    ensures SortBy(batch, IdLe) == page && |batch| == |page|
  {
    hide SortBy;
    IdOrderTotal();
    SortPermutes(batch, IdLe);
    SortSorts(batch, IdLe);
    var sorted := SortBy(batch, IdLe);
    SortPermutesPage(sorted, page);
    NoIdTies(page);
    hide Ascending;
    SortedUnique(sorted, page, IdLe);
  }

  lemma SortPermutesPage(sorted: seq<Message>, page: seq<Message>)
    requires multiset(sorted) == multiset(page)
    ensures |sorted| == |page| && forall m :: m in sorted ==> m in page
  {
    assert |sorted| == |multiset(sorted)| == |multiset(page)| == |page|;
    forall m | m in sorted ensures m in page {
      assert m in multiset(sorted);
    }
  }

  lemma NoIdTies(page: seq<Message>)
    requires Ascending(page)
    ensures Sorted(page, IdLe)
    ensures forall a, b :: a in page && b in page && IdLe(a, b) && IdLe(b, a) ==> a == b
  {
    forall a, b | a in page && b in page && IdLe(a, b) && IdLe(b, a) ensures a == b {
      var i :| 0 <= i < |page| && page[i] == a;
      var j :| 0 <= j < |page| && page[j] == b;
    }
  }

  // ---------------------------------------------------------------------
  // One message
  // ---------------------------------------------------------------------

  /** Every trusted link of the message was answered for good, or given up. */
  ghost predicate Handled(log: seq<Attempt>, m: Message, trusted: set<Id>) {
    forall c :: c in Links(m, trusted) ==> Attempt(m, c, Delivered) in log || Attempt(m, c, GaveUp) in log
  }

  /** Every trusted link of the message was sent at least once. */
  ghost predicate Attempted(log: seq<Attempt>, m: Message, trusted: set<Id>) {
    forall c :: c in Links(m, trusted) ==>
                  Attempt(m, c, Delivered) in log || Attempt(m, c, GaveUp) in log || Attempt(m, c, Retry) in log
  }

  /** Only trusted links are sent, and the log tells what came of each. */
  ghost predicate Honest(log: seq<Attempt>, pass: Pass) {
    forall a :: a in log ==> a.code in Links(a.message, pass.trusted) && a.verdict == VerdictOf(pass, a.message, a.code)
  }

  ghost predicate AllOf(log: seq<Attempt>, m: Message) {
    forall a :: a in log ==> a.message == m
  }

  ghost predicate Retried(log: seq<Attempt>, m: Message) {
    exists c :: Attempt(m, c, Retry) in log
  }

  /** Sends the links of one message; `stop` ends the whole scan at a link to retry. */
  method ScanMessage(m: Message, pass: Pass) returns (log: seq<Attempt>, retry: bool, stop: bool)
    ensures Honest(log, pass) && AllOf(log, m)
    ensures retry <==> Retried(log, m)
    ensures stop <==> retry && !pass.continuePastRetry
    ensures stop ==> log != [] && log[|log| - 1].verdict == Retry && !Retried(log[..|log| - 1], m)
    ensures !stop ==> Attempted(log, m, pass.trusted)
    ensures !retry ==> Handled(log, m, pass.trusted)
  {
    var links := Links(m, pass.trusted);
    log, retry, stop := [], false, false;
    for i := 0 to |links|
      invariant Honest(log, pass) && AllOf(log, m)
      invariant retry <==> Retried(log, m)
      invariant retry ==> pass.continuePastRetry
      invariant forall c :: c in links[..i] ==> Attempt(m, c, VerdictOf(pass, m, c)) in log
    {
      var verdict := VerdictOf(pass, m, links[i]);
      ghost var was := log;
      log := log + [Attempt(m, links[i], verdict)];
      assert forall a :: a in log <==> a in was || a == Attempt(m, links[i], verdict);
      if verdict == Retry {
        assert log[|log| - 1] in log;
        retry := true;
        if !pass.continuePastRetry {
          assert log[..|log| - 1] == was;
          stop := true;
          return;
        }
      }
    }
    assert links[..|links|] == links;
  }

  // ---------------------------------------------------------------------
  // One page, one channel
  // ---------------------------------------------------------------------

  /** The scan so far: `cursor` is durable, `position` may run ahead of it. */
  datatype Scan = Scan(cursor: Option<nat>, position: Option<nat>, blocked: bool, log: seq<Attempt>)

  /** Where the scan of `history[from..]` stands: `[from, upto)` is behind the cursor, `[from, done)` was read. */
  datatype Marks = Marks(from: nat, upto: nat, done: nat)

  ghost predicate InRange(history: seq<Message>, k: Marks) {
    k.from <= k.upto <= k.done <= |history|
  }

  function IdBefore(history: seq<Message>, from: nat, k: nat, start: Option<nat>): Option<nat>
    requires k <= |history|
  {
    if k <= from then start else Some(history[k - 1].id)
  }

  ghost predicate Placed(history: seq<Message>, start: Option<nat>, k: Marks, scan: Scan) {
    && InRange(history, k)
    && scan.cursor == IdBefore(history, k.from, k.upto, start)
    && scan.position == IdBefore(history, k.from, k.done, start)
    && (if scan.blocked then k.upto < k.done else k.upto == k.done)
  }

  ghost predicate Covered(history: seq<Message>, pass: Pass, k: Marks, scan: Scan)
    requires InRange(history, k)
  {
    && (forall j :: k.from <= j < k.upto ==> Handled(scan.log, history[j], pass.trusted))
    && (forall j :: k.from <= j < k.done ==> Attempted(scan.log, history[j], pass.trusted))
    && (scan.blocked ==> pass.continuePastRetry && k.upto < k.done && Retried(scan.log, history[k.upto]))
  }

  ghost predicate Sent(history: seq<Message>, pass: Pass, from: nat, log: seq<Attempt>)
    requires from <= |history|
  {
    Honest(log, pass) && forall a :: a in log ==> a.message in history[from..]
  }

  ghost predicate ScanOk(history: seq<Message>, pass: Pass, start: Option<nat>, k: Marks, scan: Scan) {
    Placed(history, start, k, scan) && Covered(history, pass, k, scan) && Sent(history, pass, k.from, scan.log)
  }

  lemma HandledStays(log: seq<Attempt>, more: seq<Attempt>, m: Message, trusted: set<Id>)
    ensures Handled(log, m, trusted) ==> Handled(log + more, m, trusted)
    ensures Attempted(log, m, trusted) ==> Attempted(log + more, m, trusted)
    ensures Retried(log, m) ==> Retried(log + more, m)
    ensures Handled(more, m, trusted) ==> Handled(log + more, m, trusted)
    ensures Attempted(more, m, trusted) ==> Attempted(log + more, m, trusted)
    ensures Retried(more, m) ==> Retried(log + more, m)
  {
  }

  lemma SentStays(history: seq<Message>, pass: Pass, k: Marks, log: seq<Attempt>, more: seq<Attempt>)
    requires InRange(history, k) && Sent(history, pass, k.from, log) && Honest(more, pass)
    requires k.done < |history| && AllOf(more, history[k.done])
    ensures Sent(history, pass, k.from, log + more)
  {
    assert history[k.done] == history[k.from..][k.done - k.from];
  }

  /** The marks and the state after one more message was read. */
  function Marked(k: Marks, blocked: bool): Marks {
    Marks(k.from, if blocked then k.upto else k.done + 1, k.done + 1)
  }

  function Advanced(scan: Scan, m: Message, retry: bool, more: seq<Attempt>): Scan {
    Scan(if scan.blocked || retry then scan.cursor else Some(m.id), Some(m.id), scan.blocked || retry, scan.log + more)
  }

  ghost predicate Sending(more: seq<Attempt>, m: Message, pass: Pass, retry: bool) {
    && Honest(more, pass) && AllOf(more, m) && Attempted(more, m, pass.trusted)
    && (if retry then pass.continuePastRetry && Retried(more, m) else Handled(more, m, pass.trusted))
  }

  lemma CoveredNext(history: seq<Message>, pass: Pass, k: Marks, scan: Scan, more: seq<Attempt>, retry: bool)
    requires InRange(history, k) && k.done < |history| && (if scan.blocked then k.upto < k.done else k.upto == k.done)
    requires Covered(history, pass, k, scan) && Sending(more, history[k.done], pass, retry)
    ensures Covered(history, pass, Marked(k, scan.blocked || retry), Advanced(scan, history[k.done], retry, more))
  {
    hide Handled, Attempted, Retried, Honest, AllOf;
    forall j | k.from <= j <= k.done
      ensures Handled(scan.log, history[j], pass.trusted) ==> Handled(scan.log + more, history[j], pass.trusted)
      ensures Attempted(scan.log, history[j], pass.trusted) ==> Attempted(scan.log + more, history[j], pass.trusted)
      ensures Retried(scan.log, history[j]) ==> Retried(scan.log + more, history[j])
    {
      HandledStays(scan.log, more, history[j], pass.trusted);
    }
    HandledStays(scan.log, more, history[k.done], pass.trusted);
  }

  lemma MessageScanned(history: seq<Message>, pass: Pass, start: Option<nat>, k: Marks, scan: Scan,
                       more: seq<Attempt>, retry: bool)
    requires ScanOk(history, pass, start, k, scan) && k.done < |history|
    requires Sending(more, history[k.done], pass, retry)
    ensures ScanOk(history, pass, start, Marked(k, scan.blocked || retry), Advanced(scan, history[k.done], retry, more))
  {
    CoveredNext(history, pass, k, scan, more, retry);
    SentStays(history, pass, k, scan.log, more);
    hide Covered, Sent;
  }

  /** The messages of one page, oldest first; `stop` ends the scan before `history[after.done]`. */
  method ScanPage(history: seq<Message>, pass: Pass, ordered: seq<Message>, start: Option<nat>, scan: Scan, ghost k: Marks)
    returns (next: Scan, stop: bool, ghost after: Marks)
    requires Ascending(history) && ScanOk(history, pass, start, k, scan)
    requires start.Some? ==> k.from == UpTo(history, start.value)
    requires k.done + |ordered| <= |history| && ordered == history[k.done..k.done + |ordered|]
    ensures ScanOk(history, pass, start, after, next) || stop
    ensures after.from == k.from && k.done <= after.done
    ensures !stop ==> after.done == k.done + |ordered|
    ensures stop ==> Stopped(history, pass, start, after, next)
  {
    hide Covered, Sent, Honest, Attempted, Handled, Retried, AllOf, IdBefore;
    next, stop, after := scan, false, k;
    for i := 0 to |ordered|
      invariant ScanOk(history, pass, start, after, next)
      invariant after.from == k.from && after.done == k.done + i
    {
      var m := ordered[i];
      assert m == history[after.done];
      Beyond(history, start, after, next);
      if !(next.position.Some? && m.id <= next.position.value) {
        var log, retry, halt := ScanMessage(m, pass);
        if halt {
          StoppedHere(history, pass, start, after, next, log);
          return next.(log := next.log + log), true, after;
        }
        MessageScanned(history, pass, start, after, next, log, retry);
        after := Marked(after, next.blocked || retry);
        next := Advanced(next, m, retry, log);
      }
    }
  }

  /** The next message lies beyond the read position. */
  lemma Beyond(history: seq<Message>, start: Option<nat>, k: Marks, scan: Scan)
    requires Ascending(history) && Placed(history, start, k, scan) && k.done < |history|
    requires start.Some? ==> k.from == UpTo(history, start.value)
    ensures scan.position.Some? ==> history[k.done].id > scan.position.value
    ensures scan.position.Some? && (start.Some? || k.done > k.from) ==> UpTo(history, scan.position.value) == k.done
  {
    if scan.position.Some? {
      var u := UpTo(history, scan.position.value);
      assert k.done > k.from ==> history[k.done - 1].id == scan.position.value;
      assert u <= k.done;
    }
  }

  /** A scan that stopped at the message after the cursor: a link of it must be retried. */
  ghost predicate Stopped(history: seq<Message>, pass: Pass, start: Option<nat>, k: Marks, scan: Scan) {
    && InRange(history, k) && k.upto == k.done < |history| && !pass.continuePastRetry
    && scan.cursor == IdBefore(history, k.from, k.upto, start)
    && (forall j :: k.from <= j < k.upto ==> Handled(scan.log, history[j], pass.trusted))
    && Sent(history, pass, k.from, scan.log)
    && scan.log != [] && scan.log[|scan.log| - 1].verdict == Retry
    && scan.log[|scan.log| - 1].message == history[k.upto]
  }

  lemma StoppedHere(history: seq<Message>, pass: Pass, start: Option<nat>, k: Marks, scan: Scan, more: seq<Attempt>)
    requires ScanOk(history, pass, start, k, scan) && k.done < |history| && !pass.continuePastRetry
    requires Honest(more, pass) && AllOf(more, history[k.done]) && more != [] && more[|more| - 1].verdict == Retry
    ensures Stopped(history, pass, start, k, scan.(log := scan.log + more))
  {
    SentStays(history, pass, k, scan.log, more);
    forall j | k.from <= j < k.upto ensures Handled(scan.log + more, history[j], pass.trusted) {
      HandledStays(scan.log, more, history[j], pass.trusted);
    }
    assert more[|more| - 1] in more;
  }

  // ---------------------------------------------------------------------
  // One pass over a channel
  // ---------------------------------------------------------------------

  datatype ScanResult = ScanResult(cursor: Option<nat>, reachedEnd: bool, blocked: bool)

  ghost predicate Visible(history: seq<Message>, pass: Pass) {
    forall p :: p in pass.pages && p.Some? ==> p.value <= |history|
  }

  /** Everything a cursor has moved past was handled. */
  ghost predicate LosslessBetween(history: seq<Message>, pass: Pass, log: seq<Attempt>, low: int, high: int) {
    forall m :: m in history && low < m.id <= high ==> Handled(log, m, pass.trusted)
  }

  /** The first message beyond the cursor holds a link that must be retried. */
  ghost predicate BlockedAt(history: seq<Message>, log: seq<Attempt>, cursor: int) {
    exists m :: m in history && m.id > cursor && Retried(log, m)
                && forall o :: o in history && o.id > cursor ==> m.id <= o.id
  }

  /** What a finished scan from a cursor promises. */
  ghost predicate Lossless(history: seq<Message>, pass: Pass, start: nat, r: ScanResult, log: seq<Attempt>, seen: nat) {
    && seen <= |history| && r.cursor.Some? && start <= r.cursor.value
    && LosslessBetween(history, pass, log, start, r.cursor.value)
    && (r.reachedEnd && !r.blocked ==> forall m :: m in history[..seen] ==> m.id <= r.cursor.value)
    && (r.reachedEnd ==> forall m :: m in history[..seen] && m.id > start ==> Attempted(log, m, pass.trusted))
    && (r.blocked ==> BlockedAt(history, log, r.cursor.value))
  }

  lemma AfterMark(history: seq<Message>, start: nat, k: Marks, upto: nat)
    requires Ascending(history) && k.from == UpTo(history, start) && k.from <= upto <= |history|
    ensures var cursor := IdBefore(history, k.from, upto, Some(start));
            && cursor.Some? && start <= cursor.value
            && (forall j :: k.from <= j < upto <==> 0 <= j < |history| && start < history[j].id <= cursor.value)
            && (forall j :: 0 <= j < |history| ==> (history[j].id > cursor.value <==> j >= upto))
  {
    if upto > k.from {
      assert history[upto - 1].id > start;
    }
  }

  lemma HandledUpTo(history: seq<Message>, pass: Pass, log: seq<Attempt>, start: nat, k: Marks)
    requires Ascending(history) && InRange(history, k) && k.from == UpTo(history, start)
    requires forall j :: k.from <= j < k.upto ==> Handled(log, history[j], pass.trusted)
    ensures var cursor := IdBefore(history, k.from, k.upto, Some(start));
            cursor.Some? && start <= cursor.value && LosslessBetween(history, pass, log, start, cursor.value)
  {
    hide Handled;
    AfterMark(history, start, k, k.upto);
    var cursor := IdBefore(history, k.from, k.upto, Some(start)).value;
    forall m | m in history && start < m.id <= cursor ensures Handled(log, m, pass.trusted) {
      var j :| 0 <= j < |history| && history[j] == m;
    }
  }

  lemma BlockedBy(history: seq<Message>, log: seq<Attempt>, start: nat, k: Marks)
    requires Ascending(history) && InRange(history, k) && k.from == UpTo(history, start)
    requires k.upto < |history| && Retried(log, history[k.upto])
    ensures var cursor := IdBefore(history, k.from, k.upto, Some(start));
            cursor.Some? && BlockedAt(history, log, cursor.value)
  {
    hide Retried;
    AfterMark(history, start, k, k.upto);
    var cursor := IdBefore(history, k.from, k.upto, Some(start)).value;
    forall o | o in history && o.id > cursor ensures history[k.upto].id <= o.id {
      var j :| 0 <= j < |history| && history[j] == o;
    }
  }

  lemma EverythingSeen(history: seq<Message>, pass: Pass, log: seq<Attempt>, start: nat, k: Marks, seen: nat)
    requires Ascending(history) && InRange(history, k) && k.from == UpTo(history, start) && seen <= |history|
    requires seen <= k.done
    requires forall j :: k.from <= j < k.done ==> Attempted(log, history[j], pass.trusted)
    ensures forall m :: m in history[..seen] && m.id > start ==> Attempted(log, m, pass.trusted)
    ensures var last := IdBefore(history, k.from, k.done, Some(start));
            last.Some? && forall m :: m in history[..seen] ==> m.id <= last.value
  {
    hide Attempted;
    AfterMark(history, start, k, k.done);
    forall m | m in history[..seen]
      ensures m.id <= IdBefore(history, k.from, k.done, Some(start)).value
      ensures m.id > start ==> Attempted(log, m, pass.trusted)
    {
      var j :| 0 <= j < seen && history[j] == m;
    }
  }

  lemma FinishedLossless(history: seq<Message>, pass: Pass, start: nat, k: Marks, scan: Scan, reachedEnd: bool, seen: nat)
    requires Ascending(history) && ScanOk(history, pass, Some(start), k, scan) && k.from == UpTo(history, start)
    requires reachedEnd ==> seen <= k.done
    requires seen <= |history|
    ensures Lossless(history, pass, start, ScanResult(scan.cursor, reachedEnd, scan.blocked), scan.log, seen)
  {
    hide Handled, Attempted, Retried, Honest;
    HandledUpTo(history, pass, scan.log, start, k);
    if scan.blocked {
      BlockedBy(history, scan.log, start, k);
    }
    if reachedEnd {
      EverythingSeen(history, pass, scan.log, start, k, seen);
    }
    hide LosslessBetween, BlockedAt, Sent;
  }

  lemma StoppedLossless(history: seq<Message>, pass: Pass, start: nat, k: Marks, scan: Scan, seen: nat)
    requires Ascending(history) && Stopped(history, pass, Some(start), k, scan) && k.from == UpTo(history, start)
    requires seen <= |history|
    ensures Lossless(history, pass, start, ScanResult(scan.cursor, false, true), scan.log, seen)
  {
    hide Handled, LosslessBetween, BlockedAt, Sent;
    HandledUpTo(history, pass, scan.log, start, k);
    var a := scan.log[|scan.log| - 1];
    assert a == Attempt(history[k.upto], a.code, Retry) && a in scan.log;
    BlockedBy(history, scan.log, start, k);
  }

  /** Messages sent lie beyond the cursor the scan started from. */
  ghost predicate SentAfter(history: seq<Message>, start: nat, log: seq<Attempt>) {
    forall a :: a in log ==> a.message in history && a.message.id > start
  }

  lemma SentBeyond(history: seq<Message>, pass: Pass, start: nat, log: seq<Attempt>)
    requires Ascending(history) && Sent(history, pass, UpTo(history, start), log)
    ensures SentAfter(history, start, log)
  {
    hide Honest;
    var from := UpTo(history, start);
    forall a | a in log ensures a.message in history && a.message.id > start {
      var j :| 0 <= j < |history[from..]| && history[from..][j] == a.message;
      assert history[from + j] == a.message;
    }
  }

  /** A fetch threw after whole pages were read. */
  ghost predicate Threw(history: seq<Message>, pass: Pass, start: nat, log: seq<Attempt>) {
    exists p: nat :: ThrewAt(history, pass, start, log, p)
  }

  ghost predicate ThrewAt(history: seq<Message>, pass: Pass, start: nat, log: seq<Attempt>, p: nat) {
    var from := UpTo(history, start);
    && p < |pass.pages| && pass.pages[p] == None && from + PAGE_SIZE * p <= |history|
    && forall j :: from <= j < from + PAGE_SIZE * p ==> Attempted(log, history[j], pass.trusted)
  }

  /** All that a scan from a cursor promises about its result. */
  ghost predicate ScanPromise(history: seq<Message>, pass: Pass, start: nat, result: Option<ScanResult>,
                              log: seq<Attempt>, seen: nat)
  {
    match result
    case None => Threw(history, pass, start, log)
    case Some(r) =>
      && Lossless(history, pass, start, r, log, seen)
      && (r.reachedEnd ==> Some(seen) in pass.pages)
      && (!r.reachedEnd && (pass.continuePastRetry || !r.blocked) ==> FullPages(history, pass, start, r, log))
      && (r.blocked && !pass.continuePastRetry ==> EndsAtRetry(log, r))
  }

  lemma ThrewHere(history: seq<Message>, pass: Pass, start: nat, k: Marks, scan: Scan, p: nat)
    requires Ascending(history) && ScanOk(history, pass, Some(start), k, scan) && k.from == UpTo(history, start)
    requires k.done == k.from + PAGE_SIZE * p && p < |pass.pages| && pass.pages[p] == None
    ensures Threw(history, pass, start, scan.log)
  {
    hide Attempted, Handled, Sent;
    assert ThrewAt(history, pass, start, scan.log, p);
  }

  /**
   * `scanChannelFromCursor` with a cursor: `None` when a fetch throws; `seen` is
   * how much of the history the last fetch could see.
   */
  method ScanChannelFromCursor(history: seq<Message>, pass: Pass, start: nat)
    returns (result: Option<ScanResult>, log: seq<Attempt>, seen: nat)
    requires Ascending(history) && Visible(history, pass)
    ensures Honest(log, pass) && SentAfter(history, start, log) && seen <= |history|
    ensures ScanPromise(history, pass, start, result, log, seen)
  {
    hide Handled, Attempted, Retried, Honest, FullPages, Lossless, EndsAtRetry, Threw;
    var scan := Scan(Some(start), Some(start), false, []);
    ghost var k := Marks(UpTo(history, start), UpTo(history, start), UpTo(history, start));
    seen := 0;
    EmptyLog(history, pass, k.from);
    for page := 0 to |pass.pages|
      invariant k.from == UpTo(history, start) && ScanOk(history, pass, Some(start), k, scan)
      invariant seen <= |history| && k.done == k.from + PAGE_SIZE * page
    {
      if pass.pages[page].None? {
        SentBeyond(history, pass, start, scan.log);
        ThrewHere(history, pass, start, k, scan, page);
        return None, scan.log, seen;
      }
      seen := pass.pages[page].value;
      var batch := FetchPage(history, seen, scan.position);
      var stop;
      scan, stop, k := ScanBatch(history, pass, batch, start, seen, scan, k);
      SentBeyond(history, pass, start, scan.log);
      if stop {
        StoppedLossless(history, pass, start, k, scan, seen);
        StoppedEnds(history, pass, start, k, scan);
        return Some(ScanResult(scan.cursor, false, true)), scan.log, seen;
      }
      if |batch| < PAGE_SIZE {
        FinishedLossless(history, pass, start, k, scan, true, seen);
        return Some(ScanResult(scan.cursor, true, scan.blocked)), scan.log, seen;
      }
    }
    SentBeyond(history, pass, start, scan.log);
    FinishedLossless(history, pass, start, k, scan, false, seen);
    AllPagesFull(history, pass, start, k, scan);
    result, log := Some(ScanResult(scan.cursor, false, scan.blocked)), scan.log;
  }

  /** A scan that reached its page limit read that many whole pages, and none of them is left behind. */
  ghost predicate FullPages(history: seq<Message>, pass: Pass, start: nat, r: ScanResult, log: seq<Attempt>) {
    var from := UpTo(history, start);
    && from + PAGE_SIZE * |pass.pages| <= |history|
    && r.cursor.Some?
    && forall j :: from <= j < from + PAGE_SIZE * |pass.pages| ==>
         Attempted(log, history[j], pass.trusted) && (!r.blocked ==> history[j].id <= r.cursor.value)
  }

  lemma AllPagesFull(history: seq<Message>, pass: Pass, start: nat, k: Marks, scan: Scan)
    requires Ascending(history) && ScanOk(history, pass, Some(start), k, scan) && k.from == UpTo(history, start)
    requires k.done == k.from + PAGE_SIZE * |pass.pages|
    ensures FullPages(history, pass, start, ScanResult(scan.cursor, false, scan.blocked), scan.log)
  {
    hide Attempted, Handled, Sent;
    AfterMark(history, start, k, k.upto);
  }

  /** Without `continuePastRetry` nothing is sent after the link to retry, which lies beyond the cursor. */
  ghost predicate EndsAtRetry(log: seq<Attempt>, r: ScanResult) {
    && log != [] && r.cursor.Some?
    && log[|log| - 1].verdict == Retry && log[|log| - 1].message.id > r.cursor.value
  }

  lemma StoppedEnds(history: seq<Message>, pass: Pass, start: nat, k: Marks, scan: Scan)
    requires Ascending(history) && Stopped(history, pass, Some(start), k, scan) && k.from == UpTo(history, start)
    ensures EndsAtRetry(scan.log, ScanResult(scan.cursor, false, true))
  {
    hide Handled, Sent;
    AfterMark(history, start, k, k.upto);
  }

  lemma EmptyLog(history: seq<Message>, pass: Pass, from: nat)
    requires from <= |history|
    ensures Sent(history, pass, from, [])
  {
  }

  /** The page read is the next stretch of the history. */
  lemma PageIsNext(history: seq<Message>, start: nat, seen: nat, k: Marks, scan: Scan)
    requires Ascending(history) && Placed(history, Some(start), k, scan) && k.from == UpTo(history, start)
    requires seen <= |history|
    ensures scan.position.Some?
    ensures var page := PageOf(history, seen, scan.position);
            && k.done + |page| <= |history| && page == history[k.done..k.done + |page|] && Ascending(page)
            && (|page| < PAGE_SIZE ==> seen <= k.done + |page|)
  {
    AfterMark(history, start, k, k.done);
    UpToMark(history, scan.position.value, k.done);
    var page := PageOf(history, seen, scan.position);
    hide UpTo;
    assert |page| == Max(0, Min(PAGE_SIZE, seen - k.done));
    if page == [] {
      assert history[k.done..k.done] == [];
    } else {
      assert page == history[k.done..k.done + |page|];
    }
    RunAscends(history, k.done, k.done + |page|);
  }

  lemma UpToMark(history: seq<Message>, p: nat, done: nat)
    requires Ascending(history) && done <= |history|
    requires forall j :: 0 <= j < |history| ==> (history[j].id > p <==> j >= done)
    ensures UpTo(history, p) == done
  {
    var u := UpTo(history, p);
    assert u < |history| ==> history[u].id > p;
    assert done < |history| ==> history[done].id > p;
  }

  lemma RunAscends(history: seq<Message>, lo: nat, hi: nat)
    requires Ascending(history) && lo <= hi <= |history|
    ensures Ascending(history[lo..hi])
  {
  }

  method ScanBatch(history: seq<Message>, pass: Pass, batch: seq<Message>, start: nat, seen: nat, scan: Scan, ghost k: Marks)
    returns (next: Scan, stop: bool, ghost after: Marks)
    requires Ascending(history) && ScanOk(history, pass, Some(start), k, scan) && k.from == UpTo(history, start)
    requires seen <= |history| && multiset(batch) == multiset(PageOf(history, seen, scan.position))
    ensures after.from == k.from
    ensures if stop then Stopped(history, pass, Some(start), after, next) else ScanOk(history, pass, Some(start), after, next)
    ensures !stop && |batch| < PAGE_SIZE ==> seen <= after.done
    ensures |batch| <= PAGE_SIZE && (!stop ==> after.done == k.done + |batch|)
  {
    PageIsNext(history, start, seen, k, scan);
    SortedPage(batch, PageOf(history, seen, scan.position));
    next, stop, after := ScanPage(history, pass, SortBy(batch, IdLe), Some(start), scan, k);
  }

  /** What blocks a scan is never older than the retry horizon. */
  lemma BlockerIsRecent(history: seq<Message>, pass: Pass, log: seq<Attempt>, cursor: nat) returns (b: Message)
    requires Honest(log, pass) && BlockedAt(history, log, cursor) && pass.giveUpBefore.Some?
    ensures b in history && b.id > cursor && Time(b.id) >= pass.giveUpBefore.value
    ensures forall o :: o in history && o.id > cursor ==> b.id <= o.id
  {
    b :| b in history && b.id > cursor && Retried(log, b)
         && forall o :: o in history && o.id > cursor ==> b.id <= o.id;
    var c :| Attempt(b, c, Retry) in log;
    assert VerdictOf(pass, b, c) == Retry;
  }

  /**
   * With a retry horizon no older message holds the cursor: in a blocked scan
   * all of them lie behind it, seen or not, and in a scan that reached the end
   * all those seen do.
   */
  lemma HorizonIsPassed(history: seq<Message>, pass: Pass, start: nat, r: ScanResult, log: seq<Attempt>, seen: nat)
    requires Honest(log, pass) && Lossless(history, pass, start, r, log, seen) && pass.giveUpBefore.Some?
    ensures r.blocked ==> forall m :: m in history && Time(m.id) < pass.giveUpBefore.value ==> m.id <= r.cursor.value
    ensures r.reachedEnd ==>
              forall m :: m in history[..seen] && Time(m.id) < pass.giveUpBefore.value ==> m.id <= r.cursor.value
  {
    if r.blocked {
      var b := BlockerIsRecent(history, pass, log, r.cursor.value);
      forall m | m in history && m.id > r.cursor.value ensures Time(m.id) >= pass.giveUpBefore.value {
        assert Time(b.id) <= Time(m.id);
      }
      assert forall m :: m in history[..seen] ==> m in history;
    }
  }

  // ---------------------------------------------------------------------
  // Without a cursor
  // ---------------------------------------------------------------------

  /** A channel without a cursor: only the newest page is read and becomes the starting point. */
  method ScanNewestPage(history: seq<Message>, pass: Pass, visible: nat)
    returns (cursor: Option<nat>, blocked: bool, log: seq<Attempt>)
    requires Ascending(history) && visible <= |history|
    ensures Sent(history, pass, Max(0, visible - PAGE_SIZE), log)
    ensures NewestPageRead(history, pass, visible, cursor, blocked, log)
  {
    hide Handled, Attempted, Retried, Honest;
    ghost var from := Max(0, visible - PAGE_SIZE);
    ghost var k := Marks(from, from, from);
    EmptyLog(history, pass, from);
    var batch := FetchPage(history, visible, None);
    SortedPage(batch, PageOf(history, visible, None));
    var scan := Scan(None, None, false, []);
    var stop;
    scan, stop, k := ScanPage(history, pass, SortBy(batch, IdLe), None, scan, k);
    NewestPageDone(history, pass, visible, k, scan, stop);
    return scan.cursor, scan.blocked || stop, scan.log;
  }

  /** The newest page is handled up to the cursor; unblocked, the cursor is the newest message. */
  ghost predicate NewestPageRead(history: seq<Message>, pass: Pass, visible: nat, cursor: Option<nat>,
                                 blocked: bool, log: seq<Attempt>)
    requires visible <= |history|
  {
    var from := Max(0, visible - PAGE_SIZE);
    && (cursor.Some? ==> LosslessBetween(history[from..], pass, log, -1, cursor.value) && history[from..] != []
                         && history[from].id <= cursor.value)
    && (!blocked ==> cursor == if visible == 0 then None else Some(history[visible - 1].id))
  }

  lemma NewestPageDone(history: seq<Message>, pass: Pass, visible: nat, k: Marks, scan: Scan, stop: bool)
    requires Ascending(history) && visible <= |history| && k.from == Max(0, visible - PAGE_SIZE)
    requires if stop then Stopped(history, pass, None, k, scan)
             else ScanOk(history, pass, None, k, scan) && k.done == visible
    ensures Sent(history, pass, k.from, scan.log)
    ensures NewestPageRead(history, pass, visible, scan.cursor, scan.blocked || stop, scan.log)
  {
    hide Handled, Attempted, Retried, Honest;
    if scan.cursor.Some? {
      HandledInPage(history, pass, scan.log, k);
    }
  }

  /**
   * What a first read without a cursor loses: a message older than the newest
   * page lies behind the cursor, so no scan from it ever sends it.
   */
  lemma OlderMessagesLost(history: seq<Message>, pass: Pass, visible: nat, cursor: nat, blocked: bool, first: seq<Attempt>,
                          later: seq<Attempt>, m: nat)
    requires Ascending(history) && visible <= |history| && m < visible - PAGE_SIZE
    requires NewestPageRead(history, pass, visible, Some(cursor), blocked, first)
    requires Sent(history, pass, visible - PAGE_SIZE, first) && SentAfter(history, cursor, later)
    ensures forall a :: a in first + later ==> a.message != history[m]
  {
    hide Honest, LosslessBetween;
    forall a | a in first ensures a.message != history[m] {
      var tail := history[visible - PAGE_SIZE..];
      var j :| 0 <= j < |tail| && tail[j] == a.message;
      assert tail[j] == history[visible - PAGE_SIZE + j];
    }
  }

  lemma HandledInPage(history: seq<Message>, pass: Pass, log: seq<Attempt>, k: Marks)
    requires Ascending(history) && InRange(history, k) && k.from < k.upto
    requires forall j :: k.from <= j < k.upto ==> Handled(log, history[j], pass.trusted)
    ensures LosslessBetween(history[k.from..], pass, log, -1, history[k.upto - 1].id)
    ensures history[k.from].id <= history[k.upto - 1].id
  {
    hide Handled;
    forall m | m in history[k.from..] && m.id <= history[k.upto - 1].id ensures Handled(log, m, pass.trusted) {
      var j :| 0 <= j < |history[k.from..]| && history[k.from..][j] == m;
      assert history[k.from + j] == m;
    }
  }

  // ---------------------------------------------------------------------
  // Any number of passes
  // ---------------------------------------------------------------------

  ghost predicate Nondecreasing(cursors: seq<nat>) {
    forall i, j :: 0 <= i <= j < |cursors| ==> cursors[i] <= cursors[j]
  }

  /** Everything at or below each durable cursor was handled by the end. */
  ghost predicate LosslessRun(history: seq<Message>, trusted: set<Id>, cursors: seq<nat>, log: seq<Attempt>) {
    forall i, m :: 0 <= i < |cursors| && m in history && cursors[0] < m.id <= cursors[i] ==> Handled(log, m, trusted)
  }

  /** Each entry of the log is the verdict of one of the passes. */
  ghost predicate HonestRun(passes: seq<Pass>, log: seq<Attempt>) {
    forall a :: a in log ==> exists i :: 0 <= i < |passes| && a.verdict == VerdictOf(passes[i], a.message, a.code)
  }

  /**
   * Passes over a growing history from a durable cursor. A pass may end in a
   * throw, a crash or a failed `saveCursor`: then the old cursor stays.
   */
  method ScanPasses(history: seq<Message>, passes: seq<Pass>, trusted: set<Id>, start: nat)
    returns (cursors: seq<nat>, scans: seq<PassScan>, log: seq<Attempt>)
    requires Ascending(history)
    requires forall p :: p in passes ==> Visible(history, p) && p.trusted == trusted
    ensures |cursors| == |passes| + 1 && cursors[0] == start && |scans| == |passes|
    ensures Nondecreasing(cursors) && LosslessRun(history, trusted, cursors, log) && HonestRun(passes, log)
    ensures forall i :: 0 <= i < |passes| ==> PassKept(history, passes[i], cursors[i], cursors[i + 1], scans[i])
    ensures forall i, a :: 0 <= i < |passes| && a in scans[i].log ==> a in log
  {
    hide Handled, Honest, VerdictOf, Lossless, ScanPromise;
    cursors, scans, log := [start], [], [];
    for i := 0 to |passes|
      invariant |cursors| == i + 1 && cursors[0] == start && |scans| == i
      invariant Nondecreasing(cursors) && LosslessRun(history, trusted, cursors, log) && HonestRun(passes, log)
      invariant forall j :: 0 <= j < i ==> PassKept(history, passes[j], cursors[j], cursors[j + 1], scans[j])
      invariant forall j, a :: 0 <= j < i && a in scans[j].log ==> a in log
    {
      assert passes[i] in passes;
      var cursor := cursors[i];
      var result, more, seen := ScanChannelFromCursor(history, passes[i], cursor);
      var next := cursor;
      if result.Some? {
        PromisedCursor(history, passes[i], cursor, result.value, more, seen);
        if passes[i].saved {
          next := result.value.cursor.value;
        }
      }
      RunExtended(history, passes[i], trusted, cursors, next, log, more);
      HonestExtended(passes, i, log, more);
      cursors, scans, log := cursors + [next], scans + [PassScan(result, more, seen)], log + more;
    }
  }

  /** What one pass did: its result, what it sent and how much of the history it could see last. */
  datatype PassScan = PassScan(result: Option<ScanResult>, log: seq<Attempt>, seen: nat)

  /** A pass keeps what its scan promises; its cursor becomes durable exactly if the scan ends and the save works. */
  ghost predicate PassKept(history: seq<Message>, pass: Pass, from: nat, to: nat, scan: PassScan) {
    && ScanPromise(history, pass, from, scan.result, scan.log, scan.seen)
    && Some(to) == (if scan.result.Some? && pass.saved then scan.result.value.cursor else Some(from))
  }

  lemma PromisedCursor(history: seq<Message>, pass: Pass, start: nat, r: ScanResult, log: seq<Attempt>, seen: nat)
    requires ScanPromise(history, pass, start, Some(r), log, seen)
    ensures r.cursor.Some? && start <= r.cursor.value && LosslessBetween(history, pass, log, start, r.cursor.value)
  {
  }

  lemma RunExtended(history: seq<Message>, pass: Pass, trusted: set<Id>, cursors: seq<nat>, next: nat,
                    log: seq<Attempt>, more: seq<Attempt>)
    requires cursors != [] && pass.trusted == trusted && cursors[|cursors| - 1] <= next
    requires Nondecreasing(cursors) && LosslessRun(history, trusted, cursors, log)
    requires cursors[|cursors| - 1] < next ==> LosslessBetween(history, pass, more, cursors[|cursors| - 1], next)
    ensures Nondecreasing(cursors + [next]) && LosslessRun(history, trusted, cursors + [next], log + more)
  {
    hide Handled;
    var last := |cursors| - 1;
    forall i, m | 0 <= i <= |cursors| && m in history && cursors[0] < m.id <= (cursors + [next])[i]
      ensures Handled(log + more, m, trusted)
    {
      HandledStays(log, more, m, trusted);
      if m.id <= cursors[last] {
        assert Handled(log, m, trusted);
      }
    }
  }

  lemma HonestExtended(passes: seq<Pass>, i: nat, log: seq<Attempt>, more: seq<Attempt>)
    requires i < |passes| && HonestRun(passes, log) && Honest(more, passes[i])
    ensures HonestRun(passes, log + more)
  {
  }

  // ---------------------------------------------------------------------
  // The final scan of a retiring channel
  // ---------------------------------------------------------------------

  const MAX_DEFER_MS: int := 1_800_000

  /** One final scan: when it runs and what happens during it. */
  datatype FinalScan = FinalScan(now: int, pass: Pass)

  /** `finalScanFailingSince` and the deferral after a final scan. */
  method DeferRetirement(now: int, complete: bool, since: Option<int>) returns (kept: Option<int>, defer: bool)
    ensures complete ==> kept == None && !defer
    ensures !complete ==> kept == Some(since.GetOr(now)) && (defer <==> now - since.GetOr(now) < MAX_DEFER_MS)
  {
    if complete {
      return None, false;
    }
    kept := Some(since.GetOr(now));
    defer := now - kept.value < MAX_DEFER_MS;
  }

  /** The scan read to the end and nothing had to be retried. */
  predicate IsComplete(scan: PassScan) {
    scan.result.Some? && scan.result.value.reachedEnd && !scan.result.value.blocked
  }

  /** The channel is kept after final scan `i`: it was not complete, and not yet the deferral limit after the first. */
  ghost predicate Deferred(scans: seq<FinalScan>, scan: PassScan, i: nat)
    requires i < |scans|
  {
    !IsComplete(scan) && scans[i].now - scans[0].now < MAX_DEFER_MS
  }

  /** A complete scan left no message it could see behind the cursor unhandled. */
  ghost predicate AllSeenHandled(history: seq<Message>, pass: Pass, start: nat, log: seq<Attempt>, seen: nat) {
    && seen <= |history| && Some(seen) in pass.pages
    && forall m :: m in history[..seen] && m.id > start ==> Handled(log, m, pass.trusted)
  }

  lemma CompleteHandled(history: seq<Message>, pass: Pass, start: nat, from: nat, scan: PassScan, log: seq<Attempt>)
    requires ScanPromise(history, pass, from, scan.result, scan.log, scan.seen) && IsComplete(scan)
    requires LosslessBetween(history, pass, log, start, from)
    ensures AllSeenHandled(history, pass, start, log + scan.log, scan.seen)
  {
    hide Handled;
    forall m | m in history[..scan.seen] && m.id > start ensures Handled(log + scan.log, m, pass.trusted) {
      assert m in history;
      HandledStays(log, scan.log, m, pass.trusted);
    }
  }

  lemma LosslessJoined(history: seq<Message>, pass: Pass, start: nat, from: nat, next: nat,
                       log: seq<Attempt>, more: seq<Attempt>)
    requires LosslessBetween(history, pass, log, start, from)
    requires from < next ==> LosslessBetween(history, pass, more, from, next)
    ensures LosslessBetween(history, pass, log + more, start, next)
  {
    hide Handled;
    forall m | m in history && start < m.id <= next ensures Handled(log + more, m, pass.trusted) {
      HandledStays(log, more, m, pass.trusted);
    }
  }

  /**
   * Final scans of one retiring channel until its deletion is released. It is
   * released only by a scan that handled everything it could see, or after
   * scans that failed without a break for the whole deferral limit.
   */
  method RetireChannel(history: seq<Message>, scans: seq<FinalScan>, trusted: set<Id>, start: nat)
    returns (released: Option<nat>, done: seq<PassScan>, cursors: seq<nat>, log: seq<Attempt>)
    requires Ascending(history)
    requires forall s :: s in scans ==> Visible(history, s.pass) && s.pass.trusted == trusted
    ensures |done| == (if released.Some? then released.value + 1 else |scans|) <= |scans|
    ensures |cursors| == |done| + 1 && cursors[0] == start
    ensures forall i :: 0 <= i < |done| ==> PassKept(history, scans[i].pass, cursors[i], cursors[i + 1], done[i])
    ensures forall i :: 0 <= i < |done| ==> (Deferred(scans, done[i], i) <==> released != Some(i))
    ensures released.Some? && IsComplete(done[released.value]) ==>
              AllSeenHandled(history, scans[released.value].pass, start, log, done[released.value].seen)
  {
    hide Handled, Honest, Lossless, ScanPromise;
    var since: Option<int> := None;
    cursors, done, log, released := [start], [], [], None;
    for i := 0 to |scans|
      invariant |done| == i && |cursors| == i + 1 && cursors[0] == start && start <= cursors[i] && released == None
      invariant forall j :: 0 <= j < |scans| ==> LosslessBetween(history, scans[j].pass, log, start, cursors[i])
      invariant if i == 0 then since == None else since == Some(scans[0].now)
      invariant forall j :: 0 <= j < i ==> Deferred(scans, done[j], j)
      invariant forall j :: 0 <= j < i ==> PassKept(history, scans[j].pass, cursors[j], cursors[j + 1], done[j])
    {
      assert scans[i] in scans;
      var from := cursors[i];
      var result, more, seen := ScanChannelFromCursor(history, scans[i].pass, from);
      var next := from;
      if result.Some? {
        PromisedCursor(history, scans[i].pass, from, result.value, more, seen);
        next := if scans[i].pass.saved then result.value.cursor.value else from;
      }
      var scan := PassScan(result, more, seen);
      var defer;
      since, defer := DeferRetirement(scans[i].now, IsComplete(scan), since);
      if IsComplete(scan) {
        CompleteHandled(history, scans[i].pass, start, from, scan, log);
      }
      RetireExtended(history, scans, trusted, i, start, from, next, log, more);
      cursors, done, log := cursors + [next], done + [scan], log + more;
      if !defer {
        released := Some(i);
        return;
      }
    }
  }

  lemma RetireExtended(history: seq<Message>, scans: seq<FinalScan>, trusted: set<Id>, i: nat, start: nat, from: nat,
                       next: nat, log: seq<Attempt>, more: seq<Attempt>)
    requires forall s :: s in scans ==> s.pass.trusted == trusted
    requires i < |scans| && from < next ==> LosslessBetween(history, scans[i].pass, more, from, next)
    requires forall j :: 0 <= j < |scans| ==> LosslessBetween(history, scans[j].pass, log, start, from)
    requires i < |scans|
    ensures forall j :: 0 <= j < |scans| ==> LosslessBetween(history, scans[j].pass, log + more, start, next)
  {
    hide Handled;
    LosslessJoined(history, scans[i].pass, start, from, next, log, more);
    assert forall j :: 0 <= j < |scans| ==> scans[j] in scans;
  }

  // ---------------------------------------------------------------------
  // What handled means
  // ---------------------------------------------------------------------

  /** The server took the link, or refused it for a reason a retry cannot change. */
  predicate Settled(answer: Response) {
    || answer == Attached || answer == AlreadyAttached || answer == Recorded || answer == AlreadyRecorded
    || answer == OtherStatus || answer == Failed(false)
    || (answer.ApiError? && answer.status in {400, 403, 404, 409, 422})
  }

  predicate TooOld(m: Message, horizon: Option<int>) {
    horizon.Some? && m.id / 4_194_304 + 1_420_070_400_000 < horizon.value
  }

  /** Of a handled message every code a trusted author mentioned was settled with the server, or is too old. */
  lemma HandledMeans(log: seq<Attempt>, m: Message, pass: Pass)
    requires Honest(log, pass) && Handled(log, m, pass.trusted) && m.author in pass.trusted
    ensures forall c :: c in m.codes ==> Settled(pass.answer(m.id, c)) || TooOld(m, pass.giveUpBefore)
  {
    forall c | c in m.codes ensures Settled(pass.answer(m.id, c)) || TooOld(m, pass.giveUpBefore) {
      assert c in Links(m, pass.trusted);
      assert VerdictOf(pass, m, c) != Retry;
    }
  }

  /** A message to be retried comes from a trusted author, is not too old, and one of its codes was not settled. */
  lemma RetriedMeans(log: seq<Attempt>, m: Message, pass: Pass)
    requires Honest(log, pass) && Retried(log, m)
    ensures m.author in pass.trusted && !TooOld(m, pass.giveUpBefore)
    ensures exists c :: c in m.codes && !Settled(pass.answer(m.id, c))
  {
    var c :| Attempt(m, c, Retry) in log;
    assert c in Links(m, pass.trusted) && VerdictOf(pass, m, c) == Retry;
  }
}
