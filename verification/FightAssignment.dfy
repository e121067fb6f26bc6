/**
 * Which fights of a Warcraft Logs report belong to which Run: time window,
 * content check, then roster evidence (`assignReportFights`).
 */
module FightAssignment {
  import opened Prelude
  import opened Sorting

  datatype Policy = Policy(
    toleranceSeconds: int,
    openWindowMaxHours: int,
    rosterWinMinShare: real,
    rosterWinMargin: real,
    rosterLowShare: real,
    rosterMinKnown: int)

  const FIGHT_ASSIGNMENT_POLICY := Policy(300, 8, 0.5, 0.3, 0.25, 3)

  datatype Difficulty = NORMAL | HEROIC | MYTHIC {
    function Wcl(): int {
      match this
      case NORMAL => 3
      case HEROIC => 4
      case MYTHIC => 5
    }
  }

  datatype Status = ASSIGNED | NEEDS_REVIEW | IGNORED

  datatype Reason =
    | TIME_MATCH | RUN_WINDOW_UNKNOWN | RUN_END_UNKNOWN | MULTIPLE_RUN_WINDOWS | ROSTER_RESOLVED
    | LOW_ROSTER_OVERLAP | BELONGS_TO_OTHER_RUN | ASSIGNED_TO_OTHER_RUN | CONTENT_MATCH
    | ENCOUNTER_NOT_IN_CATALOG | ENCOUNTER_NOT_IN_RUN_CONTENT | DIFFICULTY_MISMATCH

  datatype ReportFight = ReportFight(
    id: Id,
    encounterId: int,
    difficulty: Option<int>,
    startTime: int,
    friendlyPlayers: Option<seq<Id>>)

  datatype Content = Content(id: Id, raidId: Id)

  datatype Run = Run(
    runId: Id,
    difficulty: Difficulty,
    contents: seq<Content>,
    startedAtMs: Option<int>,
    completedAtMs: Option<int>,
    rosterKeys: set<Id>)

  /** What all evaluations of one report share. `actorKeys` maps actors with a server to identity keys. */
  datatype Context = Context(
    policy: Policy,
    reportStartMs: int,
    actorKeys: map<Id, Id>,
    raidByEncounter: map<int, Id>)

  datatype Assignment = Assignment(fight: Id, raidContentId: Option<Id>, status: Status, reasons: seq<Reason>)

  // ---------------------------------------------------------------------
  // Signals
  // ---------------------------------------------------------------------

  datatype Window = Window(fromMs: int, toMs: int, endKnown: bool)

  function RunActiveWindow(run: Run, policy: Policy): Option<Window> {
    if run.startedAtMs.None? then None
    else
      var tolerance := policy.toleranceSeconds * 1000;
      var end := run.completedAtMs.GetOr(run.startedAtMs.value + policy.openWindowMaxHours * 3600000);
      Some(Window(run.startedAtMs.value - tolerance, end + tolerance, run.completedAtMs.Some?))
  }

  predicate InWindow(w: Option<Window>, atMs: int) {
    w.Some? && w.value.fromMs <= atMs <= w.value.toMs
  }

  datatype ContentCheck = ContentCheck(ok: bool, raidContentId: Option<Id>, reason: Reason)

  function FindContent(contents: seq<Content>, raidId: Id): (c: Option<Content>)
    ensures c.Some? ==> c.value in contents && c.value.raidId == raidId
    ensures c.None? ==> forall x :: x in contents ==> x.raidId != raidId
  {
    if contents == [] then None
    else if contents[0].raidId == raidId then Some(contents[0])
    else FindContent(contents[1..], raidId)
  }

  function CheckContent(ctx: Context, fight: ReportFight, run: Run): ContentCheck {
    if fight.difficulty.Some? && fight.difficulty.value != run.difficulty.Wcl() then
      ContentCheck(false, None, DIFFICULTY_MISMATCH)
    else if fight.encounterId !in ctx.raidByEncounter then ContentCheck(true, None, ENCOUNTER_NOT_IN_CATALOG)
    else
      match FindContent(run.contents, ctx.raidByEncounter[fight.encounterId])
      case Some(c) => ContentCheck(true, Some(c.id), CONTENT_MATCH)
      case None => ContentCheck(false, None, ENCOUNTER_NOT_IN_RUN_CONTENT)
  }

  /** Identity keys of the fight's known players. */
  function PlayerKeys(ctx: Context, fight: ReportFight): Option<set<Id>> {
    if fight.friendlyPlayers.None? then None
    else Some(set p | p in fight.friendlyPlayers.value && p in ctx.actorKeys :: ctx.actorKeys[p])
  }

  /** How much of the Run's roster took part; unknown without players or without a roster. */
  datatype Overlap = Overlap(matched: nat, size: nat) {
    function Share(): real
      requires size > 0
    {
      matched as real / size as real
    }
  }

  function RosterOverlap(run: Run, players: Option<set<Id>>): (o: Option<Overlap>)
    ensures o.Some? ==> o.value.size > 0
  {
    if players.None? || |run.rosterKeys| == 0 then None
    else Some(Overlap(|run.rosterKeys * players.value|, |run.rosterKeys|))
  }

  method CountOverlap(run: Run, players: Option<set<Id>>) returns (o: Option<Overlap>)
    ensures o == RosterOverlap(run, players)
  {
    if players.None? || |run.rosterKeys| == 0 {
      return None;
    }
    var matched: nat := 0;
    var todo := run.rosterKeys;
    assert run.rosterKeys - todo == {};
    while todo != {}
      invariant todo <= run.rosterKeys
      invariant matched == |(run.rosterKeys - todo) * players.value|
      decreases todo
    {
      var key :| key in todo;
      ghost var seen := (run.rosterKeys - todo) * players.value;
      if key in players.value {
        matched := matched + 1;
      }
      assert (run.rosterKeys - (todo - {key})) * players.value
          == if key in players.value then seen + {key} else seen;
      todo := todo - {key};
    }
    assert run.rosterKeys - todo == run.rosterKeys;
    return Some(Overlap(matched, |run.rosterKeys|));
  }

  method CollectPlayerKeys(ctx: Context, fight: ReportFight) returns (keys: Option<set<Id>>)
    ensures keys == PlayerKeys(ctx, fight)
  {
    if fight.friendlyPlayers.None? {
      return None;
    }
    var players := fight.friendlyPlayers.value;
    var found: set<Id> := {};
    for i := 0 to |players|
      invariant found == set p | p in players[..i] && p in ctx.actorKeys :: ctx.actorKeys[p]
    {
      assert players[..i + 1] == players[..i] + [players[i]];
      assert forall p :: p in players[..i + 1] <==> p in players[..i] || p == players[i];
      if players[i] in ctx.actorKeys {
        found := found + {ctx.actorKeys[players[i]]};
      }
    }
    assert players[..|players|] == players;
    return Some(found);
  }

  // ---------------------------------------------------------------------
  // The decision, stated declaratively
  // ---------------------------------------------------------------------

  function StartAt(ctx: Context, fight: ReportFight): int {
    ctx.reportStartMs + fight.startTime
  }

  /** The Run's window contains the fight and its content allows it. */
  predicate Contends(ctx: Context, fight: ReportFight, run: Run) {
    InWindow(RunActiveWindow(run, ctx.policy), StartAt(ctx, fight)) && CheckContent(ctx, fight, run).ok
  }

  /** The Run's roster is large and known enough to compare. */
  predicate RosterKnown(ctx: Context, fight: ReportFight, run: Run) {
    RosterOverlap(run, PlayerKeys(ctx, fight)).Some? && |run.rosterKeys| >= ctx.policy.rosterMinKnown
  }

  function ShareOf(ctx: Context, fight: ReportFight, run: Run): real {
    match RosterOverlap(run, PlayerKeys(ctx, fight))
    case Some(o) => o.Share()
    case None => 0.0
  }

  /** `run` beats `rival`: enough of its own roster, and clearly more than the rival's. */
  predicate Beats(ctx: Context, fight: ReportFight, run: Run, rival: Run) {
    && ShareOf(ctx, fight, run) >= ctx.policy.rosterWinMinShare
    && ShareOf(ctx, fight, run) - ShareOf(ctx, fight, rival) >= ctx.policy.rosterWinMargin
  }

  /** Another Run that also contends for the fight. */
  predicate IsRival(ctx: Context, fight: ReportFight, target: Run, other: Run) {
    other.runId != target.runId && Contends(ctx, fight, other)
  }

  ghost predicate HasRival(ctx: Context, fight: ReportFight, target: Run, others: seq<Run>) {
    exists r :: r in others && IsRival(ctx, fight, target, r)
  }

  ghost predicate AllKnown(ctx: Context, fight: ReportFight, target: Run, others: seq<Run>) {
    RosterKnown(ctx, fight, target)
    && forall r :: r in others && IsRival(ctx, fight, target, r) ==> RosterKnown(ctx, fight, r)
  }

  ghost predicate BeatsAll(ctx: Context, fight: ReportFight, target: Run, others: seq<Run>) {
    forall r :: r in others && IsRival(ctx, fight, target, r) ==> Beats(ctx, fight, target, r)
  }

  ghost predicate BeatenBySome(ctx: Context, fight: ReportFight, target: Run, others: seq<Run>) {
    exists r :: r in others && IsRival(ctx, fight, target, r) && Beats(ctx, fight, r, target)
  }

  predicate BarelyPresent(ctx: Context, fight: ReportFight, run: Run) {
    RosterKnown(ctx, fight, run) && ShareOf(ctx, fight, run) < ctx.policy.rosterLowShare
  }

  /** The evidence assigns the fight to the target. */
  ghost predicate Won(ctx: Context, fight: ReportFight, target: Run, others: seq<Run>) {
    && Contends(ctx, fight, target)
    && if HasRival(ctx, fight, target, others)
       then AllKnown(ctx, fight, target, others) && BeatsAll(ctx, fight, target, others)
       else target.completedAtMs.Some? && !BarelyPresent(ctx, fight, target)
  }

  /** The evidence gives the fight to somebody else. */
  ghost predicate Lost(ctx: Context, fight: ReportFight, target: Run, others: seq<Run>) {
    && HasRival(ctx, fight, target, others) && AllKnown(ctx, fight, target, others)
    && !BeatsAll(ctx, fight, target, others) && BeatenBySome(ctx, fight, target, others)
  }

  /** The fight concerns the target: inside its window, or reviewable because it has no window. */
  predicate Relevant(ctx: Context, fight: ReportFight, target: Run) {
    && fight.encounterId > 0
    && var window := RunActiveWindow(target, ctx.policy);
       if window.None? then CheckContent(ctx, fight, target).ok else InWindow(window, StartAt(ctx, fight))
  }

  /** A result of the evaluation: what its status means. */
  ghost predicate DecisionOk(ctx: Context, fight: ReportFight, target: Run, others: seq<Run>, owner: Option<Id>,
                             a: Assignment)
  {
    && a.fight == fight.id
    && a.raidContentId == CheckContent(ctx, fight, target).raidContentId
    && (a.status == ASSIGNED <==> Won(ctx, fight, target, others) && (owner == None || owner == Some(target.runId)))
    && (a.status == IGNORED <==>
          target.startedAtMs.Some? && (!CheckContent(ctx, fight, target).ok || Lost(ctx, fight, target, others)))
    && (ASSIGNED_TO_OTHER_RUN in a.reasons <==>
          Won(ctx, fight, target, others) && owner.Some? && owner != Some(target.runId))
  }

  method Rivals(ctx: Context, fight: ReportFight, target: Run, others: seq<Run>) returns (rivals: seq<Run>)
    ensures forall r :: r in rivals <==> r in others && IsRival(ctx, fight, target, r)
  {
    rivals := [];
    for i := 0 to |others|
      invariant forall r :: r in rivals <==> r in others[..i] && IsRival(ctx, fight, target, r)
    {
      assert forall r :: r in others[..i + 1] <==> r in others[..i] || r == others[i];
      if IsRival(ctx, fight, target, others[i]) {
        rivals := rivals + [others[i]];
      }
    }
    assert others[..|others|] == others;
  }

  /** The share a Run's roster has in a fight; zero when it cannot be compared. */
  method MeasureShare(ctx: Context, fight: ReportFight, run: Run) returns (share: real)
    ensures share == ShareOf(ctx, fight, run)
  {
    var players := CollectPlayerKeys(ctx, fight);
    var o := CountOverlap(run, players);
    share := match o case Some(counted) => counted.Share() case None => 0.0;
  }

  method BestShare(ctx: Context, fight: ReportFight, rivals: seq<Run>) returns (best: real)
    requires rivals != []
    ensures exists r :: r in rivals && ShareOf(ctx, fight, r) == best
    ensures forall r :: r in rivals ==> ShareOf(ctx, fight, r) <= best
  {
    hide ShareOf;
    best := MeasureShare(ctx, fight, rivals[0]);
    for i := 1 to |rivals|
      invariant exists r :: r in rivals && ShareOf(ctx, fight, r) == best
      invariant forall k :: 0 <= k < i ==> ShareOf(ctx, fight, rivals[k]) <= best
    {
      var share := MeasureShare(ctx, fight, rivals[i]);
      assert rivals[i] in rivals;
      if share > best {
        best := share;
      }
    }
  }

  /** Status and reasons among several contending Runs. */
  method CompareRosters(ctx: Context, fight: ReportFight, target: Run, others: seq<Run>, rivals: seq<Run>)
    returns (status: Status, reason: seq<Reason>)
    requires rivals != [] && forall r :: r in rivals <==> r in others && IsRival(ctx, fight, target, r)
    ensures status == ASSIGNED <==> AllKnown(ctx, fight, target, others) && BeatsAll(ctx, fight, target, others)
    ensures status == IGNORED <==> Lost(ctx, fight, target, others)
    ensures ASSIGNED_TO_OTHER_RUN !in reason
  {
    var known := RosterKnown(ctx, fight, target) && forall r :: r in rivals ==> RosterKnown(ctx, fight, r);
    var best := BestShare(ctx, fight, rivals);
    var share := MeasureShare(ctx, fight, target);
    assert rivals[0] in rivals;
    if known && share >= ctx.policy.rosterWinMinShare && share - best >= ctx.policy.rosterWinMargin {
      assert BeatsAll(ctx, fight, target, others);
      return ASSIGNED, [ROSTER_RESOLVED];
    }
    assert known ==> !BeatsAll(ctx, fight, target, others) by {
      var r :| r in rivals && ShareOf(ctx, fight, r) == best;
    }
    if known && exists r :: r in rivals && Beats(ctx, fight, r, target) {
      return IGNORED, [BELONGS_TO_OTHER_RUN];
    }
    return NEEDS_REVIEW, [];
  }

  method DecideFight(ctx: Context, fight: ReportFight, target: Run, others: seq<Run>, owner: Option<Id>)
    returns (a: Option<Assignment>)
    ensures a.Some? <==> Relevant(ctx, fight, target)
    ensures a.Some? ==> DecisionOk(ctx, fight, target, others, owner, a.value)
  {
    if fight.encounterId <= 0 {
      return None;
    }
    var content := CheckContent(ctx, fight, target);
    var window := RunActiveWindow(target, ctx.policy);
    if window.None? {
      if content.ok {
        return Some(Assignment(fight.id, content.raidContentId, NEEDS_REVIEW, [RUN_WINDOW_UNKNOWN, content.reason]));
      }
      return None;
    }
    if !InWindow(window, StartAt(ctx, fight)) {
      return None;
    }
    if !content.ok {
      return Some(Assignment(fight.id, content.raidContentId, IGNORED, [TIME_MATCH, content.reason]));
    }
    var status, reasons := DecideContended(ctx, fight, target, others, window.value);
    reasons := [TIME_MATCH, content.reason] + reasons;
    if status == ASSIGNED && owner.Some? && owner != Some(target.runId) {
      status, reasons := NEEDS_REVIEW, reasons + [ASSIGNED_TO_OTHER_RUN];
    }
    return Some(Assignment(fight.id, content.raidContentId, status, reasons));
  }

  method DecideContended(ctx: Context, fight: ReportFight, target: Run, others: seq<Run>, window: Window)
    returns (status: Status, reasons: seq<Reason>)
    requires Contends(ctx, fight, target) && RunActiveWindow(target, ctx.policy) == Some(window)
    ensures status == ASSIGNED <==> Won(ctx, fight, target, others)
    ensures status == IGNORED <==> Lost(ctx, fight, target, others)
    ensures ASSIGNED_TO_OTHER_RUN !in reasons
  {
    var rivals := Rivals(ctx, fight, target, others);
    if rivals != [] {
      assert IsRival(ctx, fight, target, rivals[0]) && rivals[0] in rivals;
      var more;
      status, more := CompareRosters(ctx, fight, target, others, rivals);
      return status, [MULTIPLE_RUN_WINDOWS] + more;
    }
    if !window.endKnown {
      return NEEDS_REVIEW, [RUN_END_UNKNOWN];
    }
    if BarelyPresent(ctx, fight, target) {
      return NEEDS_REVIEW, [LOW_ROSTER_OVERLAP];
    }
    return ASSIGNED, [];
  }

  predicate EarlierFight(a: ReportFight, b: ReportFight) {
    a.startTime <= b.startTime
  }

  function RelevantFights(ctx: Context, fights: seq<ReportFight>, target: Run): seq<ReportFight> {
    if fights == [] then []
    else
      var n := |fights| - 1;
      RelevantFights(ctx, fights[..n], target) + if Relevant(ctx, fights[n], target) then [fights[n]] else []
  }

  function OwnerOf(assignedElsewhere: map<Id, Id>, fight: ReportFight): Option<Id> {
    if fight.id in assignedElsewhere then Some(assignedElsewhere[fight.id]) else None
  }

  /** `results` decide the relevant fights of a report for one Run, in start order. */
  ghost predicate ReportOk(ctx: Context, fights: seq<ReportFight>, target: Run, others: seq<Run>,
                           assignedElsewhere: map<Id, Id>, results: seq<Assignment>)
  {
    var relevant := RelevantFights(ctx, SortBy(fights, EarlierFight), target);
    && |results| == |relevant|
    && forall i :: 0 <= i < |results| ==>
         DecisionOk(ctx, relevant[i], target, others, OwnerOf(assignedElsewhere, relevant[i]), results[i])
  }

  /** One result per relevant fight, in start order. */
  method AssignReportFights(ctx: Context, fights: seq<ReportFight>, target: Run, others: seq<Run>,
                            assignedElsewhere: map<Id, Id>)
    returns (results: seq<Assignment>)
    ensures ReportOk(ctx, fights, target, others, assignedElsewhere, results)
  {
    hide DecisionOk, Relevant;
    var sorted := SortBy(fights, EarlierFight);
    results := [];
    for i := 0 to |sorted|
      invariant var relevant := RelevantFights(ctx, sorted[..i], target);
                && |results| == |relevant|
                && forall k :: 0 <= k < |results| ==>
                     DecisionOk(ctx, relevant[k], target, others, OwnerOf(assignedElsewhere, relevant[k]), results[k])
    {
      assert sorted[..i + 1][..i] == sorted[..i];
      var a := DecideFight(ctx, sorted[i], target, others, OwnerOf(assignedElsewhere, sorted[i]));
      if a.Some? {
        results := results + [a.value];
      }
    }
    assert sorted[..|sorted|] == sorted;
  }

  // ---------------------------------------------------------------------
  // Exclusivity
  // ---------------------------------------------------------------------

  ghost predicate DistinctRuns(runs: seq<Run>) {
    forall i, j :: 0 <= i < j < |runs| ==> runs[i].runId != runs[j].runId
  }

  /** Evaluated once per Run with all Runs as candidates, no fight is won twice. */
  lemma FightWonOnce(ctx: Context, fight: ReportFight, runs: seq<Run>, i: nat, j: nat)
    requires DistinctRuns(runs) && i < |runs| && j < |runs| && i != j
    requires ctx.policy.rosterWinMargin > 0.0 || ctx.policy.rosterWinMinShare > 1.0
    ensures !(Won(ctx, fight, runs[i], runs) && Won(ctx, fight, runs[j], runs))
  {
    var a, b := runs[i], runs[j];
    if Won(ctx, fight, a, runs) && Won(ctx, fight, b, runs) {
      assert a.runId != b.runId;
      assert a in runs && IsRival(ctx, fight, b, a);
      assert b in runs && IsRival(ctx, fight, a, b);
      assert Beats(ctx, fight, a, b) && Beats(ctx, fight, b, a);
      ShareAtMostOne(ctx, fight, a);
      assert false;
    }
  }

  lemma ShareAtMostOne(ctx: Context, fight: ReportFight, run: Run)
    ensures 0.0 <= ShareOf(ctx, fight, run) <= 1.0
  {
    var players := PlayerKeys(ctx, fight);
    if RosterOverlap(run, players).Some? {
      var o := RosterOverlap(run, players).value;
      assert run.rosterKeys == run.rosterKeys * players.value + (run.rosterKeys - players.value);
      assert o.matched <= o.size;
      DivideAtMostOne(o.matched, o.size);
    }
  }

  lemma DivideAtMostOne(a: nat, b: nat)
    requires a <= b && b > 0
    ensures 0.0 <= a as real / b as real <= 1.0
  {
  }

  /** The same for the persisted results: at most one Run gets the fight ASSIGNED, whatever is assigned elsewhere. */
  lemma FightAssignedOnce(ctx: Context, fight: ReportFight, runs: seq<Run>, i: nat, j: nat,
                          ownerI: Option<Id>, ownerJ: Option<Id>, resultI: Assignment, resultJ: Assignment)
    requires DistinctRuns(runs) && i < |runs| && j < |runs| && i != j
    requires ctx.policy.rosterWinMargin > 0.0 || ctx.policy.rosterWinMinShare > 1.0
    requires DecisionOk(ctx, fight, runs[i], runs, ownerI, resultI)
    requires DecisionOk(ctx, fight, runs[j], runs, ownerJ, resultJ)
    ensures !(resultI.status == ASSIGNED && resultJ.status == ASSIGNED)
  {
    FightWonOnce(ctx, fight, runs, i, j);
  }

  lemma {:induction false} RelevantIn(ctx: Context, fights: seq<ReportFight>, target: Run)
    ensures forall f :: f in RelevantFights(ctx, fights, target) ==> f in fights
  {
    if fights != [] {
      RelevantIn(ctx, fights[..|fights| - 1], target);
    }
  }

  ghost predicate DistinctFightIds(fights: seq<ReportFight>) {
    forall f, g :: f in fights && g in fights && f.id == g.id ==> f == g
  }

  /** What the result at `p` decides: a fight of the report. */
  lemma ResultDecides(ctx: Context, fights: seq<ReportFight>, target: Run, others: seq<Run>,
                      elsewhere: map<Id, Id>, results: seq<Assignment>, p: nat) returns (f: ReportFight)
    requires ReportOk(ctx, fights, target, others, elsewhere, results) && p < |results|
    ensures f in fights && f.id == results[p].fight
    ensures DecisionOk(ctx, f, target, others, OwnerOf(elsewhere, f), results[p])
  {
    hide SortBy, Relevant;
    var sorted := SortBy(fights, EarlierFight);
    SortPermutes(fights, EarlierFight);
    RelevantIn(ctx, sorted, target);
    f := RelevantFights(ctx, sorted, target)[p];
    assert f in RelevantFights(ctx, sorted, target);
  }

  /** One report evaluated for every Run under the program's own policy: no fight is assigned to two of them. */
  lemma ReportAssignedOnce(ctx: Context, fights: seq<ReportFight>, runs: seq<Run>, elsewhere: seq<map<Id, Id>>,
                           results: seq<seq<Assignment>>)
    requires ctx.policy == FIGHT_ASSIGNMENT_POLICY && DistinctRuns(runs) && DistinctFightIds(fights)
    requires |elsewhere| == |results| == |runs|
    requires forall k :: 0 <= k < |runs| ==> ReportOk(ctx, fights, runs[k], runs, elsewhere[k], results[k])
    ensures forall i, j, p, q ::
              (0 <= i < j < |runs| && 0 <= p < |results[i]| && 0 <= q < |results[j]|
               && results[i][p].status == ASSIGNED && results[j][q].status == ASSIGNED)
              ==> results[i][p].fight != results[j][q].fight
  {
    hide ReportOk, DecisionOk;
    forall i, j, p, q | 0 <= i < j < |runs| && 0 <= p < |results[i]| && 0 <= q < |results[j]|
      ensures !(results[i][p].status == ASSIGNED && results[j][q].status == ASSIGNED
                && results[i][p].fight == results[j][q].fight)
    {
      var f := ResultDecides(ctx, fights, runs[i], runs, elsewhere[i], results[i], p);
      var g := ResultDecides(ctx, fights, runs[j], runs, elsewhere[j], results[j], q);
      if f == g {
        FightAssignedOnce(ctx, f, runs, i, j, OwnerOf(elsewhere[i], f), OwnerOf(elsewhere[j], f), results[i][p], results[j][q]);
      }
    }
  }

  /** When one of several contenders wins by roster, every other contender sees the fight as lost. */
  lemma OthersLoseToTheWinner(ctx: Context, fight: ReportFight, runs: seq<Run>, i: nat, j: nat)
    requires DistinctRuns(runs) && i < |runs| && j < |runs| && i != j
    requires ctx.policy.rosterWinMargin > 0.0
    requires Won(ctx, fight, runs[i], runs) && Contends(ctx, fight, runs[j])
    ensures Lost(ctx, fight, runs[j], runs)
  {
    var a, b := runs[i], runs[j];
    assert a.runId != b.runId;
    assert a in runs && IsRival(ctx, fight, b, a);
    assert b in runs && IsRival(ctx, fight, a, b);
    assert HasRival(ctx, fight, a, runs) && HasRival(ctx, fight, b, runs);
    assert Beats(ctx, fight, a, b);
    forall r | r in runs && IsRival(ctx, fight, b, r) ensures RosterKnown(ctx, fight, r) {
      if r != a {
        var k :| 0 <= k < |runs| && runs[k] == r;
        assert r.runId != a.runId;
        assert IsRival(ctx, fight, a, r);
      }
    }
    FightWonOnce(ctx, fight, runs, i, j);
  }

  // ---------------------------------------------------------------------
  // The margin is what makes it exclusive
  // ---------------------------------------------------------------------

  ghost function Roster(n: nat): (keys: set<Id>)
    ensures |keys| == n && forall k :: k in keys <==> 0 <= k.rank < n
  {
    if n == 0 then {} else Roster(n - 1) + {Id(n - 1)}
  }

  ghost function Players(n: nat): (players: seq<Id>)
    ensures forall k :: k in players <==> 0 <= k.rank < n
  {
    if n == 0 then [] else Players(n - 1) + [Id(n - 1)]
  }

  /** A fight whose players are exactly the first `n` ids. */
  ghost function TieContext(policy: Policy, n: nat): Context {
    Context(policy, 0, map k | k in Roster(n) :: k, map[])
  }

  ghost function TieFight(policy: Policy, n: nat): ReportFight {
    ReportFight(Id(0), 1, None, Abs(policy.toleranceSeconds) * 1000, Some(Players(n)))
  }

  ghost function TieRun(policy: Policy, n: nat, id: int): Run {
    Run(Id(id), NORMAL, [], Some(0), Some(2 * Abs(policy.toleranceSeconds) * 1000), Roster(n))
  }

  lemma TiePlayers(policy: Policy, n: nat)
    ensures PlayerKeys(TieContext(policy, n), TieFight(policy, n)) == Some(Roster(n))
  {
    var players := PlayerKeys(TieContext(policy, n), TieFight(policy, n)).value;
    forall k ensures k in Roster(n) <==> k in players {
      if k in Roster(n) {
        assert k in Players(n) && k in TieContext(policy, n).actorKeys;
      }
    }
    assert players == Roster(n);
  }

  lemma DivideBySelf(n: nat)
    requires n > 0
    ensures n as real / n as real == 1.0
  {
  }

  lemma TieShare(policy: Policy, n: nat, id: int)
    requires n > 0 && n >= policy.rosterMinKnown
    ensures RosterKnown(TieContext(policy, n), TieFight(policy, n), TieRun(policy, n, id))
    ensures ShareOf(TieContext(policy, n), TieFight(policy, n), TieRun(policy, n, id)) == 1.0
  {
    hide PlayerKeys, Players;
    TiePlayers(policy, n);
    assert Roster(n) * Roster(n) == Roster(n);
    DivideBySelf(n);
  }

  lemma TieWon(policy: Policy, n: nat, id: int, other: int)
    requires n > 0 && n >= policy.rosterMinKnown && id != other
    requires policy.rosterWinMargin <= 0.0 && policy.rosterWinMinShare <= 1.0
    ensures forall runs :: (forall r :: r in runs <==> r == TieRun(policy, n, id) || r == TieRun(policy, n, other)) ==>
              Won(TieContext(policy, n), TieFight(policy, n), TieRun(policy, n, id), runs)
  {
    TieShare(policy, n, id);
    TieShare(policy, n, other);
    assert IsRival(TieContext(policy, n), TieFight(policy, n), TieRun(policy, n, id), TieRun(policy, n, other));
  }

  /** Under every policy without a positive margin (or an unreachable share) two Runs can win one fight. */
  lemma MarginIsNecessary(policy: Policy)
    requires policy.rosterWinMargin <= 0.0 && policy.rosterWinMinShare <= 1.0
    ensures exists ctx: Context, fight: ReportFight, runs: seq<Run> ::
              && ctx.policy == policy && DistinctRuns(runs) && |runs| == 2
              && Won(ctx, fight, runs[0], runs) && Won(ctx, fight, runs[1], runs)
  {
    hide Won;
    var n: nat := Max(1, policy.rosterMinKnown);
    var runs := [TieRun(policy, n, 1), TieRun(policy, n, 2)];
    TieWon(policy, n, 1, 2);
    TieWon(policy, n, 2, 1);
    assert Won(TieContext(policy, n), TieFight(policy, n), runs[0], runs);
    assert Won(TieContext(policy, n), TieFight(policy, n), runs[1], runs);
    assert DistinctRuns(runs);
  }
}
