/**
 * What the fight assignment decides under the program's own policy, in terms of
 * times, report players and rosters.
 */
module FightEvidence {
  import opened Prelude
  import opened FightAssignment

  function AtMs(ctx: Context, fight: ReportFight): int {
    ctx.reportStartMs + fight.startTime
  }

  /** No more than five minutes before the start or after the completion, or eight hours after the start of an open Run. */
  predicate InTime(run: Run, atMs: int) {
    match run.startedAtMs
    case None => false
    case Some(start) =>
      && start - 300_000 <= atMs
      && (match run.completedAtMs
          case Some(completed) => atMs <= completed + 300_000
          case None => atMs <= start + 28_800_000 + 300_000)
  }

  /** The Run has the fight's difficulty and, if the catalog knows the encounter, its raid. */
  ghost predicate InContent(ctx: Context, fight: ReportFight, run: Run) {
    && (fight.difficulty.Some? ==>
          fight.difficulty.value == match run.difficulty case NORMAL => 3 case HEROIC => 4 case MYTHIC => 5)
    && (fight.encounterId in ctx.raidByEncounter ==>
          exists c :: c in run.contents && c.raidId == ctx.raidByEncounter[fight.encounterId])
  }

  /** The roster members among the fight's identified players. */
  function Present(ctx: Context, fight: ReportFight, run: Run): set<Id> {
    set k | k in run.rosterKeys && Seen(ctx, fight, k)
  }

  predicate Seen(ctx: Context, fight: ReportFight, key: Id) {
    fight.friendlyPlayers.Some?
    && exists p :: p in fight.friendlyPlayers.value && p in ctx.actorKeys && ctx.actorKeys[p] == key
  }

  function PresentShare(ctx: Context, fight: ReportFight, run: Run): real
    requires run.rosterKeys != {}
  {
    |Present(ctx, fight, run)| as real / |run.rosterKeys| as real
  }

  predicate Known(fight: ReportFight, run: Run) {
    fight.friendlyPlayers.Some? && |run.rosterKeys| >= 3
  }

  /** At least half of the Run's roster is present, and three tenths more than of the rival's. */
  predicate ClearlyAhead(ctx: Context, fight: ReportFight, run: Run, rival: Run)
    requires run.rosterKeys != {} && rival.rosterKeys != {}
  {
    PresentShare(ctx, fight, run) >= 0.5 && PresentShare(ctx, fight, run) - PresentShare(ctx, fight, rival) >= 0.3
  }

  ghost predicate Competes(ctx: Context, fight: ReportFight, target: Run, other: Run) {
    other.runId != target.runId && InTime(other, AtMs(ctx, fight)) && InContent(ctx, fight, other)
  }

  ghost predicate HasCompetitor(ctx: Context, fight: ReportFight, target: Run, others: seq<Run>) {
    exists r :: r in others && Competes(ctx, fight, target, r)
  }

  /** The target is known well enough and clearly ahead of every other Run the fight could belong to. */
  ghost predicate AheadOfAll(ctx: Context, fight: ReportFight, target: Run, others: seq<Run>) {
    Known(fight, target)
    && forall r :: r in others && Competes(ctx, fight, target, r) ==>
                     Known(fight, r) && ClearlyAhead(ctx, fight, target, r)
  }

  // ---------------------------------------------------------------------
  // The evidence is read that way
  // ---------------------------------------------------------------------

  lemma ContentMeans(ctx: Context, fight: ReportFight, run: Run)
    ensures CheckContent(ctx, fight, run).ok <==> InContent(ctx, fight, run)
    ensures var content := CheckContent(ctx, fight, run).raidContentId;
            && (content.Some? <==> fight.encounterId in ctx.raidByEncounter && InContent(ctx, fight, run))
            && (content.Some? ==>
                  exists c :: c in run.contents && c.raidId == ctx.raidByEncounter[fight.encounterId] && c.id == content.value)
  {
  }

  /** A boss fight concerns a Run within its time, or with its content if the Run never recorded a start. */
  lemma RelevantMeans(ctx: Context, fight: ReportFight, run: Run)
    requires ctx.policy == FIGHT_ASSIGNMENT_POLICY
    ensures Relevant(ctx, fight, run) <==>
            fight.encounterId > 0
            && if run.startedAtMs.Some? then InTime(run, AtMs(ctx, fight)) else InContent(ctx, fight, run)
    ensures Contends(ctx, fight, run) <==> InTime(run, AtMs(ctx, fight)) && InContent(ctx, fight, run)
  {
    ContentMeans(ctx, fight, run);
    hide CheckContent, InContent;
  }

  lemma ShareMeans(ctx: Context, fight: ReportFight, run: Run)
    requires ctx.policy == FIGHT_ASSIGNMENT_POLICY
    ensures RosterKnown(ctx, fight, run) <==> Known(fight, run)
    ensures Known(fight, run) ==> run.rosterKeys != {} && ShareOf(ctx, fight, run) == PresentShare(ctx, fight, run)
  {
    if Known(fight, run) {
      var keys := PlayerKeys(ctx, fight).value;
      forall k ensures k in run.rosterKeys * keys <==> k in Present(ctx, fight, run) {
        assert k in keys <==> Seen(ctx, fight, k);
      }
      assert run.rosterKeys * keys == Present(ctx, fight, run);
    }
  }

  lemma RivalMeans(ctx: Context, fight: ReportFight, target: Run, other: Run)
    requires ctx.policy == FIGHT_ASSIGNMENT_POLICY
    ensures IsRival(ctx, fight, target, other) <==> Competes(ctx, fight, target, other)
  {
    RelevantMeans(ctx, fight, other);
    hide Contends, InTime, InContent;
  }

  /**
   * Under the program's policy a fight is won by a Run it fits in time and
   * content: contested, if the Run is clearly ahead of all its competitors;
   * else if the Run is over and not known to be hardly present.
   */
  lemma WonMeans(ctx: Context, fight: ReportFight, target: Run, others: seq<Run>)
    requires ctx.policy == FIGHT_ASSIGNMENT_POLICY
    ensures Won(ctx, fight, target, others) <==>
            && InTime(target, AtMs(ctx, fight)) && InContent(ctx, fight, target)
            && if HasCompetitor(ctx, fight, target, others) then AheadOfAll(ctx, fight, target, others)
               else target.completedAtMs.Some? && !(Known(fight, target) && PresentShare(ctx, fight, target) < 0.25)
  {
    hide Contends, InTime, InContent, IsRival, Competes, RosterKnown, ShareOf, PresentShare, Known;
    RelevantMeans(ctx, fight, target);
    ShareMeans(ctx, fight, target);
    forall r
      ensures IsRival(ctx, fight, target, r) <==> Competes(ctx, fight, target, r)
      ensures RosterKnown(ctx, fight, r) <==> Known(fight, r)
      ensures Known(fight, r) ==> r.rosterKeys != {} && ShareOf(ctx, fight, r) == PresentShare(ctx, fight, r)
    {
      RivalMeans(ctx, fight, target, r);
      ShareMeans(ctx, fight, r);
    }
  }

  /** All Runs the fight could belong to are known well enough. */
  ghost predicate EverybodyKnown(ctx: Context, fight: ReportFight, target: Run, others: seq<Run>) {
    Known(fight, target) && forall r :: r in others && Competes(ctx, fight, target, r) ==> Known(fight, r)
  }

  /** It is lost if, with everybody known, some competitor is clearly ahead of the Run. */
  lemma LostMeans(ctx: Context, fight: ReportFight, target: Run, others: seq<Run>)
    requires ctx.policy == FIGHT_ASSIGNMENT_POLICY
    ensures Lost(ctx, fight, target, others) <==>
            && EverybodyKnown(ctx, fight, target, others)
            && exists r :: r in others && Competes(ctx, fight, target, r) && Known(fight, r) && Known(fight, target)
                           && ClearlyAhead(ctx, fight, r, target)
  {
    hide Contends, InTime, InContent, IsRival, Competes, RosterKnown, ShareOf, PresentShare, Known;
    ShareMeans(ctx, fight, target);
    forall r
      ensures IsRival(ctx, fight, target, r) <==> Competes(ctx, fight, target, r)
      ensures RosterKnown(ctx, fight, r) <==> Known(fight, r)
      ensures Known(fight, r) ==> r.rosterKeys != {} && ShareOf(ctx, fight, r) == PresentShare(ctx, fight, r)
    {
      RivalMeans(ctx, fight, target, r);
      ShareMeans(ctx, fight, r);
    }
  }
}
