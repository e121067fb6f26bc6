# BoostingHub: verified model of its planning and reconciliation core

BoostingHub builds raid rosters, keeps Discord channels and guides in step with
its database, and assigns Warcraft Logs fights to Runs. This project models the
parts of it whose correctness is decided by an algorithm or a protocol, and
proves what those parts promise. `dafny verify dfyconfig.toml` checks it all.

| modules | what they model |
|---|---|
| SlotMatching, RosterModel, RosterOptimizer, RosterPreference, RosterProposal | the roster optimizer: augmenting-path matching, greedy fill that keeps the maximum reachable, improvement swaps, and what they prefer |
| GuideModel, GuideVerify, GuideReplace | the crash-resumable guide replacement: publish, verify, retire, with a failure or crash possible around every call and every save |
| PullMatching, PullGroups, PullCopies | real pulls across reports: clock-offset matching, union-find, conflict splitting, copy ranking, staleness |
| FightAssignment, FightEvidence | assignment of one report's fights to Runs, and what its evidence means in times, players and rosters |
| SectionOrder, SectionPermutation, SectionFixpoint, SectionSettled, SectionPlacement, SectionPolling, SectionUnclean | the CURRENT / NEXT channel order and its settle loop |
| ReportScan | the cursor scanner for report links |
| VoicePool | the voice-channel pool |
| EmojiCache | the emoji snapshot cache |
| LocalTime, Chunking, WorkerPool | wall-clock conversion, embed chunking, the worker pool |
| Prelude, Sorting | options and ids; the stable sort and its laws |

The remote side is an adversary. Where a call may fail, the model lets it fail
with or without its effect; where processes may interleave, every schedule is
covered; a page of history and a category listing come back in any order.

Results that differ from what comments or documentation say:

- A locked Booster row without a role is dropped from the locked picks
  (`RosterProposal.LockedRowProtected` gives the exact condition), and its User
  counts as free (`RosterProposal.DroppedUserIsFree`). The calling service leaves
  the other signups of such Users out of the candidates.
- The planned order is a permutation of the channels exactly for clean listings
  (`SectionPermutation.PermutationIffClean`): no unmanaged channel level with a
  marker, no managed marker, no channel managed twice. Every poll that keeps
  seeing another listing writes again, and polling goes quiet exactly from clean
  listings (`SectionUnclean.UncleanPoll`, `SectionUnclean.QuietIffClean`). Such a
  poll reports success only if the planned order is a proper prefix of the live
  one, as when a channel is level with the next marker and listed last.
- The scanner is lossless from a cursor only: a first read without one skips
  everything older than the newest page (`ReportScan.OlderMessagesLost`).

Assumptions the results rest on:

- Fights are exclusive because the winning margin is positive; with any other
  margin and a reachable share two Runs can win (`FightAssignment.MarginIsNecessary`).
- The wall-clock search relies on there being one offset change at most among
  the instants it can reach, as real zones have it; with several, four attempts
  can miss (`LocalTime.MoreTransitionsCanMiss`).
- Polling goes quiet under the assumption that Discord applies a complete
  re-index of the category and ignores every other payload.

## Model

| member | source | states |
|---|---|---|
| SlotMatching.SlotSearch.Assign | src/domain/roster-builder-optimizer.ts:406-418 | The depth-first augmentation: success gives the User a slot, takes none from anyone already placed and leaves frozen buckets alone; failure changes no owner and leaves a closed set of explored slots all of whose owners are confined to it |
| SlotMatching.ExpandSlots | src/domain/roster-builder-optimizer.ts:400-403 | The slot list holds each bucket exactly as often as its capacity |
| SlotMatching.MaxBoosterSlotFill | src/domain/roster-builder-optimizer.ts:396-423 | The returned number is attained by a legal assignment of Users to slots and exceeded by none, although a User whose search failed is never tried again |
| SlotMatching.CertifiedIsMaximal | src/domain/roster-builder-optimizer.ts:390-395 | A legal assignment whose unplaced Users only fit frozen buckets, all full and owned by confined Users, is at least as large as every legal assignment |
| SlotMatching.MatchingIsMaximal | src/domain/roster-builder-optimizer.ts:396-423 | The assignment read off the owner array left by the whole search is legal, its size is the number of owned slots, and no legal assignment is larger |
| SlotMatching.FreezeMore | src/domain/roster-builder-optimizer.ts:419-422 | The buckets a failed search went through can be frozen: they are full, their owners fit no other bucket, and neither does the User whose search failed |
| SlotMatching.SearchedFound | src/domain/roster-builder-optimizer.ts:419-422 | A later successful search keeps the frozen buckets and the confined Users, so a User whose search failed needs no retry |
| SlotMatching.SlotUnused | src/domain/roster-builder-optimizer.ts:584-585 | If no User able to take a slot can take it without lowering the maximum, dropping the slot leaves the maximum unchanged |
| RosterModel.PickRoleForBucket | src/domain/roster-builder-optimizer.ts:170-196 | A role exists exactly when the candidate offers one for the bucket; it is an offered role of that bucket, preferred at least as much as every other offered one (generic DPS only without Melee and Ranged); between equally preferred Melee and Ranged the better known log percentage decides, Melee on ties |
| RosterOptimizer.OpenBoosterUsers | src/domain/roster-builder-optimizer.ts:372-388 | A User is open for a bucket exactly when some unused Booster signup of that User offers a role for it and the User has no Booster slot |
| RosterOptimizer.OpenUsersAfterPick | src/domain/roster-builder-optimizer.ts:574-577 | Deleting the picked User from the map equals recomputing it after the pick: all that User's signups become unusable, everyone else's stay |
| RosterOptimizer.FillingPicks | src/domain/roster-builder-optimizer.ts:569-596 | Committing a pick that keeps the maximum preserves: picks made plus reachable fill is the goal, and the reachable fill is the maximum matching of what is left |
| RosterOptimizer.FillingSkips | src/domain/roster-builder-optimizer.ts:569-585 | Leaving a slot open when no usable candidate keeps the maximum preserves the same invariant |
| RosterOptimizer.SwappedDraft | src/domain/roster-builder-optimizer.ts:634-659 | A swap within a bucket keeps distinct signups, one Booster slot per User also against locked Users, offered roles and every locked pick |
| RosterOptimizer.RecordedPickScoresAsTrial | src/domain/roster-builder-optimizer.ts:649-657 | The utilities and debug score recorded after a swap do not change the total that was compared |
| RosterOptimizer.ScoreBounded | src/domain/roster-builder-optimizer.ts:823-841 | Every roster of the same size scores at most one fixed ceiling computed from the input, so swaps cannot go on for ever |
| RosterProposal.KeepsMaximumFill | src/domain/roster-builder-optimizer.ts:503-509 | True exactly when one slot of the bucket to that User plus the maximum of the rest gives the whole reachable fill |
| RosterProposal.Options | src/domain/roster-builder-optimizer.ts:545-564 | Exactly the usable candidates of the bucket, scored, best first with ties in candidate order |
| RosterProposal.BestBooster | src/domain/roster-builder-optimizer.ts:545-571 | The best-ranked usable candidate that keeps the maximum, none exactly when no usable candidate keeps it; no other keeper is better in one of logs, role preference, item level and new buffs and alike in the rest |
| RosterProposal.FillBoosterSlot | src/domain/roster-builder-optimizer.ts:519-597 | One slot filled with the best keeper or left open, keeping the goal in reach; no other keeper is better in one of logs, role preference, item level and new buffs and alike in the rest |
| RosterProposal.FillLootbuddies | src/domain/roster-builder-optimizer.ts:512-597 | Lootbuddy slots are filled until the slots or the Lootbuddy signups run out; Booster slots are not touched |
| RosterProposal.FillLootbuddySlot | src/domain/roster-builder-optimizer.ts:545-568 | One Lootbuddy slot takes the best-ranked unused Lootbuddy signup, which no other is better than in one criterion and alike in the rest; it stays open exactly when none is left |
| RosterProposal.ImproveOnce | src/domain/roster-builder-optimizer.ts:600-664 | Applies the first gainful swap, picks and candidates in order, raising the soft score by more than 1e-9, or reports that no in-bucket replacement gains |
| RosterProposal.Improve | src/domain/roster-builder-optimizer.ts:598-665 | Terminates with a draft over the same slots and locked picks in which no single in-bucket replacement improves the score |
| RosterProposal.FillAll | src/domain/roster-builder-optimizer.ts:454-597 | Seeding and greedy fill reach the maximum number of Booster slots any legal choice of signups can fill |
| RosterProposal.MaximumIsAttained | src/domain/roster-builder-optimizer.ts:425-448 | The Booster picks themselves form a legal choice of that size: the maximum is attained, not only bounded |
| RosterProposal.OptimizeRosterProposal | src/domain/roster-builder-optimizer.ts:449-665 | The whole proposal: a legal roster on the untouched locked picks within the shortages, with the most Booster slots any legal choice can fill and Lootbuddies as far as there are signups; no free signup that could take a pick's place has better logs, a better role preference, a higher item level or a buff nobody else covers while alike in the rest, beyond the 1e-9 of the swap rule |
| RosterPreference.LocallyOptimalPrefers | src/domain/roster-builder-optimizer.ts:600-665 | With no improving swap left no pick is beaten by a free signup that is better in one criterion and alike in the others, read off logs, roles, item level, class and the catalog |
| RosterPreference.OptionNotBeaten | src/domain/roster-builder-optimizer.ts:545-564 | The higher-scoring of two options for an open slot is not beaten by the other in one criterion while alike in the rest |
| RosterPreference.StrongerLogsScore | src/domain/roster-builder-optimizer.ts:275-290 | With the same roles stronger logs, or first logs where there were none, raise the individual score by their gain times the role's weight, also if they change the role |
| RosterPreference.CoversMore | src/domain/roster-builder-optimizer.ts:823-841 | Replacing a pick whose class brings nothing new by one bringing a buff the others lack covers at least one buff more |
| RosterProposal.ShortageRemaining | src/domain/roster-builder-optimizer.ts:334-362 | What is missing per bucket, counting only the new picks and never below zero |
| RosterProposal.LockedRowProtected | src/domain/roster-builder-optimizer.ts:455-470 | A locked row keeps its place and its signup exactly when its role maps to a bucket, and a Booster row its User likewise unless another row of that User does; a Booster row without a role is dropped, against the comment that locked picks are never replaced |
| RosterProposal.DroppedUserIsFree | src/domain/roster-builder-optimizer.ts:437-487 | The User of such a dropped row counts as free: every other fitting signup of the User may be picked, against the comment that their Users are never reused |
| GuideVerify.ClassifyChannel | src/guides/guide-replace.ts:285-314 | Problems are reported exactly when a message is not a recognised card of ours; otherwise each card's messages are collected in order |
| GuideVerify.PlanGuideReplacement | src/guides/guide-replace.ts:317-334 | Errors exactly when a message is unrecognised or a card is shown twice; otherwise every message is an old one, oldest first |
| GuideVerify.VerifyGuideReplacement | src/guides/guide-replace.ts:377-453 | No errors exactly when the channel is the saved one: only saved ids, old ones intact except the one being deleted, each card's new message correct, in card order and below the old ones |
| GuideVerify.VerifyOkMeans | src/guides/guide-replace.ts:377-453 | Verification passes if and only if the channel is the saved one, read off its messages and the state file |
| GuideReplace.TrackedVerifies | src/guides/guide-replace.ts:377-453 | Every tracked world whose cards are all created passes verification, with up to one deletion not yet saved |
| GuideReplace.PlaceCard | src/guides/guide-replace.ts:569-606 | Keeps, adopts or creates one card's message and leaves a world in which that card counts, whatever fails or crashes in between |
| GuideReplace.AdoptCard | src/guides/guide-replace.ts:582-589 | A message whose create call was never answered is saved as the card's new message and nothing is created |
| GuideReplace.CreateCard | src/guides/guide-replace.ts:590-606 | Around the pending mark, the create call and its save, every crash point leaves either no message or one adoptable message |
| GuideReplace.PublishGuideReplacement | src/guides/guide-replace.ts:507-626 | Deletes nothing, only appends to the channel and keeps the safety invariant under any failure; success, under any failure and from any channel, means this replacement is published, and freshly verified if it was not before; a refusal writes nothing; undisturbed it ends verified |
| GuideReplace.DeleteOld | src/guides/guide-replace.ts:654-667 | Marks one saved old id in the file before its delete call; a crash in between leaves exactly the one missing message that verification tolerates |
| GuideReplace.RetireOldGuideMessages | src/guides/guide-replace.ts:632-700 | Without any assumption on the channel: creates nothing, removes only saved old messages that are no new id, and only after the full new set verified; success means the phase is done, and unless it already was, that the channel was verified without the old messages; keeps the invariant, and undisturbed ends in done |
| GuideReplace.AnyHistory | src/guides/guide-replace.ts:502-700 | Any sequence of publish and retire runs, each failing or crashing anywhere, keeps the safety invariant |
| GuideReplace.Resume | src/guides/guide-replace.ts:502-700 | From every safe crashed state one undisturbed publish and retire end in done with exactly one message per card in card order |
| GuideReplace.OneNewMessagePerCard | src/guides/guide-replace.ts:558-607 | Over every history no card is created twice, and only cards of the guide are created |
| GuideReplace.OnlyOldIdsDeleted | src/guides/guide-replace.ts:640-684 | Over every history only ids saved as old are deleted, never a new one |
| GuideReplace.AlwaysAWholeGuide | src/guides/guide-replace.ts:628-684 | In every reachable state the channel holds every message saved as old, or the complete new guide |
| GuideReplace.DoneMeansComplete | src/guides/guide-replace.ts:684-690 | In phase done the channel is exactly the cards, in order |
| PullMatching.BestOffset | src/domain/wcl-report-overlap.ts:75-82 | The offset chosen is a candidate's delta with the largest support and, among those, the smallest absolute value, first come first |
| PullMatching.TakeClosest | src/domain/wcl-report-overlap.ts:89-98 | A one-to-one matching of candidates within tolerance of the offset, maximal (each agreeing pair left out shares a fight with one taken), starting with the closest pair |
| PullMatching.MatchReportPair | src/domain/wcl-report-overlap.ts:63-99 | The matching of two reports: candidates only, one-to-one, around the best offset; complete with two supporting pairs or more; a lone pair, the first with that offset, is matched if and only if its two start times are closer than both fights are long |
| PullMatching.OnlyCandidate | src/domain/wcl-report-overlap.ts:83-87 | A candidate that is the only one of two reports is matched if and only if its start times are closer than both fights are long |
| PullMatching.MatchingWithinSupport | src/domain/wcl-report-overlap.ts:78-79 | A matching around an offset never has more pairs than that offset's support |
| PullMatching.FirstTaken | src/domain/wcl-report-overlap.ts:85-87 | The closest matching starts with the first pair that has exactly the chosen offset |
| PullGroups.PullForest.Find | src/domain/wcl-report-overlap.ts:110-115 | Terminates at the root of a key; path shortening changes no root |
| PullGroups.PullForest.Union | src/domain/wcl-report-overlap.ts:116-122 | Joins exactly the two components; the parent links stay acyclic |
| PullGroups.SameRootIffLinked | src/domain/wcl-report-overlap.ts:109-122 | Two fights have one root exactly when a path of matched pairs links them |
| PullGroups.ByReport | src/domain/wcl-report-overlap.ts:106-107 | The report codes sorted, each once, with exactly that report's fights in order |
| PullGroups.JoinReports | src/domain/wcl-report-overlap.ts:116-122 | The edges are exactly the pairs matched between any two reports, and the forest's roots are the components they form |
| PullGroups.GroupByRoot | src/domain/wcl-report-overlap.ts:124-125 | One group per root, each holding exactly that root's fights in input order |
| PullGroups.ConflictFound | src/domain/wcl-report-overlap.ts:127-130 | A component that holds a report twice is conflicted from whichever member one looks |
| PullGroups.LonePairLinked | src/domain/wcl-report-overlap.ts:116-122 | Such a lone pair of two reports is linked whatever the other reports hold |
| PullGroups.LonePairIsOnePull | src/domain/wcl-report-overlap.ts:124-131 | Its two fights are one pull, counted once, unless their component holds a report twice |
| PullGroups.SplitConflicts | src/domain/wcl-report-overlap.ts:126-131 | Conflict-free groups are kept whole, others are split into single fights; no fight is lost or repeated |
| PullGroups.GroupRealPulls | src/domain/wcl-report-overlap.ts:105-134 | A partition of the fights by the components of all pair matchings: whole conflict-free components and single fights of conflicted ones, by earliest start |
| PullCopies.RankCopiesCanonical | src/domain/wcl-report-overlap.ts:142-153 | The ranking of a pull's copies is the same for every order of the fights, the reports and the group |
| PullCopies.CanonicalCopyIsBest | src/domain/wcl-report-overlap.ts:136-153 | The first ranked copy belongs to the pull and identifies the most players; among those its report covers the most, among those it was linked no later, and among those its code comes first |
| PullCopies.SnapshotCoversRealPulls | src/domain/wcl-report-overlap.ts:170-180 | True exactly when every snapshot key belongs to a pull and every pull is hit exactly once |
| PullCopies.PartitionIsDisjoint | src/domain/wcl-report-overlap.ts:170-172 | The pulls of distinct fights are disjoint by key, so each key names one pull |
| FightAssignment.CountOverlap | src/domain/wcl-fight-assignment.ts:147-154 | The share counts exactly the identified players that are on the Run's roster |
| FightAssignment.CompareRosters | src/domain/wcl-fight-assignment.ts:226-254 | ASSIGNED exactly for a Run that beats every rival by the margin with a sufficient share, IGNORED exactly when some rival beats it so, review otherwise |
| FightEvidence.ContentMeans | src/domain/wcl-fight-assignment.ts:110-131 | Content fits exactly with the Run's difficulty and, for a known encounter, its raid, and then names the Run's content of that raid |
| FightEvidence.RelevantMeans | src/domain/wcl-fight-assignment.ts:101-108 | Under the program's policy a boss fight concerns a Run exactly from five minutes before its start to five minutes after its completion, or after the first eight hours of an open Run; without a recorded start, exactly when its content fits |
| FightEvidence.WonMeans | src/domain/wcl-fight-assignment.ts:185-254 | Won exactly when time and content fit and, if contested, all contenders have rosters of three or more to compare, half of the Run's is present, and three tenths more of it than of every competitor's; uncontested, when the Run is over and not known to be present by less than a quarter |
| FightEvidence.LostMeans | src/domain/wcl-fight-assignment.ts:243-253 | Lost exactly when, with everybody known well enough, some competitor is ahead of the Run by that share and margin |
| FightAssignment.DecideFight | src/domain/wcl-fight-assignment.ts:180-271 | One fight for one Run: dropped, ignored, to be reviewed or assigned exactly in the cases of the policy, and never assigned against an owner elsewhere |
| FightAssignment.AssignReportFights | src/domain/wcl-fight-assignment.ts:161-274 | One decision per relevant fight, in start order, relevant meaning a boss fight inside a known window or with matching content |
| FightAssignment.FightWonOnce | src/domain/wcl-fight-assignment.ts:231-242 | Evaluated once per Run with the others as rivals no fight is won by two Runs, if the margin is positive |
| FightAssignment.FightAssignedOnce | src/domain/wcl-fight-assignment.ts:161-274 | At most one Run gets the fight ASSIGNED, whatever the windows, contents, rosters and earlier assignments |
| FightAssignment.ReportAssignedOnce | src/domain/wcl-fight-assignment.ts:21-40 | Under the program's policy, with one report evaluated for every Run, no two results assign one fight to two Runs |
| FightAssignment.OthersLoseToTheWinner | src/domain/wcl-fight-assignment.ts:243-253 | When one contender wins, every other contender sees the fight as belonging to another Run |
| FightAssignment.MarginIsNecessary | src/domain/wcl-fight-assignment.ts:21-40 | Under every policy with margin at most zero and a reachable share two Runs can both win: the condition above is exact |
| SectionOrder.SortSectionByTime | src/discord-bot/channel-reconciliation.ts:309-328 | The loop computes the specification: timed managed and unmanaged channels by minute, rank and index, then the untimed ones |
| SectionOrder.PlanWeekSectionOrder | src/discord-bot/channel-reconciliation.ts:346-420 | The planner computes the planned and live orders of the specification, or is skipped without both markers in order |
| SectionPermutation.SectionPermutes | src/discord-bot/channel-reconciliation.ts:309-328 | A section shows its managed channels and its zone's unmanaged channels, each as often as it came in |
| SectionPermutation.ZonesPartition | src/discord-bot/channel-reconciliation.ts:374-393 | Every text channel is counted in exactly one of marker, managed, before, between, after and level with a marker |
| SectionPermutation.PermutationIffClean | src/discord-bot/channel-reconciliation.ts:374-402 | The planned order is a permutation of the live text channels if and only if no unmanaged channel is level with a marker, no marker is managed and no channel is managed twice |
| SectionFixpoint.SectionInTimeOrder | src/discord-bot/channel-reconciliation.ts:299-328 | Timed channels by minute, then the Runs' own first, then as listed, and after them the untimed ones; the minutes come from the items and the names |
| SectionFixpoint.SectionStable | src/discord-bot/channel-reconciliation.ts:299-328 | Sorting a section's own output again, with re-counted indices, gives the same section |
| SectionSettled.OrderSettles | src/discord-bot/channel-reconciliation.ts:346-420 | Planning from the applied order gives the same order |
| SectionSettled.PlanIsFixpoint | src/discord-bot/channel-reconciliation.ts:404-418 | After the planned positions are applied, in whatever listing order, planning again with the same items finds everything in order |
| SectionSettled.ZonesKept | src/discord-bot/channel-reconciliation.ts:374-402 | Unmanaged channels stay in their zone: unchanged before the markers, the same ones between and after, the untimed ones in their old order |
| SectionPlacement.PlanPlaces | src/discord-bot/channel-reconciliation.ts:374-402 | In the plan of a clean listing every CURRENT Run's channel stands strictly between the two markers and every NEXT Run's after the second, within both stretches timed channels stand by minute and Runs at one minute by start and id, and every other channel stays on its side of the markers |
| SectionPlacement.SectionTimes | src/discord-bot/channel-reconciliation.ts:299-328 | A section is in time order: timed channels first, by the minute of their Run or of their name, the Runs' own first at one minute and by start among themselves |
| SectionPlacement.PlannedIffMarkers | src/discord-bot/channel-reconciliation.ts:352-372 | A plan is made if and only if the category is set and lists both markers, the current one first |
| SectionPolling.ReconcileUntilSettled | src/discord-bot/channel-reconciliation.ts:559-642 | The retry loop computes the specification over the listings and answers of each attempt |
| SectionPolling.MovedNothingIffPrefix | src/discord-bot/channel-reconciliation.ts:404-408 | `moved` is zero if and only if the planned order is a prefix of the live one |
| SectionPolling.MovedNothingIffInOrder | src/discord-bot/channel-reconciliation.ts:404-408 | For a permutation `moved` is zero if and only if the channels are in order |
| SectionPolling.VerifiedRestsOnListing | src/discord-bot/channel-reconciliation.ts:576-642 | A verified outcome rests on a listing that was read and whose planned order is a prefix of its live order; without it all attempts were used |
| SectionPolling.VerifiedMeansInOrder | src/discord-bot/channel-reconciliation.ts:590-630 | On clean listings verified means that the listing was in order |
| SectionPolling.WritesBounded | src/discord-bot/channel-reconciliation.ts:576-585 | At most one write per attempt |
| SectionPolling.FirstDecides | src/discord-bot/channel-reconciliation.ts:576-642 | The loop goes on exactly while the fresh listing cannot be read or is out of order, ends with the first attempt that can tell, skipped exactly if a listing cannot be planned or the write fails, and writes in exactly the attempts whose listing was out of order |
| SectionPolling.OnePollSettles | src/discord-bot/channel-reconciliation.ts:512-534 | A poll of clean channels with a faithful write settles in one attempt, writing once or not at all, and leaves the channels in order |
| SectionPolling.InOrderNeverWrites | src/discord-bot/channel-reconciliation.ts:514-522 | While the listings are in order no poll writes |
| SectionUnclean.InOrderMeansClean | src/discord-bot/channel-reconciliation.ts:404-406 | A listing whose channels are in order is clean, so no poll of any other listing is free of writes |
| SectionUnclean.UncleanPoll | src/discord-bot/channel-reconciliation.ts:514-534 | A poll that keeps seeing a listing that is not clean always writes; it reports success although the channels are out of order if and only if the planned order is a proper prefix of the live one and some attempt skips the out-of-band refresh, and zero moved if and only if that prefix holds |
| SectionUnclean.QuietIffClean | src/discord-bot/channel-reconciliation.ts:201-211 | With complete payloads applied and others ignored, every later poll finds the channels in order if and only if the first listing was clean |
| SectionUnclean.TiedListing | src/discord-bot/channel-reconciliation.ts:382-393 | A channel level with the next marker, listed after it: not clean, and the planned order is a proper prefix of the live one |
| ReportScan.FirstOccurrences | src/discord-bot/warcraft-logs-links.ts:60-74 | Each report code of a message once |
| ReportScan.ScanMessage | src/discord-bot/warcraft-logs-links.ts:145-182 | Every trusted link of the message is sent, and told apart as delivered, given up or to retry; the scan stops at a retry unless told to continue |
| ReportScan.SortedPage | src/discord-bot/warcraft-logs-links.ts:139 | Sorting a page in any order restores the history order |
| ReportScan.ScanChannelFromCursor | src/discord-bot/warcraft-logs-links.ts:121-194 | From a cursor: it never moves back, all trusted links it passed are delivered or given up, the message after it holds the retry when blocked, and an unblocked end leaves nothing visible behind; at the page limit whole pages were read |
| ReportScan.HorizonIsPassed | src/discord-bot/warcraft-logs-links.ts:174-177 | With a retry horizon no older message holds the cursor: in a blocked scan all of them lie behind it, in a scan that reached the end all those seen do |
| ReportScan.ScanNewestPage | src/discord-bot/warcraft-logs-links.ts:187-188 | Without a cursor only the newest page is read; unblocked, its last message becomes the cursor |
| ReportScan.OlderMessagesLost | src/discord-bot/warcraft-logs-links.ts:111-115 | A message older than that newest page is sent neither then nor by any scan from the cursor obtained: the lossless guarantee needs a cursor |
| ReportScan.ScanPasses | src/discord-bot/warcraft-logs-links.ts:296-333 | Over any number of passes, with throws, crashes and failed saves, the durable cursor never moves back and every trusted link at or below it was delivered or given up; it moves to a scan's cursor exactly when that scan ended and its save worked, and everything the scan sent stays in the log |
| ReportScan.RetireChannel | src/discord-bot/warcraft-logs-links.ts:234-281 | A retiring channel is released by the first final scan that is complete or comes thirty minutes or more after the first one, and by no other; a complete one has handled everything it could see |
| ReportScan.HandledMeans | src/discord-bot/warcraft-logs-links.ts:145-182 | Of a handled message each code a trusted author mentioned was taken or refused for good by the server, or the message is older than the retry horizon |
| ReportScan.RetriedMeans | src/discord-bot/warcraft-logs-links.ts:160-182 | A message is retried only if its author is trusted, it is not older than the horizon, and the server settled some code of it neither way |
| VoicePool.Reconcile | src/discord-bot/voice-channels.ts:167-207 | Clears and asks for a new channel only when the channel is confirmed gone; never renames a pool channel |
| VoicePool.ReleasePooled | src/discord-bot/voice-channels.ts:210-217 | Releases without deleting; a failed clear shows nothing |
| VoicePool.RetireIfEmpty | src/discord-bot/voice-channels.ts:219-257 | Deletes only an empty temporary channel and clears only after it is gone |
| VoicePool.AssignFromPool | src/discord-bot/voice-channels.ts:133-164 | Handled exactly when some pool channel is free and usable, and then the first such one is taken |
| VoicePool.Provision | src/discord-bot/voice-channels.ts:89-126 | A created channel that could not be recorded is deleted again and never shown |
| VoicePool.HandleExisting | src/discord-bot/voice-channels.ts:274-293 | After the first phase no Run holds a channel it did not hold before, and exactly the Runs that need one are waiting: those starting without one, and those going on whose channel was confirmed gone and cleared; every ended Run whose clear works is released, an empty temporary channel of it is deleted, and a channel that is there is shown |
| VoicePool.TakenChannels | src/discord-bot/voice-channels.ts:296-299 | The channels not to be given: all existing ones but those confirmed released |
| VoicePool.ReconcileRunVoiceChannels | src/discord-bot/voice-channels.ts:264-308 | For every outcome of every call: holdings stay exclusive, pool channels are neither renamed nor deleted, only recorded channels are shown, nobody loses a channel without cause; ended Runs are released and their empty temporary channels deleted, channels that are there are shown, every rename, deletion and creation has its reason; exactly the Runs that start without one or lost theirs are served, and who is left without one found the pool taken or unusable |
| EmojiCache.DropOldest | src/discord-bot/class-emoji-lookup.ts:96-99 | Evicts oldest idle entries first and stops at the bound; what stays fits or may not go |
| EmojiCache.Prune | src/discord-bot/class-emoji-lookup.ts:92-100 | Never drops the Guild asked for or one with a refresh in flight; no expired idle entry stays, an unexpired one goes only when the bound is reached, and no younger one before an older |
| EmojiCache.SingleFlight | src/discord-bot/class-emoji-lookup.ts:103-136 | At most one refresh per Guild is in flight since the last clear |
| EmojiCache.StaleSound | src/discord-bot/class-emoji-lookup.ts:111-113 | A refresh that does not own its entry started before the last clear, and settling it changes no entry |
| EmojiCache.GuildEmojiCache.Get | src/discord-bot/class-emoji-lookup.ts:103-136 | Served from the cache exactly within the time to live of a real fetch; a fetch starts only when none is in flight for the Guild; an unexpired idle entry goes only when the bound is reached, the oldest first |
| EmojiCache.GuildEmojiCache.OnFetched | src/discord-bot/class-emoji-lookup.ts:115-122 | The owner's snapshot replaces the entry as youngest; a refresh from before a clear writes nothing |
| EmojiCache.GuildEmojiCache.OnFailed | src/discord-bot/class-emoji-lookup.ts:123-132 | The previous snapshot survives with its age, or the entry goes when there was none |
| EmojiCache.GuildEmojiCache.Clear | src/discord-bot/class-emoji-lookup.ts:137-139 | Empties the table and disowns every refresh in flight |
| LocalTime.FromDatetimeLocalValue | src/lib/datetime.ts:92-116 | The loop of at most four attempts computes the specified search |
| LocalTime.SearchFindsShown | src/lib/datetime.ts:104-115 | With one transition among the probed instants the result shows the wall time exactly when one of the two offsets admits it; a repeated wall time and a skipped one have the stated results |
| LocalTime.SearchFindsInstant | src/lib/datetime.ts:104-115 | In a zone with one transition the result shows the wall time if and only if some instant shows it |
| LocalTime.ShownTimeReadsBack | src/lib/datetime.ts:84-116 | What the form shows for an instant reads back as that instant to the minute, or as the other instant the clock shows the same for |
| LocalTime.MoreTransitionsCanMiss | src/lib/datetime.ts:104-115 | With more transitions four attempts can end at an instant that shows another time although one showing it exists |
| Chunking.ChunkEmbedFieldLines | src/lib/discord-embed-field-chunking.ts:12-41 | Fails exactly when some line is too long; otherwise the chunks concatenate to the lines, each joined text fits, and no fitting split has fewer chunks |
| Chunking.GreedyStaysAhead | src/lib/discord-embed-field-chunking.ts:24-37 | After any number of chunks no fitting split has got further than the greedy one |
| Chunking.GreedyIsFewest | src/lib/discord-embed-field-chunking.ts:24-37 | A split whose chunks are all full uses no more chunks than any other |
| WorkerPool.Move | src/lib/concurrency.ts:16-23 | One worker's move keeps the invariant, never takes a claim back, and uses up part of a bounded amount of work |
| WorkerPool.FinishedResults | src/lib/concurrency.ts:25-27 | When every worker finished, each index was claimed once and holds its own result |
| WorkerPool.DoneMeansSettled | src/lib/concurrency.ts:16-27 | When every worker ended, each claimed index holds its result or its call failed |
| WorkerPool.MapWithConcurrency | src/lib/concurrency.ts:7-28 | Under every schedule: indices are claimed once and in order, never more calls in flight than max(1, concurrency), no wrong result, all results once everybody finished, a bounded number of moves; a schedule giving each worker that many turns ends with everybody done, and without a rejection with every result |

## Left out

- Ids, names and codes: opaque values with a total order; locale collation, Unicode and string formats are not modelled.
- Scores, percentages and shares: real numbers, so floating-point rounding is not modelled.
- Class, spec and buff catalogues: parameters of the roster model; buff names, reasons, labels and the `unselected` list of the result are not modelled.
- RosterProposal.OptimizeRosterProposal: requires distinct candidate signup ids, which the database gives; a Lootbuddy row's User may be reused as a Booster, as in the program.
- GuideReplace.AnyHistory: no outside edits to the channel between runs; `RetireOldGuideMessages` alone states its delete safety without that assumption.
- GuideReplace.PublishGuideReplacement: a rate-limited call is taken as rejected without effect; the wait, `lastError`, `earliestResumeAt`, the lock file, the snapshot of old messages and image bytes are not modelled (a message's checked content is one opaque value, and the desired hash is equality of the cards).
- GuideReplace.Resume: the listing returns the channel completely and in creation order.
- FightAssignment.DecideFight: the reason list is modelled, the copied report fields of a result are not.
- PullCopies.RankCopiesCanonical: for copies of distinct reports, as `GroupRealPulls` delivers them.
- SectionOrder.PlanWeekSectionOrder: weekday and time parsing of channel names is a parameter; skip reasons are one value.
- SectionPolling.ReconcileUntilSettled: the out-of-band clock is a flag of each attempt; waiting between attempts is not modelled.
- `mergeWeekSectionItemsForOrdering` and the archive and rename lanes of the channel reconciliation: plain map updates, easy members only.
- ReportScan.ScanChannelFromCursor: within one pass the server's answer depends on the message and the code; extraction of codes from texts is a field of the message; the one-minute throttle is not modelled.
- VoicePool.ReconcileRunVoiceChannels: the work list covers every Run holding a channel and starts with distinct holdings, and Discord gives created channels new ids; whether a rename, or the removal of a channel that could not be recorded, succeeds is not distinguished; what happens to the database between passes is not modelled.
- EmojiCache.GuildEmojiCache.Get: promises are refresh numbers that settle as separate calls; what an awaiting caller does with the result is not modelled.
- LocalTime.SearchFindsShown: calendar arithmetic and `Intl` are replaced by an offset function; parsing of the text form is not modelled.
- WorkerPool.MapWithConcurrency: the shared counter, results and workers are one value that each move replaces, so aliasing is not captured; the worker function's outcome is given per index.
- The guide, roster proposal and voice pool states are values handed from step to step rather than objects updated in place, so aliasing is not captured.
- Pages, controllers, server actions, Prisma, authentication, message texts, transcripts and dashboards: libraries and texts.
