# refresh: what the upgrade orchestrator and its helpers guarantee

`refresh` upgrades an EKS cluster minor by minor: it derives a plan of hops from the live cluster, runs each hop as
control plane, addons, nodegroups, and keeps no state file, so a rerun derives the rest from the cluster. This
project models that orchestrator against a cluster that moves on its own, together with the ordering, retry,
caching, fan-out, polling, terminal-width, event and preview code it relies on, and proves what they promise.

Run `dafny verify dfyconfig.toml` to check everything.

## The cluster

`Eks.dfy` is the environment. A `World` holds the control-plane version and status, the nodegroups and the addons,
each with the version of the update in flight, if any. `Client` is the API bound to one cluster. Every call first lets
any number of background events happen (updates finishing or failing, health and status changing), may fail, may lose
its answer after the request was accepted, and may find the caller's context used up (`patience`). Its contract with
EKS is small: an accepted update ends at the requested version or leaves the version alone, an update that failed says
so until the next one, and nothing but accepted requests moves a version. Ghost fields record every world the cluster
went through (`history`), every mutating request with the world it met (`log`) and every answer the program was given
(`told`), and count the answers that report trouble (`troubles`): a failed call, a lost answer, an unhealthy status,
an update that did not succeed, a context or deadline that ran out. Where a phase reports a failure, its contract says
that there was trouble during it; where a decision rests on an answer, its contract names the answer.

The person at the prompt is an `Operator` (`Engine.dfy`), who answers yes or no at will; a ghost field records every
question with its answer and how many requests had been submitted by then. A health gate supplied by the caller is
asked through the client, and its answers are recorded the same way.

`Client.Sound` is what holds over whole runs: the cluster is orderly (whatever is in flight moves forward; a
control-plane update in flight goes one minor up and leaves no nodegroup more than three minors behind), every
control-plane move in the history left every nodegroup with a readable version within three minors, and every
request in the log was orderly (the control plane is asked exactly one minor up; a roll never goes beyond the
control plane nor backwards; an addon is only asked to move to a newer version).

What the whole-run results assume of the start, and nothing else:

- the cluster is orderly (a cluster with nothing in flight is);
- accepted requests are answered with an update ID (`namesUpdates`): the code waits for a nodegroup roll only when it
  has one, so without IDs a hop can end while its rolls are still running (`Scenarios.NamelessRollBreaksSkew`);
- no roll is in flight for a nodegroup whose version cannot be read (`NoBlindRolls`): the planner's skew check passes
  over such a nodegroup, and the roll may land it behind. Over several attempts, none but the last may roll such a
  nodegroup (`Upgrade.Sighted`, `Scenarios.BlindRollBreaksSkew`).

That a request takes effect at most once although the retry wrapper may send it several times is an assumption of
`Client`: its mutating calls log one request and accept it at most once. `Retry.Submit` is why it is a fair one: a
call under a token drawn outside the retries has at most one effect on a server that deduplicates by token.

They do not assume that the planner's snapshot is current. Whatever planning read, the live versions are at or above
it (`ReadFrom`), so the simulation is a lower bound of the cluster at every hop boundary; when no roll was in flight
at planning time it equals the cluster (`NodesAt` with `exact`).

## Where the code does less than its comments say

- Resuming is not unconditional. `Scenarios.ResumeCanBeBlocked` is the case of nodes at 1.29 and a control plane at
  1.31 going to 1.33: interrupted at 1.32, the rerun is skew-blocked. `SkewBlockedIff` and `ResumeBlockedIff` give the
  exact condition; `Rerun` shows that it never happens when every nodegroup starts within three minors of the target.
- A rerun after success is a no-op when the reading meets no trouble (`Upgrade.PlanAgain`), and in general exactly when
  no addon that could not be described shows up as work: such an addon is read as having no version
  (`Scenarios.UndescribedIsWork`). This is for runs whose last hop is the target as typed, which `LastHopIsTarget`
  characterises: addon versions are looked up for the target string of a same-version plan, but for "1.33" in the
  hops of a run that climbs (`Scenarios.RespelledTargetIsWork`).
- `TruncateANSI` has no bound on escapes while `VisibleWidth` and `StripANSI` have one of 32 runes. A cell is missed
  when it lies where those two read text and the cut still reads an escape. Without one a cut is right at every width
  (`Ansi.TruncateRefines`); from width three on it is right exactly when the text is at most three cells wider than
  what lies before the first one (`Ansi.CutWellIff`). `Ansi.OverlongEscapeIsKept` is a string cut to three cells that
  keeps more than fifty.
- `PadANSI` does not reach the width when it appends spaces behind an escape that is still open (`Ansi.PadWidth`).
- The header of a table is padded but not cut: a title wider than its column's maximum shifts what follows
  (`Table.HeaderLinesUp`).
- The dry run announces an update for every CUSTOM nodegroup that is not updating; the real run never requests one
  (`Preview.PreviewAgrees`). It also reads a nodegroup without looking whether the description is empty.

## Model

| member | source | states |
|---|---|---|
| Upgrade.RunUpgrade | internal/commands/cluster/upgrade.go:69-173 | the outcome is blocked iff a step is blocked, a dry run iff not blocked and --dry-run, nothing to do iff neither and no step is work, a run otherwise; without a run, so with --dry-run, nothing is requested or asked; without --yes every request was agreed to; skipped addons and nodegroups are not requested and no roll without a passed gate; on every exit a sound cluster stays sound and no version goes back; success means convergence; planning fails only after trouble or without a chain of hops; within three minors of the target the skew gate never blocks |
| Upgrade.Proceed | internal/commands/cluster/upgrade.go:120-163 | exactly which of the four outcomes a plan leads to; blocked plans, dry runs and plans without pending steps leave cluster, log and operator alone; everything else is executed |
| Upgrade.Rerun | internal/services/upgrade/engine.go:54-61 | over any sequence of invocations, however each ends, in which no attempt but the last may roll a nodegroup with an unreadable version: every control-plane move within skew, every request orderly, nothing goes back, and no attempt is skew-blocked when every nodegroup started within skew of its target |
| Upgrade.PlanAgain | internal/services/upgrade/plan.go:26-30 | after a run to success and any further invocations, the next plan has no pending step iff no addon that could not be described shows up as work; made without trouble it has none |
| Upgrade.NextPlan | internal/services/upgrade/plan.go:40-48 | the same for the planner alone against any sound, converged cluster that keeps moving while it is read |
| Upgrade.NoWorkIff | internal/services/upgrade/types.go:93-103 | a same-version plan has no pending step iff every rollable nodegroup was read at the target or newer and every addon is skipped, cannot be looked up, or was read at its newest version |
| Upgrade.RerunIsNoOp | internal/services/upgrade/plan.go:40-48 | a plan from a reading no older than a converged cluster, exact or not, has no pending step iff every addon read without a version is done; if all were described it has none |
| Upgrade.NoWorkConverged | internal/commands/cluster/upgrade.go:127-131 | an unblocked plan without pending steps describes a converged cluster even if the snapshot lagged |
| Upgrade.WithinNeverBlocked | internal/services/upgrade/plan.go:150-166 | nodegroups within three minors of the target at any earlier moment cannot make a later plan skew-blocked |
| Upgrade.LastHopIsTarget | internal/services/upgrade/types.go:123-144 | the last hop of a plan is the target as typed iff the cluster was at its minor or the target is written like the hops |
| Engine.Execute | internal/services/upgrade/engine.go:62-103 | refuses iff blocked, without touching the cluster; phases run in plan order and the report accounts for all of them; without --yes each phase that ran has its own yes, to its label and before its first request, and the first no ends the run there; nobody to ask means nothing runs; requests come only from phases that ran and heed the skip lists and the gate; outside the addon phase a failure means trouble; a ready run stays sound, its simulation matches the cluster at every hop boundary, and finishing means convergence |
| Engine.RunPhases | internal/services/upgrade/engine.go:73-100 | the loop: skips phases without pending steps, asks before each other one unless --yes, stops at the first no or failure, has no prompt iff a phase with pending steps is reached without one, and tells interruption from failure by the context |
| Engine.ConfirmAndRun | internal/services/upgrade/engine.go:80-93 | one phase with pending steps: without --yes it runs only after a yes to its own label; a no or a missing prompt leaves cluster and log alone |
| Engine.OnlyWhatWasAgreed | internal/services/upgrade/engine.go:80-91 | without --yes every request of a run was announced by a label the operator had said yes to before it |
| Engine.LeftBehind | internal/services/upgrade/engine.go:73-103 | what the trail of a run says of its requests and confirmations |
| Engine.HeedsOn | internal/services/upgrade/engine.go:132-150 | requests that heed the skip lists and the gate stay so as the run goes on |
| Engine.ReportAccounts | internal/services/upgrade/engine.go:80-100 | completed, then the failed phase if any, then remaining are exactly the phases with pending steps, in order |
| Engine.FlattenPhases | internal/services/upgrade/engine.go:106-153 | three phases per hop in order control plane, addons, nodegroups, each with exactly its pending steps |
| Engine.PhaseAt | internal/services/upgrade/engine.go:125-150 | phases 3k, 3k+1 and 3k+2 are those of hop k, each with its kind, hop and label |
| Engine.PhaseHas | internal/services/upgrade/engine.go:108-124 | a step is in a phase iff it is a pending step of its hop and kind |
| Engine.CollectLabels | internal/services/upgrade/engine.go:156-164 | the labels of the phases with pending steps, in order |
| Engine.SkipPhase | internal/services/upgrade/engine.go:76-78 | a phase without pending steps is skipped and the run is where it would be after running it: simulation and cluster still match |
| Engine.Run | internal/services/upgrade/engine.go:93-100 | running the next phase of a ready run keeps it sound, only moves forward, requests only what that phase and the options allow, rolls only behind the gate, and on success reaches the next position; it fails only after trouble |
| Engine.RunMove | internal/services/upgrade/engine.go:125-131 | the control-plane phase in a planned run |
| Engine.RunAddons | internal/services/upgrade/engine.go:132-138 | the addon phase in a planned run |
| Engine.RunRolls | internal/services/upgrade/engine.go:139-150 | the nodegroup phase in a planned run |
| Engine.NoWorkNoPhases | internal/services/upgrade/engine.go:106-124 | a plan without pending steps has no phase to run |
| Engine.Boundary | internal/services/upgrade/plan.go:89-95 | reaching a hop boundary, the live nodegroups are at or above the simulated ones, and equal when nothing else was in flight |
| RunState.AfterNodes | internal/services/upgrade/nodegroups.go:62-82 | after a successful nodegroup phase the live nodegroups match the simulation of the next hop |
| RunState.NodesSkipped | internal/services/upgrade/plan.go:286-313 | with no pending nodegroup step the simulation does not move, so the match carries to the next hop |
| RunState.AddonsSkipped | internal/services/upgrade/plan.go:277-280 | with no addon work planned, no addon that is not skipped is behind the newest version for the hop |
| RunState.ControlPlaneMayMove | internal/services/upgrade/plan.go:150-166 | in a plan not blocked at a hop, the live cluster can take that hop: one minor up, every nodegroup within skew |
| RunState.NextHop | internal/services/upgrade/engine.go:108-110 | the end of one hop is a valid start of the next |
| RunState.RunConverged | internal/services/upgrade/plan.go:89-95 | after the last hop control plane and rollable nodegroups are at the target or newer and no addon is behind |
| Planning.BuildPlan | internal/services/upgrade/plan.go:31-99 | the plan is the specified plan of what was read, and every readiness and addon step follows from the answer EKS gave for its hop; the reading never leads the cluster, and planning changes nothing; it fails exactly at an answer that stops it, so only after trouble or when no chain of hops leads to the target |
| Planning.PlanHops | internal/services/upgrade/plan.go:72-96 | the hop loop, with the simulation advanced in place, builds exactly the specified hops, each decided by the answers for it |
| Planning.ReadinessStep | internal/services/upgrade/plan.go:134-207 | blocked when the hop does not parse or a simulated nodegroup is out of skew; otherwise blocked iff the insights for the hop were answered and one of them has status ERROR; warnings and unavailable insights do not block |
| Planning.CheckVersionOffered | internal/services/upgrade/plan.go:113-130 | changes nothing; an error exactly when EKS answered and the target is not in the answer |
| Planning.StepForAddon | internal/services/upgrade/plan.go:254-281 | manual iff skipped, without asking; otherwise blocked iff the lookup for the hop failed or found nothing, completed iff the installed version is at least the newest found, pending otherwise, for that version |
| Planning.AddonStepsFor | internal/services/upgrade/plan.go:252-284 | one step per addon in order, each decided by the answer to its own lookup for the hop |
| Planning.NodegroupStepsFor | internal/services/upgrade/plan.go:289-313 | one step per nodegroup from the live version |
| Planning.AdvanceSimulation | internal/services/upgrade/plan.go:89-95 | exactly the rollable nodegroups below the hop move to it |
| Planning.ReadVersion | internal/services/upgrade/plan.go:32-58 | the control-plane version of one moment of the call, from which the target is within reach |
| Planning.ReadCluster | internal/services/upgrade/plan.go:32-77 | a snapshot that holds every nodegroup and addon and is behind the cluster or equal |
| Planning.ReadIsBehind | internal/services/upgrade/plan.go:60-77 | a snapshot taken while the cluster moves is behind it or equal, never ahead |
| Planning.ReadIsSince | internal/services/upgrade/plan.go:60-70 | nothing is read older than it was when planning began, except an addon that could not be described |
| Planning.QuietIsExact | internal/services/upgrade/service.go:92-130 | with no roll in flight the nodegroups read are the live ones |
| Simulation.HopMinor | internal/services/upgrade/types.go:123-144 | hop k is one minor above hop k-1, the first one above the control plane, the last the target's minor |
| Simulation.SimulatedIsSim | internal/services/upgrade/plan.go:74-95 | closed form of the simulation: a rollable nodegroup sits at the previous hop unless it started at or above it; others never move |
| Simulation.SkewBlockedIff | internal/services/upgrade/plan.go:150-166 | some hop is skew-blocked iff a readable nodegroup is more than three minors below the first hop (if it will be rolled) or the target (if not) |
| Simulation.BlockedIff | internal/services/upgrade/types.go:76-89 | a plan is blocked iff skew blocks some hop, an insight with status ERROR was reported for one, or an addon that is not skipped has no version for one |
| Simulation.NeverSkewBlocked | internal/services/upgrade/plan.go:150-166 | readable nodegroups at or above target minus three never block, wherever the control plane is |
| Simulation.ResumeBlockedIff | internal/services/upgrade/plan.go:150-166 | after an unblocked plan a rerun is skew-blocked iff a nodegroup still to be rolled is more than three minors below its first hop |
| Simulation.StepsOf | internal/services/upgrade/plan.go:82-85 | the steps of a hop: readiness, control plane, addons in order, nodegroups in order |
| Simulation.StepsSay | internal/services/upgrade/plan.go:82-95 | hops chain from the current version to the target, and every step has its kind, target, version and status as the live versions, the skip lists and the lookups say |
| Scenarios.RunCanStart | internal/services/upgrade/plan.go:157-160 | the assumptions of a run can be met: a concrete cluster and unblocked plan from which a run starts |
| Scenarios.ResumeCanBeBlocked | internal/services/upgrade/plan.go:157-160 | a resume that is skew-blocked: the first plan is not, its first move is orderly and within skew, and the cluster that move leaves is read as it is by the plan that is blocked |
| Scenarios.NamelessRollBreaksSkew | internal/services/upgrade/nodegroups.go:116-124 | without update IDs a roll is not waited for, and the next hop of the same plan leaves the nodegroup four minors behind |
| Scenarios.BlindRollBreaksSkew | internal/services/upgrade/plan.go:157-160 | a roll of a nodegroup with an unreadable version that outlives its attempt: later attempts are never skew-blocked, and the last move leaves it four minors behind |
| Scenarios.UndescribedIsWork | internal/services/addons/service.go:86-92 | on a converged cluster an addon that could not be described shows up as work |
| Scenarios.RespelledTargetIsWork | internal/services/upgrade/plan.go:46-48 | for any target not written like the hops a converged cluster can show up as work, even when everything was described |
| Planner.MatchesAny | internal/services/upgrade/service.go:133-140 | true iff some non-empty pattern is a substring |
| Planner.MatchesIff | internal/services/upgrade/service.go:133-140 | a pattern matches iff it is not empty and the name is made of something, the pattern and something |
| Planner.Blockers | internal/services/upgrade/types.go:76-89 | the blocked steps in order; empty iff no step is blocked |
| Planner.PendingSteps | internal/services/upgrade/types.go:93-103 | the number of pending steps that are not readiness; zero iff there is none |
| ControlPlanePhase.UpgradeControlPlane | internal/services/upgrade/controlplane.go:23-98 | after a request, success means that the cluster was seen ACTIVE after that request was accepted, at the target with nothing in flight when updates are named; without one, that it was found at the target or seen ACTIVE after the update in flight; failure means trouble; at most one request, only towards the target and only seen below it; from a cluster that may move, everything stays sound |
| ControlPlanePhase.Attach | internal/services/upgrade/controlplane.go:26-53 | found at the target it is done; found UPDATING below it, it is seen ACTIVE before anything else; a request follows only with nothing in flight and the version below the target |
| ControlPlanePhase.Confirm | internal/services/upgrade/controlplane.go:75-97 | success means that the cluster was seen ACTIVE, that the reported version is at the target, and that a named update was applied when it was seen ACTIVE |
| ControlPlanePhase.Requested | internal/services/upgrade/controlplane.go:55-64 | the request goes out exactly one minor above the live control plane with every nodegroup within skew |
| ControlPlanePhase.WaitForClusterActive | internal/services/upgrade/controlplane.go:101-127 | success means ACTIVE, failure a failed call, a FAILED cluster or the context; every poll before the last said neither; waiting changes nothing |
| ControlPlanePhase.WaitForUpdate | internal/services/upgrade/service.go:144-177 | success means that the update was answered Successful and was applied, failure that it was answered Failed or Cancelled or that the context ended; failed polls and those without an update go on |
| NodegroupPhase.UpgradeNodegroups | internal/services/upgrade/nodegroups.go:49-84 | rolls are requested for exactly the listed nodegroups behind the target that are not skipped and have no custom AMI, in listing order, one request each, for all of them unless the phase fails; each after its gate passed, the built-in one by seeing it ACTIVE without issues, the caller's by its answer, and with every earlier roll over; success leaves every nodegroup dealt with, failure means trouble or a refusal by the caller's gate; on an orderly cluster nothing goes back |
| NodegroupPhase.Visit | internal/services/upgrade/nodegroups.go:62-82 | one listed nodegroup: passed over iff at the target, skipped or custom, else gated and rolled |
| NodegroupPhase.GateAndRoll | internal/services/upgrade/nodegroups.go:75-81 | one nodegroup: no roll without a passed gate, a failure stops the phase |
| NodegroupPhase.Gate | internal/services/upgrade/nodegroups.go:131-156 | the built-in gate passes only an ACTIVE nodegroup without issues; the caller's own is asked exactly once |
| NodegroupPhase.RollNodegroup | internal/services/upgrade/nodegroups.go:87-127 | one request; success with an update ID means the nodegroup is at the target |
| NodegroupPhase.ListNodegroupStates | internal/services/upgrade/service.go:92-130 | every nodegroup once, in listing order, each as one answer of the call described it; fails exactly at the first failed call |
| NodegroupPhase.InPhaseResult | internal/services/upgrade/nodegroups.go:62-82 | at any moment of the phase only rollable nodegroups were touched and none went back; at the end all are dealt with |
| NodegroupPhase.RollIsOrderly | internal/services/upgrade/nodegroups.go:62-99 | a roll is requested only with the control plane at or above its version and never backwards |
| NodegroupPhase.AfterRoll | internal/services/upgrade/nodegroups.go:79-81 | whatever becomes of a roll, it touches its own nodegroup only |
| NodegroupPhase.RollLogged | internal/services/upgrade/nodegroups.go:62-82 | rolls are serial: each is requested while all earlier ones are over |
| AddonPhase.UpgradeAddons | internal/services/upgrade/addons.go:27-91 | the addons are taken in the dependency order of the listing, and when an update is submitted every addon before it that is not skipped, so every dependency, is up to date; skipped addons are never touched; success leaves no other addon behind the newest version; with the control plane exactly at the target failure means trouble |
| AddonPhase.UpgradeAddon | internal/services/upgrade/addons.go:37-89 | one addon of the phase; after a failure nothing more is submitted |
| AddonPhase.Converge | internal/services/upgrade/addons.go:43-88 | attaches, skips or updates; at most one request, for the newest version for the target |
| AddonPhase.Settle | internal/services/upgrade/addons.go:49-67 | the installed version read with nothing in flight |
| AddonPhase.AttachTo | internal/services/upgrade/addons.go:57-66 | waits for the update in flight and reads the addon again once nothing is |
| AddonPhase.Update | internal/services/addons/service.go:190-289 | at most one request, and only after the addon was found neither CREATING nor UPDATING and its version not refused for the cluster version; success means the requested version, ACTIVE, without issues |
| AddonPhase.CheckCompatible | internal/services/addons/health_check.go:76-119 | refuses exactly a version missing from a known, non-empty list for the Kubernetes version, which is the remembered one or the one just described |
| AddonPhase.MaySubmit | internal/services/addons/service.go:196-232 | passes only an addon found neither CREATING nor UPDATING; refuses exactly because the last answer says that it is, that it cannot be described, or that the version is incompatible |
| AddonPhase.AwaitHealthy | internal/services/addons/health_check.go:43-71 | success means ACTIVE without issues |
| AddonPhase.WaitForAddon | internal/services/addons/version_analyzer.go:116-155 | success means ACTIVE; only a failure status, the timeout or the context end the wait otherwise, and every earlier poll was neither |
| AddonPhase.ListAddons | internal/services/addons/service.go:62-109 | every addon once, in the order EKS named them; an addon that cannot be described has no version, so the listing never leads the cluster, and without trouble it is never behind the start of the call; fails iff the listing itself does |
| AddonPhase.LookUp | internal/services/addons/version_analyzer.go:22-73 | the newest version of the answer for a Kubernetes version, none iff the call failed or listed nothing |
| AddonPhase.RequestIsSafe | internal/services/upgrade/addons.go:31-90 | a request made while everything before it in dependency order is up to date is dependency-safe |
| AddonPhase.OrderCovers | internal/services/upgrade/addons.go:31-35 | the sorted list holds every installed addon after all its installed dependencies |
| AddonPhase.SortedListing | internal/services/upgrade/addons.go:31-35 | the order taken is the listing in dependency order |
| AddonOrder.SortByDependency | internal/services/addons/addon_dependencies.go:41-101 | for any list of distinct names and any dependency map, exactly one order: a permutation whose first part has every installed dependency first, whatever is free earlier earlier, and of what one addon frees what was listed first; every addon left to the fallback still waits for an installed dependency; nothing is left iff the map is acyclic on the installed addons |
| AddonOrder.CompleteIffAcyclic | internal/services/addons/addon_dependencies.go:73-84 | the queue orders all addons iff some rank function exists |
| AddonOrder.BuiltInIsAcyclic | internal/services/addons/addon_dependencies.go:13-29 | the built-in map is acyclic on every set of installed addons |
| AddonOrder.FoundationFirst | internal/services/addons/addon_dependencies.go:13-29 | with the built-in map networking comes first, then DNS, then storage drivers and observability |
| AddonOrder.BuildGraph | internal/services/addons/addon_dependencies.go:47-63 | in-degrees and dependents count exactly the installed dependencies, and dependents are filed in listing order |
| AddonOrder.Seed | internal/services/addons/addon_dependencies.go:65-71 | the queue starts with the addons without installed dependencies, in listing order |
| AddonOrder.PopHead | internal/services/addons/addon_dependencies.go:74-84 | one step keeps in-degrees equal to the unmet dependencies and queues what became ready, behind the others and in listing order |
| AddonOrder.AppendOthers | internal/services/addons/addon_dependencies.go:86-98 | the fallback appends exactly the addons not yet ordered |
| AddonVersions.CompareAddonVersions | internal/services/addons/version_analyzer.go:85-110 | the loop computes the specified comparison |
| AddonVersions.EksVersionsCompare | internal/services/addons/version_analyzer.go:85-110 | on versions as EKS writes them the order is that of the three numbers as integers, the first that differs deciding, then that of what follows |
| AddonVersions.BuildsCompare | internal/services/addons/version_analyzer.go:85-110 | of two builds of a version the larger number is newer, and any build is newer than none |
| AddonVersions.NumbersCompareAsNumbers | internal/services/addons/version_analyzer.go:95-98 | where two segment lists first differ in 64-bit numbers, their difference is the result |
| AddonVersions.TextComparesAsText | internal/services/addons/version_analyzer.go:99-106 | where they first differ and one is text, a number is newer than text, and text compares in byte order |
| AddonVersions.LongerIsNewer | internal/services/addons/version_analyzer.go:109-109 | a proper prefix is older |
| AddonVersions.SuffixSegment | internal/services/addons/version_analyzer.go:86-89 | exactly dots, dashes and plus signs separate segments |
| AddonVersions.CompareFlip | internal/services/addons/version_analyzer.go:82-110 | swapping the operands flips the sign, for all strings; the comparison is total and reflexive |
| AddonVersions.CompareTransitive | internal/services/addons/version_analyzer.go:82-110 | at least as new is transitive, strictly when either step is strict |
| AddonVersions.DifferenceNeverOverflows | internal/services/addons/version_analyzer.go:95-98 | the difference of two numeric segments fits 64 bits because a segment can hold no minus sign |
| AddonVersions.StableSortSorts | internal/services/addons/version_analyzer.go:67-70 | a permutation, newest first, that keeps entries that compare equal in order |
| AddonVersions.NewestIsNewest | internal/services/addons/version_analyzer.go:67-72 | the first entry is a listed one at least as new as every other |
| AddonVersions.FlattenIff | internal/services/addons/version_analyzer.go:46-61 | a version is available iff some page lists it |
| AddonVersions.GetAvailableVersions | internal/services/addons/version_analyzer.go:46-73 | an error iff no page lists a version, otherwise every version of every page, newest first |
| Versions.ExpandHops | internal/services/upgrade/types.go:127-144 | an error iff a version does not parse or the target is older; otherwise an unbroken chain of minors |
| Versions.HopsAreConsecutive | internal/services/upgrade/types.go:140-142 | no minor skipped or repeated, up to the target |
| Versions.ReleaseMinor | internal/services/upgrade/types.go:111-122 | the minor of the printed "1.m" is m, for every 64-bit m |
| Versions.PatchIsIgnored | internal/services/upgrade/types.go:111-122 | what follows the minor does not matter |
| Versions.OtherMajorsAreUnreadable | internal/services/upgrade/types.go:111-117 | a version of another major is not read |
| GoStrings.AtoiDecimal | internal/services/upgrade/types.go:117-121 | parsing a printed 64-bit integer gives it back |
| GoStrings.AtoiAccepts | internal/services/upgrade/types.go:117-121 | a sign is read, and numbers past 64 bits are refused |
| GoStrings.AtoiRefuses | internal/services/upgrade/types.go:117-121 | text with anything but digits after an optional sign is no number |
| GoStrings.ContainsIff | internal/services/upgrade/service.go:133-140 | containing means being cut out in one piece |
| GoStrings.FieldsSplit | internal/services/addons/version_analyzer.go:86-89 | a separator splits wherever it stands |
| GoStrings.TrimSpaceIs | internal/services/addons/version_analyzer.go:87-87 | trimming removes exactly the white space at both ends |
| GoStrings.LexCompareIs | internal/services/addons/version_analyzer.go:103-106 | the first difference decides, and a proper prefix comes first |
| Eks.StepKeepsOrderly | internal/services/upgrade/engine.go:89-92 | updates left running in the background keep the cluster orderly, and a control-plane move they make is within skew |
| Eks.StepIsLater | internal/services/upgrade/engine.go:89-92 | a background event only finishes, fails or re-labels what is in flight |
| Eks.AcceptKeepsOrderly | internal/services/upgrade/controlplane.go:55-64 | accepting an orderly request keeps the cluster orderly |
| Progress.LaterIsForward | internal/services/upgrade/engine.go:57-61 | while only time passes an orderly cluster moves forward |
| Progress.ForwardTransitive | internal/services/upgrade/engine.go:57-61 | moving forward composes over phases and runs; it needs the transitivity of the version order |
| Parallel.ForEachParallel | internal/services/common/parallel.go:16-43 | over every interleaving: at most maxConcurrency calls at once, eight when it is not positive; a worker is dispatched as long as fewer are busy, and dispatching may stop exactly once the context is done; no deadlock, bounded runs, and a return only after every worker has written: a prefix of results, zero after it, the sequential map when not cancelled |
| Parallel.StepKeepsInv | internal/services/common/parallel.go:23-41 | every step of dispatcher, worker or context keeps the semaphore, wait group and results consistent |
| Parallel.CapHolds | internal/services/common/parallel.go:21-30 | at most the cap of calls run |
| Parallel.NoDeadlock | internal/services/common/parallel.go:23-41 | until it has returned something other than a cancellation is possible |
| Parallel.StepDecreases | internal/services/common/parallel.go:23-41 | every step brings the end nearer |
| Parallel.ReturnedOutcome | internal/services/common/parallel.go:28-42 | what a returned state holds |
| Retry.WithRetry | internal/services/common/retry.go:122-161 | at most the configured calls, exactly the backoff schedule waited unless the context ends it; every reply but the last is a transient failure, and the result is the last reply or the context; at most one effect per token |
| Retry.Submit | internal/services/upgrade/controlplane.go:55-64 | a token drawn outside the retried call: one logical operation takes effect at most once |
| Retry.PinnedTokenIsIdempotent | internal/services/common/retry.go:65-69 | any number of deliveries of one token leave one effect; two tokens leave two |
| Retry.TotalWaitIsBounded | internal/services/common/retry.go:144-158 | retries wait at most retries times the cap |
| Retry.DefaultWait | internal/services/common/retry.go:21-26 | with the defaults four retries wait three seconds |
| Retry.IndexFold | internal/services/common/retry.go:92-119 | the first occurrence up to ASCII case, or -1 iff there is none |
| Retry.ShouldRetry | internal/services/common/retry.go:48-63 | never for the context, for an API error iff its code is retryable or the server is at fault, for a message iff one of the fragments occurs up to ASCII case |
| Retry.WhatIsTransient | internal/services/common/retry.go:28-63 | throttling and server faults are transient by code and by message in any case, refusals and the context are not |
| TtlCache.TtlCache.Get | internal/services/common/ttlcache.go:35-55 | under any interference: the value written at a moment of the call and not past its expiry at a later one, or nothing when there was none or its expiry had passed |
| TtlCache.TtlCache.Evict | internal/services/common/ttlcache.go:44-50 | only an entry expired at that moment is removed |
| TtlCache.TtlCache.Set | internal/services/common/ttlcache.go:58-62 | the written contents gain the entry with its expiry |
| TtlCache.TtlCache.SetDefault | internal/services/common/ttlcache.go:65-67 | the same with the default lifetime |
| TtlCache.TtlCache.Delete | internal/services/common/ttlcache.go:70-74 | the written contents lose the key |
| TtlCache.TtlCache.Clear | internal/services/common/ttlcache.go:77-81 | the written contents are empty |
| TtlCache.EvictionIsInvisible | internal/services/common/ttlcache.go:43-52 | eviction changes no later answer |
| PollFanIn.CheckAllUpdates | internal/monitoring/monitor.go:113-184 | in place, for every arrival order: complete updates stay, a failed check leaves only its error, a successful one the new status, message and time; true iff there are updates and all are complete |
| PollFanIn.ArrivalOrderIsIrrelevant | internal/monitoring/monitor.go:149-168 | collecting in any order gives the same list |
| PollFanIn.CompleteIsFinal | internal/monitoring/monitor.go:130-133 | over any rounds a complete update is never overwritten |
| PollFanIn.MonitorUpdates | internal/monitoring/monitor.go:34-85 | the list after any rounds is the specified one; it is done at the first round after which all are complete, and not before |
| PollFanIn.CheckUpdateWithRetry | internal/monitoring/monitor.go:220-258 | between one and max(1, MaxRetries) calls, no wait after the last; every answer before the last failed, the result is the last one unless the context ended, and all calls are used unless one succeeds or the context ends |
| Ansi.VisibleWidth | internal/ui/ansi.go:38-68 | the width of what stripping leaves |
| Ansi.StripANSI | internal/ui/ansi.go:148-179 | what lies outside escapes bounded at 32 runes |
| Ansi.EscapeIsInvisible | internal/ui/ansi.go:148-179 | an escape of at most 32 runes up to its letter disappears, and is over with the letter |
| Ansi.PadANSI | internal/ui/ansi.go:71-81 | the text is kept and only spaces are added, on the side of the alignment; the wanted width is reached iff no space goes behind an open escape |
| Ansi.PadWidth | internal/ui/ansi.go:71-81 | for every text and width: the padded text has the wanted width, or its own if larger, iff no space goes behind an open escape |
| Ansi.TruncateANSI | internal/ui/ansi.go:90-145 | a text that fits is kept; otherwise a prefix, the reset exactly when it holds an escape, and three dots exactly from width three on |
| Ansi.StripIdempotent | internal/ui/ansi.go:148-179 | for all strings: no ESC left, idempotent, same width |
| Ansi.TruncateRefines | internal/ui/ansi.go:90-145 | whenever the loop misses no cell, which bounded escapes guarantee: stripping the cut is cutting the stripped text, the cut fits the width, and no escape is left open that was not |
| Ansi.RefinesIffFits | internal/ui/ansi.go:90-145 | for every text and width: stripping the cut is cutting the stripped text iff the cut fits |
| Ansi.CutWellIff | internal/ui/ansi.go:115-138 | a text is cut right at every width from three on iff it is no wider than three cells more than what lies before the first missed cell |
| Ansi.CutWellIffNothingMissed | internal/ui/ansi.go:115-138 | with four or more cells from the first missed one on, a text is cut right at every width iff no cell is missed |
| Ansi.CutIsPrefix | internal/ui/ansi.go:115-138 | the loop keeps a prefix, escapes included |
| Ansi.CutIsLongestPrefix | internal/ui/ansi.go:115-138 | of plain text the longest prefix that fits |
| Ansi.CutKeepsPace | internal/ui/ansi.go:115-138 | while no cell is missed the cuts of styled and stripped text stop together and keep the same visible runes |
| Ansi.CellWidth | internal/render/primitives.go:88-89 | padding after truncating is exactly the width and leaves no escape open |
| Ansi.OverlongEscapeIsKept | internal/ui/ansi.go:125-131 | a concrete string whose cut does not fit, because the cut has no escape bound; and one past the bound that does no harm at any width |
| Table.Table.Render | internal/render/primitives.go:55-94 | every row is the trimmed line of its cells, each cut and padded to its column; the header is padded but not cut |
| Table.Table.Widths | internal/render/primitives.go:56-72 | each column is as wide as its widest cell between minimum and maximum |
| Table.ColumnWidthIs | internal/render/primitives.go:56-72 | a column is at least as wide as its minimum, its title and every cell, exactly as wide as one of them, and never wider than its maximum |
| Table.Table.Row | internal/render/primitives.go:49-52 | appends the row |
| Table.ColumnsLineUp | internal/render/primitives.go:81-91 | a column starts at the same cell in every row and its cells fill it exactly |
| Table.HeaderCell | internal/render/primitives.go:75-79 | a header cell has its column's width iff its painted title is not wider and no padding goes behind an open escape |
| Table.HeaderLinesUp | internal/render/primitives.go:68-79 | under a paint that adds no cells, header cell i has its column's width iff the title is within the maximum, and starts where the rows' cells start iff all titles before it are; otherwise further right |
| Table.NothingCut | internal/render/primitives.go:68-72 | without a maximum nothing is cut |
| Table.TrimIsPrefix | internal/render/primitives.go:91-91 | trimming removes only trailing spaces, all of them |
| Tracker.Tracker.Observe | internal/noderoll/tracker.go:34-61 | the first snapshot is the baseline; later ones append exactly their difference; the events replayed over the baseline give the latest phases |
| Tracker.Tracker.Disappeared | internal/noderoll/tracker.go:54-59 | one termination per disappeared node, in any order |
| Tracker.Tracker.constructor | internal/noderoll/tracker.go:29-29 | starts unseeded and empty |
| Tracker.ReplayDiff | internal/noderoll/tracker.go:44-60 | replaying one difference gives the snapshot, whatever the order of the disappeared |
| Tracker.ReplayRun | internal/noderoll/tracker.go:34-61 | over any run the events rebuild the last phases from the first |
| Tracker.DiffIff | internal/noderoll/tracker.go:44-74 | an event exactly for nodes that appeared or changed, announcing their new phase, and for those that disappeared |
| Warnings.ScopeWarnings | internal/noderoll/observer.go:281-324 | exactly the chosen events' warnings, one per key, sorted by node then reason, each telling its event |
| Warnings.RelevantIff | internal/noderoll/observer.go:281-299 | relevant iff a warning about or from a node of the set that is undated or not older than the window |
| Warnings.SomeChosen | internal/noderoll/observer.go:69-75 | every key with a relevant event has a chosen one, at least as late |
| Warnings.SameChosen | internal/noderoll/observer.go:281-324 | and only one |
| Warnings.Replaced | internal/noderoll/observer.go:299-304 | a later event takes the place of the one kept for its key |
| Warnings.EmittedIsFiltered | internal/noderoll/observer.go:307-316 | what is emitted for the keys are the chosen events' warnings |
| Wrap.WrapText | internal/commands/clusterview/insights_render.go:174-190 | the words in order, lines of several words within the width, and no split with fewer lines |
| Wrap.BytesOfRunes | internal/commands/clusterview/insights_render.go:181-184 | the width counts the bytes of UTF-8 |
| Wrap.WordsSplit | internal/commands/clusterview/insights_render.go:175-175 | any white space splits words |
| Wrap.OneWord | internal/commands/clusterview/insights_render.go:175-175 | and nothing else does |
| Wrap.GreedyIsOptimal | internal/commands/clusterview/insights_render.go:181-188 | a greedy split has no more lines than any other that fits |
| Wrap.StaysAhead | internal/commands/clusterview/insights_render.go:181-188 | after every line the greedy split has placed at least as many words |
| Wrap.WrappedWords | internal/commands/clusterview/insights_render.go:174-190 | reading a line back gives exactly its words |
| Preview.PreviewAgrees | internal/dryrun/dryrun.go:129-174 | preview and run agree on a described nodegroup iff it is not a CUSTOM one that is not updating |
| Preview.PreviewListsTheRun | internal/dryrun/dryrun.go:113-126 | without CUSTOM nodegroups the preview lists exactly the run's requests, in order |
| Preview.Analyze | internal/dryrun/dryrun.go:113-126 | every nodegroup in its category, in order: to update, updating or unreadable, on the latest AMI without force; the preview breaks off iff some description is empty |
| Preview.AnalyzeNodegroup | internal/dryrun/dryrun.go:129-174 | the specified action for every description but an empty one, which is dereferenced, with the memo intact |
| Preview.LatestAmis.LatestAmi | internal/dryrun/dryrun.go:199-212 | the memo always agrees with the direct lookup |
| Preview.StartNodegroupUpdates | internal/commands/nodegroup/actions_update.go:432-510 | every nodegroup gets the disposition its description and the server's answer call for; requests go to exactly those decided on; progress entries match the started ones in order, each with the update ID of its answer |
| Preview.StartUpdate | internal/commands/nodegroup/actions_update.go:439-508 | one nodegroup of the run: custom ones, updating ones and, without force, those on the latest AMI are not submitted, everything else described is |
| Preview.AlreadyLatest | internal/commands/nodegroup/actions_update.go:517-545 | skips iff current and newest AMI are known and equal, never with force or an unknown version |
| Preview.OutcomesPartition | internal/commands/nodegroup/actions_update.go:424-431 | started, skipped, custom and failed hold every selected nodegroup exactly once |

## Left out

- Upgrade.RunUpgrade: does not say that a run succeeds, because every call may fail at any time; it says what holds wherever it stops.
- Engine.Execute: labels are records of what the printed labels say (phase, hop, counts); progress lines and error texts are not modelled.
- Planning.BuildPlan: descriptions, reasons and warnings of steps are not modelled; which versions EKS offers and what insights say is arbitrary per call, and recorded.
- Versions.ExpandHops: the loop counter is unbounded, so a target minor of the largest 64-bit integer, where Go's counter wraps, is not reproduced.
- NodegroupPhase.UpgradeNodegroups: the roll observer and the force flag do not affect the result and are not modelled.
- AddonPhase.UpgradeAddons: when the control plane is already past the target, the newest version for the target can be refused as incompatible with the cluster version; failure then needs no trouble.
- AddonPhase.Update: an addon version that is literally named "latest" would be resolved anew; the nil dereference of an empty description in the health checks is modelled as a failed check.
- AddonPhase.ListAddons: describes addons one after the other; when the context ends meanwhile the code leaves entries without a name, where the model keeps the names, without versions; either way the listing succeeds.
- Ansi.VisibleWidth: the width of a rune is any function into 0, 1 and 2 with 1 for a space and a dot; strings are sequences of runes, so invalid UTF-8 is not modelled.
- Retry.WithRetry: the backoff is computed without rounding and without overflow; the retried call is a request to a server that deduplicates by token; tokens are taken to be unique.
- Warnings.ScopeWarnings: times are natural numbers with zero as the zero time; the order of warnings that compare equal is left open, as by the unstable sort.
- Tracker.Tracker.Observe: phases are the three that classification produces, and a snapshot names every node once.
- PollFanIn.MonitorUpdates: displays, signals and the two kinds of context end are one arbitrary stop.
- TtlCache statistics, pod-eviction counts, node classification, the pressure and readiness conditions: one-branch computations.
- The AWS and Kubernetes clients, pagination, credentials, command-line parsing, how prompts are printed and read, rendering apart from tables, JSON and YAML output, the context store, update and changelog checks: input and output, or easy members only.
- Health-check scoring, support tiers, exit codes and SSM parameter paths: tables and one-branch facts.
