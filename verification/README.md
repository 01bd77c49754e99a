# Verification of kubergrunt's deployment and maintenance commands

A Dafny model of the parts of kubergrunt that change a cluster and must not go wrong half way: the rolling deployment
of `kubergrunt eks deploy` with its recovery file, the concurrent fan-out and the waits under it, the removal of a
cluster's security groups, two algorithms of `kubergrunt eks sync-core-components`, and the chain of secrets written by
`kubergrunt tls gen`. What the code promises is stated as contracts and lemmas; where a natural promise does not hold,
the lemma gives the exact condition under which it does.

## The modules

| files | content |
|---|---|
| `Collections`, `Totals`, `Paging`, `Strings` | lists without duplicates, sizes of sets, ordered batches, sums over lists, listings handed out page by page, splitting and joining |
| `Cloud`, `Rollout` | the group of instances as AWS and Kubernetes see it; the rollout as a state machine over process memory, recovery file and cloud, with crashes, failed calls, restarts and failing instances as steps |
| `RolloutInvariant`, `RolloutMoves`, `RolloutTheorems` | the invariant of that machine, its preservation by every step, and what follows for every run |
| `RolloutRecovery`, `RolloutWitnesses` | exactly when a stopped rollout can be completed, and runs that end in each of the ways the theorems allow for |
| `RolloutAfresh`, `RolloutMemory` | commands that pass over a recovery file, and what holds of the process even then |
| `DeployState` | the command itself: a class with the flags and records of the program, whose stage methods are proved to take only steps of the machine; it calls the waits, filters, error lists and batches of the modules below |
| `RetryBudget` | the arithmetic of the default number of retries |
| `FanOut`, `TargetGroups` | goroutines, channels of capacity one and wait groups in every interleaving |
| `NodeReadiness`, `LoadBalancers`, `Instances` | the waits for nodes and load balancers, service and hostname parsing, batched termination |
| `BuildSearch`, `Corefile` | the search for the latest build and the rewrite of the CoreDNS configuration |
| `Cleanup` | the removal of network interfaces and security groups as a protocol over recorded API calls |
| `Certificates`, `TlsGen` | key pairs, certificates, the temporary workspace, and the store of secrets |

## How the rollout is modelled

A `World` is the process with its place in the program, its memory, the recovery file, the cloud, the group as the
rollout found it, and the set of instances that have failed on their own since. The file is absent, corrupt or a
record of flags and groups; saving truncates it first and writes it in a second step, and the process may stop before,
between and after. Every call may fail, and one that reports an error may have taken effect; the command then stops. A
restart reads the file. The environment launches instances up to the desired capacity, makes them ready, and lets them
fail or leave. A run is any sequence of such steps from a group no rollout has touched.

The program also starts from an empty state although there is a file, if it is told to ignore it or if reading it fails
(`eks/deploy_state.go:60-69`). A history is a run in which that may happen too. The theorems about runs hold for exactly
the histories without it (`RolloutAfresh.RunIffNeverAfresh`); what it does to the record is stated beside them.

`Deploy.Outside` holds the cloud, the file and the ghost trace of all worlds so far, which is a history. Each method that
calls out extends the trace, and may only extend it by steps of the machine, so every lemma about runs applies to the
program as long as no command has passed over a file. A ghost log of the calls that failed, the sleeps, the listings and
the kubectl commands says why a method stopped: each of them may do so only for a reason that is recorded there.

## What the code does that its descriptions do not say

- `eks deploy` budgets 600 seconds for each wave of ten instances; the comment above says five minutes
  (`eks/deploy.go:116-126`). The model follows the code.
- `RestoreCapacityDone` is never set (`eks/deploy_state.go:322-335`), so a resumed command restores the maximum again,
  which is harmless.
- A stop between the first accepted detach batch and the write of its flag cannot be resumed to the end
  (`RolloutRecovery.StopAmidDetachIsFinal`). `RolloutRecovery.RecoverableIff` gives the condition under which a stopped
  rollout can be completed.
- A stop while the recovery file is being written leaves a file that no later command gets past unless it is told to
  ignore it (`RolloutTheorems.CorruptIffTorn`).
- An error of reading the recovery file counts as there being none. In the middle of a rollout the next record then holds
  the sizes and instances of that moment: the same originals only if nothing has changed, and twice the capacity once the
  group was scaled up (`RolloutAfresh.RegathersSameIff`, `RolloutAfresh.RegathersDoubled`).
- A rollout can succeed and leave a larger group. If an instance fails between the end of the first wait and the second
  look at the group (`eks/deploy_state.go:147-159`), fewer originals are recorded than the capacity, and each missing one
  stays on top of the desired size, up to the maximum (`RolloutTheorems.FinishedCloud`,
  `RolloutWitnesses.ThreeBecomeFour`).
- The certificate of a secret that is no CA can sign (`tls/gencmd.go:119-158`); what it signs does not pass path
  validation (`TlsGen.IssuersAreCAsIff`).
- A fatal error in the wait for a target group blocks its worker on a second send, and the wait hangs for good
  (`TargetGroups.HangsIffFatal`).
- Errors of terminating instances are appended to a copy and lost; success says only that every batch was attempted
  (`Instances.TerminatedIffAllSucceeded`).
- One pass of the Corefile rewrite can leave a match behind (`Corefile.IdempotentIffNoTwin`).
- The build search can miss later builds behind a gap (`BuildSearch.LatestIffGapsShort`).
- The name of a public load balancer that starts with `internal-` is not recovered from its hostname
  (`LoadBalancers.PublicNameParsesIff`).
- A signed key pair stored under the base name `ca` has its own certificate as `ca.crt`
  (`TlsGen.CaCertificateIffOtherName`). An error of loading the signing key is ignored (`tls/gencmd.go:138-146`); it
  cannot occur for secrets the command stored (`TlsGen.LoaderMatches`).

## Model

| member | source | states |
|---|---|---|
| RolloutInvariant.InitInv | eks/deploy_state.go:118-124 | A fresh state over an untouched group is in the invariant of the rollout. |
| RolloutInvariant.EnoughLaunched | eks/asg.go:125-139 | At twice the capacity at least as many members are new as there were originals, even if some originals were replaced, because at most that many are original. |
| RolloutInvariant.StepInv | eks/deploy_state.go:129-335 | Every step keeps the invariant: stage action, failed call, save, crash, restart from the file, and every move of the environment. |
| RolloutInvariant.PathInv | eks/deploy.go:57-105 | Every world on every path that starts in the invariant is in it. |
| RolloutTheorems.DiskLagsAtMostOneStage | eks/deploy_state.go:86-102 | In every run the flags of a readable file are a prefix of the stages; each flagged stage's effect is in the cloud, nothing of a stage beyond the first unflagged one is, and memory is at most one stage ahead. |
| RolloutTheorems.CorruptNeverResumes | eks/deploy_state.go:65-76 | From an unreadable file no command gets further, and nothing but the environment changes the cloud. |
| RolloutTheorems.CorruptIffTorn | eks/deploy_state.go:97-100 | A file is left unreadable if and only if a process stopped between truncating and writing it. |
| RolloutTheorems.WriteAhead | eks/deploy_state.go:161-163 | Whenever the rollout has changed the cloud, the file is not absent, and a readable file and any process that gathered or read hold exactly the sizes and instances the group had before. |
| RolloutTheorems.OriginalsFrozen | eks/deploy_state.go:337-360 | As long as there is a file, no later stage, crash or resume of a run alters the recorded capacity, maximum or instances. |
| RolloutTheorems.ZeroDowntime | eks/deploy_state.go:205-300 | In every world of every run, the members of the group that are in service and the nodes that failed on their own together number at least the original capacity. |
| RolloutTheorems.NoOriginalTouchedEarly | eks/asg.go:73-121 | No original is cordoned, drained, detached or terminated before the new instances were found ready. |
| RolloutTheorems.CapacityConserved | eks/asg.go:260-279 | Minimum, desired and maximum stay in order at every step; from scaling up until the maximum is restored, desired is twice the original less one for each original detached so far. |
| RolloutTheorems.FinishedCloud | eks/deploy.go:97-113 | After any number of crashes a reported success leaves the cloud determined up to the instances launched: the maximum is restored, every instance recorded is out of the group, and the desired size is twice the original less the number recorded, cut off at the maximum. That is the original size if and only if the group was recorded complete or had no room above it. Enough new ready instances are there, counting those that failed; if none failed, exactly these. |
| RolloutTheorems.ResumeConfluence | eks/deploy_state.go:205-335 | Two successful runs from the same group end in the same cloud, up to which instances were launched and what became of them, however often each was stopped and resumed. |
| RolloutAfresh.RunIffNeverAfresh | eks/deploy_state.go:56-84 | A history is a run if and only if no command in it starts from an empty state while there is a file. |
| RolloutAfresh.RegathersSameIff | eks/deploy_state.go:60-69 | A command that starts afresh over a readable file and finds the group settled records the same originals if and only if the group still has the sizes and members it had before the rollout. |
| RolloutAfresh.RegathersDoubled | eks/deploy_state.go:60-69 | From scaling up until draining is flagged, it records twice the original capacity. |
| RolloutAfresh.OriginalsLostHappens | eks/deploy_state.go:60-69 | For every settled group there is a history after which the file on disk names twice the original capacity. |
| RolloutMemory.HistoryKeepsMemory | eks/deploy_state.go:129-335 | In every world of every history a process past gathering has a recorded group, and so has a readable file. |
| RolloutRecovery.RecoverableIff | eks/deploy_state.go:285-300 | A stopped rollout with a readable file can be brought to success if and only if the recorded originals are still members unless detaching is flagged, and the recorded new ones are not gone while they still have to be waited for. |
| RolloutRecovery.SettledGroupFinishes | eks/deploy.go:57-113 | The rollout of a settled group can always be brought to success: no stage asks for something that cannot happen. |
| RolloutRecovery.StopAmidDetachIsFinal | eks/asg.go:265-275 | Once an original is detached and the flag is not on disk, no continuation reports success. |
| RolloutRecovery.UnrecoverableNeverFinishes | eks/asg.go:260-279 | From a world that fails the condition no path of any length reaches success. |
| RolloutRecovery.RecoverableFinishes | eks/deploy.go:57-113 | From a world that meets the condition there is a path through all remaining stages to success. |
| RolloutWitnesses.StopAmidDetachHappens | eks/asg.go:265-275 | For every settled group there is a run that stops after its first detached batch, and no continuation of it succeeds. |
| RolloutWitnesses.NewInstanceGoneHappens | eks/deploy_state.go:229-244 | For every settled group there is a run that stops while it waits for a new instance that is gone, and no continuation of it succeeds. |
| RolloutWitnesses.TornFileHappens | eks/deploy_state.go:97-100 | For every settled group there is a run that leaves an unreadable file. |
| RolloutWitnesses.EndsTooLargeHappens | eks/deploy_state.go:147-159 | For every group that waits for one instance and has room above its size there is a run that succeeds and leaves one more instance wanted than before. |
| RolloutWitnesses.ThreeBecomeFour | eks/deploy_state.go:147-159 | Such a run for a group of three, which ends with four. |
| Deploy.Outside.Interfere | eks/asg.go:189-205 | Between calls only instances come, become ready, fail or leave; sizes stay. |
| Deploy.Outside.SetMaxSize | eks/asg.go:160-177 | A successful or effective request sets the maximum and pulls the desired size down to it. |
| Deploy.Outside.DetachInstances | eks/asg.go:265-275 | A batch with a non-member is rejected as a whole; an accepted one leaves the group and lowers the desired size. |
| Deploy.DeployState.constructor | eks/deploy_state.go:79-83 | A state has the fields read, and the retries and sleep given. |
| Deploy.ReadState | eks/deploy_state.go:60-77 | There is no state if and only if the file is to be ignored, is missing, or the call that read it failed; one that does not parse is an error; otherwise the state is that of the file. |
| Deploy.InitDeployState | eks/deploy_state.go:54-84 | The command begins with the state of the file or an empty one; there is no state exactly if a torn file was read; a file that is there is passed over if and only if it is to be ignored or the call that read it failed. |
| Deploy.DeployState.Persist | eks/deploy_state.go:86-102 | Success means that the file holds exactly this state; a failure stops the command and may leave the file unreadable. |
| Deploy.DeployState.WaitForCapacity | eks/asg.go:179-212 | Success means that members and desired size agreed; without success and without a failed call, each retry found the group unsettled and was followed by one sleep. |
| Deploy.DeployState.RecordGroup | eks/deploy_state.go:161-163 | The record appended and saved is the group as described, with its desired size, maximum and instances. |
| Deploy.DeployState.GatherAsgInfo | eks/deploy_state.go:129-164 | Takes only machine steps; on success the record is kept or made; a given budget is kept, and an unset one becomes the largest number of whole-second sleeps that fits into 600 seconds for each wave of ten of the recorded capacity. It stops only after a failed call, a wait that ran out, or, with no budget set, on a sleep under a second, and then always. |
| Deploy.DeployState.KeepGathered | eks/deploy_state.go:130-134 | A resumed command keeps a given budget and computes the same default from the record; it stops if and only if none is set and the sleep is under a second. |
| Deploy.DeployState.GatherFrom | eks/deploy_state.go:145-163 | From the first description on: a group that is not settled is awaited and described again, and what is recorded has the capacity first described. |
| Deploy.DeployState.SetMaxCapacity | eks/deploy_state.go:185-202 | Raises the maximum to twice the capacity only if it is lower, records it, sets the flag and saves. |
| Deploy.DeployState.LaunchedIds | eks/asg.go:125-139 | The result lists, without repetition and in the order of the group, exactly the members that are not original. |
| Deploy.DeployState.ScaleUp | eks/deploy_state.go:204-223 | Takes only machine steps; success means flag, new instances and file are in place. |
| Deploy.DeployState.WaitForNewNodes | eks/asg.go:88-107 | Success, found by counting listed nodes, means that every new instance is ready; without success and without a failed call, as many listings as retries were made and each of them failed the check. |
| Deploy.CountedAreReady | kubectl/node.go:38-43 | If the listing is truthful and the count passes, every instance asked for is ready. |
| Deploy.DeployState.WaitAndVerify | eks/asg.go:77-121 | Success means that the nodes were found ready by counting, and that for exactly the listed services that route to instances one wait for the new instances was made, in order, and succeeded; a stop has a failed call, a wait that ran out, a service that cannot be described or a failed wait as its reason. |
| Deploy.DeployState.WaitForNodes | eks/deploy_state.go:225-244 | Takes only machine steps; the flag is set only after both waits succeeded, with the load balancer waits as recorded. |
| Deploy.DeployState.CordonAll | kubectl/node.go:154-174 | Every node is cordoned once, in any order; the errors are those of exactly the commands that failed, in node order. |
| Deploy.DeployState.DrainAll | kubectl/node.go:108-128 | The same for draining. |
| Deploy.DeployState.CordonOne | kubectl/node.go:130-149 | One command is made for the node and its outcome recorded; a failure is remembered. |
| Deploy.DeployState.CordonNodes | eks/deploy_state.go:246-263 | Takes only machine steps; the flag is set only if every cordon reported success. |
| Deploy.DeployState.DrainNodes | eks/deploy_state.go:265-282 | Takes only machine steps; the flag is set only if every drain reported success. |
| Deploy.DeployState.DetachBatch | eks/asg.go:265-275 | One call detaches the given batch of recorded originals, which is of twenty unless it is the last, or the command stops because the call failed. |
| Deploy.DeployState.DetachInstances | eks/deploy_state.go:284-300 | Takes only machine steps; the flag is set only after every batch was accepted. |
| Deploy.DeployState.TerminateBatches | eks/instances.go:45-82 | Every batch is attempted in order; the list of errors stays empty, so the result is success. |
| Deploy.DeployState.TerminateInstances | eks/deploy_state.go:302-319 | Takes only machine steps; the flag is set after every batch was attempted, whatever came of it. |
| Deploy.DeployState.RestoreCapacity | eks/deploy_state.go:321-335 | Restores the recorded maximum and saves, without setting its flag. |
| Deploy.RollOutDeployment | eks/deploy.go:30-114 | A command takes only machine steps after reading, or passing over, the file; unless some command has passed over a file, success means that the goal of the rollout is met; a torn file that is read ends the command before it does anything; any other stop has a failed call, an exhausted wait, an impossible budget, a service that cannot be described or a failed load balancer wait as its reason. |
| Deploy.FinishedMeansRolledOut | eks/deploy.go:19-29 | In every run a reported success meets the goal of the rollout, as stated for `RolloutTheorems.FinishedCloud`. |
| Deploy.DeployState.Delete | eks/deploy.go:106-112 | The command ends in success, and the recovery file is gone unless its removal failed. |
| RetryBudget.WavesCover | eks/deploy.go:122-123 | The waves of ten are the fewest that cover the instances. |
| RetryBudget.DefaultIsLargest | eks/deploy.go:119-136 | The program divides by zero exactly on sleeps under a second; otherwise the default is the largest number of whole-second sleeps that fits into 600 seconds a wave. |
| RetryBudget.EnsureMaxRetriesMeans | eks/deploy_state.go:169-183 | A setting is kept; an unset one becomes the quotient of 600 seconds a wave by the sleep in seconds, both cut toward zero, for every capacity and sleep; the program stops if and only if none is set and the sleep is under a second. |
| RetryBudget.DefaultBudgetUnique | eks/deploy.go:119-136 | No other number meets that description. |
| RetryBudget.FullLoopSleeps | eks/asg.go:189-205 | A wait that runs out has slept more than 600 seconds a wave less one rounded sleep, and less than 1200 seconds a wave. |
| FanOut.WaitGroupZero | kubectl/node.go:108-126 | The wait is over only when every channel holds exactly its worker's message and is closed; the caller never reads from an empty closed channel. |
| FanOut.ScheduleIndependent | kubectl/node.go:154-174 | Whatever the interleaving, the result is the list of the messages of exactly the commands that failed, in node order, and empty if and only if every command succeeded. |
| FanOut.NeverStuck | kubectl/node.go:130-149 | No state before the return is stuck: no blocked send, no double close, no deadlock. |
| FanOut.StepDecreases | kubectl/node.go:108-149 | Every step of every interleaving decreases a measure. |
| FanOut.RunsEnd | kubectl/node.go:176-186 | Every run is over after at most 6n + 3 steps. |
| TargetGroups.ReportsFailing | eks/elb.go:41-50 | A run that returns reports exactly the groups whose wait gave up, whatever the interleaving and the order of collection. |
| TargetGroups.FatalNeverJoins | eks/elb.go:95-98 | One fatal error keeps the caller at the wait group in every state of every run. |
| TargetGroups.NeverStuck | eks/elb.go:29-51 | Without a fatal error no state before the return is stuck. |
| TargetGroups.RunsEnd | eks/elb.go:64-99 | Every run is over after a number of steps linear in the number of groups. |
| TargetGroups.HangsIffFatal | eks/elb.go:95-98 | A run that cannot go on has returned if and only if no group had a fatal error; otherwise each such worker is blocked with its first message still in the channel. |
| TargetGroups.FatalHangs | eks/elb.go:95-98 | With a fatal error every run can be continued to one that is stuck and has not returned. |
| TargetGroups.HangHappens | eks/elb.go:95-98 | A run with one group that hangs. |
| NodeReadiness.IsNodeReady | kubectl/node.go:202-210 | Ready means that the first condition of the ready kind is true. |
| NodeReadiness.FilterNodesById | kubectl/node.go:91-100 | The listed nodes whose name was asked for, in order. |
| NodeReadiness.AllNodesReady | kubectl/node.go:78-89 | True if and only if every node is ready. |
| NodeReadiness.CheckNodes | kubectl/node.go:38-44 | The test passes if and only if as many listed nodes as ids were asked for, all of them ready. |
| NodeReadiness.WaitForNodesReady | kubectl/node.go:19-60 | Success if and only if some listing within the limit passes the count and no earlier one failed; a timeout means that none did. |
| NodeReadiness.CountingIsEnough | kubectl/node.go:38-43 | With distinct node names the count passes if and only if no id is asked for twice and every id is a registered, ready node. |
| NodeReadiness.FilteredMembers | kubectl/node.go:91-100 | The filter keeps exactly the nodes asked for and no name twice. |
| NodeReadiness.SameCount | kubectl/node.go:38-40 | Equal counts mean no repeated id and all ids covered. |
| Paging.Listing.Fetch | kubectl/service.go:35-47 | An answer holds the page the token stands for and the token of the next one. |
| Collections.BatchesPartition | eks/instances.go:50-53 | Batches are an ordered partition: nothing lost, repeated or reordered, none empty or over the limit, only the last one short. |
| Collections.KeptAt | kubectl/node.go:92-100 | A filtered list consists of the elements at exactly the positions where the property holds, each once and in order. |
| Instances.InstanceDetailsFromIds | eks/instances.go:14-33 | All instances of all reservations on all pages, in order, if and only if every page was answered. |
| Instances.TerminateInstances | eks/instances.go:45-82 | Every batch of a thousand is attempted once, in order, even after failures, and waited for if and only if it was accepted; the result is success on every run. |
| Instances.TerminatedIffAllSucceeded | eks/errors.go:63-69 | All instances are known to be terminated if and only if every request and every wait succeeded; all were attempted, in batches within the limit. |
| Strings.JoinSplit | kubectl/service.go:120-131 | Joining inverts splitting. |
| LoadBalancers.InternalNameParses | kubectl/service.go:126-127 | The hostname of an internal load balancer parses to its name. |
| LoadBalancers.PublicNameParsesIff | kubectl/service.go:128-130 | That of a public one does if and only if the name's first part is not "internal". |
| LoadBalancers.NoNameIff | kubectl/service.go:121-125 | There is an error if and only if the first label has no dash. |
| LoadBalancers.DescribedAsAnnotated | kubectl/service.go:133-173 | A service is described if and only if it has an ingress and a name and routes to instances (no type, type "nlb", or "external" with no target or "instance") or to pods ("external" with "ip" or "nlb-ip"); the description is classic exactly without a type, and its target is the one just given. |
| LoadBalancers.GetAllServices | kubectl/service.go:26-49 | All services of all pages, in order, if and only if every page was answered. |
| LoadBalancers.FilterLoadBalancerServices | kubectl/service.go:94-103 | The services of the load balancer type, in order. |
| LoadBalancers.LoadBalancerServicesAt | kubectl/service.go:94-103 | These are the services at exactly the positions where the type is LoadBalancer, each once and in order. |
| LoadBalancers.GetAwsLoadBalancers | kubectl/service.go:51-92 | One description for each load balancer service on any page, in order, as its annotations and first hostname say, if and only if every page was answered and every such service can be described. |
| LoadBalancers.WaitForAnyInstancesRegistered | eks/asg.go:281-325 | Each instance-target load balancer is awaited once for the instances, in order, even after failures; with known types there is one error for each failed wait, in order; the result is empty if and only if all waits succeeded and every type and target is known or needs no wait. |
| LoadBalancers.WaitsAt | eks/asg.go:298-319 | The waits are for the services at exactly the positions that route to instances by their annotations, each once, in order and for the instances given. |
| LoadBalancers.FailedAt | eks/asg.go:318-323 | The failed waits are those at exactly the positions with that outcome, in order. |
| LoadBalancers.VerifyLoadBalancers | eks/asg.go:108-120 | From services to verdict the waits made are those for exactly the listed services that route to instances, and there is one error for each that failed; no impossible branch is reached; without a full list of described services no wait is made. |
| BuildSearch.FindLatestBuild | eks/sync.go:639-684 | The result is the least existing build whose next builds, as many as the misses allowed or as are left, are all absent; it costs exactly min(limit, result + misses) queries; nothing is found if and only if there is nothing up to the limit. |
| BuildSearch.FindLatestEksBuild | eks/sync.go:649-680 | With one hundred builds and five misses, the program's limits, a found build is the latest one if and only if no gap reaches the misses allowed; a base that is no eksbuild is returned as it is. |
| BuildSearch.ContainsIff | eks/sync.go:643-646 | A text contains a word if and only if it is the word with something in front and behind. |
| BuildSearch.EndUnique | eks/sync.go:653-674 | The description has at most one solution. |
| BuildSearch.EndExists | eks/sync.go:653-674 | It has one whenever a build exists and the registry answers. |
| BuildSearch.LatestIffGapsShort | eks/sync.go:651-671 | The search finds the latest build if and only if every gap between existing builds is short enough. |
| BuildSearch.LaterBuildMissed | eks/sync.go:651-671 | With builds one and seven only, the search ends at one. |
| Corefile.MatchLengthExact | eks/sync.go:625-629 | The computed match is the pattern's leftmost longest match at a position, and exists if and only if the pattern matches there. |
| Corefile.RewriteIffReplaces | eks/sync.go:629 | A text is the result of a pass if and only if it is the input with its leftmost longest matches, none of which overlap and between which none starts, replaced by one line end each. |
| Corefile.RewriteKeepsTokens | eks/sync.go:623-630 | A pass leaves the sequence of tokens as it was, with only some "upstream" tokens deleted. |
| Corefile.RewriteShortens | eks/sync.go:629-630 | A pass shortens the text if anything matches and changes nothing otherwise. |
| Corefile.RepeatReachesFixedPoint | eks/sync.go:629-630 | Repeated passes end in a text without matches, with all other tokens in place. |
| Corefile.OnePassIffNoTwin | eks/sync.go:625-630 | After one pass nothing matches if and only if the text has no two chained keywords, the first preceded by whitespace, the second matching, and between them whitespace that consists of tabs and line ends or does not begin with one. |
| Corefile.IdempotentIffNoTwin | eks/sync.go:629-630 | One pass is idempotent under exactly that condition. |
| Corefile.OnePassWithoutTwins | eks/sync.go:623-630 | One pass is enough whenever no two consecutive tokens are "upstream". |
| Corefile.OnePassNotAlwaysEnough | eks/sync.go:625-630 | A concrete text that a second pass changes again. |
| Cleanup.Ec2.Ask | eks/cleanup.go:413-423 | A call is made only when the order of the protocol allows it, and recorded with its answer. |
| Cleanup.JudgeSorts | eks/cleanup.go:177-345 | Which answers settle a call, which make it try again and which end the command, for each of the five calls. |
| Cleanup.DoWithRetry | eks/cleanup.go:207-242 | All answers but the last ask for another try, the last decides, and running out takes exactly one call more than the retries allowed. |
| Cleanup.DetachNetworkInterfaces | eks/cleanup.go:157-190 | One request for each interface listed as attached, in order, each accepted or moot; any other error ends it there. |
| Cleanup.WaitForDetached | eks/cleanup.go:253-313 | Success means that each interface in turn was seen detached or missing; an error names the interface it got stuck on and why. |
| Cleanup.DeleteNetworkInterfaces | eks/cleanup.go:192-251 | Success means that each delete in turn was accepted or moot; an interface in use is tried again within the limit. |
| Cleanup.WaitForDeleted | eks/cleanup.go:315-363 | Success means that each interface in turn was seen missing. |
| Cleanup.DeleteDependencies | eks/cleanup.go:100-131 | Success means that all four phases ran through for every listed interface, with thirty retries; on an error one got stuck and no later one began, or the listing failed. |
| Cleanup.DeleteGroupWithDependencies | eks/cleanup.go:49-67 | One listing and one turn for the group: it is reported deleted or gone exactly if the turn ended with that answer, and otherwise the listing failed, a phase got stuck or the deletion was refused. |
| Cleanup.CleanupSecurityGroup | eks/cleanup.go:49-97 | The controller's groups are looked up, once and by VPC and cluster, exactly if the first group was deleted, directly after it; success if and only if every group of the recorded answer was deleted, or all before one that was found gone, which ends the run; each group is listed and has its turn in order; any other end has a failed listing, turn or lookup as its reason. |
| Cleanup.DeletesWaitForDetachment | eks/cleanup.go:113-123 | No delete request is made before every listed interface was seen detached or missing. |
| Cleanup.GroupOutlivesInterfaces | eks/cleanup.go:49-59 | A group is deleted only after each of its interfaces was seen detached or missing, then deleted, then seen missing. |
| Cleanup.AttachedBlocksDeletion | eks/cleanup.go:102-131 | An interface never seen detached or missing keeps the group and all its interfaces alive. |
| Certificates.CreateCertificateKeyPair | tls/ecdsa_cert.go:28-66 | A new key of the requested curve or size, with a certificate for the requested names, subject and time, certified by itself or by the signing key if there is a signing certificate; a missing signing key fails. |
| Certificates.GenerateKeyPair | tls/options.go:79-103 | The three files of one key pair under the base name: algorithm, curve or size, DNS names, subject, time and CA flag as requested; it fails only on invalid options, a missing signing key or a failed call. |
| TlsGen.StoreAsSecret | tls/cert_common.go:120-155 | The stored secret holds the files under the base name and, if asked, the CA certificate; it is stored only under a free name and with keys without separators. |
| TlsGen.LoadCAKeyPair | tls/gencmd.go:167-211 | The workspace holds the three files of the signing secret, as recorded in it. |
| TlsGen.ObtainKeyPair | tls/gencmd.go:55-79 | The workspace ends with a key pair as requested that is a CA's, self-signed and without DNS names, or has exactly the names asked for and is signed with the key of the named secret, with that secret's certificate as ca.crt unless the base name is "ca". |
| TlsGen.GenerateSignedKeyPair | tls/gencmd.go:119-165 | The new certificate has exactly the DNS names asked for and was created under the loaded certificate and with the loaded key, read by the recorded algorithm. |
| TlsGen.GenerateAndStore | tls/gencmd.go:30-95 | Whatever happens the store stays a chain of genuine secrets; success adds exactly one, under a free name, with the annotations of the command, and a certificate with exactly the names asked for, or none for a CA, and with key, subject and time as in the options; it fails only if a call failed, the options are invalid or the base name has a separator. |
| TlsGen.AnnotatedMeans | tls/gencmd.go:76-83 | The annotations are the given ones, with algorithm, base name and, for a signed secret, the signer under the command's own keys. |
| TlsGen.Cluster.CreateSecret | kubectl/secret.go:44-56 | A taken name is refused; nothing else in the store changes. |
| TlsGen.AddFromFile | kubectl/secret.go:29-37 | The file's content under the key, and all other keys as before. |
| TlsGen.ExtendChain | tls/gencmd.go:55-94 | A chain stays one when a self-signed secret or one signed with a stored secret is added. |
| TlsGen.ChainsEndAtStoredCA | tls/gencmd.go:131-158 | Each signature in the chain of a stored certificate checks against the key of the certificate above it, up to a self-signed CA certificate that is stored as well. |
| TlsGen.IssuersAreCAsIff | tls/gencmd.go:119-158 | All certificates above a stored one are those of CAs if and only if it is self-signed or was signed with a self-signed secret. |
| TlsGen.UnsoundStoreHappens | tls/gencmd.go:55-94 | A store in which a signed secret with the base name "ca" has its own certificate as ca.crt, and another certificate hangs below it although it is no CA's. |
| TlsGen.CaCertificateIffOtherName | tls/cert_common.go:146-152 | The ca.crt of a signed secret is the signer's certificate if and only if the base name is not "ca"; the certificate was signed with the signer's private key. |
| TlsGen.RecordNamesSigner | tls/gencmd.go:76-78 | The record of a signed secret names a stored secret if and only if that one signed it. |
| TlsGen.SignedByTextInjective | tls/gencmd.go:77 | Different secrets have different records. |
| TlsGen.LoaderMatches | tls/gencmd.go:137-146 | The recorded algorithm selects the loader that reads the stored key, and certificate, private and public key belong together. |
| TlsGen.StoredCanSign | tls/gencmd.go:131-146 | Every stored secret holds what it takes to sign with it. |

## Left out

- The name of the group: one group, and the same one on resume; other changes to its sizes from outside are not modelled.
- 64-bit overflow of twice the original capacity, and the rounding of the wave count for capacities beyond 2^53.
- Deploy.Outside.DescribeGroup: that a settled group stays settled between the two reads of gathering is not assumed; instances that fail in between count as failed on their own.
- Deploy.RollOutDeployment: promises nothing about the goal once a command has passed over a recovery file, as what was recorded then need not be the group as it was; `RolloutAfresh` says how far it can be off.
- Deploy.Outside.NodeNames: a node is identified by its instance's id, and the pages of the description are those of `Instances.InstanceDetailsFromIds`.
- Deploy.Outside.ListNodes: a node listed as ready is ready at that moment.
- Deploy.DeployState.CordonAll: one command at a time takes effect; that every interleaving of the goroutines comes to the same list of errors is `FanOut.ScheduleIndependent`.
- NodeReadiness.WaitForNodesReady: a failing report after a timeout is also an error and is not told apart from the timeout.
- TargetGroups.ReportsFailing: how the retry loop of one group ends is an input; the lookup of the groups is left out.
- RolloutRecovery.RecoverableIff: says that success is possible, not that AWS will cooperate.
- BuildSearch.FindLatestBuild: the registry is a function of the build number; the text of tags is left out.
- Cleanup.CleanupSecurityGroup: authentication and the parsing of the cluster's ARN, which come before any call, are left out; so are sleeps.
- Cleanup.Ec2.ListInterfaces: the source reads one page of interfaces and so does the model.
- Cleanup.DoWithRetry: the retry helper is not part of the repository; it makes the call once and then as often again as the limit says, and stops on a fatal error.
- Certificates.Workspace.Join: a base name with a separator may lead anywhere; Kubernetes refuses the secret in the end.
- TlsGen.RecordNamesSigner: for a CA secret the user may pass an annotation under the same key, which is kept as it is.
- TlsGen.GenerateAndStore: the annotations the command adds to the caller's map are not visible to its caller in the model.
- The contents of certificates, keys and PEM files beyond who signed what, for which names and subject and for how long; randomness, serial numbers, the key usages and the fixed IP address of every certificate.
- Deletion and editing of secrets by others, labels beyond being stored, and the other secret functions.
- Classic load balancers: their wait is a single library call with an arbitrary outcome.
- Version and account tables, manifests, the cluster role patch, add-on scheduling, OIDC thumbprints, kubeconfig editing and command line parsing, which would add only simple members.
