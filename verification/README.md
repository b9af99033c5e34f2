# Placement policy scheduling, modelled and proved in Dafny

The scheduler plugin in `pkg/plugins/placementpolicy` places a share of a workload on a group of nodes. For each pod it
chooses a policy, counts the pods that are already on the policy's node group or promised to it, compares the count with
a target, writes the decision into a pod annotation, and enforces it by filtering (Strict) or scoring (BestEffort).
Nothing in the code states the cluster-wide result, that the configured share of the workload ends up on the group. This
project proves it over all runs, says how far it degrades when its assumptions fail, and shows that the bounds for
deletions and for stale reads are tight on both sides.

## How it is organised

| files | contents |
|---|---|
| `Prelude`, `Objects`, `Labels` | options and set sizes; pods, nodes, policies and the annotation; label matching and the lister's selector |
| `Quota`, `Tallies` | target arithmetic; counting stored pods and the drift of those counts |
| `Grouping`, `PolicyChoice`, `Normalize` | the loops of the plugin and its core package, in place where the source works in place |
| `Hooks`, `Plugin`, `HookLaws` | each extension point as a function; the methods on shared objects proved against it; what the hooks promise |
| `Cycles`, `CycleDriver` | one scheduling cycle as a function, what it amounts to, and the method that runs it on shared objects |
| `Scheduler`, `QuotaTheorems`, `RunTheorems` | the step system, its steps, and the theorems over whole runs |
| `UnsetMode`, `UnsetBounds`, `UnsetRuns` | the cycle under an omitted enforcement mode, what its runs keep, and when they still meet the quota |
| `Completion`, `Sharpness` | every run can be finished; the drift bounds are reached |
| `Informers` | the lock-protected informer registry |

The step system has one policy, fixed nodes with unique non-empty names, and a store of pods with any labels. `Create`,
`Cycle`, `Bind`, `FailBind` and `Delete` interleave freely, and a cycle may be repeated. A cycle carries two attempts,
each with what the pod lister shows and whether the API server accepts the update: the hook that decides first makes the
first attempt, and if both hooks decide, PreScore makes the second. (Its update still carries the resource version from
before PreFilter's, so that it is refused although PreFilter's was accepted is nothing unusual.) The lister may show
anything, deleted pods and old labels of others included, as long as it shows the pod of the cycle itself with its
labels. `Interfere` is any write to a stored pod, its labels included, that does not come from this policy's cycle:
another scheduler, another policy (such as one that governs a pod of another namespace that the label selector also
lists), or a user. A foreign change of a pod leaves a binding under way in place; a foreign binding ends it, because a
bound pod is not bound again.

Within a cycle the order of the calls is that of the scheduler that go.mod:15 names (k8s.io/kubernetes v1.22.2, which is
not part of this model): without nodes no hook is called, and if exactly one node passes Filter it is taken without
PreScore, Score and NormalizeScore.

*Selected* pods match the policy's pod selector, *decided* ones are bound or carry a parseable preference, *counted*
ones are bound to a node of the group or are unbound with the preference `true`. The *quota* of n pods is the target for
n, clamped to 0..n.

Where code and documentation differ, the model follows the code:

- Policies are sorted by ascending weight (`sort.Reverse` over a `Less` that is already descending), and the tie-break
  by enforcement mode and name described at apis/v1alpha1/placementpolicy_types.go:36-43 does not exist.
- An unset enforcement mode is not treated as BestEffort (apis/v1alpha1/placementpolicy_types.go:48): both PreFilter and
  PreScore act under it.

Properties one might expect that do not hold, each with an input that breaks it and the exact condition under which it
holds:

| expected | broken by | holds exactly when |
|---|---|---|
| at most one of PreFilter and PreScore acts in a cycle | `HookLaws.TiedModesBothAct` | `HookLaws.ModeExclusionIff` |
| the decision is the comparison with the quota | `HookLaws.EmptyValueEvadesQuota` | `HookLaws.DecisionIsQuotaTestIff` |
| the pods in a policy's list are governed by it | `HookLaws.ForeignPodUsesQuota` | `HookLaws.ListedPodsGovernedIff` |
| a cycle with the mode omitted does what a Strict one does | `UnsetMode.PromiseDespiteBoundPod` | `UnsetMode.UnsetCycleIsStrictIff` |
| runs with the mode omitted meet the quota | `UnsetRuns.UnsetFloorIsReached` | `UnsetRuns.UnsetModeExactIff`, `UnsetRuns.UnsetQuotaIff` |
| a BestEffort cycle annotates the pod and permits only the decided group | no node on that side, or a single node (same lemma) | `Cycles.BestEffortIsIntendedIff` |

## Model

| member | source | states |
|---|---|---|
| `RunTheorems.ExactQuota` | README.md:206 | under the enforced modes (Strict, or BestEffort with nodes of both kinds), over every run without disturbances and with fresh reads, the counted pods lie between the quota of the decided pods and the quota of all selected pods; once all are bound, exactly the quota is on the node group (any valid target size and action) |
| `RunTheorems.AssignedShare` | apis/v1alpha1/placementpolicy_types.go:70-73 | under the enforced modes (Strict, or BestEffort with nodes of both kinds), when all pods of such a run are bound, a percentage from 0 to 100 is met rounded down: `100*met <= p*N < 100*met+100`, counting pods on the group under Must and off it under MustNot |
| `QuotaTheorems.StepDrift` | pkg/plugins/placementpolicy/placementpolicy.go:119-135 | under the enforced modes (Strict, or BestEffort with nodes of both kinds), for each kind of step: only a disturbance (a deletion, a foreign write, a creation of an already decided pod) can raise the overshoot or the shortfall, by at most one, counting bindings under way that contradict their annotation as done; a cycle can raise the overshoot at most to the number of counted pods its cache hides plus the pods it lists wrongly, and the shortfall at most to the number of selected pods it does not list plus the pods it wrongly shows as counted |
| `QuotaTheorems.EventEffect` | pkg/plugins/placementpolicy/placementpolicy.go:137-192 | in every mode, each event leaves the other pods and the bindings under way for them alone; a cycle rewrites at most its pod's annotations, and what every event does to its own pod is spelled out |
| `RunTheorems.FreshRunDrift` | pkg/plugins/placementpolicy/placementpolicy.go:119-135 | under the enforced modes (Strict, or BestEffort with nodes of both kinds), over every run with fresh reads, overshoot and shortfall are each at most the number of disturbances, and this still covers the foreign writes whose pods have a binding under way to the other side |
| `RunTheorems.DeletionDrift` | pkg/plugins/placementpolicy/placementpolicy.go:119-135 | under the enforced modes (Strict, or BestEffort with nodes of both kinds), if deletions are the only disturbances, the counted pods leave the quota by at most the number of deletions, on either side |
| `RunTheorems.StaleRunDrift` | pkg/plugins/placementpolicy/core/core.go:76-95 | under the enforced modes (Strict, or BestEffort with nodes of both kinds), whatever the caches show, deleted pods and old labels, annotations and bindings included: if in every cycle the counted pods hidden and the pods listed though not selected are together at most k, and the selected pods not listed and the pods wrongly shown as counted at most h, every run keeps the counted pods at most k plus the number of disturbances above the quota, and at most h plus that number below it |
| `RunTheorems.BestEffortRefinesStrict` | pkg/plugins/placementpolicy/placementpolicy.go:199-326 | with nodes of both kinds and pods bound to best-scored nodes, the same events are legal under BestEffort and under Strict and reach the same store with the same permitted nodes |
| `RunTheorems.PromisesAreKept` | pkg/plugins/placementpolicy/placementpolicy.go:137-192 | under the enforced modes (Strict, or BestEffort with nodes of both kinds), over every run, with whatever caches: as long as nobody else writes to a pod, a binding of it that is under way permits only nodes on the side that its annotation promises |
| `QuotaTheorems.BindKeepsTallyIff` | pkg/plugins/placementpolicy/placementpolicy.go:372-403 | binding a pod to a permitted node leaves the numbers of selected, decided and counted pods as they are exactly when the pod's annotation promised the side of that node, or the policy does not select the pod |
| `QuotaTheorems.FreshDecision` | pkg/plugins/placementpolicy/placementpolicy.go:119-135 | with a fresh cache a selected pod is sent to the group exactly when the other counted pods leave room in the quota of all selected pods |
| `QuotaTheorems.CycleTally` | pkg/plugins/placementpolicy/placementpolicy.go:366-406 | under the enforced modes (Strict, or BestEffort with nodes of both kinds), after an accepted cycle a selected pod is decided, and counted exactly when the cached count was below the quota of the cached list; an unselected pod moves nothing |
| `QuotaTheorems.CacheCounts` | pkg/plugins/placementpolicy/placementpolicy.go:111-119 | what any pod cache that shows the pod itself can tell: the pod is in its own list; the length of the list exceeds the number of selected pods by at most the surplus ones and falls below it by at most the missing ones; the counted others and those shown differ by at most the hidden and the phantom ones |
| `Completion.Finish` | pkg/plugins/placementpolicy/placementpolicy.go:83-192 | in every mode and with nodes of both kinds, every run whose waiting pods the policy governs can be extended without a disturbance until all selected pods are bound |
| `Completion.CyclePermitsSomeNode` | pkg/plugins/placementpolicy/placementpolicy.go:153-192 | in every mode and with nodes of both kinds, a cycle whose updates are accepted leaves the pod a node on the decided side |
| `Sharpness.DeletionBoundIsReached` | pkg/plugins/placementpolicy/placementpolicy.go:124-135 | the deletion bound on the overshoot is tight: for each k, a MustNot policy with count k has a run with k deletions, no other disturbance and an overshoot of k |
| `Sharpness.DeletionShortfallIsReached` | pkg/plugins/placementpolicy/placementpolicy.go:119-135 | the deletion bound on the shortfall is tight: for each k, a Must policy with count k has a run with k deletions, no other disturbance and a shortfall of k |
| `Sharpness.InterferenceBoundIsReached` | pkg/plugins/placementpolicy/placementpolicy.go:390-400 | the same bound is tight for foreign writes: for each k, a Must policy with count 0 has a run with k foreign writes, no other disturbance and an overshoot of k |
| `Sharpness.StaleBoundIsReached` | pkg/plugins/placementpolicy/core/core.go:76-95 | the stale-read bound on the overshoot is tight: for each k, a Must policy with count 1 has an undisturbed run in which every cycle's cache hides counted pods and lists unselected ones, together at most k, and gets nothing else wrong, and which overshoots by k |
| `Sharpness.StaleShortfallIsReached` | pkg/plugins/placementpolicy/core/core.go:76-95 | the stale-read bound on the shortfall is tight: for each h, a MustNot policy with count 1 has an undisturbed run whose caches hide no counted pod and add none to the list, lack or wrongly show at most h pods, and which falls short by h |
| `UnsetRuns.UnsetModeExactIff` | apis/v1alpha1/placementpolicy_types.go:45-52 | with the mode omitted and nodes of both kinds, every undisturbed run with fresh reads whose pods are all bound has exactly the quota on the group if and only if the target size is a count of at most 1 (at most 0 under MustNot), or a percentage of at most 0 or at least 100, or just one node is off the group |
| `UnsetRuns.UnsetQuotaIff` | apis/v1alpha1/placementpolicy_types.go:45-52 | the same for each number of pods: every such run that ends with n selected pods meets their quota if and only if that quota is at most one pod, or all n, or just one node is off the group |
| `UnsetRuns.UnsetFloorIsReached` | pkg/plugins/placementpolicy/placementpolicy.go:199-253 | for every n whose quota is at least two but not n, given two nodes off the group, there is such a run of n pods that ends with a single pod on the group |
| `UnsetBounds.UnsetNeverOvershoots` | pkg/plugins/placementpolicy/placementpolicy.go:83-253 | with the mode omitted, every undisturbed run with fresh reads, also one in which updates are refused, keeps the pods on the group and those with a binding under way to it at most at the quota |
| `UnsetBounds.UnsetRunBounds` | pkg/plugins/placementpolicy/placementpolicy.go:83-253 | once all pods of such a run are bound, the number on the group is at most the quota, at least one unless the quota is none, and exactly the quota if that is at most one or all pods, or if at most one node is off the group |
| `UnsetRuns.SensitiveRunFails` | pkg/plugins/placementpolicy/placementpolicy.go:199-253 | for every other valid rule, given two nodes off the group, there is such a run that ends with one pod on the group and a larger quota |
| `UnsetRuns.SensitiveIff` | pkg/plugins/placementpolicy/placementpolicy.go:119-135 | the other rules are those for which some number of pods has a quota of at least two that leaves a pod out |
| `UnsetMode.UnsetModeCycle` | pkg/plugins/placementpolicy/placementpolicy.go:83-253 | the exact cycle with the mode omitted, whatever the API server answers to each of its updates: PreFilter's decision says where the pod may go; if only one node is left, that is all; otherwise PreScore decides again, promising the group also when the promises to other unbound pods alone are below the target, and that annotation stays if it is accepted; if it is refused, PreFilter's stays and the pod gets no node |
| `UnsetMode.UnsetCycleIsStrictIff` | pkg/plugins/placementpolicy/placementpolicy.go:199-253 | such a cycle stores and permits what a Strict one does exactly when its first update is refused, or at most one node is on the decided side, or the second update is accepted with the same decision |
| `UnsetMode.PromiseDespiteBoundPod` | pkg/plugins/placementpolicy/placementpolicy.go:216-253 | an input on which it does not: with one pod bound on the group, which is the quota of a Must count of one, the next pod is kept off the group with an annotation that promises it |
| `Cycles.StrictCycle` | pkg/plugins/placementpolicy/placementpolicy.go:83-192 | under Strict the whole composition of hooks sends one update, which annotates the pod with the decision, and permits exactly the decided group; scoring does not interfere |
| `Cycles.BestEffortCycle` | pkg/plugins/placementpolicy/placementpolicy.go:199-326 | under BestEffort with nodes of both kinds, one update is sent and the nodes with the highest normalized score are exactly the decided group |
| `Cycles.BestEffortIsIntendedIff` | pkg/plugins/placementpolicy/placementpolicy.go:199-326 | a BestEffort cycle whose update is accepted amounts to annotating once and permitting the decided group exactly when there are several nodes and one of them is on the decided side, or there is no node at all; with none on that side it permits all nodes, and in a cluster of one node it annotates nothing |
| `Cycles.UngovernedCycle` | pkg/plugins/placementpolicy/placementpolicy.go:83-253 | a pod that no policy governs: no update is sent and every node is permitted |
| `Cycles.IdleCycle` | pkg/plugins/placementpolicy/placementpolicy.go:94-98 | the same when PreFilter finds no policy or a BestEffort one and PreScore finds none or a Strict one, as with two tied policies |
| `Cycles.MalformedCycle` | pkg/plugins/placementpolicy/placementpolicy.go:121-124 | a policy with a malformed target size lets no cycle get to a node, and no update is sent, save that under BestEffort the only node of a cluster is taken without asking |
| `Cycles.OneLookup` | pkg/plugins/placementpolicy/core/core.go:58-74 | with one policy in force the lookup finds it exactly for the pods that it governs, so that the cycles of the step system are those of the hooks |
| `CycleDriver.SchedulingCycle` | pkg/plugins/placementpolicy/placementpolicy.go:83-326 | for any pod and any policies: calling the plugin's methods in the framework's order on the shared pod object and cycle state, while the lister and the API server may change their answers between two decisions, permits exactly the nodes, and sends exactly the updates, that the model of a cycle says for policies that the two lookups may find, and leaves the pod object as it was last sent, or untouched when nothing was sent |
| `CycleDriver.FilterNodes` | pkg/plugins/placementpolicy/placementpolicy.go:154-192 | running Filter over the node list keeps exactly the nodes that Filter passes |
| `Cycles.FeasibleKeepsOrder` | pkg/plugins/placementpolicy/placementpolicy.go:154-192 | the nodes that pass stand in list order |
| `CycleDriver.ScoreNodes` | pkg/plugins/placementpolicy/placementpolicy.go:256-292 | running Score over the feasible nodes fills the score list with each node's score and reports whether any call failed, also when there is no node snapshot |
| `Plugin.PlacementPolicyPlugin.PreFilter` | pkg/plugins/placementpolicy/placementpolicy.go:83-146 | succeeds exactly when the policies can be read and the policy found, if any, is BestEffort or nodes and pods can be read, its target size is well-formed and the update is accepted; otherwise the first of these failures is reported; unless it gets to annotating the pod, nothing changes; for a pod that no policy governs it succeeds and changes nothing; otherwise the pod's own annotation map is written through and cycle state is written |
| `Plugin.PlacementPolicyPlugin.PreScore` | pkg/plugins/placementpolicy/placementpolicy.go:199-253 | the same for PreScore on the nodes it is handed, with Strict in place of BestEffort and no node lister to fail |
| `Plugin.PlacementPolicyPlugin.Compare` | pkg/plugins/placementpolicy/placementpolicy.go:216-242 | counts the placed pods and compares with the scaled, possibly inverted target; reports the lister or target-size error otherwise |
| `Plugin.PlacementPolicyPlugin.Decide` | pkg/plugins/placementpolicy/placementpolicy.go:109-145 | the common tail of both hooks: it succeeds only with a decision that was sent and accepted; an unreadable pod list or a malformed target size is an error that changes nothing; cycle state is written under the given key, and no other, only after an accepted update |
| `Plugin.PlacementPolicyPlugin.Filter` | pkg/plugins/placementpolicy/placementpolicy.go:154-192 | the verdict of Filter on a node, from what PreFilter has written and the pod object's annotation, changing nothing |
| `Plugin.PlacementPolicyPlugin.Score` | pkg/plugins/placementpolicy/placementpolicy.go:256-292 | the score of a node from cycle state, snapshot and annotation, changing nothing; an unavailable snapshot fails the lookup of any node |
| `Plugin.PlacementPolicyManager.AnnotatePod` | pkg/plugins/placementpolicy/core/core.go:81-95 | exactly the two policy keys change, to the policy's name and to `true` or `false`, through the pod's own map when it has one; the update carries the new object; the pod object stays annotated even when the update fails |
| `HookLaws.HooksFrame` | pkg/plugins/placementpolicy/placementpolicy.go:83-146 | an error before annotating leaves pod and cycle state untouched, a failed update writes no cycle state, and the only change to a pod is its annotation under the chosen policy |
| `HookLaws.PreFilterSucceedsIff` | pkg/plugins/placementpolicy/placementpolicy.go:83-146 | PreFilter succeeds for every policy that the lookup may find if and only if each of them is BestEffort, or nodes and pods can be read, its target size is well-formed, and the update is accepted |
| `HookLaws.PreScoreSucceedsIff` | pkg/plugins/placementpolicy/placementpolicy.go:199-253 | PreScore succeeds for every policy that the lookup may find if and only if each of them is Strict, or pods can be read, its target size is well-formed, and the update is accepted |
| `HookLaws.ModeExclusionIff` | pkg/plugins/placementpolicy/placementpolicy.go:94-98 | each hook looks the policy up for itself; with nothing failing, no pair of lookups makes both hooks of a cycle act if and only if all least-weight governing policies of well-formed size that PreFilter may find are BestEffort, or all those that PreScore may find are Strict |
| `HookLaws.BothActIff` | pkg/plugins/placementpolicy/placementpolicy.go:209-213 | for given lookups and reads, both hooks write cycle state exactly when PreFilter's policy is not BestEffort, PreScore's is not Strict, both sizes are well-formed, and nothing fails |
| `HookLaws.LastHookPrevails` | pkg/plugins/placementpolicy/placementpolicy.go:137-145 | when both hooks act, the annotations left are PreScore's alone, decided on its own reads, while the cycle state keeps the policies of both |
| `HookLaws.TiedModesBothAct` | pkg/plugins/placementpolicy/core/core.go:68-73 | an input on which both hooks act: a Strict and a BestEffort policy of one weight; the pod ends up with the annotations of the BestEffort one |
| `HookLaws.TiedModesNeitherAct` | pkg/plugins/placementpolicy/core/core.go:68-73 | the same two policies found the other way round: neither hook acts, nothing is annotated, every node passes and all scores are equal |
| `HookLaws.FilterFollowsDecision` | pkg/plugins/placementpolicy/placementpolicy.go:173-191 | after PreFilter has written state Filter never fails, and passes exactly the nodes whose matching equals the decision; without state it passes all |
| `HookLaws.FilterVerdicts` | pkg/plugins/placementpolicy/placementpolicy.go:154-192 | Filter is unschedulable exactly for a node on the other side than the annotation, with cycle state written; it fails exactly without a node, or, with state written, without a parseable annotation; otherwise it succeeds |
| `HookLaws.BindingKeepsPlacement` | pkg/plugins/placementpolicy/placementpolicy.go:377-402 | binding a pod to a node that Filter passed does not change whether it counts |
| `HookLaws.ScoreAgreesWithFilter` | pkg/plugins/placementpolicy/placementpolicy.go:275-291 | Score gives 100 exactly to the nodes that Filter would pass for the same policy and annotation, and 0 to the others |
| `HookLaws.ScoreVerdicts` | pkg/plugins/placementpolicy/placementpolicy.go:256-292 | Score is 100 exactly for a known node on the side of the annotation, with cycle state written, and 0 otherwise; it fails exactly, with state written, for an unknown node or without a parseable annotation |
| `HookLaws.NormalizedKinds` | pkg/plugins/placementpolicy/placementpolicy.go:300-326 | normalizing keeps the plugin's scores when both 0 and 100 occur and flattens them to 0 when only one does |
| `HookLaws.RedecisionIsIdempotent` | pkg/plugins/placementpolicy/placementpolicy.go:372-376 | deciding again for a pod on an otherwise unchanged store gives the same outcome and leaves the store as it is |
| `HookLaws.DecisionIgnoresOwnAnnotation` | pkg/plugins/placementpolicy/placementpolicy.go:372-376 | the pod's own old annotations do not influence its decision |
| `HookLaws.FewerNodesCountFewer` | pkg/plugins/placementpolicy/placementpolicy.go:216-242 | on a part of the nodes the count is at most as large, so the node group is preferred whenever it is preferred on all of them |
| `HookLaws.PreScoreOnlyRaisesPreference` | pkg/plugins/placementpolicy/placementpolicy.go:216-242 | with the mode unset and the same policy found by both hooks, PreScore can turn PreFilter's preference from false to true only, whether or not its pod cache already shows PreFilter's update |
| `HookLaws.DecisionIsQuotaTest` | pkg/plugins/placementpolicy/placementpolicy.go:119-135 | for a pod in its own list the count is below the list's length and the decision is whether the quota leaves room |
| `HookLaws.DecisionIsQuotaTestIff` | pkg/plugins/placementpolicy/placementpolicy.go:121-135 | in general the decision differs from comparing the count with the quota exactly when every listed pod counts, so that the pod is not in its own list, and the target exceeds the length of the list |
| `HookLaws.EmptyValueEvadesQuota` | pkg/utils/labels.go:9-12 | an input where it differs: with an empty wanted label value, even a cached pod finds an empty list and prefers the group although the quota of no pods is 0 |
| `HookLaws.DecisionIgnoresOrder` | pkg/plugins/placementpolicy/placementpolicy.go:366-406 | the decision is invariant under permuting the node list and the pod list |
| `HookLaws.GovernedPodIsListed` | pkg/plugins/placementpolicy/core/core.go:102-106 | a cached pod governed by a policy without empty label values is in the list made for it |
| `HookLaws.ListedPodsGovernedIff` | pkg/plugins/placementpolicy/core/core.go:59-77 | policies are looked up per namespace while the list spans all: every listed pod is governed by the policy exactly when every listed pod is in its namespace |
| `HookLaws.ForeignPodUsesQuota` | pkg/plugins/placementpolicy/core/core.go:59-77 | an input where one is not: a promised pod of another namespace is listed, uses up a quota of one, and turns the decision for a governed pod from true to false |
| `HookLaws.ListedPods` | pkg/plugins/placementpolicy/core/core.go:76-78 | the list holds exactly the selected pods, with unique UIDs when the cache has them |
| `Grouping.GroupNodesWithLabels` | pkg/plugins/placementpolicy/placementpolicy.go:351-363 | the loop builds the matching nodes by name, a later node replacing an earlier one of the same name |
| `Grouping.NodeGroupNames` | pkg/plugins/placementpolicy/placementpolicy.go:351-363 | the group holds exactly the names of the matching nodes, each mapped to a matching node of that name |
| `Grouping.LastNodeStays` | pkg/plugins/placementpolicy/placementpolicy.go:356-361 | of the matching nodes with one name, the last in the list is in the group |
| `Grouping.GroupPodsBasedOnNodePreference` | pkg/plugins/placementpolicy/placementpolicy.go:366-406 | the loop, with its early continues, returns the counted pods in list order |
| `Grouping.PlacedIff` | pkg/plugins/placementpolicy/placementpolicy.go:377-402 | in terms of the pod's fields: a bound pod counts by its node alone, an unbound one exactly when its preference annotation is one of the texts that parse to true |
| `Grouping.CountedIsSublist` | pkg/plugins/placementpolicy/placementpolicy.go:366-406 | the grouped pods are exactly the listed pods that count, and stay unique by UID |
| `Grouping.CountedKeepsOrder` | pkg/plugins/placementpolicy/placementpolicy.go:366-406 | the grouped pods stand in list order |
| `Grouping.CountIgnoresPodOrder` | pkg/plugins/placementpolicy/placementpolicy.go:366-406 | the count does not depend on the order of the pod list |
| `Grouping.CountIsCardinality` | pkg/plugins/placementpolicy/placementpolicy.go:366-406 | with unique UIDs the count is the number of UIDs of listed pods that count |
| `Grouping.OwnPodLeavesRoom` | pkg/plugins/placementpolicy/placementpolicy.go:374-376 | a pod in its own list is skipped, so the count is below the length of the list |
| `Grouping.CheckHasLabels` | pkg/plugins/placementpolicy/placementpolicy.go:337-348 | the plugin's matching loop: no more wanted labels than labels, and every wanted value is there, or is empty and the key is missing |
| `Labels.HasMatchingLabels` | pkg/utils/labels.go:4-15 | the same for the loop that matches policies: a wanted label with an empty value does not match one with another value |
| `Labels.MatchesIff` | pkg/utils/labels.go:9-12 | what matching means for present, missing and empty values, in terms of the two maps alone |
| `Labels.MatchesIsSelection` | pkg/utils/labels.go:4-15 | without empty wanted values, matching is submap inclusion and the length test is implied |
| `Labels.ReadingsAgreeIff` | pkg/utils/labels.go:9-12 | matching and the lister's selector agree on all label sets exactly when no wanted value is empty |
| `PolicyChoice.GetPlacementPolicyForPod` | pkg/plugins/placementpolicy/core/core.go:58-74 | no policy exactly when none in the pod's namespace matches its labels, otherwise a matching one of that namespace whose weight is at most that of every other; the lister's slice is left as it was |
| `PolicyChoice.FilterPlacementPolicyList` | pkg/plugins/placementpolicy/core/core.go:101-110 | keeps the policies at exactly those places of the list whose pod selector matches the pod's labels, in list order |
| `PolicyChoice.SortReversed` | pkg/plugins/placementpolicy/core/core.go:70 | sorting under the reversed order gives ascending weights and a permutation |
| `PolicyChoice.Swap` | pkg/plugins/placementpolicy/core/sort.go:9-11 | exchanges two elements and leaves the others |
| `PolicyChoice.ChoiceExists` | pkg/plugins/placementpolicy/core/core.go:58-74 | a result always exists, and all possible results have the same weight |
| `Objects.AnnotationRoundTrip` | pkg/plugins/placementpolicy/core/core.go:81-95 | the written preference reads back as the decision, all other keys stay, and annotating twice is annotating once with the second decision |
| `Objects.AnnotationTexts` | apis/v1alpha1/placementpolicy_types.go:26-29 | the two keys and the texts of the preference, spelled out; every other key is as before |
| `Objects.PreferenceParses` | pkg/plugins/placementpolicy/core/core.go:87-92 | the text written for a decision parses back to it |
| `Objects.ParsesExactly` | pkg/plugins/placementpolicy/placementpolicy.go:178-182 | exactly six texts parse to true, and six to false |
| `Quota.QuotaMeaning` | apis/v1alpha1/placementpolicy_types.go:70-73 | a count is met as far as there are pods, a percentage from 0 to 100 rounded down, negative and larger sizes saturate |
| `Quota.TargetMeaning` | pkg/plugins/placementpolicy/placementpolicy.go:121-129 | before any clamping: a count is taken as it is, any percentage of the pods is rounded down, and MustNot takes what is left |
| `Quota.QuotaStep` | pkg/plugins/placementpolicy/placementpolicy.go:121-129 | for every integer or percent target, one more pod raises the quota by nothing or by one |
| `Quota.QuotaMonotone` | pkg/plugins/placementpolicy/placementpolicy.go:121-129 | the quota is monotone and grows by at most the number of added pods |
| `Quota.MustNotIsComplement` | pkg/plugins/placementpolicy/placementpolicy.go:125-129 | the quota under MustNot is the number of pods minus the quota under any other action |
| `Normalize.NormalizeScore` | pkg/plugins/placementpolicy/placementpolicy.go:300-326 | the in-place loops replace each score by its rescaling between the scanned extremes, in wrapping 64-bit arithmetic, and keep the names |
| `Normalize.RescaleAll` | pkg/plugins/placementpolicy/placementpolicy.go:316-322 | the second loop rescales every element once |
| `Normalize.NormalizedInGeneral` | pkg/plugins/placementpolicy/placementpolicy.go:313-322 | for any scores, those whose range overflows included: each becomes the quotient of its wrapped distance from the lowest, times 100, and the wrapped range, or 0 when that range is 0 |
| `Normalize.RescaledWraps` | pkg/plugins/placementpolicy/placementpolicy.go:320 | of the wrapped intermediate results only the wrapped product matters |
| `Normalize.QuotientTruncates` | pkg/plugins/placementpolicy/placementpolicy.go:320 | the quotient truncates toward zero for every sign; only the least value divided by -1 wraps |
| `Normalize.WrapMeaning` | pkg/plugins/placementpolicy/placementpolicy.go:314-320 | 64-bit results are the representable numbers congruent to the exact ones |
| `Normalize.ScanFindsExtremes` | pkg/plugins/placementpolicy/placementpolicy.go:302-311 | the first loop finds the extremes, except that scores all equal to the least 64-bit value leave the highest at its start value |
| `Normalize.RescaledExactly` | pkg/plugins/placementpolicy/placementpolicy.go:314-321 | with a range of at most MaxInt64/100 nothing overflows and the result is the exact rescaling rounded down |
| `Normalize.NormalizedIsRescaling` | pkg/plugins/placementpolicy/placementpolicy.go:313-321 | with such a range every result is in [0,100], least scores go to 0, greatest to 100 unless all are equal, and order is kept, strictly for a range of at most 100 |
| `Normalize.EqualScoresVanish` | pkg/plugins/placementpolicy/placementpolicy.go:317-318 | equal scores all become 0 |
| `Normalize.NormalizedIdempotent` | pkg/plugins/placementpolicy/placementpolicy.go:300-326 | normalizing a second time changes nothing |
| `Normalize.GreatestReaches100Iff` | pkg/plugins/placementpolicy/placementpolicy.go:320 | as long as the range fits in 64 bits, the greatest score becomes 100 exactly when the range is at most MaxInt64/100 |
| `Informers.SharedInformerFactory.constructor` | pkg/client/informers/externalversions/factory.go:76-92 | a new factory has no informers and has started none |
| `Informers.SharedInformerFactory.InformerFor` | pkg/client/informers/externalversions/factory.go:131-150 | returns the registered informer of a known type, registering what the constructor function makes of the type's own or else the default resync period only for an unknown one; the other types keep theirs, and the registry stays well-formed if that informer is not another type's already |
| `Informers.SharedInformerFactory.Start` | pkg/client/informers/externalversions/factory.go:95-105 | runs every registered informer that is not started yet, once, in whatever order the map is met; afterwards all registered types are marked as started |
| `Informers.StartRunsAll` | pkg/client/informers/externalversions/factory.go:95-105 | right after a start every registered informer has been run exactly once, and no other |
| `Informers.SharedInformerFactory.WaitForCacheSync` | pkg/client/informers/externalversions/factory.go:108-127 | waits for exactly the registered types marked as started and reports the result of each type's own informer |
| `Informers.RegistryRuns` | pkg/client/informers/externalversions/factory.go:95-150 | over any calls a type keeps its informer, started types are registered and stay started, and an informer runs at most once, exactly when its type is started |
| `Informers.AwaitedInformerIsRunning` | pkg/plugins/placementpolicy/placementpolicy.go:50-64 | with the constructor's order (lister, start, informer) the awaited informer is the registered one and has been run once, whatever calls come between |
| `Informers.LateRegistrationIsNotRun` | pkg/plugins/placementpolicy/placementpolicy.go:50-64 | registering only after the last start leaves the informer unrun |

## Left out

- SortReversed: states ascending weights and a permutation, not which of several equal weights comes first; that is up
  to Go's sort and to the lister's order.
- Scaled: uses exact integer floor division where the library goes through a float64, so rounding for huge operands is
  not modelled; integers of the target size are unbounded.
- StepDrift: a pod that the policy governs but its selector does not list (possible only with an empty wanted label
  value) is cycled but belongs to none of the three counted sets.
- ExactQuota: covers Strict, and BestEffort with nodes of both kinds when PreScore receives all nodes and pods go to
  best-scored nodes; for the omitted mode see `UnsetRuns.UnsetModeExactIff`.
- Runs have one policy in force, which governs the pods that they cycle; other pods, and two lookups that find different
  policies, are covered one cycle at a time.
- GetPodsWithLabels: the pod lister is a library call; its list is characterised by `HookLaws.ListedPods`.
- CycleDriver.SchedulingCycle: other plugins' filters and scores are not part of the model; they appear as the free
  choice of a permitted node, and as `FailBind` when they leave none. If they leave exactly one node, PreScore is
  skipped also where the model calls it. Nominated nodes and preemption are left out, too.
- In clusters of more than 100 nodes the scheduler stops filtering when it has found enough nodes; the model's cycle
  always filters all of them.
- Nodes are not added, removed, renamed or relabelled during a run.
- Cycles are whole steps: the framework runs one scheduling cycle at a time; bindings of other pods fall between cycles.
- The cast failure of cycle state and errors of `state.Read` other than "not found" cannot occur with the typed state
  map.
- Policies without selectors, without a policy section, or with match expressions: the code reads only match labels.
- Locks, goroutines, watch streams, API clients, generated code, logging, and process start-up.
