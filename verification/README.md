# k-lite control plane: a verified model

This project models the parts of k-lite that race: the replicas, controllers and agents that share one
compare-and-swap store, the endpoints engine and its watchers, and the compilers that turn policies and
allocations into Envoy configuration. It proves what those parts promise, over every input, every interleaving
or every reachable state.

- `Store.dfy` is the revisioned store (one strictly growing revision, create-only and CAS writes, pinned deletes)
  and the no-ABA fact every optimistic loop relies on. `Order.dfy` holds Go's string order, stable sorting and
  collecting loops.
- `NodeIndex.dfy` is the index protocol of Register, heal and yield at the grain of one store operation.
- `Instances.dfy`, `Rollout.dfy`, `Workload.dfy` and `Leaders.dfy` are the surge-first rollout: what a pass may do,
  what that guarantees and why it ends, the controller that does it, and overlapping leaders racing with agents.
- `Allocator.dfy` holds the VIP and ingress-port allocators; `Routing.dfy` connects their fixpoint with endpoint
  groups, load assignments and ingress listeners.
- `Endpoints.dfy` and `Watch.dfy` are the versioned per-node cache and the WatchDesired streams parked on it.
- `Policy.dfy` and `Rbac.dfy` are policy evaluation and its compilation to RBAC filter chains.
- `Agent.dfy` is the node agent's reconciler, `Scheduler.dfy` the scheduler, `Nodes.dfy` the node controller.
- `CommandHub.dfy`, `HubRuns.dfy` and `QueryLog.dfy` are the command hub, its interleavings and the query ring.

Protocols are state machines whose actions are single store operations or critical sections; history variables
(`asg`, `passed`, `since`, `sent`, `accepted`, `heard`, `strikes` and the like) are written by steps and read by none.
Code that updates things in place is a class or a method with loops, proved against functions and predicates that
the lemmas are about. Clocks and UUIDs are arbitrary values; random suffixes and failing calls come from arbitrary
functions of the draw or call number, so that a pass that reports failure can be held to a cause.

Five promises turn out not to hold as a reader might first state them; each has a witness, and the exact condition
under which it holds:

- two agents can be told one index (`NodeIndex.UncheckedIndexHandedOutTwice`), exactly when a Register skipped the
  check while another record held the index (`NodeIndex.DoubledAnswer`); and a yield that slept through a delete and
  re-apply erases a checked index (`NodeIndex.YieldErasesCheckedIndex`), which with the record's deletion is the only
  way to lose one (`NodeIndex.PassedIndexSticks`);
- a scale-down can retire the only READY instance (`Rollout.ScaleDownCanDip`, `Rollout.ScaleDownReady`);
- the drain-first fallback dips by one READY instance (`Rollout.FallbackDips`, `Rollout.PassKeepsReady`);
- the allocator's int32 slice and the agent's 64-bit slice are not always the same, nor are slices of different
  indices always disjoint: an index 2^27 above another lands on that node's slice, and a base below one climbs back
  above it (`Allocator.RangesDisagree`); `Allocator.RangesAgree` and `Allocator.SlicesMeet` say exactly when;
- a Logs waiter can hang after its agent disconnected (`HubRuns.LostSendHangs`): a command the handler took off the
  queue and failed to send is neither delivered nor swept. `HubRuns.UnheardIffLost` says exactly whose waiter hears
  no end.

Where the code and its comments differ the code is modelled: internal/agent/reconcile.go:20 speaks of consecutive
crashes, but nothing resets an instance's backoff while its UID stays (`Agent.StrikesStay`).

## Model

| member | source | states |
|---|---|---|
| Store.PinnedVersion | internal/store/etcd.go:166-235 | A key that shows one mod revision at two moments of any history held that very version at every moment in between, so CAS and pinned deletes are safe on stale reads |
| Store.HistoryEvolves | internal/store/store.go:31-49 | Across any stretch of history a stored version is untouched or newer than everything before |
| Store.Etcd.Put | internal/store/etcd.go:95-182 | Which expected revision commits, conflicts or is refused, if and only if; a refused write changes nothing, a committed one takes the next revision |
| Store.Etcd.Delete | internal/store/etcd.go:193-210 | Absent exactly when the key was absent; otherwise only that key goes |
| Store.Etcd.DeleteIfRevision | internal/store/etcd.go:212-235 | Commits exactly when the key still has the observed revision; each refusal has its own condition |
| NodeIndex.FreeNodeIndex | internal/server/agent.go:176-191 | The smallest index from 1 up that no listed record holds |
| NodeIndex.FreeFrom | internal/server/agent.go:176-191 | The least free index from any start on; PicksSmallestFree ties the machine's step to it |
| NodeIndex.IndexHolder | internal/server/agent.go:229-241 | Finds another record with the index if and only if there is one |
| NodeIndex.NextKeepsInv | internal/server/agent.go:90-147 | Every store operation of Register, heal, yield or any other writer, and every crash, declare and delete, keeps the protocol's invariant |
| NodeIndex.PicksSmallestFree | internal/server/agent.go:110-117 | Whenever Register picks, no stored record holds the index it picks and every smaller one from 1 up is held |
| NodeIndex.FreshRegister | internal/server/agent.go:90-147 | Left alone, a Register of a declared node without an index ends with the smallest free one stored, checked and answered |
| NodeIndex.KnownRegister | internal/server/agent.go:97-128 | A Register of a node that has an index is answered with it and changes no index; an undeclared node is refused |
| NodeIndex.LostRaceRetries | internal/server/agent.go:123-128 | A write that lost its race stores nothing and starts its own loop over |
| NodeIndex.CollisionYields | internal/server/agent.go:198-226 | A check that finds another holder ends, left alone, with the index cleared; a Register then starts over |
| NodeIndex.MootYield | internal/server/agent.go:207-215 | A yield whose record is gone or carries another index clears nothing |
| NodeIndex.HealRestores | internal/server/agent.go:333-385 | A heal of a record without an index stores the reported one, checked, if and only if no other record holds it |
| NodeIndex.HealLeavesIndex | internal/server/agent.go:344-353 | A heal never overwrites a set index |
| NodeIndex.StatusWrite | internal/server/agent.go:296-321 | A heartbeat's status write, left alone, moves the record's revision and no index |
| NodeIndex.IndexAfter | internal/server/agent.go:90-147 | Exactly which steps of a reachable state change a record's index, and to what |
| NodeIndex.RunKeepsInv | internal/server/agent.go:333-385 | The invariant holds throughout every run |
| NodeIndex.AtMostOnePassed | internal/server/agent.go:198-241 | In every reachable state, of two records with one nonzero index at most one passed its post-write check |
| NodeIndex.DoubledOnlyUnchecked | internal/server/agent.go:110-137 | Of two records sharing an index the later assignment never passed its check: its handler is still before it, or died before it |
| NodeIndex.DoubledAnswer | internal/server/agent.go:110-141 | A Register answer carries an index another record holds if and only if it skipped the check and that record held it at that moment; a checked answer never does |
| NodeIndex.PassedIndexSticks | internal/server/agent.go:198-226 | A checked index survives a step if and only if the step neither deletes the record nor is a yield still holding the stored version; such a yield belongs to an earlier assignment |
| NodeIndex.UncheckedIndexHandedOutTwice | internal/server/agent.go:110-137 | A run in which two crashed checks let two agents register the same index |
| NodeIndex.YieldErasesCheckedIndex | internal/server/agent.go:198-226 | A run in which a late yield clears an index that passed its check, because it compares index values only |
| Rollout.NewerStrict | internal/controller/workload.go:114-126 | Newest-first (creation, revision, name) is a strict order with no gaps, so sorting by it is deterministic |
| Rollout.PassSets | internal/controller/rollout.go:54-109 | Which names each group holds after a pass, from the groups before and the pass's victims, expiries and births |
| Rollout.PassTally | internal/controller/rollout.go:54-109 | How fresh, retiring, draining, doomed and READY counts move in each case of the choreography |
| Rollout.PassKeepsReplicas | internal/controller/rollout.go:54-109 | Fresh plus retiring ends at least the replicas and at most the larger of its old value and replicas plus one |
| Rollout.PassKeepsReady | internal/controller/rollout.go:91-125 | Outside scale-down READY stays at min(old READY, replicas) or above if and only if the drain-first fallback is not due at or below the replicas; the fallback costs exactly one |
| Rollout.ScaleDownReady | internal/controller/rollout.go:63-70 | Scale-down keeps READY if and only if its victims were not serving or the unready fresh it keeps do not outnumber the retiring |
| Rollout.ScaleDownCanDip | internal/controller/rollout.go:63-70 | A pass that drains the only READY instance and keeps one that never served |
| Rollout.FallbackDips | internal/controller/rollout.go:103-106 | A pass in which the fallback is due and leaves nobody READY |
| Rollout.OneRetirementAtATime | internal/controller/rollout.go:71-109 | A rollout retires at most one instance, a retiring one, and none while any drains |
| Rollout.PassShrinks | internal/controller/rollout.go:54-109 | With fresh READY and drains expired a pass lowers the measure, or the rollout is done and the pass changes nothing |
| Rollout.RolloutTerminates | internal/controller/rollout.go:31-109 | Every sequence of such passes longer than the measure reaches exactly the replicas fresh, nothing retiring, doomed or draining, so that every stored instance is READY with the target's template on a node that stays, even if retiring or draining instances fail or vanish in between |
| Rollout.DoneMeans | internal/controller/rollout.go:31-52 | Done means, on stored fields, exactly the replicas, each READY with the target's template on a node that stays |
| Rollout.ChoreographyMeans | internal/controller/rollout.go:54-125 | The choreography decides, on stored fields and messages alone, who goes and how many are born, in each case if and only if |
| Rollout.NewestMeans | internal/controller/workload.go:114-126 | Victims are later created than those spared, of equals later written, at last by name |
| Rollout.PassMeans | internal/controller/rollout.go:54-147 | What a pass makes of each stored instance, field by field, and what a newborn carries |
| Rollout.FallbackMeans | internal/controller/rollout.go:98-125 | When the drain-first fallback is due, on stored fields |
| Workload.Classify | internal/controller/rollout.go:31-52 | The four groups of a listing, the serving ones a newest-first permutation; each membership as an if-and-only-if on phase, template hash and the node's drain |
| Workload.NewestFirst | internal/controller/workload.go:116-126 | A permutation of the listing, newest first |
| Workload.Controller.DeleteInstance | internal/controller/workload.go:162-175 | Removes exactly the listed version, else leaves the store alone |
| Workload.Controller.Retire | internal/controller/rollout.go:130-147 | READY goes DRAINING with its deadline, anything else is deleted, a moved version is left alone |
| Workload.Controller.ExpireDrains | internal/controller/rollout.go:152-166 | Deletes exactly the drains whose known deadline passed; unknown deadlines restart, known ones never move |
| Workload.Controller.CreateInstance | internal/controller/workload.go:130-155 | Adds one pending instance under the first drawn name nobody has; fails if and only if all five draws are taken, and then changes nothing |
| Workload.RollMeans | internal/controller/workload.go:133-154 | A roll fails exactly when every one of its tries is taken, and otherwise finds the first that is not |
| Workload.ClearDrawsSucceed | internal/controller/workload.go:128-155 | With suffixes that collide with nothing, any number of creates succeeds |
| Workload.NextAction | internal/controller/rollout.go:91-109 | When a pass surges and when it drains, if and only if, and which reason it gives |
| Workload.AnyBlocked | internal/controller/rollout.go:114-125 | Whether some unbound fresh instance carries a refused placement |
| Workload.Controller.RollStep | internal/controller/rollout.go:91-109 | At most one create or one retirement of the newest retiring instance, and nothing else; fails if and only if the surge runs out of names |
| Workload.Controller.Advance | internal/controller/rollout.go:54-86 | The choreography on what the pass listed, the names born being exactly those the creates due come up with; it fails if and only if one runs out of names, and then only that birth is missing |
| Workload.Controller.Reconcile | internal/controller/workload.go:39-112 | A pass over a workload's stored instances is the choreography's Pass, expiries decided on the deadlines the leader held and births on the draws, if and only if every create due finds a name; otherwise exactly the births that found none are missing. Deadlines of vanished instances are forgotten, every draining instance has one, a known one moves only when its instance is drained anew, and whoever starts to drain says why |
| Leaders.RunKeepsInv | internal/controller/workload.go:28-61 | The invariant of overlapping leaders, agents and scheduler over every run |
| Leaders.JustifiedDeletion | internal/controller/workload.go:157-175 | No leader, however stale, deletes an instance READY at that instant while its workload was listed |
| Leaders.DrainNeverCutShort | internal/controller/rollout.go:143-173 | While its workload is listed a DRAINING instance is deleted by drain expiry alone, no sooner than its timeout after the uid first became DRAINING, across any leader lives |
| Leaders.SinceIsFirst | internal/controller/rollout.go:130-147 | The recorded moment is the first at which the uid is stored DRAINING |
| Leaders.DrainOnlyForward | internal/server/agent.go:426-441 | A stored DRAINING never becomes PENDING, RUNNING or READY under the same uid |
| Leaders.ReportReplacesWhatItRead | internal/server/agent.go:409-446 | A committed status or scheduler write is computed from the exact version it replaces |
| Leaders.WriteMeans | internal/server/agent.go:409-446 | A report or scheduler write takes effect if and only if the version it read is still stored and the report names its node and uid, or the instance is still unbound; what it then stores, field by field; otherwise nothing changes |
| Leaders.LeaderMay | internal/controller/rollout.go:31-70 | What a leader may do about an instance it listed, if and only if, by workload, phase, template, node and deadline |
| Leaders.DeleteMeans | internal/controller/workload.go:162-175 | A leader's delete removes the version it listed if and only if that is still stored, and never anything else |
| Leaders.ListMeans | internal/controller/workload.go:44-60 | A listing takes in the store as it is and keeps exactly the deadlines of uids still in it |
| Leaders.RetirementCompletes | internal/controller/rollout.go:130-166 | A READY instance retired, left alone, is DRAINING until its own timeout and may be deleted at that moment and not a second before |
| Leaders.TakeoverCompletes | internal/controller/rollout.go:152-173 | A leader that finds a drain it has no deadline for deletes it exactly one timeout later |
| Leaders.CreateMeans | internal/controller/workload.go:130-155 | What may be created: PENDING, unbound, name and uid not in use; it is stored as made |
| Allocator.FirstFreeVip | internal/controller/vip.go:145-154 | The lowest usable address not reserved; fails if and only if all usable ones are |
| Allocator.UsableVipCount | internal/controller/vip.go:145-154 | The pool has exactly 16,256 usable addresses |
| Allocator.VipFree | internal/controller/vip.go:145-154 | With fewer addresses reserved than that, one is free |
| Allocator.RangesAgree | internal/agent/infrapod.go:222-233 | For every base and index an int32 can hold, the exact condition under which the allocator's slice is the one the agent publishes |
| Allocator.RangesAgreeBelow | internal/controller/ingress.go:65-75 | In particular they agree for positive bases while the slice's end fits an int32, with the slice spelled out |
| Allocator.RangesDisagree | internal/controller/ingress.go:57-75 | Index 2^27+1 gets the slice of index 1, and base -31 a slice at index 2, while the agent publishes neither |
| Allocator.SlicesMeet | internal/controller/ingress.go:65-75 | Two nodes' slices share a port if and only if their indices are a multiple of 2^27 apart and the slice is not empty |
| Allocator.RangesDisjoint | internal/controller/ingress.go:65-75 | Otherwise one slice ends before the other starts |
| Allocator.FirstFreePort | internal/controller/ingress.go:221-228 | The lowest free port of the slice; fails if and only if all are used |
| Allocator.SurvivorsClean | internal/controller/ingress.go:145-174 | The allocations that survive the scan are wanted, in range, on their node and pairwise distinct |
| Allocator.RepairedSurvives | internal/controller/vip.go:74-100 | At the fixpoint every allocation survives |
| Allocator.VipSurvives | internal/controller/vip.go:74-100 | A VIP is kept if and only if wanted, within 10.44.64.0/18 and not held by an earlier name |
| Allocator.PortSurvives | internal/controller/ingress.go:145-174 | A port is kept if and only if wanted on the node it was allocated for, within that node's slice and not held by an earlier name |
| Allocator.FullMeans | internal/controller/ingress.go:192-228 | A pool is full for a spec exactly when it has a slice and everything the slice offers is taken |
| Allocator.Controller.ReconcileAllocation | internal/controller/ingress.go:145-174 | Keeps an allocation exactly when wanted, sound and first to its address; reserves its address either way |
| Allocator.Controller.Scan | internal/controller/ingress.go:104-108 | After the scan exactly the survivors are stored and every seen address is reserved, doomed ones included |
| Allocator.Controller.Allocate | internal/controller/ingress.go:192-219 | Fails if and only if the spec's pool or slice has nothing left; a granted address was reserved by nobody, suits the spec, and is stored under the name only if it was free |
| Allocator.Controller.Fill | internal/controller/ingress.go:109-111 | In name order, every name left over gets a fresh address unless its own slice is full; what was stored stays; new addresses avoid every one seen, each is the lowest on offer, and they rise with the names |
| Allocator.Controller.Reconcile | internal/controller/vip.go:36-70 | One undisturbed pass repairs any starting set: survivors, exactly, keep their allocation, the rest is wanted, sound and distinct, a wanted name is missing only if the addresses seen and stored cover its own slice, ok if and only if none is missing, new addresses avoid every one seen, are the lowest on offer and rise with the names, existing plus new up to 16,256 VIPs never exhausts, and a repaired set is left alone |
| Routing.PairNameInjective | internal/controller/ingress.go:41-43 | Dotted pair names of dot-free labels never collide |
| Routing.Wanted | internal/controller/ingress.go:117-139 | Exactly the selected pairs on indexed nodes, each under its own name with its own spec |
| Routing.BuildGroups | internal/controller/endpoints.go:372-398 | Every service's group lists, in order, its selected, addressed, READY or DRAINING instances with their ingress riders; AssignmentShows says on stored fields what that comes to |
| Routing.BuildIngressListeners | internal/controller/endpoints.go:335-364 | A node's listeners in allocation-name order, those without address or service skipped |
| Routing.ListenersDeterministic | internal/controller/endpoints.go:345 | Equal inputs render equal listener lists, whatever order the allocation map is walked in |
| Routing.Lookups | internal/controller/endpoints.go:336-343 | The two lookup maps agree with the lists, later entries winning |
| Routing.BuildLoadAssignment | internal/xds/builder.go:472-491 | Local endpoints raw, remote ones as hops to machine address and ingress port, others left out |
| Routing.AssignmentShows | internal/controller/endpoints.go:372-409 | End to end over groups and assignment: a node is shown an endpoint if and only if some selected, addressed instance is READY or DRAINING, with that very health, raw when local, else at its node's advertised address and its allocated port |
| Routing.SelectsFit | internal/controller/endpoints.go:478-490 | A selector without entries selects nobody; every entry must fit, a missing label reading as empty |
| Routing.PassKeepsNames | internal/controller/ingress.go:192-219 | A pass of the allocator leaves every allocation under the name of its own service and instance |
| Routing.ReconcileIngress | internal/controller/ingress.go:77-112 | A pass of the ingress controller over one read leaves the fixpoint routing relies on, whatever stood before, unless a selected pair on an indexed node found its slice full |
| Routing.AllocationOrigin | internal/controller/ingress.go:117-174 | At the fixpoint every allocation belongs to a selected pair on its instance's node, with a positive port |
| Routing.OneHolder | internal/controller/endpoints.go:335-364 | At the fixpoint no ingress port is listened on twice anywhere in the cluster |
| Routing.OwnerHolds | internal/xds/builder.go:552-604 | The owning node has the listener, forwarding to the instance's address and target port |
| Routing.RoutingRefinesDialling | internal/xds/builder.go:472-491 | Whatever a node's assignment shows for an endpoint, the dial reaches that endpoint's address and port and nothing else, health unchanged, even with shared machine addresses |
| Routing.LeftOutIff | internal/xds/builder.go:465-491 | An endpoint is missing from a node's assignment exactly when it is remote and its node is unadvertised or has no slice |
| Routing.ShownIff | internal/xds/builder.go:465-491 | At the fixpoint an instance is shown to a node if and only if it is selected, addressed, READY or DRAINING, and local or on an advertised node with a slice |
| Routing.AllocatedIff | internal/controller/ingress.go:117-139 | At the fixpoint a pair holds a port if and only if it is selected on a recorded node with a slice |
| Routing.ListensFor | internal/controller/endpoints.go:335-364 | A node listens for an allocation if and only if it is the node's own, its instance has an address and its service is listed |
| Routing.ServedNodes | internal/controller/endpoints.go:236-252 | Every recorded node and every node an instance is bound to is served, and no other |
| Routing.BuildIPIdentity | internal/controller/endpoints.go:415-430 | An address maps to the first service selecting the last listed selected instance that holds it; every selected addressed instance has one |
| Endpoints.EndpointsEngine.Snapshot | internal/controller/endpoints.go:88-98 | Nothing before the first pass; an unknown node is empty at revision zero |
| Endpoints.EndpointsEngine.Subscribe | internal/controller/endpoints.go:103-115 | A subscription nobody had, with no kick pending |
| Endpoints.EndpointsEngine.Cancel | internal/controller/endpoints.go:110-115 | A cancelled subscription is gone and no other one's kick is touched |
| Endpoints.EndpointsEngine.Decay | internal/controller/endpoints.go:151-161 | Departed nodes already empty are dropped, the others decay to empty |
| Endpoints.EndpointsEngine.Differing | internal/controller/endpoints.go:162-169 | Exactly the nodes whose content moved |
| Endpoints.EndpointsEngine.Swap | internal/controller/endpoints.go:147-187 | New revisions on exactly the changed nodes, content as built or empty, kicks to all when anything moved or on the first pass |
| Watch.NextKeepsInv | internal/server/agent.go:268-294 | Every pass and every step of every stream keeps the invariant over content; a stream about to send has not just sent that revision |
| Watch.RunKeepsInv | internal/server/agent.go:268-294 | The invariant holds throughout every run |
| Watch.StepExists | internal/controller/endpoints.go:147-187 | Every step the machine allows has a successor, a pass over any built content included |
| Watch.NoLostWakeup | internal/server/agent.go:277-293 | A stream parked with no kick pending on a ready engine has last sent what the engine reports for its node, across decay and drop |
| Watch.CatchesUp | internal/server/agent.go:277-293 | A stream has a step of its own exactly until it is parked without a kick, and its own steps run out |
| Watch.LookDecides | internal/server/agent.go:277-287 | A stream that looks sends if and only if the engine is ready and its node's revision is not the one last sent; otherwise it parks with nothing changed |
| Watch.SendRemembers | internal/server/agent.go:281-287 | A send delivers the snapshot looked at and remembers its revision |
| Watch.WakeLooks | internal/server/agent.go:288-293 | A kick is consumed by the stream it wakes, which then looks again |
| Watch.ConnectMeans | internal/server/agent.go:277-280 | A new stream has sent nothing, starts by looking, and has no kick waiting |
| Watch.NoResend | internal/server/agent.go:277-293 | Over every run two sends of one stream with none in between carry different revisions |
| Watch.RevisionDeterminesContent | internal/controller/endpoints.go:147-194 | Over a whole run node and revision determine content, and revision zero is empty |
| Watch.RevisionsGrow | internal/controller/endpoints.go:170-176 | A node whose snapshot moved has a revision above every earlier one, or was dropped and reports empty |
| Watch.DropStep | internal/controller/endpoints.go:151-161 | A node leaves the cache only in a pass that finds it departed and already empty |
| Watch.ServedEmptyBeforeDrop | internal/controller/endpoints.go:143-161 | Before a node with content is dropped its empty snapshot was served under a newer revision |
| Policy.FirstMatching | internal/policy/policy.go:31-41 | The first rule of a policy that matches, found if and only if there is one |
| Policy.ScanAllow | internal/policy/policy.go:51-64 | The first admitting rule, and otherwise whether any rule targets the service |
| Policy.ScanDenies | internal/policy/policy.go:27-42 | A DENY match settles the decision; none found means none exists |
| Policy.Evaluate | internal/policy/policy.go:24-73 | The full decision: verdict independent of order and spelled out on the rules' fields, the responsible policy least by name (earliest among equals) and its first matching rule |
| Policy.ReasonMeans | internal/policy/policy.go:27-72 | What each reason says, on the policies' fields: whose rule is blamed, that no hit has a smaller name nor an earlier place under the same name, and that no earlier rule of it applies |
| Policy.AdmittedMeans | internal/policy/policy.go:102-117 | The verdict on rule fields: source equal or wildcard, destination equal, or wildcard without the destination in its except list |
| Policy.ExceptedHasNoSay | internal/policy/policy.go:112-117 | A policy whose rules all name other services, or except this one, changes no decision about it, wherever it stands |
| Policy.NamedRuleApplies | internal/policy/policy.go:112-117 | A DENY rule that names the service denies even if it excepts the service too |
| Policy.OrderIndependent | internal/policy/policy.go:94-100 | With distinct names the whole decision, reason included, does not depend on the input's order |
| Policy.SortedCulprit | internal/policy/policy.go:94-100 | The first hit of the sorted clone is the input's least hit by name and position |
| Policy.Compile | internal/policy/policy.go:78-92 | One entry per rule in name-then-rule order, standing for exactly the rules of the policies |
| Policy.CompileKeepsMeaning | internal/policy/policy.go:75-92 | Compiled entries admit a source exactly as the policies do; an unidentified source fares like any service no rule names |
| Rbac.KeyInjective | internal/xds/builder.go:284-294 | RBAC map keys never collide, whatever the index width or policy name |
| Rbac.PrincipalsFor | internal/xds/builder.go:296-325 | The wildcard principal, or exactly the service's addresses in ascending order |
| Rbac.AddPolicy | internal/xds/builder.go:284-294 | Adds the policy under its own key, overwriting none, unless it has no principals |
| Rbac.RbacFilters | internal/xds/builder.go:239-271 | The DENY then ALLOW chain, which admits an address exactly as the compiled policies admit its identity |
| Rbac.TargetsAgree | internal/xds/builder.go:273-278 | The filter builder's own test of a compiled entry is evaluation's test of the rule it came from, and what both say of the fields |
| Rbac.ChainMeaning | internal/xds/builder.go:233-271 | Every chain of that shape has that meaning, including the empty ALLOW filter that admits nobody |
| Rbac.FiltersRefineEvaluate | internal/xds/builder.go:233-325 | End to end: the chain admits an address if and only if Evaluate allows whoever it belongs to |
| Rbac.ChainAdmitsByFields | internal/xds/builder.go:233-325 | The same on the rules' fields: whom the chain admits, from the policies as written |
| Agent.MatchContainers | internal/agent/reconcile.go:82-97 | Each desired name gets the first listed claimant by name, UID and hash if it has any; exactly the rest are orphans |
| Agent.NodeAgent.StartInstance | internal/agent/reconcile.go:145-169 | Nothing behind a closed gate; else one new running container of the instance, or, if and only if a call failed, FAILED with its retry armed |
| Agent.NodeAgent.RestartInstance | internal/agent/reconcile.go:183-205 | First notices a crash, then waits out the gate, then replaces the container, or arms the retry if and only if a call failed |
| Agent.BackoffDoubles | internal/agent/reconcile.go:43-48 | After k+1 strikes the gate shuts for 2^k seconds, thirty at most |
| Agent.BackoffCountsStrikes | internal/agent/reconcile.go:172-196 | Over an agent's life an instance's backoff is that of the crashes and failures its UID had so far |
| Agent.StrikesStay | internal/agent/reconcile.go:209-218 | Running well never takes a strike back while the UID stays in the snapshot |
| Agent.NodeAgent.ReconcileInstance | internal/agent/reconcile.go:99-142 | Running or draining containers are untouched whatever fails; without faults the exact next state and containers |
| Agent.StepMeans | internal/agent/reconcile.go:145-235 | The fault-free step of an instance that does not drain, field by field: READY or RUNNING by its probe, a crash noticed once with its doubled backoff, nothing behind a shut gate, one new container through an open one |
| Agent.DrainingStepMeans | internal/agent/reconcile.go:117-142 | A draining instance is only watched: DRAINING while its container runs, FAILED afterwards, its gate and container as they were |
| Agent.StateForMeans | internal/agent/reconcile.go:266-283 | A UID not seen before starts clean with an open gate and the reported restart count |
| Agent.ArmedMeans | internal/agent/reconcile.go:172-179 | What a failed call leaves: FAILED, one strike, and the next try one doubled backoff from a moment of the step |
| Agent.NodeAgent.RemoveOrphans | internal/agent/reconcile.go:246-264 | Only orphans stop or vanish, and all are gone but those of names a failed call of their own is logged for |
| Agent.NodeAgent.Reconcile | internal/agent/reconcile.go:56-77 | No pass if and only if the listing fails; every pass is guarded; it steps every instance but those a failed call of their own is logged for, and reports no error if and only if no call failed |
| Agent.PassTidies | internal/agent/reconcile.go:56-97 | For every name nothing failed for: its containers are claimed, one at most, and a matched running or draining one was not touched |
| Agent.TwoPassesConverge | internal/agent/reconcile.go:145-205 | Two passes in which nothing failed for an instance, the second once its gate is open, leave it one running container if it does not drain, whatever failed for others |
| Agent.ConvergedIsFixpoint | internal/agent/reconcile.go:56-77 | From then on a pass in which nothing fails for it starts, stops and removes nothing of it |
| Agent.DrainSticks | internal/agent/reconcile.go:99-142 | Over an agent's life, faults included, a UID seen draining is never run again, its container never touched, and reports only DRAINING or FAILED while it stays in the snapshot |
| Scheduler.PickNode | internal/controller/scheduler.go:79-108 | The node with fewest instances, least name among equals, of those READY, not cordoned, pinned if there is a pin and with room; with none, the reason that tells a pin from a full cluster |
| Scheduler.PickedMeans | internal/controller/scheduler.go:79-108 | Choices and refusals, if and only if, on the nodes' fields |
| Scheduler.PickOrderIndependent | internal/controller/scheduler.go:79-108 | The choice does not depend on the order nodes are listed in |
| Scheduler.CountBound | internal/controller/scheduler.go:40-48 | Counts equal the listed instances per node, and exactly the unbound ones are pending |
| Scheduler.CapacityKept | internal/controller/scheduler.go:61-74 | A placement never takes a node past its capacity |
| Scheduler.BalanceKept | internal/controller/scheduler.go:79-100 | An unpinned placement keeps receivers at most one above any node with room |
| Scheduler.SchedulerLoop.Bind | internal/controller/scheduler.go:112-128 | Binds the listed version or, when it moved, nothing; either way the placement counts |
| Scheduler.SchedulerLoop.ExplainPending | internal/controller/scheduler.go:132-147 | Leaves the instance unbound with exactly the reason its pin gives, without a write if it has it already |
| Scheduler.SchedulerLoop.Reconcile | internal/controller/scheduler.go:26-76 | Who is placed where on a possibly outdated list: pins and schedulability respected, capacity and balance kept, left out only when a failed write of its own is logged or nothing suits at the end, an error if and only if a write failed, and the store changed exactly so |
| Scheduler.PassMeans | internal/controller/scheduler.go:26-147 | What a pass stores of a pending instance, field by field: bound to a node fit to run it, or unbound with the refusal its pin gives, and no node took it at the end |
| Scheduler.PlannedIsStored | internal/controller/scheduler.go:26-76 | Undisturbed, the planned load is the stored load |
| Scheduler.StoredLoads | internal/controller/scheduler.go:26-108 | Undisturbed, every node ends at no more than max(old load, capacity), and unpinned passes are balanced |
| Scheduler.RefusalBlocksSurge | internal/controller/rollout.go:114-125 | Every refusal the scheduler writes is one the rollout recognises as blocking its surge |
| Scheduler.LeftPendingBlocks | internal/controller/scheduler.go:61-74 | An instance a pass left unbound, its write not having failed, blocks its rollout's surge from then on |
| Nodes.PhaseSettles | internal/controller/node.go:105-123 | Phase moves settle within three passes, never lift a cordon, and leave a node pending deletion unschedulable |
| Nodes.TransitionMeans | internal/controller/node.go:105-123 | Which phase and cordon one look leaves, each if and only if |
| Nodes.LostMeans | internal/controller/node.go:80-100 | A node is given up if and only if it was heard once, has been silent for more than 45 seconds, and is not being re-drained or removed |
| Nodes.NodeController.ReconcileNode | internal/controller/node.go:56-101 | The record is removed if and only if listed as pending deletion, empty and still that version; otherwise the one transition is written if it changes anything; a node's instances go if and only if it is long silent and they are still as listed |
| Nodes.NodeController.Evacuate | internal/controller/node.go:130-149 | Exactly the node's instances still at their listed revision are deleted |
| Nodes.RemovedVersionLabelled | internal/controller/node.go:63-78 | Under any interleaving the version removed carries the pending-delete label, and did all along |
| Nodes.ReapplyCancelsDelete | internal/controller/node.go:63-78 | A record rewritten since the list is never removed by that pass |
| CommandHub.Hub.Attach | internal/server/commands.go:49-59 | A new stream takes the node's slot with an empty queue |
| CommandHub.Hub.Detach | internal/server/commands.go:64-85 | Frees the slot only if it is still this stream's, empties its queue and tells the waiters in order |
| CommandHub.Hub.Send | internal/server/commands.go:90-104 | Accepted if and only if a stream is registered with room, and then queued last |
| CommandHub.Hub.AddWaiter | internal/server/commands.go:108-114 | Parks a fresh empty channel under the id |
| CommandHub.Hub.RemoveWaiter | internal/server/commands.go:127-135 | The waiter is gone and marked so |
| CommandHub.Hub.Route | internal/server/commands.go:141-156 | Delivered exactly when a waiter is parked under the id |
| CommandHub.SweepTells | internal/server/commands.go:70-84 | A sweep tells the waiter of every queued Logs command and nobody else |
| HubRuns.RunKeepsInv | internal/server/commands.go:49-156 | The hub's invariant over every interleaving of its critical sections |
| HubRuns.LeavesExactlyOnce | internal/server/commands.go:90-104 | What a stream accepted is, in order, what was delivered, what the handler has in hand or lost, what detach took, then what waits; nothing waits in a closed stream |
| HubRuns.UnheardIffLost | internal/server/commands.go:61-85 | Once a stream closed, the parked waiter of a Logs command it accepted heard no end if and only if the command was lost in a failed send, or its agent got it and has not ended it |
| HubRuns.LostSendHangs | internal/server/commands.go:172-181 | A run that ends with the stream closed, the command lost and its waiter parked, having heard nothing |
| HubRuns.NewestIsRegistered | internal/server/commands.go:46-59 | The registered stream of a node is exactly its newest one while that one's handler runs |
| HubRuns.DetachKeepsNewer | internal/server/commands.go:64-69 | Detaching a displaced stream leaves its successor registered |
| HubRuns.WaiterNodeFixed | internal/server/commands.go:108-125 | As long as a command has a waiter, its output belongs to the node the command was sent to |
| HubRuns.RunBounded | internal/server/commands.go:49-59 | Over every run no queue and no waiter's channel holds more than its sixteen slots |
| QueryLog.Ring.Record | internal/netd/queries.go:49-55 | The full history grows by the entry while the ring keeps its last 4096 |
| QueryLog.Ring.Since | internal/netd/queries.go:65-81 | The last min(n, 4096) entries of the history filtered by time, oldest first |
| QueryLog.AnswerMeans | internal/netd/queries.go:65-81 | A read answers exactly those of the last 4096 entries that are no older than its cursor and than thirty seconds |
| QueryLog.PollerMissesNothing | internal/netd/queries.go:57-65 | A poller feeding back its last timestamp reads every entry not overwritten or aged out by the first poll after it |
| QueryLog.RereadsShareMillisecond | internal/netd/queries.go:57-65 | What it reads twice shares the cursor's millisecond |

## Left out

- etcd elections, sessions and watch transport: leadership is any set of concurrent processes, and a List is one atomic read of a kind.
- NodeIndex.RunKeepsInv: the per-process mutex and the five-attempt retry cap are dropped, which only adds interleavings; certificates, heartbeats and addresses of a node record are not modelled.
- Workload.Controller.Reconcile: one workload's instances at a time, and of the store calls only creates can fail, by running out of names; grouping by workload, template errors and updateStatus are left out, and stale lists are the subject of Leaders.
- Rollout.PassTally: the empty string is not the name of a draining node, so an unbound instance is never retiring.
- Leaders.WriteMeans: of a status only phase and message are modelled, so a report that changes neither may still write, or be abandoned.
- Leaders.DrainOnlyForward: a DRAINING that became FAILED may later be reported READY by an agent that never saw DRAINING; nothing is claimed about that.
- Allocator.Controller.Reconcile: other writers do not interfere during a pass, and store calls do not fail.
- Allocator.Controller.ReconcileAllocation: the stored service and owner of an allocation are not rechecked, as in the program.
- Routing.Wanted: service and instance names are distinct and free of dots, as the store's keys and internal/object/validate.go:12-13 make them.
- Routing.RoutingRefinesDialling: speaks of one consistent read at the allocator's fixpoint; TLS, metadata matching and Envoy's balancing are outside the model, and a hop is answered by whoever listens on the port.
- Rbac.RbacFilters: addresses are compared as strings, so two spellings of one IPv6 address count as two; addresses that do not parse are rejected earlier by validateNet, which is not part of this model.
- Endpoints.EndpointsEngine.Swap: content is abstract under equality; the onChange and onRemove callbacks and sorted reporting are left out.
- Agent.NodeAgent.Reconcile: which calls fail is given by an oracle over call numbers, and what a failing call leaves behind is arbitrary; grace periods, image names and probe traffic are left out; containers do not crash in the middle of a pass, they may between passes.
- Agent.TwoPassesConverge: the desired instances stay and the instance's container does not crash between the two passes, by hypothesis.
- Scheduler.SchedulerLoop.Reconcile: pins are given as a map from workload to node; node names are nonempty and unique.
- Nodes.PhaseSettles: heartbeats between passes and evacuation liveness are left out.
- CommandHub.Hub.Route: as a method it runs alone and does not block on a full channel; blocking, room and departed waiters are steps of HubRuns.
- HubRuns.UnheardIffLost: an agent pushes output only for commands it got, and a failed send delivers nothing.
- apply, sanitize and mergeSpec beyond what they do to node indices, drain narration, DNS serving, probes, the Docker, netlink, TLS and YAML code, the CLI and the frontend: I/O, presentation or easy members.
