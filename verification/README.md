# A model of the Gardener logging extension

The extension runs Loki, fluent-bit and promtail for Gardener's seeds and shoots. This project models the parts of it
that decide something, and proves what they keep.

**The fluent-bit configuration.** The seed actuator joins the filters and parsers that other extensions provide in
ConfigMaps. It splits each filter text at `[FILTER]`, replaces the sections that mention `rewrite_tag` by a `modify`
filter for the tag that a regular expression captures, or drops them, and puts markers back.
`GoStrings`, `Regexp` and `RewriteTag` hold the string functions and the regular expression, `FilterRewriter` the
transformation as a function, `SeedActuator` the loops that compute it, and `FilterProperties` and `FilterIdempotence`
what it keeps and converges to. `CaptureText` and `FilterText` state the capture and the rewriting on the text alone.
`NameOrder` sorts the ConfigMaps.

**The webhook.** `OscEnsurer` puts promtail's units and files into an operating system config, replacing those of the
same key; `Upsert` relates that loop to a map override, `UpsertPositions` to positions in the lists, and `Promtail` has
the two modes that produce the units.

**The shoot's control plane.** `ApiServer` is a store of objects by kind, namespace and name, where each call may be
rejected, succeed, or take effect and still report an error. `EventLogger` and `KubeRbacProxy` deploy and destroy their
objects call by call, `Components` has the lists of calls, and `ShootActuator` runs one or the other as the feature
gates say. `ShootDecisions` proves what is left in the seed afterwards, and `Termination` what of that holds when a
deleted object lingers until its controller removes its finalizer.

**The lifecycle of the Logging object.** `Lifecycle` is a machine that makes one API call at a time; between any two,
other clients may create, change, mark for deletion or remove the object. Its rules for the operation type and for
skipping are parameters, so what `LifecycleSafety`, `LifecycleCalls` and `LifecycleEvents` prove does not depend on them.
`LifecycleDeletion`, `LifecycleRuns` and `LifecycleOutcomes` are about Gardener's own rules: whether retrying converges,
and what one undisturbed run achieves for each kind of object. `Reconciler` has the methods as the code has them, with
the wrapper that heeds the operation annotation, and proves that they make the machine's steps.

## What the proofs found

- Rewriting is idempotent on a text exactly when no captured name mentions `rewrite_tag`
  (`FilterIdempotence.Idempotent`). `NotIdempotent` gives a text where it is not: its tag is itself named `rewrite_tag`,
  so the second pass drops the section. Two passes settle every text.
- A section before the first marker that is not blank gains a marker, and every block gains a newline: a text survives
  unchanged only in the cases that `FilterIdempotence.FixedPoint` lists.
- Two kinds of object marked for deletion keep the finalizer for ever, because each run is skipped: those annotated to
  wait for state, and those whose last operation is a successful migration and which are not annotated for migration any
  more. The second kind comes about when the finalizers cannot be removed at the end of a migration and the annotation
  is overwritten before the retry. `LifecycleDeletion` proves that retrying converges on all others.
- Migrating an object that is marked for deletion succeeds, and yet the run returns an error: the object goes with its
  finalizers, before its annotation can be taken away (`LifecycleOutcomes.MigrateRun`).
- An error while restoring is recorded as an error of a deletion (`pkg/controller/lifecycle/reconciler.go:294` and
  `:299`); the model does the same.
- Switching node logging off does not take promtail away from the nodes. The reconciliation returns early
  (`pkg/controller/lifecycle/shoot_cp_actuator.go:247`) and leaves the managed resource that carries promtail's units and
  files as it was, so for this one, unlike for the two components, the seed depends on the history
  (`ShootDecisions.HistoryMattersForPromtail`). The disabled mode of `getConfig` is a parameter value that nothing passes.
- A reconciliation can succeed and still lose an object: exactly when the object was still being deleted when it was
  written (`Termination.ReconcileDecidesSlowly`), as right after its gate was off.

## Assumptions about the lifecycle

One worker handles the object at a time; reading it returns the latest version; its type never changes; other clients
do not remove our finalizer, do not write the status and do not undo a deletion. They may do anything else, including
removing or replacing an object that does not carry our finalizer. The objects of the two components, and the managed
resource that carries promtail, are changed by nobody else.

## Model

| member | source | states |
|---|---|---|
| `GoStrings.Index` | pkg/controller/lifecycle/seed_actuator.go:214 | First occurrence of a pattern, and no occurrence exactly when the answer is -1 |
| `GoStrings.TrimRight` | pkg/controller/lifecycle/seed_actuator.go:228 | The longest prefix that does not end in a character of the cutset |
| `GoStrings.TrimSpaceBlank` | pkg/controller/lifecycle/seed_actuator.go:222 | A section trims to nothing exactly when all its characters are white space |
| `GoStrings.JoinSplit` | pkg/controller/lifecycle/seed_actuator.go:212 | Joining the sections with the marker gives the text back |
| `GoStrings.SplitPieces` | pkg/controller/lifecycle/seed_actuator.go:212 | No section holds a marker |
| `GoStrings.SplitJoin` | pkg/controller/lifecycle/seed_actuator.go:212 | Splitting a join gives the pieces back, if none holds the separator and the separator cannot overlap itself |
| `Regexp.MatchHereIsBest` | pkg/controller/lifecycle/seed_actuator.go:42 | The backtracking matcher finds a match at an index exactly when there is one, and the one that comes first in the order of greedy and lazy repetitions |
| `Regexp.FindFromIsFirstChoice` | pkg/controller/lifecycle/seed_actuator.go:216 | Over all start indices: sound, complete, leftmost, then first in the order of the search |
| `RewriteTag.CaptureIsFirstLayout` | pkg/controller/lifecycle/seed_actuator.go:216-220 | A section matches exactly when it has a layout `$tag`, space, name, space, `user-exposed.$TAG`, space, `true`; the submatch is the name of the layout with least `$tag`, then most space after it, then shortest name; and of no other |
| `RewriteTag.CaptureIsTrimmed` | pkg/controller/lifecycle/seed_actuator.go:42 | The captured name neither starts nor ends with white space, except, exactly when only white space lies between `$tag` and `user-exposed.$TAG`, that it is one white space character |
| `RewriteTag.NameIsShortest` | pkg/controller/lifecycle/seed_actuator.go:42 | The name of the first layout holds no tail that could complete the match earlier |
| `CaptureText.CaptureIsFirstReading` | pkg/controller/lifecycle/seed_actuator.go:216-220 | On the text alone, with the five characters of white space and the one-line name spelled out: a section matches exactly when it is text, `$tag`, white space, a name on one line, white space, `user-exposed.$TAG`, white space, `true`, text, and what is captured is the name of the first such reading, by least text before, most white space, shortest name |
| `FilterRewriter.ReplacePlaceHolder` | pkg/controller/lifecycle/seed_actuator.go:201-206 | Replacing the first placeholder of the template puts the name between the two halves of the template, for every name |
| `FilterText.BlankIsAllWhite` | pkg/controller/lifecycle/seed_actuator.go:222 | A section counts as blank exactly when all its characters are among the 25 of Unicode white space |
| `FilterText.RewriteOfSection` | pkg/controller/lifecycle/seed_actuator.go:213-227 | Without a marker in it: a text that does not mention `rewrite_tag` is kept, with a marker in front unless it is blank; one that does becomes a marker and the `modify` filter, spelled out, for the name of its first reading, or nothing if it has no reading |
| `FilterText.RewriteOfMarked` | pkg/controller/lifecycle/seed_actuator.go:212-227 | Markers take texts apart: with the equation above this determines the rewriting of every text |
| `FilterProperties.ModifyContains` | pkg/controller/lifecycle/seed_actuator.go:201-220 | Neither the marker nor `rewrite_tag` arises in a `modify` filter unless the name brings it |
| `FilterProperties.KeptVerbatim` | pkg/controller/lifecycle/seed_actuator.go:213-227 | Sections without `rewrite_tag` survive as they are, in order |
| `FilterProperties.SelectiveRewriting` | pkg/controller/lifecycle/seed_actuator.go:213-227 | The survivors are the images of an increasing selection of the sections, and every section outside it is one that mentions `rewrite_tag` and does not match |
| `FilterProperties.KeptIsFreeOfMarkers` | pkg/controller/lifecycle/seed_actuator.go:213-227 | No surviving section, rewritten or not, holds a marker |
| `FilterProperties.EmitIsJoin` | pkg/controller/lifecycle/seed_actuator.go:221-227 | The builder holds the surviving sections, blank ones merged into the piece before them, joined by markers |
| `FilterProperties.Resplit` | pkg/controller/lifecycle/seed_actuator.go:212-227 | Splitting the output gives a blank lead and then the non-blank survivors in order, each with the white space of the blank ones after it; there are as many markers as non-blank survivors |
| `FilterProperties.RewriteDistributes` | pkg/controller/lifecycle/seed_actuator.go:212-227 | Rewriting two texts joined by a marker is rewriting each and concatenating |
| `FilterIdempotence.NoSecondCapture` | pkg/controller/lifecycle/seed_actuator.go:42 | The regular expression never matches a `modify` filter with a name that it captured, whatever the name |
| `FilterIdempotence.SecondPass` | pkg/controller/lifecycle/seed_actuator.go:212-227 | A second pass drops exactly the sections of the first output that mention `rewrite_tag`, and there are such sections exactly when a captured name mentions it |
| `FilterIdempotence.OutputMentionsRewriteTag` | pkg/controller/lifecycle/seed_actuator.go:212-227 | The output mentions `rewrite_tag`, across joins too, exactly when a captured name does |
| `FilterIdempotence.Idempotent` | pkg/controller/lifecycle/seed_actuator.go:212-227 | A second pass changes nothing exactly when no captured name mentions `rewrite_tag` |
| `FilterIdempotence.NotIdempotent` | pkg/controller/lifecycle/seed_actuator.go:212-227 | An input on which the second pass does change the output |
| `FilterIdempotence.TwoPassesSettle` | pkg/controller/lifecycle/seed_actuator.go:212-227 | For every text a third pass changes nothing, and no `rewrite_tag` is left after the second |
| `FilterIdempotence.FixedPoint` | pkg/controller/lifecycle/seed_actuator.go:212-227 | A text is left alone exactly when it has a blank lead, no blank section after it, and no `rewrite_tag` |
| `FilterIdempotence.FixedPointBlock` | pkg/controller/lifecycle/seed_actuator.go:211-228 | For such a text the block is the text without trailing spaces, and one newline |
| `FilterIdempotence.BlockMentionsRewriteTag` | pkg/controller/lifecycle/seed_actuator.go:211-228 | A block mentions `rewrite_tag` exactly when a captured name does |
| `FilterIdempotence.BlockAgain` | pkg/controller/lifecycle/seed_actuator.go:211-228 | A block is a fixed point exactly when no captured name mentions `rewrite_tag`; used as a text again it gains one newline and nothing else |
| `NameOrder.LessIsLexicographic` | vendor/github.com/gardener/gardener/pkg/utils/kubernetes/sorter.go:26-30 | Names are in the lexicographic order of their characters: a proper prefix comes first, or the smaller character where they first differ |
| `NameOrder.LessTotal` | vendor/github.com/gardener/gardener/pkg/utils/kubernetes/sorter.go:26-30 | This order is total and strict |
| `NameOrder.SortByName` | vendor/github.com/gardener/gardener/pkg/utils/kubernetes/sorter.go:43-59 | Sorts in place: the list is in order and a permutation of what it was |
| `NameOrder.SortedUnique` | pkg/controller/lifecycle/seed_actuator.go:199-200 | Items with distinct names have one sorted order only |
| `SeedActuator.ModifyFilter` | pkg/controller/lifecycle/seed_actuator.go:201-220 | The replacement in the template |
| `SeedActuator.Write` | pkg/controller/lifecycle/seed_actuator.go:221-226 | The marker unless the section is blank, then the section, after what the builder held |
| `SeedActuator.RewriteFilters` | pkg/controller/lifecycle/seed_actuator.go:211-227 | The loop over the sections computes the rewriting that the lemmas above are about |
| `SeedActuator.Collect` | pkg/controller/lifecycle/seed_actuator.go:211-229 | What one ConfigMap adds: the rewriting of `filter-kubernetes.conf` without trailing spaces, and `parsers.conf`, each with a newline, and a newline alone for a missing key |
| `SeedActuator.Assemble` | pkg/controller/lifecycle/seed_actuator.go:184-230 | Sorts the ConfigMaps in place; the outputs are the event logger filter and then one block per ConfigMap, in the order of names |
| `SeedActuator.StableOutput` | pkg/controller/lifecycle/seed_actuator.go:199-230 | For distinct names, every order of listing gives the same filters and parsers |
| `SeedActuator.OneMoreConfigMap` | pkg/controller/lifecycle/seed_actuator.go:199-230 | One more ConfigMap inserts one contiguous block, at the same place, in both outputs, and changes nothing else |
| `SeedActuator.AssemblyMentionsRewriteTag` | pkg/controller/lifecycle/seed_actuator.go:208-230 | The blocks of all ConfigMaps together mention `rewrite_tag` exactly when a name captured in one of them does |
| `OscEnsurer.OperatingSystemConfig.AppendUniqueUnit` | pkg/webhook/osc/ensurer.go:106-116 | Every unit of the same name goes, the others keep their order, and the new one comes last |
| `OscEnsurer.OperatingSystemConfig.AppendUniqueFile` | pkg/webhook/osc/ensurer.go:119-129 | The same for files by path |
| `OscEnsurer.OperatingSystemConfig.EnsureAdditionalUnits` | pkg/webhook/osc/ensurer.go:48-67 | The old units whose name is not added, in order, then each addition that no later one overrides, in order, for the units that the ConfigMap holds; no change and an error when it cannot be read or its units cannot be parsed; no change and no error without data |
| `OscEnsurer.OperatingSystemConfig.EnsureAdditionalFiles` | pkg/webhook/osc/ensurer.go:70-89 | The same for files by path |
| `Upsert.ClosedForm` | pkg/webhook/osc/ensurer.go:62-64 | The fold of filter-then-append equals its closed form |
| `UpsertPositions.UntouchedPositions` | pkg/webhook/osc/ensurer.go:106-129 | The old items that stay stand at increasing positions, which are exactly those whose key no addition has |
| `UpsertPositions.LastOnesPositions` | pkg/webhook/osc/ensurer.go:106-129 | The additions that count stand at increasing positions, which are exactly those without a later addition of the same key |
| `UpsertPositions.LookupFindsLast` | pkg/webhook/osc/ensurer.go:106-129 | Looking up a key finds the last item that has it |
| `UpsertPositions.CountMeans` | pkg/webhook/osc/ensurer.go:106-129 | A key is counted once exactly when one item and no two items have it |
| `Upsert.PutAllOverrides` | pkg/webhook/osc/ensurer.go:106-129 | Lookup by key is the old list overridden by the additions, the last winning; an added key occurs exactly once, even where the old list held duplicates |
| `Upsert.PutAllKeepsDistinct` | pkg/webhook/osc/ensurer.go:106-129 | Distinct keys stay distinct |
| `Upsert.PutAllTwice` | pkg/webhook/osc/ensurer.go:48-89 | A second run with the same additions changes nothing |
| `Upsert.NoResidue` | pkg/webhook/osc/ensurer.go:106-129 | Additions `a` then `b` equal `b` alone when `b` has all keys of `a` |
| `Upsert.SwitchIsClean` | pkg/webhook/osc/ensurer.go:106-129 | They do so for every list exactly when `b` has all keys of `a` |
| `Promtail.ConfigNames` | pkg/controller/promtail/component.go:108-149 | Units are told apart by name and files by path; which units and files each mode names, and that only the enabled mode can fail, when a template does |
| `Promtail.ConfigCommands` | pkg/controller/promtail/component.go:108-149 | The commands in each mode: the enabled one copies the binary, sets the journal file and starts promtail and the token script; the disabled one disables both services |
| `Promtail.ModesShareUnitNames` | pkg/controller/promtail/component.go:108-143 | Each mode of `getConfig` names all units of the other (a statement about that function alone, whose one caller asks for the enabled mode) |
| `Promtail.ModeSwitchLeavesNoUnits` | pkg/controller/promtail/component.go:108-143 | About `getConfig` and the upsert alone: the units of one mode upserted after those of the other leave nothing of the first |
| `Promtail.ModeSwitchLeavesFiles` | pkg/controller/promtail/component.go:108-149 | About `getConfig` and the upsert alone: files are left over exactly when the disabled mode follows the enabled one |
| `ApiServer.RunAppend` | pkg/controller/eventlogger/event_logger.go:90-104 | Running two lists of steps is running the first and, only without error, the second |
| `ApiServer.RunStops` | pkg/controller/eventlogger/event_logger.go:90-104 | A run goes through exactly when every call of its steps is done, and otherwise ends with the first that is not |
| `ApiServer.OneCall` | vendor/github.com/gardener/gardener/pkg/utils/managedresources/managedresources.go:144-173 | A rejected call changes nothing; a lost one takes effect although it reports an error |
| `ApiServer.PutsEffect` | vendor/github.com/gardener/gardener/pkg/utils/managedresources/managedresources.go:144-154 | Upserts that an error may cut anywhere delete nothing and touch no other key; without error every key is there |
| `ApiServer.RemovesEffect` | pkg/controller/eventlogger/event_logger.go:106-120 | Deletes touch no other key; without error exactly the other objects are left |
| `ApiServer.DestroyUndoes` | pkg/controller/eventlogger/event_logger.go:90-120 | A destroy without error after a deploy cut anywhere leaves exactly the objects of before, without the destroyed keys |
| `ApiServer.Cluster.CallAll` | pkg/controller/eventlogger/event_logger.go:90-104 | Calls one after the other until the first error |
| `ApiServer.Cluster.DeleteObjects` | pkg/controller/eventlogger/event_logger.go:111-119 | Deletes in the order given until the first error |
| `EventLogger.New` | pkg/controller/eventlogger/event_logger.go:64-88 | An error exactly when the client is nil, or the namespace or the image is empty |
| `EventLogger.EventLogger.Deploy` | pkg/controller/eventlogger/event_logger.go:90-104 | The cluster is where the steps lead, in their order and up to the first error; without error all eight objects are there; no other object changes |
| `EventLogger.EventLogger.ReconcileRBACForShoot` | pkg/controller/eventlogger/event_logger.go:122-200 | Access secret, serialisation, secret of the managed resource, managed resource |
| `EventLogger.EventLogger.ReconcileRBACForSeed` | pkg/controller/eventlogger/event_logger.go:202-246 | Service account, role, role binding |
| `EventLogger.EventLogger.Destroy` | pkg/controller/eventlogger/event_logger.go:106-120 | Without error exactly the eight objects are gone; no other object changes |
| `EventLogger.EventLogger.DeleteRBACForShoot` | pkg/controller/eventlogger/event_logger.go:335-341 | Managed resource, its secret, access secret |
| `Components.DeployManagedResource` | vendor/github.com/gardener/gardener/pkg/utils/managedresources/managedresources.go:144-154 | The secret first, then the managed resource |
| `Components.DestroyManagedResource` | vendor/github.com/gardener/gardener/pkg/utils/managedresources/managedresources.go:157-173 | The managed resource first, then its secret |
| `KubeRbacProxy.New` | pkg/controller/kuberbacproxy/kube_rbac_proxy.go:46-56 | An error exactly when the client is nil or the namespace is empty |
| `KubeRbacProxy.KubeRbacProxy.Deploy` | pkg/controller/kuberbacproxy/kube_rbac_proxy.go:65-158 | The cluster is where the steps lead; without error all four objects are there; no other object changes |
| `KubeRbacProxy.KubeRbacProxy.Destroy` | pkg/controller/kuberbacproxy/kube_rbac_proxy.go:160-169 | Without error exactly the four objects are gone; no other object changes |
| `Components.EventLoggerDestroyUndoesDeploy` | pkg/controller/eventlogger/event_logger.go:90-120 | From any state, a successful destroy after a deploy cut anywhere leaves exactly the other objects, unchanged |
| `Components.ProxyDestroyUndoesDeploy` | pkg/controller/kuberbacproxy/kube_rbac_proxy.go:65-169 | The same for the proxy |
| `Components.EventLoggerObjects` | pkg/controller/eventlogger/event_logger.go:122-341 | The eight objects of the event logger by kind and name |
| `Components.ProxyObjects` | pkg/controller/kuberbacproxy/kube_rbac_proxy.go:65-169 | The four objects of the proxy by kind and name |
| `Components.EventLoggerStaysBacked` | vendor/github.com/gardener/gardener/pkg/utils/managedresources/managedresources.go:144-173 | Whatever cuts a deploy or a destroy, the managed resource never lacks its secret |
| `Components.ProxyStaysBacked` | vendor/github.com/gardener/gardener/pkg/utils/managedresources/managedresources.go:144-173 | The same for the proxy |
| `Components.ComponentsAreDisjoint` | pkg/controller/kuberbacproxy/kube_rbac_proxy.go:65-169 | The two components share no object, in any namespace |
| `ShootActuator.IsShootEventLoggerEnabled` | pkg/controller/lifecycle/actuator.go:53-55 | The feature gate; a missing one is off |
| `ShootActuator.IsShootNodeLoggingEnabled` | pkg/controller/lifecycle/actuator.go:57-70 | On exactly when there is a purpose, the gate is on and the purpose is in the list |
| `ShootActuator.LastNamed` | pkg/controller/lifecycle/shoot_cp_actuator.go:215-223 | The last address of a name |
| `ShootActuator.ApiServerURL` | pkg/controller/lifecycle/shoot_cp_actuator.go:212-224 | For every list, by positions: the last internal address, else the last external one, else the last, else none |
| `ShootActuator.ShootActuator.Reconcile` | pkg/controller/lifecycle/shoot_cp_actuator.go:123-312 | The cluster is where the steps of the gates lead: which component is deployed or destroyed, the early return without node logging, every call in order up to the first error |
| `ShootActuator.ShootActuator.Delete` | pkg/controller/lifecycle/shoot_cp_actuator.go:315-365 | The cluster is where the steps of the deletion lead |
| `ShootDecisions.ReconcileDecides` | pkg/controller/lifecycle/shoot_cp_actuator.go:147-160 | After a reconciliation without error, from any state, all objects of a component are there or none, as its gate says |
| `ShootDecisions.ExpectedByGates` | pkg/controller/lifecycle/actuator.go:53-70 | Which components are expected, by the map and the list of the configuration: a missing gate is off |
| `ShootDecisions.GatesDecide` | pkg/controller/lifecycle/shoot_cp_actuator.go:147-160 | After a reconciliation without error: the event logger is all there when `eventLoggingEnabled` maps to true and not at all otherwise; the proxy likewise by `shootNodeLoggingEnabled`, the purpose and the list; and with the proxy what carries promtail |
| `ShootDecisions.ReconcileInOrder` | pkg/controller/lifecycle/shoot_cp_actuator.go:147-160 | Whether or not it succeeds, the proxy is touched only once the event logger is as its gate says, and what carries promtail only once the proxy is |
| `ShootDecisions.ReconcileNeedsNames` | pkg/controller/lifecycle/shoot_cp_actuator.go:132-145 | No success without a namespace and an image |
| `ShootDecisions.LeftOversCleared` | pkg/controller/lifecycle/shoot_cp_actuator.go:240-252 | After a reconciliation without error with node logging off, the webhook configuration and the four left-over objects are gone |
| `ShootDecisions.ControlPlaneObjects` | pkg/controller/lifecycle/shoot_cp_actuator.go:286 | The two objects that carry promtail by kind and name |
| `ShootDecisions.HistoryDoesNotMatter` | pkg/controller/lifecycle/shoot_cp_actuator.go:123-368 | After any history of reconciliations and deletions with any configurations and failures, once a reconciliation succeeds the objects of the two components are those of its configuration |
| `ShootDecisions.NodeLoggingOnPutsPromtail` | pkg/controller/lifecycle/shoot_cp_actuator.go:225-288 | With node logging on, a reconciliation that succeeds leaves the managed resource that carries promtail, and its secret |
| `ShootDecisions.NodeLoggingOffKeepsPromtail` | pkg/controller/lifecycle/shoot_cp_actuator.go:235-253 | With node logging off, a reconciliation leaves both as they were, whether or not it succeeds |
| `ShootDecisions.HistoryMattersForPromtail` | pkg/controller/lifecycle/shoot_cp_actuator.go:235-253 | So for them the history does matter: the same last reconciliation, with node logging off, ends with both or with neither |
| `ShootDecisions.DeleteDecides` | pkg/controller/lifecycle/shoot_cp_actuator.go:315-365 | After a deletion without error nothing of the stack is there: neither component, nor what carries promtail |
| `ShootDecisions.DeleteAddsNone` | pkg/controller/lifecycle/shoot_cp_actuator.go:315-365 | A deletion, whether or not it succeeds, creates none of it |
| `Termination.ImmediateIsRun` | vendor/github.com/gardener/gardener/pkg/utils/managedresources/managedresources.go:157-173 | Where no object has a finalizer, deletion is immediate as in `ApiServer` |
| `Termination.DestroyUndoesSlowly` | pkg/controller/eventlogger/event_logger.go:90-120 | Where objects linger until their controllers let them go: a destroy without error after a deploy cut anywhere leaves none of the destroyed keys that is not being deleted, and every other such object as before |
| `Termination.DeleteDecidesSlowly` | pkg/controller/lifecycle/shoot_cp_actuator.go:315-365 | The same for the deletion of the whole stack |
| `Termination.LivesIff` | vendor/github.com/gardener/gardener/pkg/utils/managedresources/managedresources.go:144-154 | In a run that succeeds, an object that is written once stays exactly when it was not being deleted at the start, or was let go before the call that writes it |
| `Termination.ReconcileDecidesSlowly` | pkg/controller/lifecycle/shoot_cp_actuator.go:147-160 | After a reconciliation without error an object of a component stays exactly when its gate is on and it was not still being deleted when it was written |
| `LifecycleSafety.StepKeeps` | pkg/controller/lifecycle/reconciler.go:83-313 | Every API call of every operation, after any change by another client and with any outcome, keeps the invariant |
| `LifecycleSafety.FinalizerGuardsTheStack` | pkg/controller/lifecycle/reconciler.go:135-167 | In every reachable state: if the actuator has begun to set up and has not succeeded in taking down since, the object exists with the finalizer; and without the finalizer the seed holds nothing of the stack, neither of the two components nor what carries promtail |
| `LifecycleEvents.OutstandingIsGuarded` | pkg/controller/lifecycle/reconciler.go:135-167 | The same told from the calls made: if a reconciliation or restoration called the actuator, and no deletion or migration since called it without error, the object exists with the finalizer |
| `LifecycleCalls.SetUpLeavesExpected` | pkg/controller/lifecycle/reconciler.go:157-167 | When a reconciliation or restoration gets no error from the actuator of a shoot, the seed holds just the objects of the components that the configuration asks for, and with node logging what carries promtail |
| `LifecycleCalls.TakeDownLeavesNothing` | pkg/controller/lifecycle/reconciler.go:195-205 | When a deletion or migration gets none, the seed holds nothing of the stack |
| `LifecycleCalls.OnlyTheActuatorChangesObjects` | pkg/controller/lifecycle/reconciler.go:83-313 | No other call changes an object of the seed |
| `LifecycleCalls.CallChangesLittle` | pkg/controller/lifecycle/reconciler.go:83-313 | Other finalizers go only when all go, at the end of a migration; ours comes and goes only in its own calls; the annotation is only taken away; the status changes only where it is written; and no call marks the object for deletion |
| `LifecycleCalls.StaleCopyIsRefused` | vendor/github.com/gardener/gardener/pkg/controllerutils/finalizers.go:29-39 | Adding and removing the finalizer fail and change nothing when the object has changed since it was read |
| `LifecycleCalls.FreshCopyIsTaken` | vendor/github.com/gardener/gardener/pkg/controllerutils/finalizers.go:29-39 | Otherwise exactly our finalizer is added or removed, also when the answer is lost |
| `LifecycleCalls.AllAreReleased` | vendor/github.com/gardener/gardener/pkg/controllerutils/finalizers.go:43-47 | Removing all finalizers lets an object go that is being deleted |
| `LifecycleCalls.MissingObject` | vendor/github.com/gardener/gardener/pkg/controllerutils/finalizers.go:37-47 | Without the object the removals of finalizers succeed and every other write fails |
| `LifecycleCalls.StatusIsStored` | vendor/github.com/gardener/gardener/extensions/pkg/controller/status.go:115-139 | A status write is stored unless it is rejected, also when the answer is lost |
| `LifecycleSafety.SkippedDeleteIsHarmless` | pkg/controller/lifecycle/reconciler.go:185-188 | The deletion that does nothing has nothing to do, even when its copy is outdated |
| `LifecycleSafety.OnlyWayOut` | pkg/controller/lifecycle/reconciler.go:211-246 | The finalizer goes only in a run of delete or migrate whose actuator call succeeded in that same run |
| `LifecycleSafety.EveryRunFollowsTheProtocol` | pkg/controller/lifecycle/reconciler.go:152-171 | Attempted status writes are Processing, then at most one of Error and Success; the actuator is called at most once, and only after the write of Processing was confirmed; Success is attempted only after it succeeded, Error only after it failed; finalizers are released only after the write of Success was confirmed; one operation type throughout but for the error of a restoration; no error is returned only when there was nothing to do or the write of Success was confirmed |
| `LifecycleSafety.ActuatorRunsWhileProcessing` | pkg/controller/lifecycle/reconciler.go:152-167 | Whenever the actuator is called, other than for a migration, the stored object carries the finalizer and its status says Processing for that operation, whatever other clients do |
| `LifecycleRuns.UndisturbedRun` | pkg/controller/lifecycle/reconciler.go:49-123 | What a run without interference or failure ends in, for every object |
| `LifecycleOutcomes.FiveKinds` | pkg/controller/lifecycle/reconciler.go:109-123 | Every object is exactly one of: to set up, to restore, to delete, to migrate, to leave alone, by its annotation, deletion mark, last operation and finalizers |
| `LifecycleOutcomes.SetUpRun` | pkg/controller/lifecycle/reconciler.go:125-174 | An undisturbed run on an object to set up: the finalizer is added to the others, success is reported as a creation or a reconciliation, the stack is set up, no error |
| `LifecycleOutcomes.RestoreRun` | pkg/controller/lifecycle/reconciler.go:262-313 | On one to restore: the same as a restoration, and the annotation is gone |
| `LifecycleOutcomes.DeleteRun` | pkg/controller/lifecycle/reconciler.go:176-219 | On one to delete: the stack is gone, our finalizer is, and the object itself if there was no other |
| `LifecycleOutcomes.MigrateRun` | pkg/controller/lifecycle/reconciler.go:221-260 | On one to migrate: the stack, all finalizers and the annotation are gone; an error exactly if the object was marked for deletion |
| `LifecycleOutcomes.LeaveRun` | pkg/controller/lifecycle/reconciler.go:109-113 | On any other: finalizers, status and seed are as before |
| `LifecycleOutcomes.MissingRun` | pkg/controller/lifecycle/reconciler.go:88-91 | Without the object: no error and no change |
| `LifecycleOutcomes.UndisturbedRunExists` | pkg/controller/lifecycle/reconciler.go:83-313 | From every idle state there is such a run, so every operation comes to an end |
| `LifecycleDeletion.RunKeepsDeletable` | pkg/controller/lifecycle/reconciler.go:176-219 | Whatever fails in a run on a deletable object, it is deletable afterwards or the finalizer is gone |
| `LifecycleDeletion.RetriedDeletionConverges` | pkg/controller/lifecycle/reconciler.go:116-219 | When at most `n` runs are hit by failures or other clients, the finalizer is removed within `n + 1` runs |
| `LifecycleDeletion.CleanRunRemovesIff` | pkg/controller/lifecycle/reconciler.go:49-117 | A clean run removes the finalizer of an object marked for deletion exactly when it is not annotated to wait for state, and its last operation is not a successful migration unless it is annotated for migration |
| `LifecycleDeletion.StuckForEver` | pkg/controller/lifecycle/reconciler.go:112-113 | Otherwise no run ever removes it, while the annotation stays as it is |
| `LifecycleDeletion.AbandonedIsReachable` | pkg/controller/lifecycle/reconciler.go:250-256 | An object of the second kind comes about, starting without any object: one rejected removal of finalizers after a migration, then the annotation is overwritten |
| `Reconciler.ControlPlane.Screen` | vendor/github.com/gardener/gardener/pkg/controllerutils/reconciler/operation_annotation_wrapper.go:54-62 | The wrapper reads the object: one that waits for state ends the run, one annotated for reconciliation is patched next |
| `Reconciler.ControlPlane.ClearAnnotation` | vendor/github.com/gardener/gardener/pkg/controllerutils/reconciler/operation_annotation_wrapper.go:64-71 | Without locking; an object that is gone is an error |
| `Reconciler.ControlPlane.Get` | pkg/controller/lifecycle/reconciler.go:87-93 | The latest object, none, or an error; the machine made the same step |
| `Reconciler.ControlPlane.GetCluster` | pkg/controller/lifecycle/reconciler.go:95-107 | Read only for a shoot; the machine then stands at the first call of the operation dispatched to |
| `Reconciler.ControlPlane.AddFinalizers` | vendor/github.com/gardener/gardener/pkg/controllerutils/finalizers.go:29-31 | With optimistic locking; the machine made the same step |
| `Reconciler.ControlPlane.StatusProcessing` | vendor/github.com/gardener/gardener/extensions/pkg/controller/status.go:115-139 | The machine made the same step |
| `Reconciler.ControlPlane.StatusError` | vendor/github.com/gardener/gardener/extensions/pkg/controller/status.go:152-183 | The machine made the same step, and its own error is ignored |
| `Reconciler.ControlPlane.StatusSuccess` | vendor/github.com/gardener/gardener/extensions/pkg/controller/status.go:195-221 | The machine made the same step |
| `Reconciler.ControlPlane.RemoveFinalizers` | vendor/github.com/gardener/gardener/pkg/controllerutils/finalizers.go:37-39 | With optimistic locking; an object that is gone is no error |
| `Reconciler.ControlPlane.RemoveAllFinalizers` | vendor/github.com/gardener/gardener/pkg/controllerutils/finalizers.go:43-47 | Without locking; an object that is gone is no error |
| `Reconciler.ControlPlane.RemoveAnnotation` | vendor/github.com/gardener/gardener/extensions/pkg/controller/utils.go:132-141 | Without locking |
| `Reconciler.ControlPlane.SeedAct` | pkg/controller/lifecycle/reconciler.go:157-161 | An outcome of the seed actuator; the machine made the same step |
| `Reconciler.ControlPlane.CallShootActuator` | pkg/controller/lifecycle/shoot_cp_actuator.go:367-375 | Restoring is reconciling and migrating is deleting, on the objects of this namespace |
| `Reconciler.ControlPlane.ShootAct` | pkg/controller/lifecycle/reconciler.go:162-167 | The shoot actuator of this namespace; restoring is reconciling and migrating is deleting |
| `Reconciler.Reconciler.Reconcile` | pkg/controller/lifecycle/reconciler.go:83-123 | The dispatch: makes exactly the calls of the machine, in its order and with its copies, ends with it idle, and returns the error that the machine recorded |
| `Reconciler.OperationAnnotationWrapper.Reconcile` | vendor/github.com/gardener/gardener/pkg/controllerutils/reconciler/operation_annotation_wrapper.go:53-74 | One run, from idle to idle, by the calls of the machine |
| `Reconciler.Reconciler.Act` | pkg/controller/lifecycle/reconciler.go:157-167 | The actuator of the type, and on error the status with the type of the error |
| `Reconciler.Reconciler.ReconcileLogging` | pkg/controller/lifecycle/reconciler.go:125-174 | Refines the path of reconcile |
| `Reconciler.Reconciler.DeleteLogging` | pkg/controller/lifecycle/reconciler.go:176-219 | Refines the path of delete; without the finalizer it changes nothing and returns no error |
| `Reconciler.Reconciler.MigrateLogging` | pkg/controller/lifecycle/reconciler.go:221-260 | Refines the path of migrate |
| `Reconciler.Reconciler.RestoreLogging` | pkg/controller/lifecycle/reconciler.go:262-313 | Refines the path of restore, whose error is recorded as one of a deletion |
| `Reconciler.OperationAnnotationWrapper.Work` | pkg/controller/lifecycle/reconciler.go:49-123 | After any number of requests the finalizer guards the stack, and without it nothing of the stack is left in the seed |

## Left out

- `NameOrder.SortByName`: insertion sort stands for Go's `sort.Sort`, which uses it for short lists; for equal names another order may result, and nothing is claimed about it.
- `SeedActuator.Assemble`: the filter that the event logger puts first is a parameter (its text, or empty when the gate is off); the chart values around the result (Loki, HVPA, priority classes) and the calls that read and apply them are absent.
- `GoStrings.TrimSpaceBlank`: strings are sequences of characters, not of bytes; ConfigMap data is valid UTF-8, and every separator, cutset and pattern here is ASCII.
- `Regexp.MatchHereIsBest`: only patterns that are a sequence of literals and `+` repetitions of `\s` and `.`, which covers the one pattern of the repository.
- `Promtail.ModesShareUnitNames`: the rendered templates, the image's commands and the mode-independent heads of the unit texts are parameters, since only names and paths decide the result.
- `OscEnsurer.OperatingSystemConfig.EnsureAdditionalUnits`: reading the ConfigMap and parsing its YAML are an oracle that may fail; a unit has only the fields that `getConfig` sets.
- `EventLogger.EventLogger.Deploy`: contents of objects are opaque; create-or-patch is one call; what the managed resources create inside the shoot is absent.
- `LifecycleOutcomes.UndisturbedRunExists`: an actuator that never succeeds, as without an image, is not covered; the seed's objects are then as the failed calls left them.
- `EventLogger.EventLogger.Destroy`: "gone" is an idealisation: managed resources carry a finalizer of Gardener's resource manager, so the call only begins their deletion, and this method does not wait for its end. `Termination` has what holds then.
- `EventLogger.EventLogger.DeleteRBACForShoot`: the same idealisation.
- `KubeRbacProxy.KubeRbacProxy.Destroy`: the same idealisation.
- `LifecycleSafety.FinalizerGuardsTheStack`: "holds no object" is the same idealisation: objects that are being deleted may linger.
- `ShootActuator.ShootActuator.Delete`: the secrets manager and the chart are calls that may fail and may change any object outside the stack.
- `ShootActuator.ShootActuator.Reconcile`: the image vector, ingress class, secrets manager, TLS secrets, promtail resources, chart, waiting and patching of operating system configs are calls that may fail and may change any object but those of the two components and the managed resource that carries promtail; the panic of the generic kubeconfig injection and the hibernation replicas are absent. The URL of the address loop is not followed into promtail's templates.
- `ShootDecisions.DeleteDecides`: says nothing about the chart's objects; deleting the chart is not claimed to undo applying it, since both object lists hold a network policy name with a leading space (`pkg/controller/lifecycle/seed_actuator.go:67`, `pkg/controller/lifecycle/shoot_cp_actuator.go:62`).
- `Reconciler.ControlPlane.SeedAct`: the seed actuator is an outcome only; it changes no object of a shoot's components.
- `Reconciler.ControlPlane.StatusProcessing`: the status is the last operation alone; description, progress and data source are absent, and the patch is one of that field.
- `Reconciler.ControlPlane.StatusError`: likewise without the last error, its codes and the observed generation.
- `Reconciler.ControlPlane.StatusSuccess`: likewise.
- `LifecycleDeletion.RetriedDeletionConverges`: assumes that other clients do not add or take away the annotations for migration and for waiting meanwhile; that the work queue retries after an error is an assumption, too.
- The controllers' predicates and wiring, command-line options, health checks and generated code: plumbing.
- Stale caches, several workers on one object, timeouts and clocks.
- The Helm templates, dashboards, Lua and shell scripts and relabelling rules: their meaning lies in other interpreters.
