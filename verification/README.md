# A verified model of SecretUsage

SecretUsage keeps a reverse index of a Kubernetes cluster: for each Secret name it stores
one `SecretUsage` object listing every field of every tracked object that names that
Secret. The index is kept up to date by a level-triggered reconcile loop. This project
models that controller in Dafny and proves what it promises.

## How it is built

| files | what they model |
|---|---|
| Wrappers, Text, Ordering, Collections | options, text, orders and sorting, enumerations of sets |
| FieldPaths, Trees, Objects | field paths as printed and parsed, objects as JSON documents, the tracked kinds and their tracked members |
| References, Extraction | the extractors and deduplication, as loops proved equal to a scan of the document |
| TrackedFields | which fields those are, kind by kind, told over the objects themselves with literal paths |
| Rules, Usages | rule compilation and dispatch, entries and their order |
| Collection | the informer cache, the collectors, and which keys an event enqueues |
| Documents | stored and in-memory objects, nil against empty, merge patches (RFC 7396, section 2), labels and status |
| Protocol | the controller and its surroundings as a step system |
| Convergence, Termination, Recovery, Idempotence, Truncation | what holds over all runs |
| Recreation | a run that shows where the promise about truncation ends |
| Aggregates, OwnedPods, Conservation | what the numbers mean |
| Controller | the reconciler as a class whose methods refine the step system |

The step system has a state (cache, stored objects, gauges, undelivered events, dirty keys,
reconciles under way with what each has read) and twelve actions. A reconcile is not
atomic: the existence check, each list, each Get and each write is an action of its own,
anything else may happen between two of them, and any call may fail before or after taking
effect. The work queue keeps its published contract: a key is never processed twice at
once, a key added meanwhile is taken up again, an error adds the key again. A changed object
is in the cache before its event is delivered.

No order is imposed on these actions beyond that: `Protocol.OthersAreFree`,
`Protocol.AnyCallMayFail` and `Protocol.AnyStepMayBeNext` say of each when it may happen, and
`Truncation.AllowedMeans` which of them the theorem on truncation sets aside.
`Text.DecimalIsBaseTen` says how an index is printed.

Assumptions, all of them about what surrounds the controller:

- The Get of a SecretUsage returns the object as stored, and nobody but the controller
  edits one; creating and deleting one by hand is modelled.
- Each watch event the informer contract promises is delivered in the end; order is free.
- JSONPath evaluation, JSONPath syntax and discovery are parameters: any functions will do.
- The API server accepts writes that its name and uid rules allow. Whether it also enforces
  the CRD schema on status patches is part of the modelled cluster, so every theorem covers
  both cases; a patch that changes nothing is accepted in either.
- Names compare as sequences of characters; for UTF-8 this is the order of their bytes.

Where code and documentation differ, the model follows the code:

- README.md, line 246, calls reconciles write-free when nothing changed. They leave the
  stored object alone, but an empty patch is still sent in two cases, which
  `Idempotence.SettledReconcileChangesNothing` gives exactly.
- The comment at internal/controller/secretusage_controller.go:136-138 says a lost status
  write is made good by the next reconcile. With the CRD schema enforced the status patch of
  an object for a missing or an unused Secret omits a required member and is refused every
  time. `Recovery.RestIsReachedExactlyWhenRecoverable` gives the exact condition over whole
  runs, `Documents.LostStatusIsFilledExactly` over a sequence of patches.

Check the whole project with `dafny verify dfyconfig.toml`.

## Model

| member | source | states |
|---|---|---|
| FieldPaths.PathRoundTrip | internal/controller/secret_refs.go:140-313 | Every printed field path parses back to the path it was printed from: members and list indices are all recovered. |
| FieldPaths.PrintPathInjective | internal/controller/secret_refs.go:140-313 | Two different places in an object never print to the same field path. |
| FieldPaths.PrintedPathHasNoNul | internal/controller/secret_refs.go:330 | A printed built-in path holds no NUL, so it cannot blur the joined deduplication key. |
| Text.DecimalRoundTrip | internal/controller/secret_refs.go:146 | An index printed with %d reads back as the same number. |
| Trees.ScanIsExact | internal/controller/secret_refs.go:140-313 | For any document and any well-formed list of tracked members, a place is reported if and only if it is tracked and holds text, and the name, container, key and optional mark reported are the ones the document holds there. |
| Trees.ScanPathsAreDistinct | internal/controller/secret_refs.go:140-313 | No place in a document is reported twice. |
| Objects.ShapesAreWellFormed | internal/controller/secret_refs.go:110-313 | For each tracked kind the list of tracked members describes no member twice at one level, which is what the two scan theorems ask for. |
| Extraction.ReferencesForObject | internal/controller/secret_refs.go:110-138 | The dispatch over kinds returns, for every object, exactly the deduplicated references a scan of its JSON document finds, in document order. |
| Extraction.ReferencesForPodSpec | internal/controller/secret_refs.go:140-168 | The loops over pull secrets, volumes and the three container lists together produce exactly the scan of the Pod spec, deduplicated. |
| Extraction.ReferencesForVolume | internal/controller/secret_refs.go:173-251 | Every one of the eleven volume sources is reported at its own path, in order, and nothing else is. |
| Extraction.ReferencesForContainer | internal/controller/secret_refs.go:253-282 | The two loops over env and envFrom together produce exactly the scan of the container; TrackedFields.ScannedContainerIs says which fields that is. |
| Extraction.ReferencesForServiceAccount | internal/controller/secret_refs.go:284-299 | Both lists of a ServiceAccount are reported as the scan of its document. |
| Extraction.ReferencesForIngress | internal/controller/secret_refs.go:304-313 | Each TLS entry of an Ingress is reported as the scan of its document. |
| Extraction.ReferencesForReplicationController | internal/controller/secret_refs.go:126-130 | A ReplicationController without a template yields nothing; one with a template yields the scan of it. |
| Extraction.FieldPathLeadsBack | internal/controller/secret_refs.go:110-313 | Every recorded field path of a built-in object parses, and following it in that object reaches exactly the field holding the recorded Secret name, with the recorded container, key and optional mark beside it. |
| Extraction.OneReferencePerField | internal/controller/secret_refs.go:110-338 | That a path is recorded if and only if a tracked, non-empty Secret field lies there holds of an object exactly when its joined keys are distinct; recorded paths are always pairwise distinct. |
| Extraction.DedupeKeepsBuiltIns | internal/controller/secret_refs.go:167-168 | Deduplication removes nothing from a built-in object exactly when no two joined keys clash. |
| Extraction.PlainNamesKeepKeysApart | internal/controller/secret_refs.go:330 | No two joined keys of a built-in object clash if its Secret names hold no NUL, nor if its container names and keys hold none. |
| Extraction.ReferencePathsAreDistinct | internal/controller/secret_refs.go:110-338 | Recorded paths of one built-in object are distinct whatever its names hold, NULs included. |
| TrackedFields.PodReferencesAre | internal/controller/secret_refs.go:112-130 | The references of each kind that runs Pods are those of its Pod specification, at the prefix written for that kind. |
| TrackedFields.InPodFields | internal/controller/secret_refs.go:140-168 | A reference is found in a Pod specification if and only if a pull Secret names it, or a volume or a container of one of the three lists holds it, at the index written in its path. |
| TrackedFields.InVolumeFields | internal/controller/secret_refs.go:173-251 | A reference is found in a volume if and only if its secret, a source of its projected volume, its csi, its azureFile or a storage driver names it, with the path, key and optional mark of that source. |
| TrackedFields.InDriverFields | internal/controller/secret_refs.go:207-249 | The same for cephfs, cinder, flexVolume, iscsi, rbd, scaleIO and storageos. |
| TrackedFields.ScannedContainerIs | internal/controller/secret_refs.go:253-282 | A reference is found in a container if and only if an environment variable or an envFrom source with a non-empty name holds it; path, container, key and optional mark are written out over the fields of the container. |
| TrackedFields.InAccountFields | internal/controller/secret_refs.go:284-299 | A reference is found in a ServiceAccount if and only if one of its two lists names it. |
| TrackedFields.InIngressFields | internal/controller/secret_refs.go:304-313 | A reference is found in an Ingress if and only if one of its TLS entries names it. |
| TrackedFields.OthersNameNothing | internal/controller/secret_refs.go:126-138 | A ReplicationController without a template, and any object of a kind not tracked in code, leads to no reference. |
| TrackedFields.PullSecretIsFound | internal/controller/secret_refs.go:143-148 | Every named pull Secret of every kind that runs Pods is found at its literal path. |
| TrackedFields.VolumeSecretsAreFound | internal/controller/secret_refs.go:176-206 | So is every Secret a secret, csi or azureFile volume names. |
| TrackedFields.ProjectedSecretIsFound | internal/controller/secret_refs.go:183-194 | So is every Secret a source of a projected volume names. |
| TrackedFields.DriverSecretsAreFound | internal/controller/secret_refs.go:207-249 | So is every Secret one of the seven storage drivers names. |
| TrackedFields.EnvSecretIsFound | internal/controller/secret_refs.go:256-267 | So is every Secret an environment variable names, with its container, key and optional mark, in all three lists of containers. |
| TrackedFields.EnvFromSecretIsFound | internal/controller/secret_refs.go:269-279 | So is every Secret an envFrom source names: for a Pod, at .spec.containers[i].envFrom[j].secretRef.name. |
| TrackedFields.OneReferencePerNamingField | internal/controller/secret_refs.go:110-313 | The scan of an object has as many references as the object has non-empty fields of these kinds, counted over its fields alone. |
| References.KeyIsInjective | internal/controller/secret_refs.go:330 | The NUL-joined key tells any two references apart when path, container and key hold no NUL, whatever the Secret name holds. |
| References.NulMakesKeysClash | internal/controller/secret_refs.go:322-338 | As a fact about the joined key alone: a NUL in a container name always has a rival reference at the same path with the same key, and deduplication drops one of the two. |
| References.KeyTellsNameAndPath | internal/controller/secret_refs.go:330 | Secret name and path can be read off the joined key when they hold no NUL, whatever container and key hold. |
| References.DedupeReferences | internal/controller/secret_refs.go:322-338 | The loop over references with its seen map computes the deduplication the lemmas below are about. |
| References.DedupeKeepsFirsts | internal/controller/secret_refs.go:329-336 | A reference survives deduplication if and only if it is the first with its key. |
| References.DedupeKeepsOrder | internal/controller/secret_refs.go:322-338 | What survives stays in the order in which each was first met. |
| References.DedupeLeavesNoDuplicates | internal/controller/secret_refs.go:322-338 | No key and no reference occurs twice in the result, with no assumption on NULs. |
| References.DedupeIsLossless | internal/controller/secret_refs.go:322-338 | No reference is lost if and only if references that share a key are the same reference. |
| References.NulFreeDedupeIsLossless | internal/controller/secret_refs.go:322-338 | Without NULs the result has exactly the references of the input. |
| References.DedupeIsIdempotent | internal/controller/secret_refs.go:322-338 | Deduplicating twice is deduplicating once. |
| References.UniqueSortedSecretNames | internal/controller/secret_refs.go:62-81 | The index entry holds exactly the non-empty names referenced, strictly increasing. |
| References.IndexEntryIsUnique | internal/controller/secret_refs.go:62-81 | There is only one such entry, so the index does not depend on the order of references. |
| Rules.CompileRules | internal/controller/rules.go:71-117 | Succeeds if and only if every rule has its fields and a path, a readable apiVersion, a kind that is not tracked in code and not named twice, and expressions that all parse. Then every rule is compiled in input order with each of its paths, and each compiled path parses. Otherwise the error is the first problem of the first bad rule and says something true of that rule: a bad path is in it, does not parse, and every path before it does. |
| Rules.CompileRule | internal/controller/rules.go:77-115 | The checks on one rule report the first thing wrong with it in the order the code makes them, or yield its kind with every path kept. |
| Rules.ProblemMeans | internal/controller/rules.go:77-109 | What each error of one rule says of it, and what it means for a rule to have no problem. |
| Rules.ChecksInOrder | internal/controller/rules.go:77-109 | An error is reported only when every check before it was passed: fields, paths, apiVersion, native kind, duplicate, then expressions. |
| Rules.CompiledRulesAreValid | internal/controller/rules.go:71-117 | After success the kinds are pairwise distinct and none is built in, and no rule loses or reorders a path. |
| Rules.BuiltInGroupVersionKinds | internal/controller/rules.go:131-142 | Printing and parsing each built-in apiVersion gives back exactly the ten built-in kinds. |
| Rules.KindTexts | internal/controller/secret_refs.go:358-384 | The apiVersion and kind text recorded for each of the ten kinds. |
| Rules.GroupVersionRoundTrip | internal/controller/rules.go:85-89 | The text of a group and version parses back to them. |
| Rules.GroupVersionIsRead | internal/controller/rules.go:85-89 | An apiVersion is unreadable exactly when it has two slashes; otherwise it is split at its slash, and the core group has none. |
| Rules.RecordedKindIsInjective | internal/controller/secretusage_controller.go:407-408 | The apiVersion and kind written to an entry identify the kind the object was listed under. |
| Rules.NormalizeIsIdempotent | internal/controller/rules.go:122-128 | Brace and plain form of an expression mean the same: normalising again changes nothing. |
| Rules.BothFormsAgree | internal/controller/rules.go:122-128 | An expression in braces is left as it is; one without gets them, and both forms normalise to the same. |
| Rules.OuterSpaceIsIgnored | internal/controller/rules.go:123 | Spaces around an expression make no difference. |
| Rules.SetupRules | internal/controller/secretusage_controller.go:490-529 | Fails exactly when a discovery call does; otherwise keeps exactly the installed rules and builds a table in which each kind leads to its rule and to no other. |
| Rules.RuleForIsTheRule | internal/controller/secretusage_controller.go:511-514 | The rule that event dispatch finds for a kind is the rule collection and indexing use for it. |
| Rules.InstalledRulesAreValid | internal/controller/secretusage_controller.go:490-511 | Dropping rules of absent kinds keeps the remaining kinds distinct and not built in. |
| Rules.InstalledRulesKeepOrder | internal/controller/secretusage_controller.go:490-511 | Two rules that are kept stay in the order they were given in. |
| Rules.ReferencesByRule | internal/controller/rules.go:153-176 | The nested loops over paths, groups and values compute the references the two lemmas below characterise. |
| Rules.RuleReferencesExactly | internal/controller/rules.go:153-176 | A rule leads to a reference only for a name that one of its expressions finds as a non-empty string, and to one for each, however many fields hold it: to that very reference, unless an expression holds a NUL, when it may be another with the same joined key. |
| Rules.RuleReferencesAreFromRule | internal/controller/rules.go:153-176 | Rule references carry a whole rule expression as path, no container, key or optional mark, and never repeat. |
| Usages.UsageReferenceLess | internal/controller/secret_refs.go:386-396 | The early-exit loop decides the order field by field: apiVersion, kind, namespace, name, field path, container, key, optional mark (none, false, true), uid; a later field decides only where all earlier ones agree. |
| Usages.UsageOrder | internal/controller/secret_refs.go:386-396 | That order is a strict total order on entries, the optional mark taken by value: equal in order means equal. |
| Ordering.StringLessExactly | internal/controller/secret_refs.go:389-394 | Texts compare by the first character in which they differ, a prefix being less. |
| Usages.SortIsCanonical | internal/controller/secretusage_controller.go:244-247 | Any two gatherings of the same entries sort to the identical list, although the sort is not stable. |
| Usages.UsageReferencesForObject | internal/controller/secret_refs.go:83-108 | There is an entry for exactly the references naming the Secret; it records the kind, namespace, name and uid of the object and the path, container, key and optional mark of the reference, each in its own field. |
| Usages.EntriesDescribeReferences | internal/controller/secret_refs.go:83-108 | The same of what an object contributes, for built-in kinds and rules alike. |
| Usages.BuiltInEntryDescribesItsField | internal/controller/secret_refs.go:95-105 | The path of an entry for a built-in object parses and leads in its document to the Secret name; container, key and optional mark are those found around and beside that place; the uid is the uid of the object. |
| Usages.RuleEntryNamesItsExpression | internal/controller/secretusage_controller.go:400-416 | The path of an entry made from a rule is an expression of the rule for that kind which finds the Secret name in the object; it has no container, key or optional mark. |
| Usages.RuleUsageReferences | internal/controller/secretusage_controller.go:400-416 | Entries made from a rule are the ones the same object yields through event dispatch. |
| Usages.UsagesInAreDistinct | internal/controller/secret_refs.go:83-108 | One object never contributes an entry twice. |
| Usages.IndexAgreesWithUsages | internal/controller/secret_refs.go:56-108 | An object is indexed under a name if and only if it has an entry for that name, for built-in kinds and for rules. |
| Collection.PodIsCoveredByController | internal/controller/secret_refs.go:43-53 | True if and only if some owner reference is marked as the controller and carries the apiVersion and kind of a ReplicaSet, StatefulSet, DaemonSet, Job or ReplicationController. |
| Collection.TrackedControllersAre | internal/controller/secret_refs.go:31-48 | The same of one owner reference: the five texts of the table are exactly those kinds. |
| Collection.PodLeftOutHasTrackedOwner | internal/controller/secret_refs.go:39-42 | Nothing is lost for want of a tracked owner: a Pod left out names as its controller a kind that some list call covers and that is not Pod. |
| Collection.CollectFrom | internal/controller/secretusage_controller.go:250-398 | One collector, listing only what the index lists, finds every entry of every object of its kind exactly once, in whatever order the cache answers. |
| Collection.ContributionOf | internal/controller/secretusage_controller.go:256-262 | The body of a collector loop yields nothing for a Pod left out and otherwise the entries of the object, none repeated. |
| Collection.ContributionIs | internal/controller/secretusage_controller.go:256-262 | An object contributes, to keys of its own namespace alone, an entry for each reference it holds to the name, saying what the reference says, and nothing else; a Pod left out contributes nothing. |
| Collection.AnswersAreDisjoint | internal/controller/secretusage_controller.go:219-248 | No entry can come from two collectors, rules included. |
| Collection.AnswersCoverFullScan | internal/controller/secretusage_controller.go:219-248 | All collectors together find exactly what a scan of every object in the cluster finds, with no index. |
| Collection.CollectedIsCanonical | internal/controller/secretusage_controller.go:219-248 | The concatenated and sorted result is strictly increasing, so nothing is counted twice, and is the one list of exactly the entries of the full scan, whatever order each list came in. |
| Collection.SecretNamesFor | internal/controller/secretusage_controller.go:598-607 | The names an event enqueues are the index entry of the object, through the rule table for custom kinds. |
| Collection.EnqueueObjectSecretReferences | internal/controller/secretusage_controller.go:627-645 | Adds a key for each name of the index entry unless the object is a Pod left out, and adds no other. |
| Collection.EnqueuedWhereItContributes | internal/controller/secretusage_controller.go:627-645 | An object is enqueued for a key if and only if it contributes to what is collected for that key. |
| Collection.EnqueueIsComplete | internal/controller/secretusage_controller.go:609-645 | A key that a create, update or delete does not enqueue has every list unchanged, so every key whose usages change is enqueued; this covers Pods that gain or lose a covering owner. |
| Collection.EnqueueIsPrecise | internal/controller/secretusage_controller.go:609-645 | Every enqueued key is in the namespace of the object as it was or became, and named by it. |
| Documents.StoredStatusReadsBack | api/v1alpha1/secretusage_types.go:28-46 | A status written and read back differs only in that an empty list has become nil. |
| Documents.LabelPatchArrives | internal/controller/secretusage_controller.go:146-152 | The label patch turns the labels it was computed from into the wanted ones, and is empty if and only if they were equal as stored. |
| Documents.StatusPatchArrives | internal/controller/secretusage_controller.go:158-160 | The status patch makes the status read as wanted, and is empty if and only if it already did. |
| Documents.OverlayKeepsWhatIsOmitted | internal/controller/secretusage_controller.go:146-152 | Decoding the answer of a label patch over the object read keeps what the answer omits and takes over a complete status. |
| Documents.StalePatchArrivesExactly | internal/controller/secretusage_controller.go:158-160 | Sent to another object made under the name meanwhile, the status patch arrives if and only if that object agrees on every member the patch left alone. |
| Documents.StalePatchCanContradictItself | internal/controller/secretusage_controller.go:158-160 | A concrete case where it does not: one entry on record beside a count of zero. |
| Documents.RequiredMembersAfterPatch | config/crd/bases/usage.secretusage.io_secretusages.yaml:120-122 | The patched status has the members the schema requires if and only if each was stored before or is wanted to be other than zero. |
| Documents.LostStatusIsFilledExactly | internal/controller/secretusage_controller.go:136-138 | Against a server enforcing the schema, a lost status write is made good exactly from the first reconcile on that finds the Secret present and referenced; the comment in the code promises it without condition. |
| Documents.Int32IsExact | internal/controller/secretusage_controller.go:117 | The recorded count is the true count modulo 2^32 in 32 signed bits, so it is the true count if and only if that is below 2^31. |
| Documents.LabelsClassify | internal/controller/secretusage_controller.go:166-179 | Each label is present exactly under its condition and with its value, never both conditions at once, and there is no label at all exactly for a name no label value can hold whose Secret is neither unused nor missing. |
| Documents.RecordedStatusIsLeastEntries | internal/controller/secretusage_controller.go:95-120 | The recorded entries are the least of the full list: as many as a positive configured cap allows, or 500 without one; truncated if and only if the full list is longer than that; the count is its full length below 2^31. |
| Documents.SmallerCapRecordsPrefix | internal/controller/secretusage_controller.go:181-196 | A smaller cap, 500 standing for none, records a prefix of what a larger one records, with the same count, and truncates wherever the larger one does. |
| Convergence.StartEstablishesInv | internal/controller/secretusage_controller.go:476-483 | Whatever is stored when the controller starts, the startup events account for every key that is not already right. |
| Convergence.AdvanceTouchesOnly | internal/controller/secretusage_controller.go:83-161 | No call of a reconcile touches another key: not its object, its gauges, its queue entry or its progress. |
| Convergence.FreshGoesOn | internal/controller/secretusage_controller.go:83-161 | A reconcile whose knowledge is still true stays so through any next call, and when it ends without error its key has the right object, labels, status and gauges. |
| Convergence.LabelComparison | internal/controller/secretusage_controller.go:146 | The comparison of labels as the language makes it misses equality as stored exactly when both are empty. |
| Convergence.StatusComparison | internal/controller/secretusage_controller.go:154 | The comparison of status misses equality as stored exactly when the list of entries is empty. |
| Convergence.ConvergedMeans | internal/controller/secretusage_controller.go:95-196 | What a right key is, over the objects of the cluster: one ordered list of exactly the entries they contribute; a stored object if and only if there are any, or the Secret exists and is tracked while unused; its labels by presence and references; its status the first entries up to the cap, the count, and the truncation mark. |
| Convergence.StepKeepsInv | internal/controller/secretusage_controller.go:441-645 | Every step of the surroundings, the queue, a reconcile, a failing or refused call or a restart keeps: each key is marked, or processed from reads still true, or right. This is so with the schema enforced and without. |
| Convergence.EveryRunConverges | internal/controller/secretusage_controller.go:83-161 | In every state reachable from any store, by any interleaving and any failures, each key is right, or dirty, or in an undelivered event, or being processed; with nothing pending the whole index is right. |
| Convergence.TornReadsHeal | internal/controller/secretusage_controller.go:86-95 | While a key is processed and not marked, the existence bit and every list read so far are what a fresh read would give now. |
| Termination.QuietStepShrinks | internal/controller/secretusage_controller.go:471-484 | With no changes from outside and no injected failure, and stored statuses that can be filled in, every delivery, dequeue and call makes a well-founded measure smaller, creations and deletions that re-enqueue their key included. |
| Termination.AdmitsExactly | config/crd/bases/usage.secretusage.io_secretusages.yaml:120-122 | A stored status can be filled in exactly when the schema is not enforced, or the status is right already, or each required member is stored or wanted to be other than zero. |
| Termination.QuietStepKeepsFillable | internal/controller/secretusage_controller.go:136-160 | No step of the controller turns a status that can be filled in into one that cannot, but for an object just created, whose status is written next. |
| Termination.NoEndlessQuietRun | internal/controller/secretusage_controller.go:471-484 | From a state whose stored statuses can be filled in there is no infinite run of controller steps: what the controller writes never keeps it busy. |
| Termination.StuckMeansConverged | internal/controller/secretusage_controller.go:83-161 | A quiet run that can go no further has nothing pending and every key right, with the schema enforced or not. |
| Termination.ComesToRest | internal/controller/secretusage_controller.go:83-161 | From any reachable state whose stored statuses can be filled in, a quiet run leads to rest with every key right. |
| Recovery.RestIsReachedExactlyWhenRecoverable | internal/controller/secretusage_controller.go:136-144 | Started over any stored objects, stale, orphaned or half written, the controller can come to rest if and only if every stored object that should stay has a status that can be filled in; at rest there is an object for exactly the keys referenced, or existing and tracked while unused, each right. |
| Recovery.RecoverableExactly | config/crd/bases/usage.secretusage.io_secretusages.yaml:120-122 | The condition in terms of the stored members: with the schema enforced, each object that should stay has the right status already, or each required member is stored or wanted to be other than zero. |
| Recovery.LostStatusOfUnusedSecret | internal/controller/secretusage_controller.go:136-144 | A start for which it fails: an object created for an existing, unused Secret that never got its status, with the schema enforced. |
| Recovery.RecoverableStartComesToRest | internal/controller/secretusage_controller.go:136-144 | Under that condition every run of controller steps ends, in whatever order they are taken. |
| Recovery.RefusedForEver | internal/controller/secretusage_controller.go:136-160 | Where it fails for a key, no run of controller steps fills its status in or comes to rest, and each can go on. |
| Idempotence.OneReconcileSettles | internal/controller/secretusage_controller.go:83-161 | From any store a reconcile no call of which fails leaves its key right and the dirty set as it was exactly when the stored status can be filled in; otherwise its status patch was refused and the key is queued again. No other key is touched. |
| Idempotence.CallsCanEnd | internal/controller/secretusage_controller.go:83-161 | Such a reconcile exists from every state: calls answered without a fault come to an end. |
| Idempotence.SettledReconcileChangesNothing | internal/controller/secretusage_controller.go:146-160 | Reconciling a key that is right leaves the entire state as it was, schema enforced or not, and sends exactly: an empty status patch if the Secret is unused, an empty label patch if it exists, is referenced and its name fits no label value, otherwise nothing. |
| Idempotence.ChangesAreRequests | internal/controller/secretusage_controller.go:139-160 | Whatever changes a stored object is one request, of the kind that makes that change, so sending no request means changing nothing. |
| Idempotence.ReconcileIsIdempotent | internal/controller/secretusage_controller.go:83-161 | A second reconcile after a first that got through changes nothing and creates and deletes nothing; if the server refused the status of the first, it refuses it again. |
| Aggregates.RunAggregateMetrics | internal/controller/secretusage_controller.go:575-592 | The pass over the stored objects counts each missing and each unused one once, in any list order. |
| Aggregates.SignSurvivesExactly | internal/controller/secretusage_controller.go:117-117 | A count reads back as zero or positive rightly if and only if it is zero or its remainder modulo 2^32 lies strictly between 0 and 2^31. |
| Aggregates.AggregatesAreExact | internal/controller/secretusage_controller.go:567-595 | At rest the objects counted missing are exactly the referenced and absent Secrets, those counted unused exactly the existing unreferenced ones, or none when those are not tracked; the labels select the same objects. |
| Aggregates.AggregatesAtRest | internal/controller/secretusage_controller.go:575-592 | So the two numbers a pass sets at rest are the numbers of such Secrets in the cluster. |
| Aggregates.SeriesAreExact | internal/controller/metrics.go:52-77 | At rest each per-Secret series exists for exactly the keys with a stored object and shows the true count, presence, and whether the count exceeds the configured cap, or 500 without one; with the option off there is none. |
| OwnedPods.CountsDifferByCoveredPods | internal/controller/secretusage_controller.go:250-268 | Tracking owned Pods adds exactly the covered Pods' entries to each list, none of which was there before. |
| OwnedPods.ClassificationIsTheSameExactlyWhen | internal/controller/secretusage_controller.go:100-100 | Presence of an object and its labels are the same with and without owned Pods for every Secret if and only if every name in a covered Pod is also named in its namespace by an object that is not left out. |
| OwnedPods.SkippingOwnedPodsKeepsClassification | internal/controller/secret_refs.go:43-53 | So leaving out Pods never changes a classification when each covered Pod names only Secrets that a present owner of it names. |
| Conservation.EntriesNameTheirObject | internal/controller/secret_refs.go:95-105 | Two different objects, of the same or of different kinds, never lead to the same entry. |
| Conservation.ReferencesAreConserved | internal/controller/secretusage_controller.go:219-268 | In a namespace the sizes of the lists of all Secret names add up to the number of references of the tracked objects: each reference is attributed to exactly one Secret. |
| Conservation.RecordedCountsAreConserved | internal/controller/secretusage_controller.go:113-119 | At rest the counts on record in a namespace add up to the references there are. |
| Truncation.TornReadsSortStrictly | internal/controller/secretusage_controller.go:235-248 | Lists read at different moments still sort to a strictly increasing list. |
| Truncation.EveryStatusIsATruncation | internal/controller/secretusage_controller.go:181-196 | From an empty store with a fixed configuration, every stored status in every reachable state is zero or records the least entries of one duplicate-free list, with that list's count: as many as a positive configured cap allows, or 500 without one, and truncated exactly when the list is longer. Users may delete a SecretUsage at any time, and create one except under a key whose object is about to be patched. |
| Truncation.TruncationCountsAll | internal/controller/secretusage_controller.go:114-120 | Below 2^31 entries the count is the length of the whole list, and truncated says exactly whether the count exceeds what is recorded. |
| Truncation.NewStatusCountsItsListExactly | internal/controller/secretusage_controller.go:158-160 | Sent to an object made anew, a status patch leaves a truncation if and only if it is whole: it carries both the count and the list, or, with no truncation mark to carry, neither (or the count is zero). |
| Truncation.RecreationBeforePatch | internal/controller/secretusage_controller.go:158-160 | The step sequence behind the exception: deletion and re-creation by a user between the read and the patch. What is stored after it is a truncation if and only if the patch is whole or the schema has it refused. |
| Recreation.SomeRunBreaksTruncation | internal/controller/secretusage_controller.go:146-160 | A run from an empty store that ends with a count of three beside no entry and no truncation mark, so the exception is needed, with the schema enforced and without. |
| Controller.DesiredLabelsFor | internal/controller/secretusage_controller.go:166-179 | The labels hold the Secret name exactly where a label value can, the unused mark exactly for an existing unreferenced Secret, the missing mark exactly for an absent referenced one, and nothing else. |
| Controller.SecretUsageReconciler.constructor | internal/controller/secretusage_controller.go:441-487 | A controller starts in the start state of the step system. |
| Controller.SecretUsageReconciler.SecretExists | internal/controller/secretusage_controller.go:198-209 | The existence check is one step of the system, or a failed one that queues the key again. |
| Controller.SecretUsageReconciler.CollectUsages | internal/controller/secretusage_controller.go:219-248 | The loop over collectors, with anything happening between two of them, returns the sorted lists it read, or fails and queues the key again. |
| Controller.SecretUsageReconciler.RecordSecretMetrics | internal/controller/metrics.go:52-59 | With the option on, the three series of the key show count, presence and truncation; with it off they are as before; what is shown of every other key is unchanged. |
| Controller.SecretUsageReconciler.ClearSecretMetrics | internal/controller/metrics.go:63-70 | With the option on, nothing is shown of the key any more; with it off its series are as before; what is shown of every other key is unchanged. |
| Controller.SecretUsageReconciler.DeleteSecretUsageIfPresent | internal/controller/secretusage_controller.go:211-217 | Get and Delete as two steps; an object already gone is no error, and the gauges go last. |
| Controller.SecretUsageReconciler.Create | internal/controller/secretusage_controller.go:139-141 | The Create as one step: refused if the object exists, and possibly lost or unanswered. |
| Controller.SecretUsageReconciler.UpdateStatus | internal/controller/secretusage_controller.go:142-143 | The status Update as one step: refused if the object is no longer the one created. |
| Controller.SecretUsageReconciler.PatchLabels | internal/controller/secretusage_controller.go:146-152 | The label Patch as one step; its answer is decoded over the object read before the status is compared. |
| Controller.SecretUsageReconciler.PatchStatus | internal/controller/secretusage_controller.go:158-160 | The status Patch as one step, refused if the object is gone or an enforced schema does not admit the result. |
| Controller.SecretUsageReconciler.Reconcile | internal/controller/secretusage_controller.go:83-161 | The whole method refines the step system call by call: it ends; on an error its key is dirty; without one its key is right or marked for another reconcile. |
| Controller.SecretUsageReconciler.HandleEvent | internal/controller/secretusage_controller.go:609-645 | Handling an event is the delivery step of the system: it queues the keys of the object as it was and as it became. |
| Controller.SecretUsageReconciler.ProcessNext | internal/controller/secretusage_controller.go:83-84 | Taking a key off the queue and reconciling it leaves the controller in a reachable state with the promise of Reconcile. |

## Left out

- The manager's start-up: flags, environment, rules file reading and YAML decoding, logging, health checks, leader election.
- Helm chart, RBAC, CRD generation, Dockerfile, Makefile and the lab script: configuration, not logic.
- JSONPath parsing and evaluation: a custom resource is known by what each expression finds in it.
- Discovery: any answer per kind, including failure.
- The API server, informers, indexer and work queue beyond the contracts above.
- CRD schema validation of anything but status patches. A label patch leaves the status alone, and a Create carries none.
- Edits of a SecretUsage by anyone else, and stale reads of one: updates are not watched, so the code does not claim to heal them.
- Finalizers, and a restriction of the watch to one namespace.
- Tickers and time: one pass of the aggregate loop is one call; gauges are integers.
- Slices shared in place: lists are values, so the aliasing of `append` and of a truncated slice is not modelled. An unstable in-place sort is known by its contract alone.
- Deep copies and the typed placeholder objects for rules: they would only add easy members.
- Truncation.EveryStatusIsATruncation: excludes the creation of a SecretUsage by a user under a key whose reconcile is about to patch the object it has read, because it is false then; Recreation.SomeRunBreaksTruncation is such a run, and Truncation.RecreationBeforePatch says exactly what is left.
- Truncation.RecreationBeforePatch: speaks of lists with fewer than 2^31 entries, so that a count of zero stands for the empty list only.
- A stored empty list of entries, which no reconcile writes, reads as an absent one.
- Termination.ComesToRest: requires stored statuses that can be filled in. From a starting controller the condition is exact (Recovery.RestIsReachedExactlyWhenRecoverable); from a state with reconciles under way it is sufficient, since one of those may still write a complete status.
- Aggregates.AggregatesAreExact: requires counts whose sign survives conversion to 32 bits, which is exactly what the code's conversion needs.
- Controller.SecretUsageReconciler.Reconcile: a restart ends a reconcile; the step system has that action, the method does not.
