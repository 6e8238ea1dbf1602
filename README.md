# Razor project system: a Dafny model

This project models the core of the Razor tooling's project system and its RQName parser, and proves properties of that model. It has five parts:

- **The project snapshot manager** (`snapshot_state.dfy`, `snapshots.dfy`, `snapshot_manager.dfy`, `documents.dfy`).
  - The immutable `ProjectSnapshotState`, together with its differencer and its `[Flags]` difference enum.
  - The default and ephemeral project snapshots, with their lazily built, possibly shared project engine.
  - The `DefaultProjectSnapshotManager`: a registry from normalised project path to snapshot. Host projects and workspace (Roslyn) projects update it. It raises `Changed` notifications and queues background work.
- **The document generator** (`generator_state.dfy`, `document_generator.dfy`).
  - It keeps the bookkeeping of projects, files and their document entries.
  - It coalesces a dirty set of pending entries, keyed by normalised path.
  - It reconciles a project's document entries when a changed snapshot arrives.
  - The pure functions in `GeneratorState` specify it. The `DocumentGenerator` class holds the fields, and each method is proved to change the fields exactly as its function says.
- **The editor document tracker** (`document_tracker.dfy`).
  - It keeps the list of text views over a Razor buffer.
  - It subscribes to the project manager when the first view arrives and unsubscribes when the last one leaves.
  - It keeps at most one tag-helper computation in flight.
- **The project host** (`project_host.dfy`).
  - It reads the MSBuild rule snapshots of a project update. From them it takes the language version, the default configuration, the declared extensions and configurations, and the Razor documents with their target paths.
  - It emits the ordered list of project-manager actions an update causes.
- **The RQName parser** (`rqname_nodes.dfy`, `rqname_parser.dfy`, `rqname_syntax.dfy`, `rqname_properties.dfy`, `rqname_reading.dfy`).
  - Its lexer and recursive-descent parser follow the source: a `Parser` class with a mutable index. Each method is proved equal to a position-passing function.
  - A printer for the node syntax (`RQNameText`) serves as the reference definition.
  - Two proofs tie the parser to the printer. Every well-formed node is read back from its printed text. Whatever `Parse` returns is a well-formed node, printed at the start of the input.

Exceptions are modelled as `Result` and `Outcome` values carrying the .NET exception type (`Common.Error`). A method that throws leaves the state as the source leaves it at the throw.

The model follows the code as written, including five places where it behaves oddly. A lemma states each one:
- `DifferenceFrom` sets `ConfigurationChanged` when the two configurations are *equal*. See `SnapshotState.SameConfigurationReportsConfigurationChanged`.
- `WorkspaceProjectRemoved` has the implicit enum value 3, which overlaps `ConfigurationChanged | WorkspaceProjectAdded`. See `SnapshotState.RemovedOverlapsConfigurationAndAdded`.
- `Parse` never checks that it read the whole input. See `RQNameProperties.ParseReadsPrinted` and `RQNameReading.ParseExactlyPrinted`.
- At the end of the input, the lexer drops the last character of a text token and the last digit of a number. See `RQNameProperties.TextAtEndLosesLastCharacter` and `RQNameProperties.NumberAtEndLosesLastDigit`.
- The document tracker throws `InvalidOperationException` on a `TagHelpersChanged` event for its own project. See `DocumentTracking.DocumentTracker.ProjectManagerChanged`.

Parameters stand in for calls into code outside the model:
- `FilePathComparer` is a normalisation function `norm`. The tracker's OrdinalIgnoreCase comparison is `foldCase`.
- `char.IsDigit` and `char.IsLetter` are `CharClasses`. `char.IsWhiteSpace`, `RazorLanguageVersion.TryParse`, `UnconfiguredProject.MakeRooted` and `UnconfiguredProject.FullPath` are fields of `ProjectHost.Environment`.
- `VersionStamp` is a natural-number clock.
- The snapshot TagHelpers and TryGetTagHelpers members, which the modelled code does not define, are functions passed in.

## Model

| member | source | states |
|---|---|---|
| Documents.NewProjectSystemRazorDocument | src/Microsoft.CodeAnalysis.Razor.Workspaces/ProjectSystem/ProjectSystemRazorDocument.cs:10-24 | a null file path, then a null target path, throws ArgumentNullException naming it; otherwise a new document holds both paths |
| Documents.StructuralEqualityIsEquivalence | src/Microsoft.CodeAnalysis.Razor.Workspaces/ProjectSystem/RazorDocument.cs:20-30 | Equals(RazorDocument) is reflexive, symmetric and transitive, is false for null, and holds whenever the references are equal |
| Documents.EqualsObjectIsReferenceEquality | src/Microsoft.CodeAnalysis.Razor.Workspaces/ProjectSystem/RazorDocument.cs:15-18 | two distinct documents with equal paths are equal by Equals(RazorDocument) but not by Equals(object), which defers to reference equality |
| Documents.EqualDocumentsHashEqually | src/Microsoft.CodeAnalysis.Razor.Workspaces/ProjectSystem/RazorDocument.cs:32-38 | with a path hash that agrees with the path comparer, documents that are Equals have the same GetHashCode |
| Documents.NewHostProject | src/Microsoft.CodeAnalysis.Razor.Workspaces/ProjectSystem/HostProject.cs:13-33 | the three null checks in order, each naming its argument; success exactly when all three are present, with the path, configuration and documents stored |
| SnapshotState.NewState | src/Microsoft.CodeAnalysis.Razor.Workspaces/ProjectSystem/ProjectSnapshotState.cs:11-31 | null services, then a null host project, throw; success exactly when both are present, with the given fields and version |
| SnapshotState.WithHostProject | src/Microsoft.CodeAnalysis.Razor.Workspaces/ProjectSystem/ProjectSnapshotState.cs:41-49 | null throws; otherwise only the host project is replaced and the version becomes strictly newer |
| SnapshotState.WithWorkspaceProject | src/Microsoft.CodeAnalysis.Razor.Workspaces/ProjectSystem/ProjectSnapshotState.cs:51-54 | only the workspace project (null allowed) is replaced and the version becomes strictly newer |
| SnapshotState.DifferenceFrom | src/Microsoft.CodeAnalysis.Razor.Workspaces/ProjectSystem/ProjectSnapshotState.cs:63-95 | each bit of the difference holds exactly when its condition holds: ConfigurationChanged for equal configurations or a removal, Added for an add or a removal, Changed for a change of workspace project; the difference is Empty exactly when none holds |
| SnapshotState.ComputeDifferenceFrom | src/Microsoft.CodeAnalysis.Razor.Workspaces/ProjectSystem/ProjectSnapshotState.cs:56-61 | a null older state throws ArgumentNullException; otherwise the difference above |
| SnapshotState.SameConfigurationReportsConfigurationChanged | src/Microsoft.CodeAnalysis.Razor.Workspaces/ProjectSystem/ProjectSnapshotState.cs:63-67 | two states with the same configuration and workspace project differ by exactly ConfigurationChanged |
| SnapshotState.RemovedOverlapsConfigurationAndAdded | src/Microsoft.CodeAnalysis.Razor.Workspaces/ProjectSystem/ProjectSnapshotState.cs:87-95 | the Removed value intersects every mask that holds ConfigurationChanged or WorkspaceProjectAdded |
| Snapshots.LazyProjectEngine.GetValue | src/Microsoft.CodeAnalysis.Razor.Workspaces/ProjectSystem/DefaultProjectSnapshot.cs:98-101 | the first access builds a fresh engine from the handle's configuration and path and stores it; later accesses return the stored engine |
| Snapshots.GetValueIsStable | src/Microsoft.CodeAnalysis.Razor.Workspaces/ProjectSystem/DefaultProjectSnapshot.cs:98-101 | two accesses through one handle yield the same engine |
| Snapshots.SharesEngineIff | src/Microsoft.CodeAnalysis.Razor.Workspaces/ProjectSystem/DefaultProjectSnapshot.cs:49-57 | a derived snapshot shares the engine handle exactly when the configurations differ and the workspace project was not removed |
| Snapshots.DefaultProjectSnapshot.FromState | src/Microsoft.CodeAnalysis.Razor.Workspaces/ProjectSystem/DefaultProjectSnapshot.cs:25-35 | the state is stored, there is no computed state, and the engine handle is new and builds from the state's configuration and path |
| Snapshots.DefaultProjectSnapshot.FromStateAndOther | src/Microsoft.CodeAnalysis.Razor.Workspaces/ProjectSystem/DefaultProjectSnapshot.cs:37-58 | no computed state; the other snapshot's engine handle when SharesEngine holds, otherwise a new handle over the new state |
| Snapshots.DefaultProjectSnapshot.FromUpdate | src/Microsoft.CodeAnalysis.Razor.Workspaces/ProjectSystem/DefaultProjectSnapshot.cs:60-76 | the other snapshot's state, the update's version as computed state, and always a new engine handle |
| Snapshots.DefaultProjectSnapshot.GetCurrentProjectEngine | src/Microsoft.CodeAnalysis.Razor.Workspaces/ProjectSystem/DefaultProjectSnapshot.cs:98-101 | the engine already built through the handle, or a fresh one that the handle now holds |
| Snapshots.DefaultProjectSnapshot.HasConfigurationChanged | src/Microsoft.CodeAnalysis.Razor.Workspaces/ProjectSystem/DefaultProjectSnapshot.cs:135-143 | null throws; otherwise true exactly when the configurations differ |
| Snapshots.DefaultProjectSnapshot.WithHostProject | src/Microsoft.CodeAnalysis.Razor.Workspaces/ProjectSystem/DefaultProjectSnapshot.cs:108-117 | null throws; otherwise a new snapshot over the state's WithHostProject, without computed state, sharing the engine exactly as SharesEngine says |
| Snapshots.DefaultProjectSnapshot.WithWorkspaceProject | src/Microsoft.CodeAnalysis.Razor.Workspaces/ProjectSystem/DefaultProjectSnapshot.cs:119-123 | a new snapshot over the state's WithWorkspaceProject, without computed state, sharing the engine exactly as SharesEngine says |
| Snapshots.DefaultProjectSnapshot.WithComputedUpdate | src/Microsoft.CodeAnalysis.Razor.Workspaces/ProjectSystem/DefaultProjectSnapshot.cs:125-133 | null throws; otherwise a new snapshot with the same state, the update's version as computed version and a new engine handle |
| Snapshots.NewDefaultProjectSnapshot | src/Microsoft.CodeAnalysis.Razor.Workspaces/ProjectSystem/DefaultProjectSnapshot.cs:25-35 | null state throws; otherwise a new snapshot over the state, which is dirty |
| Snapshots.DirtyIffNotComputedForVersion | src/Microsoft.CodeAnalysis.Razor.Workspaces/ProjectSystem/DefaultProjectSnapshot.cs:92-96 | a snapshot is clean exactly when its computed state is for its own version, so one without computed state is dirty |
| Snapshots.EphemeralProjectSnapshot.constructor | src/Microsoft.CodeAnalysis.Razor.Workspaces/ProjectSystem/EphemeralProjectSnapshot.cs:16-32 | the services and path are stored, and a new engine handle builds from the path and the fallback MVC 2.1 configuration |
| Snapshots.NewEphemeralProjectSnapshot | src/Microsoft.CodeAnalysis.Razor.Workspaces/ProjectSystem/EphemeralProjectSnapshot.cs:16-32 | null services, then a null path, throw ArgumentNullException; otherwise a valid new snapshot over both |
| Snapshots.EphemeralProjectSnapshot.GetCurrentProjectEngine | src/Microsoft.CodeAnalysis.Razor.Workspaces/ProjectSystem/EphemeralProjectSnapshot.cs:48-57 | the engine already built, or a fresh one over the fallback configuration and the snapshot's path |
| Snapshots.EphemeralSnapshotIsEmpty | src/Microsoft.CodeAnalysis.Razor.Workspaces/ProjectSystem/EphemeralProjectSnapshot.cs:34-46 | an ephemeral snapshot is never initialized and has no workspace project, documents or tag helpers, the default version and the fallback configuration |
| Snapshots.ProjectSnapshotUpdateContext.constructor | src/Microsoft.CodeAnalysis.Razor.Workspaces/ProjectSystem/ProjectSnapshotUpdateContext.cs:12-20 | the snapshot is stored and the tag-helper list starts empty |
| Snapshots.NewProjectSnapshotUpdateContext | src/Microsoft.CodeAnalysis.Razor.Workspaces/ProjectSystem/ProjectSnapshotUpdateContext.cs:12-20 | a null snapshot throws; otherwise a new context over it with no tag helpers |
| Snapshots.ProjectSnapshotUpdateContext.SetTagHelpers | src/Microsoft.CodeAnalysis.Razor.Workspaces/ProjectSystem/ProjectSnapshotUpdateContext.cs:24 | the setter stores the list |
| SnapshotManager.ChangeNotification | src/Microsoft.CodeAnalysis.Razor.Workspaces/ProjectSystem/DefaultProjectSnapshotManager.cs:467-475 | ProjectChanged exactly when the difference meets the project mask; DocumentsChanged exactly when it does not, but meets the documents mask; no event otherwise |
| SnapshotManager.ClassifyComputedUpdate | src/Microsoft.CodeAnalysis.Razor.Workspaces/ProjectSystem/DefaultProjectSnapshotManager.cs:168-188 | a background result is rejected exactly when the difference meets the reject mask, accepted and requeued exactly when it meets only the requeue mask, and accepted otherwise |
| SnapshotManager.ProjectChangedNotificationIff | src/Microsoft.CodeAnalysis.Razor.Workspaces/ProjectSystem/DefaultProjectSnapshotManager.cs:453-471 | on the differences the differencer yields, ProjectChanged is raised exactly under the conditions the difference bits encode |
| SnapshotManager.DocumentsChangedNeedsOverlappingMask | src/Microsoft.CodeAnalysis.Razor.Workspaces/ProjectSystem/DefaultProjectSnapshotManager.cs:472-475 | when the documents mask shares no bit with the three declared differences, DocumentsChanged is never raised |
| SnapshotManager.BackgroundWorkIffNotEmpty | src/Microsoft.CodeAnalysis.Razor.Workspaces/ProjectSystem/DefaultProjectSnapshotManager.cs:33-37 | background work is queued exactly when the difference is not Empty |
| SnapshotManager.ComputedUpdateDecisionIff | src/Microsoft.CodeAnalysis.Razor.Workspaces/ProjectSystem/DefaultProjectSnapshotManager.cs:166-188 | how a background result is judged against the current state, in terms of configuration equality and workspace-project transitions |
| SnapshotManager.DefaultProjectSnapshotManager.constructor | src/Microsoft.CodeAnalysis.Razor.Workspaces/ProjectSystem/DefaultProjectSnapshotManager.cs:63-109 | no projects, no notifications, no queued work, the default clock, and the valid registry invariant |
| SnapshotManager.DefaultProjectSnapshotManager.GetLoadedProject | src/Microsoft.CodeAnalysis.Razor.Workspaces/ProjectSystem/DefaultProjectSnapshotManager.cs:122-133 | null throws exactly when the path is null; otherwise the snapshot filed under the path's normal form, if any, whose own path has that normal form |
| SnapshotManager.DefaultProjectSnapshotManager.GetOrCreateProject | src/Microsoft.CodeAnalysis.Razor.Workspaces/ProjectSystem/DefaultProjectSnapshotManager.cs:135-145 | null throws; the registered snapshot when there is one, otherwise a new ephemeral snapshot for the path |
| SnapshotManager.DefaultProjectSnapshotManager.FirstMatch | src/Microsoft.CodeAnalysis.Razor.Workspaces/ProjectSystem/DefaultProjectSnapshotManager.cs:412-431 | a found project is in the list and matches the path |
| SnapshotManager.DefaultProjectSnapshotManager.FirstMatchIsFirst | src/Microsoft.CodeAnalysis.Razor.Workspaces/ProjectSystem/DefaultProjectSnapshotManager.cs:420-428 | nothing is found exactly when no project matches; what is found is the first matching project |
| SnapshotManager.DefaultProjectSnapshotManager.GetWorkspaceProject | src/Microsoft.CodeAnalysis.Razor.Workspaces/ProjectSystem/DefaultProjectSnapshotManager.cs:412-431 | the scan returns none without a solution, otherwise the first matching project |
| SnapshotManager.DefaultProjectSnapshotManager.HaveTagHelpersChanged | src/Microsoft.CodeAnalysis.Razor.Workspaces/ProjectSystem/DefaultProjectSnapshotManager.cs:478-494 | true exactly when the lists differ in length or in some position under the descriptor comparer |
| SnapshotManager.DefaultProjectSnapshotManager.ProcessChangeForProject | src/Microsoft.CodeAnalysis.Razor.Workspaces/ProjectSystem/DefaultProjectSnapshotManager.cs:453-476 | files the new snapshot under the original's key, holding the original's engine handle exactly when SharesEngine holds (the configurations differ and the workspace project was not removed, as the inverted ConfigurationChanged test makes it) and otherwise a fresh unbuilt handle, queues it exactly when the new snapshot is initialized and the difference meets the start-background-work mask, and appends the notification ChangeNotification picks |
| SnapshotManager.DefaultProjectSnapshotManager.ProjectUpdated | src/Microsoft.CodeAnalysis.Razor.Workspaces/ProjectSystem/DefaultProjectSnapshotManager.cs:147-195 | null throws and changes nothing; results for unknown or uninitialized projects are dropped; an ephemeral snapshot fails the cast; otherwise a rejected result requeues the current snapshot, and an accepted one files the (update, current) snapshot, requeued when ClassifyComputedUpdate says so, raising TagHelpersChanged only when the tag helpers differ |
| SnapshotManager.DefaultProjectSnapshotManager.HostProjectAdded | src/Microsoft.CodeAnalysis.Razor.Workspaces/ProjectSystem/DefaultProjectSnapshotManager.cs:197-228 | null throws; a registered path is ignored; otherwise a new snapshot bound to the solution's first matching workspace project is filed and announced as ProjectAdded, and queued only when it is initialized, that is, when such a project exists |
| SnapshotManager.DefaultProjectSnapshotManager.HostProjectChanged | src/Microsoft.CodeAnalysis.Razor.Workspaces/ProjectSystem/DefaultProjectSnapshotManager.cs:230-244 | null throws; an unregistered path is ignored; otherwise the change to the new host project is processed |
| SnapshotManager.DefaultProjectSnapshotManager.HostProjectRemoved | src/Microsoft.CodeAnalysis.Razor.Workspaces/ProjectSystem/DefaultProjectSnapshotManager.cs:246-262 | null throws; an unregistered path is ignored; otherwise the key is removed and the removed snapshot announced as ProjectRemoved |
| SnapshotManager.DefaultProjectSnapshotManager.Target | src/Microsoft.CodeAnalysis.Razor.Workspaces/ProjectSystem/DefaultProjectSnapshotManager.cs:408-410 | a snapshot exactly when the workspace project is supported and its path is registered, and then the registered one |
| SnapshotManager.DefaultProjectSnapshotManager.WorkspaceProjectAdded | src/Microsoft.CodeAnalysis.Razor.Workspaces/ProjectSystem/DefaultProjectSnapshotManager.cs:264-290 | null throws; an unsupported or unregistered project, or a snapshot already bound, changes nothing; otherwise the snapshot is bound to it and the change processed |
| SnapshotManager.DefaultProjectSnapshotManager.WorkspaceProjectChanged | src/Microsoft.CodeAnalysis.Razor.Workspaces/ProjectSystem/DefaultProjectSnapshotManager.cs:292-315 | null throws; a registered snapshot that is unbound or bound to a project with the same id is rebound and the change processed; anything else changes nothing |
| SnapshotManager.DefaultProjectSnapshotManager.WorkspaceProjectRemoved | src/Microsoft.CodeAnalysis.Razor.Workspaces/ProjectSystem/DefaultProjectSnapshotManager.cs:317-365 | null throws; acts only when the removed project is the one bound; when the solution's first matching supported project exists and is not the removed one, the snapshot is rebound to it as a processed change; otherwise, even when a later project would also match, it is unbound with ProjectChanged raised and no background work |
| GeneratorState.ViewOf | src/Microsoft.CodeAnalysis.Razor.Workspaces/ProjectSystem/DefaultProjectSnapshot.cs:80 | the generator sees a snapshot's path and an empty document list |
| GeneratorState.ToDictionary | src/Microsoft.CodeAnalysis.Razor.Workspaces/DocumentGenerator/DocumentGenerator.cs:187 | ToDictionary throws a duplicate-key error exactly when two documents share a path; otherwise its keys are the paths, and each maps to its document |
| GeneratorState.DictionaryUpTo | src/Microsoft.CodeAnalysis.Razor.Workspaces/DocumentGenerator/DocumentGenerator.cs:187 | the same for the first n documents |
| GeneratorState.StartWorker | src/Microsoft.CodeAnalysis.Razor.Workspaces/DocumentGenerator/DocumentGenerator.cs:115-121 | a timer runs afterwards, and one is created only when none was running; nothing else changes |
| GeneratorState.Enqueue | src/Microsoft.CodeAnalysis.Razor.Workspaces/DocumentGenerator/DocumentGenerator.cs:105-113 | the entry is filed in the dirty map under its normalised path, replacing any entry there, and a timer runs |
| GeneratorState.EnqueueKeepsConsistent | src/Microsoft.CodeAnalysis.Razor.Workspaces/DocumentGenerator/DocumentGenerator.cs:105-113 | enqueueing an allocated entry keeps the generator's invariant |
| GeneratorState.EnqueueCoalesces | src/Microsoft.CodeAnalysis.Razor.Workspaces/DocumentGenerator/DocumentGenerator.cs:105-113 | two entries with the same normalised path leave only the later one pending, and start at most one timer |
| GeneratorState.AddProject | src/Microsoft.CodeAnalysis.Razor.Workspaces/DocumentGenerator/DocumentGenerator.cs:46-52 | throws a duplicate-key error and changes nothing exactly when the path is present; keeps the invariant |
| GeneratorState.RemoveProject | src/Microsoft.CodeAnalysis.Razor.Workspaces/DocumentGenerator/DocumentGenerator.cs:54-57 | the project's key is gone, the other keys remain, and the invariant holds |
| GeneratorState.CreateEntry | src/Microsoft.CodeAnalysis.Razor.Workspaces/DocumentGenerator/DocumentGenerator.cs:263-285 | a fresh entry identity is allocated, existing entries keep their paths, the clock advances, and the maps are unchanged |
| GeneratorState.AddDocument | src/Microsoft.CodeAnalysis.Razor.Workspaces/DocumentGenerator/DocumentGenerator.cs:59-77 | a missing project throws key-not-found; a path the project already holds, or a file that already lists the project, throws duplicate-key; the invariant and the project keys are kept, and pending work is never dropped |
| GeneratorState.AddDocumentThrows | src/Microsoft.CodeAnalysis.Razor.Workspaces/DocumentGenerator/DocumentGenerator.cs:59-77 | every throw of AddDocument is key-not-found (the project lookup) or duplicate-key (one of the two Adds) |
| GeneratorState.AddDocumentEffect | src/Microsoft.CodeAnalysis.Razor.Workspaces/DocumentGenerator/DocumentGenerator.cs:59-67 | when the project exists and lacks the path, the new entry (next identity, next clock, attached, default computed version) is added to the project's map under the path |
| GeneratorState.AddDocumentFiling | src/Microsoft.CodeAnalysis.Razor.Workspaces/DocumentGenerator/DocumentGenerator.cs:68-76 | after the project-map Add the call throws exactly when the file already lists the project; otherwise the entry is filed under the file, whose entry is created when missing, enqueued under the file's normalised path, and a timer runs |
| GeneratorState.AddDocumentQueuedStep | src/Microsoft.CodeAnalysis.Razor.Workspaces/DocumentGenerator/DocumentGenerator.cs:154-163 | each AddDocument of the ProjectAdded loop that does not throw enqueues its document and keeps the earlier ones queued |
| GeneratorState.RemoveDocument | src/Microsoft.CodeAnalysis.Razor.Workspaces/DocumentGenerator/DocumentGenerator.cs:79-95 | succeeds exactly when its three lookups do, otherwise throws key-not-found and changes nothing; entries only ever become detached, and pending work is never dropped |
| GeneratorState.RemoveDocumentEffect | src/Microsoft.CodeAnalysis.Razor.Workspaces/DocumentGenerator/DocumentGenerator.cs:79-95 | on success the entry is detached and unfiled from the project's map and the file's entry |
| GeneratorState.SetDirty | src/Microsoft.CodeAnalysis.Razor.Workspaces/DocumentGenerator/DocumentGenerator.cs:97-103 | throws key-not-found and changes nothing exactly when a lookup fails; otherwise the maps are kept, the invariant holds, and pending work is never dropped |
| GeneratorState.SetDirtyEffect | src/Microsoft.CodeAnalysis.Razor.Workspaces/DocumentGenerator/DocumentGenerator.cs:97-103 | when both lookups succeed the call passes, only that entry changes, its known version becoming GetNewerVersion of the old one (strictly newer), and the entry is enqueued under its file's normalised path with the timer running |
| GeneratorState.ReconcileDocument | src/Microsoft.CodeAnalysis.Razor.Workspaces/DocumentGenerator/DocumentGenerator.cs:205-222 | one step of the reconciliation loop keeps the invariant and the project keys, and never drops pending work |
| GeneratorState.ReconcileDocumentEffect | src/Microsoft.CodeAnalysis.Razor.Workspaces/DocumentGenerator/DocumentGenerator.cs:205-222 | a step that does not throw leaves the document reconciled: a new path gets a new entry; another document object replaces the old entry; the same object is kept, with a newer version unless the event is DocumentsChanged |
| GeneratorState.ReconcileDocumentQueues | src/Microsoft.CodeAnalysis.Razor.Workspaces/DocumentGenerator/DocumentGenerator.cs:205-222 | a step that does not throw enqueues the document when it is new or replaced (AddDocument at 76), and when it is kept unless the event is DocumentsChanged (SetDirty at 102) |
| GeneratorState.ReconcileDocumentStep | src/Microsoft.CodeAnalysis.Razor.Workspaces/DocumentGenerator/DocumentGenerator.cs:205-222 | one more document keeps the loop invariant: documents so far reconciled, later ones pending |
| GeneratorState.ReconcileQueuedStep | src/Microsoft.CodeAnalysis.Razor.Workspaces/DocumentGenerator/DocumentGenerator.cs:205-222 | one more document keeps every document enqueued so far queued and enqueues this one when Enqueues says so |
| GeneratorState.RemoveStaleStep | src/Microsoft.CodeAnalysis.Razor.Workspaces/DocumentGenerator/DocumentGenerator.cs:200-203 | removing one more stale path keeps the removal loop's invariant |
| GeneratorState.ChangedConclusion | src/Microsoft.CodeAnalysis.Razor.Workspaces/DocumentGenerator/DocumentGenerator.cs:178-224 | both loops of a project change, run to the end, leave every path that is no longer the project's detached and every current document reconciled, with no other project touched |
| GeneratorState.ChangedEnqueued | src/Microsoft.CodeAnalysis.Razor.Workspaces/DocumentGenerator/DocumentGenerator.cs:189-222 | the removals leave the event's documents as the original map held them, so every document that Enqueues against the project's original map is queued at the end |
| GeneratorState.RetargetKeepsValid | src/Microsoft.CodeAnalysis.Razor.Workspaces/DocumentGenerator/DocumentGenerator.cs:182-185 | giving a project its new snapshot keeps every project map valid |
| GeneratorState.AddedConclusion | src/Microsoft.CodeAnalysis.Razor.Workspaces/DocumentGenerator/DocumentGenerator.cs:154-164 | ProjectAdded, up to its first throw, files a new attached entry per document in the project's map, and without a throw every document is enqueued |
| GeneratorState.RemovedConclusion | src/Microsoft.CodeAnalysis.Razor.Workspaces/DocumentGenerator/DocumentGenerator.cs:166-176 | ProjectRemoved detaches the documents' entries and removes the project |
| GeneratorState.TimerTickBegin | src/Microsoft.CodeAnalysis.Razor.Workspaces/DocumentGenerator/DocumentGenerator.cs:125-131 | the dirty map is emptied and nothing else changes |
| GeneratorState.TimerTickEnd | src/Microsoft.CodeAnalysis.Razor.Workspaces/DocumentGenerator/DocumentGenerator.cs:136-147 | a timer is running afterwards exactly when work is pending, and a new one is started then |
| GeneratorState.TimerTickKeepsConsistent | src/Microsoft.CodeAnalysis.Razor.Workspaces/DocumentGenerator/DocumentGenerator.cs:123-147 | both lock blocks of the tick keep the invariant |
| GeneratorState.DirtyEntriesDistinct | src/Microsoft.CodeAnalysis.Razor.Workspaces/DocumentGenerator/DocumentGenerator.cs:129 | distinct dirty keys hold distinct entries, so a batch processes each entry once |
| DocumentGeneration.DocumentGenerator.constructor | src/Microsoft.CodeAnalysis.Razor.Workspaces/DocumentGenerator/DocumentGenerator.cs:24-31 | empty maps, no timer, the default clock |
| DocumentGeneration.DocumentGenerator.StartWorker | src/Microsoft.CodeAnalysis.Razor.Workspaces/DocumentGenerator/DocumentGenerator.cs:115-121 | the fields change as GeneratorState.StartWorker says |
| DocumentGeneration.DocumentGenerator.Enqueue | src/Microsoft.CodeAnalysis.Razor.Workspaces/DocumentGenerator/DocumentGenerator.cs:105-113 | the fields change as GeneratorState.Enqueue says |
| DocumentGeneration.DocumentGenerator.TimerTickBegin | src/Microsoft.CodeAnalysis.Razor.Workspaces/DocumentGenerator/DocumentGenerator.cs:125-131 | the batch holds exactly the values of the old dirty map, one per key, and the fields change as GeneratorState.TimerTickBegin says |
| DocumentGeneration.DocumentGenerator.TimerTickEnd | src/Microsoft.CodeAnalysis.Razor.Workspaces/DocumentGenerator/DocumentGenerator.cs:136-147 | the fields change as GeneratorState.TimerTickEnd says |
| DocumentGeneration.DocumentGenerator.AddProject | src/Microsoft.CodeAnalysis.Razor.Workspaces/DocumentGenerator/DocumentGenerator.cs:46-52 | outcome and fields as GeneratorState.AddProject |
| DocumentGeneration.DocumentGenerator.RemoveProject | src/Microsoft.CodeAnalysis.Razor.Workspaces/DocumentGenerator/DocumentGenerator.cs:54-57 | fields as GeneratorState.RemoveProject |
| DocumentGeneration.DocumentGenerator.AddDocument | src/Microsoft.CodeAnalysis.Razor.Workspaces/DocumentGenerator/DocumentGenerator.cs:59-77 | outcome and fields as GeneratorState.AddDocument |
| DocumentGeneration.DocumentGenerator.RemoveDocument | src/Microsoft.CodeAnalysis.Razor.Workspaces/DocumentGenerator/DocumentGenerator.cs:79-95 | outcome and fields as GeneratorState.RemoveDocument |
| DocumentGeneration.DocumentGenerator.SetDirty | src/Microsoft.CodeAnalysis.Razor.Workspaces/DocumentGenerator/DocumentGenerator.cs:97-103 | outcome and fields as GeneratorState.SetDirty |
| DocumentGeneration.DocumentGenerator.ReconcileDocument | src/Microsoft.CodeAnalysis.Razor.Workspaces/DocumentGenerator/DocumentGenerator.cs:205-222 | outcome and fields as GeneratorState.ReconcileDocument |
| DocumentGeneration.DocumentGenerator.HandleProjectAdded | src/Microsoft.CodeAnalysis.Razor.Workspaces/DocumentGenerator/DocumentGenerator.cs:154-164 | the result satisfies AddedResult: without a throw, one new attached entry per document, each enqueued |
| DocumentGeneration.DocumentGenerator.HandleProjectRemoved | src/Microsoft.CodeAnalysis.Razor.Workspaces/DocumentGenerator/DocumentGenerator.cs:166-176 | the result satisfies RemovedResult |
| DocumentGeneration.DocumentGenerator.RemoveStaleDocuments | src/Microsoft.CodeAnalysis.Razor.Workspaces/DocumentGenerator/DocumentGenerator.cs:189-203 | without a throw, every stale path's entry is detached and only the project's map changed |
| DocumentGeneration.DocumentGenerator.RemoveStale | src/Microsoft.CodeAnalysis.Razor.Workspaces/DocumentGenerator/DocumentGenerator.cs:200-203 | one pass of the removal loop keeps its invariant |
| DocumentGeneration.DocumentGenerator.ReconcileDocuments | src/Microsoft.CodeAnalysis.Razor.Workspaces/DocumentGenerator/DocumentGenerator.cs:205-222 | without a throw, every document of the event is reconciled, and every one that Enqueues is queued |
| DocumentGeneration.DocumentGenerator.ReconcileNext | src/Microsoft.CodeAnalysis.Razor.Workspaces/DocumentGenerator/DocumentGenerator.cs:205-222 | one pass of the reconciliation loop keeps its invariant and its queue invariant |
| DocumentGeneration.DocumentGenerator.HandleProjectChanged | src/Microsoft.CodeAnalysis.Razor.Workspaces/DocumentGenerator/DocumentGenerator.cs:178-224 | the result satisfies ChangedResult: every throw is key-not-found or duplicate-key; without a throw, ChangedTo holds, and every new or replaced document, and every kept one unless the event is DocumentsChanged, is enqueued |
| DocumentGeneration.DocumentGenerator.ProjectManagerChanged | src/Microsoft.CodeAnalysis.Razor.Workspaces/DocumentGenerator/DocumentGenerator.cs:150-231 | dispatch: ProjectAdded gives AddedResult, ProjectRemoved gives RemovedResult, the other three kinds give ChangedResult |
| DocumentTracking.WithoutIsSplice | src/Microsoft.VisualStudio.Editor.Razor/DefaultVisualStudioDocumentTracker.cs:143 | List.Remove cuts out exactly the first occurrence of the view |
| DocumentTracking.WithoutRemovesFirst | src/Microsoft.VisualStudio.Editor.Razor/DefaultVisualStudioDocumentTracker.cs:141-143 | removing a view from a list without duplicates makes it one shorter, still without duplicates, without that view, and with every other view |
| DocumentTracking.StartComputing | src/Microsoft.VisualStudio.Editor.Razor/DefaultVisualStudioDocumentTracker.cs:211-228 | the tracked snapshot is kept, and the in-flight computation is still the last one started |
| DocumentTracking.ContextChanged | src/Microsoft.VisualStudio.Editor.Razor/DefaultVisualStudioDocumentTracker.cs:252-266 | the same, for a raised context change |
| DocumentTracking.Completed | src/Microsoft.VisualStudio.Editor.Razor/DefaultVisualStudioDocumentTracker.cs:230-250 | the same, for a completed computation |
| DocumentTracking.ContextChangedStarts | src/Microsoft.VisualStudio.Editor.Razor/DefaultVisualStudioDocumentTracker.cs:252-266 | only ProjectChanged can start a computation, and it does so only when the slot is free and the snapshot has no tag helpers ready |
| DocumentTracking.AdoptsAvailableTagHelpers | src/Microsoft.VisualStudio.Editor.Razor/DefaultVisualStudioDocumentTracker.cs:216-221 | a snapshot that already carries tag helpers is adopted at once, raising TagHelpersChanged, without starting a computation |
| DocumentTracking.TwoRequestsStartOne | src/Microsoft.VisualStudio.Editor.Razor/DefaultVisualStudioDocumentTracker.cs:252-266 | two ProjectChanged requests in a row start at most one computation |
| DocumentTracking.CompletionWhileUnsupported | src/Microsoft.VisualStudio.Editor.Razor/DefaultVisualStudioDocumentTracker.cs:234-237 | a completion while the project is unsupported changes nothing and leaves the slot occupied |
| DocumentTracking.CompletionAdopts | src/Microsoft.VisualStudio.Editor.Razor/DefaultVisualStudioDocumentTracker.cs:239-249 | a completion for a supported project adopts the result (empty when faulted), raises TagHelpersChanged, frees the slot, and starts a new computation when the snapshot moved |
| DocumentTracking.Subscribed | src/Microsoft.VisualStudio.Editor.Razor/DefaultVisualStudioDocumentTracker.cs:186-197 | a subscription records the path and snapshot, marks the project supported and attaches the handlers |
| DocumentTracking.Unsubscribed | src/Microsoft.VisualStudio.Editor.Razor/DefaultVisualStudioDocumentTracker.cs:200-209 | the views and path are kept |
| DocumentTracking.UnsubscribedIsDetached | src/Microsoft.VisualStudio.Editor.Razor/DefaultVisualStudioDocumentTracker.cs:200-209 | after Unsubscribe the tracker is unsupported, has no snapshot and no handlers, and has raised ProjectChanged |
| DocumentTracking.SubscribedRequestsTagHelpers | src/Microsoft.VisualStudio.Editor.Razor/DefaultVisualStudioDocumentTracker.cs:193-197 | subscribing asks for the snapshot's tag helpers unless a computation is already running |
| DocumentTracking.TransitionsKeepValid | src/Microsoft.VisualStudio.Editor.Razor/DefaultVisualStudioDocumentTracker.cs:123-149 | the first view subscribing and the last view unsubscribing keep the tracker's invariant |
| DocumentTracking.DocumentTracker.constructor | src/Microsoft.VisualStudio.Editor.Razor/DefaultVisualStudioDocumentTracker.cs:40-87 | no views, not subscribed, unsupported, and an empty computation slot |
| DocumentTracking.MissingArgument | src/Microsoft.VisualStudio.Editor.Razor/DefaultVisualStudioDocumentTracker.cs:53-76 | no argument is reported missing exactly when the project manager and all four other collaborators are non-null |
| DocumentTracking.NewDocumentTracker | src/Microsoft.VisualStudio.Editor.Razor/DefaultVisualStudioDocumentTracker.cs:48-76 | throws ArgumentException exactly when the path is null or empty; otherwise ArgumentNullException naming the first null of projectManager, projectService, editorSettingsManager, workspace, textBuffer; a new tracker with no views, no project and no tag helpers exactly when none is null |
| DocumentTracking.DocumentTracker.AddTextView | src/Microsoft.VisualStudio.Editor.Razor/DefaultVisualStudioDocumentTracker.cs:116-132 | null throws; a known view changes nothing; a new view is appended, and the first one subscribes when Subscribes holds: the buffer is Razor content, the hierarchy is found, the project is supported and its path is known |
| DocumentTracking.DocumentTracker.RemoveTextView | src/Microsoft.VisualStudio.Editor.Razor/DefaultVisualStudioDocumentTracker.cs:134-150 | null throws; an unknown view changes nothing; otherwise the view is removed, and removing the last one unsubscribes |
| DocumentTracking.DocumentTracker.GetFocusedTextView | src/Microsoft.VisualStudio.Editor.Razor/DefaultVisualStudioDocumentTracker.cs:152-163 | null exactly when no view has the focus, otherwise the first view that has it |
| DocumentTracking.DocumentTracker.Subscribe | src/Microsoft.VisualStudio.Editor.Razor/DefaultVisualStudioDocumentTracker.cs:165-198 | the early returns change nothing; otherwise the state becomes Subscribed |
| DocumentTracking.DocumentTracker.Unsubscribe | src/Microsoft.VisualStudio.Editor.Razor/DefaultVisualStudioDocumentTracker.cs:200-209 | the state becomes Unsubscribed |
| DocumentTracking.DocumentTracker.StartComputingTagHelpers | src/Microsoft.VisualStudio.Editor.Razor/DefaultVisualStudioDocumentTracker.cs:211-228 | the slot changes as StartComputing says and nothing else |
| DocumentTracking.DocumentTracker.TagHelpersUpdated | src/Microsoft.VisualStudio.Editor.Razor/DefaultVisualStudioDocumentTracker.cs:230-250 | the slot changes as Completed says and nothing else |
| DocumentTracking.DocumentTracker.OnContextChanged | src/Microsoft.VisualStudio.Editor.Razor/DefaultVisualStudioDocumentTracker.cs:252-266 | the slot changes as ContextChanged says and nothing else |
| DocumentTracking.DocumentTracker.ProjectManagerChanged | src/Microsoft.VisualStudio.Editor.Razor/DefaultVisualStudioDocumentTracker.cs:268-308 | events for other projects change nothing; for its own project every kind first retracks the loaded snapshot; then TagHelpersChanged throws InvalidOperationException, DocumentsChanged raises nothing, ProjectAdded and ProjectChanged raise ProjectChanged, and ProjectRemoved falls back to GetOrCreateProject's snapshot and raises ProjectChanged |
| DocumentTracking.DocumentTracker.EditorSettingsManagerChanged | src/Microsoft.VisualStudio.Editor.Razor/DefaultVisualStudioDocumentTracker.cs:311-314 | only EditorSettingsChanged is appended to the raised events |
| ProjectHost.TryGetLanguageVersion | src/Microsoft.VisualStudio.LanguageServices.Razor/ProjectSystem/DefaultRazorProjectHost.cs:138-154 | a version exactly when the general rule has a non-blank RazorLangVersion; the parsed version when the text parses, otherwise Latest |
| ProjectHost.TryGetDefaultConfigurationName | src/Microsoft.VisualStudio.LanguageServices.Razor/ProjectSystem/DefaultRazorProjectHost.cs:156-168 | a name exactly when the general rule has a non-blank default configuration, and then that property |
| ProjectHost.DeclaredExtensions | src/Microsoft.VisualStudio.LanguageServices.Razor/ProjectSystem/DefaultRazorProjectHost.cs:178-185 | every extension comes from a non-empty item key, and every non-empty key yields one |
| ProjectHost.GetDeclaredExtensions | src/Microsoft.VisualStudio.LanguageServices.Razor/ProjectSystem/DefaultRazorProjectHost.cs:178-185 | the loop computes DeclaredExtensions |
| ProjectHost.SplitEntries | src/Microsoft.VisualStudio.LanguageServices.Razor/ProjectSystem/DefaultRazorProjectHost.cs:199-200 | splitting on ';' without empty entries yields non-empty entries without ';' |
| ProjectHost.SplitJoin | src/Microsoft.VisualStudio.LanguageServices.Razor/ProjectSystem/DefaultRazorProjectHost.cs:199-200 | splitting the ';'-joined list of such entries gives the list back |
| ProjectHost.FirstNamed | src/Microsoft.VisualStudio.LanguageServices.Razor/ProjectSystem/DefaultRazorProjectHost.cs:201 | found exactly when some declared extension has the name, and then the first one |
| ProjectHost.ResolveAppend | src/Microsoft.VisualStudio.LanguageServices.Razor/ProjectSystem/DefaultRazorProjectHost.cs:199-203 | resolving a concatenation of names is the concatenation of the resolutions |
| ProjectHost.ResolveNamesDeclared | src/Microsoft.VisualStudio.LanguageServices.Razor/ProjectSystem/DefaultRazorProjectHost.cs:199-203 | every resolved extension is declared, and when every name is declared none is dropped |
| ProjectHost.ConfigurationsOf | src/Microsoft.VisualStudio.LanguageServices.Razor/ProjectSystem/DefaultRazorProjectHost.cs:187-209 | one configuration per non-blank item, with the given version, the item's name and its resolved extensions |
| ProjectHost.ConfigurationsShape | src/Microsoft.VisualStudio.LanguageServices.Razor/ProjectSystem/DefaultRazorProjectHost.cs:170-209 | without both rules there are no configurations; each configuration has the project's version and declared extensions |
| ProjectHost.GetConfigurations | src/Microsoft.VisualStudio.LanguageServices.Razor/ProjectSystem/DefaultRazorProjectHost.cs:170-210 | the loops compute Configurations |
| ProjectHost.FirstConfiguration | src/Microsoft.VisualStudio.LanguageServices.Razor/ProjectSystem/DefaultRazorProjectHost.cs:98 | found exactly when some configuration has the name, and then the first one |
| ProjectHost.SelectedConfigurationIsDefault | src/Microsoft.VisualStudio.LanguageServices.Razor/ProjectSystem/DefaultRazorProjectHost.cs:93-99 | a configuration is chosen exactly when the version and the default name are present and some configuration has that name, and it is the first such |
| ProjectHost.ChooseConfiguration | src/Microsoft.VisualStudio.LanguageServices.Razor/ProjectSystem/DefaultRazorProjectHost.cs:93-99 | the method computes SelectedConfiguration |
| ProjectHost.DocumentsOf | src/Microsoft.VisualStudio.LanguageServices.Razor/ProjectSystem/DefaultRazorProjectHost.cs:219-231 | one document per item with a non-blank target path, with the rooted path and the target path |
| ProjectHost.GetCurrentDocuments | src/Microsoft.VisualStudio.LanguageServices.Razor/ProjectSystem/DefaultRazorProjectHost.cs:212-232 | the loop computes CurrentDocuments |
| ProjectHost.LookupItem | src/Microsoft.VisualStudio.LanguageServices.Razor/ProjectSystem/DefaultRazorProjectHost.cs:244 | found exactly when the key is among the items |
| ProjectHost.BeforeDocuments | src/Microsoft.VisualStudio.LanguageServices.Razor/ProjectSystem/DefaultRazorProjectHost.cs:241-256 | at most one document per key; every document comes from a key whose before-item has a non-blank key and target path, and every such key yields its document |
| ProjectHost.GetChangedAndRemovedDocuments | src/Microsoft.VisualStudio.LanguageServices.Razor/ProjectSystem/DefaultRazorProjectHost.cs:234-257 | the loops compute ChangedAndRemovedDocuments |
| ProjectHost.UpdateOrder | src/Microsoft.VisualStudio.LanguageServices.Razor/ProjectSystem/DefaultRazorProjectHost.cs:120-133 | the project update comes first, then one removal per changed or removed document, then one addition per current document, in order |
| ProjectHost.PlanOrder | src/Microsoft.VisualStudio.LanguageServices.Razor/ProjectSystem/DefaultRazorProjectHost.cs:101-133 | without a configuration the project is uninitialized and nothing else happens; with one, the plan is ordered as UpdateOrder says over the new host project |
| ProjectHost.RazorProjectHost.constructor | src/Microsoft.VisualStudio.LanguageServices.Razor/ProjectSystem/DefaultRazorProjectHost.cs:28-43 | not disposing, not disposed, no actions |
| ProjectHost.RazorProjectHost.OnProjectChanged | src/Microsoft.VisualStudio.LanguageServices.Razor/ProjectSystem/DefaultRazorProjectHost.cs:82-136 | a disposing or disposed host does nothing; otherwise the update's Plan is appended to the actions |
| ProjectHost.RazorProjectHost.RequestRemovals | src/Microsoft.VisualStudio.LanguageServices.Razor/ProjectSystem/DefaultRazorProjectHost.cs:124-127 | one removal per document, in order, is appended |
| ProjectHost.RazorProjectHost.RequestAdditions | src/Microsoft.VisualStudio.LanguageServices.Razor/ProjectSystem/DefaultRazorProjectHost.cs:129-132 | one addition per document, in order, is appended |
| RQNameParsing.Lex | src/Microsoft.VisualStudio.LanguageServices.Razor/RQNames/RQNameParser.cs:438-487 | a non-empty token lies within the input |
| RQNameParsing.NumberScan | src/Microsoft.VisualStudio.LanguageServices.Razor/RQNames/RQNameParser.cs:470-474 | the scan ends between the start and the end of the input |
| RQNameParsing.TextScan | src/Microsoft.VisualStudio.LanguageServices.Razor/RQNames/RQNameParser.cs:478-483 | the scan ends between the start and the end of the input |
| RQNameParsing.AcceptAt | src/Microsoft.VisualStudio.LanguageServices.Razor/RQNames/RQNameParser.cs:421-436 | an accepted token advances the position within the input |
| RQNameParsing.OptionalAt | src/Microsoft.VisualStudio.LanguageServices.Razor/RQNames/RQNameParser.cs:409-419 | a token taken advances the position; a token not taken leaves it |
| RQNameParsing.SimpleNameAt | src/Microsoft.VisualStudio.LanguageServices.Razor/RQNames/RQNameParser.cs:397-401 | success advances the position within the input |
| RQNameParsing.TypeVariableCountAt | src/Microsoft.VisualStudio.LanguageServices.Razor/RQNames/RQNameParser.cs:386-395 | success advances the position within the input |
| RQNameParsing.AggregateNameAt | src/Microsoft.VisualStudio.LanguageServices.Razor/RQNames/RQNameParser.cs:329-342 | success advances the position within the input |
| RQNameParsing.NamespaceNameAt | src/Microsoft.VisualStudio.LanguageServices.Razor/RQNames/RQNameParser.cs:318-327 | success advances the position within the input |
| RQNameParsing.PropertyNameAt | src/Microsoft.VisualStudio.LanguageServices.Razor/RQNames/RQNameParser.cs:362-372 | success advances the position within the input |
| RQNameParsing.SymbolNameAt | src/Microsoft.VisualStudio.LanguageServices.Razor/RQNames/RQNameParser.cs:278-316 | success advances the position within the input |
| RQNameParsing.SymbolNameListAt | src/Microsoft.VisualStudio.LanguageServices.Razor/RQNames/RQNameParser.cs:264-276 | success advances the position within the input |
| RQNameParsing.ParameterListAt | src/Microsoft.VisualStudio.LanguageServices.Razor/RQNames/RQNameParser.cs:180-190 | success consumes nothing: the only list it can read is empty |
| RQNameParsing.ParametersAt | src/Microsoft.VisualStudio.LanguageServices.Razor/RQNames/RQNameParser.cs:168-178 | success advances the position within the input |
| RQNameParsing.AggregateAt | src/Microsoft.VisualStudio.LanguageServices.Razor/RQNames/RQNameParser.cs:84-94 | success advances the position within the input |
| RQNameParsing.NamespaceAt | src/Microsoft.VisualStudio.LanguageServices.Razor/RQNames/RQNameParser.cs:72-82 | success advances the position within the input |
| RQNameParsing.MemberAt | src/Microsoft.VisualStudio.LanguageServices.Razor/RQNames/RQNameParser.cs:96-124 | success advances the position within the input |
| RQNameParsing.MethodOrPropertyAt | src/Microsoft.VisualStudio.LanguageServices.Razor/RQNames/RQNameParser.cs:126-166 | success advances the position within the input |
| RQNameParsing.SignatureAt | src/Microsoft.VisualStudio.LanguageServices.Razor/RQNames/RQNameParser.cs:138-145 | success advances the position within the input |
| RQNameParsing.RQNameAt | src/Microsoft.VisualStudio.LanguageServices.Razor/RQNames/RQNameParser.cs:32-70 | success advances the position within the input |
| RQNameParsing.Parse | src/Microsoft.VisualStudio.LanguageServices.Razor/RQNames/RQNameParser.cs:11-20 | the method computes ParseRQName |
| RQNameParsing.Parser.constructor | src/Microsoft.VisualStudio.LanguageServices.Razor/RQNames/RQNameParser.cs:27-30 | the input is stored and the index starts at 0 |
| RQNameParsing.Parser.Peek | src/Microsoft.VisualStudio.LanguageServices.Razor/RQNames/RQNameParser.cs:438-487 | the scanning loops compute Lex at the current index |
| RQNameParsing.Parser.Take | src/Microsoft.VisualStudio.LanguageServices.Razor/RQNames/RQNameParser.cs:489-497 | an empty token throws InvalidOperationException; otherwise the index advances by the token's length |
| RQNameParsing.Parser.Optional | src/Microsoft.VisualStudio.LanguageServices.Razor/RQNames/RQNameParser.cs:409-419 | result and new index as OptionalAt |
| RQNameParsing.Parser.Accept | src/Microsoft.VisualStudio.LanguageServices.Razor/RQNames/RQNameParser.cs:421-436 | result and new index as AcceptAt |
| RQNameParsing.Parser.ParseSimpleName | src/Microsoft.VisualStudio.LanguageServices.Razor/RQNames/RQNameParser.cs:397-401 | result and new index as SimpleNameAt |
| RQNameParsing.Parser.ParseTypeVariableCount | src/Microsoft.VisualStudio.LanguageServices.Razor/RQNames/RQNameParser.cs:386-395 | result and new index as TypeVariableCountAt |
| RQNameParsing.Parser.ParseAggregateName | src/Microsoft.VisualStudio.LanguageServices.Razor/RQNames/RQNameParser.cs:329-342 | result and new index as AggregateNameAt |
| RQNameParsing.Parser.ParseNamespaceName | src/Microsoft.VisualStudio.LanguageServices.Razor/RQNames/RQNameParser.cs:318-327 | result and new index as NamespaceNameAt |
| RQNameParsing.Parser.ParsePropertyName | src/Microsoft.VisualStudio.LanguageServices.Razor/RQNames/RQNameParser.cs:362-372 | result and new index as PropertyNameAt |
| RQNameParsing.Parser.ParseSymbolName | src/Microsoft.VisualStudio.LanguageServices.Razor/RQNames/RQNameParser.cs:278-316 | result and new index as SymbolNameAt |
| RQNameParsing.Parser.ParseSymbolNameList | src/Microsoft.VisualStudio.LanguageServices.Razor/RQNames/RQNameParser.cs:264-276 | result and new index as SymbolNameListAt |
| RQNameParsing.Parser.ParseParameterList | src/Microsoft.VisualStudio.LanguageServices.Razor/RQNames/RQNameParser.cs:180-190 | result and new index as ParameterListAt |
| RQNameParsing.Parser.ParseParameters | src/Microsoft.VisualStudio.LanguageServices.Razor/RQNames/RQNameParser.cs:168-178 | result and new index as ParametersAt |
| RQNameParsing.Parser.ParseAggregate | src/Microsoft.VisualStudio.LanguageServices.Razor/RQNames/RQNameParser.cs:84-94 | result and new index as AggregateAt |
| RQNameParsing.Parser.ParseNamespace | src/Microsoft.VisualStudio.LanguageServices.Razor/RQNames/RQNameParser.cs:72-82 | result and new index as NamespaceAt |
| RQNameParsing.Parser.ParseMember | src/Microsoft.VisualStudio.LanguageServices.Razor/RQNames/RQNameParser.cs:96-124 | result and new index as MemberAt |
| RQNameParsing.Parser.ParseMethodOrProperty | src/Microsoft.VisualStudio.LanguageServices.Razor/RQNames/RQNameParser.cs:126-166 | result and new index as MethodOrPropertyAt |
| RQNameParsing.Parser.Parse | src/Microsoft.VisualStudio.LanguageServices.Razor/RQNames/RQNameParser.cs:32-70 | result and new index as RQNameAt |
| RQNameProperties.TokenShapes | src/Microsoft.VisualStudio.LanguageServices.Razor/RQNames/RQNameParser.cs:468-484 | a non-empty Text token is letters without delimiters, and a non-empty Number token is all digits |
| RQNameProperties.LexReadsInput | src/Microsoft.VisualStudio.LanguageServices.Razor/RQNames/RQNameParser.cs:468-484 | a non-empty token is the input text at the position where it was read |
| RQNameProperties.TextAtEndLosesLastCharacter | src/Microsoft.VisualStudio.LanguageServices.Razor/RQNames/RQNameParser.cs:476-483 | a text run that reaches the end of the input is read without its last character |
| RQNameProperties.NumberAtEndLosesLastDigit | src/Microsoft.VisualStudio.LanguageServices.Razor/RQNames/RQNameParser.cs:468-474 | a digit run that reaches the end of the input is read without its last digit |
| RQNameProperties.Accepted | src/Microsoft.VisualStudio.LanguageServices.Razor/RQNames/RQNameParser.cs:421-436 | an accepted token has the requested text, the punctuation's own character, or the shape of its kind |
| RQNameProperties.RQNameReadBack | src/Microsoft.VisualStudio.LanguageServices.Razor/RQNames/RQNameParser.cs:32-178 | every well-formed node is read back from its printed syntax, ending right after it |
| RQNameProperties.ParseReadsPrinted | src/Microsoft.VisualStudio.LanguageServices.Razor/RQNames/RQNameParser.cs:11-20 | Parse returns the node from its printed syntax followed by any text at all |
| RQNameReading.RQNameParsed | src/Microsoft.VisualStudio.LanguageServices.Razor/RQNames/RQNameParser.cs:32-70 | whatever is read is a well-formed node whose printed syntax stands at the start position, and reading ends right after it |
| RQNameReading.ParsedIsPrinted | src/Microsoft.VisualStudio.LanguageServices.Razor/RQNames/RQNameParser.cs:11-20 | what Parse returns is well formed and printed at the start of the input |
| RQNameReading.ParseExactlyPrinted | src/Microsoft.VisualStudio.LanguageServices.Razor/RQNames/RQNameParser.cs:11-20 | Parse returns a node exactly when the input starts with that well-formed node's printed syntax |
| RQNameReading.NullInputRefused | src/Microsoft.VisualStudio.LanguageServices.Razor/RQNames/RQNameParser.cs:13-16 | a null input throws ArgumentNullException for "input" |
| RQNameReading.HeadMustBeTopLevelForm | src/Microsoft.VisualStudio.LanguageServices.Razor/RQNames/RQNameParser.cs:35-69 | a first token that names none of the six top-level forms throws ArgumentException |
| RQNameReading.SymbolNameFailures | src/Microsoft.VisualStudio.LanguageServices.Razor/RQNames/RQNameParser.cs:281-316 | the member-variable, explicit-interface, method and event names throw NotImplementedException; any other non-keyword throws ArgumentException |
| RQNameReading.ParameterListFailures | src/Microsoft.VisualStudio.LanguageServices.Razor/RQNames/RQNameParser.cs:180-190 | a list is empty unless a Text follows; a non-empty Text throws NotImplementedException and an empty one throws InvalidOperationException |

## Left out

- RQNames node classes that the modelled files do not define (NamespaceNode, EventNode, PropertyNode, NamespaceNameNode, TypeVariableCountNode and ParameterNode) take the shape of their constructor calls in the parser.
- ParseParameter and the type-signature productions (RQNameParser.cs:192-262) are not modelled. The source only stubs them, and a parameter list reaching them is modelled as Failure(NotImplemented). For the same reason, only empty parameter lists can be parsed or printed.
- The name productions that throw NotImplementedException (RQNameParser.cs:344-384) are modelled only as that failure.
- ParseRank (RQNameParser.cs:403-407) is never called and is not modelled.
- RQNameProperties and RQNameReading: the read-back assumes `StandardClasses`, character classes under which the keywords are letters and digits are not. char.IsDigit and char.IsLetter themselves are parameters.
- Lists held by reference, such as a node's parameter list, are modelled by value, so aliasing between nodes is not captured.
- The project engine factory and the Razor compiler pipeline behind it are not modelled. An engine records only what it was built from.
- DefaultProjectSnapshot.FromStateAndOther and DefaultProjectSnapshot.FromUpdate stand in for the three-argument constructors the manager calls (DefaultProjectSnapshotManager.cs:178, 186, 358, 459), which DefaultProjectSnapshot.cs does not declare. Their difference argument is not a parameter: FromStateAndOther recomputes it from the two states, which equals what lines 358 and 459 pass, and FromUpdate ignores it. Neither carries the other snapshot's computed state forward.
- DefaultProjectSnapshot.CreateUpdateContext calls a ProjectSnapshotUpdateContext constructor that does not exist in the modelled files, so it is not modelled.
- The DocumentsChanged difference value (which the enum does not declare) is a parameter. So are a default snapshot's TagHelpers, TryGetTagHelpers, the update's Version and the two-argument HostProject constructor; the modelled files do not define any of them.
- ProjectSnapshotComputedState carries only its version; its other fields are not read by the modelled code.
- DefaultProjectSnapshotManager.ReportError (DefaultProjectSnapshotManager.cs:367-406) and the Projects property (111-118) are not modelled.
- Triggers' Initialize (DefaultProjectSnapshotManager.cs:105-108) is not modelled: the triggers are outside the model.
- The foreground-thread assertions are not modelled. Raised Changed events are an append-only notification log, and background work is an append-only queue.
- DocumentGenerator.Initialize (DocumentGenerator.cs:36-44) and the timer's delay are not modelled.
- The document generation of a Timer_Tick batch is not modelled: line 133 of DocumentGenerator.cs is an incomplete statement. The batch is taken and released as written.
- The default case of ProjectManager_Changed (DocumentGenerator.cs:226-229) cannot be reached with the five declared change kinds and is not modelled.
- The DocumentEntry Detached flag is modelled but never read by the source, and neither is its computed version.
- The tracker's ProjectChangeKind.DocumentContentChanged case (DefaultVisualStudioDocumentTracker.cs:297-300) names a kind the enum does not declare, so it is not modelled.
- The tracker's property getters (DefaultVisualStudioDocumentTracker.cs:89-114) and its Debug.Assert calls are not modelled.
- The tracker's asynchronous tag-helper computation is modelled as a later call to the completion handler with the computation's result, or none when it faulted.
- DefaultRazorProjectHost.InitializeCoreAsync and DisposeCoreAsync (DefaultRazorProjectHost.cs:45-79) are not modelled. Neither are the dataflow subscription, LoadedProjectAsync, ExecuteWithLock and the UpdateAsync threading: the update body runs synchronously.
- The host's calls to the project manager (the *Unsafe base-class members) are recorded as an ordered log of HostAction values, not carried out.
- Threading, locks, timers, I/O and the editor and workspace services are not modelled beyond the parameters named above.
