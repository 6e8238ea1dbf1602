/** The project snapshot manager: a registry from project path to snapshot, updated by host
    and workspace events and by background results (DefaultProjectSnapshotManager.cs). */
module SnapshotManager {
  import opened Common
  import opened Documents
  import opened SnapshotState
  import opened Snapshots

  /** The masks of DefaultProjectSnapshotManager. */
  const StartBackgroundWorkerMask: Difference :=
    ConfigurationChanged | WorkspaceProjectAdded | WorkspaceProjectChanged | WorkspaceProjectRemoved
  const NotifyProjectChangedMask: Difference :=
    ConfigurationChanged | WorkspaceProjectAdded | WorkspaceProjectRemoved
  const RejectComputedUpdateMask: Difference :=
    ConfigurationChanged | WorkspaceProjectAdded | WorkspaceProjectRemoved
  const AcceptComputedUpdateDirtyMask: Difference := WorkspaceProjectChanged

  /** A raised Changed event. */
  datatype ProjectChangeEvent = ProjectChangeEvent(snapshot: ProjectSnapshot, kind: ProjectChangeKind)

  /** The notification ProcessChangeForProject raises for an arbitrary difference: ProjectChanged
      takes precedence over DocumentsChanged, whose mask value the modelled code does not
      declare and is a parameter. */
  function ChangeNotification(d: Difference, documentsChangedMask: Difference): (k: Option<ProjectChangeKind>)
    ensures k == Some(ProjectChanged) <==> Intersects(d, NotifyProjectChangedMask)
    ensures k == Some(DocumentsChanged) <==>
      !Intersects(d, NotifyProjectChangedMask) && Intersects(d, documentsChangedMask)
    ensures k.None? <==> !Intersects(d, NotifyProjectChangedMask) && !Intersects(d, documentsChangedMask)
  {
    if Intersects(d, NotifyProjectChangedMask) then Some(ProjectChanged)
    else if Intersects(d, documentsChangedMask) then Some(DocumentsChanged)
    else None
  }

  /** What ProjectUpdated does with a background result, for an arbitrary difference. */
  datatype ComputedUpdateDecision = Reject | AcceptAndRequeue | Accept

  function ClassifyComputedUpdate(d: Difference): (r: ComputedUpdateDecision)
    ensures r == Reject <==> Intersects(d, RejectComputedUpdateMask)
    ensures r == AcceptAndRequeue <==>
      !Intersects(d, RejectComputedUpdateMask) && Intersects(d, AcceptComputedUpdateDirtyMask)
    ensures r == Accept <==>
      !Intersects(d, RejectComputedUpdateMask) && !Intersects(d, AcceptComputedUpdateDirtyMask)
  {
    if Intersects(d, RejectComputedUpdateMask) then Reject
    else if Intersects(d, AcceptComputedUpdateDirtyMask) then AcceptAndRequeue
    else Accept
  }

  /** On the differences the differencer actually yields: a change is announced as
      ProjectChanged exactly when the configurations are equal (the inverted test) or the
      workspace project was added or removed. */
  lemma ProjectChangedNotificationIff(newer: ProjectSnapshotState, older: ProjectSnapshotState, documentsChangedMask: Difference)
    ensures ChangeNotification(DifferenceFrom(newer, older), documentsChangedMask) == Some(ProjectChanged) <==>
      older.hostProject.configuration == newer.hostProject.configuration || IsAdded(older, newer) || IsRemoved(older, newer)
  {
  }

  /** The DocumentsChanged notification can only be raised when the undeclared mask shares a
      bit with the differencer's values 1, 2 or 4. */
  lemma DocumentsChangedNeedsOverlappingMask(newer: ProjectSnapshotState, older: ProjectSnapshotState, documentsChangedMask: Difference)
    requires documentsChangedMask & 7 == 0
    ensures ChangeNotification(DifferenceFrom(newer, older), documentsChangedMask) != Some(DocumentsChanged)
  {
    var d := DifferenceFrom(newer, older);
    assert d & documentsChangedMask == 0 by {
      assert d & 7 == d;
    }
  }

  /** Background work is wanted exactly when the difference is not Empty. */
  lemma BackgroundWorkIffNotEmpty(newer: ProjectSnapshotState, older: ProjectSnapshotState)
    ensures Intersects(DifferenceFrom(newer, older), StartBackgroundWorkerMask) <==> DifferenceFrom(newer, older) != Empty
  {
  }

  /** How a background result is judged against the current state. Because the configuration
      test is inverted, a result computed for a state with the current configuration is
      always rejected; one is accepted only when the configuration differs. */
  lemma ComputedUpdateDecisionIff(current: ProjectSnapshotState, computedFor: ProjectSnapshotState)
    ensures ClassifyComputedUpdate(DifferenceFrom(current, computedFor)) == Reject <==>
      current.hostProject.configuration == computedFor.hostProject.configuration ||
      IsAdded(computedFor, current) || IsRemoved(computedFor, current)
    ensures ClassifyComputedUpdate(DifferenceFrom(current, computedFor)) == AcceptAndRequeue <==>
      current.hostProject.configuration != computedFor.hostProject.configuration && IsChanged(computedFor, current)
  {
  }

  /** Supported workspace projects are C# projects with a file path. */
  predicate IsSupportedWorkspaceProject(workspaceProject: WorkspaceProject)
  {
    workspaceProject.language == "C#" && workspaceProject.filePath.Some?
  }

  class DefaultProjectSnapshotManager {
    /** Workspace.Services. */
    const services: Services
    /** FilePathComparer: two paths are the same key iff their normal forms are equal. */
    const norm: string -> string
    /** The value of the undeclared ProjectSnapshotStateDifference.DocumentsChanged. */
    const documentsChangedMask: Difference
    /** The TagHelpers of a default snapshot, which the modelled code does not define. */
    const tagHelpersOf: DefaultProjectSnapshot -> seq<TagHelperDescriptor>
    /** TagHelperDescriptorComparer.Default.Equals. */
    const tagHelperEquals: (TagHelperDescriptor, TagHelperDescriptor) -> bool

    /** _projects, keyed by the normal form of the path. */
    var projects: map<string, DefaultProjectSnapshot>
    /** Every Changed event raised, in order. */
    var notifications: seq<ProjectChangeEvent>
    /** The snapshot of every update context handed to the background worker, in order. */
    var workQueue: seq<DefaultProjectSnapshot>
    /** The last stamp VersionStamp.Create yielded. */
    var clock: VersionStamp

    /** Every snapshot is filed under the normal form of its own path. */
    predicate Valid()
      reads this
    {
      forall key :: key in projects ==> norm(projects[key].FilePath()) == key
    }

    constructor (services: Services, norm: string -> string, documentsChangedMask: Difference,
                 tagHelpersOf: DefaultProjectSnapshot -> seq<TagHelperDescriptor>,
                 tagHelperEquals: (TagHelperDescriptor, TagHelperDescriptor) -> bool)
      ensures Valid()
      ensures this.services == services && this.norm == norm && this.documentsChangedMask == documentsChangedMask
      ensures this.tagHelpersOf == tagHelpersOf && this.tagHelperEquals == tagHelperEquals
      ensures projects == map[] && notifications == [] && workQueue == [] && clock == DefaultVersion
    {
      this.services := services;
      this.norm := norm;
      this.documentsChangedMask := documentsChangedMask;
      this.tagHelpersOf := tagHelpersOf;
      this.tagHelperEquals := tagHelperEquals;
      projects := map[];
      notifications := [];
      workQueue := [];
      clock := DefaultVersion;
    }

    function Notification(snapshot: DefaultProjectSnapshot, kind: Option<ProjectChangeKind>): seq<ProjectChangeEvent>
    {
      if kind.Some? then [ProjectChangeEvent(DefaultSnapshot(snapshot), kind.value)] else []
    }

    /** GetLoadedProject: the registered snapshot for the path, if any. */
    function GetLoadedProject(filePath: Option<string>): (r: Result<Option<ProjectSnapshot>>)
      reads this
      ensures filePath.None? <==> r == Failure(ArgumentNull("filePath"))
      ensures filePath.Some? ==>
        r.Success? && (r.value.Some? <==> norm(filePath.value) in projects) &&
        (r.value.Some? ==> r.value.value == DefaultSnapshot(projects[norm(filePath.value)]))
      ensures filePath.Some? && r.Success? && r.value.Some? && Valid() ==>
        norm(r.value.value.FilePath()) == norm(filePath.value)
    {
      if filePath.None? then Failure(ArgumentNull("filePath"))
      else if norm(filePath.value) in projects then Success(Some(DefaultSnapshot(projects[norm(filePath.value)])))
      else Success(None)
    }

    /** GetOrCreateProject: the registered snapshot, or a new ephemeral one for the path. */
    method GetOrCreateProject(filePath: Option<string>) returns (r: Result<ProjectSnapshot>)
      ensures filePath.None? ==> r == Failure(ArgumentNull("filePath"))
      ensures filePath.Some? && norm(filePath.value) in projects ==>
        r == Success(DefaultSnapshot(projects[norm(filePath.value)]))
      ensures filePath.Some? && norm(filePath.value) !in projects ==>
        r.Success? && r.value.EphemeralSnapshot? && fresh(r.value.e) && r.value.e.Valid() &&
        r.value.e.filePath == filePath.value && r.value.e.services == services
    {
      if filePath.None? {
        return Failure(ArgumentNull("filePath"));
      }
      var loaded := GetLoadedProject(filePath);
      if loaded.value.Some? {
        return Success(loaded.value.value);
      }
      var ephemeral := new EphemeralProjectSnapshot(services, filePath.value);
      return Success(EphemeralSnapshot(ephemeral));
    }

    /** A workspace project that GetWorkspaceProject accepts for `filePath`. */
    predicate MatchesPath(workspaceProject: WorkspaceProject, filePath: string)
    {
      IsSupportedWorkspaceProject(workspaceProject) && norm(filePath) == norm(workspaceProject.filePath.value)
    }

    /** The first matching project of a solution's project list. */
    function FirstMatch(workspaceProjects: seq<WorkspaceProject>, filePath: string): (r: Option<WorkspaceProject>)
      ensures r.Some? ==> r.value in workspaceProjects && MatchesPath(r.value, filePath)
    {
      if |workspaceProjects| == 0 then None
      else if MatchesPath(workspaceProjects[0], filePath) then Some(workspaceProjects[0])
      else FirstMatch(workspaceProjects[1..], filePath)
    }

    /** FirstMatch finds the first matching project, and finds none only when none matches. */
    lemma {:induction false} FirstMatchIsFirst(workspaceProjects: seq<WorkspaceProject>, filePath: string)
      ensures FirstMatch(workspaceProjects, filePath).None? <==>
        forall i :: 0 <= i < |workspaceProjects| ==> !MatchesPath(workspaceProjects[i], filePath)
      ensures FirstMatch(workspaceProjects, filePath).Some? ==>
        exists i :: 0 <= i < |workspaceProjects| && workspaceProjects[i] == FirstMatch(workspaceProjects, filePath).value &&
          forall j :: 0 <= j < i ==> !MatchesPath(workspaceProjects[j], filePath)
    {
      if |workspaceProjects| > 0 && !MatchesPath(workspaceProjects[0], filePath) {
        var tail := workspaceProjects[1..];
        FirstMatchIsFirst(tail, filePath);
        if FirstMatch(tail, filePath).Some? {
          var i :| 0 <= i < |tail| && tail[i] == FirstMatch(tail, filePath).value &&
            forall j :: 0 <= j < i ==> !MatchesPath(tail[j], filePath);
          assert workspaceProjects[i + 1] == tail[i];
          assert forall j :: 0 <= j < i + 1 ==> !MatchesPath(workspaceProjects[j], filePath) by {
            forall j | 0 <= j < i + 1
              ensures !MatchesPath(workspaceProjects[j], filePath)
            {
              if j > 0 {
                assert workspaceProjects[j] == tail[j - 1];
              }
            }
          }
        } else {
          forall i | 0 <= i < |workspaceProjects|
            ensures !MatchesPath(workspaceProjects[i], filePath)
          {
            if i > 0 {
              assert workspaceProjects[i] == tail[i - 1];
            }
          }
        }
      } else if |workspaceProjects| > 0 {
        assert workspaceProjects[0] == FirstMatch(workspaceProjects, filePath).value;
      }
    }

    /** The workspace project for a host path: none when there is no current solution,
        otherwise the first supported project of the solution with that path. */
    function WorkspaceProjectFor(solution: Option<seq<WorkspaceProject>>, filePath: string): Option<WorkspaceProject>
    {
      if solution.None? then None else FirstMatch(solution.value, filePath)
    }

    /** GetWorkspaceProject: a scan of the current solution's projects. */
    method GetWorkspaceProject(solution: Option<seq<WorkspaceProject>>, filePath: string) returns (r: Option<WorkspaceProject>)
      ensures r == WorkspaceProjectFor(solution, filePath)
    {
      if solution.None? {
        return None;
      }
      var workspaceProjects := solution.value;
      var i := 0;
      while i < |workspaceProjects|
        invariant 0 <= i <= |workspaceProjects|
        invariant FirstMatch(workspaceProjects, filePath) == FirstMatch(workspaceProjects[i..], filePath)
      {
        if MatchesPath(workspaceProjects[i], filePath) {
          return Some(workspaceProjects[i]);
        }
        assert workspaceProjects[i..][1..] == workspaceProjects[i + 1..];
        i := i + 1;
      }
      return None;
    }

    /** Equal tag-helper lists: the same length and pairwise equal under the comparer. */
    predicate SameTagHelpers(older: seq<TagHelperDescriptor>, newer: seq<TagHelperDescriptor>)
    {
      |older| == |newer| && forall i :: 0 <= i < |older| ==> tagHelperEquals(older[i], newer[i])
    }

    /** HaveTagHelpersChanged: a count check, then a pairwise scan. */
    method HaveTagHelpersChanged(older: ProjectSnapshot, newer: ProjectSnapshot) returns (changed: bool)
      ensures changed <==> !SameTagHelpers(older.TagHelpers(tagHelpersOf), newer.TagHelpers(tagHelpersOf))
    {
      var olderTagHelpers := older.TagHelpers(tagHelpersOf);
      var newerTagHelpers := newer.TagHelpers(tagHelpersOf);
      if |olderTagHelpers| != |newerTagHelpers| {
        return true;
      }
      var i := 0;
      while i < |olderTagHelpers|
        invariant 0 <= i <= |olderTagHelpers|
        invariant forall j :: 0 <= j < i ==> tagHelperEquals(olderTagHelpers[j], newerTagHelpers[j])
      {
        if !tagHelperEquals(olderTagHelpers[i], newerTagHelpers[i]) {
          return true;
        }
        i := i + 1;
      }
      return false;
    }

    /** ProcessChangeForProject: files the (state, original) snapshot under the original's
        path, hands it to the background worker when it is initialized and the difference
        intersects the start mask, and raises the notification the difference calls for. */
    method ProcessChangeForProject(original: DefaultProjectSnapshot, state: ProjectSnapshotState)
      returns (snapshot: DefaultProjectSnapshot)
      requires Valid()
      requires norm(state.hostProject.filePath) == norm(original.FilePath())
      modifies this
      ensures Valid()
      ensures fresh(snapshot) && snapshot.state == state && snapshot.computedState.None?
      ensures SharesEngine(state, original.state) ==> snapshot.projectEngine == original.projectEngine
      ensures !SharesEngine(state, original.state) ==>
        fresh(snapshot.projectEngine) && snapshot.projectEngine.value.None?
      ensures projects == old(projects)[norm(original.FilePath()) := snapshot]
      ensures workQueue == old(workQueue) +
        (if snapshot.IsInitialized() && Intersects(DifferenceFrom(state, original.state), StartBackgroundWorkerMask)
         then [snapshot] else [])
      ensures notifications == old(notifications) +
        Notification(snapshot, ChangeNotification(DifferenceFrom(state, original.state), documentsChangedMask))
      ensures clock == old(clock)
    {
      var difference := DifferenceFrom(state, original.state);
      snapshot := new DefaultProjectSnapshot.FromStateAndOther(state, original);
      projects := projects[norm(original.FilePath()) := snapshot];
      if snapshot.IsInitialized() && Intersects(difference, StartBackgroundWorkerMask) {
        workQueue := workQueue + [snapshot];
      }
      if Intersects(difference, NotifyProjectChangedMask) {
        notifications := notifications + [ProjectChangeEvent(DefaultSnapshot(snapshot), ProjectChanged)];
      } else if Intersects(difference, documentsChangedMask) {
        notifications := notifications + [ProjectChangeEvent(DefaultSnapshot(snapshot), DocumentsChanged)];
      }
    }

    /** ProjectUpdated: a background result for an unknown or uninitialized project is
        dropped. Otherwise the current state is compared with the state it was computed for:
        a rejected result re-queues the current snapshot; an accepted one replaces the current
        snapshot by the (update, current) snapshot, re-queued when the workspace project
        changed, and TagHelpersChanged is raised when the tag helpers differ. */
    method ProjectUpdated(update: Option<ProjectSnapshotUpdateContext>, updateVersion: VersionStamp) returns (r: Outcome)
      requires Valid()
      modifies this
      ensures Valid()
      ensures update.None? ==> r == Fail(ArgumentNull("update")) && unchanged(this)
      ensures update.Some? ==>
        var key := norm(update.value.snapshot.FilePath());
        (key !in old(projects) || !old(projects)[key].IsInitialized() ==> r == Pass && unchanged(this)) &&
        (key in old(projects) && old(projects)[key].IsInitialized() && update.value.snapshot.EphemeralSnapshot? ==>
           r == Fail(InvalidCast) && unchanged(this)) &&
        (key in old(projects) && old(projects)[key].IsInitialized() && update.value.snapshot.DefaultSnapshot? ==>
           var current := old(projects)[key];
           var decision := ClassifyComputedUpdate(DifferenceFrom(current.state, update.value.snapshot.d.state));
           r == Pass && clock == old(clock) &&
           (decision == Reject ==>
              projects == old(projects) && notifications == old(notifications) && workQueue == old(workQueue) + [current]) &&
           (decision != Reject ==>
              key in projects &&
              var snapshot := projects[key];
              projects == old(projects)[key := snapshot] && fresh(snapshot) &&
              snapshot.state == current.state && snapshot.ComputedVersion() == Some(updateVersion) &&
              fresh(snapshot.projectEngine) &&
              workQueue == old(workQueue) + (if decision == AcceptAndRequeue then [snapshot] else []) &&
              notifications == old(notifications) +
                (if SameTagHelpers(tagHelpersOf(current), tagHelpersOf(snapshot)) then []
                 else [ProjectChangeEvent(DefaultSnapshot(snapshot), TagHelpersChanged)])))
    {
      if update.None? {
        return Fail(ArgumentNull("update"));
      }
      var context := update.value;
      var key := norm(context.snapshot.FilePath());
      if key !in projects {
        return Pass;
      }
      var current := projects[key];
      if !current.IsInitialized() {
        return Pass;
      }
      if context.snapshot.EphemeralSnapshot? {
        return Fail(InvalidCast);
      }
      var difference := DifferenceFrom(current.state, context.snapshot.d.state);
      var snapshot: DefaultProjectSnapshot;
      if Intersects(difference, RejectComputedUpdateMask) {
        workQueue := workQueue + [current];
        return Pass;
      } else if Intersects(difference, AcceptComputedUpdateDirtyMask) {
        snapshot := new DefaultProjectSnapshot.FromUpdate(context, current, updateVersion);
        projects := projects[norm(current.FilePath()) := snapshot];
        workQueue := workQueue + [snapshot];
      } else {
        snapshot := new DefaultProjectSnapshot.FromUpdate(context, current, updateVersion);
        projects := projects[norm(current.FilePath()) := snapshot];
      }
      var changed := HaveTagHelpersChanged(DefaultSnapshot(current), DefaultSnapshot(snapshot));
      if changed {
        notifications := notifications + [ProjectChangeEvent(DefaultSnapshot(snapshot), TagHelpersChanged)];
      }
      return Pass;
    }

    /** HostProjectAdded: a path that is already registered is ignored. Otherwise a snapshot over
        a new state (with the workspace project found for the path, if any, and a freshly
        created version) is registered, handed to the background worker if it is initialized,
        and announced as ProjectAdded. */
    method HostProjectAdded(hostProject: Option<HostProject>, solution: Option<seq<WorkspaceProject>>) returns (r: Outcome)
      requires Valid()
      modifies this
      ensures Valid()
      ensures hostProject.None? ==> r == Fail(ArgumentNull("hostProject")) && unchanged(this)
      ensures hostProject.Some? && norm(hostProject.value.filePath) in old(projects) ==> r == Pass && unchanged(this)
      ensures hostProject.Some? && norm(hostProject.value.filePath) !in old(projects) ==>
        var key := norm(hostProject.value.filePath);
        key in projects &&
        var snapshot := projects[key];
        r == Pass && projects == old(projects)[key := snapshot] && fresh(snapshot) &&
        snapshot.state == ProjectSnapshotState(services, hostProject.value,
                                               WorkspaceProjectFor(solution, hostProject.value.filePath), clock) &&
        clock > old(clock) && snapshot.IsDirty() &&
        workQueue == old(workQueue) + (if snapshot.IsInitialized() then [snapshot] else []) &&
        notifications == old(notifications) + [ProjectChangeEvent(DefaultSnapshot(snapshot), ProjectAdded)]
    {
      if hostProject.None? {
        return Fail(ArgumentNull("hostProject"));
      }
      var key := norm(hostProject.value.filePath);
      if key in projects {
        return Pass;
      }
      var workspaceProject := GetWorkspaceProject(solution, hostProject.value.filePath);
      clock := clock + 1;
      var state := NewState(Some(services), hostProject, workspaceProject, None, clock).value;
      var snapshot := new DefaultProjectSnapshot.FromState(state);
      projects := projects[key := snapshot];
      if snapshot.IsInitialized() {
        workQueue := workQueue + [snapshot];
      }
      notifications := notifications + [ProjectChangeEvent(DefaultSnapshot(snapshot), ProjectAdded)];
      return Pass;
    }

    /** HostProjectChanged: for a registered path, processes the change to the new host project;
        an unknown path is ignored. */
    method HostProjectChanged(hostProject: Option<HostProject>) returns (r: Outcome)
      requires Valid()
      modifies this
      ensures Valid()
      ensures hostProject.None? ==> r == Fail(ArgumentNull("hostProject")) && unchanged(this)
      ensures hostProject.Some? && norm(hostProject.value.filePath) !in old(projects) ==> r == Pass && unchanged(this)
      ensures hostProject.Some? && norm(hostProject.value.filePath) in old(projects) ==>
        var key := norm(hostProject.value.filePath);
        var original := old(projects)[key];
        key in projects &&
        var snapshot := projects[key];
        var difference := DifferenceFrom(snapshot.state, original.state);
        r == Pass && projects == old(projects)[key := snapshot] && fresh(snapshot) &&
        Success(snapshot.state) == SnapshotState.WithHostProject(original.state, hostProject) &&
        workQueue == old(workQueue) +
          (if snapshot.IsInitialized() && Intersects(difference, StartBackgroundWorkerMask) then [snapshot] else []) &&
        notifications == old(notifications) + Notification(snapshot, ChangeNotification(difference, documentsChangedMask))
    {
      if hostProject.None? {
        return Fail(ArgumentNull("hostProject"));
      }
      var key := norm(hostProject.value.filePath);
      if key !in projects {
        return Pass;
      }
      var original := projects[key];
      var state := SnapshotState.WithHostProject(original.state, hostProject).value;
      var _ := ProcessChangeForProject(original, state);
      return Pass;
    }

    /** HostProjectRemoved: removes a registered path and announces the removed snapshot. */
    method HostProjectRemoved(hostProject: Option<HostProject>) returns (r: Outcome)
      requires Valid()
      modifies this
      ensures Valid()
      ensures hostProject.None? ==> r == Fail(ArgumentNull("hostProject")) && unchanged(this)
      ensures hostProject.Some? && norm(hostProject.value.filePath) !in old(projects) ==> r == Pass && unchanged(this)
      ensures hostProject.Some? && norm(hostProject.value.filePath) in old(projects) ==>
        var key := norm(hostProject.value.filePath);
        r == Pass && projects == old(projects) - {key} && workQueue == old(workQueue) && clock == old(clock) &&
        notifications == old(notifications) + [ProjectChangeEvent(DefaultSnapshot(old(projects)[key]), ProjectRemoved)]
    {
      if hostProject.None? {
        return Fail(ArgumentNull("hostProject"));
      }
      var key := norm(hostProject.value.filePath);
      if key !in projects {
        return Pass;
      }
      var snapshot := projects[key];
      projects := projects - {key};
      notifications := notifications + [ProjectChangeEvent(DefaultSnapshot(snapshot), ProjectRemoved)];
      return Pass;
    }

    /** The registered snapshot a workspace project's path selects; none for an unsupported
        project. */
    function Target(workspaceProject: WorkspaceProject): (r: Option<DefaultProjectSnapshot>)
      reads this
      ensures r.Some? <==>
        IsSupportedWorkspaceProject(workspaceProject) && norm(workspaceProject.filePath.value) in projects
      ensures r.Some? ==> r.value == projects[norm(workspaceProject.filePath.value)]
    {
      if IsSupportedWorkspaceProject(workspaceProject) && norm(workspaceProject.filePath.value) in projects
      then Some(projects[norm(workspaceProject.filePath.value)])
      else None
    }

    /** The outcome of processing the change from `original` to the snapshot now filed under `key`. */
    predicate ProcessedChange(key: string, original: DefaultProjectSnapshot, state: ProjectSnapshotState,
                              oldProjects: map<string, DefaultProjectSnapshot>, oldWorkQueue: seq<DefaultProjectSnapshot>,
                              oldNotifications: seq<ProjectChangeEvent>)
      reads this
    {
      key in projects &&
      var snapshot := projects[key];
      var difference := DifferenceFrom(state, original.state);
      projects == oldProjects[key := snapshot] && snapshot.state == state &&
      workQueue == oldWorkQueue +
        (if snapshot.IsInitialized() && Intersects(difference, StartBackgroundWorkerMask) then [snapshot] else []) &&
      notifications == oldNotifications + Notification(snapshot, ChangeNotification(difference, documentsChangedMask))
    }

    /** WorkspaceProjectAdded: a supported project binds to the registered snapshot of its path
        only when that snapshot has no workspace project yet. */
    method WorkspaceProjectAdded(workspaceProject: Option<WorkspaceProject>) returns (r: Outcome)
      requires Valid()
      modifies this
      ensures Valid()
      ensures workspaceProject.None? ==> r == Fail(ArgumentNull("workspaceProject")) && unchanged(this)
      ensures workspaceProject.Some? ==> r == Pass
      ensures workspaceProject.Some? ==>
        var target := old(Target(workspaceProject.value));
        (target.None? || target.value.IsInitialized() ==> unchanged(this)) &&
        (target.Some? && !target.value.IsInitialized() ==>
           var key := norm(workspaceProject.value.filePath.value);
           ProcessedChange(key, target.value, SnapshotState.WithWorkspaceProject(target.value.state, workspaceProject),
                           old(projects), old(workQueue), old(notifications)) &&
           fresh(projects[key]))
    {
      if workspaceProject.None? {
        return Fail(ArgumentNull("workspaceProject"));
      }
      var project := workspaceProject.value;
      if !IsSupportedWorkspaceProject(project) {
        return Pass;
      }
      var key := norm(project.filePath.value);
      if key in projects {
        var original := projects[key];
        if original.WorkspaceProject().None? {
          var state := SnapshotState.WithWorkspaceProject(original.state, workspaceProject);
          var _ := ProcessChangeForProject(original, state);
        }
      }
      return Pass;
    }

    /** WorkspaceProjectChanged: a supported project rebinds the registered snapshot of its path
        when it has no workspace project or one with the same project id. */
    method WorkspaceProjectChanged(workspaceProject: Option<WorkspaceProject>) returns (r: Outcome)
      requires Valid()
      modifies this
      ensures Valid()
      ensures workspaceProject.None? ==> r == Fail(ArgumentNull("workspaceProject")) && unchanged(this)
      ensures workspaceProject.Some? ==> r == Pass
      ensures workspaceProject.Some? ==>
        var target := old(Target(workspaceProject.value));
        var accepts := target.Some? &&
          (!target.value.IsInitialized() || target.value.WorkspaceProject().value.id == workspaceProject.value.id);
        (!accepts ==> unchanged(this)) &&
        (accepts ==>
           var key := norm(workspaceProject.value.filePath.value);
           ProcessedChange(key, target.value, SnapshotState.WithWorkspaceProject(target.value.state, workspaceProject),
                           old(projects), old(workQueue), old(notifications)) &&
           fresh(projects[key]))
    {
      if workspaceProject.None? {
        return Fail(ArgumentNull("workspaceProject"));
      }
      var project := workspaceProject.value;
      if !IsSupportedWorkspaceProject(project) {
        return Pass;
      }
      var key := norm(project.filePath.value);
      if key in projects {
        var original := projects[key];
        if original.WorkspaceProject().None? || original.WorkspaceProject().value.id == project.id {
          var state := SnapshotState.WithWorkspaceProject(original.state, workspaceProject);
          var _ := ProcessChangeForProject(original, state);
        }
      }
      return Pass;
    }

    /** WorkspaceProjectRemoved: acts only when the removed project is the one bound to the
        registered snapshot of its path. If the current solution's first supported project for
        the path exists and is not the removed one, the snapshot rebinds to it as a processed
        change; otherwise, even when a later project of the solution also matches, the binding
        is cleared and ProjectChanged is raised, with no background work. */
    method WorkspaceProjectRemoved(workspaceProject: Option<WorkspaceProject>, solution: Option<seq<WorkspaceProject>>)
      returns (r: Outcome)
      requires Valid()
      modifies this
      ensures Valid()
      ensures workspaceProject.None? ==> r == Fail(ArgumentNull("workspaceProject")) && unchanged(this)
      ensures workspaceProject.Some? ==> r == Pass
      ensures workspaceProject.Some? ==>
        var target := old(Target(workspaceProject.value));
        var bound := target.Some? && target.value.IsInitialized() &&
          target.value.WorkspaceProject().value.id == workspaceProject.value.id;
        (!bound ==> unchanged(this)) &&
        (bound ==>
           var key := norm(workspaceProject.value.filePath.value);
           var other := WorkspaceProjectFor(solution, workspaceProject.value.filePath.value);
           key in projects && fresh(projects[key]) &&
           (other.Some? && other.value.id != workspaceProject.value.id ==>
              ProcessedChange(key, target.value, SnapshotState.WithWorkspaceProject(target.value.state, other),
                              old(projects), old(workQueue), old(notifications))) &&
           (other.None? || other.value.id == workspaceProject.value.id ==>
              projects == old(projects)[key := projects[key]] &&
              projects[key].state == SnapshotState.WithWorkspaceProject(target.value.state, None) &&
              workQueue == old(workQueue) &&
              notifications == old(notifications) + [ProjectChangeEvent(DefaultSnapshot(projects[key]), ProjectChanged)]))
    {
      if workspaceProject.None? {
        return Fail(ArgumentNull("workspaceProject"));
      }
      var project := workspaceProject.value;
      if !IsSupportedWorkspaceProject(project) {
        return Pass;
      }
      var key := norm(project.filePath.value);
      if key !in projects {
        return Pass;
      }
      var original := projects[key];
      if original.WorkspaceProject().None? || original.WorkspaceProject().value.id != project.id {
        return Pass;
      }
      var other := GetWorkspaceProject(solution, project.filePath.value);
      if other.Some? && other.value.id != project.id {
        var state := SnapshotState.WithWorkspaceProject(original.state, other);
        var _ := ProcessChangeForProject(original, state);
      } else {
        var state := SnapshotState.WithWorkspaceProject(original.state, None);
        var snapshot := new DefaultProjectSnapshot.FromStateAndOther(state, original);
        projects := projects[key := snapshot];
        notifications := notifications + [ProjectChangeEvent(DefaultSnapshot(snapshot), ProjectChanged)];
      }
      return Pass;
    }
  }
}
