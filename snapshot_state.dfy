/** The immutable project state and its differencer (ProjectSnapshotState.cs). */
module SnapshotState {
  import opened Common
  import opened Documents

  /** A HostWorkspaceServices handle; only its identity matters here. */
  type Services = nat

  /** The Roslyn project ("workspace project") a state may be bound to. */
  datatype WorkspaceProject = WorkspaceProject(id: nat, language: string, filePath: Option<string>,
                                               version: VersionStamp)

  datatype ProjectSnapshotState = ProjectSnapshotState(services: Services, hostProject: HostProject,
                                                       workspaceProject: Option<WorkspaceProject>,
                                                       version: VersionStamp)

  /** The constructor: rejects a null services or host project; the version defaults to
      `created`, the stamp VersionStamp.Create() yields at that moment. */
  function NewState(services: Option<Services>, hostProject: Option<HostProject>,
                    workspaceProject: Option<WorkspaceProject>, version: Option<VersionStamp>,
                    created: VersionStamp): (r: Result<ProjectSnapshotState>)
    ensures services.None? ==> r == Failure(ArgumentNull("services"))
    ensures services.Some? && hostProject.None? ==> r == Failure(ArgumentNull("hostProject"))
    ensures r.Success? <==> services.Some? && hostProject.Some?
    ensures r.Success? ==>
      r.value.services == services.value && r.value.hostProject == hostProject.value &&
      r.value.workspaceProject == workspaceProject &&
      r.value.version == (if version.Some? then version.value else created)
  {
    if services.None? then Failure(ArgumentNull("services"))
    else if hostProject.None? then Failure(ArgumentNull("hostProject"))
    else Success(ProjectSnapshotState(services.value, hostProject.value, workspaceProject,
                                      if version.Some? then version.value else created))
  }

  /** WithHostProject: replaces only the host project, with a strictly newer version. */
  function WithHostProject(s: ProjectSnapshotState, hostProject: Option<HostProject>): (r: Result<ProjectSnapshotState>)
    ensures hostProject.None? <==> r == Failure(ArgumentNull("hostProject"))
    ensures r.Success? ==>
      r.value.hostProject == hostProject.value &&
      r.value.services == s.services && r.value.workspaceProject == s.workspaceProject &&
      r.value.version > s.version
  {
    if hostProject.None? then Failure(ArgumentNull("hostProject"))
    else Success(ProjectSnapshotState(s.services, hostProject.value, s.workspaceProject, GetNewerVersion(s.version)))
  }

  /** WithWorkspaceProject: replaces only the workspace project (which may be null),
      with a strictly newer version. */
  function WithWorkspaceProject(s: ProjectSnapshotState, workspaceProject: Option<WorkspaceProject>): (r: ProjectSnapshotState)
    ensures r.workspaceProject == workspaceProject
    ensures r.services == s.services && r.hostProject == s.hostProject
    ensures r.version > s.version
  {
    ProjectSnapshotState(s.services, s.hostProject, workspaceProject, GetNewerVersion(s.version))
  }

  /** ProjectSnapshotStateDifference: a [Flags] enum whose members take the implicit
      values 0..4, so that WorkspaceProjectRemoved == ConfigurationChanged | WorkspaceProjectAdded. */
  type Difference = bv8

  const Empty: Difference := 0
  const ConfigurationChanged: Difference := 1
  const WorkspaceProjectAdded: Difference := 2
  const WorkspaceProjectRemoved: Difference := 3
  const WorkspaceProjectChanged: Difference := 4

  predicate Intersects(d: Difference, mask: Difference)
  {
    d & mask != 0
  }

  /** The three mutually exclusive workspace-project transitions the differencer tests in turn. */
  predicate IsAdded(older: ProjectSnapshotState, newer: ProjectSnapshotState)
  {
    older.workspaceProject.None? && newer.workspaceProject.Some?
  }

  predicate IsRemoved(older: ProjectSnapshotState, newer: ProjectSnapshotState)
  {
    older.workspaceProject.Some? && newer.workspaceProject.None?
  }

  predicate IsChanged(older: ProjectSnapshotState, newer: ProjectSnapshotState)
  {
    older.workspaceProject.Some? && newer.workspaceProject.Some? &&
    older.workspaceProject.value.version != newer.workspaceProject.value.version
  }

  /** ComputeDifferenceFrom on a present `older`, as written: the ConfigurationChanged bit is
      set when the configurations are EQUAL, and the Removed value shares bits with
      ConfigurationChanged and Added. */
  function DifferenceFrom(newer: ProjectSnapshotState, older: ProjectSnapshotState): (d: Difference)
    ensures d in {0, 1, 2, 3, 4, 5}
    ensures Intersects(d, ConfigurationChanged) <==>
      older.hostProject.configuration == newer.hostProject.configuration || IsRemoved(older, newer)
    ensures Intersects(d, WorkspaceProjectAdded) <==> IsAdded(older, newer) || IsRemoved(older, newer)
    ensures Intersects(d, WorkspaceProjectChanged) <==> IsChanged(older, newer)
    ensures d == Empty <==>
      older.hostProject.configuration != newer.hostProject.configuration &&
      !IsAdded(older, newer) && !IsRemoved(older, newer) && !IsChanged(older, newer)
  {
    var configuration := if older.hostProject.configuration == newer.hostProject.configuration
                         then ConfigurationChanged else Empty;
    var workspace :=
      if older.workspaceProject.None? && newer.workspaceProject.Some? then WorkspaceProjectAdded
      else if older.workspaceProject.Some? && newer.workspaceProject.None? then WorkspaceProjectRemoved
      else if (if older.workspaceProject.Some? then Some(older.workspaceProject.value.version) else None)
              != (if newer.workspaceProject.Some? then Some(newer.workspaceProject.value.version) else None)
      then WorkspaceProjectChanged
      else Empty;
    configuration | workspace
  }

  /** ComputeDifferenceFrom: a null `older` throws. */
  function ComputeDifferenceFrom(newer: ProjectSnapshotState, older: Option<ProjectSnapshotState>): (r: Result<Difference>)
    ensures older.None? <==> r == Failure(ArgumentNull("older"))
    ensures older.Some? ==> r == Success(DifferenceFrom(newer, older.value))
  {
    if older.None? then Failure(ArgumentNull("older")) else Success(DifferenceFrom(newer, older.value))
  }

  /** Because of the inverted configuration test, a state compared with itself (or with any
      state of the same configuration and the same workspace-project version) is reported as
      ConfigurationChanged, never Empty. */
  lemma SameConfigurationReportsConfigurationChanged(newer: ProjectSnapshotState, older: ProjectSnapshotState)
    requires older.hostProject.configuration == newer.hostProject.configuration
    requires older.workspaceProject == newer.workspaceProject
    ensures DifferenceFrom(newer, older) == ConfigurationChanged
  {
  }

  /** A Removed difference intersects every mask that contains ConfigurationChanged or
      WorkspaceProjectAdded. */
  lemma RemovedOverlapsConfigurationAndAdded(mask: Difference)
    requires Intersects(mask, ConfigurationChanged) || Intersects(mask, WorkspaceProjectAdded)
    ensures Intersects(WorkspaceProjectRemoved, mask)
  {
  }
}
