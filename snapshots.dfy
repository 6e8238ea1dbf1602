/** Project snapshots: the lazily built project engine, the default snapshot with its three
    constructors, the ephemeral fallback snapshot, the background-update carrier and the
    change kinds (DefaultProjectSnapshot.cs, EphemeralProjectSnapshot.cs,
    ProjectSnapshotComputedState.cs, ProjectSnapshotUpdateContext.cs, ProjectChangeKind.cs). */
module Snapshots {
  import opened Common
  import opened Documents
  import opened SnapshotState

  /** A tag helper descriptor; descriptors are compared through a comparer parameter. */
  datatype TagHelperDescriptor = TagHelperDescriptor(name: string, assemblyName: string)

  /** The five notification kinds, in declaration order. */
  datatype ProjectChangeKind = ProjectAdded | ProjectRemoved | ProjectChanged | DocumentsChanged | TagHelpersChanged

  /** A RazorProjectEngine. The compiler pipeline behind the factory is not modelled: a factory
      call yields a fresh engine that records what it was built from. */
  class ProjectEngine {
    const configuration: RazorConfiguration
    const filePath: string

    constructor (configuration: RazorConfiguration, filePath: string)
      ensures this.configuration == configuration && this.filePath == filePath
    {
      this.configuration := configuration;
      this.filePath := filePath;
    }
  }

  /** Lazy<RazorProjectEngine> over CreateProjectEngine: a shared cell, filled on first access,
      that builds from the configuration and path of the snapshot that created it. */
  class LazyProjectEngine {
    const configuration: RazorConfiguration
    const filePath: string
    var value: Option<ProjectEngine>

    constructor (configuration: RazorConfiguration, filePath: string)
      ensures this.configuration == configuration && this.filePath == filePath
      ensures value.None?
    {
      this.configuration := configuration;
      this.filePath := filePath;
      value := None;
    }

    /** Lazy.Value: the first access runs the factory once; every later access returns the
        engine built then. */
    method GetValue() returns (engine: ProjectEngine)
      modifies this
      ensures old(value).Some? ==> engine == old(value).value && value == old(value)
      ensures old(value).None? ==>
        fresh(engine) && value == Some(engine) &&
        engine.configuration == configuration && engine.filePath == filePath
      ensures value == Some(engine)
    {
      if value.None? {
        engine := new ProjectEngine(configuration, filePath);
        value := Some(engine);
      } else {
        engine := value.value;
      }
    }
  }

  /** Two consecutive GetCurrentProjectEngine calls through one handle return the same engine. */
  method GetValueIsStable(handle: LazyProjectEngine) returns (first: ProjectEngine, second: ProjectEngine)
    modifies handle
    ensures first == second
    ensures handle.value == Some(first)
    ensures old(handle.value).None? ==> fresh(first)
  {
    first := handle.GetValue();
    second := handle.GetValue();
  }

  /** ProjectSnapshotComputedState: the version a background computation was made for. */
  datatype ComputedState = ComputedState(version: VersionStamp)

  /** The engine handle of a (state, other) snapshot is `other`'s unless the difference of
      the new state from `other`'s has the ConfigurationChanged bit; as written that bit is
      set when the configurations are equal or the workspace project was removed. */
  predicate SharesEngine(state: ProjectSnapshotState, otherState: ProjectSnapshotState)
  {
    !Intersects(DifferenceFrom(state, otherState), ConfigurationChanged)
  }

  lemma SharesEngineIff(state: ProjectSnapshotState, otherState: ProjectSnapshotState)
    ensures SharesEngine(state, otherState) <==>
      state.hostProject.configuration != otherState.hostProject.configuration && !IsRemoved(otherState, state)
  {
  }

  class DefaultProjectSnapshot {
    const state: ProjectSnapshotState
    const projectEngine: LazyProjectEngine
    const computedState: Option<ComputedState>

    /** DefaultProjectSnapshot(state): no computed state and a new engine handle. */
    constructor FromState(state: ProjectSnapshotState)
      ensures this.state == state && computedState.None?
      ensures fresh(projectEngine) && projectEngine.value.None?
      ensures projectEngine.configuration == state.hostProject.configuration
      ensures projectEngine.filePath == state.hostProject.filePath
    {
      this.state := state;
      computedState := None;
      projectEngine := new LazyProjectEngine(state.hostProject.configuration, state.hostProject.filePath);
    }

    /** DefaultProjectSnapshot(state, other): no computed state; `other`'s engine handle is
        shared unless the difference has the ConfigurationChanged bit. The manager calls a
        three-argument form (state, other, difference) that DefaultProjectSnapshot does not
        declare; this constructor stands in for it, recomputing the difference from the two
        states, which at those call sites equals the difference they pass. */
    constructor FromStateAndOther(state: ProjectSnapshotState, other: DefaultProjectSnapshot)
      ensures this.state == state && computedState.None?
      ensures SharesEngine(state, other.state) ==> projectEngine == other.projectEngine
      ensures !SharesEngine(state, other.state) ==>
        fresh(projectEngine) && projectEngine.value.None? &&
        projectEngine.configuration == state.hostProject.configuration &&
        projectEngine.filePath == state.hostProject.filePath
    {
      this.state := state;
      computedState := None;
      if Intersects(DifferenceFrom(state, other.state), ConfigurationChanged) {
        projectEngine := new LazyProjectEngine(state.hostProject.configuration, state.hostProject.filePath);
      } else {
        projectEngine := other.projectEngine;
      }
    }

    /** DefaultProjectSnapshot(update, other): `other`'s state, the update's version as the
        computed version, and always a new engine handle. The manager calls a three-argument
        form (update, other, difference) that DefaultProjectSnapshot does not declare; this
        constructor stands in for it and has no difference parameter. The update's version is
        not a member of the update carrier and is a parameter. */
    constructor FromUpdate(update: ProjectSnapshotUpdateContext, other: DefaultProjectSnapshot, updateVersion: VersionStamp)
      ensures state == other.state && computedState == Some(ComputedState(updateVersion))
      ensures fresh(projectEngine) && projectEngine.value.None?
      ensures projectEngine.configuration == other.state.hostProject.configuration
      ensures projectEngine.filePath == other.state.hostProject.filePath
    {
      computedState := Some(ComputedState(updateVersion));
      state := other.state;
      projectEngine := new LazyProjectEngine(other.state.hostProject.configuration, other.state.hostProject.filePath);
    }

    function Configuration(): RazorConfiguration { state.hostProject.configuration }

    function FilePath(): string { state.hostProject.filePath }

    function Version(): VersionStamp { state.version }

    function WorkspaceProject(): Option<WorkspaceProject> { state.workspaceProject }

    function ComputedVersion(): Option<VersionStamp>
    {
      if computedState.Some? then Some(computedState.value.version) else None
    }

    /** IsDirty: no computed result, or one computed for another version. */
    predicate IsDirty()
    {
      ComputedVersion() != Some(Version())
    }

    predicate IsInitialized()
    {
      WorkspaceProject().Some?
    }

    /** GetCurrentProjectEngine reads through the (possibly shared) handle. */
    method GetCurrentProjectEngine() returns (engine: ProjectEngine)
      modifies projectEngine
      ensures old(projectEngine.value).Some? ==> engine == old(projectEngine.value).value
      ensures old(projectEngine.value).None? ==> fresh(engine)
      ensures projectEngine.value == Some(engine)
    {
      engine := projectEngine.GetValue();
    }

    /** HasConfigurationChanged: throws on null, otherwise configuration inequality. */
    function HasConfigurationChanged(original: Option<DefaultProjectSnapshot>): (r: Result<bool>)
      ensures original.None? <==> r == Failure(ArgumentNull("original"))
      ensures original.Some? ==> r.Success? && (r.value <==> Configuration() != original.value.Configuration())
    {
      if original.None? then Failure(ArgumentNull("original"))
      else Success(Configuration() != original.value.Configuration())
    }

    /** WithHostProject: null throws; otherwise the (state, this) snapshot over the new state. */
    method WithHostProject(hostProject: Option<HostProject>) returns (r: Result<DefaultProjectSnapshot>)
      ensures hostProject.None? ==> r == Failure(ArgumentNull("hostProject"))
      ensures hostProject.Some? ==>
        r.Success? && fresh(r.value) && Success(r.value.state) == SnapshotState.WithHostProject(state, hostProject) &&
        r.value.computedState.None? &&
        (SharesEngine(r.value.state, state) ==> r.value.projectEngine == projectEngine) &&
        (!SharesEngine(r.value.state, state) ==> fresh(r.value.projectEngine))
    {
      if hostProject.None? {
        return Failure(ArgumentNull("hostProject"));
      }
      var newState := SnapshotState.WithHostProject(state, hostProject).value;
      var snapshot := new DefaultProjectSnapshot.FromStateAndOther(newState, this);
      return Success(snapshot);
    }

    /** WithWorkspaceProject: the (state, this) snapshot over the new state; null is allowed. */
    method WithWorkspaceProject(workspaceProject: Option<WorkspaceProject>) returns (snapshot: DefaultProjectSnapshot)
      ensures fresh(snapshot) && snapshot.state == SnapshotState.WithWorkspaceProject(state, workspaceProject)
      ensures snapshot.computedState.None?
      ensures SharesEngine(snapshot.state, state) ==> snapshot.projectEngine == projectEngine
      ensures !SharesEngine(snapshot.state, state) ==> fresh(snapshot.projectEngine)
    {
      snapshot := new DefaultProjectSnapshot.FromStateAndOther(SnapshotState.WithWorkspaceProject(state, workspaceProject), this);
    }

    /** WithComputedUpdate: null throws; otherwise the (update, this) snapshot. */
    method WithComputedUpdate(update: Option<ProjectSnapshotUpdateContext>, updateVersion: VersionStamp)
      returns (r: Result<DefaultProjectSnapshot>)
      ensures update.None? ==> r == Failure(ArgumentNull("update"))
      ensures update.Some? ==>
        r.Success? && fresh(r.value) && r.value.state == state &&
        r.value.ComputedVersion() == Some(updateVersion) && fresh(r.value.projectEngine)
    {
      if update.None? {
        return Failure(ArgumentNull("update"));
      }
      var snapshot := new DefaultProjectSnapshot.FromUpdate(update.value, this, updateVersion);
      return Success(snapshot);
    }
  }

  /** DefaultProjectSnapshot's null check on its `state` argument. */
  method NewDefaultProjectSnapshot(state: Option<ProjectSnapshotState>) returns (r: Result<DefaultProjectSnapshot>)
    ensures state.None? ==> r == Failure(ArgumentNull("state"))
    ensures state.Some? ==> r.Success? && fresh(r.value) && r.value.state == state.value && r.value.IsDirty()
  {
    if state.None? {
      return Failure(ArgumentNull("state"));
    }
    var snapshot := new DefaultProjectSnapshot.FromState(state.value);
    return Success(snapshot);
  }

  /** A snapshot is clean exactly when it has a computed state for its own version, so a
      snapshot without computed state is dirty. */
  lemma DirtyIffNotComputedForVersion(s: DefaultProjectSnapshot)
    ensures !s.IsDirty() <==> s.computedState == Some(ComputedState(s.Version()))
    ensures s.computedState.None? ==> s.IsDirty()
  {
  }

  class EphemeralProjectSnapshot {
    const services: Services
    const filePath: string
    const projectEngine: LazyProjectEngine

    /** The engine handle builds from this snapshot's path and the fixed fallback configuration. */
    predicate Valid()
    {
      projectEngine.configuration == FallbackMvc21 && projectEngine.filePath == filePath
    }

    /** The engine is built by the snapshot engine factory from this snapshot. */
    constructor (services: Services, filePath: string)
      ensures Valid()
      ensures this.services == services && this.filePath == filePath
      ensures fresh(projectEngine) && projectEngine.value.None?
      ensures projectEngine.configuration == FallbackMvc21 && projectEngine.filePath == filePath
    {
      this.services := services;
      this.filePath := filePath;
      projectEngine := new LazyProjectEngine(FallbackMvc21, filePath);
    }

    method GetCurrentProjectEngine() returns (engine: ProjectEngine)
      requires Valid()
      modifies projectEngine
      ensures old(projectEngine.value).Some? ==> engine == old(projectEngine.value).value
      ensures old(projectEngine.value).None? ==>
        fresh(engine) && engine.configuration == FallbackMvc21 && engine.filePath == filePath
      ensures projectEngine.value == Some(engine)
    {
      engine := projectEngine.GetValue();
    }
  }

  /** EphemeralProjectSnapshot's constructor with its two null checks. */
  method NewEphemeralProjectSnapshot(services: Option<Services>, filePath: Option<string>)
    returns (r: Result<EphemeralProjectSnapshot>)
    ensures services.None? ==> r == Failure(ArgumentNull("services"))
    ensures services.Some? && filePath.None? ==> r == Failure(ArgumentNull("filePath"))
    ensures services.Some? && filePath.Some? ==>
      r.Success? && fresh(r.value) && r.value.Valid() &&
      r.value.services == services.value && r.value.filePath == filePath.value
  {
    if services.None? {
      return Failure(ArgumentNull("services"));
    }
    if filePath.None? {
      return Failure(ArgumentNull("filePath"));
    }
    var snapshot := new EphemeralProjectSnapshot(services.value, filePath.value);
    return Success(snapshot);
  }

  /** The abstract ProjectSnapshot: one of the two concrete snapshots. Equality compares the
      underlying objects. */
  datatype ProjectSnapshot = DefaultSnapshot(d: DefaultProjectSnapshot) | EphemeralSnapshot(e: EphemeralProjectSnapshot)
  {
    function FilePath(): string
    {
      match this
      case DefaultSnapshot(d) => d.FilePath()
      case EphemeralSnapshot(e) => e.filePath
    }

    function Configuration(): RazorConfiguration
    {
      match this
      case DefaultSnapshot(d) => d.Configuration()
      case EphemeralSnapshot(_) => FallbackMvc21
    }

    function Version(): VersionStamp
    {
      match this
      case DefaultSnapshot(d) => d.Version()
      case EphemeralSnapshot(_) => DefaultVersion
    }

    function WorkspaceProject(): Option<WorkspaceProject>
    {
      match this
      case DefaultSnapshot(d) => d.WorkspaceProject()
      case EphemeralSnapshot(_) => None
    }

    predicate IsInitialized()
    {
      WorkspaceProject().Some?
    }

    /** Both concrete snapshots expose an empty document list. */
    function Documents(): seq<RazorDocument>
    {
      []
    }

    /** TagHelpers: empty for the ephemeral snapshot; the default snapshot's list is not
        defined by the modelled code and comes from `defaultTagHelpers`. */
    function TagHelpers(defaultTagHelpers: DefaultProjectSnapshot -> seq<TagHelperDescriptor>): seq<TagHelperDescriptor>
    {
      match this
      case DefaultSnapshot(d) => defaultTagHelpers(d)
      case EphemeralSnapshot(_) => []
    }
  }

  /** The ephemeral snapshot is never initialized, has no workspace project, documents or tag
      helpers, and reports the default version and the fallback configuration. */
  lemma EphemeralSnapshotIsEmpty(e: EphemeralProjectSnapshot, defaultTagHelpers: DefaultProjectSnapshot -> seq<TagHelperDescriptor>)
    ensures !EphemeralSnapshot(e).IsInitialized() && EphemeralSnapshot(e).WorkspaceProject().None?
    ensures EphemeralSnapshot(e).Documents() == [] && EphemeralSnapshot(e).TagHelpers(defaultTagHelpers) == []
    ensures EphemeralSnapshot(e).Version() == DefaultVersion && EphemeralSnapshot(e).Configuration() == FallbackMvc21
  {
  }

  /** ProjectSnapshotUpdateContext: the snapshot a background computation ran for, and the
      tag helpers it produced (settable, empty by default). */
  class ProjectSnapshotUpdateContext {
    const snapshot: ProjectSnapshot
    var tagHelpers: seq<TagHelperDescriptor>

    constructor (snapshot: ProjectSnapshot)
      ensures this.snapshot == snapshot && tagHelpers == []
    {
      this.snapshot := snapshot;
      tagHelpers := [];
    }

    method SetTagHelpers(tagHelpers: seq<TagHelperDescriptor>)
      modifies this
      ensures this.tagHelpers == tagHelpers
    {
      this.tagHelpers := tagHelpers;
    }
  }

  method NewProjectSnapshotUpdateContext(snapshot: Option<ProjectSnapshot>) returns (r: Result<ProjectSnapshotUpdateContext>)
    ensures snapshot.None? ==> r == Failure(ArgumentNull("snapshot"))
    ensures snapshot.Some? ==> r.Success? && fresh(r.value) && r.value.snapshot == snapshot.value && r.value.tagHelpers == []
  {
    if snapshot.None? {
      return Failure(ArgumentNull("snapshot"));
    }
    var update := new ProjectSnapshotUpdateContext(snapshot.value);
    return Success(update);
  }
}
