/** The editor's document tracker (DefaultVisualStudioDocumentTracker.cs): the text views
    open on one Razor buffer, the subscription to the project manager and the editor
    settings that exists while the first view is open, and the single in-flight tag-helper
    computation for the tracked project. */
module DocumentTracking {
  import opened Common
  import S = Snapshots
  import M = SnapshotManager

  /** ContextChangeKind: what a ContextChanged event reports. */
  datatype ContextChangeKind = ProjectChanged | EditorSettingsChanged | TagHelpersChanged

  /** An editor text view; the tracker only observes whether it has the focus. */
  class TextView {
    var hasAggregateFocus: bool

    constructor (hasAggregateFocus: bool)
      ensures this.hasAggregateFocus == hasAggregateFocus
    {
      this.hasAggregateFocus := hasAggregateFocus;
    }
  }

  /** Snapshot.TryGetTagHelpers, which the modelled code does not define: the tag helpers a
      snapshot already carries, if any. */
  type TagHelperSource = S.ProjectSnapshot -> Option<seq<S.TagHelperDescriptor>>

  /** What the text-buffer project service reports when Subscribe asks: whether the buffer
      has Razor content, whether GetHostProject found a hierarchy, and for that hierarchy
      GetProjectPath and IsSupportedProject. */
  datatype HostLookup = HostLookup(isRazorContent: bool, hierarchyFound: bool, projectPath: Option<string>,
                                   isSupported: bool)

  /** Subscribe goes past its early return exactly when the buffer is Razor content, the
      hierarchy exists, the project is supported and its path is known. */
  predicate Subscribes(host: HostLookup)
  {
    host.isRazorContent && host.hierarchyFound && host.isSupported && host.projectPath.Some?
  }

  /** No text view occurs twice. */
  predicate Distinct(views: seq<TextView>)
  {
    forall i, j :: 0 <= i < j < |views| ==> views[i] != views[j]
  }

  /** The position of the first occurrence of `v`. */
  function IndexOf(views: seq<TextView>, v: TextView): (i: nat)
    requires v in views
    ensures i < |views| && views[i] == v && v !in views[..i]
  {
    if views[0] == v then 0 else 1 + IndexOf(views[1..], v)
  }

  /** List.Remove: the list without the first occurrence of `v`. */
  function Without(views: seq<TextView>, v: TextView): seq<TextView>
  {
    if |views| == 0 then []
    else if views[0] == v then views[1..]
    else [views[0]] + Without(views[1..], v)
  }

  /** Removing a view drops exactly its first occurrence and keeps the others in order. */
  lemma {:induction false} WithoutIsSplice(views: seq<TextView>, v: TextView)
    requires v in views
    ensures Without(views, v) == views[..IndexOf(views, v)] + views[IndexOf(views, v) + 1..]
  {
    if views[0] != v {
      var rest := views[1..];
      WithoutIsSplice(rest, v);
      var i := IndexOf(rest, v);
      assert [views[0]] + (rest[..i] + rest[i + 1..]) == views[..i + 1] + views[i + 2..];
    }
  }

  /** Cutting one position out of a list without duplicates leaves a list without duplicates
      that lacks the element cut and keeps every other one. */
  lemma SpliceKeepsDistinct(views: seq<TextView>, i: nat)
    requires Distinct(views) && i < |views|
    ensures var r := views[..i] + views[i + 1..];
      |r| == |views| - 1 && Distinct(r) && views[i] !in r && forall x :: x in views && x != views[i] ==> x in r
  {
    var r := views[..i] + views[i + 1..];
    assert forall k :: 0 <= k < |r| ==> r[k] == views[if k < i then k else k + 1];
    forall x | x in views && x != views[i]
      ensures x in r
    {
      var k :| 0 <= k < |views| && views[k] == x;
      assert r[if k < i then k else k - 1] == x;
    }
  }

  /** Removing a view from a list without duplicates: one shorter, still without duplicates,
      the view gone and every other view kept. */
  lemma WithoutRemovesFirst(views: seq<TextView>, v: TextView)
    requires v in views && Distinct(views)
    ensures |Without(views, v)| == |views| - 1 && Distinct(Without(views, v)) && v !in Without(views, v)
    ensures forall x :: x in views && x != v ==> x in Without(views, v)
  {
    WithoutIsSplice(views, v);
    SpliceKeepsDistinct(views, IndexOf(views, v));
  }

  /** The in-flight bookkeeping: the tracked snapshot, the project of the running
      computation (its task exists exactly when it is present), the last tag helpers
      adopted, the ContextChanged events raised, and the snapshots handed to
      GetTagHelpersAsync, in order. */
  datatype Computation = Computation(snapshot: Option<S.ProjectSnapshot>, computing: Option<S.ProjectSnapshot>,
                                     tagHelpers: seq<S.TagHelperDescriptor>, changes: seq<ContextChangeKind>,
                                     derivations: seq<S.ProjectSnapshot>)

  /** The running computation, when there is one, is the last one started. */
  predicate InFlightIsLast(c: Computation)
  {
    c.computing.Some? ==> |c.derivations| > 0 && c.computing.value == c.derivations[|c.derivations| - 1]
  }

  /** StartComputingTagHelpers: a snapshot that already carries tag helpers is adopted at
      once and TagHelpersChanged is raised; otherwise the asynchronous computation starts
      and occupies the slot. */
  function StartComputing(available: TagHelperSource, c: Computation): (r: Computation)
    requires c.snapshot.Some? && c.computing.None?
    decreases 1
    ensures r.snapshot == c.snapshot
    ensures InFlightIsLast(c) ==> InFlightIsLast(r)
  {
    match available(c.snapshot.value)
    case Some(results) => ContextChanged(available, c.(tagHelpers := results), TagHelpersChanged)
    case None => c.(computing := c.snapshot, derivations := c.derivations + [c.snapshot.value])
  }

  /** OnContextChanged: the event is raised; a ProjectChanged event with a snapshot and no
      computation in flight then starts one. */
  function ContextChanged(available: TagHelperSource, c: Computation, kind: ContextChangeKind): (r: Computation)
    decreases if kind == ProjectChanged then 2 else 0
    ensures r.snapshot == c.snapshot
    ensures InFlightIsLast(c) ==> InFlightIsLast(r)
  {
    var raised := c.(changes := c.changes + [kind]);
    if kind == ProjectChanged && raised.snapshot.Some? && raised.computing.None? then StartComputing(available, raised)
    else raised
  }

  /** The result of a computation: its tag helpers, or none when the computation faulted. */
  function ResultOrEmpty(result: Option<seq<S.TagHelperDescriptor>>): seq<S.TagHelperDescriptor>
  {
    if result.Some? then result.value else []
  }

  /** Whether the tracked snapshot moved away from the one the computation was for. */
  predicate Moved(c: Computation)
  {
    c.snapshot.Some? && c.snapshot != c.computing
  }

  /** TagHelpersUpdated: nothing while the project is unsupported; otherwise the result is
      adopted, TagHelpersChanged raised, the slot cleared, and a computation restarted when
      the tracked snapshot moved. */
  function Completed(available: TagHelperSource, c: Computation, supported: bool,
                     result: Option<seq<S.TagHelperDescriptor>>): (r: Computation)
    requires c.computing.Some?
    ensures r.snapshot == c.snapshot
    ensures InFlightIsLast(c) ==> InFlightIsLast(r)
  {
    if !supported then c
    else
      var adopted := ContextChanged(available, c.(tagHelpers := ResultOrEmpty(result)), TagHelpersChanged);
      var cleared := adopted.(computing := None);
      if Moved(adopted) then StartComputing(available, cleared) else cleared
  }

  /** Only a ProjectChanged event can start a computation, it starts one only when the slot
      is empty and the snapshot carries no tag helpers, and a running computation is never
      replaced. */
  lemma ContextChangedStarts(available: TagHelperSource, c: Computation, kind: ContextChangeKind)
    ensures var r := ContextChanged(available, c, kind);
      (r.derivations != c.derivations <==>
         kind == ProjectChanged && c.snapshot.Some? && c.computing.None? && available(c.snapshot.value).None?) &&
      (r.derivations == c.derivations || r.derivations == c.derivations + [c.snapshot.value]) &&
      (c.computing.Some? ==> r.computing == c.computing) &&
      (r.computing.Some? ==> r.computing == c.computing || r.computing == c.snapshot)
  {
  }

  /** A snapshot that already carries tag helpers is adopted synchronously: ProjectChanged and
      then TagHelpersChanged are raised and no task is recorded. */
  lemma AdoptsAvailableTagHelpers(available: TagHelperSource, c: Computation)
    requires c.snapshot.Some? && c.computing.None? && available(c.snapshot.value).Some?
    ensures var r := ContextChanged(available, c, ProjectChanged);
      r.tagHelpers == available(c.snapshot.value).value && r.computing.None? &&
      r.changes == c.changes + [ProjectChanged, TagHelpersChanged] && r.derivations == c.derivations
  {
    var raised := c.(changes := c.changes + [ProjectChanged]);
    assert raised.changes + [TagHelpersChanged] == c.changes + [ProjectChanged, TagHelpersChanged];
  }

  /** At most one computation per tracker: two requests in a row start at most one. */
  lemma {:induction false} TwoRequestsStartOne(available: TagHelperSource, c: Computation)
    ensures var r := ContextChanged(available, ContextChanged(available, c, ProjectChanged), ProjectChanged);
      |r.derivations| <= |c.derivations| + 1
  {
    var first := ContextChanged(available, c, ProjectChanged);
    ContextChangedStarts(available, c, ProjectChanged);
    ContextChangedStarts(available, first, ProjectChanged);
    if first.derivations != c.derivations {
      assert first.computing.Some?;
    }
  }

  /** Completion while the project is unsupported changes nothing: the slot stays occupied. */
  lemma CompletionWhileUnsupported(available: TagHelperSource, c: Computation,
                                   result: Option<seq<S.TagHelperDescriptor>>)
    requires c.computing.Some?
    ensures Completed(available, c, false, result) == c && Completed(available, c, false, result).computing.Some?
  {
  }

  /** Completion of a supported project: TagHelpersChanged is raised first; when the target
      did not move, the result (empty for a faulted task) is adopted and the slot is empty;
      when it moved, the next computation is for the current snapshot. */
  lemma CompletionAdopts(available: TagHelperSource, c: Computation, result: Option<seq<S.TagHelperDescriptor>>)
    requires c.computing.Some?
    ensures var r := Completed(available, c, true, result);
      |r.changes| > |c.changes| && r.changes[..|c.changes| + 1] == c.changes + [TagHelpersChanged] &&
      (!Moved(c) ==> r.computing.None? && r.tagHelpers == ResultOrEmpty(result) && r.derivations == c.derivations) &&
      (result.None? && !Moved(c) ==> r.tagHelpers == []) &&
      (r.computing.Some? <==> Moved(c) && available(c.snapshot.value).None?) &&
      (r.computing.Some? ==> r.computing == c.snapshot && r.derivations == c.derivations + [c.snapshot.value])
  {
    var adopted := ContextChanged(available, c.(tagHelpers := ResultOrEmpty(result)), TagHelpersChanged);
    var cleared := adopted.(computing := None);
    assert adopted.changes == c.changes + [TagHelpersChanged];
    if Moved(adopted) {
      assert Completed(available, c, true, result) == StartComputing(available, cleared);
      match available(c.snapshot.value)
      case Some(results) =>
        assert StartComputing(available, cleared) ==
          ContextChanged(available, cleared.(tagHelpers := results), TagHelpersChanged);
        assert (adopted.changes + [TagHelpersChanged])[..|c.changes| + 1] == adopted.changes;
      case None =>
    } else {
      assert adopted.changes[..|c.changes| + 1] == adopted.changes;
    }
  }

  /** The whole tracker state the methods change. */
  datatype TrackerState = TrackerState(textViews: seq<TextView>, isSupportedProject: bool, subscribed: bool,
                                       projectPath: Option<string>, slot: Computation)

  /** The tracker's invariant: the views are distinct; the subscription exists only while a
      view is open and a project path is known, and exactly when the project is supported;
      the running computation is the last one started. */
  predicate TrackerValid(t: TrackerState)
  {
    Distinct(t.textViews) && (t.subscribed ==> |t.textViews| > 0 && t.projectPath.Some?) &&
    t.isSupportedProject == t.subscribed && InFlightIsLast(t.slot)
  }

  /** Subscribe past its early return: supported, path recorded, handlers attached, the
      snapshot from GetOrCreateProject tracked and ProjectChanged raised. */
  function Subscribed(available: TagHelperSource, t: TrackerState, path: string, snapshot: S.ProjectSnapshot)
    : (r: TrackerState)
    ensures r.textViews == t.textViews && r.slot.snapshot == Some(snapshot)
    ensures r.subscribed && r.isSupportedProject && r.projectPath == Some(path)
  {
    t.(isSupportedProject := true, subscribed := true, projectPath := Some(path),
       slot := ContextChanged(available, t.slot.(snapshot := Some(snapshot)), ProjectChanged))
  }

  /** Unsubscribe: handlers detached, unsupported, no snapshot, ProjectChanged raised. */
  function Unsubscribed(available: TagHelperSource, t: TrackerState): (r: TrackerState)
    ensures r.textViews == t.textViews && r.projectPath == t.projectPath
  {
    t.(subscribed := false, isSupportedProject := false,
       slot := ContextChanged(available, t.slot.(snapshot := None), ProjectChanged))
  }

  /** After Unsubscribe the tracker is detached: unsupported, without a snapshot, and no
      computation was started by the ProjectChanged event it raises. */
  lemma UnsubscribedIsDetached(available: TagHelperSource, t: TrackerState)
    ensures var r := Unsubscribed(available, t);
      !r.isSupportedProject && !r.subscribed && r.slot.snapshot.None? &&
      r.slot.computing == t.slot.computing && r.slot.derivations == t.slot.derivations &&
      r.slot.changes == t.slot.changes + [ProjectChanged] && r.slot.tagHelpers == t.slot.tagHelpers
  {
  }

  /** Subscribing tracks the snapshot and asks for its tag helpers unless a computation is
      already running. */
  lemma SubscribedRequestsTagHelpers(available: TagHelperSource, t: TrackerState, path: string,
                                     snapshot: S.ProjectSnapshot)
    ensures var r := Subscribed(available, t, path, snapshot);
      (t.slot.computing.None? && available(snapshot).None? ==>
         r.slot.computing == Some(snapshot) && r.slot.derivations == t.slot.derivations + [snapshot]) &&
      (t.slot.computing.None? && available(snapshot).Some? ==> r.slot.tagHelpers == available(snapshot).value) &&
      (t.slot.computing.Some? ==> r.slot.computing == t.slot.computing && r.slot.derivations == t.slot.derivations)
  {
    var raised := t.slot.(snapshot := Some(snapshot), changes := t.slot.changes + [ProjectChanged]);
    if t.slot.computing.None? && available(snapshot).Some? {
      assert Subscribed(available, t, path, snapshot).slot == StartComputing(available, raised);
      assert StartComputing(available, raised) ==
        ContextChanged(available, raised.(tagHelpers := available(snapshot).value), TagHelpersChanged);
    }
  }

  /** The 0-to-1 and 1-to-0 transitions keep the tracker's invariant. */
  lemma TransitionsKeepValid(available: TagHelperSource, t: TrackerState, path: string, snapshot: S.ProjectSnapshot,
                             v: TextView)
    ensures TrackerValid(t) && t.textViews == [] ==> TrackerValid(Subscribed(available, t.(textViews := [v]), path, snapshot))
    ensures TrackerValid(t) && |t.textViews| == 1 ==>
      TrackerValid(Unsubscribed(available, t.(textViews := [])))
  {
  }

  class DocumentTracker {
    /** _filePath: the tracked buffer's document path. */
    const filePath: string
    /** _projectManager. */
    const projectManager: M.DefaultProjectSnapshotManager
    /** TryGetTagHelpers of the snapshots. */
    const available: TagHelperSource
    /** string.Equals with OrdinalIgnoreCase: two paths are equal iff their folded forms are. */
    const foldCase: string -> string

    var textViews: seq<TextView>
    var isSupportedProject: bool
    /** Whether ProjectManager_Changed and EditorSettingsManager_Changed are attached. */
    var subscribed: bool
    var projectPath: Option<string>
    var projectSnapshot: Option<S.ProjectSnapshot>
    /** _computingTagHelpers.project; the running Task exists exactly when it does. */
    var computing: Option<S.ProjectSnapshot>
    var tagHelpers: seq<S.TagHelperDescriptor>
    /** Every ContextChanged event raised, in order. */
    var contextChanges: seq<ContextChangeKind>
    /** Every snapshot handed to GetTagHelpersAsync, in order. */
    var derivations: seq<S.ProjectSnapshot>

    function Slot(): Computation
      reads this
    {
      Computation(projectSnapshot, computing, tagHelpers, contextChanges, derivations)
    }

    function State(): TrackerState
      reads this
    {
      TrackerState(textViews, isSupportedProject, subscribed, projectPath, Slot())
    }

    ghost predicate Valid()
      reads this
    {
      TrackerValid(State())
    }

    /** What GetOrCreateProject yields for `path`: the registered snapshot, or an ephemeral
        one for that path. */
    predicate IsFallback(path: string, snapshot: S.ProjectSnapshot)
      reads projectManager
    {
      (projectManager.norm(path) in projectManager.projects ==>
         snapshot == S.DefaultSnapshot(projectManager.projects[projectManager.norm(path)])) &&
      (projectManager.norm(path) !in projectManager.projects ==>
         snapshot.EphemeralSnapshot? && snapshot.e.filePath == path)
    }

    constructor (filePath: string, projectManager: M.DefaultProjectSnapshotManager, available: TagHelperSource,
                 foldCase: string -> string)
      ensures Valid()
      ensures this.filePath == filePath && this.projectManager == projectManager && this.available == available
      ensures this.foldCase == foldCase
      ensures State() == TrackerState([], false, false, None, Computation(None, None, [], [], []))
    {
      this.filePath := filePath;
      this.projectManager := projectManager;
      this.available := available;
      this.foldCase := foldCase;
      textViews := [];
      isSupportedProject := false;
      subscribed := false;
      projectPath := None;
      projectSnapshot := None;
      computing := None;
      tagHelpers := [];
      contextChanges := [];
      derivations := [];
    }

    method AddTextView(textView: TextView?, host: HostLookup) returns (r: Outcome)
      requires Valid()
      modifies this
      ensures Valid()
      ensures textView == null ==> r == Fail(ArgumentNull("textView")) && State() == old(State())
      ensures textView != null ==> r == Pass
      ensures textView != null && textView in old(textViews) ==> State() == old(State())
      ensures textView != null && textView !in old(textViews) && (|old(textViews)| > 0 || !Subscribes(host)) ==>
        State() == old(State()).(textViews := old(textViews) + [textView])
      ensures textView != null && textView !in old(textViews) && |old(textViews)| == 0 && Subscribes(host) ==>
        projectSnapshot.Some? && IsFallback(host.projectPath.value, projectSnapshot.value) &&
        State() == Subscribed(available, old(State()).(textViews := [textView]), host.projectPath.value,
                              projectSnapshot.value)
    {
      if textView == null {
        return Fail(ArgumentNull("textView"));
      }
      if textView !in textViews {
        textViews := textViews + [textView];
        if |textViews| == 1 {
          Subscribe(host);
        }
      }
      return Pass;
    }

    method RemoveTextView(textView: TextView?) returns (r: Outcome)
      requires Valid()
      modifies this
      ensures Valid()
      ensures textView == null ==> r == Fail(ArgumentNull("textView")) && State() == old(State())
      ensures textView != null ==> r == Pass
      ensures textView != null && textView !in old(textViews) ==> State() == old(State())
      ensures textView != null && textView in old(textViews) && |old(textViews)| > 1 ==>
        State() == old(State()).(textViews := Without(old(textViews), textView))
      ensures textView != null && textView in old(textViews) && |old(textViews)| == 1 ==>
        State() == Unsubscribed(available, old(State()).(textViews := []))
    {
      if textView == null {
        return Fail(ArgumentNull("textView"));
      }
      if textView in textViews {
        WithoutRemovesFirst(textViews, textView);
        textViews := Without(textViews, textView);
        if |textViews| == 0 {
          Unsubscribe();
        }
      }
      return Pass;
    }

    /** GetFocusedTextView: the first view with the focus, if any. */
    method GetFocusedTextView() returns (r: TextView?)
      ensures r == null <==> forall i :: 0 <= i < |textViews| ==> !textViews[i].hasAggregateFocus
      ensures r != null ==>
        exists i :: 0 <= i < |textViews| && textViews[i] == r && r.hasAggregateFocus &&
                    forall j :: 0 <= j < i ==> !textViews[j].hasAggregateFocus
    {
      var i := 0;
      while i < |textViews|
        invariant i <= |textViews|
        invariant forall j :: 0 <= j < i ==> !textViews[j].hasAggregateFocus
      {
        if textViews[i].hasAggregateFocus {
          return textViews[i];
        }
        i := i + 1;
      }
      return null;
    }

    method Subscribe(host: HostLookup)
      requires Valid() && !subscribed && |textViews| > 0
      modifies this
      ensures !Subscribes(host) ==> State() == old(State())
      ensures Subscribes(host) ==>
        projectSnapshot.Some? && IsFallback(host.projectPath.value, projectSnapshot.value) &&
        State() == Subscribed(available, old(State()), host.projectPath.value, projectSnapshot.value)
      ensures Valid()
    {
      var projectPath: Option<string> := None;
      var isSupportedProject := false;
      if host.isRazorContent && host.hierarchyFound {
        projectPath := host.projectPath;
        isSupportedProject := host.isSupported;
      }
      if !isSupportedProject || projectPath.None? {
        return;
      }
      this.isSupportedProject := isSupportedProject;
      this.projectPath := projectPath;
      var snapshot := projectManager.GetOrCreateProject(projectPath);
      projectSnapshot := Some(snapshot.value);
      subscribed := true;
      OnContextChanged(ProjectChanged);
    }

    method Unsubscribe()
      requires InFlightIsLast(Slot()) && |textViews| == 0
      modifies this
      ensures State() == Unsubscribed(available, old(State()))
      ensures Valid()
    {
      subscribed := false;
      isSupportedProject := false;
      projectSnapshot := None;
      OnContextChanged(ProjectChanged);
    }

    method StartComputingTagHelpers()
      requires projectSnapshot.Some? && computing.None?
      modifies this
      decreases 1
      ensures Slot() == StartComputing(available, old(Slot()))
      ensures textViews == old(textViews) && isSupportedProject == old(isSupportedProject)
      ensures subscribed == old(subscribed) && projectPath == old(projectPath)
    {
      var results := available(projectSnapshot.value);
      if results.Some? {
        tagHelpers := results.value;
        OnContextChanged(TagHelpersChanged);
        return;
      }
      derivations := derivations + [projectSnapshot.value];
      computing := projectSnapshot;
    }

    /** TagHelpersUpdated, the continuation of the computation, with the Task's result
        (None when it faulted). */
    method TagHelpersUpdated(result: Option<seq<S.TagHelperDescriptor>>)
      requires computing.Some?
      modifies this
      ensures Slot() == Completed(available, old(Slot()), old(isSupportedProject), result)
      ensures textViews == old(textViews) && isSupportedProject == old(isSupportedProject)
      ensures subscribed == old(subscribed) && projectPath == old(projectPath)
    {
      if !isSupportedProject {
        return;
      }
      tagHelpers := ResultOrEmpty(result);
      OnContextChanged(TagHelpersChanged);
      var projectHasChanges := projectSnapshot.Some? && projectSnapshot != computing;
      computing := None;
      if projectHasChanges {
        StartComputingTagHelpers();
      }
    }

    method OnContextChanged(kind: ContextChangeKind)
      modifies this
      decreases if kind == ProjectChanged then 2 else 0
      ensures Slot() == ContextChanged(available, old(Slot()), kind)
      ensures textViews == old(textViews) && isSupportedProject == old(isSupportedProject)
      ensures subscribed == old(subscribed) && projectPath == old(projectPath)
    {
      contextChanges := contextChanges + [kind];
      if kind == ProjectChanged && projectSnapshot.Some? && computing.None? {
        StartComputingTagHelpers();
      }
    }

    /** ProjectManager_Changed for an event about `projectFilePath`. Subscribe attaches this
        handler and Unsubscribe detaches it, so the project manager calls it only while the
        tracker is subscribed; the model does not restrict it to that state. */
    method ProjectManagerChanged(projectFilePath: string, kind: S.ProjectChangeKind) returns (r: Outcome)
      requires Valid()
      modifies this
      ensures Valid()
      ensures r == (if Matches(old(projectPath), projectFilePath) && kind.TagHelpersChanged? then Fail(InvalidOperation) else Pass)
      ensures !Matches(old(projectPath), projectFilePath) ==> State() == old(State())
      ensures Matches(old(projectPath), projectFilePath) ==>
        var loaded := projectManager.GetLoadedProject(Some(projectFilePath)).value;
        var reloaded := old(State()).(slot := old(Slot()).(snapshot := loaded));
        match kind
        case DocumentsChanged => State() == reloaded
        case TagHelpersChanged => State() == reloaded
        case ProjectAdded => State() == reloaded.(slot := ContextChanged(available, reloaded.slot, ProjectChanged))
        case ProjectChanged => State() == reloaded.(slot := ContextChanged(available, reloaded.slot, ProjectChanged))
        case ProjectRemoved =>
          projectSnapshot.Some? && IsFallback(old(projectPath).value, projectSnapshot.value) &&
          State() == reloaded.(slot := ContextChanged(available, reloaded.slot.(snapshot := projectSnapshot), ProjectChanged))
    {
      if projectPath.Some? && foldCase(projectPath.value) == foldCase(projectFilePath) {
        var loaded := projectManager.GetLoadedProject(Some(projectFilePath));
        projectSnapshot := loaded.value;
        match kind {
          case DocumentsChanged =>
          case ProjectAdded =>
            OnContextChanged(ProjectChanged);
          case ProjectChanged =>
            OnContextChanged(ProjectChanged);
          case ProjectRemoved =>
            var fallback := projectManager.GetOrCreateProject(projectPath);
            projectSnapshot := Some(fallback.value);
            OnContextChanged(ProjectChanged);
          case TagHelpersChanged =>
            return Fail(InvalidOperation);
        }
      }
      return Pass;
    }

    /** Whether an event path names the tracked project, ignoring case. */
    predicate Matches(path: Option<string>, projectFilePath: string)
    {
      path.Some? && foldCase(path.value) == foldCase(projectFilePath)
    }

    /** EditorSettingsManager_Changed: raises EditorSettingsChanged. */
    method EditorSettingsManagerChanged()
      modifies this
      ensures Slot() == ContextChanged(available, old(Slot()), EditorSettingsChanged)
      ensures Slot() == old(Slot()).(changes := old(contextChanges) + [EditorSettingsChanged])
      ensures textViews == old(textViews) && isSupportedProject == old(isSupportedProject)
      ensures subscribed == old(subscribed) && projectPath == old(projectPath)
    {
      OnContextChanged(EditorSettingsChanged);
    }
  }

  /** Which of the collaborators the model does not otherwise represent were passed
      non-null: the text-buffer project service, the editor settings manager, the workspace
      and the text buffer. */
  datatype Collaborators = Collaborators(projectService: bool, editorSettingsManager: bool,
                                         workspace: bool, textBuffer: bool)

  /** The first constructor argument that is null, in the order the constructor checks them. */
  function MissingArgument(projectManager: Option<M.DefaultProjectSnapshotManager>, others: Collaborators)
    : (r: Option<string>)
    ensures r.None? <==> projectManager.Some? && others.projectService && others.editorSettingsManager &&
                         others.workspace && others.textBuffer
  {
    if projectManager.None? then Some("projectManager")
    else if !others.projectService then Some("projectService")
    else if !others.editorSettingsManager then Some("editorSettingsManager")
    else if !others.workspace then Some("workspace")
    else if !others.textBuffer then Some("textBuffer")
    else None
  }

  /** The constructor's argument checks: a missing or empty file path throws ArgumentException,
      and then each null collaborator, in declaration order, throws ArgumentNullException. */
  method NewDocumentTracker(filePath: Option<string>, projectManager: Option<M.DefaultProjectSnapshotManager>,
                            others: Collaborators, available: TagHelperSource, foldCase: string -> string)
    returns (r: Result<DocumentTracker>)
    ensures filePath.None? || filePath.value == "" <==> r == Failure(Argument)
    ensures filePath.Some? && filePath.value != "" && projectManager.None? ==>
      r == Failure(ArgumentNull("projectManager"))
    ensures filePath.Some? && filePath.value != "" && projectManager.Some? && !others.projectService ==>
      r == Failure(ArgumentNull("projectService"))
    ensures filePath.Some? && filePath.value != "" && projectManager.Some? && others.projectService &&
            !others.editorSettingsManager ==>
      r == Failure(ArgumentNull("editorSettingsManager"))
    ensures filePath.Some? && filePath.value != "" && projectManager.Some? && others.projectService &&
            others.editorSettingsManager && !others.workspace ==>
      r == Failure(ArgumentNull("workspace"))
    ensures filePath.Some? && filePath.value != "" && projectManager.Some? && others.projectService &&
            others.editorSettingsManager && others.workspace && !others.textBuffer ==>
      r == Failure(ArgumentNull("textBuffer"))
    ensures r.Success? <==> filePath.Some? && filePath.value != "" && MissingArgument(projectManager, others).None?
    ensures r.Success? ==>
      fresh(r.value) && r.value.Valid() && r.value.filePath == filePath.value &&
      r.value.projectManager == projectManager.value &&
      r.value.State() == TrackerState([], false, false, None, Computation(None, None, [], [], []))
  {
    if filePath.None? || filePath.value == "" {
      return Failure(Argument);
    }
    var missing := MissingArgument(projectManager, others);
    if missing.Some? {
      return Failure(ArgumentNull(missing.value));
    }
    var tracker := new DocumentTracker(filePath.value, projectManager.value, available, foldCase);
    return Success(tracker);
  }
}
