/** The DocumentGenerator class (DocumentGenerator.cs): its fields, one method per private
    method and `lock` block, each proved to change the fields as the function of GeneratorState
    with the same name says, and the event handler whose loops keep the invariants stated
    there. */
module DocumentGeneration {
  import opened Common
  import opened Documents
  import opened Snapshots
  import opened S = GeneratorState

  class DocumentGenerator {
    /** FilePathComparer, as a normalisation: `_files`, `_projects` and `_dirty` are keyed by it. */
    const norm: string -> string

    /** The DocumentEntry objects allocated so far, and the identity the next one takes. */
    var entries: Entries
    var nextEntry: EntryId
    var files: map<string, FileEntry>
    var projects: map<string, ProjectEntry>
    var dirty: map<string, EntryId>
    /** `_timer != null`. */
    var timer: bool
    /** How many timers have been created. */
    var timerStarts: nat
    /** The last stamp VersionStamp.Create yielded. */
    var clock: VersionStamp

    /** The fields, as a value. */
    function State(): Generator
      reads this
    {
      Generator(entries, nextEntry, files, projects, dirty, timer, timerStarts, clock)
    }

    ghost predicate Valid()
      reads this
    {
      Consistent(norm, State())
    }

    constructor (norm: string -> string)
      ensures Valid() && this.norm == norm
      ensures State() == Generator(map[], 0, map[], map[], map[], false, 0, DefaultVersion)
    {
      this.norm := norm;
      entries := map[];
      nextEntry := 0;
      files := map[];
      projects := map[];
      dirty := map[];
      timer := false;
      timerStarts := 0;
      clock := DefaultVersion;
    }

    method StartWorker()
      modifies this
      ensures State() == S.StartWorker(old(State()))
    {
      if !timer {
        timer := true;
        timerStarts := timerStarts + 1;
      }
    }

    method Enqueue(id: EntryId)
      requires id in entries
      modifies this
      ensures State() == S.Enqueue(norm, old(State()), id)
    {
      dirty := dirty[norm(entries[id].filePath) := id];
      StartWorker();
    }

    /** The first lock block of Timer_Tick; `work` is `_dirty.Values.ToArray()`, in the
        dictionary's (unspecified) order. */
    method TimerTickBegin() returns (work: seq<EntryId>)
      requires Valid()
      modifies this
      ensures State() == S.TimerTickBegin(old(State()))
      ensures Valid()
      ensures forall id :: id in work <==> id in old(dirty).Values
      ensures |work| == |old(dirty)|
    {
      var pending := dirty;
      var keys := pending.Keys;
      work := [];
      while keys != {}
        invariant keys <= pending.Keys
        invariant |work| + |keys| == |pending.Keys|
        invariant forall id :: id in work <==> exists k :: k in pending.Keys - keys && pending[k] == id
        decreases |keys|
      {
        var k :| k in keys;
        work := work + [pending[k]];
        keys := keys - {k};
      }
      TimerTickKeepsConsistent(norm, State());
      dirty := map[];
    }

    /** The second lock block of Timer_Tick. */
    method TimerTickEnd()
      requires Valid()
      modifies this
      ensures State() == S.TimerTickEnd(old(State()))
      ensures Valid()
    {
      TimerTickKeepsConsistent(norm, State());
      timer := false;
      if |dirty| > 0 {
        StartWorker();
      }
    }

    method AddProject(project: ProjectView) returns (r: Outcome)
      requires Valid()
      modifies this
      ensures Step(r, State()) == S.AddProject(norm, old(State()), project)
      ensures Valid()
    {
      var key := norm(project.filePath);
      if key in projects {
        return Fail(DuplicateKey);
      }
      projects := projects[key := ProjectEntry(project.filePath, project, map[])];
      return Pass;
    }

    method RemoveProject(project: ProjectView)
      requires Valid()
      modifies this
      ensures State() == S.RemoveProject(norm, old(State()), project)
      ensures Valid()
    {
      projects := projects - {norm(project.filePath)};
    }

    /** AddDocument. A new file entry is created already holding the project's entry, which is
        what creating it empty and then adding to it yields. */
    method AddDocument(project: ProjectView, document: RazorDocument) returns (r: Outcome)
      requires Valid()
      modifies this
      ensures Step(r, State()) == S.AddDocument(norm, old(State()), project, document)
      ensures Valid()
    {
      ghost var g := State();
      var id := nextEntry;
      clock := clock + 1;
      entries := entries[id := DocumentEntry(document.filePath, project.filePath, document, false, DefaultVersion, clock)];
      nextEntry := nextEntry + 1;
      assert State() == CreateEntry(norm, g, project, document);
      var pkey := norm(project.filePath);
      if pkey !in projects {
        return Fail(KeyNotFound);
      }
      var projectEntry := projects[pkey];
      if document.filePath in projectEntry.documents {
        return Fail(DuplicateKey);
      }
      ghost var created := State();
      projects := projects[pkey := projectEntry.(documents := projectEntry.documents[document.filePath := id])];
      assert State() == created.(projects := AddedTo(created.projects, pkey, document.filePath, id));
      var fkey := norm(document.filePath);
      if fkey !in files {
        files := files[fkey := FileEntry(document.filePath, map[pkey := id])];
      } else {
        var fileEntry := files[fkey];
        if pkey in fileEntry.documents {
          return Fail(DuplicateKey);
        }
        files := files[fkey := fileEntry.(documents := fileEntry.documents[pkey := id])];
      }
      Enqueue(id);
      return Pass;
    }

    method RemoveDocument(project: ProjectView, document: RazorDocument) returns (r: Outcome)
      requires Valid()
      modifies this
      ensures Step(r, State()) == S.RemoveDocument(norm, old(State()), project, document)
      ensures Valid()
    {
      var pkey := norm(project.filePath);
      var fkey := norm(document.filePath);
      if pkey !in projects || fkey !in files || document.filePath !in projects[pkey].documents {
        return Fail(KeyNotFound);
      }
      ghost var g := State();
      RemoveDocumentEffect(norm, g, project, document);
      var projectEntry := projects[pkey];
      var fileEntry := files[fkey];
      var id := projectEntry.documents[document.filePath];
      entries := entries[id := entries[id].(detached := true)];
      projects := projects[pkey := projectEntry.(documents := projectEntry.documents - {document.filePath})];
      var remaining := fileEntry.documents - {pkey};
      if |remaining| == 0 {
        files := files - {fkey};
      } else {
        files := files[fkey := fileEntry.(documents := remaining)];
      }
      assert State() == g.(entries := entries, projects := projects, files := files);
      return Pass;
    }

    method SetDirty(project: ProjectView, document: RazorDocument) returns (r: Outcome)
      requires Valid()
      modifies this
      ensures Step(r, State()) == S.SetDirty(norm, old(State()), project, document)
      ensures Valid()
    {
      var pkey := norm(project.filePath);
      if pkey !in projects || document.filePath !in projects[pkey].documents {
        return Fail(KeyNotFound);
      }
      var id := projects[pkey].documents[document.filePath];
      assert ProjectValid(projects, entries, pkey);
      entries := entries[id := entries[id].(knownVersion := GetNewerVersion(entries[id].knownVersion))];
      Enqueue(id);
      return Pass;
    }

    /** The body of the reconciliation loop of a project change, for one document. */
    method ReconcileDocument(kind: ProjectChangeKind, project: ProjectView, document: RazorDocument) returns (r: Outcome)
      requires Valid() && norm(project.filePath) in projects
      modifies this
      ensures Step(r, State()) == S.ReconcileDocument(norm, old(State()), kind, project, document)
      ensures Valid()
    {
      var pkey := norm(project.filePath);
      var ids := projects[pkey].documents;
      if document.filePath !in ids {
        r := AddDocument(project, document);
        return;
      }
      assert ProjectValid(projects, entries, pkey);
      var previous := entries[ids[document.filePath]].document;
      if previous != document {
        r := RemoveDocument(project, previous);
        if r.Pass? {
          r := AddDocument(project, document);
        }
      } else if kind != DocumentsChanged {
        r := SetDirty(project, document);
      } else {
        r := Pass;
      }
    }

    /** The ProjectAdded case: the project, then each of its documents in order, until the
        first throw. */
    method HandleProjectAdded(project: ProjectView) returns (r: Outcome)
      requires Valid()
      modifies this
      ensures Valid() && AddedResult(norm, project, old(State()), Step(r, State()))
    {
      ghost var g0 := State();
      r := AddProject(project);
      ghost var g1 := State();
      if r.Pass? {
        WithSameDocuments(g1.projects, norm(project.filePath));
        var i := 0;
        while i < |project.documents| && r.Pass?
          invariant i <= |project.documents| && Valid()
          invariant AddedFrame(norm, g1, project, Step(r, State()))
          invariant r.Pass? ==> AddedUpTo(norm, g1, project, i, Step(Pass, State()))
          invariant QueuedUpTo(norm, project.documents, i, Step(r, State()))
        {
          ghost var s := State();
          r := AddDocument(project, project.documents[i]);
          AddDocumentFrameStep(norm, g1, project, project.documents[i], Step(Pass, s));
          AddDocumentStep(norm, g1, project, i, Step(Pass, s));
          AddDocumentQueuedStep(norm, project, project.documents, i, Step(Pass, s));
          i := i + 1;
        }
      }
      AddedConclusion(norm, project, g0, Step(r, State()));
    }

    /** The ProjectRemoved case: each of the event's documents in order, until the first
        throw, then the project. */
    method HandleProjectRemoved(project: ProjectView) returns (r: Outcome)
      requires Valid()
      modifies this
      ensures Valid() && RemovedResult(norm, project, old(State()), Step(r, State()))
    {
      ghost var g0 := State();
      var i := 0;
      r := Pass;
      while i < |project.documents| && r.Pass?
        invariant i <= |project.documents| && Valid()
        invariant RemovedUpTo(g0, norm(project.filePath), project.documents, i, Step(r, State()))
        invariant DetachedOnly(g0.entries, entries)
      {
        ghost var s := State();
        r := RemoveDocument(project, project.documents[i]);
        RemoveDocumentStep(norm, g0, project, project.documents, i, Step(Pass, s));
        DetachedOnlyTrans(g0.entries, s.entries, entries);
        i := i + 1;
      }
      if r.Pass? {
        ghost var s := State();
        RemoveProject(project);
        RemovedConclusion(norm, project, g0, s);
      }
    }

    /** The removal loop of a project change: the document of each path in `removals`, in
        the project map's (unspecified) order, until the first throw. `initial` is the
        project's map before the loop and `prior` the entries then. */
    method RemoveStaleDocuments(project: ProjectView, removals: set<string>, ghost base: map<string, ProjectEntry>,
                                ghost initial: map<string, EntryId>, ghost prior: Entries) returns (r: Outcome)
      requires Valid() && removals <= initial.Keys && DocumentsValid(initial, prior)
      requires RemovingAt(norm(project.filePath), base, initial, prior, {}, State())
      modifies this
      ensures Valid()
      ensures r.Pass? ==> RemovingAt(norm(project.filePath), base, initial, prior, removals, State())
      ensures r.Fail? ==> r == Fail(KeyNotFound)
    {
      var remaining := removals;
      assert removals - remaining == {};
      r := Pass;
      while remaining != {}
        invariant remaining <= removals && Valid() && r == Pass
        invariant RemovingAt(norm(project.filePath), base, initial, prior, removals - remaining, State())
        decreases |remaining|
      {
        var k :| k in remaining;
        r := RemoveStale(project, k, removals, remaining, base, initial, prior);
        if r.Fail? {
          return;
        }
        remaining := remaining - {k};
      }
      assert removals - remaining == removals;
    }

    /** One pass of the removal loop: the document that the project's map holds for the
        stale path `k`, one of the `remaining` ones, keeping the loop's invariant. */
    method RemoveStale(project: ProjectView, k: string, ghost removals: set<string>, ghost remaining: set<string>,
                       ghost base: map<string, ProjectEntry>, ghost initial: map<string, EntryId>, ghost prior: Entries)
      returns (r: Outcome)
      requires Valid() && DocumentsValid(initial, prior) && k in remaining && remaining <= removals <= initial.Keys
      requires RemovingAt(norm(project.filePath), base, initial, prior, removals - remaining, State())
      modifies this
      ensures Valid()
      ensures r.Pass? ==>
        RemovingAt(norm(project.filePath), base, initial, prior, removals - (remaining - {k}), State())
      ensures r.Fail? ==> r == Fail(KeyNotFound)
    {
      var pkey := norm(project.filePath);
      ghost var s := State();
      ghost var done := removals - remaining;
      assert projects[pkey].documents == initial - done;
      assert ProjectValid(projects, entries, pkey);
      var id := projects[pkey].documents[k];
      r := RemoveDocument(project, entries[id].document);
      RemoveStaleStep(norm, project, base, initial, prior, done, s, k, Step(r, State()));
      assert done + {k} == removals - (remaining - {k});
    }

    /** The reconciliation loop of a project change: each document of the event in list
        order, until the first throw. */
    method ReconcileDocuments(kind: ProjectChangeKind, project: ProjectView, ghost base: map<string, ProjectEntry>,
                              ghost retained: map<string, EntryId>, ghost middle: Entries) returns (r: Outcome)
      requires Valid() && DistinctPaths(project.documents) && DocumentsValid(retained, middle)
      requires ReconcilingAt(kind, project.documents, norm(project.filePath), 0, base, retained, middle, State()) == true
      modifies this
      ensures Valid()
      ensures r.Pass? ==>
        ReconcilingAt(kind, project.documents, norm(project.filePath), |project.documents|, base, retained, middle, State()) == true
      ensures r.Pass? ==> EnqueuedUpTo(norm, kind, project.documents, |project.documents|, retained, middle, State())
      ensures r.Fail? ==> r == Fail(KeyNotFound) || r == Fail(DuplicateKey)
    {
      var i := 0;
      r := Pass;
      while i < |project.documents|
        invariant Valid()
        invariant ReconcilingAt(kind, project.documents, norm(project.filePath), i, base, retained, middle, State()) == true
        invariant EnqueuedUpTo(norm, kind, project.documents, i, retained, middle, State())
        invariant r == Pass
      {
        r := ReconcileNext(kind, project, i, base, retained, middle);
        if r.Fail? {
          return;
        }
        i := i + 1;
      }
    }

    /** One pass of the reconciliation loop: the document at `i`, keeping the loop's invariant. */
    method ReconcileNext(kind: ProjectChangeKind, project: ProjectView, i: nat, ghost base: map<string, ProjectEntry>,
                         ghost retained: map<string, EntryId>, ghost middle: Entries) returns (r: Outcome)
      requires Valid() && i < |project.documents| && DistinctPaths(project.documents) && DocumentsValid(retained, middle)
      requires ReconcilingAt(kind, project.documents, norm(project.filePath), i, base, retained, middle, State()) == true
      requires EnqueuedUpTo(norm, kind, project.documents, i, retained, middle, State())
      modifies this
      ensures Valid()
      ensures r.Pass? ==>
        ReconcilingAt(kind, project.documents, norm(project.filePath), i + 1, base, retained, middle, State()) == true
      ensures r.Pass? ==> EnqueuedUpTo(norm, kind, project.documents, i + 1, retained, middle, State())
      ensures r.Fail? ==> r == Fail(KeyNotFound) || r == Fail(DuplicateKey)
    {
      ghost var s := State();
      r := ReconcileDocument(kind, project, project.documents[i]);
      ReconcileDocumentStep(norm, kind, project, i, base, retained, middle, s, Step(r, State()));
      ReconcileQueuedStep(norm, kind, project, i, base, retained, middle, s, Step(r, State()));
    }

    /** The ProjectChanged, TagHelpersChanged and DocumentsChanged cases: the new snapshot is
        recorded, the document list becomes a dictionary by path, the entries whose paths it
        lacks are removed, then each document is reconciled, until the first throw. */
    method HandleProjectChanged(kind: ProjectChangeKind, project: ProjectView) returns (r: Outcome)
      requires Valid()
      modifies this
      ensures Valid() && ChangedResult(norm, kind, project, old(State()), Step(r, State()))
    {
      ghost var g0 := State();
      var pkey := norm(project.filePath);
      if pkey !in projects {
        return Fail(KeyNotFound);
      }
      assert ProjectValid(projects, entries, pkey);
      RetargetKeepsValid(projects, entries, pkey, project);
      projects := Retargeted(projects, pkey, project);
      var byPath := ToDictionary(project.documents);
      if byPath.Failure? {
        return Fail(DuplicateKey);
      }
      ghost var g1 := State();
      var initial := projects[pkey].documents;
      var removals := set k | k in initial && k !in byPath.value;
      RemovingStart(pkey, g1.projects, g1);
      r := RemoveStaleDocuments(project, removals, g1.projects, initial, g1.entries);
      if r.Pass? {
        ghost var middle := State();
        assert ProjectValid(projects, entries, pkey);
        ReconcilingStart(kind, project.documents, pkey, g1.projects, middle);
        r := ReconcileDocuments(kind, project, g1.projects, initial - removals, middle.entries);
        if r.Pass? {
          ChangedConclusion(kind, project, pkey, g0, removals, middle, State());
          ChangedEnqueued(norm, kind, project, pkey, g0, removals, middle, State());
        }
      }
    }

    /** ProjectManager_Changed: dispatch on the event kind. */
    method ProjectManagerChanged(kind: ProjectChangeKind, project: ProjectView) returns (r: Outcome)
      requires Valid()
      modifies this
      ensures Valid()
      ensures kind == ProjectAdded ==> AddedResult(norm, project, old(State()), Step(r, State()))
      ensures kind == ProjectRemoved ==> RemovedResult(norm, project, old(State()), Step(r, State()))
      ensures kind != ProjectAdded && kind != ProjectRemoved ==>
        ChangedResult(norm, kind, project, old(State()), Step(r, State()))
    {
      match kind {
        case ProjectAdded =>
          r := HandleProjectAdded(project);
        case ProjectRemoved =>
          r := HandleProjectRemoved(project);
        case ProjectChanged =>
          r := HandleProjectChanged(kind, project);
        case TagHelpersChanged =>
          r := HandleProjectChanged(kind, project);
        case DocumentsChanged =>
          r := HandleProjectChanged(kind, project);
      }
    }
  }
}
