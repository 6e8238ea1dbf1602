/** The document generator's bookkeeping: projects, files and their document entries kept in
    step with project change events, and a coalescing dirty map drained by a single timer
    (DocumentGenerator.cs). Each `lock` block is one method; the timer is a flag. */
module GeneratorState {
  import opened Common
  import opened Documents
  import opened Snapshots

  /** What the generator reads from an event's ProjectSnapshot: its path and documents. */
  datatype ProjectView = ProjectView(filePath: string, documents: seq<RazorDocument>)

  /** The view of a concrete snapshot: both concrete snapshots have no documents. */
  function ViewOf(snapshot: ProjectSnapshot): (v: ProjectView)
    ensures v.filePath == snapshot.FilePath() && v.documents == []
  {
    ProjectView(snapshot.FilePath(), snapshot.Documents())
  }

  /** The paths of the first `n` documents of a list. */
  function PathsUpTo(documents: seq<RazorDocument>, n: nat): (r: set<string>)
    requires n <= |documents|
    ensures forall i :: 0 <= i < n ==> documents[i].filePath in r
  {
    if n == 0 then {} else PathsUpTo(documents, n - 1) + {documents[n - 1].filePath}
  }

  /** The paths of a document list. */
  function Paths(documents: seq<RazorDocument>): set<string>
  {
    PathsUpTo(documents, |documents|)
  }

  /** Every path among the first `n` is the path of one of them. */
  lemma {:induction false} PathsUpToWitness(documents: seq<RazorDocument>, n: nat, path: string)
    requires n <= |documents| && path in PathsUpTo(documents, n)
    ensures exists i :: 0 <= i < n && documents[i].filePath == path
  {
    if path != documents[n - 1].filePath {
      PathsUpToWitness(documents, n - 1, path);
    }
  }

  /** The first `n` documents have pairwise distinct paths. */
  predicate DistinctUpTo(documents: seq<RazorDocument>, n: nat)
    requires n <= |documents|
  {
    forall i, j :: 0 <= i < j < n ==> documents[i].filePath != documents[j].filePath
  }

  predicate DistinctPaths(documents: seq<RazorDocument>)
  {
    DistinctUpTo(documents, |documents|)
  }

  /** Enumerable.ToDictionary on the first `n` documents, keyed by path with the default
      comparer: the first repeated path throws. */
  function DictionaryUpTo(documents: seq<RazorDocument>, n: nat): (r: Result<map<string, RazorDocument>>)
    requires n <= |documents|
    ensures r.Success? <==> DistinctUpTo(documents, n)
    ensures r.Failure? ==> r.error == DuplicateKey
    ensures r.Success? ==> r.value.Keys == PathsUpTo(documents, n)
    ensures r.Success? ==> forall i :: 0 <= i < n ==> r.value[documents[i].filePath] == documents[i]
  {
    if n == 0 then Success(map[])
    else
      var last := documents[n - 1];
      var rest := DictionaryUpTo(documents, n - 1);
      if rest.Failure? then rest
      else if last.filePath in rest.value then
        assert !DistinctUpTo(documents, n) by {
          PathsUpToWitness(documents, n - 1, last.filePath);
        }
        Failure(DuplicateKey)
      else Success(rest.value[last.filePath := last])
  }

  /** Enumerable.ToDictionary keyed by document path with the default comparer. */
  function ToDictionary(documents: seq<RazorDocument>): (r: Result<map<string, RazorDocument>>)
    ensures r.Success? <==> DistinctPaths(documents)
    ensures r.Failure? ==> r.error == DuplicateKey
    ensures r.Success? ==> r.value.Keys == Paths(documents)
    ensures r.Success? ==> forall i :: 0 <= i < |documents| ==> r.value[documents[i].filePath] == documents[i]
  {
    DictionaryUpTo(documents, |documents|)
  }


  /** A DocumentEntry object, addressed by its identity: the entries of the project and file
      maps and of the dirty map are shared objects, so an update through one is seen through
      all of them. */
  type EntryId = nat

  /** The fields of a DocumentEntry. The paths and the document are set when the entry is
      created; Detached, ComputedVersion and KnownVersion are updated in place. */
  datatype DocumentEntry = DocumentEntry(filePath: string, projectFilePath: string, document: RazorDocument,
                                         detached: bool, computedVersion: VersionStamp,
                                         knownVersion: VersionStamp)

  /** Every DocumentEntry allocated so far. */
  type Entries = map<EntryId, DocumentEntry>

  /** A file's entries by (normalised) project path. */
  datatype FileEntry = FileEntry(filePath: string, documents: map<string, EntryId>)

  /** A project's entries by document path, compared with the default (ordinal) comparer. */
  datatype ProjectEntry = ProjectEntry(filePath: string, projectSnapshot: ProjectView, documents: map<string, EntryId>)

  /** A project's map files each entry under its own path, which is also its document's path. */
  predicate DocumentsValid(documents: map<string, EntryId>, entries: Entries)
  {
    forall d :: d in documents ==>
      documents[d] in entries && entries[documents[d]].filePath == d && entries[documents[d]].document.filePath == d
  }

  /** The project at `p`, if any, has a valid map. */
  predicate ProjectValid(projects: map<string, ProjectEntry>, entries: Entries, p: string)
  {
    p in projects ==> DocumentsValid(projects[p].documents, entries)
  }

  ghost predicate ProjectsValid(projects: map<string, ProjectEntry>, entries: Entries)
  {
    forall p :: ProjectValid(projects, entries, p)
  }

  predicate EntriesIn(documents: map<string, EntryId>, entries: Entries)
  {
    forall k :: k in documents ==> documents[k] in entries
  }

  predicate FileValid(files: map<string, FileEntry>, entries: Entries, f: string)
  {
    f in files ==> EntriesIn(files[f].documents, entries)
  }

  ghost predicate FilesValid(files: map<string, FileEntry>, entries: Entries)
  {
    forall f :: FileValid(files, entries, f)
  }

  /** The dirty map is keyed by the normalised path of the entry it holds. */
  predicate DirtyAt(norm: string -> string, dirty: map<string, EntryId>, entries: Entries, k: string)
  {
    k in dirty ==> dirty[k] in entries && norm(entries[dirty[k]].filePath) == k
  }

  ghost predicate DirtyValid(norm: string -> string, dirty: map<string, EntryId>, entries: Entries)
  {
    forall k :: DirtyAt(norm, dirty, entries, k)
  }

  ghost predicate MapsValid(norm: string -> string, projects: map<string, ProjectEntry>, files: map<string, FileEntry>,
                     dirty: map<string, EntryId>, entries: Entries)
  {
    ProjectsValid(projects, entries) && FilesValid(files, entries) && DirtyValid(norm, dirty, entries)
  }

  /** Every allocated identity is below `next`. */
  predicate BelowAt(entries: Entries, next: EntryId, id: EntryId)
  {
    id in entries ==> id < next
  }

  ghost predicate Below(entries: Entries, next: EntryId)
  {
    forall id :: BelowAt(entries, next, id)
  }

  /** Filing an allocated entry under its own normalised path keeps the dirty map valid. */
  lemma DirtyValidUpdate(norm: string -> string, dirty: map<string, EntryId>, entries: Entries, id: EntryId)
    requires DirtyValid(norm, dirty, entries) && id in entries
    ensures DirtyValid(norm, dirty[norm(entries[id].filePath) := id], entries)
  {
    var updated := dirty[norm(entries[id].filePath) := id];
    forall k
      ensures DirtyAt(norm, updated, entries, k)
    {
      assert DirtyAt(norm, dirty, entries, k);
    }
  }

  /** Allocating the next identity: it was free, and everything stays below its successor. */
  lemma BelowExtend(entries: Entries, next: EntryId, entry: DocumentEntry)
    requires Below(entries, next)
    ensures next !in entries && Below(entries[next := entry], next + 1)
  {
    assert BelowAt(entries, next, next);
    var updated := entries[next := entry];
    var bound := next + 1;
    forall id
      ensures BelowAt(updated, bound, id)
    {
      assert BelowAt(entries, next, id);
    }
  }

  /** Updating an allocated entry keeps everything below the same bound. */
  lemma BelowUpdate(entries: Entries, next: EntryId, id: EntryId, entry: DocumentEntry)
    requires Below(entries, next) && id in entries
    ensures Below(entries[id := entry], next)
  {
    var updated := entries[id := entry];
    forall x
      ensures BelowAt(updated, next, x)
    {
      assert BelowAt(entries, next, x);
    }
  }

  /** The entries of `before` are all still allocated in `after`, with the same paths. */
  predicate PathsKept(before: Entries, after: Entries)
  {
    forall x :: x in before ==> x in after && after[x].filePath == before[x].filePath
  }

  /** `a` is `b` restricted to some of its keys. */
  predicate SubMap(a: map<string, EntryId>, b: map<string, EntryId>)
  {
    forall k :: k in a ==> k in b && a[k] == b[k]
  }

  /** Updating an allocated entry without moving it, or allocating a new one, keeps every
      map valid. */
  lemma EntryUpdateKeepsValid(norm: string -> string, projects: map<string, ProjectEntry>, files: map<string, FileEntry>,
                              dirty: map<string, EntryId>, entries: Entries, id: EntryId, entry: DocumentEntry)
    requires ProjectsValid(projects, entries) && FilesValid(files, entries) && DirtyValid(norm, dirty, entries)
    requires id in entries ==> entry.filePath == entries[id].filePath && entry.document.filePath == entries[id].document.filePath
    ensures ProjectsValid(projects, entries[id := entry]) && FilesValid(files, entries[id := entry])
    ensures DirtyValid(norm, dirty, entries[id := entry])
  {
    var updated := entries[id := entry];
    forall p
      ensures ProjectValid(projects, updated, p)
    {
      assert ProjectValid(projects, entries, p);
    }
    forall f
      ensures FileValid(files, updated, f)
    {
      assert FileValid(files, entries, f);
    }
    forall k
      ensures DirtyAt(norm, dirty, updated, k)
    {
      assert DirtyAt(norm, dirty, entries, k);
    }
  }

  lemma ProjectsValidUpdate(projects: map<string, ProjectEntry>, entries: Entries, key: string, entry: ProjectEntry)
    requires ProjectsValid(projects, entries) && DocumentsValid(entry.documents, entries)
    ensures ProjectsValid(projects[key := entry], entries)
  {
    var updated := projects[key := entry];
    forall p
      ensures ProjectValid(updated, entries, p)
    {
      assert ProjectValid(projects, entries, p);
    }
  }

  lemma ProjectsValidRemove(projects: map<string, ProjectEntry>, entries: Entries, key: string)
    requires ProjectsValid(projects, entries)
    ensures ProjectsValid(projects - {key}, entries)
  {
    var remaining := projects - {key};
    forall p
      ensures ProjectValid(remaining, entries, p)
    {
      assert ProjectValid(projects, entries, p);
    }
  }

  lemma FilesValidUpdate(files: map<string, FileEntry>, entries: Entries, key: string, entry: FileEntry)
    requires FilesValid(files, entries) && EntriesIn(entry.documents, entries)
    ensures FilesValid(files[key := entry], entries)
  {
    var updated := files[key := entry];
    forall f
      ensures FileValid(updated, entries, f)
    {
      assert FileValid(files, entries, f);
    }
  }

  /** `projects` with the document map of the project at `pkey` replaced. */
  function WithDocuments(projects: map<string, ProjectEntry>, pkey: string, documents: map<string, EntryId>): (r: map<string, ProjectEntry>)
    requires pkey in projects
    ensures r.Keys == projects.Keys && r[pkey].documents == documents
    ensures r[pkey].filePath == projects[pkey].filePath && r[pkey].projectSnapshot == projects[pkey].projectSnapshot
    ensures forall p :: p in projects && p != pkey ==> r[p] == projects[p]
  {
    projects[pkey := projects[pkey].(documents := documents)]
  }

  /** `projects` with the snapshot of the project at `pkey` replaced. */
  function Retargeted(projects: map<string, ProjectEntry>, pkey: string, project: ProjectView): (r: map<string, ProjectEntry>)
    requires pkey in projects
    ensures r.Keys == projects.Keys && r[pkey].projectSnapshot == project
    ensures r[pkey].documents == projects[pkey].documents && r[pkey].filePath == projects[pkey].filePath
    ensures forall p :: p in projects && p != pkey ==> r[p] == projects[p]
  {
    projects[pkey := projects[pkey].(projectSnapshot := project)]
  }

  /** Replacing the same project's document map twice is replacing it once. */
  lemma WithDocumentsTwice(projects: map<string, ProjectEntry>, pkey: string, first: map<string, EntryId>,
                           second: map<string, EntryId>)
    requires pkey in projects
    ensures WithDocuments(WithDocuments(projects, pkey, first), pkey, second) == WithDocuments(projects, pkey, second)
  {
  }

  /** Replacing a project's document map by itself changes nothing. */
  lemma WithSameDocuments(projects: map<string, ProjectEntry>, pkey: string)
    requires pkey in projects
    ensures WithDocuments(projects, pkey, projects[pkey].documents) == projects
  {
    assert projects[pkey].(documents := projects[pkey].documents) == projects[pkey];
  }

  /** `projects` with `id` added to the map of the project at `pkey`. */
  function AddedTo(projects: map<string, ProjectEntry>, pkey: string, path: string, id: EntryId): map<string, ProjectEntry>
    requires pkey in projects
  {
    WithDocuments(projects, pkey, projects[pkey].documents[path := id])
  }

  /** Whether AddDocument's project lookup and project-map Add both succeed. */
  predicate Insertable(projects: map<string, ProjectEntry>, pkey: string, path: string)
  {
    pkey in projects && path !in projects[pkey].documents
  }

  /** Whether the file entry at `fkey` already lists the project at `pkey`. */
  predicate Filed(files: map<string, FileEntry>, fkey: string, pkey: string)
  {
    fkey in files && pkey in files[fkey].documents
  }

  /** `files` with `id` filed under the project at `pkey`, the file entry created if missing. */
  function FiledUnder(files: map<string, FileEntry>, fkey: string, filePath: string, pkey: string, id: EntryId): map<string, FileEntry>
  {
    files[fkey := if fkey in files then files[fkey].(documents := files[fkey].documents[pkey := id])
                  else FileEntry(filePath, map[pkey := id])]
  }

  /** Whether RemoveDocument's three lookups all succeed. */
  predicate Removable(projects: map<string, ProjectEntry>, files: map<string, FileEntry>,
                      pkey: string, path: string, fkey: string)
  {
    pkey in projects && fkey in files && path in projects[pkey].documents
  }

  /** `projects` with `path` dropped from the map of the project at `pkey`. */
  function RemovedFrom(projects: map<string, ProjectEntry>, pkey: string, path: string): map<string, ProjectEntry>
    requires pkey in projects
  {
    WithDocuments(projects, pkey, projects[pkey].documents - {path})
  }

  /** `files` with the project at `pkey` dropped from the entry at `fkey`, and that entry
      dropped once it lists no project. */
  function Unfiled(files: map<string, FileEntry>, fkey: string, pkey: string): map<string, FileEntry>
    requires fkey in files
  {
    var remaining := files[fkey].documents - {pkey};
    if |remaining| == 0 then files - {fkey} else files[fkey := files[fkey].(documents := remaining)]
  }

  lemma RemovalKeepsValid(projects: map<string, ProjectEntry>, files: map<string, FileEntry>,
                          entries: Entries, pkey: string, path: string, fkey: string)
    requires ProjectsValid(projects, entries) && FilesValid(files, entries)
    requires Removable(projects, files, pkey, path, fkey)
    ensures ProjectsValid(RemovedFrom(projects, pkey, path), entries)
    ensures FilesValid(Unfiled(files, fkey, pkey), entries)
  {
    forall p
      ensures ProjectValid(RemovedFrom(projects, pkey, path), entries, p)
    {
      assert ProjectValid(projects, entries, p);
    }
    forall f
      ensures FileValid(Unfiled(files, fkey, pkey), entries, f)
    {
      assert FileValid(files, entries, f);
    }
  }

  /** An entry of the project's old map that the new document list keeps: same path, same
      document object. */
  predicate Kept(documents: map<string, EntryId>, entries: Entries, document: RazorDocument)
  {
    document.filePath in documents && documents[document.filePath] in entries &&
    entries[documents[document.filePath]].document == document
  }

  /** A kept entry after a reconciliation: its known version is unchanged for
      DocumentsChanged and the next version otherwise. */
  function Refresh(kind: ProjectChangeKind, entry: DocumentEntry): (r: DocumentEntry)
    ensures r.(knownVersion := entry.knownVersion) == entry
    ensures kind == DocumentsChanged ==> r.knownVersion == entry.knownVersion
    ensures kind != DocumentsChanged ==> r.knownVersion > entry.knownVersion
  {
    if kind == DocumentsChanged then entry else entry.(knownVersion := GetNewerVersion(entry.knownVersion))
  }

  /** What reconciling `document` against a project map `before` (over `prior`) leaves in the
      map `ids` (over `entries`): an entry for that document object; the same entry,
      refreshed, when `before` already held it; otherwise a newly allocated, attached entry
      with no computed version, and any entry `before` held for the path is detached. */
  predicate Reconciled(kind: ProjectChangeKind, before: map<string, EntryId>, prior: Entries,
                       ids: map<string, EntryId>, entries: Entries, document: RazorDocument)
  {
    var path := document.filePath;
    path in ids && ids[path] in entries && entries[ids[path]].document == document &&
    if Kept(before, prior, document) then
      ids[path] == before[path] && entries[ids[path]] == Refresh(kind, prior[before[path]])
    else
      ids[path] !in prior && !entries[ids[path]].detached && entries[ids[path]].computedVersion == DefaultVersion &&
      (path in before ==> before[path] in entries && entries[before[path]].detached)
  }

  predicate ReconciledUpTo(kind: ProjectChangeKind, documents: seq<RazorDocument>, n: nat, before: map<string, EntryId>,
                           prior: Entries, ids: map<string, EntryId>, entries: Entries)
    requires n <= |documents|
  {
    forall j :: 0 <= j < n ==> Reconciled(kind, before, prior, ids, entries, documents[j])
  }

  /** Whether reconciling `document` against a project map `before` (over `prior`) enqueues
      it: a new or replaced document always is, through AddDocument; a kept one is, through
      SetDirty, unless the event is DocumentsChanged. */
  predicate Enqueues(kind: ProjectChangeKind, before: map<string, EntryId>, prior: Entries, document: RazorDocument)
  {
    !Kept(before, prior, document) || kind != DocumentsChanged
  }

  /** Each of the first `n` documents that reconciling against `before` enqueues is queued in `g`. */
  predicate EnqueuedUpTo(norm: string -> string, kind: ProjectChangeKind, documents: seq<RazorDocument>, n: nat,
                         before: map<string, EntryId>, prior: Entries, g: Generator)
    requires n <= |documents|
  {
    forall j :: 0 <= j < n && Enqueues(kind, before, prior, documents[j]) ==> Queued(norm, g, documents[j].filePath)
  }

  /** The documents from `n` on that `before` holds still have their original entries. */
  predicate PendingFrom(documents: seq<RazorDocument>, n: nat, before: map<string, EntryId>, prior: Entries,
                        ids: map<string, EntryId>, entries: Entries)
  {
    forall j :: n <= j < |documents| && documents[j].filePath in before ==>
      documents[j].filePath in ids && ids[documents[j].filePath] == before[documents[j].filePath] &&
      before[documents[j].filePath] in prior && before[documents[j].filePath] in entries &&
      entries[before[documents[j].filePath]] == prior[before[documents[j].filePath]]
  }

  /** Two entries of a valid map with different paths are different objects. */
  lemma DistinctEntries(ids: map<string, EntryId>, entries: Entries, a: string, b: string)
    requires DocumentsValid(ids, entries) && a in ids && b in ids && a != b
    ensures ids[a] != ids[b]
  {
  }

  /** Reconciling another path leaves a reconciled document reconciled: its entry is neither
      the one replaced nor the one updated. */
  lemma ReconciledFrame(kind: ProjectChangeKind, before: map<string, EntryId>, prior: Entries,
                        ids: map<string, EntryId>, entries: Entries,
                        ids1: map<string, EntryId>, entries1: Entries, path: string, document: RazorDocument)
    requires DocumentsValid(before, prior) && DocumentsValid(ids, entries) && PathsKept(prior, entries)
    requires Reconciled(kind, before, prior, ids, entries, document) && document.filePath != path
    requires path in ids1 && ids1 == ids[path := ids1[path]]
    requires PathsKept(entries, entries1)
    requires forall x :: x in entries && !(path in ids && x == ids[path]) ==> entries1[x] == entries[x]
    ensures Reconciled(kind, before, prior, ids1, entries1, document)
  {
    var q := document.filePath;
    if path in ids {
      DistinctEntries(ids, entries, q, path);
      if q in before {
        assert entries[before[q]].filePath == q;
      }
    }
  }

  /** The current map agrees with the original one on the next document's path. */
  lemma ReconciledNext(kind: ProjectChangeKind, documents: seq<RazorDocument>, n: nat,
                       before: map<string, EntryId>, prior: Entries,
                       ids: map<string, EntryId>, entries: Entries,
                       ids1: map<string, EntryId>, entries1: Entries)
    requires n < |documents| && DistinctPaths(documents) && PathsKept(prior, entries)
    requires ids.Keys == before.Keys + PathsUpTo(documents, n)
    requires PendingFrom(documents, n, before, prior, ids, entries)
    requires Reconciled(kind, ids, entries, ids1, entries1, documents[n])
    ensures Reconciled(kind, before, prior, ids1, entries1, documents[n])
  {
    var path := documents[n].filePath;
    assert path !in PathsUpTo(documents, n) by {
      if path in PathsUpTo(documents, n) {
        PathsUpToWitness(documents, n, path);
      }
    }
  }

  /** The next document is kept by the current map exactly when the original one kept it. */
  lemma KeptNext(documents: seq<RazorDocument>, n: nat, before: map<string, EntryId>, prior: Entries,
                 ids: map<string, EntryId>, entries: Entries)
    requires n < |documents| && DistinctPaths(documents)
    requires ids.Keys == before.Keys + PathsUpTo(documents, n)
    requires PendingFrom(documents, n, before, prior, ids, entries)
    ensures Kept(ids, entries, documents[n]) <==> Kept(before, prior, documents[n])
  {
    var path := documents[n].filePath;
    assert path !in PathsUpTo(documents, n) by {
      if path in PathsUpTo(documents, n) {
        PathsUpToWitness(documents, n, path);
      }
    }
  }

  /** Reconciling document `n` keeps the later documents pending. */
  lemma PendingStep(documents: seq<RazorDocument>, n: nat,
                    before: map<string, EntryId>, prior: Entries,
                    ids: map<string, EntryId>, entries: Entries,
                    ids1: map<string, EntryId>, entries1: Entries)
    requires n < |documents| && DistinctPaths(documents) && DocumentsValid(ids, entries)
    requires PendingFrom(documents, n, before, prior, ids, entries)
    requires documents[n].filePath in ids1 && ids1 == ids[documents[n].filePath := ids1[documents[n].filePath]]
    requires PathsKept(entries, entries1)
    requires forall x :: x in entries && !(documents[n].filePath in ids && x == ids[documents[n].filePath]) ==>
      entries1[x] == entries[x]
    ensures PendingFrom(documents, n + 1, before, prior, ids1, entries1)
  {
    var path := documents[n].filePath;
    forall j | n + 1 <= j < |documents| && documents[j].filePath in before
      ensures documents[j].filePath in ids1 && ids1[documents[j].filePath] == before[documents[j].filePath]
      ensures before[documents[j].filePath] in entries1
      ensures entries1[before[documents[j].filePath]] == prior[before[documents[j].filePath]]
    {
      if path in ids {
        DistinctEntries(ids, entries, documents[j].filePath, path);
      }
    }
  }

  /** One step of the reconciliation loop: reconciling document `n` against the current map
      (`ids` over `entries`) reconciles it against the original map (`before` over `prior`),
      keeps the earlier documents reconciled and the later ones pending. */
  lemma ReconcileStep(kind: ProjectChangeKind, documents: seq<RazorDocument>, n: nat,
                      before: map<string, EntryId>, prior: Entries,
                      ids: map<string, EntryId>, entries: Entries,
                      ids1: map<string, EntryId>, entries1: Entries)
    requires n < |documents| && DistinctPaths(documents)
    requires DocumentsValid(before, prior) && DocumentsValid(ids, entries) && PathsKept(prior, entries)
    requires ids.Keys == before.Keys + PathsUpTo(documents, n)
    requires ReconciledUpTo(kind, documents, n, before, prior, ids, entries)
    requires PendingFrom(documents, n, before, prior, ids, entries)
    requires Reconciled(kind, ids, entries, ids1, entries1, documents[n])
    requires ids1 == ids[documents[n].filePath := ids1[documents[n].filePath]]
    requires PathsKept(entries, entries1)
    requires forall x :: x in entries && !(documents[n].filePath in ids && x == ids[documents[n].filePath]) ==>
      entries1[x] == entries[x]
    ensures ReconciledUpTo(kind, documents, n + 1, before, prior, ids1, entries1)
    ensures PendingFrom(documents, n + 1, before, prior, ids1, entries1)
    ensures ids1.Keys == before.Keys + PathsUpTo(documents, n + 1)
  {
    ReconciledNext(kind, documents, n, before, prior, ids, entries, ids1, entries1);
    forall j | 0 <= j < n
      ensures Reconciled(kind, before, prior, ids1, entries1, documents[j])
    {
      ReconciledFrame(kind, before, prior, ids, entries, ids1, entries1, documents[n].filePath, documents[j]);
    }
    PendingStep(documents, n, before, prior, ids, entries, ids1, entries1);
  }

  /** Each of the first `n` documents has, in `ids`, an entry for that document object that
      was allocated after `prior` and is attached. */
  predicate NewEntries(documents: seq<RazorDocument>, n: nat, ids: map<string, EntryId>, entries: Entries, prior: Entries)
    requires n <= |documents|
  {
    forall j :: 0 <= j < n ==> NewEntry(ids, entries, prior, documents[j])
  }

  /** `ids` holds, for `document`'s path, an attached entry for that document object that
      was allocated after `prior`. */
  predicate NewEntry(ids: map<string, EntryId>, entries: Entries, prior: Entries, document: RazorDocument)
  {
    document.filePath in ids && ids[document.filePath] in entries && ids[document.filePath] !in prior &&
    entries[ids[document.filePath]].document == document && !entries[ids[document.filePath]].detached
  }

  lemma NewEntriesExtend(documents: seq<RazorDocument>, n: nat, ids: map<string, EntryId>, entries: Entries,
                         prior: Entries, id: EntryId, entry: DocumentEntry)
    requires n < |documents| && NewEntries(documents, n, ids, entries, prior) && documents[n].filePath !in ids
    requires id !in entries && id !in prior && entry.document == documents[n] && !entry.detached
    ensures NewEntries(documents, n + 1, ids[documents[n].filePath := id], entries[id := entry], prior)
  {
    var ids1 := ids[documents[n].filePath := id];
    var entries1 := entries[id := entry];
    forall j | 0 <= j < n + 1
      ensures NewEntry(ids1, entries1, prior, documents[j])
    {
      if j < n {
        assert NewEntry(ids, entries, prior, documents[j]);
      }
    }
  }

  /** Each of the first `n` documents had an entry in `ids` that is now detached. */
  predicate DetachedUpTo(documents: seq<RazorDocument>, n: nat, ids: map<string, EntryId>, entries: Entries)
    requires n <= |documents|
  {
    forall j :: 0 <= j < n ==> DetachedEntry(ids, entries, documents[j])
  }

  /** `ids` held an entry for `document`'s path, and that entry is detached. */
  predicate DetachedEntry(ids: map<string, EntryId>, entries: Entries, document: RazorDocument)
  {
    document.filePath in ids && ids[document.filePath] in entries && entries[ids[document.filePath]].detached
  }

  lemma DetachedExtend(documents: seq<RazorDocument>, n: nat, ids: map<string, EntryId>, entries: Entries, id: EntryId)
    requires n < |documents| && DetachedUpTo(documents, n, ids, entries)
    requires documents[n].filePath in ids && ids[documents[n].filePath] == id && id in entries
    ensures DetachedUpTo(documents, n + 1, ids, entries[id := entries[id].(detached := true)])
  {
    var entries1 := entries[id := entries[id].(detached := true)];
    forall j | 0 <= j < n + 1
      ensures DetachedEntry(ids, entries1, documents[j])
    {
      if j < n {
        assert DetachedEntry(ids, entries, documents[j]);
      }
    }
  }

  /** `after` differs from `before` at most by entries that became detached. */
  predicate DetachedOnly(before: Entries, after: Entries)
  {
    forall x :: x in before ==> x in after && (after[x] == before[x] || after[x] == before[x].(detached := true))
  }

  lemma DetachOne(before: Entries, entries: Entries, id: EntryId)
    requires DetachedOnly(before, entries) && id in entries
    ensures DetachedOnly(before, entries[id := entries[id].(detached := true)])
  {
  }

  /** The paths of `done` had entries in `before` that are now detached. */
  predicate DetachedKeys(before: map<string, EntryId>, done: set<string>, entries: Entries)
  {
    forall q :: q in done ==> q in before && before[q] in entries && entries[before[q]].detached
  }

  /** The other paths of `before` still have their entries as in `prior`. */
  predicate UntouchedKeys(before: map<string, EntryId>, done: set<string>, prior: Entries, entries: Entries)
  {
    forall q :: q in before && q !in done ==> before[q] in prior && before[q] in entries && entries[before[q]] == prior[before[q]]
  }

  /** Detaching the entry of one more path of `before`. */
  lemma DetachStep(before: map<string, EntryId>, prior: Entries, done: set<string>, entries: Entries, k: string)
    requires DocumentsValid(before, prior) && k in before && k !in done
    requires DetachedKeys(before, done, entries) && UntouchedKeys(before, done, prior, entries)
    ensures DetachedKeys(before, done + {k}, entries[before[k] := entries[before[k]].(detached := true)])
    ensures UntouchedKeys(before, done + {k}, prior, entries[before[k] := entries[before[k]].(detached := true)])
  {
    forall q | q in before && q != k
      ensures before[q] != before[k]
    {
      DistinctEntries(before, prior, q, k);
    }
  }

  /** The entries allocated in `prior` whose paths are not in `paths` are unchanged. */
  predicate UntouchedOutside(prior: Entries, entries: Entries, paths: set<string>)
  {
    forall x :: x in prior && prior[x].filePath !in paths ==> x in entries && entries[x] == prior[x]
  }

  /** Reconciling `path` only touches entries of that path. */
  lemma UntouchedStep(prior: Entries, ids: map<string, EntryId>, entries: Entries, entries1: Entries,
                      paths: set<string>, path: string)
    requires UntouchedOutside(prior, entries, paths) && DocumentsValid(ids, entries) && PathsKept(entries, entries1)
    requires forall x :: x in entries && !(path in ids && x == ids[path]) ==> entries1[x] == entries[x]
    ensures UntouchedOutside(prior, entries1, paths + {path})
  {
  }

  /** The reconciliation after the stale entries went: reconciling against the retained map
      over the entries left by the removals is reconciling against the original map. */
  lemma ReconciledAfterRemovals(kind: ProjectChangeKind, documents: seq<RazorDocument>, initial: map<string, EntryId>,
                                removals: set<string>, prior: Entries, middle: Entries,
                                ids: map<string, EntryId>, entries: Entries)
    requires UntouchedKeys(initial, removals, prior, middle) && PathsKept(prior, middle)
    requires forall j :: 0 <= j < |documents| ==> documents[j].filePath !in removals
    requires ReconciledUpTo(kind, documents, |documents|, initial - removals, middle, ids, entries)
    ensures ReconciledUpTo(kind, documents, |documents|, initial, prior, ids, entries)
  {
    forall j | 0 <= j < |documents|
      ensures Reconciled(kind, initial, prior, ids, entries, documents[j])
    {
      assert Reconciled(kind, initial - removals, middle, ids, entries, documents[j]);
    }
  }

  /** The stale entries stay detached through the reconciliation of the new list. */
  lemma StaleDetached(documents: seq<RazorDocument>, initial: map<string, EntryId>, removals: set<string>,
                      prior: Entries, middle: Entries, entries: Entries)
    requires DocumentsValid(initial, prior) && PathsKept(prior, middle)
    requires DetachedKeys(initial, removals, middle) && UntouchedOutside(middle, entries, Paths(documents))
    requires forall k :: k in initial && k !in Paths(documents) ==> k in removals
    ensures forall k :: k in initial && k !in Paths(documents) ==> initial[k] in entries && entries[initial[k]].detached
  {
  }

  lemma DetachedOnlyTrans(a: Entries, b: Entries, c: Entries)
    requires DetachedOnly(a, b) && DetachedOnly(b, c)
    ensures DetachedOnly(a, c)
  {
  }

  lemma DetachedOnlyKeepsPaths(a: Entries, b: Entries)
    requires DetachedOnly(a, b)
    ensures PathsKept(a, b)
  {
  }

  /** The generator's fields, as a value. */
  datatype Generator = Generator(entries: Entries, nextEntry: EntryId, files: map<string, FileEntry>,
                                 projects: map<string, ProjectEntry>, dirty: map<string, EntryId>,
                                 timer: bool, timerStarts: nat, clock: VersionStamp)

  /** The generator's invariant: every map refers to allocated entries, each project map
      files an entry under its own path and its document's path, the dirty map is keyed by
      the normalised entry path, pending work implies an armed timer, and every allocated
      identity is below the next one. */
  ghost predicate Consistent(norm: string -> string, g: Generator)
  {
    MapsValid(norm, g.projects, g.files, g.dirty, g.entries) && (g.dirty != map[] ==> g.timer) &&
    Below(g.entries, g.nextEntry)
  }

  /** What an operation yields: whether it threw, and the state it leaves (a throw keeps the
      updates made before it). */
  datatype Step = Step(outcome: Outcome, state: Generator)

  /** Work for `path` is pending: the dirty map holds an entry under its normalised path and
      a timer runs to take it. */
  predicate Queued(norm: string -> string, g: Generator, path: string)
  {
    norm(path) in g.dirty && g.timer
  }

  /** `r` still holds every key of work `g` had pending, and a timer if `g` had one: outside
      Timer_Tick, Enqueue only adds or overwrites. */
  predicate KeepsQueued(g: Generator, r: Generator)
  {
    g.dirty.Keys <= r.dirty.Keys && (g.timer ==> r.timer)
  }

  /** StartWorker: creates a timer only when there is none. */
  function StartWorker(g: Generator): (r: Generator)
    ensures r.timer && r.timerStarts == g.timerStarts + (if g.timer then 0 else 1)
    ensures r.entries == g.entries && r.nextEntry == g.nextEntry && r.files == g.files && r.projects == g.projects
    ensures r.dirty == g.dirty && r.clock == g.clock
  {
    if g.timer then g else g.(timer := true, timerStarts := g.timerStarts + 1)
  }

  /** Enqueue: the entry replaces any pending entry with the same normalised path, and a
      timer is armed. */
  function Enqueue(norm: string -> string, g: Generator, id: EntryId): (r: Generator)
    requires id in g.entries
    ensures r.dirty == g.dirty[norm(g.entries[id].filePath) := id] && r.timer
    ensures r.entries == g.entries && r.nextEntry == g.nextEntry && r.files == g.files && r.projects == g.projects
    ensures r.clock == g.clock
  {
    StartWorker(g.(dirty := g.dirty[norm(g.entries[id].filePath) := id]))
  }

  /** Enqueuing an allocated entry keeps the generator consistent. */
  lemma EnqueueKeepsConsistent(norm: string -> string, g: Generator, id: EntryId)
    requires Consistent(norm, g) && id in g.entries
    ensures Consistent(norm, Enqueue(norm, g, id))
  {
    DirtyValidUpdate(norm, g.dirty, g.entries, id);
  }

  /** AddProject: Dictionary.Add, which throws on a path already present. */
  function AddProject(norm: string -> string, g: Generator, project: ProjectView): (r: Step)
    requires Consistent(norm, g)
    ensures Consistent(norm, r.state)
    ensures r.outcome.Fail? <==> norm(project.filePath) in g.projects
    ensures r.outcome.Fail? ==> r == Step(Fail(DuplicateKey), g)
  {
    var key := norm(project.filePath);
    if key in g.projects then Step(Fail(DuplicateKey), g)
    else
      ProjectsValidUpdate(g.projects, g.entries, key, ProjectEntry(project.filePath, project, map[]));
      Step(Pass, g.(projects := g.projects[key := ProjectEntry(project.filePath, project, map[])]))
  }

  /** RemoveProject: Dictionary.Remove, a no-op for an absent path. */
  function RemoveProject(norm: string -> string, g: Generator, project: ProjectView): (r: Generator)
    requires Consistent(norm, g)
    ensures Consistent(norm, r)
    ensures norm(project.filePath) !in r.projects && r.projects.Keys == g.projects.Keys - {norm(project.filePath)}
  {
    ProjectsValidRemove(g.projects, g.entries, norm(project.filePath));
    g.(projects := g.projects - {norm(project.filePath)})
  }

  /** `new DocumentEntry(project.FilePath, document.FilePath) { Document = document }`: the
      entry takes the next identity, is attached and has the default computed version; its
      known version is VersionStamp.Create(), modelled as the next clock value. */
  function CreateEntry(norm: string -> string, g: Generator, project: ProjectView, document: RazorDocument): (r: Generator)
    requires Consistent(norm, g)
    ensures Consistent(norm, r) && g.nextEntry !in g.entries && r.nextEntry == g.nextEntry + 1
    ensures r.entries.Keys == g.entries.Keys + {g.nextEntry} && PathsKept(g.entries, r.entries) && r.clock > g.clock
    ensures r.files == g.files && r.projects == g.projects && r.dirty == g.dirty
    ensures r.timer == g.timer && r.timerStarts == g.timerStarts
  {
    var clock := g.clock + 1;
    var entry := DocumentEntry(document.filePath, project.filePath, document, false, DefaultVersion, clock);
    BelowExtend(g.entries, g.nextEntry, entry);
    EntryUpdateKeepsValid(norm, g.projects, g.files, g.dirty, g.entries, g.nextEntry, entry);
    g.(entries := g.entries[g.nextEntry := entry], nextEntry := g.nextEntry + 1, clock := clock)
  }

  /** AddDocument: a new entry is created, then added to the project's map (which throws on
      an unknown project or a path already present), then to the file's map under the
      project's path (creating the file entry if needed; throws on a project already
      present), and enqueued. A throw leaves the entry allocated, and a throw of the file
      map leaves the project's map holding the entry. */
  function AddDocument(norm: string -> string, g: Generator, project: ProjectView, document: RazorDocument): (r: Step)
    requires Consistent(norm, g)
    ensures Consistent(norm, r.state) && r.state.projects.Keys == g.projects.Keys
    ensures r.outcome == Fail(KeyNotFound) <==> norm(project.filePath) !in g.projects
    ensures r.outcome == Fail(DuplicateKey) <==>
      norm(project.filePath) in g.projects &&
      (document.filePath in g.projects[norm(project.filePath)].documents ||
       Filed(g.files, norm(document.filePath), norm(project.filePath)))
    ensures KeepsQueued(g, r.state)
  {
    var id := g.nextEntry;
    var created := CreateEntry(norm, g, project, document);
    var pkey := norm(project.filePath);
    var path := document.filePath;
    if pkey !in created.projects then Step(Fail(KeyNotFound), created)
    else if path in created.projects[pkey].documents then Step(Fail(DuplicateKey), created)
    else
      assert ProjectValid(created.projects, created.entries, pkey);
      ProjectsValidUpdate(created.projects, created.entries, pkey,
                          created.projects[pkey].(documents := created.projects[pkey].documents[path := id]));
      var inserted := created.(projects := AddedTo(created.projects, pkey, path, id));
      if Filed(inserted.files, norm(path), pkey) then Step(Fail(DuplicateKey), inserted)
      else
        assert FileValid(inserted.files, inserted.entries, norm(path));
        FilesValidUpdate(inserted.files, inserted.entries, norm(path),
          if norm(path) in inserted.files
          then inserted.files[norm(path)].(documents := inserted.files[norm(path)].documents[pkey := id])
          else FileEntry(path, map[pkey := id]));
        var filed := inserted.(files := FiledUnder(inserted.files, norm(path), path, pkey, id));
        EnqueueKeepsConsistent(norm, filed, id);
        Step(Pass, Enqueue(norm, filed, id))
  }

  /** AddDocument throws nothing but key-not-found and duplicate-key. */
  lemma AddDocumentThrows(norm: string -> string, g: Generator, project: ProjectView, document: RazorDocument)
    requires Consistent(norm, g)
    ensures var r := AddDocument(norm, g, project, document);
      r.outcome.Fail? ==> r.outcome == Fail(KeyNotFound) || r.outcome == Fail(DuplicateKey)
  {
  }

  /** What AddDocument does to the project map and the entries when its project lookup and
      project-map Add succeed. */
  lemma AddDocumentEffect(norm: string -> string, g: Generator, project: ProjectView, document: RazorDocument)
    requires Consistent(norm, g) && Insertable(g.projects, norm(project.filePath), document.filePath)
    ensures var r := AddDocument(norm, g, project, document);
      r.state.projects == AddedTo(g.projects, norm(project.filePath), document.filePath, g.nextEntry) &&
      g.nextEntry !in g.entries &&
      r.state.entries == g.entries[g.nextEntry := DocumentEntry(document.filePath, project.filePath, document, false,
                                                                DefaultVersion, g.clock + 1)]
  {
  }

  /** What AddDocument does to the file map and the work queue after its project-map Add
      succeeds: it throws exactly when the file already lists the project, and otherwise
      files the entry under the file (creating the file entry when missing) and enqueues it. */
  lemma AddDocumentFiling(norm: string -> string, g: Generator, project: ProjectView, document: RazorDocument)
    requires Consistent(norm, g) && Insertable(g.projects, norm(project.filePath), document.filePath)
    ensures var r := AddDocument(norm, g, project, document);
      (r.outcome == Pass <==> !Filed(g.files, norm(document.filePath), norm(project.filePath))) &&
      (r.outcome == Pass ==>
         r.state.files == FiledUnder(g.files, norm(document.filePath), document.filePath, norm(project.filePath),
                                     g.nextEntry) &&
         r.state.dirty == g.dirty[norm(document.filePath) := g.nextEntry] && r.state.timer)
  {
  }

  /** RemoveDocument: three lookups that throw on a missing key, then the entry is detached
      and dropped from the project's and the file's maps; an emptied file entry is dropped. */
  function RemoveDocument(norm: string -> string, g: Generator, project: ProjectView, document: RazorDocument): (r: Step)
    requires Consistent(norm, g)
    ensures Consistent(norm, r.state) && r.state.projects.Keys == g.projects.Keys
    ensures DetachedOnly(g.entries, r.state.entries)
    ensures r.outcome.Pass? <==>
      Removable(g.projects, g.files, norm(project.filePath), document.filePath, norm(document.filePath))
    ensures r.outcome.Fail? ==> r == Step(Fail(KeyNotFound), g)
    ensures KeepsQueued(g, r.state)
  {
    var pkey := norm(project.filePath);
    var fkey := norm(document.filePath);
    if !Removable(g.projects, g.files, pkey, document.filePath, fkey) then Step(Fail(KeyNotFound), g)
    else
      assert ProjectValid(g.projects, g.entries, pkey);
      var id := g.projects[pkey].documents[document.filePath];
      var entries := g.entries[id := g.entries[id].(detached := true)];
      BelowUpdate(g.entries, g.nextEntry, id, entries[id]);
      EntryUpdateKeepsValid(norm, g.projects, g.files, g.dirty, g.entries, id, entries[id]);
      RemovalKeepsValid(g.projects, g.files, entries, pkey, document.filePath, fkey);
      Step(Pass, g.(entries := entries, projects := RemovedFrom(g.projects, pkey, document.filePath),
                    files := Unfiled(g.files, fkey, pkey)))
  }

  /** What RemoveDocument does when its lookups succeed. */
  lemma RemoveDocumentEffect(norm: string -> string, g: Generator, project: ProjectView, document: RazorDocument)
    requires Consistent(norm, g)
    requires Removable(g.projects, g.files, norm(project.filePath), document.filePath, norm(document.filePath))
    ensures var id := g.projects[norm(project.filePath)].documents[document.filePath];
      var r := RemoveDocument(norm, g, project, document);
      id in g.entries && r.state.entries == g.entries[id := g.entries[id].(detached := true)] &&
      r.state.projects == RemovedFrom(g.projects, norm(project.filePath), document.filePath) &&
      r.state.files == Unfiled(g.files, norm(document.filePath), norm(project.filePath)) &&
      r.outcome == Pass && r.state.nextEntry == g.nextEntry && r.state.clock == g.clock && r.state.dirty == g.dirty &&
      r.state.timer == g.timer && r.state.timerStarts == g.timerStarts
  {
    assert ProjectValid(g.projects, g.entries, norm(project.filePath));
  }

  /** SetDirty: the entry's known version becomes the next version and the entry is
      enqueued; the lookups throw on a missing key. */
  function SetDirty(norm: string -> string, g: Generator, project: ProjectView, document: RazorDocument): (r: Step)
    requires Consistent(norm, g)
    ensures Consistent(norm, r.state) && r.state.projects == g.projects && r.state.files == g.files
    ensures r.outcome.Fail? <==>
      norm(project.filePath) !in g.projects || document.filePath !in g.projects[norm(project.filePath)].documents
    ensures r.outcome.Fail? ==> r == Step(Fail(KeyNotFound), g)
    ensures KeepsQueued(g, r.state)
  {
    var pkey := norm(project.filePath);
    if pkey !in g.projects || document.filePath !in g.projects[pkey].documents then Step(Fail(KeyNotFound), g)
    else
      assert ProjectValid(g.projects, g.entries, pkey);
      var id := g.projects[pkey].documents[document.filePath];
      var entry := g.entries[id].(knownVersion := GetNewerVersion(g.entries[id].knownVersion));
      BelowUpdate(g.entries, g.nextEntry, id, entry);
      EntryUpdateKeepsValid(norm, g.projects, g.files, g.dirty, g.entries, id, entry);
      var updated := g.(entries := g.entries[id := entry]);
      EnqueueKeepsConsistent(norm, updated, id);
      Step(Pass, Enqueue(norm, updated, id))
  }

  /** What adding documents of a new project to `g` leaves in `r`: entries stay allocated
      under their paths, the only throw is DuplicateKey, and only the project's document map
      changed. */
  predicate AddedFrame(norm: string -> string, g: Generator, project: ProjectView, r: Step)
  {
    var pkey := norm(project.filePath);
    pkey in g.projects && pkey in r.state.projects &&
    PathsKept(g.entries, r.state.entries) &&
    (r.outcome.Fail? ==> r.outcome == Fail(DuplicateKey)) &&
    r.state.projects == WithDocuments(g.projects, pkey, r.state.projects[pkey].documents)
  }

  /** Without a throw, after the first `n` documents the project's map holds a new attached
      entry for each of them, under its own path, the paths being distinct. */
  predicate AddedUpTo(norm: string -> string, g: Generator, project: ProjectView, n: nat, r: Step)
    requires n <= |project.documents|
  {
    var pkey := norm(project.filePath);
    r.state.nextEntry >= g.nextEntry &&
    (r.outcome.Pass? && pkey in r.state.projects ==>
      r.state.projects[pkey].documents.Keys == PathsUpTo(project.documents, n) &&
      DistinctUpTo(project.documents, n) &&
      NewEntries(project.documents, n, r.state.projects[pkey].documents, r.state.entries, g.entries))
  }

  /** Without a throw, the first `n` documents are each enqueued. */
  predicate QueuedUpTo(norm: string -> string, documents: seq<RazorDocument>, n: nat, r: Step)
    requires n <= |documents|
  {
    r.outcome.Pass? ==> forall j :: 0 <= j < n ==> Queued(norm, r.state, documents[j].filePath)
  }

  lemma AddDocumentFrameStep(norm: string -> string, g: Generator, project: ProjectView, d: RazorDocument, s: Step)
    requires Consistent(norm, g) && Consistent(norm, s.state)
    requires AddedFrame(norm, g, project, s) && s.outcome.Pass?
    ensures AddedFrame(norm, g, project, AddDocument(norm, s.state, project, d))
  {
    var pkey := norm(project.filePath);
    if Insertable(s.state.projects, pkey, d.filePath) {
      AddDocumentEffect(norm, s.state, project, d);
      var r := AddDocument(norm, s.state, project, d);
      WithDocumentsTwice(g.projects, pkey, s.state.projects[pkey].documents, r.state.projects[pkey].documents);
    }
  }

  lemma AddDocumentStep(norm: string -> string, g: Generator, project: ProjectView, n: nat, s: Step)
    requires Consistent(norm, g) && Consistent(norm, s.state) && n < |project.documents|
    requires norm(project.filePath) in s.state.projects && AddedUpTo(norm, g, project, n, s) && s.outcome.Pass?
    ensures AddedUpTo(norm, g, project, n + 1, AddDocument(norm, s.state, project, project.documents[n]))
  {
    var pkey := norm(project.filePath);
    var d := project.documents[n];
    if Insertable(s.state.projects, pkey, d.filePath) {
      AddDocumentEffect(norm, s.state, project, d);
      var r := AddDocument(norm, s.state, project, d);
      if r.outcome.Pass? {
        assert BelowAt(g.entries, g.nextEntry, s.state.nextEntry);
        NewEntriesExtend(project.documents, n, s.state.projects[pkey].documents, s.state.entries, g.entries,
                         s.state.nextEntry, r.state.entries[s.state.nextEntry]);
      }
    }
  }

  /** AddDocument enqueues the document it adds and keeps what was pending. */
  lemma AddDocumentQueuedStep(norm: string -> string, project: ProjectView, documents: seq<RazorDocument>, n: nat,
                              s: Step)
    requires Consistent(norm, s.state) && n < |documents| && QueuedUpTo(norm, documents, n, s) && s.outcome.Pass?
    ensures QueuedUpTo(norm, documents, n + 1, AddDocument(norm, s.state, project, documents[n]))
  {
    var d := documents[n];
    var r := AddDocument(norm, s.state, project, d);
    if r.outcome.Pass? {
      AddDocumentFiling(norm, s.state, project, d);
      forall j | 0 <= j < n + 1
        ensures Queued(norm, r.state, documents[j].filePath)
      {
        if j < n {
          assert Queued(norm, s.state, documents[j].filePath);
        }
      }
    }
  }

  /** What removing the first `n` documents of a list from the project at `pkey` leaves in
      `r`: the only throw is KeyNotFound, no other project changed, the project's map only
      lost entries, and without a throw each of those documents had an entry in the
      project's original map that is now detached. */
  predicate RemovedUpTo(g: Generator, pkey: string, documents: seq<RazorDocument>, n: nat, r: Step)
    requires n <= |documents|
  {
    r.state.projects.Keys == g.projects.Keys &&
    (r.outcome.Fail? ==> r.outcome == Fail(KeyNotFound)) &&
    (forall p :: p in g.projects && p != pkey ==> r.state.projects[p] == g.projects[p]) &&
    (pkey in g.projects ==> SubMap(r.state.projects[pkey].documents, g.projects[pkey].documents)) &&
    (r.outcome.Pass? && n > 0 ==>
      pkey in g.projects && DetachedUpTo(documents, n, g.projects[pkey].documents, r.state.entries))
  }

  /** One more document of a removal loop. */
  lemma RemoveDocumentStep(norm: string -> string, g: Generator, project: ProjectView,
                           documents: seq<RazorDocument>, n: nat, s: Step)
    requires Consistent(norm, g) && Consistent(norm, s.state) && n < |documents|
    requires RemovedUpTo(g, norm(project.filePath), documents, n, s) && s.outcome.Pass?
    ensures RemovedUpTo(g, norm(project.filePath), documents, n + 1, RemoveDocument(norm, s.state, project, documents[n]))
  {
    var pkey := norm(project.filePath);
    var d := documents[n];
    if Removable(s.state.projects, s.state.files, pkey, d.filePath, norm(d.filePath)) {
      RemoveDocumentEffect(norm, s.state, project, d);
      DetachedExtend(documents, n, g.projects[pkey].documents, s.state.entries, s.state.projects[pkey].documents[d.filePath]);
    }
  }

  /** One document of the reconciliation loop of a project change, against the project's
      current map: a new path is added; a path whose entry holds another document object is
      removed and added again; otherwise the entry is marked dirty, except for a
      DocumentsChanged event. */
  function ReconcileDocument(norm: string -> string, g: Generator, kind: ProjectChangeKind, project: ProjectView,
                             document: RazorDocument): (r: Step)
    requires Consistent(norm, g) && norm(project.filePath) in g.projects
    ensures Consistent(norm, r.state) && r.state.projects.Keys == g.projects.Keys
    ensures r.outcome.Fail? ==> r.outcome == Fail(KeyNotFound) || r.outcome == Fail(DuplicateKey)
    ensures KeepsQueued(g, r.state)
  {
    var pkey := norm(project.filePath);
    var ids := g.projects[pkey].documents;
    var path := document.filePath;
    if path !in ids then
      AddDocumentThrows(norm, g, project, document);
      AddDocument(norm, g, project, document)
    else
      assert ProjectValid(g.projects, g.entries, pkey);
      var previous := g.entries[ids[path]].document;
      if previous != document then
        var s := RemoveDocument(norm, g, project, previous);
        if s.outcome.Fail? then s
        else
          AddDocumentThrows(norm, s.state, project, document);
          AddDocument(norm, s.state, project, document)
      else if kind != DocumentsChanged then SetDirty(norm, g, project, document)
      else Step(Pass, g)
  }

  /** What a reconciliation step may change: only the project's map at the document's path,
      and only the entry that path held, besides allocating new ones. */
  predicate ReconcileFrame(g: Generator, pkey: string, path: string, r: Generator)
    requires pkey in g.projects
  {
    var ids := g.projects[pkey].documents;
    pkey in r.projects && path in r.projects[pkey].documents &&
    r.projects == WithDocuments(g.projects, pkey, ids[path := r.projects[pkey].documents[path]]) &&
    PathsKept(g.entries, r.entries) &&
    forall x :: x in g.entries && !(path in ids && x == ids[path]) ==> r.entries[x] == g.entries[x]
  }

  /** A new path: the entry AddDocument allocates. */
  lemma ReconcileAddEffect(norm: string -> string, g: Generator, kind: ProjectChangeKind, project: ProjectView,
                           document: RazorDocument)
    requires Consistent(norm, g) && norm(project.filePath) in g.projects
    requires document.filePath !in g.projects[norm(project.filePath)].documents
    ensures var r := AddDocument(norm, g, project, document);
      var pkey := norm(project.filePath);
      r.outcome.Pass? ==>
        ReconcileFrame(g, pkey, document.filePath, r.state) &&
        Reconciled(kind, g.projects[pkey].documents, g.entries, r.state.projects[pkey].documents, r.state.entries, document)
  {
    AddDocumentEffect(norm, g, project, document);
  }

  /** AddDocument on a state `t` that RemoveDocument left from `g` by detaching the path's
      entry: the path takes a newly allocated entry. */
  lemma AddAfterRemoval(norm: string -> string, g: Generator, t: Generator, project: ProjectView, document: RazorDocument)
    requires Consistent(norm, t) && norm(project.filePath) in g.projects
    requires var ids := g.projects[norm(project.filePath)].documents;
      document.filePath in ids && ids[document.filePath] in g.entries &&
      t.projects == RemovedFrom(g.projects, norm(project.filePath), document.filePath) &&
      t.entries == g.entries[ids[document.filePath] := g.entries[ids[document.filePath]].(detached := true)] &&
      t.nextEntry == g.nextEntry && t.clock == g.clock
    ensures var r := AddDocument(norm, t, project, document);
      var pkey := norm(project.filePath);
      var ids := g.projects[pkey].documents;
      var stale := ids[document.filePath];
      r.outcome.Pass? ==>
        g.nextEntry !in g.entries &&
        r.state.projects == WithDocuments(g.projects, pkey, ids[document.filePath := g.nextEntry]) &&
        r.state.entries == g.entries[stale := g.entries[stale].(detached := true)]
                                    [g.nextEntry := DocumentEntry(document.filePath, project.filePath, document, false,
                                                                  DefaultVersion, g.clock + 1)]
  {
    var pkey := norm(project.filePath);
    AddDocumentEffect(norm, t, project, document);
    var r := AddDocument(norm, t, project, document);
    var ids := g.projects[pkey].documents;
    assert (ids - {document.filePath})[document.filePath := t.nextEntry] == ids[document.filePath := t.nextEntry];
    WithDocumentsTwice(g.projects, pkey, t.projects[pkey].documents, r.state.projects[pkey].documents);
  }

  /** RemoveDocument then AddDocument on a path the project holds: the old entry is detached
      and the path takes a newly allocated entry. */
  lemma ReplaceEffect(norm: string -> string, g: Generator, project: ProjectView,
                      previous: RazorDocument, document: RazorDocument)
    requires Consistent(norm, g) && norm(project.filePath) in g.projects
    requires var ids := g.projects[norm(project.filePath)].documents;
      document.filePath in ids && ids[document.filePath] in g.entries &&
      g.entries[ids[document.filePath]].document == previous
    ensures var s := RemoveDocument(norm, g, project, previous);
      var pkey := norm(project.filePath);
      var ids := g.projects[pkey].documents;
      var stale := ids[document.filePath];
      s.outcome.Pass? ==>
        var r := AddDocument(norm, s.state, project, document);
        r.outcome.Pass? ==>
          g.nextEntry !in g.entries &&
          r.state.projects == WithDocuments(g.projects, pkey, ids[document.filePath := g.nextEntry]) &&
          r.state.entries == g.entries[stale := g.entries[stale].(detached := true)]
                                      [g.nextEntry := DocumentEntry(document.filePath, project.filePath, document, false,
                                                                    DefaultVersion, g.clock + 1)]
  {
    assert ProjectValid(g.projects, g.entries, norm(project.filePath));
    assert previous.filePath == document.filePath;
    var s := RemoveDocument(norm, g, project, previous);
    if s.outcome.Pass? {
      RemoveDocumentEffect(norm, g, project, previous);
      AddAfterRemoval(norm, g, s.state, project, document);
    }
  }

  /** A replaced path is reconciled: its old entry detached, its new one fresh. */
  lemma ReplaceReconciled(g: Generator, kind: ProjectChangeKind, pkey: string, document: RazorDocument,
                          entry: DocumentEntry, r: Generator)
    requires pkey in g.projects && Below(g.entries, g.nextEntry)
    requires var ids := g.projects[pkey].documents;
      document.filePath in ids && ids[document.filePath] in g.entries &&
      g.entries[ids[document.filePath]].document != document
    requires entry.document == document && !entry.detached && entry.computedVersion == DefaultVersion
    requires entry.filePath == document.filePath
    requires var ids := g.projects[pkey].documents;
      var stale := ids[document.filePath];
      g.nextEntry !in g.entries &&
      r.projects == WithDocuments(g.projects, pkey, ids[document.filePath := g.nextEntry]) &&
      r.entries == g.entries[stale := g.entries[stale].(detached := true)][g.nextEntry := entry]
    ensures ReconcileFrame(g, pkey, document.filePath, r) &&
      Reconciled(kind, g.projects[pkey].documents, g.entries, r.projects[pkey].documents, r.entries, document)
  {
  }

  /** A path whose entry holds another document object: that entry is detached and a new one
      allocated. */
  lemma ReconcileReplaceEffect(norm: string -> string, g: Generator, kind: ProjectChangeKind, project: ProjectView,
                               previous: RazorDocument, document: RazorDocument)
    requires Consistent(norm, g) && norm(project.filePath) in g.projects
    requires var ids := g.projects[norm(project.filePath)].documents;
      document.filePath in ids && ids[document.filePath] in g.entries &&
      g.entries[ids[document.filePath]].document == previous && previous != document
    ensures var s := RemoveDocument(norm, g, project, previous);
      var pkey := norm(project.filePath);
      s.outcome.Pass? ==>
        var r := AddDocument(norm, s.state, project, document);
        r.outcome.Pass? ==>
          ReconcileFrame(g, pkey, document.filePath, r.state) &&
          Reconciled(kind, g.projects[pkey].documents, g.entries, r.state.projects[pkey].documents, r.state.entries, document)
  {
    ReplaceEffect(norm, g, project, previous, document);
    var s := RemoveDocument(norm, g, project, previous);
    if s.outcome.Pass? {
      var r := AddDocument(norm, s.state, project, document);
      if r.outcome.Pass? {
        ReplaceReconciled(g, kind, norm(project.filePath), document,
                          DocumentEntry(document.filePath, project.filePath, document, false, DefaultVersion, g.clock + 1),
                          r.state);
      }
    }
  }

  /** What SetDirty does when its lookups succeed. */
  lemma SetDirtyEffect(norm: string -> string, g: Generator, project: ProjectView, document: RazorDocument)
    requires Consistent(norm, g) && norm(project.filePath) in g.projects
    requires document.filePath in g.projects[norm(project.filePath)].documents
    ensures var id := g.projects[norm(project.filePath)].documents[document.filePath];
      var r := SetDirty(norm, g, project, document);
      r.outcome.Pass? && id in g.entries &&
      r.state.entries == g.entries[id := g.entries[id].(knownVersion := GetNewerVersion(g.entries[id].knownVersion))] &&
      r.state.dirty == g.dirty[norm(g.entries[id].filePath) := id] && r.state.timer
  {
    assert ProjectValid(g.projects, g.entries, norm(project.filePath));
  }

  /** A path whose entry holds the same document object: the entry is kept, refreshed. */
  lemma ReconcileKeepEffect(norm: string -> string, g: Generator, kind: ProjectChangeKind, project: ProjectView,
                            document: RazorDocument)
    requires Consistent(norm, g) && norm(project.filePath) in g.projects
    requires Kept(g.projects[norm(project.filePath)].documents, g.entries, document)
    ensures var r := if kind != DocumentsChanged then SetDirty(norm, g, project, document) else Step(Pass, g);
      var pkey := norm(project.filePath);
      ReconcileFrame(g, pkey, document.filePath, r.state) &&
      Reconciled(kind, g.projects[pkey].documents, g.entries, r.state.projects[pkey].documents, r.state.entries, document)
  {
    var pkey := norm(project.filePath);
    WithSameDocuments(g.projects, pkey);
    var ids := g.projects[pkey].documents;
    assert ids[document.filePath := ids[document.filePath]] == ids;
    if kind != DocumentsChanged {
      SetDirtyEffect(norm, g, project, document);
    }
  }

  /** A reconciliation step that does not throw leaves the document reconciled against the
      project's map before the step, and changes nothing beyond its frame. */
  lemma ReconcileDocumentEffect(norm: string -> string, g: Generator, kind: ProjectChangeKind, project: ProjectView,
                                document: RazorDocument)
    requires Consistent(norm, g) && norm(project.filePath) in g.projects
    ensures var r := ReconcileDocument(norm, g, kind, project, document);
      var pkey := norm(project.filePath);
      r.outcome.Pass? ==>
        ReconcileFrame(g, pkey, document.filePath, r.state) &&
        Reconciled(kind, g.projects[pkey].documents, g.entries, r.state.projects[pkey].documents, r.state.entries, document)
  {
    var pkey := norm(project.filePath);
    var ids := g.projects[pkey].documents;
    var path := document.filePath;
    if path !in ids {
      ReconcileAddEffect(norm, g, kind, project, document);
    } else {
      assert ProjectValid(g.projects, g.entries, pkey);
      var previous := g.entries[ids[path]].document;
      if previous != document {
        ReconcileReplaceEffect(norm, g, kind, project, previous, document);
      } else {
        ReconcileKeepEffect(norm, g, kind, project, document);
      }
    }
  }

  /** A reconciliation step that does not throw enqueues the document when Enqueues says so. */
  lemma ReconcileDocumentQueues(norm: string -> string, g: Generator, kind: ProjectChangeKind, project: ProjectView,
                                document: RazorDocument)
    requires Consistent(norm, g) && norm(project.filePath) in g.projects
    ensures var r := ReconcileDocument(norm, g, kind, project, document);
      r.outcome.Pass? && Enqueues(kind, g.projects[norm(project.filePath)].documents, g.entries, document) ==>
        Queued(norm, r.state, document.filePath)
  {
    var pkey := norm(project.filePath);
    var ids := g.projects[pkey].documents;
    var path := document.filePath;
    assert ProjectValid(g.projects, g.entries, pkey);
    if path !in ids {
      AddDocumentFiling(norm, g, project, document);
    } else {
      var previous := g.entries[ids[path]].document;
      if previous != document {
        assert previous.filePath == path;
        var s := RemoveDocument(norm, g, project, previous);
        if s.outcome.Pass? {
          RemoveDocumentEffect(norm, g, project, previous);
          AddDocumentFiling(norm, s.state, project, document);
        }
      } else if kind != DocumentsChanged {
        SetDirtyEffect(norm, g, project, document);
      }
    }
  }

  /** The reconciliation loop after `n` documents, from the state `middle` the removals left
      (whose map for the project was `retained`): only the project's map changed since
      `base`; it holds the retained paths and the first `n` document paths; those documents
      are reconciled, the later ones still have their entries; and every entry whose path is
      not among the first `n` is as in `middle`. */
  predicate ReconcilingAt(kind: ProjectChangeKind, documents: seq<RazorDocument>, pkey: string, n: nat,
                          base: map<string, ProjectEntry>, retained: map<string, EntryId>, middle: Entries, g: Generator)
  {
    n <= |documents| && pkey in base && pkey in g.projects &&
    var ids := g.projects[pkey].documents;
    g.projects == WithDocuments(base, pkey, ids) &&
    ids.Keys == retained.Keys + PathsUpTo(documents, n) &&
    ReconciledUpTo(kind, documents, n, retained, middle, ids, g.entries) &&
    PendingFrom(documents, n, retained, middle, ids, g.entries) &&
    PathsKept(middle, g.entries) &&
    UntouchedOutside(middle, g.entries, PathsUpTo(documents, n))
  }

  /** The reconciliation loop starts from its own state. */
  lemma ReconcilingStart(kind: ProjectChangeKind, documents: seq<RazorDocument>, pkey: string,
                         base: map<string, ProjectEntry>, g: Generator)
    requires pkey in base && pkey in g.projects && g.projects == WithDocuments(base, pkey, g.projects[pkey].documents)
    requires DocumentsValid(g.projects[pkey].documents, g.entries)
    ensures ReconcilingAt(kind, documents, pkey, 0, base, g.projects[pkey].documents, g.entries, g)
  {
  }

  /** One document of the reconciliation loop keeps its invariant. */
  lemma ReconcileDocumentStep(norm: string -> string, kind: ProjectChangeKind, project: ProjectView, n: nat,
                              base: map<string, ProjectEntry>, retained: map<string, EntryId>, middle: Entries,
                              g: Generator, r: Step)
    requires Consistent(norm, g) && n < |project.documents| && DistinctPaths(project.documents)
    requires DocumentsValid(retained, middle)
    requires ReconcilingAt(kind, project.documents, norm(project.filePath), n, base, retained, middle, g)
    requires r == ReconcileDocument(norm, g, kind, project, project.documents[n])
    ensures r.outcome.Pass? ==>
      ReconcilingAt(kind, project.documents, norm(project.filePath), n + 1, base, retained, middle, r.state)
  {
    var pkey := norm(project.filePath);
    var documents := project.documents;
    var path := documents[n].filePath;
    ReconcileDocumentEffect(norm, g, kind, project, documents[n]);
    if r.outcome.Pass? {
      var ids := g.projects[pkey].documents;
      var ids1 := r.state.projects[pkey].documents;
      assert ProjectValid(g.projects, g.entries, pkey);
      ReconcileStep(kind, documents, n, retained, middle, ids, g.entries, ids1, r.state.entries);
      UntouchedStep(middle, ids, g.entries, r.state.entries, PathsUpTo(documents, n), path);
      WithDocumentsTwice(base, pkey, ids, ids1);
    }
  }

  /** One document of the reconciliation loop keeps every enqueued document queued and
      enqueues this one when Enqueues says so. */
  lemma ReconcileQueuedStep(norm: string -> string, kind: ProjectChangeKind, project: ProjectView, n: nat,
                            base: map<string, ProjectEntry>, retained: map<string, EntryId>, middle: Entries,
                            g: Generator, r: Step)
    requires Consistent(norm, g) && n < |project.documents| && DistinctPaths(project.documents)
    requires ReconcilingAt(kind, project.documents, norm(project.filePath), n, base, retained, middle, g)
    requires EnqueuedUpTo(norm, kind, project.documents, n, retained, middle, g)
    requires r == ReconcileDocument(norm, g, kind, project, project.documents[n])
    ensures r.outcome.Pass? ==> EnqueuedUpTo(norm, kind, project.documents, n + 1, retained, middle, r.state)
  {
    var pkey := norm(project.filePath);
    var documents := project.documents;
    ReconcileDocumentQueues(norm, g, kind, project, documents[n]);
    KeptNext(documents, n, retained, middle, g.projects[pkey].documents, g.entries);
    if r.outcome.Pass? {
      forall j | 0 <= j < n + 1 && Enqueues(kind, retained, middle, documents[j])
        ensures Queued(norm, r.state, documents[j].filePath)
      {
        if j < n {
          assert Queued(norm, g, documents[j].filePath);
        }
      }
    }
  }

  /** The removal loop of a project change after the stale paths `done`: only the project's
      map changed since `base`, losing exactly those paths; their entries are detached, the
      other entries of `initial` are as in `prior`, and no entry changed otherwise. */
  predicate RemovingAt(pkey: string, base: map<string, ProjectEntry>, initial: map<string, EntryId>, prior: Entries,
                       done: set<string>, g: Generator)
  {
    pkey in base && pkey in g.projects &&
    g.projects == WithDocuments(base, pkey, initial - done) &&
    DetachedKeys(initial, done, g.entries) && UntouchedKeys(initial, done, prior, g.entries) &&
    DetachedOnly(prior, g.entries)
  }

  /** The removal loop starts from its own state. */
  lemma RemovingStart(pkey: string, base: map<string, ProjectEntry>, g: Generator)
    requires pkey in base && pkey in g.projects && g.projects == base
    requires DocumentsValid(g.projects[pkey].documents, g.entries)
    ensures RemovingAt(pkey, base, g.projects[pkey].documents, g.entries, {}, g)
  {
    var initial := g.projects[pkey].documents;
    assert initial - {} == initial;
    WithSameDocuments(base, pkey);
  }

  /** Removing the document of one more stale path keeps the removal loop's invariant. */
  lemma RemoveStaleStep(norm: string -> string, project: ProjectView, base: map<string, ProjectEntry>,
                        initial: map<string, EntryId>, prior: Entries, done: set<string>, g: Generator, k: string,
                        r: Step)
    requires Consistent(norm, g) && DocumentsValid(initial, prior) && k in initial && k !in done
    requires RemovingAt(norm(project.filePath), base, initial, prior, done, g)
    requires initial[k] in g.entries && r == RemoveDocument(norm, g, project, g.entries[initial[k]].document)
    ensures r.outcome.Pass? ==> RemovingAt(norm(project.filePath), base, initial, prior, done + {k}, r.state)
  {
    var pkey := norm(project.filePath);
    var id := initial[k];
    var document := g.entries[id].document;
    assert g.projects[pkey].documents == initial - done;
    if Removable(g.projects, g.files, pkey, k, norm(k)) {
      RemoveDocumentEffect(norm, g, project, document);
      DetachStep(initial, prior, done, g.entries, k);
      DetachOne(prior, g.entries, id);
      assert (initial - done) - {k} == initial - (done + {k});
      WithDocumentsTwice(base, pkey, initial - done, initial - (done + {k}));
    }
  }

  /** The result of a project change that does not throw, from `g0`: no other project
      changed; the project has the event's snapshot and exactly the event's document paths;
      each document is reconciled against the project's original map; and the entry of
      every path the event no longer lists is detached. */
  predicate ChangedTo(kind: ProjectChangeKind, project: ProjectView, pkey: string, g0: Generator, g: Generator)
  {
    pkey in g0.projects && pkey in g.projects &&
    var initial := g0.projects[pkey].documents;
    var ids := g.projects[pkey].documents;
    g.projects.Keys == g0.projects.Keys &&
    (forall p :: p in g0.projects && p != pkey ==> g.projects[p] == g0.projects[p]) &&
    g.projects[pkey].projectSnapshot == project &&
    ids.Keys == Paths(project.documents) &&
    ReconciledUpTo(kind, project.documents, |project.documents|, initial, g0.entries, ids, g.entries) &&
    (forall k :: k in initial && k !in Paths(project.documents) ==> initial[k] in g.entries && g.entries[initial[k]].detached)
  }

  /** The two loops of a project change, run to their ends, yield ChangedTo. */
  lemma ChangedConclusion(kind: ProjectChangeKind, project: ProjectView, pkey: string, g0: Generator,
                          stale: set<string>, middle: Generator, g: Generator)
    requires pkey in g0.projects && DocumentsValid(g0.projects[pkey].documents, g0.entries)
    requires forall k :: k in stale <==> k in g0.projects[pkey].documents && k !in Paths(project.documents)
    requires RemovingAt(pkey, Retargeted(g0.projects, pkey, project), g0.projects[pkey].documents, g0.entries, stale, middle)
    requires ReconcilingAt(kind, project.documents, pkey, |project.documents|, Retargeted(g0.projects, pkey, project),
                           g0.projects[pkey].documents - stale, middle.entries, g)
    ensures ChangedTo(kind, project, pkey, g0, g)
  {
    var documents := project.documents;
    var initial := g0.projects[pkey].documents;
    var ids := g.projects[pkey].documents;
    DetachedOnlyKeepsPaths(g0.entries, middle.entries);
    ReconciledAfterRemovals(kind, documents, initial, stale, g0.entries, middle.entries, ids, g.entries);
    StaleDetached(documents, initial, stale, g0.entries, middle.entries, g.entries);
    assert ids.Keys == Paths(documents);
  }

  /** The removals leave the event's documents as the original map held them, so what the
      reconciliation loop enqueues against the map after the removals is what Enqueues says
      against the original one. */
  lemma ChangedEnqueued(norm: string -> string, kind: ProjectChangeKind, project: ProjectView, pkey: string,
                        g0: Generator, stale: set<string>, middle: Generator, g: Generator)
    requires pkey in g0.projects
    requires forall k :: k in stale <==> k in g0.projects[pkey].documents && k !in Paths(project.documents)
    requires RemovingAt(pkey, Retargeted(g0.projects, pkey, project), g0.projects[pkey].documents, g0.entries, stale, middle)
    requires EnqueuedUpTo(norm, kind, project.documents, |project.documents|, g0.projects[pkey].documents - stale,
                          middle.entries, g)
    ensures EnqueuedUpTo(norm, kind, project.documents, |project.documents|, g0.projects[pkey].documents, g0.entries, g)
  {
    var documents := project.documents;
    var initial := g0.projects[pkey].documents;
    forall j | 0 <= j < |documents| && Enqueues(kind, initial, g0.entries, documents[j])
      ensures Queued(norm, g, documents[j].filePath)
    {
      assert documents[j].filePath in Paths(documents);
      assert Kept(initial - stale, middle.entries, documents[j]) <==> Kept(initial, g0.entries, documents[j]);
    }
  }

  /** Giving the project at `pkey` a new snapshot keeps every map valid. */
  lemma RetargetKeepsValid(projects: map<string, ProjectEntry>, entries: Entries, pkey: string, project: ProjectView)
    requires ProjectsValid(projects, entries) && pkey in projects
    ensures ProjectsValid(Retargeted(projects, pkey, project), entries)
  {
    var updated := Retargeted(projects, pkey, project);
    forall p
      ensures ProjectValid(updated, entries, p)
    {
      assert ProjectValid(projects, entries, p);
    }
  }

  /** The first lock block of Timer_Tick: the pending entries are taken and the dirty map is
      emptied; the timer is stopped but stays allocated. */
  function TimerTickBegin(g: Generator): (r: Generator)
    ensures r.dirty == map[] && r.timer == g.timer && r.timerStarts == g.timerStarts
    ensures r.entries == g.entries && r.nextEntry == g.nextEntry && r.files == g.files && r.projects == g.projects
  {
    g.(dirty := map[])
  }

  /** The second lock block of Timer_Tick: the timer is released, and a new one is started
      exactly when work was enqueued meanwhile. */
  function TimerTickEnd(g: Generator): (r: Generator)
    ensures r.timer <==> g.dirty != map[]
    ensures r.timerStarts == g.timerStarts + (if g.dirty != map[] then 1 else 0)
    ensures r.dirty == g.dirty && r.entries == g.entries && r.files == g.files && r.projects == g.projects
  {
    var released := g.(timer := false);
    if g.dirty != map[] then StartWorker(released) else released
  }

  /** Both lock blocks of Timer_Tick keep the generator consistent. */
  lemma TimerTickKeepsConsistent(norm: string -> string, g: Generator)
    requires Consistent(norm, g)
    ensures Consistent(norm, TimerTickBegin(g)) && Consistent(norm, TimerTickEnd(g))
  {
    var begun := TimerTickBegin(g);
    forall k
      ensures DirtyAt(norm, begun.dirty, begun.entries, k)
    {
    }
  }

  /** Distinct dirty keys hold distinct entries, so the batch Timer_Tick takes holds each
      pending entry once. */
  lemma DirtyEntriesDistinct(norm: string -> string, g: Generator, a: string, b: string)
    requires Consistent(norm, g) && a in g.dirty && b in g.dirty && a != b
    ensures g.dirty[a] != g.dirty[b]
  {
    assert DirtyAt(norm, g.dirty, g.entries, a) && DirtyAt(norm, g.dirty, g.entries, b);
  }

  /** Enqueueing two entries with the same normalised path leaves only the later one
      pending: the dirty map coalesces work per file. */
  lemma EnqueueCoalesces(norm: string -> string, g: Generator, a: EntryId, b: EntryId)
    requires a in g.entries && b in g.entries && norm(g.entries[a].filePath) == norm(g.entries[b].filePath)
    ensures Enqueue(norm, Enqueue(norm, g, a), b).dirty == Enqueue(norm, g, b).dirty
    ensures Enqueue(norm, Enqueue(norm, g, a), b).timerStarts == g.timerStarts + (if g.timer then 0 else 1)
  {
  }

  /** The result of ProjectAdded from `g0`, as the step `res`: entries stay allocated under
      their paths; on a known path it throws DuplicateKey and changes nothing; every throw is
      DuplicateKey; no other project changes; and without a throw the project is new, has the
      event's snapshot, holds one new attached entry per document, the paths being
      distinct, and every document is enqueued. */
  predicate AddedResult(norm: string -> string, project: ProjectView, g0: Generator, res: Step)
  {
    var pkey := norm(project.filePath);
    PathsKept(g0.entries, res.state.entries) &&
    (pkey in g0.projects ==> res == Step(Fail(DuplicateKey), g0)) &&
    (res.outcome.Fail? ==> res.outcome == Fail(DuplicateKey)) &&
    (forall p :: p in g0.projects ==> p in res.state.projects && res.state.projects[p] == g0.projects[p]) &&
    (res.outcome.Pass? ==>
      pkey !in g0.projects && pkey in res.state.projects &&
      res.state.projects[pkey].projectSnapshot == project &&
      DistinctPaths(project.documents) &&
      res.state.projects[pkey].documents.Keys == Paths(project.documents) &&
      NewEntries(project.documents, |project.documents|, res.state.projects[pkey].documents, res.state.entries, g0.entries) &&
      forall j :: 0 <= j < |project.documents| ==> Queued(norm, res.state, project.documents[j].filePath))
  }

  /** AddProject, then the document loop run until its end or its first throw, yields
      AddedResult. */
  lemma AddedConclusion(norm: string -> string, project: ProjectView, g0: Generator, res: Step)
    requires Consistent(norm, g0)
    requires norm(project.filePath) in g0.projects ==> res == Step(Fail(DuplicateKey), g0)
    requires norm(project.filePath) !in g0.projects ==>
      var g1 := AddProject(norm, g0, project).state;
      AddedFrame(norm, g1, project, res) &&
      (res.outcome.Pass? ==> AddedUpTo(norm, g1, project, |project.documents|, res)) &&
      QueuedUpTo(norm, project.documents, |project.documents|, res)
    ensures AddedResult(norm, project, g0, res)
  {
  }

  /** The result of ProjectRemoved from `g0`: entries only become detached; every throw is
      KeyNotFound; without a throw the project is gone, no other project changed, and every
      document of the event had an entry in the project that is now detached. */
  predicate RemovedResult(norm: string -> string, project: ProjectView, g0: Generator, res: Step)
  {
    var pkey := norm(project.filePath);
    DetachedOnly(g0.entries, res.state.entries) &&
    (res.outcome.Fail? ==> res.outcome == Fail(KeyNotFound)) &&
    (res.outcome.Pass? ==> res.state.projects == g0.projects - {pkey}) &&
    (res.outcome.Pass? && |project.documents| > 0 ==>
      pkey in g0.projects &&
      DetachedUpTo(project.documents, |project.documents|, g0.projects[pkey].documents, res.state.entries))
  }

  /** The removal loop run to its end, then RemoveProject, yields RemovedResult. */
  lemma RemovedConclusion(norm: string -> string, project: ProjectView, g0: Generator, s: Generator)
    requires Consistent(norm, s) && DetachedOnly(g0.entries, s.entries)
    requires RemovedUpTo(g0, norm(project.filePath), project.documents, |project.documents|, Step(Pass, s))
    ensures RemovedResult(norm, project, g0, Step(Pass, RemoveProject(norm, s, project)))
  {
    assert RemoveProject(norm, s, project).projects == g0.projects - {norm(project.filePath)};
  }

  /** The result of a ProjectChanged, TagHelpersChanged or DocumentsChanged event from `g0`:
      an unknown project throws KeyNotFound and changes nothing; a document list with a
      repeated path throws DuplicateKey once the new snapshot is recorded; and without a
      throw the project is as ChangedTo says and every document that Enqueues against the
      project's original map is queued. Every throw is key-not-found or duplicate-key; a
      duplicate-key can also come from AddDocument's file map, for two paths that differ
      only under `norm`. */
  predicate ChangedResult(norm: string -> string, kind: ProjectChangeKind, project: ProjectView, g0: Generator, res: Step)
  {
    var pkey := norm(project.filePath);
    (pkey !in g0.projects ==> res == Step(Fail(KeyNotFound), g0)) &&
    (pkey in g0.projects && !DistinctPaths(project.documents) ==>
      res == Step(Fail(DuplicateKey), g0.(projects := Retargeted(g0.projects, pkey, project)))) &&
    (res.outcome.Fail? ==> res.outcome == Fail(KeyNotFound) || res.outcome == Fail(DuplicateKey)) &&
    (res.outcome.Pass? ==> ChangedTo(kind, project, pkey, g0, res.state)) &&
    (res.outcome.Pass? ==>
      pkey in g0.projects &&
      EnqueuedUpTo(norm, kind, project.documents, |project.documents|, g0.projects[pkey].documents, g0.entries, res.state))
  }
}
