/** A whole run over the checkpoint engine (internal/agent/tool_dispatch.go,
    internal/agent/file_mutation_batch.go, internal/agent/checkpoint.go,
    internal/agent/checkpoint_undo.go): batches of file edits that either all succeed and are recorded,
    or fail, are taken back and settled; and the undo of the run. */
module CheckpointRun {
  import opened CheckpointSelection
  import opened CheckpointStore
  import opened CheckpointUndo
  import opened Wrappers

  datatype Edit = Edit(path: Path, content: string, mode: Mode)

  /** The edits of one batch. The edit number `stop`, if there is one, fails after its preimage was
      captured; `made` is whether its directories had been created by then. */
  datatype Batch = Batch(edits: seq<Edit>, stop: Option<nat>, made: bool)

  /** The disk, and whether the scope of the run has started its generation. */
  datatype State = State(disk: Disk, started: bool)

  /** The disk that the next capture works on. */
  function Begun(s: State, owner: Owner): Disk {
    if s.started then s.disk else Start(s.disk, owner)
  }

  /** How far a batch came: captured paths, committed mutations, and whether all edits succeeded. */
  datatype Performed = Performed(state: State, captured: seq<Path>, mutations: seq<Mutation>, ok: bool)

  const DEFAULT_MODE: Mode := 0x1A4

  /** stageArtifact gives a file without permission bits the default ones. */
  function Staged(mode: Mode): Mode {
    if mode == 0 then DEFAULT_MODE else mode
  }

  function StagedNode(node: Node): Node {
    if node.Regular? then Regular(node.content, Staged(node.mode)) else node
  }

  function WriteFile(files: Files, e: Edit): Files {
    MakeDirectories(files, e.path)[e.path := Regular(e.content, Staged(e.mode))]
  }

  /** The journal entry of a successful edit: captureFileMutationSnapshot and committedMutationRevision. */
  function Committed(files: Files, e: Edit): Mutation {
    Mutation(e.path, Revision(true, e.content), FileAt(files, e.path))
  }

  function Perform(s: State, owner: Owner, edits: seq<Edit>, stop: Option<nat>, made: bool, captured: seq<Path>, mutations: seq<Mutation>)
    : Performed
    decreases |edits|
  {
    if edits == [] then Performed(s, captured, mutations, true)
    else
      var e, begun := edits[0], Begun(s, owner);
      match Capture(begun, owner, e.path)
      case None => Performed(State(begun, true), captured, mutations, false)
      case Some(d) =>
        if stop == Some(0) then
          var left := if made then d.(files := MakeDirectories(d.files, e.path)) else d;
          Performed(State(left, true), captured + [e.path], mutations, false)
        else
          Perform(State(d.(files := WriteFile(d.files, e)), true), owner, edits[1..],
                  if stop.Some? then Some(stop.value - 1) else None, made, captured + [e.path],
                  mutations + [Committed(d.files, e)])
  }

  /** rollbackCommittedFileMutation, and whether the file still was as the mutation left it. */
  function TakeBack(files: Files, m: Mutation): (Files, bool) {
    if !IsRegular(files, m.path) || Revision(true, files[m.path].content) != m.revision then (files, false)
    else (Put(files, m.path, if m.snapshot.Some? then Some(StagedNode(m.snapshot.value)) else None), true)
  }

  /** rollbackFileMutationBatch: in reverse, and to the end even when a mutation cannot be taken back. */
  function TakeBackAll(files: Files, mutations: seq<Mutation>): (Files, bool)
    decreases |mutations|
  {
    if mutations == [] then (files, true)
    else
      var (next, ok) := TakeBack(files, mutations[|mutations| - 1]);
      var (rest, others) := TakeBackAll(next, mutations[..|mutations| - 1]);
      (rest, ok && others)
  }

  function Touched(mutations: seq<Mutation>): set<Path> {
    set m | m in mutations :: m.path
  }

  /** What a failed batch leaves: every file as before, those that were written and taken back with the
      mode that staging gives them, and the directories that were made. */
  function Restored(now: Files, before: Files, touched: set<Path>): Files {
    map q | q in before.Keys + now.Keys && (q in before || IsDirectory(now, q)) ::
      if q !in before then Directory else if q in touched then StagedNode(before[q]) else before[q]
  }

  /** The end of a failed batch: its mutations are taken back and the captured paths settled. */
  function FailBatch(p: Performed, owner: Owner): State {
    var restored := p.state.disk.(files := TakeBackAll(p.state.disk.files, p.mutations).0);
    if p.captured == [] then State(restored, p.state.started)
    else
      match Settle(restored, owner, p.captured)
      case None => State(restored, p.state.started)
      case Some(d) => State(d, p.state.started)
  }

  function RunBatch(s: State, owner: Owner, batch: Batch): State {
    var p := Perform(s, owner, batch.edits, batch.stop, batch.made, [], []);
    if !p.ok then FailBatch(p, owner)
    else if p.mutations == [] then p.state
    else
      match Record(p.state.disk, owner, p.mutations)
      case None => FailBatch(p, owner)
      case Some(d) => State(d, p.state.started)
  }

  function RunBatches(s: State, owner: Owner, batches: seq<Batch>): State
    decreases |batches|
  {
    if batches == [] then s else RunBatches(RunBatch(s, owner, batches[0]), owner, batches[1..])
  }

  // ----- what every batch keeps -----

  /** What was there is still there, files as files and directories as directories. */
  ghost predicate Grown(before: Files, now: Files) {
    forall p :: p in before ==> p in now && IsDirectory(before, p) == IsDirectory(now, p)
  }

  /** What an entry says about the start of the run. */
  ghost predicate PreOk(start: Files, backups: map<Path, string>, p: Path, e: Entry) {
    && p.parts != [] && e.existed == IsRegular(start, p) && e.preimage == FileRevision(start, p)
    && (e.existed ==> e.backup == Some(p) && p in backups && backups[p] == start[p].content && e.mode == Some(start[p].mode))
    && (!e.existed ==> e.backup == None && e.mode == None && p !in start)
  }

  /** What an entry says about the state before the current batch. */
  ghost predicate PostOk(start: Files, before: Files, p: Path, e: Entry) {
    if e.captured then e.postExisted == IsRegular(before, p) && e.postimage == FileRevision(before, p)
    else FileAt(before, p) == FileAt(start, p)
  }

  ghost predicate EntriesOk(start: Files, before: Files, backups: map<Path, string>, entries: map<Path, Entry>) {
    forall p :: p in entries ==> PreOk(start, backups, p, entries[p]) && PostOk(start, before, p, entries[p])
  }

  /** Files that are not in the manifest never changed; those of earlier batches not since `before`. */
  ghost predicate Untouched(start: Files, before: Files, now: Files, entries: map<Path, Entry>, touched: set<Path>) {
    && (forall p :: p !in entries ==> FileAt(now, p) == FileAt(start, p) && FileAt(before, p) == FileAt(start, p))
    && (forall p :: p in entries && p !in touched ==> entries[p].captured && FileAt(now, p) == FileAt(before, p))
  }

  ghost predicate BatchInv(start: Files, before: Files, d: Disk, owner: Owner, touched: set<Path>) {
    && OwnedBy(d, owner)
    && EntriesOk(start, before, d.backups, d.manifest.value.entries)
    && Untouched(start, before, d.files, d.manifest.value.entries, touched)
    && Grown(start, before) && Grown(before, d.files) && Tree(d.files)
  }

  ghost predicate RunInv(start: Files, d: Disk, owner: Owner) {
    BatchInv(start, d.files, d, owner, {})
  }

  lemma StartInv(d: Disk, owner: Owner)
    requires Tree(d.files)
    ensures RunInv(d.files, Start(d, owner), owner)
  {
  }

  lemma PreimageExisted(files: Files, p: Path)
    ensures Preimage(files, p).existed == IsRegular(files, p)
  {
  }

  lemma TouchMore(start: Files, before: Files, now: Files, entries: map<Path, Entry>, touched: set<Path>, p: Path)
    requires Untouched(start, before, now, entries, touched)
    ensures Untouched(start, before, now, entries, touched + {p})
  {
  }

  lemma EntriesMore(start: Files, before: Files, backups: map<Path, string>, entries: map<Path, Entry>, p: Path, e: Entry)
    requires EntriesOk(start, before, backups, entries) && PreOk(start, backups, p, e) && PostOk(start, before, p, e)
    ensures EntriesOk(start, before, backups, entries[p := e])
  {
    hide PreOk, PostOk;
  }

  lemma NewUntouched(start: Files, before: Files, now: Files, entries: map<Path, Entry>, touched: set<Path>, p: Path, e: Entry)
    requires Untouched(start, before, now, entries, touched) && p !in entries
    ensures Untouched(start, before, now, entries[p := e], touched + {p})
  {
    hide FileAt;
  }

  lemma NewEntryOk(start: Files, before: Files, d: Disk, owner: Owner, touched: set<Path>, p: Path)
    requires BatchInv(start, before, d, owner, touched) && p !in d.manifest.value.entries && Readable(d.files, p)
    ensures var e := Preimage(d.files, p);
            var backups := if e.existed then d.backups[p := d.files[p].content] else d.backups;
            && PreOk(start, backups, p, e) && PostOk(start, before, p, e)
            && EntriesOk(start, before, backups, d.manifest.value.entries)
  {
    hide Tree;
    assert FileAt(d.files, p) == FileAt(start, p) && FileAt(before, p) == FileAt(start, p);
    if p in start {
      assert p in before && p in d.files;
    }
  }

  lemma CaptureKeeps(start: Files, before: Files, d: Disk, owner: Owner, touched: set<Path>, p: Path)
    requires BatchInv(start, before, d, owner, touched) && Capture(d, owner, p).Some?
    ensures var c := Capture(d, owner, p).value;
            && BatchInv(start, before, c, owner, touched + {p})
            && c.files == d.files && Readable(d.files, p) && p in c.manifest.value.entries
  {
    hide Tree, Creatable, EntriesOk, Grown, Preimage, Untouched, PreOk, PostOk;
    var entries, c := d.manifest.value.entries, Capture(d, owner, p).value;
    if p in entries {
      TouchMore(start, before, d.files, entries, touched, p);
    } else {
      NewEntryOk(start, before, d, owner, touched, p);
      PreimageExisted(d.files, p);
      assert c.backups == if Preimage(d.files, p).existed then d.backups[p := d.files[p].content] else d.backups;
      EntriesMore(start, before, c.backups, entries, p, Preimage(d.files, p));
      NewUntouched(start, before, d.files, entries, touched, p, Preimage(d.files, p));
      assert c.manifest.value.entries == entries[p := Preimage(d.files, p)];
    }
  }

  lemma MakeDirectoriesIs(files: Files, p: Path, q: Path)
    ensures FileAt(MakeDirectories(files, p), q) == FileAt(files, q)
    ensures IsDirectory(MakeDirectories(files, p), q) <==> IsDirectory(files, q) || (q !in files && q in Ancestors(p))
  {
  }

  lemma AncestorsTransitive(p: Path, q: Path, r: Path)
    requires q in Ancestors(p) && r in Ancestors(q)
    ensures r in Ancestors(p)
  {
    var j: nat :| 1 <= j < |p.parts| && q == Path(p.external, p.parts[..j]);
    var k: nat :| 1 <= k < |q.parts| && r == Path(q.external, q.parts[..k]);
    assert r.parts == p.parts[..k];
  }

  lemma NotOwnAncestor(p: Path)
    ensures p !in Ancestors(p)
  {
    forall q | q in Ancestors(p) ensures |q.parts| < |p.parts| {
      var k: nat :| 1 <= k < |p.parts| && q == Path(p.external, p.parts[..k]);
      assert |q.parts| == k;
    }
  }

  lemma MakeDirectoriesTree(files: Files, p: Path)
    requires Tree(files) && Creatable(files, p)
    ensures Tree(MakeDirectories(files, p)) && Grown(files, MakeDirectories(files, p)) && InDirectories(MakeDirectories(files, p), p)
  {
    var made := MakeDirectories(files, p);
    forall q, r | q in made && r in Ancestors(q) ensures IsDirectory(made, r) {
      if q in files {
        assert InDirectories(files, q);
      } else {
        AncestorsTransitive(p, q, r);
      }
    }
  }

  lemma PutTree(files: Files, p: Path, node: Node)
    requires Tree(files) && InDirectories(files, p) && !IsDirectory(files, p) && node.Regular?
    ensures Tree(files[p := node])
  {
    var after := files[p := node];
    forall q, r | q in after && r in Ancestors(q) ensures IsDirectory(after, r) {
      if q != p {
        assert InDirectories(files, q);
      }
    }
  }

  /** Writing a captured file keeps everything but that file. */
  lemma WriteKeeps(start: Files, before: Files, d: Disk, owner: Owner, touched: set<Path>, e: Edit)
    requires BatchInv(start, before, d, owner, touched) && e.path in touched && e.path in d.manifest.value.entries && Readable(d.files, e.path)
    ensures BatchInv(start, before, d.(files := WriteFile(d.files, e)), owner, touched)
  {
    hide EntriesOk, MakeDirectories, Tree, Creatable;
    var made, written := MakeDirectories(d.files, e.path), WriteFile(d.files, e);
    MakeDirectoriesTree(d.files, e.path);
    NotOwnAncestor(e.path);
    MakeDirectoriesIs(d.files, e.path, e.path);
    PutTree(made, e.path, Regular(e.content, Staged(e.mode)));
    forall q | q != e.path ensures FileAt(written, q) == FileAt(d.files, q) {
      MakeDirectoriesIs(d.files, e.path, q);
    }
    assert Grown(d.files, made);
  }

  lemma MadeKeeps(start: Files, before: Files, d: Disk, owner: Owner, touched: set<Path>, p: Path)
    requires BatchInv(start, before, d, owner, touched) && Readable(d.files, p)
    ensures BatchInv(start, before, d.(files := MakeDirectories(d.files, p)), owner, touched)
    ensures Readable(MakeDirectories(d.files, p), p)
  {
    hide EntriesOk, MakeDirectories, Tree;
    MakeDirectoriesTree(d.files, p);
    NotOwnAncestor(p);
    forall q ensures FileAt(MakeDirectories(d.files, p), q) == FileAt(d.files, q) {
      MakeDirectoriesIs(d.files, p, q);
    }
    MakeDirectoriesIs(d.files, p, p);
    InDirectoriesIsCreatable(MakeDirectories(d.files, p), p);
  }

  // ----- performing the edits of a batch -----

  /** Every captured path was written, and its last recorded revision is what it holds. */
  ghost predicate AllWritten(files: Files, entries: map<Path, Entry>, captured: seq<Path>, mutations: seq<Mutation>) {
    && (forall p :: p in captured <==> p in Finals(mutations))
    && (forall p :: p in Finals(mutations) ==> Recordable(files, entries, Finals(mutations), p))
    && (forall k :: 0 <= k < |mutations| ==> mutations[k].revision.Sha256?)
    && |captured| == |mutations|
  }

  ghost predicate AllReadable(files: Files, captured: seq<Path>) {
    forall p :: p in captured ==> Readable(files, p)
  }

  lemma WrittenReadable(files: Files, entries: map<Path, Entry>, captured: seq<Path>, mutations: seq<Mutation>)
    requires AllWritten(files, entries, captured, mutations) && Tree(files) && forall p :: p in captured ==> p.parts != []
    ensures AllReadable(files, captured)
  {
    forall p | p in captured ensures Readable(files, p) {
      assert Recordable(files, entries, Finals(mutations), p);
      assert InDirectories(files, p);
      InDirectoriesIsCreatable(files, p);
    }
  }

  lemma FinalsAppend(mutations: seq<Mutation>, m: Mutation)
    ensures Finals(mutations + [m]) == Finals(mutations)[m.path := m.revision]
  {
    assert (mutations + [m])[..|mutations|] == mutations;
  }

  lemma WrittenMore(files: Files, entries: map<Path, Entry>, captured: seq<Path>, mutations: seq<Mutation>, e: Edit)
    requires AllWritten(files, entries, captured, mutations) && e.path in entries && Readable(files, e.path)
    ensures AllWritten(WriteFile(files, e), entries, captured + [e.path], mutations + [Committed(files, e)])
  {
    hide Finals, MakeDirectories, Readable;
    var m := Committed(files, e);
    FinalsAppend(mutations, m);
    var finals, written := Finals(mutations + [m]), WriteFile(files, e);
    forall p | p in finals ensures Recordable(written, entries, finals, p) {
      if p != e.path {
        assert Recordable(files, entries, Finals(mutations), p);
        MakeDirectoriesIs(files, e.path, p);
      }
    }
  }

  lemma InTree(files: Files, p: Path)
    requires Tree(files) && p in files
    ensures InDirectories(files, p)
  {
  }

  lemma MadeReadable(files: Files, captured: seq<Path>, p: Path)
    requires Readable(files, p) && Tree(files)
    requires forall q :: q in captured ==> IsRegular(files, q) && q.parts != []
    ensures AllReadable(MakeDirectories(files, p), captured + [p])
  {
    hide MakeDirectories, Tree;
    var made := MakeDirectories(files, p);
    MakeDirectoriesTree(files, p);
    forall q | q in captured + [p] ensures Readable(made, q) {
      NotOwnAncestor(p);
      MakeDirectoriesIs(files, p, q);
      if q == p {
        InDirectoriesIsCreatable(made, p);
      } else {
        InTree(made, q);
        InDirectoriesIsCreatable(made, q);
      }
    }
  }

  /** The invariant while a batch is performed. */
  ghost predicate Performing(start: Files, before: Files, d: Disk, owner: Owner, captured: seq<Path>) {
    BatchInv(start, before, d, owner, KeySet(captured)) && forall p :: p in captured ==> p in d.manifest.value.entries
  }

  lemma WrittenPaths(start: Files, before: Files, d: Disk, owner: Owner, captured: seq<Path>, mutations: seq<Mutation>)
    requires Performing(start, before, d, owner, captured) && AllWritten(d.files, d.manifest.value.entries, captured, mutations)
    ensures AllReadable(d.files, captured)
    ensures forall p :: p in captured ==> IsRegular(d.files, p) && p.parts != []
  {
    hide Finals, Untouched, Tree, PostOk, Grown;
    forall p | p in captured ensures IsRegular(d.files, p) && p.parts != [] {
      assert Recordable(d.files, d.manifest.value.entries, Finals(mutations), p);
      assert PreOk(start, d.backups, p, d.manifest.value.entries[p]);
    }
    WrittenReadable(d.files, d.manifest.value.entries, captured, mutations);
  }

  /** One capture within a batch. */
  lemma CaptureInBatch(start: Files, before: Files, d: Disk, owner: Owner, captured: seq<Path>, mutations: seq<Mutation>, p: Path)
    requires Performing(start, before, d, owner, captured) && AllWritten(d.files, d.manifest.value.entries, captured, mutations)
    requires Capture(d, owner, p).Some?
    ensures var c := Capture(d, owner, p).value;
            && c.files == d.files && Readable(c.files, p)
            && Performing(start, before, c, owner, captured + [p])
            && AllWritten(c.files, c.manifest.value.entries, captured, mutations)
            && p in c.manifest.value.entries
  {
    hide BatchInv, Finals, Readable, Preimage;
    CaptureKeeps(start, before, d, owner, KeySet(captured), p);
    var c := Capture(d, owner, p).value;
    assert KeySet(captured + [p]) == KeySet(captured) + {p};
    forall q | q in Finals(mutations) ensures Recordable(c.files, c.manifest.value.entries, Finals(mutations), q) {
      assert Recordable(d.files, d.manifest.value.entries, Finals(mutations), q);
    }
  }

  lemma PerformingOwned(start: Files, before: Files, d: Disk, owner: Owner, captured: seq<Path>)
    requires Performing(start, before, d, owner, captured)
    ensures OwnedBy(d, owner)
  {
  }

  lemma WriteInBatch(start: Files, before: Files, d: Disk, owner: Owner, captured: seq<Path>, e: Edit)
    requires Performing(start, before, d, owner, captured) && e.path in captured && Readable(d.files, e.path)
    ensures Performing(start, before, d.(files := WriteFile(d.files, e)), owner, captured)
  {
    hide BatchInv, WriteFile;
    WriteKeeps(start, before, d, owner, KeySet(captured), e);
  }

  lemma EntryPath(start: Files, before: Files, backups: map<Path, string>, entries: map<Path, Entry>, p: Path)
    requires EntriesOk(start, before, backups, entries) && p in entries
    ensures p.parts != []
  {
  }

  /** The edit that fails was captured, and perhaps its directories were made. */
  lemma StopInBatch(start: Files, before: Files, c: Disk, owner: Owner, captured: seq<Path>, mutations: seq<Mutation>, p: Path, made: bool)
    requires Performing(start, before, c, owner, captured + [p]) && Readable(c.files, p)
    requires AllWritten(c.files, c.manifest.value.entries, captured, mutations)
    ensures var left := if made then c.(files := MakeDirectories(c.files, p)) else c;
            Performing(start, before, left, owner, captured + [p]) && AllReadable(left.files, captured + [p])
  {
    hide MakeDirectories, Finals, EntriesOk, Untouched, Tree, Grown, Creatable;
    assert forall q :: q in captured ==> q in captured + [p];
    forall q | q in captured ensures IsRegular(c.files, q) && q.parts != [] {
      assert Recordable(c.files, c.manifest.value.entries, Finals(mutations), q);
      EntryPath(start, before, c.backups, c.manifest.value.entries, q);
    }
    if made {
      MadeKeeps(start, before, c, owner, KeySet(captured + [p]), p);
      MadeReadable(c.files, captured, p);
    } else {
      WrittenReadable(c.files, c.manifest.value.entries, captured, mutations);
    }
  }

  lemma {:induction false} PerformKeeps(start: Files, before: Files, s: State, owner: Owner, edits: seq<Edit>, stop: Option<nat>, made: bool,
                                        captured: seq<Path>, mutations: seq<Mutation>)
    requires Performing(start, before, Begun(s, owner), owner, captured)
    requires AllWritten(s.disk.files, Begun(s, owner).manifest.value.entries, captured, mutations)
    requires captured != [] ==> s.started
    ensures var p := Perform(s, owner, edits, stop, made, captured, mutations);
            var d := Begun(p.state, owner);
            && Performing(start, before, d, owner, p.captured) && AllReadable(d.files, p.captured)
            && (p.ok ==> AllWritten(d.files, d.manifest.value.entries, p.captured, p.mutations))
            && (p.captured != [] ==> p.state.started) && d.files == p.state.disk.files
    decreases |edits|
  {
    hide Performing, AllWritten, AllReadable, Capture, WriteFile, MakeDirectories, Readable;
    var begun := Begun(s, owner);
    assert begun.files == s.disk.files;
    PerformingOwned(start, before, begun, owner, captured);
    WrittenPaths(start, before, begun, owner, captured, mutations);
    if edits != [] && Capture(begun, owner, edits[0].path).Some? {
      var e, c := edits[0], Capture(begun, owner, edits[0].path).value;
      CaptureInBatch(start, before, begun, owner, captured, mutations, e.path);
      if stop == Some(0) {
        StopInBatch(start, before, c, owner, captured, mutations, e.path, made);
      } else {
        var written := c.(files := WriteFile(c.files, e));
        WriteInBatch(start, before, c, owner, captured + [e.path], e);
        PerformingOwned(start, before, written, owner, captured + [e.path]);
        WrittenMore(c.files, c.manifest.value.entries, captured, mutations, e);
        PerformKeeps(start, before, State(written, true), owner, edits[1..], if stop.Some? then Some(stop.value - 1) else None,
                     made, captured + [e.path], mutations + [Committed(c.files, e)]);
      }
    }
  }

  // ----- the end of a batch -----

  lemma PreOkKept(start: Files, backups: map<Path, string>, p: Path, e: Entry, f: Entry)
    requires PreOk(start, backups, p, e) && SamePreimage(e, f)
    ensures PreOk(start, backups, p, f)
  {
  }

  /** Recording a batch that succeeded cannot fail, and every entry is up to date again. */
  lemma RecordKeeps(start: Files, before: Files, d: Disk, owner: Owner, captured: seq<Path>, mutations: seq<Mutation>)
    requires ValidOwner(owner) && Performing(start, before, d, owner, captured) && mutations != []
    requires AllWritten(d.files, d.manifest.value.entries, captured, mutations)
    ensures Record(d, owner, mutations).Some? && RunInv(start, Record(d, owner, mutations).value, owner)
  {
    hide ValidOwner, Tree, Finals, PreOk;
    var entries, finals := d.manifest.value.entries, Finals(mutations);
    var e := Record(d, owner, mutations).value;
    forall p | p in entries
      ensures var entry := e.manifest.value.entries[p];
              PreOk(start, d.backups, p, entry) && PostOk(start, d.files, p, entry) && entry.captured
    {
      assert PreOk(start, d.backups, p, entries[p]) && PostOk(start, before, p, entries[p]);
      PreOkKept(start, d.backups, p, entries[p], e.manifest.value.entries[p]);
      if p in finals {
        assert Recordable(d.files, entries, finals, p);
      } else {
        assert FileAt(d.files, p) == FileAt(before, p);
      }
    }
  }

  /** The same content, or no file on either side. */
  predicate SameText(files: Files, others: Files, p: Path) {
    IsRegular(files, p) == IsRegular(others, p) && Content(files, p) == Content(others, p)
  }

  lemma RestoredIs(now: Files, before: Files, touched: set<Path>, p: Path)
    requires Grown(before, now)
    ensures var files := Restored(now, before, touched);
            && SameText(files, before, p) && (p !in touched ==> FileAt(files, p) == FileAt(before, p))
            && IsDirectory(files, p) == IsDirectory(now, p)
            && (p in before ==> p in files) && (p in files ==> p in before || IsDirectory(now, p))
            && (Readable(now, p) ==> Readable(files, p))
  {
  }

  /** Exactly which files a failed batch leaves as they were: all but those without permission bits that
      were written and taken back. */
  lemma RestoredExactly(now: Files, before: Files, touched: set<Path>, p: Path)
    requires Grown(before, now)
    ensures FileAt(Restored(now, before, touched), p) == FileAt(before, p) <==>
            p !in touched || !IsRegular(before, p) || before[p].mode != 0
  {
  }

  lemma RestoredTree(now: Files, before: Files, touched: set<Path>)
    requires Grown(before, now) && Tree(now) && Tree(before)
    ensures Tree(Restored(now, before, touched)) && Grown(before, Restored(now, before, touched))
  {
    hide Restored, Readable;
    var restored := Restored(now, before, touched);
    forall p, q | p in restored && q in Ancestors(p) ensures IsDirectory(restored, q) {
      RestoredIs(now, before, touched, p);
      RestoredIs(now, before, touched, q);
      if p in before {
        assert InDirectories(before, p);
        assert q in before && IsDirectory(before, q);
      } else {
        assert InDirectories(now, p);
      }
    }
    forall p | p in before ensures p in restored && IsDirectory(before, p) == IsDirectory(restored, p) {
      RestoredIs(now, before, touched, p);
    }
  }

  ghost predicate SameTexts(before: Files, now: Files) {
    forall p :: SameText(now, before, p)
  }

  lemma PreimageHolds(start: Files, before: Files, files: Files, backups: map<Path, string>, p: Path, e: Entry)
    requires PreOk(start, backups, p, e) && PostOk(start, before, p, e) && !e.captured && SameTexts(before, files)
    ensures AtPreimage(files, p, e)
    ensures var settled := e.(captured := true, postExisted := IsRegular(files, p), postimage := FileRevision(files, p));
            PreOk(start, backups, p, settled) && PostOk(start, before, p, settled)
  {
    assert SameText(files, before, p) && FileAt(before, p) == FileAt(start, p);
  }

  /** Settling a restored batch cannot fail. */
  lemma {:induction false} SettleAllWorks(start: Files, before: Files, files: Files, backups: map<Path, string>, entries: map<Path, Entry>, paths: seq<Path>)
    requires EntriesOk(start, before, backups, entries) && SameTexts(before, files)
    requires forall p :: p in paths ==> p in entries && Readable(files, p)
    ensures var settled := SettleAll(files, entries, paths);
            && settled.Some? && settled.value.Keys == entries.Keys
            && EntriesOk(start, before, backups, settled.value)
            && (forall p :: p in entries && (p in paths || entries[p].captured) ==> settled.value[p].captured)
    decreases |paths|
  {
    hide Readable, PreOk, PostOk, AtPreimage, FileRevision, IsRegular, SameTexts;
    if paths != [] {
      var p := paths[0];
      if entries[p].captured {
        SettleAllWorks(start, before, files, backups, entries, paths[1..]);
      } else {
        PreimageHolds(start, before, files, backups, p, entries[p]);
        var settled := entries[p].(captured := true, postExisted := IsRegular(files, p), postimage := FileRevision(files, p));
        SettleAllWorks(start, before, files, backups, entries[p := settled], paths[1..]);
      }
    }
  }

  lemma EntriesCarry(start: Files, before: Files, now: Files, backups: map<Path, string>, entries: map<Path, Entry>)
    requires EntriesOk(start, before, backups, entries) && SameTexts(before, now)
    requires forall p :: p in entries ==> entries[p].captured || FileAt(now, p) == FileAt(before, p)
    ensures EntriesOk(start, now, backups, entries)
  {
    hide PreOk;
    forall p | p in entries ensures PostOk(start, now, p, entries[p]) {
      assert SameText(now, before, p) && PostOk(start, before, p, entries[p]);
    }
  }

  /** After a failed batch is restored and settled, every entry is up to date again. */
  lemma FailKeeps(start: Files, before: Files, d: Disk, owner: Owner, captured: seq<Path>, touched: set<Path>)
    requires ValidOwner(owner) && Performing(start, before, d, owner, captured) && AllReadable(d.files, captured) && Tree(before)
    requires touched <= KeySet(captured)
    ensures var r := d.(files := Restored(d.files, before, touched));
            && (captured != [] ==> Settle(r, owner, captured).Some? && RunInv(start, Settle(r, owner, captured).value, owner))
            && (captured == [] ==> RunInv(start, r, owner))
  {
    hide ValidOwner, Tree, EntriesOk, Restored, Readable, FileAt, SameText;
    var files, entries := Restored(d.files, before, touched), d.manifest.value.entries;
    forall p ensures SameText(files, before, p) && (p !in touched ==> FileAt(files, p) == FileAt(before, p))
                     && (Readable(d.files, p) ==> Readable(files, p)) {
      RestoredIs(d.files, before, touched, p);
    }
    RestoredTree(d.files, before, touched);
    SettleAllWorks(start, before, files, d.backups, entries, captured);
    EntriesCarry(start, before, files, d.backups, SettleAll(files, entries, captured).value);
    if captured == [] {
      assert touched == {};
      EntriesCarry(start, before, files, d.backups, entries);
    }
  }

  // ----- taking mutations back -----

  /** A mutation is taken back exactly if the file still has the content that it left, and then the file is
      as it was before, as staging leaves it; otherwise nothing is touched. */
  lemma TakeBackIs(files: Files, m: Mutation, p: Path)
    ensures TakeBack(files, m).1 <==> IsRegular(files, m.path) && Sha256(files[m.path].content) == m.revision
    ensures FileAt(TakeBack(files, m).0, p) ==
            if p == m.path && TakeBack(files, m).1 then
              (if m.snapshot.Some? && m.snapshot.value.Regular? then Some(Regular(m.snapshot.value.content, Staged(m.snapshot.value.mode)))
               else None)
            else FileAt(files, p)
  {
  }

  /** A file that somebody changed since, so that it has the content of none of its mutations, stays as it
      is, and the rollback says that it was not complete. */
  lemma {:induction false} ChangedIsKept(files: Files, mutations: seq<Mutation>, p: Path)
    requires forall k :: 0 <= k < |mutations| && mutations[k].path == p && IsRegular(files, p) ==>
               Sha256(files[p].content) != mutations[k].revision
    ensures FileAt(TakeBackAll(files, mutations).0, p) == FileAt(files, p)
    ensures p in Touched(mutations) ==> !TakeBackAll(files, mutations).1
    decreases |mutations|
  {
    hide TakeBack;
    if mutations != [] {
      var n := |mutations| - 1;
      var next := TakeBack(files, mutations[n]).0;
      TakeBackIs(files, mutations[n], p);
      assert FileAt(next, p) == FileAt(files, p);
      ChangedIsKept(next, mutations[..n], p);
    }
  }

  /** A file is staged once more. */
  function Restage(files: Files, p: Path): Files {
    if p in files then files[p := StagedNode(files[p])] else files
  }

  lemma RestageTakeBack(files: Files, p: Path, m: Mutation)
    requires TakeBack(files, m).1
    ensures TakeBack(Restage(files, p), m) == (if m.path == p then TakeBack(files, m).0 else Restage(TakeBack(files, m).0, p), true)
  {
    var left := TakeBack(Restage(files, p), m).0;
    var right := if m.path == p then TakeBack(files, m).0 else Restage(TakeBack(files, m).0, p);
    forall q ensures Lookup(left, q) == Lookup(right, q) {
    }
    SameLookups(left, right);
  }

  /** What was staged once more is taken back like the file itself. */
  lemma {:induction false} RestageTakeBackAll(files: Files, p: Path, mutations: seq<Mutation>)
    requires TakeBackAll(files, mutations).1
    ensures var left := TakeBackAll(files, mutations).0;
            TakeBackAll(Restage(files, p), mutations) == (if p in Touched(mutations) then left else Restage(left, p), true)
    decreases |mutations|
  {
    hide TakeBack, Restage;
    if mutations != [] {
      var m, rest := mutations[|mutations| - 1], mutations[..|mutations| - 1];
      assert mutations == rest + [m];
      assert Touched(mutations) == Touched(rest) + {m.path};
      RestageTakeBack(files, p, m);
      if m.path != p {
        RestageTakeBackAll(TakeBack(files, m).0, p, rest);
      }
    }
  }

  lemma TakeBackBeside(files: Files, p: Path, m: Mutation)
    requires m.path !in Ancestors(p)
    ensures TakeBack(MakeDirectories(files, p), m) == (MakeDirectories(TakeBack(files, m).0, p), TakeBack(files, m).1)
  {
    MakeDirectoriesIs(files, p, m.path);
    if TakeBack(files, m).1 {
      var left, right := TakeBack(MakeDirectories(files, p), m).0, MakeDirectories(TakeBack(files, m).0, p);
      forall q ensures Lookup(left, q) == Lookup(right, q) {
      }
      SameLookups(left, right);
    }
  }

  /** Directories made meanwhile stay when mutations elsewhere are taken back. */
  lemma {:induction false} TakeBackBesides(files: Files, p: Path, mutations: seq<Mutation>)
    requires forall k :: 0 <= k < |mutations| ==> mutations[k].path !in Ancestors(p)
    ensures var (left, ok) := TakeBackAll(files, mutations);
            TakeBackAll(MakeDirectories(files, p), mutations) == (MakeDirectories(left, p), ok)
    decreases |mutations|
  {
    hide TakeBack, MakeDirectories;
    if mutations != [] {
      var m, rest := mutations[|mutations| - 1], mutations[..|mutations| - 1];
      TakeBackBeside(files, p, m);
      TakeBackBesides(TakeBack(files, m).0, p, rest);
    }
  }

  lemma RestoredBesides(now: Files, before: Files, touched: set<Path>, p: Path)
    requires Grown(before, now) && Creatable(now, p)
    ensures Restored(MakeDirectories(now, p), before, touched) == MakeDirectories(Restored(now, before, touched), p)
  {
    var left, right := Restored(MakeDirectories(now, p), before, touched), MakeDirectories(Restored(now, before, touched), p);
    forall q ensures Lookup(left, q) == Lookup(right, q) {
    }
    SameLookups(left, right);
  }

  /** Taking the mutations back restores the files from before the batch, as staging leaves them. */
  ghost predicate TakesBack(before: Files, files: Files, mutations: seq<Mutation>) {
    && Grown(before, files) && TakeBackAll(files, mutations) == (Restored(files, before, Touched(mutations)), true)
    && forall k :: 0 <= k < |mutations| ==> IsRegular(files, mutations[k].path)
  }

  lemma StillThere(files: Files, p: Path, q: Path)
    ensures q in files ==> q in MakeDirectories(files, p)
  {
  }

  lemma MadeTakesBack(before: Files, files: Files, mutations: seq<Mutation>, p: Path)
    requires TakesBack(before, files, mutations) && Creatable(files, p)
    ensures TakesBack(before, MakeDirectories(files, p), mutations)
  {
    hide MakeDirectories, Restored, TakeBackAll;
    TakeBackBesides(files, p, mutations);
    RestoredBesides(files, before, Touched(mutations), p);
    forall q ensures FileAt(MakeDirectories(files, p), q) == FileAt(files, q)
                     && (q in files ==> q in MakeDirectories(files, p) && IsDirectory(MakeDirectories(files, p), q) == IsDirectory(files, q)) {
      MakeDirectoriesIs(files, p, q);
      StillThere(files, p, q);
    }
  }

  lemma TakeBackLast(files: Files, mutations: seq<Mutation>)
    requires mutations != []
    ensures var (next, ok) := TakeBack(files, mutations[|mutations| - 1]);
            var (rest, others) := TakeBackAll(next, mutations[..|mutations| - 1]);
            TakeBackAll(files, mutations) == (rest, ok && others)
  {
  }

  /** Taking back the write of a file leaves that file staged. */
  lemma TakeBackWrite(files: Files, m: Mutation, node: Node)
    requires node.Regular? && m.revision == Revision(true, node.content)
    requires m.snapshot == FileAt(files, m.path) && !IsDirectory(files, m.path)
    ensures TakeBack(files[m.path := node], m) == (Restage(files, m.path), true)
  {
    var back := TakeBack(files[m.path := node], m).0;
    forall q ensures Lookup(back, q) == Lookup(Restage(files, m.path), q) {
    }
    SameLookups(back, Restage(files, m.path));
  }

  lemma RestoredMore(before: Files, files: Files, touched: set<Path>, p: Path, node: Node)
    requires Grown(before, files) && node.Regular? && !IsDirectory(files, p)
    ensures Restored(files[p := node], before, touched + {p}) ==
            (if p in touched then Restored(files, before, touched) else Restage(Restored(files, before, touched), p))
  {
    var left := Restored(files[p := node], before, touched + {p});
    var right := if p in touched then Restored(files, before, touched) else Restage(Restored(files, before, touched), p);
    forall q ensures Lookup(left, q) == Lookup(right, q) {
    }
    SameLookups(left, right);
  }

  lemma PutTakesBack(before: Files, files: Files, mutations: seq<Mutation>, m: Mutation, node: Node)
    requires TakesBack(before, files, mutations) && node.Regular? && m.revision == Revision(true, node.content)
    requires m.snapshot == FileAt(files, m.path) && !IsDirectory(files, m.path)
    ensures TakesBack(before, files[m.path := node], mutations + [m])
  {
    hide TakeBackAll, TakeBack, Restored, Restage;
    var after, all := files[m.path := node], mutations + [m];
    assert all[..|mutations|] == mutations;
    TakeBackWrite(files, m, node);
    TakeBackLast(after, all);
    RestageTakeBackAll(files, m.path, mutations);
    assert Touched(all) == Touched(mutations) + {m.path};
    RestoredMore(before, files, Touched(mutations), m.path, node);
  }

  lemma CaptureReads(d: Disk, owner: Owner, p: Path)
    requires Capture(d, owner, p).Some?
    ensures Capture(d, owner, p).value.files == d.files && Creatable(d.files, p)
    ensures var made := MakeDirectories(d.files, p); !IsDirectory(made, p) && FileAt(made, p) == FileAt(d.files, p)
  {
    hide MakeDirectories;
    MakeDirectoriesIs(d.files, p, p);
    NotOwnAncestor(p);
  }

  lemma {:induction false} PerformTakesBack(before: Files, s: State, owner: Owner, edits: seq<Edit>, stop: Option<nat>, made: bool,
                                            captured: seq<Path>, mutations: seq<Mutation>)
    requires TakesBack(before, s.disk.files, mutations)
    ensures var p := Perform(s, owner, edits, stop, made, captured, mutations);
            TakesBack(before, p.state.disk.files, p.mutations)
    decreases |edits|
  {
    hide TakesBack, Capture, MakeDirectories, Readable;
    var begun := Begun(s, owner);
    assert begun.files == s.disk.files;
    if edits != [] && Capture(begun, owner, edits[0].path).Some? {
      var e, c := edits[0], Capture(begun, owner, edits[0].path).value;
      CaptureReads(begun, owner, e.path);
      MadeTakesBack(before, c.files, mutations, e.path);
      if stop != Some(0) {
        PutTakesBack(before, MakeDirectories(c.files, e.path), mutations, Committed(c.files, e), Regular(e.content, Staged(e.mode)));
        PerformTakesBack(before, State(c.(files := WriteFile(c.files, e)), true), owner, edits[1..],
                         if stop.Some? then Some(stop.value - 1) else None, made, captured + [e.path], mutations + [Committed(c.files, e)]);
      }
    }
  }

  lemma {:induction false} PerformTouches(s: State, owner: Owner, edits: seq<Edit>, stop: Option<nat>, made: bool,
                                          captured: seq<Path>, mutations: seq<Mutation>)
    requires Touched(mutations) <= KeySet(captured)
    ensures var p := Perform(s, owner, edits, stop, made, captured, mutations); Touched(p.mutations) <= KeySet(p.captured)
    decreases |edits|
  {
    hide Capture, MakeDirectories;
    if edits != [] && Capture(Begun(s, owner), owner, edits[0].path).Some? {
      var e, c := edits[0], Capture(Begun(s, owner), owner, edits[0].path).value;
      assert KeySet(captured + [e.path]) == KeySet(captured) + {e.path};
      assert Touched(mutations + [Committed(c.files, e)]) == Touched(mutations) + {e.path};
      if stop != Some(0) {
        PerformTouches(State(c.(files := WriteFile(c.files, e)), true), owner, edits[1..],
                       if stop.Some? then Some(stop.value - 1) else None, made, captured + [e.path], mutations + [Committed(c.files, e)]);
      }
    }
  }

  lemma NothingToTakeBack(files: Files)
    ensures TakesBack(files, files, [])
  {
    assert Restored(files, files, Touched([])) == files;
  }

  lemma NothingWritten(files: Files, d: Disk, owner: Owner)
    requires d.manifest.Some?
    ensures AllWritten(files, d.manifest.value.entries, [], [])
  {
  }

  lemma TreeOf(start: Files, d: Disk, owner: Owner)
    requires RunInv(start, d, owner)
    ensures Tree(d.files) && OwnedBy(d, owner)
  {
  }

  lemma EntriesSame(start: Files, before: Files, now: Files, backups: map<Path, string>, entries: map<Path, Entry>)
    requires EntriesOk(start, before, backups, entries) && forall p :: p in entries ==> FileAt(now, p) == FileAt(before, p)
    ensures EntriesOk(start, now, backups, entries)
  {
    hide PreOk;
    forall p | p in entries ensures PostOk(start, now, p, entries[p]) {
      assert PostOk(start, before, p, entries[p]);
    }
  }

  lemma NothingCaptured(start: Files, before: Files, d: Disk, owner: Owner, captured: seq<Path>, mutations: seq<Mutation>)
    requires Performing(start, before, d, owner, captured) && mutations == []
    requires AllWritten(d.files, d.manifest.value.entries, captured, mutations)
    ensures RunInv(start, d, owner)
  {
    hide Tree, EntriesOk, FileAt;
    assert KeySet(captured) == {};
    var entries := d.manifest.value.entries;
    EntriesSame(start, before, d.files, d.backups, entries);
  }

  lemma {:induction false} PerformStarts(s: State, owner: Owner, edits: seq<Edit>, stop: Option<nat>, made: bool, captured: seq<Path>, mutations: seq<Mutation>)
    ensures var p := Perform(s, owner, edits, stop, made, captured, mutations);
            && (s.started || edits != [] ==> p.state.started)
            && (!p.state.started ==> p.state == s && p.ok && p.mutations == mutations)
    decreases |edits|
  {
    hide Capture, WriteFile, MakeDirectories;
    if edits != [] && Capture(Begun(s, owner), owner, edits[0].path).Some? && stop != Some(0) {
      var e, d := edits[0], Capture(Begun(s, owner), owner, edits[0].path).value;
      PerformStarts(State(d.(files := WriteFile(d.files, e)), true), owner, edits[1..],
                    if stop.Some? then Some(stop.value - 1) else None, made, captured + [e.path],
                    mutations + [Committed(d.files, e)]);
    }
  }

  lemma BatchKeeps(start: Files, s: State, owner: Owner, batch: Batch)
    requires ValidOwner(owner) && RunInv(start, Begun(s, owner), owner)
    ensures RunInv(start, Begun(RunBatch(s, owner, batch), owner), owner)
    ensures s.started ==> RunBatch(s, owner, batch).started
    ensures batch.edits != [] ==> RunBatch(s, owner, batch).started
  {
    hide BatchInv, ValidOwner, Record, Settle, AllWritten, AllReadable;
    var d := Begun(s, owner);
    assert KeySet([]) == {};
    assert Finals([]) == map[];
    assert Performing(start, d.files, d, owner, []);
    TreeOf(start, d, owner);
    NothingWritten(d.files, d, owner);
    PerformKeeps(start, d.files, s, owner, batch.edits, batch.stop, batch.made, [], []);
    PerformStarts(s, owner, batch.edits, batch.stop, batch.made, [], []);
    var p := Perform(s, owner, batch.edits, batch.stop, batch.made, [], []);
    var e := Begun(p.state, owner);
    PerformTouches(s, owner, batch.edits, batch.stop, batch.made, [], []);
    FailKeeps(start, d.files, e, owner, p.captured, Touched(p.mutations));
    NothingToTakeBack(d.files);
    PerformTakesBack(d.files, s, owner, batch.edits, batch.stop, batch.made, [], []);
    if p.ok {
      if p.mutations == [] {
        NothingCaptured(start, d.files, e, owner, p.captured, p.mutations);
      } else {
        RecordKeeps(start, d.files, e, owner, p.captured, p.mutations);
      }
    }
  }

  lemma {:induction false} BatchesKeep(start: Files, s: State, owner: Owner, batches: seq<Batch>)
    requires ValidOwner(owner) && RunInv(start, Begun(s, owner), owner)
    ensures RunInv(start, Begun(RunBatches(s, owner, batches), owner), owner)
    decreases |batches|
  {
    hide RunBatch, RunInv, ValidOwner;
    if batches != [] {
      BatchKeeps(start, s, owner, batches[0]);
      BatchesKeep(start, RunBatch(s, owner, batches[0]), owner, batches[1..]);
    }
  }

  // ----- a run that dies within a batch -----

  /** The entries of earlier batches are as they were, the others have a preimage and no postimage yet. */
  ghost predicate Begins(earlier: map<Path, Entry>, entries: map<Path, Entry>) {
    && (forall p :: p in earlier ==> p in entries && entries[p] == earlier[p])
    && (forall p :: p in entries && p !in earlier ==>
          !entries[p].captured && !entries[p].postExisted && entries[p].postimage == NOTHING_RECORDED)
  }

  lemma CaptureBegins(earlier: map<Path, Entry>, d: Disk, owner: Owner, p: Path)
    requires d.manifest.Some? && Begins(earlier, d.manifest.value.entries) && Capture(d, owner, p).Some?
    ensures var c := Capture(d, owner, p).value; c.manifest.Some? && Begins(earlier, c.manifest.value.entries)
  {
    hide Readable, IsRegular, Revision;
    var entries, c := d.manifest.value.entries, Capture(d, owner, p).value;
    if p !in entries {
      assert c.manifest.value.entries == entries[p := Preimage(d.files, p)];
    }
  }

  lemma {:induction false} PerformBegins(earlier: map<Path, Entry>, s: State, owner: Owner, edits: seq<Edit>, stop: Option<nat>, made: bool,
                                         captured: seq<Path>, mutations: seq<Mutation>)
    requires Begun(s, owner).manifest.Some? && Begins(earlier, Begun(s, owner).manifest.value.entries)
    ensures var d := Begun(Perform(s, owner, edits, stop, made, captured, mutations).state, owner);
            d.manifest.Some? && Begins(earlier, d.manifest.value.entries)
    decreases |edits|
  {
    hide Begins, Capture, MakeDirectories, WriteFile;
    var begun := Begun(s, owner);
    if edits != [] && Capture(begun, owner, edits[0].path).Some? {
      var e, c := edits[0], Capture(begun, owner, edits[0].path).value;
      CaptureBegins(earlier, begun, owner, e.path);
      if stop != Some(0) {
        PerformBegins(earlier, State(c.(files := WriteFile(c.files, e)), true), owner, edits[1..],
                      if stop.Some? then Some(stop.value - 1) else None, made, captured + [e.path], mutations + [Committed(c.files, e)]);
      }
    }
  }

  /** What is on the disk when the process dies within a batch: some edits were made, perhaps one more was
      begun, and nothing of it was recorded, taken back or settled. */
  function Dies(s: State, owner: Owner, last: Batch): State {
    Perform(s, owner, last.edits, last.stop, last.made, [], []).state
  }

  /** The entries that the finished batches of a run have made. */
  function Entries(s: State, owner: Owner): map<Path, Entry> {
    var d := Begun(s, owner);
    if d.manifest.Some? then d.manifest.value.entries else map[]
  }

  /** What the manifest says after such a death: each preimage is the file of the start, entries of
      finished batches have the state at the end of those batches as their postimage, new ones have none. */
  ghost predicate LeftEntry(start: Files, before: Files, d: Disk, earlier: map<Path, Entry>, p: Path, e: Entry) {
    && PreOk(start, d.backups, p, e) && e.captured == (p in earlier)
    && if e.captured then e.postExisted == IsRegular(before, p) && e.postimage == FileRevision(before, p)
       else !e.postExisted && e.postimage == NOTHING_RECORDED
  }

  lemma DeathKeeps(start: Files, s: State, owner: Owner, last: Batch, p: Path)
    requires ValidOwner(owner) && RunInv(start, Begun(s, owner), owner)
    requires p in Entries(Dies(s, owner, last), owner)
    ensures var d := Begun(Dies(s, owner, last), owner);
            LeftEntry(start, s.disk.files, d, Entries(s, owner), p, d.manifest.value.entries[p])
  {
    hide ValidOwner, AllWritten, AllReadable, Tree, Grown, Perform;
    var d := Begun(s, owner);
    assert KeySet([]) == {};
    assert Finals([]) == map[];
    assert Performing(start, d.files, d, owner, []);
    NothingWritten(d.files, d, owner);
    PerformKeeps(start, d.files, s, owner, last.edits, last.stop, last.made, [], []);
    PerformBegins(Entries(s, owner), s, owner, last.edits, last.stop, last.made, [], []);
    var left := Begun(Dies(s, owner, last), owner);
    assert PreOk(start, left.backups, p, left.manifest.value.entries[p]) && PostOk(start, d.files, p, left.manifest.value.entries[p]);
  }

  lemma DeathOwned(start: Files, s: State, owner: Owner, last: Batch)
    requires ValidOwner(owner) && RunInv(start, Begun(s, owner), owner)
    ensures OwnedBy(Begun(Dies(s, owner, last), owner), owner)
  {
    hide ValidOwner, AllWritten, AllReadable, Tree, Grown, Perform;
    var d := Begun(s, owner);
    assert KeySet([]) == {};
    assert Finals([]) == map[];
    assert Performing(start, d.files, d, owner, []);
    NothingWritten(d.files, d, owner);
    PerformKeeps(start, d.files, s, owner, last.edits, last.stop, last.made, [], []);
  }

  /** A file that the dying run changed is in the manifest and can be read, and its backup is there. */
  lemma ChangedIsReadable(start: Files, s: State, owner: Owner, last: Batch, p: Path)
    requires ValidOwner(owner) && RunInv(start, Begun(s, owner), owner)
    requires FileRevision(Begun(Dies(s, owner, last), owner).files, p) != FileRevision(start, p)
    ensures var d := Begun(Dies(s, owner, last), owner);
            && p in Entries(Dies(s, owner, last), owner) && Readable(d.files, p)
            && (IsRegular(start, p) ==> p in d.backups && Revision(true, d.backups[p]) == FileRevision(start, p))
  {
    hide ValidOwner, AllWritten, AllReadable, Tree, Perform, Creatable;
    var d := Begun(s, owner);
    assert KeySet([]) == {};
    assert Finals([]) == map[];
    assert Performing(start, d.files, d, owner, []);
    NothingWritten(d.files, d, owner);
    PerformKeeps(start, d.files, s, owner, last.edits, last.stop, last.made, [], []);
    var left := Begun(Dies(s, owner, last), owner);
    assert p in left.manifest.value.entries by {
      assert FileAt(left.files, p) != FileAt(start, p);
    }
    assert PreOk(start, left.backups, p, left.manifest.value.entries[p]);
    if IsRegular(start, p) {
      assert p in d.files && p in left.files;
    }
    InTree(left.files, p);
    InDirectoriesIsCreatable(left.files, p);
  }

  // ----- undoing the run -----

  /** Nothing stands in the way of undoing an entry: full mode for files outside the workspace, its
      directory exists, and no directory has taken its place. */
  predicate Clear(files: Files, p: Path, allowExternal: bool) {
    (p.external ==> allowExternal) && HasParent(files, p) && !IsDirectory(files, p)
  }

  lemma EntryWellFormed(start: Files, d: Disk, p: Path, e: Entry)
    requires PreOk(start, d.backups, p, e) && PostOk(start, d.files, p, e) && e.captured
    ensures WellFormed(e) && (e.existed ==> BackupOk(d, e, {})) && p.parts != [] && e.backup in {None, Some(p)}
    ensures !IsDirectory(d.files, p) ==> StatusOf(d.files, p, e) != Conflict
  {
  }

  lemma EntryFits(start: Files, d: Disk, owner: Owner, p: Path, allowExternal: bool)
    requires RunInv(start, d, owner) && p in d.manifest.value.entries
    ensures Fit(d, p, allowExternal) <==> Clear(d.files, p, allowExternal)
  {
    hide Grown, Tree, Fit, HasParent, InDirectories;
    var e := d.manifest.value.entries[p];
    assert PreOk(start, d.backups, p, e) && PostOk(start, d.files, p, e) && e.captured;
    EntryWellFormed(start, d, p, e);
    if HasParent(d.files, p) {
      ParentMeansAll(d.files, p);
    }
    FitIs(d, p, allowExternal);
  }

  /** The restored node of an entry is the file that was there at the start. */
  lemma UndoneIsStart(start: Files, d: Disk, p: Path, e: Entry)
    requires PreOk(start, d.backups, p, e) && PostOk(start, d.files, p, e) && e.captured && !IsDirectory(d.files, p)
    ensures var node := UndoneNode(d, p, e);
            && (node.Some? ==> node.value.Regular?) && (node.Some? == IsRegular(start, p))
            && (node.Some? ==> node.value.content == start[p].content)
            && node == if AtPre(d.files, p, e) then FileAt(d.files, p) else FileAt(start, p)
  {
  }

  ghost predicate Enumerates(keys: seq<Path>, entries: map<Path, Entry>) {
    DistinctKeys(keys) && KeySet(keys) == entries.Keys
  }

  lemma RunSelects(start: Files, d: Disk, owner: Owner, keys: seq<Path>)
    requires RunInv(start, d, owner) && Enumerates(keys, d.manifest.value.entries)
    ensures Selection(d, keys)
  {
    hide Grown, Tree, PreOk, PostOk;
    forall p | p in d.manifest.value.entries ensures d.manifest.value.entries[p].backup in {None, Some(p)} {
      var e := d.manifest.value.entries[p];
      assert PreOk(start, d.backups, p, e) && PostOk(start, d.files, p, e) && e.captured;
      EntryWellFormed(start, d, p, e);
    }
    forall k | 0 <= k < |keys| ensures keys[k] in d.manifest.value.entries {
      assert keys[k] in KeySet(keys);
    }
  }

  /** After the undo, a path holds the very file it held at the start, mode included, and a directory
      exactly if it held one before the undo. Only a file that the undo found with its first content
      already is left as it is: its content is that of the start, its mode may be another. */
  ghost predicate BackAt(start: Files, d: Disk, after: Files, p: Path)
    requires d.manifest.Some?
  {
    var entries := d.manifest.value.entries;
    && SameText(after, start, p) && IsDirectory(after, p) == IsDirectory(d.files, p)
    && FileAt(after, p) == if p in entries && AtPre(d.files, p, entries[p]) then FileAt(d.files, p) else FileAt(start, p)
  }

  lemma UndoneRun(start: Files, d: Disk, owner: Owner, allowExternal: bool, p: Path)
    requires RunInv(start, d, owner) && AllFit(d, d.manifest.value.entries.Keys, allowExternal)
    ensures var e := UndoneDisk(d, d.manifest.value.entries.Keys);
            BackAt(start, d, e.files, p) && e.manifest == None
  {
    hide Grown, Tree, PreOk, PostOk, Fit, UndoneFiles, UndoneNode, AtPre;
    var entries := d.manifest.value.entries;
    assert entries - entries.Keys == map[];
    UndoneAt(d, entries.Keys, p);
    UndoneDirectories(d, entries.Keys, allowExternal, p);
    if p in entries {
      EntryFits(start, d, owner, p, allowExternal);
      assert PreOk(start, d.backups, p, entries[p]) && PostOk(start, d.files, p, entries[p]) && entries[p].captured;
      UndoneIsStart(start, d, p, entries[p]);
    } else {
      assert FileAt(d.files, p) == FileAt(start, p);
    }
  }

  /** Whole-run undo: after any batches, a full undo succeeds exactly when nothing stands in the way of
      any entry. Then every file is back as it was at the start of the run (with its mode, unless the undo
      found its content restored already), and the checkpoint is gone; otherwise nothing is changed. */
  lemma WholeRunUndo(d0: Disk, owner: Owner, batches: seq<Batch>, keys: seq<Path>, allowExternal: bool, env: Env)
    requires ValidOwner(owner) && Tree(d0.files) && Quiet(env)
    requires var s := RunBatches(State(d0, false), owner, batches);
             s.started && s.disk.manifest.Some? && Enumerates(keys, s.disk.manifest.value.entries)
    ensures var d := RunBatches(State(d0, false), owner, batches).disk;
            && (forall k :: 0 <= k < |keys| ==> keys[k] in d.manifest.value.entries)
            && var o := UndoKeys(d, keys, allowExternal, env);
               if forall p :: p in d.manifest.value.entries ==> Clear(d.files, p, allowExternal) then
                 o.result.Done? && o.disk.manifest == None && forall p :: BackAt(d0.files, d, o.disk.files, p)
               else o.result == Refused && o.disk == d
  {
    hide RunBatches, BatchInv, UndoKeys, UndoneDisk, Fit, Clear, ValidOwner, BackAt, Tree;
    StartInv(d0, owner);
    BatchesKeep(d0.files, State(d0, false), owner, batches);
    var d := RunBatches(State(d0, false), owner, batches).disk;
    RunSelects(d0.files, d, owner, keys);
    UndoneExactly(d, keys, allowExternal, env);
    forall p | p in d.manifest.value.entries ensures Fit(d, p, allowExternal) == Clear(d.files, p, allowExternal) {
      EntryFits(d0.files, d, owner, p, allowExternal);
    }
    if AllFit(d, KeySet(keys), allowExternal) {
      forall p ensures BackAt(d0.files, d, UndoneDisk(d, KeySet(keys)).files, p) {
        UndoneRun(d0.files, d, owner, allowExternal, p);
      }
      UndoneRun(d0.files, d, owner, allowExternal, Path(false, []));
    }
  }

  // ----- modes -----

  /** The edits leave every file that was there at the start with the mode it had, which is not empty:
      the tools do the former, and give a file without permission bits the default ones. */
  predicate KeepModes(start: Files, edits: seq<Edit>) {
    forall e :: e in edits && IsRegular(start, e.path) ==> e.mode == start[e.path].mode != 0
  }

  ghost predicate SameModes(start: Files, now: Files) {
    forall p :: IsRegular(start, p) && IsRegular(now, p) ==> now[p].mode == start[p].mode
  }

  lemma WriteSameModes(start: Files, files: Files, e: Edit)
    requires SameModes(start, files) && (IsRegular(start, e.path) ==> e.mode == start[e.path].mode != 0)
    ensures SameModes(start, MakeDirectories(files, e.path)) && SameModes(start, WriteFile(files, e))
  {
  }

  /** None of the files was without permission bits at the start. */
  predicate HaveModes(start: Files, paths: set<Path>) {
    forall p :: p in paths && IsRegular(start, p) ==> start[p].mode != 0
  }

  lemma {:induction false} PerformSameModes(start: Files, s: State, owner: Owner, edits: seq<Edit>, stop: Option<nat>, made: bool,
                                            captured: seq<Path>, mutations: seq<Mutation>)
    requires SameModes(start, s.disk.files) && KeepModes(start, edits) && HaveModes(start, Touched(mutations))
    ensures var p := Perform(s, owner, edits, stop, made, captured, mutations);
            SameModes(start, p.state.disk.files) && HaveModes(start, Touched(p.mutations))
    decreases |edits|
  {
    hide SameModes, Capture, WriteFile, MakeDirectories;
    var begun := Begun(s, owner);
    assert begun.files == s.disk.files;
    if edits != [] && Capture(begun, owner, edits[0].path).Some? {
      var e, c := edits[0], Capture(begun, owner, edits[0].path).value;
      CaptureReads(begun, owner, e.path);
      WriteSameModes(start, c.files, e);
      assert Touched(mutations + [Committed(c.files, e)]) == Touched(mutations) + {e.path};
      if stop != Some(0) {
        PerformSameModes(start, State(c.(files := WriteFile(c.files, e)), true), owner, edits[1..],
                         if stop.Some? then Some(stop.value - 1) else None, made, captured + [e.path], mutations + [Committed(c.files, e)]);
      }
    }
  }

  lemma RestoredSameModes(start: Files, before: Files, now: Files, touched: set<Path>)
    requires SameModes(start, before) && HaveModes(start, touched)
    ensures SameModes(start, Restored(now, before, touched))
  {
  }

  lemma NothingTouched(start: Files)
    ensures HaveModes(start, Touched([]))
  {
  }

  lemma RecordReads(d: Disk, owner: Owner, mutations: seq<Mutation>, paths: seq<Path>)
    ensures Record(d, owner, mutations).Some? ==> Record(d, owner, mutations).value.files == d.files
    ensures Settle(d, owner, paths).Some? ==> Settle(d, owner, paths).value.files == d.files
  {
    hide SettleAll, Finals, Recordable, ValidOwner;
  }

  lemma BatchSameModes(start: Files, s: State, owner: Owner, batch: Batch)
    requires SameModes(start, s.disk.files) && KeepModes(start, batch.edits)
    ensures SameModes(start, RunBatch(s, owner, batch).disk.files)
  {
    hide SameModes, Record, Settle, Perform, KeepModes, Restored, HaveModes;
    NothingTouched(start);
    var p := Perform(s, owner, batch.edits, batch.stop, batch.made, [], []);
    PerformSameModes(start, s, owner, batch.edits, batch.stop, batch.made, [], []);
    NothingToTakeBack(s.disk.files);
    PerformTakesBack(s.disk.files, s, owner, batch.edits, batch.stop, batch.made, [], []);
    RestoredSameModes(start, s.disk.files, p.state.disk.files, Touched(p.mutations));
    var restored := p.state.disk.(files := TakeBackAll(p.state.disk.files, p.mutations).0);
    RecordReads(p.state.disk, owner, p.mutations, p.captured);
    RecordReads(restored, owner, p.mutations, p.captured);
  }

  lemma {:induction false} BatchesSameModes(start: Files, s: State, owner: Owner, batches: seq<Batch>)
    requires SameModes(start, s.disk.files) && forall b :: b in batches ==> KeepModes(start, b.edits)
    ensures SameModes(start, RunBatches(s, owner, batches).disk.files)
    decreases |batches|
  {
    hide SameModes, RunBatch, KeepModes;
    if batches != [] {
      BatchSameModes(start, s, owner, batches[0]);
      BatchesSameModes(start, RunBatch(s, owner, batches[0]), owner, batches[1..]);
    }
  }

  lemma BackExactly(start: Files, d: Disk, after: Files, p: Path)
    requires d.manifest.Some? && BackAt(start, d, after, p) && SameModes(start, d.files)
    ensures FileAt(after, p) == FileAt(start, p)
  {
    hide AtPre;
  }

  lemma SelfSameModes(files: Files)
    ensures SameModes(files, files)
  {
  }

  /** When no edit changes the mode of a file that was there at the start, and none is to a file without
      permission bits, an undo that succeeds leaves exactly the files of the start: the same paths,
      contents and modes. */
  lemma ExactRunUndo(d0: Disk, owner: Owner, batches: seq<Batch>, keys: seq<Path>, allowExternal: bool, env: Env)
    requires ValidOwner(owner) && Tree(d0.files) && Quiet(env)
    requires forall b :: b in batches ==> KeepModes(d0.files, b.edits)
    requires var s := RunBatches(State(d0, false), owner, batches);
             s.started && s.disk.manifest.Some? && Enumerates(keys, s.disk.manifest.value.entries)
    ensures var d := RunBatches(State(d0, false), owner, batches).disk;
            && (forall k :: 0 <= k < |keys| ==> keys[k] in d.manifest.value.entries)
            && var o := UndoKeys(d, keys, allowExternal, env);
               o.result.Done? ==> forall p :: FileAt(o.disk.files, p) == FileAt(d0.files, p)
  {
    hide RunBatches, UndoKeys, Clear, ValidOwner, BackAt, Tree, KeepModes, SameModes, FileAt, Enumerates;
    WholeRunUndo(d0, owner, batches, keys, allowExternal, env);
    var d := RunBatches(State(d0, false), owner, batches).disk;
    SelfSameModes(d0.files);
    BatchesSameModes(d0.files, State(d0, false), owner, batches);
    var o := UndoKeys(d, keys, allowExternal, env);
    if o.result.Done? {
      forall p ensures FileAt(o.disk.files, p) == FileAt(d0.files, p) {
        assert BackAt(d0.files, d, o.disk.files, p);
        BackExactly(d0.files, d, o.disk.files, p);
      }
    }
  }

  lemma StillReadable(files: Files, e: Edit)
    requires Readable(files, e.path)
    ensures Readable(WriteFile(files, e), e.path)
  {
    NotOwnAncestor(e.path);
  }

  lemma OneBatch(s: State, owner: Owner, batch: Batch)
    ensures RunBatches(s, owner, [batch]) == RunBatch(s, owner, batch)
  {
    hide RunBatch;
    assert [batch][1..] == [];
    assert RunBatches(RunBatch(s, owner, batch), owner, []) == RunBatch(s, owner, batch);
  }

  /** Two edits of the same file, the second of which fails. */
  lemma EditedTwice(d0: Disk, owner: Owner, e: Edit)
    requires ValidOwner(owner) && Readable(d0.files, e.path) && IsRegular(d0.files, e.path)
    ensures var p, m := Perform(State(d0, false), owner, [e, e], Some(1), false, [], []), Committed(d0.files, e);
            !p.ok && p.mutations == [m] && p.state.disk.files == WriteFile(d0.files, e)
  {
    hide ValidOwner, Readable, MakeDirectories, Preimage;
    var s0 := State(d0, false);
    var c := Capture(Start(d0, owner), owner, e.path).value;
    var written, m := c.(files := WriteFile(d0.files, e)), Committed(d0.files, e);
    assert Capture(written, owner, e.path) == Some(written) by {
      StillReadable(d0.files, e);
    }
    assert [e, e][1..] == [e] && [] + [m] == [m] && [] + [e.path] == [e.path];
    assert Perform(State(written, true), owner, [e], Some(0), false, [e.path], [m]) ==
           Performed(State(written, true), [e.path] + [e.path], [m], false);
    assert Perform(s0, owner, [e, e], Some(1), false, [], []) ==
           Perform(State(written, true), owner, [e], Some(0), false, [e.path], [m]);
  }

  lemma OneTakenBack(files: Files, m: Mutation)
    ensures TakeBackAll(files, [m]).0 == TakeBack(files, m).0
  {
    hide TakeBack;
    assert [m][..0] == [];
  }

  /** A batch that edits a file without permission bits and then fails leaves the file with the default
      ones. */
  lemma EmptyModeIsLost(d0: Disk, owner: Owner, e: Edit)
    requires ValidOwner(owner) && Readable(d0.files, e.path) && IsRegular(d0.files, e.path) && d0.files[e.path].mode == 0
    ensures var s := RunBatches(State(d0, false), owner, [Batch([e, e], Some(1), false)]);
            FileAt(s.disk.files, e.path) == Some(Regular(d0.files[e.path].content, DEFAULT_MODE))
  {
    hide ValidOwner, Readable, MakeDirectories, Perform, TakeBackAll, Settle, RunBatches;
    var s0, batch := State(d0, false), Batch([e, e], Some(1), false);
    OneBatch(s0, owner, batch);
    EditedTwice(d0, owner, e);
    var p := Perform(s0, owner, [e, e], Some(1), false, [], []);
    OneTakenBack(p.state.disk.files, Committed(d0.files, e));
    var restored := p.state.disk.(files := TakeBack(p.state.disk.files, Committed(d0.files, e)).0);
    RecordReads(restored, owner, p.mutations, p.captured);
  }

  // ----- what stands in the way -----

  /** Files that the run left in place never stand in the way; only entries of edits that were given up
      and whose path has no directory, or became one, can. */
  lemma WrittenIsClear(d0: Disk, owner: Owner, batches: seq<Batch>, p: Path, allowExternal: bool)
    requires ValidOwner(owner) && Tree(d0.files)
    requires var s := RunBatches(State(d0, false), owner, batches);
             s.started && s.disk.manifest.Some? && p in s.disk.manifest.value.entries && s.disk.manifest.value.entries[p].postExisted
    ensures Clear(RunBatches(State(d0, false), owner, batches).disk.files, p, allowExternal) <==> (p.external ==> allowExternal)
  {
    hide RunBatches, Grown;
    StartInv(d0, owner);
    BatchesKeep(d0.files, State(d0, false), owner, batches);
    var d := RunBatches(State(d0, false), owner, batches).disk;
    assert PostOk(d0.files, d.files, p, d.manifest.value.entries[p]) && PreOk(d0.files, d.backups, p, d.manifest.value.entries[p]);
    assert InDirectories(d.files, p);
    if |p.parts| > 1 {
      assert Parent(p) in Ancestors(p);
    }
  }

  lemma OneAbandoned(d0: Disk, owner: Owner, e: Edit)
    requires ValidOwner(owner) && Readable(d0.files, e.path) && e.path !in d0.files
    ensures var s := RunBatch(State(d0, false), owner, Batch([e], Some(0), false));
            && s.started && s.disk.manifest.Some? && s.disk.manifest.value.entries.Keys == {e.path} && s.disk.files == d0.files
  {
    hide ValidOwner, Readable;
    var begun := Start(d0, owner);
    var c := Capture(begun, owner, e.path).value;
    var p := Perform(State(d0, false), owner, [e], Some(0), false, [], []);
    assert p == Performed(State(c, true), [e.path], [], false) by {
      assert [] + [e.path] == [e.path];
    }
    assert Restored(d0.files, d0.files, {}) == d0.files;
    var entry := c.manifest.value.entries[e.path];
    assert AtPreimage(d0.files, e.path, entry);
    assert [e.path][1..] == [];
    var settled := entry.(captured := true, postExisted := IsRegular(d0.files, e.path), postimage := FileRevision(d0.files, e.path));
    assert SettleAll(d0.files, c.manifest.value.entries, [e.path]) == Some(c.manifest.value.entries[e.path := settled]);
  }

  /** An edit below a directory that does not exist, given up before the directory was made, leaves an
      entry that makes every later undo of the whole run fail: its directory is missing. */
  lemma AbandonedEditBlocksUndo(d0: Disk, owner: Owner, e: Edit, keys: seq<Path>, allowExternal: bool, env: Env)
    requires ValidOwner(owner) && Tree(d0.files) && Quiet(env)
    requires Creatable(d0.files, e.path) && e.path !in d0.files && !HasParent(d0.files, e.path)
    requires keys == [e.path]
    ensures var s := RunBatches(State(d0, false), owner, [Batch([e], Some(0), false)]);
            && s.started && s.disk.manifest.Some? && Enumerates(keys, s.disk.manifest.value.entries)
            && UndoKeys(s.disk, keys, allowExternal, env).result == Refused
  {
    var batch := Batch([e], Some(0), false);
    var s0 := State(d0, false);
    assert [batch][1..] == [];
    OneAbandoned(d0, owner, e);
    var s := RunBatch(s0, owner, batch);
    assert RunBatches(s0, owner, [batch]) == s by {
      hide RunBatch;
      assert RunBatches(s, owner, [batch][1..]) == s;
    }
    hide RunBatch, RunBatches, UndoKeys, HasParent;
    assert e.path in s.disk.manifest.value.entries && !Clear(s.disk.files, e.path, allowExternal);
    WholeRunUndo(d0, owner, [batch], keys, allowExternal, env);
  }
}
