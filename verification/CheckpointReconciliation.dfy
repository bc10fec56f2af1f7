/** The reconciliation assessment of internal/agent/checkpoint_reconciliation.go: a second, independent
    classifier of a checkpoint's entries, and how far it agrees with undo's. */
module CheckpointReconciliation {
  import Run = CheckpointRun
  import opened CheckpointSelection
  import opened CheckpointStore
  import opened CheckpointUndo
  import opened Wrappers

  datatype FileStatus = MatchesPreimage | MatchesPostimage | Diverged | PostimageUnrecorded | Unavailable

  /** The checks on an entry's preimage and its backup. */
  predicate PreimageUsable(d: Disk, e: Entry) {
    && e.preimage.Sha256?
    && (if e.existed then
          && e.mode.Some? && e.mode.value <= 0x1FF && e.backup.Some?
          && e.backup.value in d.backups && Revision(true, d.backups[e.backup.value]) == e.preimage
        else e.backup == None && e.preimage == Revision(false, "") && e.mode == None)
  }

  predicate PostimageUsable(e: Entry) {
    if e.captured then e.postimage.Sha256? && (!e.postExisted ==> e.postimage == Revision(false, ""))
    else e.postimage == NOTHING_RECORDED && !e.postExisted
  }

  /** assessCheckpointFile: unlike undo it compares revisions only, without looking at existence. */
  function Assess(d: Disk, p: Path, e: Entry): FileStatus {
    if !PreimageUsable(d, e) || !PostimageUsable(e) || !Readable(d.files, p) then Unavailable
    else
      var current := Revision(p in d.files, Content(d.files, p));
      if current == e.preimage then MatchesPreimage
      else if !e.captured then PostimageUnrecorded
      else if current == e.postimage then MatchesPostimage
      else Diverged
  }

  /** What makes the evidence on an entry incomplete. */
  predicate Damaged(d: Disk, e: Entry) {
    || e.preimage.Malformed? || (e.captured && e.postimage.Malformed?) || (!e.captured && e.postimage != NOTHING_RECORDED)
    || (e.existed && (e.mode == None || e.mode.value > 0x1FF))
    || (e.existed && (e.backup == None || e.backup.value !in d.backups || Sha256(d.backups[e.backup.value]) != e.preimage))
    || (!e.existed && (e.preimage != Sha256(ABSENT_MARK) || e.backup.Some? || e.mode.Some?))
    || (if e.captured then !e.postExisted && e.postimage != Sha256(ABSENT_MARK) else e.postExisted)
  }

  /** The five statuses: which one is given to an entry, by its images and the current revision. */
  lemma StatusMeans(d: Disk, p: Path, e: Entry)
    ensures var assessed, now, complete := Assess(d, p, e), FileRevision(d.files, p), Readable(d.files, p) && !Damaged(d, e);
            && (assessed == Unavailable <==> !complete)
            && (assessed == MatchesPreimage <==> complete && now == e.preimage)
            && (assessed == PostimageUnrecorded <==> complete && now != e.preimage && !e.captured)
            && (assessed == MatchesPostimage <==> complete && now != e.preimage && e.captured && now == e.postimage)
            && (assessed == Diverged <==> complete && now != e.preimage && e.captured && now != e.postimage)
  {
    hide Creatable;
  }

  // ----- agreement with undo -----

  predicate Agrees(status: Status, assessed: FileStatus) {
    match status
    case AlreadyRestored => assessed == MatchesPreimage
    case Restorable => assessed == MatchesPostimage
    case Conflict => assessed == Diverged
    case ExternalBlocked => false
  }

  /** The current state has the revision of a recorded state with the other existence. That takes a
      file whose content is the mark that stands for absence. */
  predicate Aliased(files: Files, p: Path, e: Entry) {
    && Revision(p in files, Content(files, p)) == Sha256(ABSENT_MARK)
    && if e.preimage == Sha256(ABSENT_MARK) then (p in files) != e.existed
       else e.postimage == Sha256(ABSENT_MARK) && (p in files) != e.postExisted
  }

  /** The entry was judged by undo, and its target is a file or absent. */
  ghost predicate Judged(d: Disk, p: Path, e: Entry, allowExternal: bool) {
    var action := PreflightOne(d, p, e, allowExternal, {});
    action.Some? && action.value.status != ExternalBlocked && !IsDirectory(d.files, p)
  }

  /** Undo and reconciliation agree on an entry exactly when its state is not aliased. */
  lemma AgreeUnlessAliased(d: Disk, p: Path, e: Entry, allowExternal: bool)
    requires Judged(d, p, e, allowExternal)
    ensures Agrees(PreflightOne(d, p, e, allowExternal, {}).value.status, Assess(d, p, e)) <==> !Aliased(d.files, p, e)
  {
    hide Creatable, HasParent;
  }

  lemma JudgedParts(d: Disk, p: Path, e: Entry, allowExternal: bool)
    requires Judged(d, p, e, allowExternal)
    ensures WellFormed(e) && (p in d.files ==> IsRegular(d.files, p))
  {
  }

  /** Contents other than the mark are never aliased. */
  lemma OrdinaryContentsAgree(d: Disk, p: Path, e: Entry, allowExternal: bool)
    requires Judged(d, p, e, allowExternal)
    requires Content(d.files, p) != ABSENT_MARK
    requires (e.existed ==> e.preimage != Sha256(ABSENT_MARK)) && (e.postExisted ==> e.postimage != Sha256(ABSENT_MARK))
    ensures Agrees(PreflightOne(d, p, e, allowExternal, {}).value.status, Assess(d, p, e))
  {
    hide PreflightOne, Assess;
    AgreeUnlessAliased(d, p, e, allowExternal);
    JudgedParts(d, p, e, allowExternal);
  }

  /** A file that the run created with the mark as its content: undo would delete it, reconciliation
      says that nothing happened. */
  lemma MarkContentDisagrees(name: string, mode: Mode)
    ensures var p := Path(false, [name]);
            var e := Entry(false, None, Revision(false, ""), None, true, true, Revision(true, ABSENT_MARK));
            var d := Disk(map[p := Regular(ABSENT_MARK, mode)], None, map[]);
            && Judged(d, p, e, false)
            && PreflightOne(d, p, e, false, {}).value.status == Restorable
            && Assess(d, p, e) == MatchesPreimage
  {
    var p := Path(false, [name]);
    assert Ancestors(p) == {};
    assert Parent(p).parts == [];
  }

  // ----- after a run -----

  /** What undo and reconciliation make of an entry, on a disk that keeps the invariant of a run. */
  lemma InvAgrees(start: Files, d: Disk, owner: Owner, p: Path, allowExternal: bool)
    requires Run.RunInv(start, d, owner) && p in d.manifest.value.entries && Run.Clear(d.files, p, allowExternal)
    ensures Judged(d, p, d.manifest.value.entries[p], allowExternal)
    ensures Assess(d, p, d.manifest.value.entries[p]) in {MatchesPreimage, MatchesPostimage}
  {
    hide Run.Grown, Tree, PreflightOne, HasParent, InDirectories, Creatable;
    var e := d.manifest.value.entries[p];
    assert Run.PreOk(start, d.backups, p, e) && Run.PostOk(start, d.files, p, e) && e.captured;
    Run.EntryWellFormed(start, d, p, e);
    ParentMeansAll(d.files, p);
    InDirectoriesIsCreatable(d.files, p);
    Run.EntryFits(start, d, owner, p, allowExternal);
  }

  /** After any batches, reconciliation finds every entry that undo does not refuse in one of its two
      recorded states, and it agrees with undo on the entry exactly when its state is not aliased. */
  lemma RunAgrees(d0: Disk, owner: Owner, batches: seq<Run.Batch>, p: Path, allowExternal: bool)
    requires ValidOwner(owner) && Tree(d0.files)
    requires var s := Run.RunBatches(Run.State(d0, false), owner, batches);
             && s.started && s.disk.manifest.Some? && p in s.disk.manifest.value.entries
             && Run.Clear(s.disk.files, p, allowExternal)
    ensures var d := Run.RunBatches(Run.State(d0, false), owner, batches).disk;
            var e := d.manifest.value.entries[p];
            && Judged(d, p, e, allowExternal)
            && Assess(d, p, e) in {MatchesPreimage, MatchesPostimage}
            && (Agrees(PreflightOne(d, p, e, allowExternal, {}).value.status, Assess(d, p, e)) <==> !Aliased(d.files, p, e))
  {
    hide Run.RunBatches, Run.RunInv, Run.Clear, ValidOwner, Tree, PreflightOne, Assess, Aliased;
    Run.StartInv(d0, owner);
    Run.BatchesKeep(d0.files, Run.State(d0, false), owner, batches);
    var d := Run.RunBatches(Run.State(d0, false), owner, batches).disk;
    InvAgrees(d0.files, d, owner, p, allowExternal);
    AgreeUnlessAliased(d, p, d.manifest.value.entries[p], allowExternal);
  }

  lemma JudgedStatus(d: Disk, p: Path, e: Entry)
    requires Judged(d, p, e, false)
    ensures PreflightOne(d, p, e, false, {}).value.status == StatusOf(d.files, p, e)
  {
    hide WellFormed, BackupOk, Creatable, HasParent, StatusOf;
  }

  lemma OneRecorded(d: Disk, owner: Owner, m: Mutation)
    requires OwnManifest(d, owner).Some? && m.path in d.manifest.value.entries && m.revision.Sha256?
    requires IsRegular(d.files, m.path) && Revision(true, d.files[m.path].content) == m.revision
    ensures Record(d, owner, [m]).Some? && Record(d, owner, [m]).value.files == d.files
    ensures var after := Record(d, owner, [m]).value.manifest;
            && after.Some? && m.path in after.value.entries
            && after.value.entries[m.path] == Recorded(d.manifest.value.entries[m.path], m.revision)
  {
    hide ValidOwner;
    assert [m][..0] == [] && Finals([m]) == map[m.path := m.revision];
    assert Recordable(d.files, d.manifest.value.entries, Finals([m]), m.path);
    assert [m][0].revision.Sha256?;
  }

  lemma OneCreated(d0: Disk, owner: Owner, e: Run.Edit)
    requires ValidOwner(owner) && Creatable(d0.files, e.path) && e.path !in d0.files
    ensures var s := Run.RunBatches(Run.State(d0, false), owner, [Run.Batch([e], None, false)]);
            && s.started && s.disk.manifest.Some? && e.path in s.disk.manifest.value.entries
            && s.disk.manifest.value.entries[e.path] == Entry(false, None, Revision(false, ""), None, true, true, Revision(true, e.content))
            && s.disk.files == Run.WriteFile(d0.files, e)
  {
    hide ValidOwner, Creatable, MakeDirectories, Record, Finals;
    var s0, batch := Run.State(d0, false), Run.Batch([e], None, false);
    var c := Capture(Start(d0, owner), owner, e.path).value;
    var written := c.(files := Run.WriteFile(d0.files, e));
    var m := Run.Committed(d0.files, e);
    assert [e][1..] == [] && [] + [e.path] == [e.path] && [] + [m] == [m];
    assert Run.Perform(s0, owner, [e], None, false, [], []) == Run.Performed(Run.State(written, true), [e.path], [m], true);
    OneRecorded(written, owner, m);
    assert [batch][1..] == [];
    var s := Run.RunBatch(s0, owner, batch);
    assert Run.RunBatches(s0, owner, [batch]) == Run.RunBatches(s, owner, []) == s;
  }

  /** A run reaches an aliased state by creating a file with the mark as its content. */
  lemma MarkRunDisagrees(d0: Disk, owner: Owner, e: Run.Edit)
    requires ValidOwner(owner) && Tree(d0.files)
    requires Creatable(d0.files, e.path) && e.path !in d0.files && !e.path.external && e.content == ABSENT_MARK
    ensures var s := Run.RunBatches(Run.State(d0, false), owner, [Run.Batch([e], None, false)]);
            && s.disk.manifest.Some? && e.path in s.disk.manifest.value.entries
            && var entry := s.disk.manifest.value.entries[e.path];
            && Judged(s.disk, e.path, entry, false)
            && PreflightOne(s.disk, e.path, entry, false, {}).value.status == Restorable
            && Assess(s.disk, e.path, entry) == MatchesPreimage
  {
    hide ValidOwner, Tree, Creatable, Run.RunBatches, Run.RunInv, Run.Clear, PreflightOne, WellFormed, BackupOk;
    var batches := [Run.Batch([e], None, false)];
    OneCreated(d0, owner, e);
    var d := Run.RunBatches(Run.State(d0, false), owner, batches).disk;
    var entry := d.manifest.value.entries[e.path];
    Run.WrittenIsClear(d0, owner, batches, e.path, false);
    RunAgrees(d0, owner, batches, e.path, false);
    JudgedStatus(d, e.path, entry);
  }

  // ----- after a run that died within a batch -----

  /** The backup of an entry still has the revision of the file at the start of the run; an entry for a
      file that was absent needs none. */
  predicate BackupIntact(start: Files, backups: map<Path, string>, p: Path) {
    IsRegular(start, p) ==> p in backups && Revision(true, backups[p]) == FileRevision(start, p)
  }

  lemma LeftAssessed(start: Files, before: Files, left: Disk, earlier: map<Path, Entry>, p: Path, files: Files, backups: map<Path, string>)
    requires left.manifest.Some? && p in left.manifest.value.entries
    requires Run.LeftEntry(start, before, left, earlier, p, left.manifest.value.entries[p])
    ensures Assess(Disk(files, left.manifest, backups), p, left.manifest.value.entries[p]) ==
            if !Readable(files, p) || !BackupIntact(start, backups, p) then Unavailable
            else if FileRevision(files, p) == FileRevision(start, p) then MatchesPreimage
            else if p !in earlier then PostimageUnrecorded
            else if FileRevision(files, p) == FileRevision(before, p) then MatchesPostimage
            else Diverged
  {
    hide Creatable;
  }

  /** The run has made entries, and the last of its batches did not end. */
  ghost predicate Died(d0: Disk, owner: Owner, batches: seq<Run.Batch>, last: Run.Batch) {
    && ValidOwner(owner) && Tree(d0.files)
    && var left := Run.Dies(Run.RunBatches(Run.State(d0, false), owner, batches), owner, last);
       left.started && left.disk.manifest.Some?
  }

  /** The disk that a dead run left, and its files and backups as they are by the time of the assessment. */
  function Found(d0: Disk, owner: Owner, batches: seq<Run.Batch>, last: Run.Batch, files: Files, backups: map<Path, string>): Disk {
    Disk(files, Run.Dies(Run.RunBatches(Run.State(d0, false), owner, batches), owner, last).disk.manifest, backups)
  }

  lemma DeathLeaves(d0: Disk, owner: Owner, batches: seq<Run.Batch>, last: Run.Batch, files: Files, backups: map<Path, string>, p: Path)
    requires Died(d0, owner, batches, last)
    requires var d := Found(d0, owner, batches, last, files, backups); d.manifest.Some? && p in d.manifest.value.entries
    ensures var s, d := Run.RunBatches(Run.State(d0, false), owner, batches), Found(d0, owner, batches, last, files, backups);
            var e := d.manifest.value.entries[p];
            && e.preimage == FileRevision(d0.files, p) && e.captured == (p in Run.Entries(s, owner))
            && (e.captured ==> e.postimage == FileRevision(s.disk.files, p))
            && (PreimageUsable(d, e) && PostimageUsable(e) <==> BackupIntact(d0.files, backups, p))
  {
    hide Run.RunBatches, Run.RunInv, Run.Dies, ValidOwner, Tree;
    var s := Run.RunBatches(Run.State(d0, false), owner, batches);
    Run.StartInv(d0, owner);
    Run.BatchesKeep(d0.files, Run.State(d0, false), owner, batches);
    Run.DeathKeeps(d0.files, s, owner, last, p);
  }

  /** When a run dies within a batch, the assessment compares each file with the two states that the run
      knows: that of the start, and that at the end of the finished batches. A file that only the last
      batch captured has no second one: if its content changed, its postimage is unrecorded. This holds
      whatever happened to files and backups since. */
  lemma DeathAssessed(d0: Disk, owner: Owner, batches: seq<Run.Batch>, last: Run.Batch, files: Files, backups: map<Path, string>, p: Path)
    requires Died(d0, owner, batches, last)
    requires var d := Found(d0, owner, batches, last, files, backups); d.manifest.Some? && p in d.manifest.value.entries
    ensures var s, d := Run.RunBatches(Run.State(d0, false), owner, batches), Found(d0, owner, batches, last, files, backups);
            Assess(d, p, d.manifest.value.entries[p]) ==
            if !Readable(files, p) || !BackupIntact(d0.files, backups, p) then Unavailable
            else if FileRevision(files, p) == FileRevision(d0.files, p) then MatchesPreimage
            else if p !in Run.Entries(s, owner) then PostimageUnrecorded
            else if FileRevision(files, p) == FileRevision(s.disk.files, p) then MatchesPostimage
            else Diverged
  {
    hide Run.RunBatches, Run.RunInv, Run.Dies, Run.LeftEntry, ValidOwner, Tree, Assess, Readable, BackupIntact, FileRevision;
    var s := Run.RunBatches(Run.State(d0, false), owner, batches);
    Run.StartInv(d0, owner);
    Run.BatchesKeep(d0.files, Run.State(d0, false), owner, batches);
    Run.DeathKeeps(d0.files, s, owner, last, p);
    LeftAssessed(d0.files, s.disk.files, Run.Dies(s, owner, last).disk, Run.Entries(s, owner), p, files, backups);
  }

  /** On the disk as the dead run left it, every file that differs from the start and that no finished
      batch captured is in the manifest, and is assessed as unrecorded. */
  lemma ChangedIsUnrecorded(d0: Disk, owner: Owner, batches: seq<Run.Batch>, last: Run.Batch, p: Path)
    requires Died(d0, owner, batches, last)
    requires var s := Run.RunBatches(Run.State(d0, false), owner, batches);
             var left := Run.Dies(s, owner, last).disk;
             p !in Run.Entries(s, owner) && FileRevision(left.files, p) != FileRevision(d0.files, p)
    ensures var left := Run.Dies(Run.RunBatches(Run.State(d0, false), owner, batches), owner, last).disk;
            && left.manifest.Some? && p in left.manifest.value.entries
            && Assess(left, p, left.manifest.value.entries[p]) == PostimageUnrecorded
  {
    hide Run.RunBatches, Run.RunInv, Run.Dies, ValidOwner, Tree, Assess, Readable, FileRevision;
    var s := Run.RunBatches(Run.State(d0, false), owner, batches);
    var left := Run.Dies(s, owner, last).disk;
    Run.StartInv(d0, owner);
    Run.BatchesKeep(d0.files, Run.State(d0, false), owner, batches);
    Run.ChangedIsReadable(d0.files, s, owner, last, p);
    DeathAssessed(d0, owner, batches, last, left.files, left.backups, p);
    assert Found(d0, owner, batches, last, left.files, left.backups) == left;
  }
}
