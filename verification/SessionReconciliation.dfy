/** The reconciliation of an interrupted session (internal/agent/checkpoint_reconciliation.go, and
    `MarkReconciledWithReceipt` of internal/agent/sessions.go): the assessment of all files of the run,
    and the receipt that binds what was seen when somebody acknowledged it. */
module SessionReconciliation {
  import M = ExecutionMarker
  import Run = CheckpointRun
  import Sessions = SessionStore
  import opened CheckpointReconciliation
  import opened CheckpointSelection
  import opened CheckpointStore
  import opened CheckpointUndo
  import opened Text
  import opened Wrappers

  const MAX_FILES := 256
  const MAX_PATH_BYTES := 1024

  // ----- the assessment of a session -----

  /** How the evidence names a file. */
  datatype Shown = Named(path: Path) | External | TooLong | NoCheckpoint

  datatype FileEvidence = FileEvidence(
    shown: Shown, status: FileStatus, preimage: Option<Digest>, postimage: Option<Digest>, current: Option<Digest>)

  /** All that assessCheckpointFile reports: digests as far as it came. */
  function EvidenceOf(d: Disk, p: Path, e: Entry): (f: FileEvidence)
    ensures f.status == Assess(d, p, e)
  {
    var shown := if p.external then External else Named(p);
    if !PreimageUsable(d, e) || !PostimageUsable(e) then FileEvidence(shown, Unavailable, Some(e.preimage), None, None)
    else
      var postimage := if e.captured then Some(e.postimage) else None;
      if !Readable(d.files, p) then FileEvidence(shown, Unavailable, Some(e.preimage), postimage, None)
      else FileEvidence(shown, Assess(d, p, e), Some(e.preimage), postimage, Some(Revision(p in d.files, Content(d.files, p))))
  }

  const MISSING := FileEvidence(NoCheckpoint, Unavailable, None, None, None)

  function EvidenceOfKey(d: Disk, p: Path, keyBytes: Path -> nat): FileEvidence
    requires d.manifest.Some? && p in d.manifest.value.entries
  {
    if keyBytes(p) > MAX_PATH_BYTES then FileEvidence(TooLong, Unavailable, None, None, None)
    else EvidenceOf(d, p, d.manifest.value.entries[p])
  }

  function EvidenceOfKeys(d: Disk, keys: seq<Path>, keyBytes: Path -> nat): seq<FileEvidence>
    requires d.manifest.Some? && KeySet(keys) == d.manifest.value.entries.Keys
  {
    seq(|keys|, k requires 0 <= k < |keys| =>
      assert keys[k] in KeySet(keys);
      EvidenceOfKey(d, keys[k], keyBytes))
  }

  function CountOf(files: seq<FileEvidence>, status: FileStatus): nat {
    if files == [] then 0
    else CountOf(files[..|files| - 1], status) + if files[|files| - 1].status == status then 1 else 0
  }

  lemma CountOfAppend(files: seq<FileEvidence>, last: FileEvidence, status: FileStatus)
    ensures CountOf(files + [last], status) == CountOf(files, status) + if last.status == status then 1 else 0
  {
    assert (files + [last])[..|files|] == files;
  }

  predicate Occurs(files: seq<FileEvidence>, status: FileStatus) {
    exists k :: 0 <= k < |files| && files[k].status == status
  }

  /** A count is zero exactly when the status does not occur. */
  lemma {:induction false} CountIsZero(files: seq<FileEvidence>, status: FileStatus)
    ensures CountOf(files, status) == 0 <==> !Occurs(files, status)
  {
    if files != [] {
      var n := |files| - 1;
      CountIsZero(files[..n], status);
      if Occurs(files[..n], status) {
        var k :| 0 <= k < n && files[..n][k].status == status;
        assert files[k].status == status;
      }
      if Occurs(files, status) && files[n].status != status {
        var k :| 0 <= k < |files| && files[k].status == status;
        assert files[..n][k].status == status;
      }
    }
  }

  /** Why somebody has to confirm the side effects. */
  datatype Reason = NotOnlyFiles | FilesDiverge | FileUnrecorded | EvidenceUnavailable

  /** The weightiest reason that applies: missing evidence, then an unrecorded file, then a diverged one,
      then a tool that does more than write files. */
  function Weightiest(files: seq<FileEvidence>, judged: bool): Option<Reason> {
    if Occurs(files, Unavailable) then Some(EvidenceUnavailable)
    else if Occurs(files, PostimageUnrecorded) then Some(FileUnrecorded)
    else if Occurs(files, Diverged) then Some(FilesDiverge)
    else if !judged then Some(NotOnlyFiles)
    else None
  }

  datatype Assessment = Assessment(
    runId: string, available: bool, judged: bool, files: seq<FileEvidence>,
    matchesPreimage: nat, matchesPostimage: nat, diverged: nat, unrecorded: nat, unavailable: nat,
    manual: Option<Reason>, digest: string)

  /** What the evidence digest is computed from. */
  datatype Identity = Identity(
    session: string, revision: nat, runId: string, toolName: string, toolCallId: string, inputDigest: string,
    available: bool, judged: bool, manual: bool, files: seq<FileEvidence>)

  /** What the assessment depends on besides the session and the disk: which tools only write files, the
      order and the lengths of the manifest's keys, and the digest. */
  datatype Setting = Setting(fileOnly: string -> bool, order: set<Path> -> seq<Path>, keyBytes: Path -> nat, hash: Identity -> string)

  predicate Enumerates(keys: seq<Path>, all: set<Path>) {
    DistinctKeys(keys) && KeySet(keys) == all
  }

  /** The keys come in some order, each once. */
  predicate Ordered(d: Disk, x: Setting) {
    d.manifest.Some? ==> Enumerates(x.order(d.manifest.value.entries.Keys), d.manifest.value.entries.Keys)
  }

  /** The session awaits reconciliation. */
  predicate Awaiting(id: string, session: Sessions.Session) {
    TrimSpace(id) != "" && session.reconcile && session.interruption.Some? && M.ValidMarker(session.interruption.value)
  }

  /** The manifest is the one that the interrupted run made. */
  predicate FromRun(d: Disk, session: Sessions.Session)
    requires session.interruption.Some?
  {
    var runId := session.interruption.value.runId;
    && d.manifest.Some? && |d.manifest.value.entries| <= MAX_FILES && runId != ""
    && d.manifest.value.owner.runId == runId && d.manifest.value.owner.revision == session.committed
    && d.manifest.value.owner.generation == "checkpoint_" + runId
  }

  function FilesOf(session: Sessions.Session, d: Disk, x: Setting): seq<FileEvidence>
    requires session.interruption.Some? && Ordered(d, x)
  {
    if FromRun(d, session) then EvidenceOfKeys(d, x.order(d.manifest.value.entries.Keys), x.keyBytes) else [MISSING]
  }

  predicate Judges(session: Sessions.Session, d: Disk, x: Setting)
    requires session.interruption.Some?
  {
    FromRun(d, session) && x.fileOnly(session.interruption.value.toolName)
  }

  function IdentityOf(id: string, session: Sessions.Session, d: Disk, x: Setting): Identity
    requires session.interruption.Some? && Ordered(d, x)
  {
    var m, files := session.interruption.value, FilesOf(session, d, x);
    Identity(id, session.revision, m.runId, m.toolName, m.toolCallId, m.inputDigest, FromRun(d, session), Judges(session, d, x),
             Weightiest(files, Judges(session, d, x)).Some?, files)
  }

  function AssessmentOf(id: string, session: Sessions.Session, d: Disk, x: Setting): Assessment
    requires session.interruption.Some? && Ordered(d, x)
  {
    var files := FilesOf(session, d, x);
    Assessment(
      session.interruption.value.runId, FromRun(d, session), Judges(session, d, x), files,
      CountOf(files, MatchesPreimage), CountOf(files, MatchesPostimage), CountOf(files, Diverged),
      CountOf(files, PostimageUnrecorded), CountOf(files, Unavailable),
      Weightiest(files, Judges(session, d, x)), x.hash(IdentityOf(id, session, d, x)))
  }

  /** The counters count each status, and count every file. */
  lemma {:induction false} CountsAddUp(files: seq<FileEvidence>)
    ensures CountOf(files, MatchesPreimage) + CountOf(files, MatchesPostimage) + CountOf(files, Diverged)
            + CountOf(files, PostimageUnrecorded) + CountOf(files, Unavailable) == |files|
  {
    if files != [] {
      CountsAddUp(files[..|files| - 1]);
    }
  }

  lemma EveryStatus(files: seq<FileEvidence>)
    ensures !Occurs(files, Unavailable) && !Occurs(files, PostimageUnrecorded) && !Occurs(files, Diverged) <==>
            forall k :: 0 <= k < |files| ==> files[k].status in {MatchesPreimage, MatchesPostimage}
  {
    forall k | 0 <= k < |files|
      ensures files[k].status in {MatchesPreimage, MatchesPostimage, Diverged, PostimageUnrecorded, Unavailable}
    {
      var status := files[k].status;
      assert status.MatchesPreimage? || status.MatchesPostimage? || status.Diverged? || status.PostimageUnrecorded? || status.Unavailable?;
    }
  }

  /** Without manual confirmation an interrupted session is resumed only when its run's checkpoint is
      there, the tool only writes files, and every file is in one of its two recorded states. */
  lemma NoReasonIff(id: string, session: Sessions.Session, d: Disk, x: Setting)
    requires session.interruption.Some? && Ordered(d, x)
    ensures var a := AssessmentOf(id, session, d, x);
            a.manual == None <==>
              && FromRun(d, session) && x.fileOnly(session.interruption.value.toolName)
              && forall p :: p in d.manifest.value.entries ==>
                   x.keyBytes(p) <= MAX_PATH_BYTES && Assess(d, p, d.manifest.value.entries[p]) in {MatchesPreimage, MatchesPostimage}
  {
    hide Assess, EvidenceOf, CountOf;
    var files := FilesOf(session, d, x);
    if FromRun(d, session) {
      var keys := x.order(d.manifest.value.entries.Keys);
      EveryStatus(files);
      forall p | p in d.manifest.value.entries ensures exists k :: 0 <= k < |keys| && keys[k] == p {
        assert p in KeySet(keys);
      }
      forall k | 0 <= k < |keys| ensures keys[k] in d.manifest.value.entries {
        assert keys[k] in KeySet(keys);
      }
      if Weightiest(files, Judges(session, d, x)) == None {
        forall p | p in d.manifest.value.entries
          ensures x.keyBytes(p) <= MAX_PATH_BYTES && Assess(d, p, d.manifest.value.entries[p]) in {MatchesPreimage, MatchesPostimage}
        {
          var k :| 0 <= k < |keys| && keys[k] == p;
          assert files[k] == EvidenceOfKey(d, p, x.keyBytes);
        }
      }
    } else {
      assert files[0].status == Unavailable;
    }
  }

  lemma NothingCounted()
    ensures forall status :: CountOf([], status) == 0
  {
  }

  lemma CountsOfAppend(files: seq<FileEvidence>, last: FileEvidence)
    ensures forall status :: CountOf(files + [last], status) == CountOf(files, status) + if last.status == status then 1 else 0
  {
    forall status ensures CountOf(files + [last], status) == CountOf(files, status) + if last.status == status then 1 else 0 {
      CountOfAppend(files, last, status);
    }
  }

  /** The loop over the files, which counts as it goes. */
  method AssessFiles(d: Disk, keys: seq<Path>, keyBytes: Path -> nat, blank: Assessment) returns (a: Assessment)
    requires d.manifest.Some? && KeySet(keys) == d.manifest.value.entries.Keys
    requires blank == Assessment(blank.runId, true, blank.judged, [], 0, 0, 0, 0, 0, None, "")
    ensures var files := EvidenceOfKeys(d, keys, keyBytes);
            a == Assessment(blank.runId, true, blank.judged, files, CountOf(files, MatchesPreimage), CountOf(files, MatchesPostimage),
                            CountOf(files, Diverged), CountOf(files, PostimageUnrecorded), CountOf(files, Unavailable), None, "")
  {
    hide Assess, EvidenceOf, EvidenceOfKey, CountOf;
    ghost var files := EvidenceOfKeys(d, keys, keyBytes);
    a := blank;
    NothingCounted();
    for i := 0 to |keys|
      invariant a == Assessment(blank.runId, true, blank.judged, files[..i],
                                CountOf(files[..i], MatchesPreimage), CountOf(files[..i], MatchesPostimage),
                                CountOf(files[..i], Diverged), CountOf(files[..i], PostimageUnrecorded), CountOf(files[..i], Unavailable), None, "")
    {
      assert keys[i] in KeySet(keys);
      var evidence := EvidenceOfKey(d, keys[i], keyBytes);
      assert files[..i + 1] == files[..i] + [evidence];
      CountsOfAppend(files[..i], evidence);
      a := a.(files := a.files + [evidence]);
      match evidence.status {
      case MatchesPreimage => a := a.(matchesPreimage := a.matchesPreimage + 1);
      case MatchesPostimage => a := a.(matchesPostimage := a.matchesPostimage + 1);
      case Diverged => a := a.(diverged := a.diverged + 1);
      case PostimageUnrecorded => a := a.(unrecorded := a.unrecorded + 1);
      case Unavailable => a := a.(unavailable := a.unavailable + 1);
      }
    }
    assert files[..|keys|] == files;
  }

  lemma MissingCounted()
    ensures CountOf([MISSING], Unavailable) == 1
    ensures forall status :: status != Unavailable ==> CountOf([MISSING], status) == 0
  {
    assert [MISSING][..0] == [];
  }

  lemma FromRunHasManifest(d: Disk, session: Sessions.Session)
    requires session.interruption.Some? && FromRun(d, session)
    ensures d.manifest.Some?
  {
  }

  /** assessSessionReconciliationLocked; None when the session does not await reconciliation. */
  method AssessSession(id: string, session: Sessions.Session, d: Disk, x: Setting) returns (result: Option<Assessment>)
    requires Ordered(d, x)
    ensures result.Some? <==> Awaiting(id, session)
    ensures result.Some? ==> result.value == AssessmentOf(id, session, d, x)
  {
    hide EvidenceOfKeys, CountOf, FromRun, TrimSpace, M.ValidMarker, Occurs;
    if !Awaiting(id, session) {
      return None;
    }
    var m := session.interruption.value;
    var judged := false;
    var a: Assessment;
    if FromRun(d, session) {
      FromRunHasManifest(d, session);
      judged := x.fileOnly(m.toolName);
      a := AssessFiles(d, x.order(d.manifest.value.entries.Keys), x.keyBytes, Assessment(m.runId, true, judged, [], 0, 0, 0, 0, 0, None, ""));
    } else {
      a := Assessment(m.runId, false, false, [MISSING], 0, 0, 0, 0, 1, None, "");
      MissingCounted();
    }
    CountIsZero(a.files, Diverged);
    CountIsZero(a.files, PostimageUnrecorded);
    CountIsZero(a.files, Unavailable);
    var reason: Option<Reason> := None;
    if !judged {
      reason := Some(NotOnlyFiles);
    }
    if a.diverged > 0 {
      reason := Some(FilesDiverge);
    }
    if a.unrecorded > 0 {
      reason := Some(FileUnrecorded);
    }
    if a.unavailable > 0 {
      reason := Some(EvidenceUnavailable);
    }
    var identity := Identity(id, session.revision, m.runId, m.toolName, m.toolCallId, m.inputDigest, a.available, judged, reason.Some?, a.files);
    result := Some(a.(manual := reason, digest := x.hash(identity)));
  }

  // ----- after a run that died -----

  /** The session's marker names the run that died, and its manifest is the one found. */
  predicate Interrupts(session: Sessions.Session, d: Disk) {
    session.interruption.Some? && FromRun(d, session)
  }

  /** A count is the number of the paths whose evidence has that status. */
  lemma {:induction false} CountIs(keys: seq<Path>, files: seq<FileEvidence>, status: FileStatus, having: set<Path>)
    requires DistinctKeys(keys) && |files| == |keys| && having <= KeySet(keys)
    requires forall k :: 0 <= k < |keys| ==> (keys[k] in having <==> files[k].status == status)
    ensures CountOf(files, status) == |having|
    decreases |keys|
  {
    if keys != [] {
      var n := |keys| - 1;
      var last, rest := keys[n], keys[..n];
      assert KeySet(keys) == KeySet(rest) + {last};
      CountIs(rest, files[..n], status, having - {last});
    }
  }

  lemma FilesCount(session: Sessions.Session, d: Disk, x: Setting, status: FileStatus, having: set<Path>)
    requires Ordered(d, x) && Interrupts(session, d) && having <= d.manifest.value.entries.Keys
    requires forall p :: p in d.manifest.value.entries ==> (p in having <==> EvidenceOfKey(d, p, x.keyBytes).status == status)
    ensures CountOf(FilesOf(session, d, x), status) == |having|
  {
    hide EvidenceOfKey, CountOf, DistinctKeys;
    var keys := x.order(d.manifest.value.entries.Keys);
    forall k | 0 <= k < |keys| ensures keys[k] in d.manifest.value.entries {
      assert keys[k] in KeySet(keys);
    }
    CountIs(keys, FilesOf(session, d, x), status, having);
  }

  /** The evidence of a dead run counts for the session exactly if the marker names that run, the run began
      at the session's last committed revision, and it touched at most 256 files. */
  lemma DeathIsAvailableIff(session: Sessions.Session, d0: Disk, owner: Owner, batches: seq<Run.Batch>, last: Run.Batch,
                            files: Files, backups: map<Path, string>)
    requires Died(d0, owner, batches, last) && session.interruption.Some?
    ensures var d := Found(d0, owner, batches, last, files, backups);
            && d.manifest.Some? && d.manifest.value.owner == owner
            && (FromRun(d, session) <==>
                  && session.interruption.value.runId == owner.runId != "" && owner.generation == "checkpoint_" + owner.runId
                  && session.committed == owner.revision && |d.manifest.value.entries| <= 256)
  {
    hide Run.RunBatches, Run.RunInv, Run.Dies, ValidOwner, Tree;
    Run.StartInv(d0, owner);
    Run.BatchesKeep(d0.files, Run.State(d0, false), owner, batches);
    Run.DeathOwned(d0.files, Run.RunBatches(Run.State(d0, false), owner, batches), owner, last);
  }

  /** When a run dies within a batch, its session is resumed without confirmation exactly if its tool only
      writes files, and every file can be judged and is as it was at the start of the run or, for a file
      that a finished batch captured, at the end of the finished batches. */
  lemma DeathIsConfirmedUnless(id: string, session: Sessions.Session, x: Setting, d0: Disk, owner: Owner, batches: seq<Run.Batch>,
                               last: Run.Batch, files: Files, backups: map<Path, string>)
    requires Died(d0, owner, batches, last)
    requires var d := Found(d0, owner, batches, last, files, backups); Ordered(d, x) && Interrupts(session, d)
    ensures var s, d := Run.RunBatches(Run.State(d0, false), owner, batches), Found(d0, owner, batches, last, files, backups);
            AssessmentOf(id, session, d, x).manual == None <==>
              && x.fileOnly(session.interruption.value.toolName)
              && forall p :: p in d.manifest.value.entries ==>
                   && x.keyBytes(p) <= MAX_PATH_BYTES && Readable(files, p) && BackupIntact(d0.files, backups, p)
                   && (|| FileRevision(files, p) == FileRevision(d0.files, p)
                       || (p in Run.Entries(s, owner) && FileRevision(files, p) == FileRevision(s.disk.files, p)))
  {
    hide Run.RunBatches, Run.Entries, Died, Assess, Readable, BackupIntact, FileRevision, Ordered, AssessmentOf, Found;
    var d := Found(d0, owner, batches, last, files, backups);
    NoReasonIff(id, session, d, x);
    forall p | p in d.manifest.value.entries
      ensures Assess(d, p, d.manifest.value.entries[p]) in {MatchesPreimage, MatchesPostimage} <==>
              && Readable(files, p) && BackupIntact(d0.files, backups, p)
              && (|| FileRevision(files, p) == FileRevision(d0.files, p)
                  || (p in Run.Entries(Run.RunBatches(Run.State(d0, false), owner, batches), owner)
                      && FileRevision(files, p) == FileRevision(Run.RunBatches(Run.State(d0, false), owner, batches).disk.files, p)))
    {
      DeathAssessed(d0, owner, batches, last, files, backups, p);
    }
  }

  lemma ReadableRevision(files: Files, p: Path)
    requires Readable(files, p)
    ensures Revision(p in files, Content(files, p)) == FileRevision(files, p)
  {
  }

  /** The file can be judged: its path is not too long, it can be read, and its backup is intact. */
  predicate Judgeable(x: Setting, start: Files, files: Files, backups: map<Path, string>, p: Path) {
    x.keyBytes(p) <= MAX_PATH_BYTES && Readable(files, p) && BackupIntact(start, backups, p)
  }

  /** The whole evidence on a file after a run died within a batch. It names no file outside the workspace,
      and gives three digests: of the file at the start, at the end of the finished batches if one of them
      captured it, and now; each as far as the evidence is complete. */
  lemma DeathEvidence(x: Setting, d0: Disk, owner: Owner, batches: seq<Run.Batch>, last: Run.Batch, files: Files, backups: map<Path, string>, p: Path)
    requires Died(d0, owner, batches, last)
    requires var d := Found(d0, owner, batches, last, files, backups); d.manifest.Some? && p in d.manifest.value.entries
    ensures var s, d := Run.RunBatches(Run.State(d0, false), owner, batches), Found(d0, owner, batches, last, files, backups);
            var evidence, finished := EvidenceOfKey(d, p, x.keyBytes), Run.Entries(s, owner);
            && evidence.status ==
               (if !Judgeable(x, d0.files, files, backups, p) then Unavailable
                else if FileRevision(files, p) == FileRevision(d0.files, p) then MatchesPreimage
                else if p !in finished then PostimageUnrecorded
                else if FileRevision(files, p) == FileRevision(s.disk.files, p) then MatchesPostimage
                else Diverged)
            && evidence.shown == (if x.keyBytes(p) > MAX_PATH_BYTES then TooLong else if p.external then External else Named(p))
            && evidence.preimage == (if x.keyBytes(p) > MAX_PATH_BYTES then None else Some(FileRevision(d0.files, p)))
            && evidence.postimage == (if x.keyBytes(p) <= MAX_PATH_BYTES && BackupIntact(d0.files, backups, p) && p in finished
                                      then Some(FileRevision(s.disk.files, p)) else None)
            && evidence.current == if Judgeable(x, d0.files, files, backups, p) then Some(FileRevision(files, p)) else None
  {
    hide Run.RunBatches, Run.Entries, Run.Dies, Died, Assess, Readable, BackupIntact, FileRevision, PreimageUsable, PostimageUsable;
    var s, d := Run.RunBatches(Run.State(d0, false), owner, batches), Found(d0, owner, batches, last, files, backups);
    DeathAssessed(d0, owner, batches, last, files, backups, p);
    DeathLeaves(d0, owner, batches, last, files, backups, p);
    if Readable(files, p) {
      ReadableRevision(files, p);
    }
  }

  lemma CountersAre(id: string, session: Sessions.Session, d: Disk, x: Setting)
    requires Ordered(d, x) && Interrupts(session, d)
    ensures var a, files := AssessmentOf(id, session, d, x), FilesOf(session, d, x);
            && a.unavailable == CountOf(files, Unavailable) && a.matchesPreimage == CountOf(files, MatchesPreimage)
            && a.unrecorded == CountOf(files, PostimageUnrecorded) && a.matchesPostimage == CountOf(files, MatchesPostimage)
            && a.diverged == CountOf(files, Diverged)
  {
  }

  /** The counters by the sets of paths that can be judged, that changed since the start, that a finished
      batch captured, and that are as at the end of the finished batches. */
  lemma CountersBySets(id: string, session: Sessions.Session, d: Disk, x: Setting,
                       judgeable: set<Path>, changed: set<Path>, finished: set<Path>, same: set<Path>)
    requires d.manifest.Some? && Ordered(d, x) && Interrupts(session, d) && changed <= judgeable <= d.manifest.value.entries.Keys
    requires forall p :: p in d.manifest.value.entries ==>
               EvidenceOfKey(d, p, x.keyBytes).status ==
               if p !in judgeable then Unavailable
               else if p !in changed then MatchesPreimage
               else if p !in finished then PostimageUnrecorded
               else if p in same then MatchesPostimage
               else Diverged
    ensures var a := AssessmentOf(id, session, d, x);
            && a.unavailable == |d.manifest.value.entries.Keys - judgeable| && a.matchesPreimage == |judgeable - changed|
            && a.unrecorded == |changed - finished| && a.matchesPostimage == |changed * finished * same|
            && a.diverged == |changed * finished - same|
  {
    hide *;
    CountersAre(id, session, d, x);
    FilesCount(session, d, x, Unavailable, d.manifest.value.entries.Keys - judgeable);
    FilesCount(session, d, x, MatchesPreimage, judgeable - changed);
    FilesCount(session, d, x, PostimageUnrecorded, changed - finished);
    FilesCount(session, d, x, MatchesPostimage, changed * finished * same);
    FilesCount(session, d, x, Diverged, changed * finished - same);
  }

  /** The counters after a run died within a batch, in terms of the files at its start, at the end of its
      finished batches, and now. */
  lemma DeathCounts(id: string, session: Sessions.Session, x: Setting, d0: Disk, owner: Owner, batches: seq<Run.Batch>, last: Run.Batch,
                    files: Files, backups: map<Path, string>)
    requires Died(d0, owner, batches, last)
    requires var d := Found(d0, owner, batches, last, files, backups); d.manifest.Some? && Ordered(d, x) && Interrupts(session, d)
    ensures var s, d := Run.RunBatches(Run.State(d0, false), owner, batches), Found(d0, owner, batches, last, files, backups);
            var a, entries, finished := AssessmentOf(id, session, d, x), d.manifest.value.entries, Run.Entries(s, owner).Keys;
            var judgeable := set p | p in entries && Judgeable(x, d0.files, files, backups, p);
            var changed := set p | p in judgeable && FileRevision(files, p) != FileRevision(d0.files, p);
            var same := set p | p in changed && FileRevision(files, p) == FileRevision(s.disk.files, p);
            && a.unavailable == |entries.Keys - judgeable| && a.matchesPreimage == |judgeable - changed|
            && a.unrecorded == |changed - finished| && a.matchesPostimage == |changed * finished * same|
            && a.diverged == |changed * finished - same|
  {
    hide *;
    var s, d := Run.RunBatches(Run.State(d0, false), owner, batches), Found(d0, owner, batches, last, files, backups);
    var entries, finished := d.manifest.value.entries, Run.Entries(s, owner).Keys;
    var judgeable := set p | p in entries && Judgeable(x, d0.files, files, backups, p);
    var changed := set p | p in judgeable && FileRevision(files, p) != FileRevision(d0.files, p);
    var same := set p | p in changed && FileRevision(files, p) == FileRevision(s.disk.files, p);
    forall p | p in entries
      ensures EvidenceOfKey(d, p, x.keyBytes).status ==
              if p !in judgeable then Unavailable
              else if p !in changed then MatchesPreimage
              else if p !in finished then PostimageUnrecorded
              else if p in same then MatchesPostimage
              else Diverged
    {
      DeathEvidence(x, d0, owner, batches, last, files, backups, p);
    }
    CountersBySets(id, session, d, x, judgeable, changed, finished, same);
  }

  /** The counters give the reason: which findings call for a confirmation, and which of them is named. */
  lemma ReasonIs(id: string, session: Sessions.Session, d: Disk, x: Setting)
    requires session.interruption.Some? && Ordered(d, x)
    ensures var a := AssessmentOf(id, session, d, x);
            && (a.manual == Some(EvidenceUnavailable) <==> a.unavailable > 0)
            && (a.manual == Some(FileUnrecorded) <==> a.unavailable == 0 && a.unrecorded > 0)
            && (a.manual == Some(FilesDiverge) <==> a.unavailable == 0 && a.unrecorded == 0 && a.diverged > 0)
            && (a.manual == Some(NotOnlyFiles) <==>
                  a.unavailable == 0 && a.unrecorded == 0 && a.diverged == 0 && !x.fileOnly(session.interruption.value.toolName))
  {
    hide EvidenceOfKeys, CountOf, Occurs;
    var files := FilesOf(session, d, x);
    CountIsZero(files, Unavailable);
    CountIsZero(files, PostimageUnrecorded);
    CountIsZero(files, Diverged);
    if !FromRun(d, session) {
      MissingCounted();
    }
  }

  /** On the disk as the dead run left it: as soon as its last batch changed a file that no finished batch
      captured, the assessment counts an unrecorded file, and somebody has to confirm. */
  lemma UnrecordedNeedsConfirmation(id: string, session: Sessions.Session, x: Setting, d0: Disk, owner: Owner, batches: seq<Run.Batch>,
                                    last: Run.Batch, p: Path)
    requires Died(d0, owner, batches, last) && x.keyBytes(p) <= MAX_PATH_BYTES
    requires var s := Run.RunBatches(Run.State(d0, false), owner, batches);
             var left := Run.Dies(s, owner, last).disk;
             && Ordered(left, x) && Interrupts(session, left)
             && p !in Run.Entries(s, owner) && FileRevision(left.files, p) != FileRevision(d0.files, p)
    ensures var left := Run.Dies(Run.RunBatches(Run.State(d0, false), owner, batches), owner, last).disk;
            var a := AssessmentOf(id, session, left, x);
            a.unrecorded > 0 && a.manual in {Some(FileUnrecorded), Some(EvidenceUnavailable)}
  {
    hide Run.RunBatches, Run.Entries, Run.Dies, Died, Assess, FileRevision, CountOf;
    var left := Run.Dies(Run.RunBatches(Run.State(d0, false), owner, batches), owner, last).disk;
    ChangedIsUnrecorded(d0, owner, batches, last, p);
    var keys, files := x.order(left.manifest.value.entries.Keys), FilesOf(session, left, x);
    assert p in KeySet(keys);
    var k :| 0 <= k < |keys| && keys[k] == p;
    assert files[k].status == PostimageUnrecorded;
    CountIsZero(files, PostimageUnrecorded);
    ReasonIs(id, session, left, x);
  }

  // ----- receipts -----

  datatype Receipt = Receipt(
    runId: string, digest: string, available: bool, judged: bool, fileCount: nat,
    matchesPreimage: nat, matchesPostimage: nat, diverged: nat, unrecorded: nat, unavailable: nat,
    required: bool, acknowledged: bool)

  /** NewSessionReconciliationReceipt; None when a required confirmation is missing. */
  function NewReceipt(a: Assessment, acknowledged: bool): Option<Receipt> {
    if a.manual.Some? && !acknowledged then None
    else Some(Receipt(a.runId, a.digest, a.available, a.judged, |a.files|, a.matchesPreimage, a.matchesPostimage, a.diverged,
                      a.unrecorded, a.unavailable, a.manual.Some?, a.manual.Some? && acknowledged))
  }

  /** The receipt says what a new assessment finds. */
  predicate SameFindings(a: Assessment, receipt: Receipt) {
    && a.digest == receipt.digest && a.runId == receipt.runId && a.available == receipt.available && a.judged == receipt.judged
    && |a.files| == receipt.fileCount && a.matchesPreimage == receipt.matchesPreimage && a.matchesPostimage == receipt.matchesPostimage
    && a.diverged == receipt.diverged && a.unrecorded == receipt.unrecorded && a.unavailable == receipt.unavailable
    && a.manual.Some? == receipt.required
  }

  /** A receipt is given unless a confirmation is required and missing; it repeats the findings, and records
      an acknowledgement only where one was required. */
  lemma ReceiptSays(a: Assessment, acknowledged: bool)
    ensures NewReceipt(a, acknowledged).Some? <==> a.manual == None || acknowledged
    ensures NewReceipt(a, acknowledged).Some? ==>
              var r := NewReceipt(a, acknowledged).value;
              && SameFindings(a, r) && r.required == a.manual.Some? && r.acknowledged == a.manual.Some?
  {
  }

  /** The checks of MarkReconciledWithReceipt on the evidence, made again on the session and the disk as
      they are by then. */
  predicate StillCurrent(id: string, session: Sessions.Session, d: Disk, x: Setting, receipt: Receipt)
    requires Ordered(d, x)
  {
    && Awaiting(id, session)
    && var a := AssessmentOf(id, session, d, x);
    SameFindings(a, receipt) && (a.manual.Some? ==> receipt.acknowledged)
  }

  /** Even where digests collide, a receipt is current only if it is about the same run, and every finding
      that it repeats is found again: the status of the checkpoint, the number of files and all counters. */
  lemma CurrentFindings(id: string, session: Sessions.Session, d: Disk, x: Setting, receipt: Receipt)
    requires Ordered(d, x) && StillCurrent(id, session, d, x, receipt)
    ensures var a := AssessmentOf(id, session, d, x);
            && receipt.runId == session.interruption.value.runId && receipt.digest == x.hash(IdentityOf(id, session, d, x))
            && receipt.available == FromRun(d, session) && receipt.judged == Judges(session, d, x)
            && receipt.fileCount == |a.files| && receipt.matchesPreimage == a.matchesPreimage
            && receipt.matchesPostimage == a.matchesPostimage && receipt.diverged == a.diverged
            && receipt.unrecorded == a.unrecorded && receipt.unavailable == a.unavailable
            && (receipt.required <==> a.manual.Some?) && (a.manual.Some? ==> receipt.acknowledged)
  {
    hide FilesOf, FromRun, Weightiest, CountOf, TrimSpace, M.ValidMarker, Ordered;
  }

  /** Different evidence has different digests. */
  predicate NoCollision(x: Setting, i: Identity, j: Identity) {
    x.hash(i) == x.hash(j) ==> i == j
  }

  /** A receipt binds the evidence that was seen when it was made: unless the digests collide, it is
      still current exactly when a session of the same name awaits reconciliation at the same revision for
      the same execution, and every file is found in the same state with the same digests. */
  lemma ReceiptBindsEvidence(id: string, seen: Sessions.Session, d: Disk, acknowledged: bool, later: string, session: Sessions.Session, e: Disk, x: Setting)
    requires Awaiting(id, seen) && Ordered(d, x) && Ordered(e, x)
    requires NewReceipt(AssessmentOf(id, seen, d, x), acknowledged).Some?
    requires session.interruption.Some? ==> NoCollision(x, IdentityOf(id, seen, d, x), IdentityOf(later, session, e, x))
    ensures var receipt := NewReceipt(AssessmentOf(id, seen, d, x), acknowledged).value;
            StillCurrent(later, session, e, x, receipt) <==>
              Awaiting(later, session) && IdentityOf(later, session, e, x) == IdentityOf(id, seen, d, x)
  {
    hide FilesOf, FromRun, Weightiest, CountOf, TrimSpace, M.ValidMarker, Ordered;
    if session.interruption.Some? && IdentityOf(later, session, e, x) == IdentityOf(id, seen, d, x) {
      assert FilesOf(session, e, x) == FilesOf(seen, d, x);
    }
  }

  lemma ReadableIsRegular(files: Files, p: Path)
    requires Readable(files, p)
    ensures (p in files) == IsRegular(files, p)
  {
  }

  lemma SameEvidence(d: Disk, e: Disk, x: Setting, p: Path)
    requires Ordered(d, x) && Ordered(e, x) && d.manifest.Some? && e.manifest.Some?
    requires EvidenceOfKeys(d, x.order(d.manifest.value.entries.Keys), x.keyBytes) ==
             EvidenceOfKeys(e, x.order(e.manifest.value.entries.Keys), x.keyBytes)
    requires p in d.manifest.value.entries && !p.external && x.keyBytes(p) <= MAX_PATH_BYTES
    requires Assess(d, p, d.manifest.value.entries[p]) != Unavailable
    ensures Readable(e.files, p) && FileRevision(e.files, p) == FileRevision(d.files, p)
  {
    hide Readable, PreimageUsable, PostimageUsable;
    var keys, others := x.order(d.manifest.value.entries.Keys), x.order(e.manifest.value.entries.Keys);
    assert p in KeySet(keys);
    var k :| 0 <= k < |keys| && keys[k] == p;
    assert others[k] in KeySet(others);
    var f, g := EvidenceOfKeys(d, keys, x.keyBytes)[k], EvidenceOfKeys(e, others, x.keyBytes)[k];
    assert f == EvidenceOfKey(d, p, x.keyBytes) && g == EvidenceOfKey(e, others[k], x.keyBytes) && f == g;
    ReadableIsRegular(d.files, p);
    ReadableIsRegular(e.files, p);
  }

  /** So a session is reconciled with a receipt only on the files that were assessed: where the evidence
      was complete, every file in the workspace still has the content, or the absence, it had then. */
  lemma ReconciledFilesUnchanged(id: string, seen: Sessions.Session, d: Disk, acknowledged: bool, session: Sessions.Session, e: Disk, x: Setting, p: Path)
    requires Awaiting(id, seen) && Ordered(d, x) && Ordered(e, x) && NewReceipt(AssessmentOf(id, seen, d, x), acknowledged).Some?
    requires session.interruption.Some? ==> NoCollision(x, IdentityOf(id, seen, d, x), IdentityOf(id, session, e, x))
    requires Sessions.Apply(session, Sessions.Reconcile(seen.revision, seen.interruption.value.runId,
                   StillCurrent(id, session, e, x, NewReceipt(AssessmentOf(id, seen, d, x), acknowledged).value))).Ok?
    requires FromRun(d, seen) && p in d.manifest.value.entries && !p.external && x.keyBytes(p) <= MAX_PATH_BYTES
    requires Assess(d, p, d.manifest.value.entries[p]) != Unavailable
    ensures Readable(e.files, p) && FileRevision(e.files, p) == FileRevision(d.files, p)
  {
    hide FromRun, Weightiest, CountOf, TrimSpace, M.ValidMarker, EvidenceOfKey, Readable;
    FromRunHasManifest(d, seen);
    ReceiptBindsEvidence(id, seen, d, acknowledged, id, session, e, x);
    assert FilesOf(session, e, x) == FilesOf(seen, d, x) && FromRun(e, session);
    FromRunHasManifest(e, session);
    SameEvidence(d, e, x, p);
  }
}
