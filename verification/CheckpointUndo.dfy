/** The undo transaction of internal/agent/checkpoint_undo.go: preflight of every selected entry,
    all-or-nothing restore with rollback in reverse, and the republished manifest. Other processes may
    change files before every step, and every step may fail. */
module CheckpointUndo {
  import opened CheckpointStore
  import opened Wrappers

  datatype Status = Restorable | Conflict | AlreadyRestored | ExternalBlocked

  /** What undo is going to do with one entry: the node it leaves, and the node it found. */
  datatype Action = Action(path: Path, entry: Entry, status: Status, restored: Option<Node>, original: Option<Node>)

  // ----- preflight -----

  /** undoActionStateMatches */
  predicate Matches(files: Files, p: Path, present: bool, digest: Digest) {
    (p in files) == present && !IsDirectory(files, p) && Revision(present, Content(files, p)) == digest
  }

  predicate AtPre(files: Files, p: Path, entry: Entry) {
    Matches(files, p, entry.existed, entry.preimage)
  }

  predicate AtPost(files: Files, p: Path, entry: Entry) {
    Matches(files, p, entry.postExisted, entry.postimage)
  }

  /** The entry is complete and consistent in itself. */
  predicate WellFormed(entry: Entry) {
    && entry.preimage.Sha256? && entry.captured && entry.postimage.Sha256?
    && (!entry.postExisted ==> entry.postimage == Revision(false, ""))
    && (!entry.existed ==> entry.backup == None && entry.preimage == Revision(false, "") && entry.mode == None)
    && (entry.existed ==> entry.mode.Some? && entry.mode.value <= 0x1FF)
  }

  predicate BackupOk(d: Disk, entry: Entry, used: set<Path>) {
    && entry.backup.Some? && entry.backup.value in d.backups && entry.backup.value !in used
    && Revision(true, d.backups[entry.backup.value]) == entry.preimage
  }

  function StatusOf(files: Files, p: Path, entry: Entry): Status {
    if AtPre(files, p, entry) then AlreadyRestored else if AtPost(files, p, entry) then Restorable else Conflict
  }

  function RestoredNode(d: Disk, entry: Entry): Option<Node>
    requires WellFormed(entry) && (entry.existed ==> BackupOk(d, entry, {}))
  {
    if entry.existed then Some(Regular(d.backups[entry.backup.value], entry.mode.value)) else None
  }

  /** The preflight of one entry; None when the whole undo is refused with an error. */
  function PreflightOne(d: Disk, p: Path, entry: Entry, allowExternal: bool, used: set<Path>): Option<Action> {
    if !WellFormed(entry) then None
    else if p.external && !allowExternal then Some(Action(p, entry, ExternalBlocked, None, None))
    else if !Creatable(d.files, p) then None
    else if IsDirectory(d.files, p) then (if p.external then None else Some(Action(p, entry, Conflict, None, None)))
    else if !HasParent(d.files, p) then None
    else if entry.existed && !BackupOk(d, entry, used) then None
    else Some(Action(p, entry, StatusOf(d.files, p, entry), RestoredNode(d, entry), FileAt(d.files, p)))
  }

  /** The backups that entries so far refer to. */
  function UsedAfter(d: Disk, p: Path, entry: Entry, allowExternal: bool, used: set<Path>): set<Path> {
    if (p.external && !allowExternal) || IsDirectory(d.files, p) || entry.backup == None then used else used + {entry.backup.value}
  }

  function Preflight(d: Disk, entries: map<Path, Entry>, keys: seq<Path>, allowExternal: bool, used: set<Path>): Option<seq<Action>>
    requires forall k :: 0 <= k < |keys| ==> keys[k] in entries
  {
    if keys == [] then Some([])
    else
      var p := keys[0];
      match PreflightOne(d, p, entries[p], allowExternal, used)
      case None => None
      case Some(action) =>
        match Preflight(d, entries, keys[1..], allowExternal, UsedAfter(d, p, entries[p], allowExternal, used))
        case None => None
        case Some(rest) => Some([action] + rest)
  }

  predicate Blocked(actions: seq<Action>) {
    exists k :: 0 <= k < |actions| && (actions[k].status == Conflict || actions[k].status == ExternalBlocked)
  }

  // ----- the environment -----

  /** What happens before a step: files that others changed meanwhile, and whether the step fails. */
  datatype Event = Event(outside: map<Path, Option<Node>>, fault: bool)

  type Env = nat -> Event

  function Outside(files: Files, change: map<Path, Option<Node>>): Files {
    map q | q in files.Keys + change.Keys && (q in change ==> change[q].Some?) ::
      if q in change then change[q].value else files[q]
  }

  /** Removing a path, or renaming a staged file over it. */
  function Put(files: Files, p: Path, node: Option<Node>): Files {
    if node.Some? then files[p := node.value] else files - {p}
  }

  datatype Phase = Applying | RollingBack

  /** What happened to the files, in order. */
  datatype Happening =
    | ByOthers(change: map<Path, Option<Node>>)
    | Own(phase: Phase, path: Path, left: Option<Node>)

  function Replay(files: Files, history: seq<Happening>): Files
    decreases |history|
  {
    if history == [] then files
    else
      var h := history[|history| - 1];
      var before := Replay(files, history[..|history| - 1]);
      match h
      case ByOthers(change) => Outside(before, change)
      case Own(_, p, left) => Put(before, p, left)
  }

  /** The files, and how they came about. */
  datatype Progress = Progress(files: Files, history: seq<Happening>, tick: nat)

  function Others(s: Progress, env: Env): Progress {
    Progress(Outside(s.files, env(s.tick).outside), s.history + [ByOthers(env(s.tick).outside)], s.tick + 1)
  }

  /** checkpointAtomicWriteIfUndoState and checkpointRemoveIfUndoState: the last check and the rename
      are one step. */
  function GuardedPut(s: Progress, phase: Phase, p: Path, present: bool, digest: Digest, node: Option<Node>, env: Env)
    : (Progress, bool)
  {
    var seen := Others(s, env);
    if env(s.tick).fault || !HasParent(seen.files, p) || !Matches(seen.files, p, present, digest) then (seen, false)
    else (Progress(Put(seen.files, p, node), seen.history + [Own(phase, p, node)], seen.tick), true)
  }

  // ----- apply and roll back -----

  datatype Applied = Applied(state: Progress, done: seq<Action>, ok: bool)

  /** The apply loop from some action on, after `done`. */
  function ApplyAll(s: Progress, done: seq<Action>, actions: seq<Action>, env: Env): Applied
    decreases |actions|
  {
    if actions == [] then Applied(s, done, true)
    else
      var a := actions[0];
      if a.status == AlreadyRestored then ApplyAll(s, done, actions[1..], env)
      else
        var (next, ok) := GuardedPut(s, Applying, a.path, a.entry.postExisted, a.entry.postimage, a.restored, env);
        if !ok then Applied(next, done, false) else ApplyAll(next, done + [a], actions[1..], env)
  }

  datatype RolledBack = RolledBack(state: Progress, incomplete: bool)

  /** One turn of rollbackUndoActions. */
  function RollbackOne(s: Progress, a: Action, env: Env): RolledBack {
    var seen := Others(s, env);
    if AtPost(seen.files, a.path, a.entry) then RolledBack(seen, false)
    else if !AtPre(seen.files, a.path, a.entry) then RolledBack(seen, true)
    else
      var (next, ok) := GuardedPut(seen, RollingBack, a.path, a.entry.existed, a.entry.preimage, a.original, env);
      RolledBack(next, !ok)
  }

  /** rollbackUndoActions: in reverse, and to the end even when some action cannot be rolled back. */
  function Rollback(s: Progress, done: seq<Action>, env: Env): RolledBack
    decreases |done|
  {
    if done == [] then RolledBack(s, false)
    else
      var last := RollbackOne(s, done[|done| - 1], env);
      var rest := Rollback(last.state, done[..|done| - 1], env);
      RolledBack(rest.state, last.incomplete || rest.incomplete)
  }

  // ----- the transaction -----

  datatype UndoResult =
    | Nothing                                    // there is no checkpoint
    | Refused                                    // an entry is blocked or unusable; nothing was written
    | Failed(incomplete: bool)                   // a step failed; whether some change could not be rolled back
    | Done(reverted: seq<Path>, cleaned: bool)   // all selected entries are restored

  datatype Outcome = Outcome(disk: Disk, result: UndoResult, history: seq<Happening>)

  function Restored(actions: seq<Action>): seq<Path> {
    if actions == [] then []
    else (if actions[0].status == AlreadyRestored then [] else [actions[0].path]) + Restored(actions[1..])
  }

  function KeySet(keys: seq<Path>): set<Path> {
    set k | k in keys
  }

  /** Giving up: what was applied is rolled back. */
  function GiveUp(d: Disk, applied: Applied, env: Env): Outcome {
    var rolled := Rollback(applied.state, applied.done, env);
    Outcome(d.(files := rolled.state.files), Failed(rolled.incomplete), rolled.state.history)
  }

  /** The last part: the manifest is published without the selected entries, and the checkpoint
      directory is removed when none is left. */
  function Finish(d: Disk, keys: seq<Path>, actions: seq<Action>, applied: Applied, env: Env): Outcome
    requires d.manifest.Some?
  {
    var seen := Others(applied.state, env);
    if env(applied.state.tick).fault then GiveUp(d, applied.(state := seen), env)
    else
      var remaining := d.manifest.value.entries - KeySet(keys);
      var published := WithEntries(d, remaining).(files := seen.files);
      if remaining != map[] then Outcome(published, Done(Restored(actions), true), seen.history)
      else
        var last := Others(seen, env);
        if env(seen.tick).fault then Outcome(published.(files := last.files), Done(Restored(actions), false), last.history)
        else Outcome(Disk(last.files, None, map[]), Done(Restored(actions), true), last.history)
  }

  /** undoCheckpointSelectedWithPolicy for the selected keys in the order of the preflight. */
  function UndoKeys(d: Disk, keys: seq<Path>, allowExternal: bool, env: Env): Outcome
    requires d.manifest.Some? && forall k :: 0 <= k < |keys| ==> keys[k] in d.manifest.value.entries
  {
    match Preflight(d, d.manifest.value.entries, keys, allowExternal, {})
    case None => Outcome(d, Refused, [])
    case Some(actions) =>
      if Blocked(actions) then Outcome(d, Refused, [])
      else
        var applied := ApplyAll(Progress(d.files, [], 0), [], actions, env);
        if !applied.ok then GiveUp(d, applied, env) else Finish(d, keys, actions, applied, env)
  }

  // ----- undo writes only over states it recognises -----

  ghost predicate RecognisedAt(files: Files, h: Happening, entries: map<Path, Entry>)
    requires h.Own?
  {
    && h.path in entries && HasParent(files, h.path)
    && if h.phase == Applying then AtPost(files, h.path, entries[h.path]) else AtPre(files, h.path, entries[h.path])
  }

  /** Every own step of the history replaced a state that it recognised: the recorded postimage while
      applying, the preimage while rolling back; and in a directory that was there. */
  ghost predicate Recognised(files: Files, history: seq<Happening>, entries: map<Path, Entry>) {
    forall k :: 0 <= k < |history| && history[k].Own? ==> RecognisedAt(Replay(files, history[..k]), history[k], entries)
  }

  ghost predicate Told(files: Files, s: Progress, entries: map<Path, Entry>) {
    s.files == Replay(files, s.history) && Recognised(files, s.history, entries)
  }

  lemma ReplayMore(files: Files, history: seq<Happening>, h: Happening)
    ensures Replay(files, history + [h]) ==
            if h.ByOthers? then Outside(Replay(files, history), h.change) else Put(Replay(files, history), h.path, h.left)
  {
    hide Outside, Put;
    assert (history + [h])[..|history|] == history;
  }

  /** A longer history is recognised if its last step is. */
  lemma RecognisedMore(files: Files, history: seq<Happening>, h: Happening, entries: map<Path, Entry>)
    requires Recognised(files, history, entries) && (h.Own? ==> RecognisedAt(Replay(files, history), h, entries))
    ensures Recognised(files, history + [h], entries)
  {
    hide RecognisedAt, Replay;
    var longer := history + [h];
    assert longer[..|history|] == history;
    forall k | 0 <= k < |longer| && longer[k].Own? ensures RecognisedAt(Replay(files, longer[..k]), longer[k], entries) {
      if k < |history| {
        assert longer[..k] == history[..k] && longer[k] == history[k];
      }
    }
  }

  lemma OthersTold(files: Files, s: Progress, entries: map<Path, Entry>, env: Env)
    requires Told(files, s, entries)
    ensures Told(files, Others(s, env), entries)
  {
    hide Recognised, Replay, Outside;
    ReplayMore(files, s.history, ByOthers(env(s.tick).outside));
    RecognisedMore(files, s.history, ByOthers(env(s.tick).outside), entries);
  }

  lemma OwnTold(files: Files, s: Progress, entries: map<Path, Entry>, own: Happening)
    requires Told(files, s, entries) && own.Own? && RecognisedAt(s.files, own, entries)
    ensures Told(files, Progress(Put(s.files, own.path, own.left), s.history + [own], s.tick), entries)
  {
    hide Recognised, RecognisedAt, Replay, Put;
    ReplayMore(files, s.history, own);
    RecognisedMore(files, s.history, own, entries);
  }

  lemma GuardedTold(files: Files, s: Progress, entries: map<Path, Entry>, phase: Phase, p: Path, present: bool, digest: Digest,
                    node: Option<Node>, env: Env)
    requires Told(files, s, entries)
    requires var seen := Others(s, env).files;
             HasParent(seen, p) && Matches(seen, p, present, digest) ==> RecognisedAt(seen, Own(phase, p, node), entries)
    ensures Told(files, GuardedPut(s, phase, p, present, digest, node, env).0, entries)
  {
    hide Matches, Put, Others, RecognisedAt, Told;
    OthersTold(files, s, entries, env);
    var seen := Others(s, env);
    if RecognisedAt(seen.files, Own(phase, p, node), entries) {
      OwnTold(files, seen, entries, Own(phase, p, node));
    }
  }

  lemma PutTold(files: Files, s: Progress, entries: map<Path, Entry>, phase: Phase, a: Action, node: Option<Node>, env: Env)
    requires Told(files, s, entries) && a.path in entries && entries[a.path] == a.entry
    ensures phase == Applying ==>
              Told(files, GuardedPut(s, phase, a.path, a.entry.postExisted, a.entry.postimage, node, env).0, entries)
    ensures phase == RollingBack ==>
              Told(files, GuardedPut(s, phase, a.path, a.entry.existed, a.entry.preimage, node, env).0, entries)
  {
    hide GuardedPut, Told;
    if phase == Applying {
      GuardedTold(files, s, entries, phase, a.path, a.entry.postExisted, a.entry.postimage, node, env);
    } else {
      GuardedTold(files, s, entries, phase, a.path, a.entry.existed, a.entry.preimage, node, env);
    }
  }

  /** The actions are about the entries of the manifest. */
  ghost predicate AboutEntries(actions: seq<Action>, entries: map<Path, Entry>) {
    forall k :: 0 <= k < |actions| ==> actions[k].path in entries && entries[actions[k].path] == actions[k].entry
  }

  lemma {:induction false} ApplyTold(files: Files, s: Progress, done: seq<Action>, actions: seq<Action>, entries: map<Path, Entry>, env: Env)
    requires Told(files, s, entries) && AboutEntries(actions, entries) && AboutEntries(done, entries)
    ensures var applied := ApplyAll(s, done, actions, env);
            Told(files, applied.state, entries) && AboutEntries(applied.done, entries)
    decreases |actions|
  {
    hide Told, GuardedPut;
    if actions != [] {
      var a := actions[0];
      if a.status == AlreadyRestored {
        ApplyTold(files, s, done, actions[1..], entries, env);
      } else {
        PutTold(files, s, entries, Applying, a, a.restored, env);
        var (next, ok) := GuardedPut(s, Applying, a.path, a.entry.postExisted, a.entry.postimage, a.restored, env);
        if ok {
          ApplyTold(files, next, done + [a], actions[1..], entries, env);
        }
      }
    }
  }

  lemma {:induction false} RollbackTold(files: Files, s: Progress, done: seq<Action>, entries: map<Path, Entry>, env: Env)
    requires Told(files, s, entries) && AboutEntries(done, entries)
    ensures Told(files, Rollback(s, done, env).state, entries)
    decreases |done|
  {
    hide Told, GuardedPut, Others, AtPre, AtPost;
    if done != [] {
      var a := done[|done| - 1];
      OthersTold(files, s, entries, env);
      PutTold(files, Others(s, env), entries, RollingBack, a, a.original, env);
      RollbackTold(files, RollbackOne(s, a, env).state, done[..|done| - 1], entries, env);
    }
  }

  /** What the preflight knows about an entry that is not blocked. */
  ghost predicate FromPreflight(d: Disk, a: Action, allowExternal: bool) {
    a.status in {Restorable, AlreadyRestored} ==>
      && WellFormed(a.entry) && (a.entry.existed ==> BackupOk(d, a.entry, {}))
      && a.restored == RestoredNode(d, a.entry) && a.original == FileAt(d.files, a.path)
      && HasParent(d.files, a.path) && !IsDirectory(d.files, a.path)
      && a.status == StatusOf(d.files, a.path, a.entry)
  }

  lemma PreflightOneIs(d: Disk, p: Path, entry: Entry, allowExternal: bool, used: set<Path>)
    requires PreflightOne(d, p, entry, allowExternal, used).Some?
    ensures var a := PreflightOne(d, p, entry, allowExternal, used).value;
            a.path == p && a.entry == entry && FromPreflight(d, a, allowExternal)
  {
  }

  /** What the preflight says about an entry: which of the four it is, or that the undo is refused. */
  lemma PreflightTells(d: Disk, p: Path, entry: Entry, allowExternal: bool, used: set<Path>)
    ensures var action := PreflightOne(d, p, entry, allowExternal, used);
            var allowed := WellFormed(entry) && (p.external ==> allowExternal) && Creatable(d.files, p);
            var fit := allowed && !IsDirectory(d.files, p) && HasParent(d.files, p) && (entry.existed ==> BackupOk(d, entry, used));
            && (action.Some? && action.value.status == ExternalBlocked <==> WellFormed(entry) && p.external && !allowExternal)
            && (action.Some? && action.value.status == AlreadyRestored <==> fit && AtPre(d.files, p, entry))
            && (action.Some? && action.value.status == Restorable <==> fit && !AtPre(d.files, p, entry) && AtPost(d.files, p, entry))
            && (action.Some? && action.value.status == Conflict <==>
                  || (allowed && IsDirectory(d.files, p) && !p.external)
                  || (fit && !AtPre(d.files, p, entry) && !AtPost(d.files, p, entry)))
  {
  }

  lemma {:induction false} PreflightIs(d: Disk, entries: map<Path, Entry>, keys: seq<Path>, allowExternal: bool, used: set<Path>)
    requires forall k :: 0 <= k < |keys| ==> keys[k] in entries
    requires Preflight(d, entries, keys, allowExternal, used).Some?
    ensures var actions := Preflight(d, entries, keys, allowExternal, used).value;
            && |actions| == |keys| && AboutEntries(actions, entries)
            && forall k :: 0 <= k < |keys| ==> actions[k].path == keys[k] && FromPreflight(d, actions[k], allowExternal)
  {
    hide PreflightOne, FromPreflight, UsedAfter;
    if keys != [] {
      var p := keys[0];
      PreflightOneIs(d, p, entries[p], allowExternal, used);
      PreflightIs(d, entries, keys[1..], allowExternal, UsedAfter(d, p, entries[p], allowExternal, used));
    }
  }

  lemma StartTold(files: Files, entries: map<Path, Entry>)
    ensures Told(files, Progress(files, [], 0), entries)
    ensures Replay(files, []) == files && Recognised(files, [], entries)
  {
  }

  lemma GiveUpTold(d: Disk, applied: Applied, entries: map<Path, Entry>, env: Env)
    requires Told(d.files, applied.state, entries) && AboutEntries(applied.done, entries)
    ensures var o := GiveUp(d, applied, env);
            o.disk.files == Replay(d.files, o.history) && Recognised(d.files, o.history, entries)
  {
    RollbackTold(d.files, applied.state, applied.done, entries, env);
  }

  lemma FinishTold(d: Disk, keys: seq<Path>, actions: seq<Action>, applied: Applied, env: Env)
    requires d.manifest.Some? && Told(d.files, applied.state, d.manifest.value.entries)
    requires AboutEntries(applied.done, d.manifest.value.entries)
    ensures var o := Finish(d, keys, actions, applied, env);
            o.disk.files == Replay(d.files, o.history) && Recognised(d.files, o.history, d.manifest.value.entries)
  {
    hide Replay, Recognised, Others, GiveUp, Restored, AboutEntries;
    var entries := d.manifest.value.entries;
    OthersTold(d.files, applied.state, entries, env);
    var seen := Others(applied.state, env);
    OthersTold(d.files, seen, entries, env);
    GiveUpTold(d, applied.(state := seen), entries, env);
  }

  /** Whatever others do meanwhile, undo replaces or removes a file only in a state it recognised: the
      files are explained by what others did and by such own steps alone. */
  lemma OnlyRecognisedStates(d: Disk, keys: seq<Path>, allowExternal: bool, env: Env)
    requires d.manifest.Some? && forall k :: 0 <= k < |keys| ==> keys[k] in d.manifest.value.entries
    ensures var o := UndoKeys(d, keys, allowExternal, env);
            o.disk.files == Replay(d.files, o.history) && Recognised(d.files, o.history, d.manifest.value.entries)
  {
    hide Told, Preflight, ApplyAll, Rollback, Others;
    var entries := d.manifest.value.entries;
    StartTold(d.files, entries);
    if Preflight(d, entries, keys, allowExternal, {}).Some? {
      PreflightIs(d, entries, keys, allowExternal, {});
      var actions := Preflight(d, entries, keys, allowExternal, {}).value;
      ApplyTold(d.files, Progress(d.files, [], 0), [], actions, entries, env);
      var applied := ApplyAll(Progress(d.files, [], 0), [], actions, env);
      GiveUpTold(d, applied, entries, env);
      FinishTold(d, keys, actions, applied, env);
    }
  }

  // ----- what a complete rollback means, whatever others do -----

  /** At some moment the path was found at the postimage of its entry, or the next step was to put it back
      as the undo had found it. */
  ghost predicate SettledAt(files: Files, history: seq<Happening>, j: nat, p: Path, e: Entry, original: Option<Node>) {
    && j <= |history|
    && (AtPost(Replay(files, history[..j]), p, e) || (j < |history| && history[j] == Own(RollingBack, p, original)))
  }

  ghost predicate SettledFrom(files: Files, history: seq<Happening>, from: nat, a: Action) {
    exists j: nat :: from <= j && SettledAt(files, history, j, a.path, a.entry, a.original)
  }

  /** From some moment on, own steps only roll back. */
  ghost predicate RollsBack(history: seq<Happening>, from: nat) {
    forall k :: from <= k < |history| && history[k].Own? ==> history[k].phase == RollingBack
  }

  lemma SettledLonger(files: Files, history: seq<Happening>, longer: seq<Happening>, from: nat, earlier: nat, a: Action)
    requires SettledFrom(files, history, from, a) && history <= longer && earlier <= from
    ensures SettledFrom(files, longer, earlier, a)
  {
    var j: nat :| from <= j && SettledAt(files, history, j, a.path, a.entry, a.original);
    assert longer[..j] == history[..j];
    assert SettledAt(files, longer, j, a.path, a.entry, a.original);
  }

  /** A turn of the rollback that is not incomplete settles its path. */
  lemma TurnSettles(files: Files, s: Progress, a: Action, entries: map<Path, Entry>, env: Env)
    requires Told(files, s, entries) && a.path in entries && entries[a.path] == a.entry
    ensures var r := RollbackOne(s, a, env);
            && Told(files, r.state, entries) && s.history <= r.state.history && RollsBack(r.state.history, |s.history|)
            && (!r.incomplete ==> SettledFrom(files, r.state.history, |s.history|, a))
  {
    hide Recognised, AtPre, AtPost, Matches, HasParent, Put, Replay;
    OthersTold(files, s, entries, env);
    var seen := Others(s, env);
    PutTold(files, seen, entries, RollingBack, a, a.original, env);
    var r := RollbackOne(s, a, env);
    if !r.incomplete {
      if AtPost(seen.files, a.path, a.entry) {
        assert seen.history[..|seen.history|] == seen.history;
        assert SettledAt(files, r.state.history, |seen.history|, a.path, a.entry, a.original);
      } else {
        assert SettledAt(files, r.state.history, |r.state.history| - 1, a.path, a.entry, a.original);
      }
    }
  }

  lemma {:induction false} RollbackSettles(files: Files, s: Progress, done: seq<Action>, entries: map<Path, Entry>, env: Env)
    requires Told(files, s, entries) && AboutEntries(done, entries)
    ensures var r := Rollback(s, done, env);
            && s.history <= r.state.history && RollsBack(r.state.history, |s.history|)
            && (!r.incomplete ==> forall k :: 0 <= k < |done| ==> SettledFrom(files, r.state.history, |s.history|, done[k]))
    decreases |done|
  {
    hide Told, RollbackOne, SettledFrom;
    if done != [] {
      var n := |done| - 1;
      var turn := RollbackOne(s, done[n], env);
      TurnSettles(files, s, done[n], entries, env);
      RollbackSettles(files, turn.state, done[..n], entries, env);
      var r := Rollback(s, done, env);
      if !r.incomplete {
        SettledLonger(files, turn.state.history, r.state.history, |s.history|, |s.history|, done[n]);
        forall k | 0 <= k < |done| ensures SettledFrom(files, r.state.history, |s.history|, done[k]) {
          if k < n {
            assert done[..n][k] == done[k];
            SettledLonger(files, r.state.history, r.state.history, |turn.state.history|, |s.history|, done[k]);
          }
        }
      }
    }
  }

  /** The own steps so far applied the actions done, which remember what the undo found. */
  ghost predicate OnlyApplied(d: Disk, history: seq<Happening>, done: seq<Action>) {
    && (forall k :: 0 <= k < |done| ==> done[k].original == FileAt(d.files, done[k].path))
    && (forall k :: 0 <= k < |history| && history[k].Own? ==> exists i :: 0 <= i < |done| && done[i].path == history[k].path)
  }

  lemma OneMoreApplied(d: Disk, s: Progress, done: seq<Action>, a: Action, env: Env)
    requires OnlyApplied(d, s.history, done) && a.original == FileAt(d.files, a.path)
    ensures var (next, ok) := GuardedPut(s, Applying, a.path, a.entry.postExisted, a.entry.postimage, a.restored, env);
            OnlyApplied(d, next.history, if ok then done + [a] else done)
  {
    hide Matches, HasParent, Put, Outside;
    var (next, ok) := GuardedPut(s, Applying, a.path, a.entry.postExisted, a.entry.postimage, a.restored, env);
    var now := if ok then done + [a] else done;
    assert now[..|done|] == done;
    forall k | 0 <= k < |next.history| && next.history[k].Own? ensures exists i :: 0 <= i < |now| && now[i].path == next.history[k].path {
      if k < |s.history| {
        assert next.history[k] == s.history[k];
        var i :| 0 <= i < |done| && done[i].path == s.history[k].path;
        assert now[i].path == next.history[k].path;
      } else {
        assert now[|done|].path == a.path;
      }
    }
  }

  lemma {:induction false} ApplyApplies(d: Disk, s: Progress, done: seq<Action>, actions: seq<Action>, env: Env)
    requires OnlyApplied(d, s.history, done) && forall k :: 0 <= k < |actions| ==> actions[k].original == FileAt(d.files, actions[k].path)
    ensures var applied := ApplyAll(s, done, actions, env); OnlyApplied(d, applied.state.history, applied.done)
    decreases |actions|
  {
    hide OnlyApplied, GuardedPut;
    if actions != [] {
      var a := actions[0];
      if a.status == AlreadyRestored {
        ApplyApplies(d, s, done, actions[1..], env);
      } else {
        OneMoreApplied(d, s, done, a, env);
        var (next, ok) := GuardedPut(s, Applying, a.path, a.entry.postExisted, a.entry.postimage, a.restored, env);
        if ok {
          ApplyApplies(d, next, done + [a], actions[1..], env);
        }
      }
    }
  }

  /** After this moment of the history the path is settled, by a rollback. */
  ghost predicate SettledAfter(files: Files, history: seq<Happening>, k: nat, p: Path, e: Entry, original: Option<Node>) {
    exists j: nat :: k < j && RollsBack(history, j) && SettledAt(files, history, j, p, e, original)
  }

  lemma GiveUpSettles(d: Disk, applied: Applied, entries: map<Path, Entry>, env: Env, k: nat)
    requires Told(d.files, applied.state, entries) && AboutEntries(applied.done, entries)
    requires OnlyApplied(d, applied.state.history, applied.done)
    requires var o := GiveUp(d, applied, env);
             o.result == Failed(false) && k < |o.history| && o.history[k].Own? && o.history[k].phase == Applying
    ensures var o := GiveUp(d, applied, env);
            var p := o.history[k].path;
            p in entries && SettledAfter(d.files, o.history, k, p, entries[p], FileAt(d.files, p))
  {
    hide Told, SettledAt, Rollback;
    var from, history := |applied.state.history|, GiveUp(d, applied, env).history;
    RollbackSettles(d.files, applied.state, applied.done, entries, env);
    assert k < from && history[k] == applied.state.history[k];
    var i :| 0 <= i < |applied.done| && applied.done[i].path == history[k].path;
    var a := applied.done[i];
    var j: nat :| from <= j && SettledAt(d.files, history, j, a.path, a.entry, a.original);
    assert RollsBack(history, j);
  }

  lemma PausedApplied(d: Disk, s: Progress, done: seq<Action>, entries: map<Path, Entry>, env: Env)
    requires Told(d.files, s, entries) && OnlyApplied(d, s.history, done)
    ensures Told(d.files, Others(s, env), entries) && OnlyApplied(d, Others(s, env).history, done)
  {
    OthersTold(d.files, s, entries, env);
  }

  lemma UnblockedOriginals(d: Disk, actions: seq<Action>, allowExternal: bool)
    requires !Blocked(actions) && forall k :: 0 <= k < |actions| ==> FromPreflight(d, actions[k], allowExternal)
    ensures forall k :: 0 <= k < |actions| ==> actions[k].original == FileAt(d.files, actions[k].path)
  {
    forall k | 0 <= k < |actions| ensures actions[k].original == FileAt(d.files, actions[k].path) {
      assert !(actions[k].status == Conflict || actions[k].status == ExternalBlocked);
    }
  }

  lemma NothingApplied(d: Disk, entries: map<Path, Entry>)
    ensures OnlyApplied(d, [], []) && AboutEntries([], entries)
  {
  }

  /** Whatever others do meanwhile: when an undo fails and reports that everything was rolled back, then
      every path that it had changed was afterwards met at its postimage, or was put back as the undo had
      found it. */
  lemma CompleteRollback(d: Disk, keys: seq<Path>, allowExternal: bool, env: Env, k: nat)
    requires d.manifest.Some? && forall i :: 0 <= i < |keys| ==> keys[i] in d.manifest.value.entries
    requires var o := UndoKeys(d, keys, allowExternal, env);
             o.result == Failed(false) && k < |o.history| && o.history[k].Own? && o.history[k].phase == Applying
    ensures var o, entries := UndoKeys(d, keys, allowExternal, env), d.manifest.value.entries;
            var p := o.history[k].path;
            p in entries && SettledAfter(d.files, o.history, k, p, entries[p], FileAt(d.files, p))
  {
    hide Told, Preflight, ApplyAll, GiveUp, Others, OnlyApplied, AboutEntries, SettledAfter;
    var entries := d.manifest.value.entries;
    var actions := Preflight(d, entries, keys, allowExternal, {}).value;
    StartTold(d.files, entries);
    PreflightIs(d, entries, keys, allowExternal, {});
    UnblockedOriginals(d, actions, allowExternal);
    NothingApplied(d, entries);
    ApplyTold(d.files, Progress(d.files, [], 0), [], actions, entries, env);
    ApplyApplies(d, Progress(d.files, [], 0), [], actions, env);
    var applied := ApplyAll(Progress(d.files, [], 0), [], actions, env);
    if !applied.ok {
      GiveUpSettles(d, applied, entries, env, k);
    } else {
      PausedApplied(d, applied.state, applied.done, entries, env);
      GiveUpSettles(d, applied.(state := Others(applied.state, env)), entries, env, k);
    }
  }

  // ----- all or nothing -----

  ghost predicate NoOutsiders(env: Env) {
    forall t: nat :: env(t).outside == map[]
  }

  ghost predicate NoFaultFrom(env: Env, tick: nat) {
    forall t: nat :: tick <= t ==> !env(t).fault
  }

  /** The files after applying actions, when nobody interferes. */
  function ApplyPure(files: Files, actions: seq<Action>): Files
    decreases |actions|
  {
    if actions == [] then files
    else
      var last := actions[|actions| - 1];
      Put(ApplyPure(files, actions[..|actions| - 1]), last.path, last.restored)
  }

  predicate DistinctPaths(actions: seq<Action>) {
    forall i, j :: 0 <= i < j < |actions| ==> actions[i].path != actions[j].path
  }

  /** Actions that can be applied to the files and rolled back again. */
  ghost predicate Ready(d: Disk, actions: seq<Action>, allowExternal: bool) {
    DistinctPaths(actions) && forall k :: 0 <= k < |actions| ==> actions[k].status == Restorable && FromPreflight(d, actions[k], allowExternal)
  }

  lemma {:induction false} ApplyPureElsewhere(files: Files, actions: seq<Action>, p: Path)
    requires forall k :: 0 <= k < |actions| ==> actions[k].path != p
    ensures (p in ApplyPure(files, actions)) == (p in files)
    ensures p in files ==> ApplyPure(files, actions)[p] == files[p]
    decreases |actions|
  {
    if actions != [] {
      ApplyPureElsewhere(files, actions[..|actions| - 1], p);
    }
  }

  lemma ReadyPrefix(d: Disk, actions: seq<Action>, allowExternal: bool)
    requires Ready(d, actions, allowExternal) && actions != []
    ensures Ready(d, actions[..|actions| - 1], allowExternal)
  {
    hide FromPreflight;
    var prefix := actions[..|actions| - 1];
    assert forall k :: 0 <= k < |prefix| ==> prefix[k] == actions[k];
  }

  /** Applying and rolling back touches regular files only, so directories stay. */
  lemma {:induction false} ApplyPureDirectories(d: Disk, actions: seq<Action>, allowExternal: bool, p: Path)
    requires Ready(d, actions, allowExternal)
    ensures IsDirectory(ApplyPure(d.files, actions), p) == IsDirectory(d.files, p)
    decreases |actions|
  {
    if actions != [] {
      ReadyPrefix(d, actions, allowExternal);
      ApplyPureDirectories(d, actions[..|actions| - 1], allowExternal, p);
    }
  }

  lemma NoChange(files: Files)
    ensures Outside(files, map[]) == files
  {
  }

  lemma OthersNothing(s: Progress, env: Env)
    requires NoOutsiders(env)
    ensures Others(s, env).files == s.files && Others(s, env).tick == s.tick + 1
  {
    NoChange(s.files);
  }

  /** A restorable entry's restored state is its preimage and not its postimage. */
  lemma RestoredState(d: Disk, files: Files, a: Action, allowExternal: bool)
    requires FromPreflight(d, a, allowExternal) && a.status == Restorable && !IsDirectory(files, a.path)
    ensures var after := Put(files, a.path, a.restored); AtPre(after, a.path, a.entry) && !AtPost(after, a.path, a.entry)
  {
  }

  lemma ApplyPureLast(files: Files, actions: seq<Action>)
    requires actions != []
    ensures ApplyPure(files, actions) == Put(ApplyPure(files, actions[..|actions| - 1]), actions[|actions| - 1].path, actions[|actions| - 1].restored)
  {
  }

  lemma PreflightFacts(d: Disk, a: Action, allowExternal: bool)
    requires FromPreflight(d, a, allowExternal) && a.status in {Restorable, AlreadyRestored}
    ensures HasParent(d.files, a.path) && !IsDirectory(d.files, a.path) && a.original == FileAt(d.files, a.path)
    ensures a.status == StatusOf(d.files, a.path, a.entry)
  {
  }

  lemma PutBack(files: Files, p: Path, node: Option<Node>, original: Option<Node>)
    requires original == (if p in files then Some(files[p]) else None)
    ensures Put(Put(files, p, node), p, original) == files
  {
    assert Put(Put(files, p, node), p, original).Keys == files.Keys;
  }

  /** What the rollback of the last applied action meets: the restored state, which it recognises. */
  lemma LastIsAtPre(d: Disk, files: Files, actions: seq<Action>, allowExternal: bool)
    requires actions != [] && Ready(d, actions, allowExternal) && files == ApplyPure(d.files, actions)
    ensures var n := |actions| - 1;
            var a := actions[n];
            && AtPre(files, a.path, a.entry) && !AtPost(files, a.path, a.entry) && HasParent(files, a.path)
            && Put(files, a.path, a.original) == ApplyPure(d.files, actions[..n])
  {
    hide FromPreflight, AtPre, AtPost, ApplyPure;
    var n := |actions| - 1;
    var a, prefix := actions[n], actions[..n];
    var before := ApplyPure(d.files, prefix);
    ApplyPureLast(d.files, actions);
    ReadyPrefix(d, actions, allowExternal);
    ApplyPureElsewhere(d.files, prefix, a.path);
    ApplyPureDirectories(d, prefix, allowExternal, a.path);
    ApplyPureDirectories(d, actions, allowExternal, Parent(a.path));
    PreflightFacts(d, a, allowExternal);
    RestoredState(d, before, a, allowExternal);
    PutBack(before, a.path, a.restored, a.original);
  }

  lemma AtPreIs(files: Files, a: Action)
    ensures AtPre(files, a.path, a.entry) == Matches(files, a.path, a.entry.existed, a.entry.preimage)
  {
  }

  /** One turn of the rollback takes one applied action back. */
  lemma RollbackLast(d: Disk, s: Progress, actions: seq<Action>, allowExternal: bool, env: Env)
    requires NoOutsiders(env) && actions != [] && Ready(d, actions, allowExternal) && s.files == ApplyPure(d.files, actions)
    ensures var r := RollbackOne(s, actions[|actions| - 1], env);
            && (!r.incomplete ==> r.state.files == ApplyPure(d.files, actions[..|actions| - 1]))
            && (NoFaultFrom(env, s.tick) ==> !r.incomplete)
            && r.state.tick >= s.tick
  {
    hide Ready, AtPre, AtPost, Matches, ApplyPure, Others, Put, HasParent;
    LastIsAtPre(d, s.files, actions, allowExternal);
    OthersNothing(s, env);
    OthersNothing(Others(s, env), env);
    AtPreIs(s.files, actions[|actions| - 1]);
  }

  /** Rollback in reverse, when nobody interferes: complete means restored, and it is incomplete only
      if some step of it failed. */
  lemma {:induction false} RollbackUndoes(d: Disk, s: Progress, actions: seq<Action>, allowExternal: bool, env: Env)
    requires NoOutsiders(env) && Ready(d, actions, allowExternal) && s.files == ApplyPure(d.files, actions)
    ensures var r := Rollback(s, actions, env);
            && (!r.incomplete ==> r.state.files == d.files)
            && (NoFaultFrom(env, s.tick) ==> !r.incomplete)
    decreases |actions|
  {
    hide FromPreflight, RollbackOne, Ready;
    if actions != [] {
      var n := |actions| - 1;
      RollbackLast(d, s, actions, allowExternal, env);
      ReadyPrefix(d, actions, allowExternal);
      var r := RollbackOne(s, actions[n], env);
      if !r.incomplete {
        RollbackUndoes(d, r.state, actions[..n], allowExternal, env);
      }
    }
  }

  function Restorables(actions: seq<Action>): seq<Action> {
    if actions == [] then []
    else (if actions[0].status == AlreadyRestored then [] else [actions[0]]) + Restorables(actions[1..])
  }

  /** Actions of a preflight that blocked nothing. */
  ghost predicate Unblocked(d: Disk, actions: seq<Action>, allowExternal: bool) {
    forall k :: 0 <= k < |actions| ==> actions[k].status in {Restorable, AlreadyRestored} && FromPreflight(d, actions[k], allowExternal)
  }

  lemma PostHolds(files: Files, now: Files, a: Action)
    requires StatusOf(files, a.path, a.entry) == Restorable && (a.path in now) == (a.path in files)
    requires a.path in files ==> now[a.path] == files[a.path]
    ensures Matches(now, a.path, a.entry.postExisted, a.entry.postimage)
  {
  }

  /** What the apply loop meets at the next restorable entry: the state the preflight saw. */
  lemma StillPost(d: Disk, files: Files, done: seq<Action>, a: Action, allowExternal: bool)
    requires Ready(d, done, allowExternal) && files == ApplyPure(d.files, done)
    requires a.status == Restorable && FromPreflight(d, a, allowExternal) && forall k :: 0 <= k < |done| ==> done[k].path != a.path
    ensures HasParent(files, a.path) && Matches(files, a.path, a.entry.postExisted, a.entry.postimage)
  {
    hide FromPreflight, ApplyPure, AtPre, AtPost, Matches, Ready;
    PreflightFacts(d, a, allowExternal);
    ApplyPureElsewhere(d.files, done, a.path);
    ApplyPureDirectories(d, done, allowExternal, Parent(a.path));
    PostHolds(d.files, files, a);
  }

  lemma ReadyMore(d: Disk, done: seq<Action>, a: Action, allowExternal: bool)
    requires Ready(d, done, allowExternal)
    requires a.status == Restorable && FromPreflight(d, a, allowExternal) && forall k :: 0 <= k < |done| ==> done[k].path != a.path
    ensures Ready(d, done + [a], allowExternal)
    ensures ApplyPure(d.files, done + [a]) == Put(ApplyPure(d.files, done), a.path, a.restored)
  {
    hide FromPreflight;
    assert (done + [a])[..|done|] == done;
  }

  /** One turn of the apply loop succeeds unless the step itself fails. */
  lemma ApplyOne(d: Disk, s: Progress, done: seq<Action>, a: Action, allowExternal: bool, env: Env)
    requires NoOutsiders(env) && Ready(d, done, allowExternal) && s.files == ApplyPure(d.files, done)
    requires a.status == Restorable && FromPreflight(d, a, allowExternal) && forall k :: 0 <= k < |done| ==> done[k].path != a.path
    ensures var (next, ok) := GuardedPut(s, Applying, a.path, a.entry.postExisted, a.entry.postimage, a.restored, env);
            && ok == !env(s.tick).fault && next.tick == s.tick + 1
            && (ok ==> Ready(d, done + [a], allowExternal) && next.files == ApplyPure(d.files, done + [a]))
            && (!ok ==> next.files == s.files)
  {
    hide FromPreflight, ApplyPure, Matches, HasParent, Others, Ready, Put;
    OthersNothing(s, env);
    StillPost(d, s.files, done, a, allowExternal);
    ReadyMore(d, done, a, allowExternal);
  }

  lemma SplitDistinct(done: seq<Action>, actions: seq<Action>)
    requires actions != [] && DistinctPaths(done + actions)
    ensures DistinctPaths(done + [actions[0]] + actions[1..])
    ensures forall k :: 0 <= k < |done| ==> done[k].path != actions[0].path
  {
    var all := done + actions;
    assert done + [actions[0]] + actions[1..] == all;
    assert forall k :: 0 <= k < |done| ==> all[k] == done[k] && all[|done|] == actions[0];
  }

  lemma DropDistinct(done: seq<Action>, actions: seq<Action>)
    requires actions != [] && DistinctPaths(done + actions)
    ensures DistinctPaths(done + actions[1..])
  {
    var all, fewer := done + actions, done + actions[1..];
    forall i, j | 0 <= i < j < |fewer| ensures fewer[i].path != fewer[j].path {
      assert fewer[i] == all[if i < |done| then i else i + 1] && fewer[j] == all[if j < |done| then j else j + 1];
    }
  }

  lemma SplitUnblocked(d: Disk, actions: seq<Action>, allowExternal: bool)
    requires Unblocked(d, actions, allowExternal) && actions != []
    ensures actions[0].status in {Restorable, AlreadyRestored} && FromPreflight(d, actions[0], allowExternal)
    ensures Unblocked(d, actions[1..], allowExternal)
  {
    hide FromPreflight;
  }

  lemma NothingRestorable()
    ensures Restorables([]) == []
  {
  }

  lemma RestorablesMore(done: seq<Action>, actions: seq<Action>)
    requires actions != [] && actions[0].status != AlreadyRestored
    ensures done + [actions[0]] + Restorables(actions[1..]) == done + Restorables(actions)
  {
    var a, rest := actions[0], Restorables(actions[1..]);
    assert Restorables(actions) == [a] + rest;
  }

  lemma RestorablesSame(actions: seq<Action>)
    requires actions != [] && actions[0].status == AlreadyRestored
    ensures Restorables(actions[1..]) == Restorables(actions)
  {
  }

  /** A loop that comes to its end has done the restorable actions. */
  lemma {:induction false} ApplyDoesAll(s: Progress, done: seq<Action>, actions: seq<Action>, env: Env)
    requires ApplyAll(s, done, actions, env).ok
    ensures ApplyAll(s, done, actions, env).done == done + Restorables(actions)
    decreases |actions|
  {
    hide GuardedPut, Restorables;
    if actions == [] {
      NothingRestorable();
    } else if actions[0].status == AlreadyRestored {
      ApplyDoesAll(s, done, actions[1..], env);
      RestorablesSame(actions);
    } else {
      var a := actions[0];
      var (next, _) := GuardedPut(s, Applying, a.path, a.entry.postExisted, a.entry.postimage, a.restored, env);
      ApplyDoesAll(next, done + [a], actions[1..], env);
      RestorablesMore(done, actions);
    }
  }

  lemma {:induction false} ApplyIsPure(d: Disk, s: Progress, done: seq<Action>, actions: seq<Action>, allowExternal: bool, env: Env)
    requires NoOutsiders(env) && Ready(d, done, allowExternal) && s.files == ApplyPure(d.files, done)
    requires Unblocked(d, actions, allowExternal) && DistinctPaths(done + actions)
    ensures var r := ApplyAll(s, done, actions, env);
            && Ready(d, r.done, allowExternal) && r.state.files == ApplyPure(d.files, r.done)
            && r.state.tick >= s.tick
            && (!r.ok ==> r.state.tick > s.tick && env(r.state.tick - 1).fault)
    decreases |actions|
  {
    hide FromPreflight, ApplyPure, GuardedPut, Ready, DistinctPaths, Unblocked, NoOutsiders;
    if actions != [] {
      var a, rest := actions[0], actions[1..];
      SplitUnblocked(d, actions, allowExternal);
      if a.status == AlreadyRestored {
        DropDistinct(done, actions);
        ApplyIsPure(d, s, done, rest, allowExternal, env);
      } else {
        SplitDistinct(done, actions);
        ApplyOne(d, s, done, a, allowExternal, env);
        var (next, ok) := GuardedPut(s, Applying, a.path, a.entry.postExisted, a.entry.postimage, a.restored, env);
        if ok {
          ApplyIsPure(d, next, done + [a], rest, allowExternal, env);
        }
      }
    }
  }

  // ----- what undo leaves, described without its loops -----

  /** What an entry's path holds after a successful undo of it. */
  function UndoneNode(d: Disk, p: Path, entry: Entry): Option<Node> {
    if AtPre(d.files, p, entry) then FileAt(d.files, p)
    else if WellFormed(entry) && entry.existed && BackupOk(d, entry, {}) then RestoredNode(d, entry)
    else None
  }

  function UndoneFiles(d: Disk, entries: map<Path, Entry>, ks: set<Path>): Files
    requires ks <= entries.Keys
  {
    map p | p in d.files.Keys + ks && (p in ks ==> UndoneNode(d, p, entries[p]).Some?) ::
      if p in ks then UndoneNode(d, p, entries[p]).value else d.files[p]
  }

  /** The disk after undoing a set of entries. */
  function UndoneDisk(d: Disk, ks: set<Path>): Disk
    requires d.manifest.Some? && ks <= d.manifest.value.entries.Keys
  {
    var files := UndoneFiles(d, d.manifest.value.entries, ks);
    var remaining := d.manifest.value.entries - ks;
    if remaining == map[] then Disk(files, None, map[]) else WithEntries(d, remaining).(files := files)
  }

  lemma {:induction false} ApplyPureAt(files: Files, actions: seq<Action>, k: nat)
    requires DistinctPaths(actions) && k < |actions|
    ensures var after, a := ApplyPure(files, actions), actions[k];
            && (a.path in after) == a.restored.Some?
            && (a.restored.Some? ==> after[a.path] == a.restored.value)
    decreases |actions|
  {
    var n := |actions| - 1;
    if k < n {
      assert actions[..n][k] == actions[k];
      assert forall i :: 0 <= i < n ==> actions[..n][i] == actions[i];
      ApplyPureAt(files, actions[..n], k);
    }
  }

  lemma {:induction false} RestorablesAre(actions: seq<Action>)
    requires DistinctPaths(actions) && forall k :: 0 <= k < |actions| ==> actions[k].status in {Restorable, AlreadyRestored}
    ensures forall a :: a in Restorables(actions) <==> a in actions && a.status == Restorable
    ensures DistinctPaths(Restorables(actions))
  {
    if actions != [] {
      var rest := actions[1..];
      assert DistinctPaths(rest) by { DropDistinct([], actions); assert [] + rest == rest && [] + actions == actions; }
      RestorablesAre(rest);
      assert forall a :: a in actions <==> a == actions[0] || a in rest;
      forall j | 0 <= j < |Restorables(rest)| ensures Restorables(rest)[j].path != actions[0].path {
        assert Restorables(rest)[j] in rest;
        var k :| 0 <= k < |rest| && rest[k] == Restorables(rest)[j];
        assert actions[k + 1] == rest[k];
      }
    }
  }

  function Lookup(files: Files, p: Path): Option<Node> {
    if p in files then Some(files[p]) else None
  }

  lemma SameLookups(left: Files, right: Files)
    requires forall p :: Lookup(left, p) == Lookup(right, p)
    ensures left == right
  {
    forall p ensures (p in left) == (p in right) && (p in left ==> left[p] == right[p]) {
      assert Lookup(left, p) == Lookup(right, p);
    }
  }

  lemma UndoneOne(d: Disk, a: Action, allowExternal: bool)
    requires FromPreflight(d, a, allowExternal) && a.status in {Restorable, AlreadyRestored}
    ensures UndoneNode(d, a.path, a.entry) == if a.status == Restorable then a.restored else Lookup(d.files, a.path)
  {
  }

  lemma OtherPaths(actions: seq<Action>, i: nat)
    requires DistinctPaths(actions) && i < |actions| && actions[i].status == AlreadyRestored
    requires forall k :: 0 <= k < |actions| ==> actions[k].status in {Restorable, AlreadyRestored}
    ensures forall k :: 0 <= k < |Restorables(actions)| ==> Restorables(actions)[k].path != actions[i].path
  {
    RestorablesAre(actions);
    forall k | 0 <= k < |Restorables(actions)| ensures Restorables(actions)[k].path != actions[i].path {
      assert Restorables(actions)[k] in actions;
      var j :| 0 <= j < |actions| && actions[j] == Restorables(actions)[k];
      assert i != j;
    }
  }

  lemma SelectedAt(d: Disk, actions: seq<Action>, allowExternal: bool, i: nat)
    requires Unblocked(d, actions, allowExternal) && DistinctPaths(actions) && i < |actions|
    ensures Lookup(ApplyPure(d.files, Restorables(actions)), actions[i].path) == UndoneNode(d, actions[i].path, actions[i].entry)
  {
    hide FromPreflight, ApplyPure, UndoneNode;
    var todo, a := Restorables(actions), actions[i];
    RestorablesAre(actions);
    UndoneOne(d, a, allowExternal);
    if a.status == Restorable {
      assert a in todo;
      var k :| 0 <= k < |todo| && todo[k] == a;
      ApplyPureAt(d.files, todo, k);
    } else {
      OtherPaths(actions, i);
      ApplyPureElsewhere(d.files, todo, a.path);
    }
  }

  lemma UnselectedAt(files: Files, actions: seq<Action>, p: Path)
    requires DistinctPaths(actions) && forall k :: 0 <= k < |actions| ==> actions[k].status in {Restorable, AlreadyRestored} && actions[k].path != p
    ensures Lookup(ApplyPure(files, Restorables(actions)), p) == Lookup(files, p)
  {
    hide ApplyPure;
    var todo := Restorables(actions);
    RestorablesAre(actions);
    forall k | 0 <= k < |todo| ensures todo[k].path != p {
      assert todo[k] in actions;
    }
    ApplyPureElsewhere(files, todo, p);
  }

  ghost predicate AllAbout(keys: seq<Path>, actions: seq<Action>, entries: map<Path, Entry>) {
    |actions| == |keys| && AboutEntries(actions, entries) && forall k :: 0 <= k < |keys| ==> actions[k].path == keys[k]
  }

  lemma ApplyPureIsUndone(d: Disk, keys: seq<Path>, actions: seq<Action>, allowExternal: bool)
    requires d.manifest.Some? && Unblocked(d, actions, allowExternal) && DistinctPaths(actions)
    requires AllAbout(keys, actions, d.manifest.value.entries) && KeySet(keys) <= d.manifest.value.entries.Keys
    ensures ApplyPure(d.files, Restorables(actions)) == UndoneFiles(d, d.manifest.value.entries, KeySet(keys))
  {
    hide FromPreflight, ApplyPure, UndoneNode;
    var entries := d.manifest.value.entries;
    var left, right := ApplyPure(d.files, Restorables(actions)), UndoneFiles(d, entries, KeySet(keys));
    forall p ensures Lookup(left, p) == Lookup(right, p) {
      if p in KeySet(keys) {
        assert p in keys;
        var i :| 0 <= i < |keys| && keys[i] == p;
        SelectedAt(d, actions, allowExternal, i);
      } else {
        UnselectedAt(d.files, actions, p);
      }
    }
    SameLookups(left, right);
  }

  predicate DistinctKeys(keys: seq<Path>) {
    forall i, j :: 0 <= i < j < |keys| ==> keys[i] != keys[j]
  }

  ghost predicate AtMostOneFault(env: Env) {
    forall s: nat, t: nat :: env(s).fault && env(t).fault ==> s == t
  }

  lemma NotBlocked(d: Disk, actions: seq<Action>, allowExternal: bool)
    requires !Blocked(actions) && forall k :: 0 <= k < |actions| ==> FromPreflight(d, actions[k], allowExternal)
    ensures Unblocked(d, actions, allowExternal)
  {
    hide FromPreflight;
    forall k | 0 <= k < |actions| ensures actions[k].status in {Restorable, AlreadyRestored} {
      assert !(actions[k].status == Conflict || actions[k].status == ExternalBlocked);
    }
  }

  lemma NothingReady(d: Disk, allowExternal: bool)
    ensures Ready(d, [], allowExternal) && ApplyPure(d.files, []) == d.files
  {
  }

  lemma ApplyFromStart(d: Disk, actions: seq<Action>, allowExternal: bool, env: Env)
    requires NoOutsiders(env) && Unblocked(d, actions, allowExternal) && DistinctPaths(actions)
    ensures var r := ApplyAll(Progress(d.files, [], 0), [], actions, env);
            && Ready(d, r.done, allowExternal) && r.state.files == ApplyPure(d.files, r.done)
            && (r.ok ==> r.done == Restorables(actions))
            && (!r.ok ==> r.state.tick > 0 && env(r.state.tick - 1).fault)
  {
    hide FromPreflight, Ready, ApplyPure, DistinctPaths, Unblocked, ApplyAll, Restorables;
    NothingReady(d, allowExternal);
    assert [] + actions == actions && [] + Restorables(actions) == Restorables(actions);
    ApplyIsPure(d, Progress(d.files, [], 0), [], actions, allowExternal, env);
    if ApplyAll(Progress(d.files, [], 0), [], actions, env).ok {
      ApplyDoesAll(Progress(d.files, [], 0), [], actions, env);
    }
  }

  lemma GiveUpUndoes(d: Disk, applied: Applied, allowExternal: bool, env: Env)
    requires NoOutsiders(env) && Ready(d, applied.done, allowExternal) && applied.state.files == ApplyPure(d.files, applied.done)
    requires applied.state.tick > 0 && env(applied.state.tick - 1).fault
    ensures var o := GiveUp(d, applied, env);
            && o.result.Failed? && (!o.result.incomplete ==> o.disk == d) && (AtMostOneFault(env) ==> !o.result.incomplete)
  {
    hide Ready, ApplyPure, Rollback;
    RollbackUndoes(d, applied.state, applied.done, allowExternal, env);
  }

  /** The checkpoint without its entries, whose directory could not be removed. */
  function Uncleaned(d: Disk, files: Files): Disk
    requires d.manifest.Some?
  {
    Disk(files, Some(Manifest(d.manifest.value.owner, map[])), d.backups)
  }

  lemma FinishDoes(d: Disk, keys: seq<Path>, actions: seq<Action>, applied: Applied, allowExternal: bool, env: Env)
    requires d.manifest.Some? && NoOutsiders(env) && KeySet(keys) <= d.manifest.value.entries.Keys
    requires Ready(d, applied.done, allowExternal) && applied.state.files == ApplyPure(d.files, applied.done)
    requires applied.state.files == UndoneFiles(d, d.manifest.value.entries, KeySet(keys))
    ensures var o := Finish(d, keys, actions, applied, env);
            && (o.result == Failed(false) ==> o.disk == d)
            && (AtMostOneFault(env) ==> o.result != Failed(true))
            && (o.result.Done? ==>
                  && o.disk.files == UndoneDisk(d, KeySet(keys)).files
                  && (if o.result.cleaned then o.disk == UndoneDisk(d, KeySet(keys)) else o.disk == Uncleaned(d, o.disk.files)))
            && (o.result.Failed? || o.result.Done?)
            && (NoFaultFrom(env, 0) ==> o.result == Done(Restored(actions), true))
  {
    hide Ready, ApplyPure, GiveUp, UndoneFiles, Restored;
    OthersNothing(applied.state, env);
    var seen := Others(applied.state, env);
    OthersNothing(seen, env);
    if env(applied.state.tick).fault {
      GiveUpUndoes(d, applied.(state := seen), allowExternal, env);
    }
  }

  /** All or nothing, when nobody interferes: a refused undo and one whose rollback was complete leave
      files (content, existence and mode), manifest and backups as they were; the rollback after any
      single failure is complete; and a finished undo leaves exactly the undone disk, or, when only the
      removal of the checkpoint's directory failed, the undone files and a checkpoint without entries. */
  lemma AllOrNothing(d: Disk, keys: seq<Path>, allowExternal: bool, env: Env)
    requires d.manifest.Some? && DistinctKeys(keys) && NoOutsiders(env)
    requires forall k :: 0 <= k < |keys| ==> keys[k] in d.manifest.value.entries
    ensures var o := UndoKeys(d, keys, allowExternal, env);
            && (o.result == Refused || o.result == Failed(false) ==> o.disk == d)
            && (AtMostOneFault(env) ==> o.result != Failed(true))
            && (o.result.Done? ==>
                  && KeySet(keys) <= d.manifest.value.entries.Keys
                  && o.disk.files == UndoneDisk(d, KeySet(keys)).files
                  && (if o.result.cleaned then o.disk == UndoneDisk(d, KeySet(keys)) else o.disk == Uncleaned(d, o.disk.files)))
  {
    hide Preflight, ApplyAll, GiveUp, UndoneFiles, FromPreflight;
    var entries := d.manifest.value.entries;
    if Preflight(d, entries, keys, allowExternal, {}).Some? {
      PreflightIs(d, entries, keys, allowExternal, {});
      var actions := Preflight(d, entries, keys, allowExternal, {}).value;
      assert DistinctPaths(actions);
      if !Blocked(actions) {
        NotBlocked(d, actions, allowExternal);
        ApplyFromStart(d, actions, allowExternal, env);
        var applied := ApplyAll(Progress(d.files, [], 0), [], actions, env);
        if !applied.ok {
          GiveUpUndoes(d, applied, allowExternal, env);
        } else {
          ApplyPureIsUndone(d, keys, actions, allowExternal);
          FinishDoes(d, keys, actions, applied, allowExternal, env);
        }
      }
    }
  }
}
