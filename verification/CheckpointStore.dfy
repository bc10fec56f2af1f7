/** The capture side of the checkpoint engine (internal/agent/checkpoint.go,
    internal/agent/checkpoint_scope.go): a run's manifest of preimages, taken once per file, and the
    postimages that are recorded after each batch of edits. */
module CheckpointStore {
  import opened Text
  import opened Wrappers

  // ----- files -----

  /** A file below the workspace or, in full mode, below the root of the file system. */
  datatype Path = Path(external: bool, parts: seq<string>)

  type Mode = m: nat | m <= 0x1FF

  datatype Node = Directory | Regular(content: string, mode: Mode)

  type Files = map<Path, Node>

  predicate IsRegular(files: Files, p: Path) {
    p in files && files[p].Regular?
  }

  predicate IsDirectory(files: Files, p: Path) {
    p in files && files[p].Directory?
  }

  function Content(files: Files, p: Path): string {
    if IsRegular(files, p) then files[p].content else ""
  }

  /** The regular file at a path, if there is one. */
  function FileAt(files: Files, p: Path): Option<Node> {
    if IsRegular(files, p) then Some(files[p]) else None
  }

  function Parent(p: Path): Path {
    if p.parts == [] then p else Path(p.external, p.parts[..|p.parts| - 1])
  }

  /** The root directories always exist. */
  predicate HasParent(files: Files, p: Path) {
    Parent(p).parts == [] || IsDirectory(files, Parent(p))
  }

  function Ancestors(p: Path): set<Path> {
    set k: nat | 1 <= k < |p.parts| :: Path(p.external, p.parts[..k])
  }

  /** No directory on the way to the path is taken by a regular file. */
  predicate Creatable(files: Files, p: Path) {
    p.parts != [] && forall q :: q in Ancestors(p) ==> !IsRegular(files, q)
  }

  /** MkdirAll for the directory of a file. */
  function MakeDirectories(files: Files, p: Path): Files {
    map q | q in files.Keys + Ancestors(p) :: if q in files then files[q] else Directory
  }

  // ----- the manifest -----

  const ABSENT_MARK := "corelay-checkpoint-absent-v1"

  /** A SHA-256 revision, identified with what was hashed, or any other text. */
  datatype Digest = Sha256(content: string) | Malformed(text: string)

  /** checkpointStateRevision */
  function Revision(present: bool, content: string): Digest {
    Sha256(if present then content else ABSENT_MARK)
  }

  function FileRevision(files: Files, p: Path): Digest {
    Revision(IsRegular(files, p), Content(files, p))
  }

  /** One file of a manifest. `backup` names the copy of the preimage. */
  datatype Entry = Entry(
    existed: bool, backup: Option<Path>, preimage: Digest, mode: Option<nat>,
    captured: bool, postExisted: bool, postimage: Digest)

  datatype Owner = Owner(session: string, revision: nat, runId: string, generation: string)

  datatype Manifest = Manifest(owner: Owner, entries: map<Path, Entry>)

  /** The checkpoint directory of one session, and the files it is about. */
  datatype Disk = Disk(files: Files, manifest: Option<Manifest>, backups: map<Path, string>)

  predicate ValidOwner(owner: Owner) {
    TrimSpace(owner.runId) != "" && TrimSpace(owner.generation) != ""
  }

  /** The manifest that an owner may work on; None otherwise. */
  function OwnManifest(d: Disk, owner: Owner): Option<Manifest> {
    if ValidOwner(owner) && d.manifest.Some? && d.manifest.value.owner == owner then d.manifest else None
  }

  function WithEntries(d: Disk, entries: map<Path, Entry>): Disk
    requires d.manifest.Some?
  {
    d.(manifest := Some(d.manifest.value.(entries := entries)))
  }

  /** startCheckpoint: a new, empty generation. */
  function Start(d: Disk, owner: Owner): Disk {
    Disk(d.files, Some(Manifest(owner, map[])), map[])
  }

  const NOTHING_RECORDED := Malformed("")

  function Preimage(files: Files, p: Path): Entry {
    if IsRegular(files, p) then
      Entry(true, Some(p), Revision(true, files[p].content), Some(files[p].mode), false, false, NOTHING_RECORDED)
    else Entry(false, None, Revision(false, ""), None, false, false, NOTHING_RECORDED)
  }

  /** A path whose state the engine can read: not a directory, and not below a regular file. */
  predicate Readable(files: Files, p: Path) {
    Creatable(files, p) && !IsDirectory(files, p)
  }

  /** checkpointFile; None for its errors. */
  function Capture(d: Disk, owner: Owner, p: Path): Option<Disk> {
    match OwnManifest(d, owner)
    case None => None
    case Some(m) =>
      if !Readable(d.files, p) then None
      else if p in m.entries then Some(d)
      else
        var saved := if IsRegular(d.files, p) then d.(backups := d.backups[p := d.files[p].content]) else d;
        Some(WithEntries(saved, m.entries[p := Preimage(d.files, p)]))
  }

  /** A mutation that an executor committed: the path, the revision it left, and the file before it. */
  datatype Mutation = Mutation(path: Path, revision: Digest, snapshot: Option<Node>)

  /** The last revision of every mutated path. */
  function Finals(mutations: seq<Mutation>): map<Path, Digest> {
    if mutations == [] then map[]
    else
      var last := mutations[|mutations| - 1];
      Finals(mutations[..|mutations| - 1])[last.path := last.revision]
  }

  /** The postimage of a path can be recorded. */
  predicate Recordable(files: Files, entries: map<Path, Entry>, finals: map<Path, Digest>, p: Path)
    requires p in finals
  {
    p in entries && IsRegular(files, p) && Revision(true, files[p].content) == finals[p]
  }

  function Recorded(entry: Entry, revision: Digest): Entry {
    entry.(captured := true, postExisted := true, postimage := revision)
  }

  /** recordCheckpointPostimages; None for its errors, which leave the manifest alone. */
  function Record(d: Disk, owner: Owner, mutations: seq<Mutation>): Option<Disk> {
    var finals := Finals(mutations);
    match OwnManifest(d, owner)
    case None => None
    case Some(m) =>
      if mutations == [] || (exists k :: 0 <= k < |mutations| && !mutations[k].revision.Sha256?) then None
      else if exists p :: p in finals && !Recordable(d.files, m.entries, finals, p) then None
      else Some(WithEntries(d, map p | p in m.entries :: if p in finals then Recorded(m.entries[p], finals[p]) else m.entries[p]))
  }

  /** The file is back at the preimage of its entry. */
  predicate AtPreimage(files: Files, p: Path, entry: Entry) {
    IsRegular(files, p) == entry.existed && FileRevision(files, p) == entry.preimage
  }

  /** The loop of settleCheckpointPostimages; a path seen before is settled already. */
  function SettleAll(files: Files, entries: map<Path, Entry>, paths: seq<Path>): Option<map<Path, Entry>>
    decreases |paths|
  {
    if paths == [] then Some(entries)
    else
      var p := paths[0];
      if !Readable(files, p) || p !in entries then None
      else if entries[p].captured then SettleAll(files, entries, paths[1..])
      else if !AtPreimage(files, p, entries[p]) then None
      else
        var settled := entries[p].(captured := true, postExisted := IsRegular(files, p), postimage := FileRevision(files, p));
        SettleAll(files, entries[p := settled], paths[1..])
  }

  function Settle(d: Disk, owner: Owner, paths: seq<Path>): Option<Disk> {
    match OwnManifest(d, owner)
    case None => None
    case Some(m) =>
      if paths == [] then None
      else
        match SettleAll(d.files, m.entries, paths)
        case None => None
        case Some(entries) => Some(WithEntries(d, entries))
  }

  // ----- what recording and settling require and leave -----

  /** The mutation is the last one of its path. */
  predicate LastOf(mutations: seq<Mutation>, k: nat)
    requires k < |mutations|
  {
    forall i :: k < i < |mutations| ==> mutations[i].path != mutations[k].path
  }

  predicate Mutated(mutations: seq<Mutation>, p: Path) {
    exists k :: 0 <= k < |mutations| && mutations[k].path == p
  }

  lemma {:induction false} FinalsKeys(mutations: seq<Mutation>, p: Path)
    ensures p in Finals(mutations) <==> Mutated(mutations, p)
  {
    if mutations != [] {
      var n := |mutations| - 1;
      FinalsKeys(mutations[..n], p);
      if Mutated(mutations[..n], p) {
        var k :| 0 <= k < n && mutations[..n][k].path == p;
        assert mutations[k].path == p;
      }
      if Mutated(mutations, p) && mutations[n].path != p {
        var k :| 0 <= k < |mutations| && mutations[k].path == p;
        assert mutations[..n][k].path == p;
      }
    }
  }

  lemma {:induction false} FinalOf(mutations: seq<Mutation>, p: Path) returns (k: nat)
    requires p in Finals(mutations)
    ensures k < |mutations| && mutations[k].path == p && LastOf(mutations, k) && Finals(mutations)[p] == mutations[k].revision
  {
    var n := |mutations| - 1;
    if mutations[n].path == p {
      k := n;
    } else {
      k := FinalOf(mutations[..n], p);
      assert forall i :: k < i < n ==> mutations[..n][i] == mutations[i];
    }
  }

  lemma FinalsAre(mutations: seq<Mutation>)
    ensures forall k :: 0 <= k < |mutations| && LastOf(mutations, k) ==>
              mutations[k].path in Finals(mutations) && Finals(mutations)[mutations[k].path] == mutations[k].revision
    ensures forall p :: p in Finals(mutations) <==> Mutated(mutations, p)
    ensures forall p :: p in Finals(mutations) ==> exists k :: 0 <= k < |mutations| && mutations[k].path == p && LastOf(mutations, k)
  {
    hide Finals;
    forall p ensures p in Finals(mutations) <==> Mutated(mutations, p) {
      FinalsKeys(mutations, p);
    }
    forall p | p in Finals(mutations) ensures exists k :: 0 <= k < |mutations| && mutations[k].path == p && LastOf(mutations, k) {
      var k := FinalOf(mutations, p);
    }
    forall k | 0 <= k < |mutations| && LastOf(mutations, k)
      ensures mutations[k].path in Finals(mutations) && Finals(mutations)[mutations[k].path] == mutations[k].revision
    {
      var p := mutations[k].path;
      assert Mutated(mutations, p);
      var last := FinalOf(mutations, p);
      assert !(k < last) && !(last < k);
    }
  }

  /** Postimages are recorded exactly if there are some, all of them digests, and every mutated file is in
      the manifest and still has the content that its last mutation left. */
  lemma RecordedIff(d: Disk, owner: Owner, mutations: seq<Mutation>)
    ensures Record(d, owner, mutations).Some? <==>
              && ValidOwner(owner) && d.manifest.Some? && d.manifest.value.owner == owner
              && mutations != [] && (forall k :: 0 <= k < |mutations| ==> mutations[k].revision.Sha256?)
              && forall k :: 0 <= k < |mutations| && LastOf(mutations, k) ==>
                   && mutations[k].path in d.manifest.value.entries && IsRegular(d.files, mutations[k].path)
                   && FileRevision(d.files, mutations[k].path) == mutations[k].revision
  {
    hide ValidOwner, Finals, LastOf;
    FinalsAre(mutations);
  }

  /** What recording leaves: the mutated files have their present revision as their postimage, and nothing
      else changes. */
  lemma RecordLeaves(d: Disk, owner: Owner, mutations: seq<Mutation>, p: Path)
    requires Record(d, owner, mutations).Some? && p in d.manifest.value.entries
    ensures var e := Record(d, owner, mutations).value;
            && e == d.(manifest := e.manifest) && e.manifest.Some? && e.manifest.value.owner == owner
            && e.manifest.value.entries.Keys == d.manifest.value.entries.Keys
            && e.manifest.value.entries[p] ==
               if Mutated(mutations, p)
               then d.manifest.value.entries[p].(captured := true, postExisted := true, postimage := FileRevision(d.files, p))
               else d.manifest.value.entries[p]
  {
    hide ValidOwner, Finals, LastOf;
    FinalsAre(mutations);
    if p in Finals(mutations) {
      assert Recordable(d.files, d.manifest.value.entries, Finals(mutations), p);
    }
  }

  /** A path can be settled: its state can be read, and it has a postimage or is back at its preimage. */
  predicate Settleable(files: Files, entries: map<Path, Entry>, p: Path) {
    && Readable(files, p) && p in entries
    && (entries[p].captured || (IsRegular(files, p) == entries[p].existed && FileRevision(files, p) == entries[p].preimage))
  }

  lemma NotSettled(files: Files, entries: map<Path, Entry>, paths: seq<Path>)
    requires paths != [] && !Settleable(files, entries, paths[0])
    ensures SettleAll(files, entries, paths) == None
  {
  }

  lemma {:induction false} SettledIff(files: Files, entries: map<Path, Entry>, paths: seq<Path>)
    ensures SettleAll(files, entries, paths).Some? <==> forall p :: p in paths ==> Settleable(files, entries, p)
    ensures SettleAll(files, entries, paths).Some? ==>
              var after := SettleAll(files, entries, paths).value;
              && after.Keys == entries.Keys
              && forall p :: p in entries ==>
                   after[p] == if p in paths && !entries[p].captured
                               then entries[p].(captured := true, postExisted := IsRegular(files, p), postimage := FileRevision(files, p))
                               else entries[p]
    decreases |paths|
  {
    hide Readable, FileRevision, IsRegular;
    if paths != [] {
      var p, rest := paths[0], paths[1..];
      assert p in paths && forall q :: q in paths <==> q == p || q in rest;
      if Settleable(files, entries, p) {
        if entries[p].captured {
          SettledIff(files, entries, rest);
        } else {
          var settled := entries[p].(captured := true, postExisted := IsRegular(files, p), postimage := FileRevision(files, p));
          SettledIff(files, entries[p := settled], rest);
          assert forall q :: q in rest ==> (Settleable(files, entries[p := settled], q) <==> Settleable(files, entries, q));
        }
      } else {
        NotSettled(files, entries, paths);
      }
    }
  }

  // ----- one owner at a time -----

  datatype Operation =
    | StartOp
    | CaptureOp(path: Path)
    | RecordOp(mutations: seq<Mutation>)
    | SettleOp(paths: seq<Path>)

  /** The disk after an operation of an owner; unchanged when it reports an error. */
  function After(d: Disk, owner: Owner, op: Operation): Disk {
    var result := match op
                  case StartOp => if ValidOwner(owner) then Some(Start(d, owner)) else None
                  case CaptureOp(p) => Capture(d, owner, p)
                  case RecordOp(mutations) => Record(d, owner, mutations)
                  case SettleOp(paths) => Settle(d, owner, paths);
    if result.Some? then result.value else d
  }

  function AfterAll(d: Disk, owner: Owner, ops: seq<Operation>): Disk
    decreases |ops|
  {
    if ops == [] then d else AfterAll(After(d, owner, ops[0]), owner, ops[1..])
  }

  predicate OwnedBy(d: Disk, owner: Owner) {
    d.manifest.Some? && d.manifest.value.owner == owner
  }

  /** Another owner cannot write into a manifest: it fails, or it starts a manifest of its own. */
  lemma OthersCannotWrite(d: Disk, owner: Owner, other: Owner, op: Operation)
    requires OwnedBy(d, owner) && other != owner
    ensures var e := After(d, other, op);
            && e.files == d.files
            && (e != d ==> op == StartOp && e.manifest == Some(Manifest(other, map[])) && e.backups == map[])
  {
  }

  /** And after it started one, the first owner cannot write any more without starting over. */
  lemma {:induction false} ReplacedOwnerCannotWrite(d: Disk, owner: Owner, other: Owner, ops: seq<Operation>)
    requires ValidOwner(other) && owner != other && StartOp !in ops
    ensures AfterAll(Start(d, other), owner, ops) == Start(d, other)
    decreases |ops|
  {
    if ops != [] {
      OthersCannotWrite(Start(d, other), other, owner, ops[0]);
      assert After(Start(d, other), owner, ops[0]) == Start(d, other);
      ReplacedOwnerCannotWrite(d, owner, other, ops[1..]);
    }
  }

  /** What an entry says about the state before the run. */
  predicate SamePreimage(before: Entry, after: Entry) {
    && after.existed == before.existed && after.preimage == before.preimage
    && after.backup == before.backup && after.mode == before.mode
  }

  lemma {:induction false} SettleKeepsPreimages(files: Files, entries: map<Path, Entry>, paths: seq<Path>, p: Path)
    requires SettleAll(files, entries, paths).Some? && p in entries
    ensures var after := SettleAll(files, entries, paths).value;
            p in after && SamePreimage(entries[p], after[p]) && (entries[p].captured ==> after[p] == entries[p])
    decreases |paths|
  {
    hide Readable, AtPreimage, FileRevision;
    if paths != [] {
      var q := paths[0];
      if entries[q].captured {
        SettleKeepsPreimages(files, entries, paths[1..], p);
      } else {
        var settled := entries[q].(captured := true, postExisted := IsRegular(files, q), postimage := FileRevision(files, q));
        SettleKeepsPreimages(files, entries[q := settled], paths[1..], p);
      }
    }
  }

  lemma CapturedOnceStep(d: Disk, owner: Owner, op: Operation, p: Path)
    requires OwnedBy(d, owner) && p in d.manifest.value.entries && op != StartOp
    ensures var e := After(d, owner, op);
            && OwnedBy(e, owner) && p in e.manifest.value.entries
            && SamePreimage(d.manifest.value.entries[p], e.manifest.value.entries[p])
            && (p in d.backups ==> p in e.backups && e.backups[p] == d.backups[p])
            && e.files == d.files
  {
    hide Readable, Recordable, SettleAll, TrimSpace;
    if op.SettleOp? && OwnManifest(d, owner).Some? && SettleAll(d.files, d.manifest.value.entries, op.paths).Some? {
      SettleKeepsPreimages(d.files, d.manifest.value.entries, op.paths, p);
    }
  }

  /** A preimage is captured once: nothing that its owner does within the generation changes the entry's
      preimage or the backup. */
  lemma {:induction false} CapturedOnce(d: Disk, owner: Owner, ops: seq<Operation>, p: Path)
    requires OwnedBy(d, owner) && p in d.manifest.value.entries && StartOp !in ops
    ensures var e := AfterAll(d, owner, ops);
            && OwnedBy(e, owner) && p in e.manifest.value.entries
            && SamePreimage(d.manifest.value.entries[p], e.manifest.value.entries[p])
            && (p in d.backups ==> p in e.backups && e.backups[p] == d.backups[p])
    decreases |ops|
  {
    hide After;
    if ops != [] {
      CapturedOnceStep(d, owner, ops[0], p);
      CapturedOnce(After(d, owner, ops[0]), owner, ops[1..], p);
    }
  }

  // ----- the code -----

  /** The disk, shared by the scopes of all runs. */
  class Store {
    var disk: Disk

    constructor (disk: Disk)
      ensures this.disk == disk
    {
      this.disk := disk;
    }
  }

  /** The loop of recordCheckpointPostimages over the mutated paths. */
  method ApplyFinals(files: Files, entries: map<Path, Entry>, finals: map<Path, Digest>) returns (updated: Option<map<Path, Entry>>)
    ensures updated.Some? <==> forall p :: p in finals ==> Recordable(files, entries, finals, p)
    ensures updated.Some? ==> updated.value == map p | p in entries :: if p in finals then Recorded(entries[p], finals[p]) else entries[p]
  {
    var result := entries;
    var todo := finals.Keys;
    while todo != {}
      invariant todo <= finals.Keys
      invariant forall p :: p in finals && p !in todo ==> Recordable(files, entries, finals, p)
      invariant result.Keys == entries.Keys
      invariant forall p :: p in entries ==>
                  result[p] == if p in finals && p !in todo then Recorded(entries[p], finals[p]) else entries[p]
    {
      var p :| p in todo;
      if !Recordable(files, entries, finals, p) {
        return None;
      }
      result := result[p := Recorded(result[p], finals[p])];
      todo := todo - {p};
    }
    updated := Some(result);
  }

  /** CheckpointScope: one generation, started by the first capture. */
  class CheckpointScope {
    const store: Store
    const owner: Owner
    var started: bool

    constructor (store: Store, owner: Owner)
      ensures this.store == store && this.owner == owner && !started
    {
      this.store, this.owner, started := store, owner, false;
    }

    /** captureBeforeMutation */
    method CaptureBeforeMutation(p: Path) returns (ok: bool)
      modifies this, store
      ensures var d := old(store.disk);
              if !ValidOwner(owner) then !ok && store.disk == d && started == old(started)
              else
                var begun := if old(started) then d else Start(d, owner);
                started && ok == Capture(begun, owner, p).Some? && store.disk == After(begun, owner, CaptureOp(p))
    {
      if !ValidOwner(owner) {
        return false;
      }
      if !started {
        store.disk := Start(store.disk, owner);
        started := true;
      }
      var manifest := OwnManifest(store.disk, owner);
      if manifest == None || !Readable(store.disk.files, p) {
        return false;
      }
      if p in manifest.value.entries {
        return true;
      }
      var entry := Preimage(store.disk.files, p);
      if entry.existed {
        store.disk := store.disk.(backups := store.disk.backups[p := store.disk.files[p].content]);
      }
      store.disk := WithEntries(store.disk, manifest.value.entries[p := entry]);
      ok := true;
    }

    /** recordPostimages */
    method RecordPostimages(mutations: seq<Mutation>) returns (ok: bool)
      modifies store
      ensures ok == (old(started) && Record(old(store.disk), owner, mutations).Some?)
      ensures store.disk == if old(started) then After(old(store.disk), owner, RecordOp(mutations)) else old(store.disk)
    {
      if !started || mutations == [] {
        return false;
      }
      var manifest := OwnManifest(store.disk, owner);
      if manifest == None {
        return false;
      }
      hide TrimSpace;
      var finals: map<Path, Digest> := map[];
      assert mutations[..0] == [];
      for i := 0 to |mutations|
        invariant finals == Finals(mutations[..i])
        invariant forall k :: 0 <= k < i ==> mutations[k].revision.Sha256?
      {
        if !mutations[i].revision.Sha256? {
          return false;
        }
        assert mutations[..i + 1][..i] == mutations[..i];
        finals := finals[mutations[i].path := mutations[i].revision];
      }
      assert mutations[..|mutations|] == mutations;
      var updated := ApplyFinals(store.disk.files, manifest.value.entries, finals);
      if updated == None {
        return false;
      }
      store.disk := WithEntries(store.disk, updated.value);
      ok := true;
    }

    /** settleFailedBatch: nothing to do for an invalid owner, or before anything was captured. */
    method SettleFailedBatch(paths: seq<Path>) returns (ok: bool)
      modifies store
      ensures ok == (!ValidOwner(owner) || !old(started) || Settle(old(store.disk), owner, paths).Some?)
      ensures store.disk == if old(started) then After(old(store.disk), owner, SettleOp(paths)) else old(store.disk)
    {
      if !ValidOwner(owner) || !started {
        return true;
      }
      if paths == [] {
        return false;
      }
      var manifest := OwnManifest(store.disk, owner);
      if manifest == None {
        return false;
      }
      hide TrimSpace, Readable, AtPreimage, FileRevision;
      ghost var files := store.disk.files;
      var updated := manifest.value.entries;
      assert paths[0..] == paths;
      for i := 0 to |paths|
        invariant SettleAll(files, updated, paths[i..]) == SettleAll(files, manifest.value.entries, paths)
      {
        var p := paths[i];
        assert paths[i..][0] == p && paths[i..][1..] == paths[i + 1..];
        if !Readable(store.disk.files, p) || p !in updated {
          return false;
        }
        if updated[p].captured {
          continue;
        }
        if !AtPreimage(store.disk.files, p, updated[p]) {
          return false;
        }
        updated := updated[p := updated[p].(captured := true, postExisted := IsRegular(store.disk.files, p),
                                           postimage := FileRevision(store.disk.files, p))];
      }
      store.disk := WithEntries(store.disk, updated);
      ok := true;
    }
  }
}
