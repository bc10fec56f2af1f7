/** Selective undo (internal/agent/checkpoint_undo.go `checkpointUndoSelection`,
    `undoCheckpointSelectedWithPolicy`) when nothing fails and nobody interferes: exactly when it
    succeeds, what it leaves, and that selections compose. */
module CheckpointSelection {
  import opened CheckpointStore
  import opened CheckpointUndo
  import opened Wrappers

  // ----- choosing entries by identifier -----

  /** checkpointUndoEntryIndex found no two entries with one identifier. */
  ghost predicate DistinctIds(keys: set<Path>, id: Path -> string) {
    forall p, q :: p in keys && q in keys && id(p) == id(q) ==> p == q
  }

  /** Some key has the identifier. */
  ghost predicate Known(keys: set<Path>, id: Path -> string, text: string) {
    exists p :: p in keys && id(p) == text
  }

  /** The selections that are accepted: none at all, or distinct known identifiers. */
  ghost predicate ValidSelection(keys: set<Path>, selection: Option<seq<string>>, id: Path -> string) {
    selection.Some? ==>
      && selection.value != [] && DistinctIds(keys, id)
      && (forall i :: 0 <= i < |selection.value| ==> Known(keys, id, selection.value[i]))
      && (forall i, j :: 0 <= i < j < |selection.value| ==> selection.value[i] != selection.value[j])
  }

  function SelectedBy(keys: set<Path>, selection: Option<seq<string>>, id: Path -> string): set<Path> {
    if selection == None then keys else set p | p in keys && id(p) in selection.value
  }

  /** checkpointUndoEntryIndex */
  method IndexIds(keys: set<Path>, id: Path -> string) returns (index: Option<map<string, Path>>)
    ensures index.Some? <==> DistinctIds(keys, id)
    ensures index.Some? ==>
              && (forall p :: p in keys ==> id(p) in index.value && index.value[id(p)] == p)
              && (forall t :: t in index.value ==> index.value[t] in keys && id(index.value[t]) == t)
  {
    var ids: map<string, Path> := map[];
    var todo := keys;
    while todo != {}
      invariant todo <= keys
      invariant forall p :: p in keys - todo ==> id(p) in ids && ids[id(p)] == p
      invariant forall t :: t in ids ==> ids[t] in keys - todo && id(ids[t]) == t
    {
      var p :| p in todo;
      if id(p) in ids {
        assert id(ids[id(p)]) == id(p) && ids[id(p)] != p;
        return None;
      }
      ids := ids[id(p) := p];
      todo := todo - {p};
    }
    index := Some(ids);
  }

  /** checkpointUndoSelection: all keys without a selection; None for its errors. */
  method SelectKeys(keys: set<Path>, selection: Option<seq<string>>, id: Path -> string) returns (selected: Option<set<Path>>)
    ensures selected.Some? <==> ValidSelection(keys, selection, id)
    ensures selected.Some? ==> selected.value == SelectedBy(keys, selection, id)
  {
    if selection == None {
      return Some(keys);
    }
    var ids := selection.value;
    if ids == [] {
      return None;
    }
    var index := IndexIds(keys, id);
    if index == None {
      return None;
    }
    var chosen: set<Path> := {};
    for i := 0 to |ids|
      invariant forall p :: p in chosen <==> p in keys && id(p) in ids[..i]
      invariant forall k :: 0 <= k < i ==> Known(keys, id, ids[k])
      invariant forall k, l :: 0 <= k < l < i ==> ids[k] != ids[l]
    {
      if ids[i] !in index.value {
        assert !Known(keys, id, ids[i]);
        assert !ValidSelection(keys, selection, id);
        return None;
      }
      var key := index.value[ids[i]];
      assert id(key) == ids[i] && Known(keys, id, ids[i]);
      if key in chosen {
        var k :| 0 <= k < i && ids[..i][k] == ids[i];
        assert ids[k] == ids[i];
        assert !ValidSelection(keys, selection, id);
        return None;
      }
      assert ids[..i + 1] == ids[..i] + [ids[i]];
      assert forall p :: p in keys && id(p) == ids[i] ==> p == key;
      assert ids[i] !in ids[..i];
      chosen := chosen + {key};
    }
    assert ids[..|ids|] == ids;
    assert ValidSelection(keys, selection, id);
    assert chosen == SelectedBy(keys, selection, id);
    selected := Some(chosen);
  }

  // ----- exactly when undo succeeds -----

  /** The entry can be undone on its own. */
  predicate Fit(d: Disk, p: Path, allowExternal: bool)
    requires d.manifest.Some? && p in d.manifest.value.entries
  {
    var action := PreflightOne(d, p, d.manifest.value.entries[p], allowExternal, {});
    action.Some? && action.value.status in {Restorable, AlreadyRestored}
  }

  predicate AllFit(d: Disk, ks: set<Path>, allowExternal: bool)
    requires d.manifest.Some? && ks <= d.manifest.value.entries.Keys
  {
    forall p :: p in ks ==> Fit(d, p, allowExternal)
  }

  /** Every entry has a backup of its own, as the capture side makes them. */
  predicate OwnBackups(entries: map<Path, Entry>) {
    forall p :: p in entries ==> entries[p].backup in {None, Some(p)}
  }

  lemma UsedOnlyOwn(d: Disk, p: Path, entry: Entry, allowExternal: bool, used: set<Path>)
    requires entry.backup in {None, Some(p)}
    ensures p !in used ==> PreflightOne(d, p, entry, allowExternal, used) == PreflightOne(d, p, entry, allowExternal, {})
    ensures UsedAfter(d, p, entry, allowExternal, used) <= used + {p}
  {
  }

  lemma FitsCons(d: Disk, keys: seq<Path>, allowExternal: bool)
    requires d.manifest.Some? && keys != [] && forall k :: 0 <= k < |keys| ==> keys[k] in d.manifest.value.entries
    ensures (forall k :: 0 <= k < |keys| ==> Fit(d, keys[k], allowExternal)) <==>
            Fit(d, keys[0], allowExternal) && forall k :: 0 <= k < |keys[1..]| ==> Fit(d, keys[1..][k], allowExternal)
  {
    hide Fit;
    assert forall k :: 0 <= k < |keys[1..]| ==> keys[1..][k] == keys[k + 1];
    assert forall k :: 0 < k < |keys| ==> keys[k] == keys[1..][k - 1];
  }

  lemma BlockedCons(first: Action, rest: seq<Action>)
    ensures Blocked([first] + rest) <==> first.status in {Conflict, ExternalBlocked} || Blocked(rest)
  {
    var all := [first] + rest;
    if Blocked(rest) {
      var k :| 0 <= k < |rest| && (rest[k].status == Conflict || rest[k].status == ExternalBlocked);
      assert all[k + 1] == rest[k];
    }
    if Blocked(all) && !(first.status in {Conflict, ExternalBlocked}) {
      var k :| 0 <= k < |all| && (all[k].status == Conflict || all[k].status == ExternalBlocked);
      assert rest[k - 1] == all[k];
    }
    assert all[0] == first;
  }

  lemma {:induction false} PreflightFits(d: Disk, keys: seq<Path>, allowExternal: bool, used: set<Path>)
    requires d.manifest.Some? && OwnBackups(d.manifest.value.entries) && DistinctKeys(keys)
    requires forall k :: 0 <= k < |keys| ==> keys[k] in d.manifest.value.entries && keys[k] !in used
    ensures var actions := Preflight(d, d.manifest.value.entries, keys, allowExternal, used);
            actions.Some? && !Blocked(actions.value) <==> forall k :: 0 <= k < |keys| ==> Fit(d, keys[k], allowExternal)
  {
    hide PreflightOne, UsedAfter;
    if keys != [] {
      var entries, p, rest := d.manifest.value.entries, keys[0], keys[1..];
      UsedOnlyOwn(d, p, entries[p], allowExternal, used);
      PreflightFits(d, rest, allowExternal, UsedAfter(d, p, entries[p], allowExternal, used));
      var first := PreflightOne(d, p, entries[p], allowExternal, used);
      var others := Preflight(d, entries, rest, allowExternal, UsedAfter(d, p, entries[p], allowExternal, used));
      assert Fit(d, p, allowExternal) <==> first.Some? && first.value.status in {Restorable, AlreadyRestored};
      var all := Preflight(d, entries, keys, allowExternal, used);
      assert all == if first == None || others == None then None else Some([first.value] + others.value);
      if first.Some? && others.Some? {
        BlockedCons(first.value, others.value);
        var status := first.value.status;
        assert status.Restorable? || status.AlreadyRestored? || status.Conflict? || status.ExternalBlocked?;
      }
      FitsCons(d, keys, allowExternal);
    }
  }

  ghost predicate Quiet(env: Env) {
    NoOutsiders(env) && NoFaultFrom(env, 0)
  }

  /** Selected keys of a checkpoint that has some, as the capture side makes it. */
  ghost predicate Selection(d: Disk, keys: seq<Path>) {
    && d.manifest.Some? && OwnBackups(d.manifest.value.entries) && DistinctKeys(keys)
    && forall k :: 0 <= k < |keys| ==> keys[k] in d.manifest.value.entries
  }

  lemma QuietApply(d: Disk, actions: seq<Action>, allowExternal: bool, env: Env)
    requires Quiet(env) && Unblocked(d, actions, allowExternal) && DistinctPaths(actions)
    ensures ApplyAll(Progress(d.files, [], 0), [], actions, env).ok
  {
    hide Unblocked, Ready, ApplyPure;
    ApplyFromStart(d, actions, allowExternal, env);
  }

  lemma FitsAsSet(d: Disk, keys: seq<Path>, allowExternal: bool)
    requires Selection(d, keys) && KeySet(keys) <= d.manifest.value.entries.Keys
    ensures (forall k :: 0 <= k < |keys| ==> Fit(d, keys[k], allowExternal)) <==> AllFit(d, KeySet(keys), allowExternal)
  {
    hide Fit;
    if AllFit(d, KeySet(keys), allowExternal) {
      forall k | 0 <= k < |keys| ensures Fit(d, keys[k], allowExternal) {
        assert keys[k] in KeySet(keys);
      }
    }
  }

  lemma QuietDone(d: Disk, keys: seq<Path>, allowExternal: bool, env: Env)
    requires Selection(d, keys) && Quiet(env)
    requires var actions := Preflight(d, d.manifest.value.entries, keys, allowExternal, {}); actions.Some? && !Blocked(actions.value)
    ensures var o := UndoKeys(d, keys, allowExternal, env); o.result.Done? && o.result.cleaned
  {
    hide FromPreflight, Preflight, ApplyAll, GiveUp, Ready, ApplyPure, AtMostOneFault, UndoneFiles;
    var entries := d.manifest.value.entries;
    PreflightIs(d, entries, keys, allowExternal, {});
    var actions := Preflight(d, entries, keys, allowExternal, {}).value;
    NotBlocked(d, actions, allowExternal);
    QuietApply(d, actions, allowExternal, env);
  }

  /** Undisturbed, undo succeeds exactly when every selected entry can be undone on its own; then it
      leaves the undone disk, whatever the order of the keys; otherwise it changes nothing. */
  lemma UndoneExactly(d: Disk, keys: seq<Path>, allowExternal: bool, env: Env)
    requires Selection(d, keys) && Quiet(env)
    ensures KeySet(keys) <= d.manifest.value.entries.Keys
    ensures var o := UndoKeys(d, keys, allowExternal, env);
            if AllFit(d, KeySet(keys), allowExternal) then o.result.Done? && o.disk == UndoneDisk(d, KeySet(keys))
            else o.result == Refused && o.disk == d
  {
    hide Fit, Preflight, FromPreflight, UndoneDisk, ApplyAll, GiveUp, Finish, AtMostOneFault;
    var entries := d.manifest.value.entries;
    assert KeySet(keys) <= entries.Keys;
    PreflightFits(d, keys, allowExternal, {});
    FitsAsSet(d, keys, allowExternal);
    AllOrNothing(d, keys, allowExternal, env);
    var actions := Preflight(d, entries, keys, allowExternal, {});
    if actions.Some? && !Blocked(actions.value) {
      QuietDone(d, keys, allowExternal, env);
    }
  }

  lemma {:induction false} RestoredAre(actions: seq<Action>, p: Path)
    ensures p in Restored(actions) <==> exists k :: 0 <= k < |actions| && actions[k].path == p && actions[k].status != AlreadyRestored
  {
    if actions != [] {
      RestoredAre(actions[1..], p);
      assert forall k :: 0 <= k < |actions[1..]| ==> actions[1..][k] == actions[k + 1];
      assert forall k :: 0 < k < |actions| ==> actions[k] == actions[1..][k - 1];
    }
  }

  /** A finished undo reports exactly the selected entries whose file was not at its preimage already. */
  lemma RevertedAre(d: Disk, keys: seq<Path>, allowExternal: bool, env: Env, p: Path)
    requires Selection(d, keys) && UndoKeys(d, keys, allowExternal, env).result.Done?
    ensures p in UndoKeys(d, keys, allowExternal, env).result.reverted <==>
            p in keys && !AtPre(d.files, p, d.manifest.value.entries[p])
  {
    hide Preflight, ApplyAll, Rollback, Restored, WellFormed, BackupOk, RestoredNode, HasParent, AtPre;
    var entries := d.manifest.value.entries;
    PreflightIs(d, entries, keys, allowExternal, {});
    var actions := Preflight(d, entries, keys, allowExternal, {}).value;
    NotBlocked(d, actions, allowExternal);
    RestoredAre(actions, p);
    forall k | 0 <= k < |keys| ensures actions[k].path == keys[k] && (actions[k].status == AlreadyRestored <==> AtPre(d.files, keys[k], entries[keys[k]])) {
      assert FromPreflight(d, actions[k], allowExternal) && actions[k].entry == entries[keys[k]];
    }
  }

  // ----- selections compose -----

  lemma UndoneAt(d: Disk, ks: set<Path>, p: Path)
    requires d.manifest.Some? && ks <= d.manifest.value.entries.Keys
    ensures Lookup(UndoneDisk(d, ks).files, p) == if p in ks then UndoneNode(d, p, d.manifest.value.entries[p]) else Lookup(d.files, p)
  {
    hide UndoneNode;
  }

  lemma FitFacts(d: Disk, p: Path, allowExternal: bool)
    requires d.manifest.Some? && p in d.manifest.value.entries && Fit(d, p, allowExternal)
    ensures !IsDirectory(d.files, p) && UndoneNode(d, p, d.manifest.value.entries[p]) != Some(Directory)
    ensures Creatable(d.files, p) && HasParent(d.files, p)
  {
  }

  /** Undoing some entries changes no directory. */
  lemma UndoneDirectories(d: Disk, ks: set<Path>, allowExternal: bool, p: Path)
    requires d.manifest.Some? && ks <= d.manifest.value.entries.Keys && AllFit(d, ks, allowExternal)
    ensures IsDirectory(UndoneDisk(d, ks).files, p) == IsDirectory(d.files, p)
    ensures p !in ks ==> IsRegular(UndoneDisk(d, ks).files, p) == IsRegular(d.files, p)
  {
    hide UndoneDisk, UndoneNode, Fit;
    UndoneAt(d, ks, p);
    if p in ks {
      FitFacts(d, p, allowExternal);
    }
  }

  ghost predicate InDirectories(files: Files, p: Path) {
    forall q :: q in Ancestors(p) ==> IsDirectory(files, q)
  }

  /** As in every file system, whatever exists lies in directories. */
  ghost predicate Tree(files: Files) {
    forall p :: p in files ==> InDirectories(files, p)
  }

  lemma ParentMeansAll(files: Files, p: Path)
    requires Tree(files) && HasParent(files, p)
    ensures InDirectories(files, p)
  {
    forall q | q in Ancestors(p) ensures IsDirectory(files, q) {
      var k: nat :| 1 <= k < |p.parts| && q == Path(p.external, p.parts[..k]);
      if k < |p.parts| - 1 {
        assert Parent(p).parts[..k] == p.parts[..k];
        assert q in Ancestors(Parent(p));
        assert InDirectories(files, Parent(p));
      } else {
        assert q == Parent(p);
      }
    }
  }

  lemma InDirectoriesIsCreatable(files: Files, p: Path)
    requires InDirectories(files, p)
    ensures Creatable(files, p) <==> p.parts != []
  {
  }

  /** In a tree, an entry is fit by its own state and that of its parent alone. */
  lemma FitIs(d: Disk, p: Path, allowExternal: bool)
    requires d.manifest.Some? && p in d.manifest.value.entries && (HasParent(d.files, p) ==> InDirectories(d.files, p))
    ensures var entry := d.manifest.value.entries[p];
            Fit(d, p, allowExternal) <==>
              && WellFormed(entry) && (p.external ==> allowExternal) && p.parts != [] && HasParent(d.files, p)
              && !IsDirectory(d.files, p) && (entry.existed ==> BackupOk(d, entry, {}))
              && StatusOf(d.files, p, entry) != Conflict
  {
    if HasParent(d.files, p) {
      InDirectoriesIsCreatable(d.files, p);
    }
    hide WellFormed, BackupOk, AtPre, AtPost, HasParent, Creatable, IsDirectory;
  }

  lemma SameFile(d: Disk, e: Disk, p: Path, entry: Entry)
    requires Lookup(d.files, p) == Lookup(e.files, p) && d.backups == e.backups
    ensures StatusOf(d.files, p, entry) == StatusOf(e.files, p, entry)
    ensures IsDirectory(d.files, p) == IsDirectory(e.files, p)
    ensures BackupOk(d, entry, {}) == BackupOk(e, entry, {})
    ensures UndoneNode(d, p, entry) == UndoneNode(e, p, entry)
  {
  }

  /** An entry that is not selected is judged the same before and after. */
  lemma FitAfter(d: Disk, ks: set<Path>, allowExternal: bool, p: Path)
    requires d.manifest.Some? && ks <= d.manifest.value.entries.Keys && AllFit(d, ks, allowExternal) && Tree(d.files)
    requires p in d.manifest.value.entries && p !in ks
    ensures var e := UndoneDisk(d, ks);
            && e.manifest.Some? && e.manifest.value.entries == d.manifest.value.entries - ks && p in e.manifest.value.entries
            && e.backups == d.backups
            && Fit(e, p, allowExternal) == Fit(d, p, allowExternal)
            && UndoneNode(e, p, e.manifest.value.entries[p]) == UndoneNode(d, p, d.manifest.value.entries[p])
  {
    hide UndoneFiles, Fit, UndoneNode, WellFormed, BackupOk, StatusOf, Tree;
    var e, entry := UndoneDisk(d, ks), d.manifest.value.entries[p];
    assert p in d.manifest.value.entries - ks;
    UndoneAt(d, ks, p);
    SameFile(d, e, p, entry);
    UndoneDirectories(d, ks, allowExternal, Parent(p));
    if HasParent(d.files, p) {
      ParentMeansAll(d.files, p);
      forall q | q in Ancestors(p) ensures IsDirectory(e.files, q) {
        UndoneDirectories(d, ks, allowExternal, q);
      }
    }
    FitIs(d, p, allowExternal);
    FitIs(e, p, allowExternal);
  }

  /** Undoing disjoint sets one after the other is undoing their union. */
  lemma UndoneTwice(d: Disk, first: set<Path>, second: set<Path>, allowExternal: bool)
    requires d.manifest.Some? && first + second <= d.manifest.value.entries.Keys && first !! second && second != {}
    requires AllFit(d, first, allowExternal) && Tree(d.files)
    ensures var e := UndoneDisk(d, first);
            && e.manifest.Some? && second <= e.manifest.value.entries.Keys
            && (AllFit(e, second, allowExternal) <==> AllFit(d, first + second, allowExternal))
            && UndoneDisk(e, second) == UndoneDisk(d, first + second)
  {
    hide UndoneFiles, Fit, UndoneNode, Tree;
    var entries := d.manifest.value.entries;
    var p0 :| p0 in second;
    FitAfter(d, first, allowExternal, p0);
    var e := UndoneDisk(d, first);
    forall p | p in second ensures Fit(e, p, allowExternal) == Fit(d, p, allowExternal) {
      FitAfter(d, first, allowExternal, p);
    }
    assert AllFit(e, second, allowExternal) <==> AllFit(d, first + second, allowExternal);
    var left, right := UndoneDisk(e, second).files, UndoneDisk(d, first + second).files;
    forall p ensures Lookup(left, p) == Lookup(right, p) {
      UndoneAt(d, first, p);
      UndoneAt(e, second, p);
      UndoneAt(d, first + second, p);
      if p in second {
        FitAfter(d, first, allowExternal, p);
      }
    }
    SameLookups(left, right);
    assert entries - first - second == entries - (first + second);
  }

  lemma SplitSelection(d: Disk, first: seq<Path>, second: seq<Path>)
    requires Selection(d, first + second)
    ensures Selection(d, first) && Selection(d, second) && KeySet(first) !! KeySet(second)
    ensures KeySet(first) + KeySet(second) <= d.manifest.value.entries.Keys
  {
    hide OwnBackups;
    var all := first + second;
    assert forall k :: 0 <= k < |first| ==> first[k] == all[k];
    assert forall k :: 0 <= k < |second| ==> second[k] == all[|first| + k];
  }

  lemma SelectionAfter(d: Disk, first: seq<Path>, second: seq<Path>, allowExternal: bool)
    requires Selection(d, second) && KeySet(first) !! KeySet(second) && second != [] && Tree(d.files)
    requires KeySet(first) <= d.manifest.value.entries.Keys && AllFit(d, KeySet(first), allowExternal)
    ensures Selection(UndoneDisk(d, KeySet(first)), second)
  {
    hide UndoneDisk, Fit, Tree, UndoneNode;
    forall k | 0 <= k < |second|
      ensures var e := UndoneDisk(d, KeySet(first)); e.manifest.Some? && second[k] in e.manifest.value.entries
    {
      assert second[k] in KeySet(second);
      FitAfter(d, KeySet(first), allowExternal, second[k]);
    }
    assert second[0] in KeySet(second);
    FitAfter(d, KeySet(first), allowExternal, second[0]);
  }

  /** Selective undo composes: undoing disjoint selections one after the other succeeds exactly when
      undoing them at once does, and leaves the same files, manifest and backups. */
  lemma SelectionsCompose(d: Disk, first: seq<Path>, second: seq<Path>, allowExternal: bool, env: Env)
    requires Selection(d, first + second) && second != [] && Tree(d.files) && Quiet(env)
    ensures Selection(d, first)
    ensures var both := UndoKeys(d, first + second, allowExternal, env);
            var one := UndoKeys(d, first, allowExternal, env);
            && (one.result.Done? ==>
                  && Selection(one.disk, second)
                  && var two := UndoKeys(one.disk, second, allowExternal, env);
                     (both.result.Done? <==> two.result.Done?) && (two.result.Done? ==> two.disk == both.disk))
            && (!one.result.Done? ==> !both.result.Done?)
  {
    hide UndoKeys, UndoneDisk, Fit, OwnBackups, Tree, Quiet;
    var all := first + second;
    SplitSelection(d, first, second);
    UndoneExactly(d, all, allowExternal, env);
    UndoneExactly(d, first, allowExternal, env);
    assert KeySet(all) == KeySet(first) + KeySet(second);
    if AllFit(d, KeySet(first), allowExternal) {
      assert second[0] in KeySet(second);
      UndoneTwice(d, KeySet(first), KeySet(second), allowExternal);
      SelectionAfter(d, first, second, allowExternal);
      UndoneExactly(UndoneDisk(d, KeySet(first)), second, allowExternal, env);
    } else {
      assert !AllFit(d, KeySet(all), allowExternal);
    }
  }

  /** In any order: what undo leaves depends only on which entries were selected. */
  lemma OrderDoesNotMatter(d: Disk, keys: seq<Path>, others: seq<Path>, allowExternal: bool, env: Env)
    requires Selection(d, keys) && Selection(d, others) && KeySet(keys) == KeySet(others) && Quiet(env)
    ensures UndoKeys(d, keys, allowExternal, env).disk == UndoKeys(d, others, allowExternal, env).disk
    ensures UndoKeys(d, keys, allowExternal, env).result.Done? <==> UndoKeys(d, others, allowExternal, env).result.Done?
  {
    hide UndoKeys, UndoneDisk, Fit;
    UndoneExactly(d, keys, allowExternal, env);
    UndoneExactly(d, others, allowExternal, env);
  }
}
