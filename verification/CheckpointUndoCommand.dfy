/** The code of the undo command (internal/agent/checkpoint_undo.go): the loops that build and apply
    the actions, roll them back, and republish the manifest, proved against the transaction. */
module CheckpointUndoCommand {
  import opened CheckpointSelection
  import opened CheckpointStore
  import opened CheckpointUndo
  import opened Wrappers

  /** The selected keys, in some order. */
  method ListKeys(selected: set<Path>) returns (keys: seq<Path>)
    ensures DistinctKeys(keys) && KeySet(keys) == selected
  {
    keys := [];
    var todo := selected;
    while todo != {}
      invariant DistinctKeys(keys) && KeySet(keys) !! todo && KeySet(keys) + todo == selected
    {
      var p :| p in todo;
      assert p !in KeySet(keys);
      assert KeySet(keys + [p]) == KeySet(keys) + {p};
      keys := keys + [p];
      todo := todo - {p};
    }
  }

  ghost function Joined(actions: seq<Action>, rest: Option<seq<Action>>): Option<seq<Action>> {
    match rest
    case None => None
    case Some(more) => Some(actions + more)
  }

  lemma PreflightStep(d: Disk, entries: map<Path, Entry>, keys: seq<Path>, i: nat, allowExternal: bool, used: set<Path>, actions: seq<Action>)
    requires i < |keys| && forall k :: 0 <= k < |keys| ==> keys[k] in entries
    ensures var entry := entries[keys[i]];
            var first := PreflightOne(d, keys[i], entry, allowExternal, used);
            Joined(actions, Preflight(d, entries, keys[i..], allowExternal, used)) ==
            if first == None then None
            else Joined(actions + [first.value],
                        Preflight(d, entries, keys[i + 1..], allowExternal, UsedAfter(d, keys[i], entry, allowExternal, used)))
  {
    hide PreflightOne, UsedAfter;
    assert keys[i..][0] == keys[i] && keys[i..][1..] == keys[i + 1..];
    var entry := entries[keys[i]];
    var first := PreflightOne(d, keys[i], entry, allowExternal, used);
    var rest := Preflight(d, entries, keys[i + 1..], allowExternal, UsedAfter(d, keys[i], entry, allowExternal, used));
    if first.Some? && rest.Some? {
      assert actions + ([first.value] + rest.value) == actions + [first.value] + rest.value;
    }
  }

  lemma JoinedNone(rest: Option<seq<Action>>)
    ensures Joined([], rest) == rest
  {
    if rest.Some? {
      assert [] + rest.value == rest.value;
    }
  }

  lemma PreflightNothing(d: Disk, entries: map<Path, Entry>, allowExternal: bool, used: set<Path>)
    ensures Preflight(d, entries, [], allowExternal, used) == Some([])
  {
  }

  /** preflightUndoManifestSelected */
  method PreflightSelected(d: Disk, entries: map<Path, Entry>, keys: seq<Path>, allowExternal: bool) returns (result: Option<seq<Action>>)
    requires forall k :: 0 <= k < |keys| ==> keys[k] in entries
    ensures result == Preflight(d, entries, keys, allowExternal, {})
  {
    hide PreflightOne, UsedAfter, Preflight;
    var actions: seq<Action> := [];
    var used: set<Path> := {};
    assert keys[0..] == keys;
    JoinedNone(Preflight(d, entries, keys, allowExternal, {}));
    for i := 0 to |keys|
      invariant Joined(actions, Preflight(d, entries, keys[i..], allowExternal, used)) == Preflight(d, entries, keys, allowExternal, {})
    {
      PreflightStep(d, entries, keys, i, allowExternal, used, actions);
      var action := PreflightOne(d, keys[i], entries[keys[i]], allowExternal, used);
      if action == None {
        return None;
      }
      used := UsedAfter(d, keys[i], entries[keys[i]], allowExternal, used);
      actions := actions + [action.value];
    }
    PreflightNothing(d, entries, allowExternal, used);
    assert keys[|keys|..] == [] && actions + [] == actions;
    result := Some(actions);
  }

  /** rollbackUndoActions */
  method RollbackUndoActions(store: Store, start: Progress, actions: seq<Action>, env: Env) returns (state: Progress, incomplete: bool)
    requires store.disk.files == start.files
    modifies store
    ensures RolledBack(state, incomplete) == Rollback(start, actions, env)
    ensures store.disk == old(store.disk).(files := state.files)
  {
    hide RollbackOne;
    state, incomplete := start, false;
    var index := |actions|;
    assert actions[..index] == actions;
    while index > 0
      invariant 0 <= index <= |actions|
      invariant store.disk == old(store.disk).(files := state.files)
      invariant var rest := Rollback(state, actions[..index], env);
                Rollback(start, actions, env) == RolledBack(rest.state, incomplete || rest.incomplete)
    {
      index := index - 1;
      assert actions[..index + 1][..index] == actions[..index] && actions[..index + 1][index] == actions[index];
      var one := RollbackOne(state, actions[index], env);
      store.disk := store.disk.(files := one.state.files);
      state := one.state;
      if one.incomplete {
        incomplete := true;
      }
    }
  }

  lemma ApplyStep(s: Progress, done: seq<Action>, actions: seq<Action>, i: nat, env: Env)
    requires i < |actions|
    ensures var a := actions[i];
            && ApplyAll(s, done, actions[i..], env) ==
                 (if a.status == AlreadyRestored then ApplyAll(s, done, actions[i + 1..], env)
                  else
                    var (next, ok) := GuardedPut(s, Applying, a.path, a.entry.postExisted, a.entry.postimage, a.restored, env);
                    if !ok then Applied(next, done, false) else ApplyAll(next, done + [a], actions[i + 1..], env))
            && Restored(actions[i..]) == (if a.status == AlreadyRestored then [] else [a.path]) + Restored(actions[i + 1..])
  {
    hide GuardedPut;
    assert actions[i..][0] == actions[i] && actions[i..][1..] == actions[i + 1..];
  }

  lemma ApplyNothing(s: Progress, done: seq<Action>, env: Env)
    ensures ApplyAll(s, done, [], env) == Applied(s, done, true) && Restored([]) == []
  {
  }

  ghost function Paths(actions: seq<Action>): set<Path> {
    set a | a in actions :: a.path
  }

  lemma NoPaths()
    ensures Paths([]) == {}
  {
  }

  lemma PathsMore(actions: seq<Action>, i: nat)
    requires i < |actions|
    ensures Paths(actions[..i + 1]) == Paths(actions[..i]) + {actions[i].path}
  {
    assert actions[..i + 1] == actions[..i] + [actions[i]];
  }

  /** The apply loop; `remaining` are the entries that stay in the manifest. */
  method ApplyActions(store: Store, entries: map<Path, Entry>, actions: seq<Action>, env: Env)
    returns (applied: Applied, reverted: seq<Path>, remaining: map<Path, Entry>)
    modifies store
    ensures applied == ApplyAll(Progress(old(store.disk).files, [], 0), [], actions, env)
    ensures store.disk == old(store.disk).(files := applied.state.files)
    ensures applied.ok ==> reverted == Restored(actions) && remaining == entries - Paths(actions)
  {
    hide GuardedPut, ApplyAll, Restored, Paths;
    NoPaths();
    var state, done := Progress(store.disk.files, [], 0), [];
    reverted, remaining := [], entries;
    assert actions[0..] == actions && actions[..0] == [];
    assert [] + Restored(actions) == Restored(actions);
    for i := 0 to |actions|
      invariant store.disk == old(store.disk).(files := state.files)
      invariant ApplyAll(state, done, actions[i..], env) == ApplyAll(Progress(old(store.disk).files, [], 0), [], actions, env)
      invariant reverted + Restored(actions[i..]) == Restored(actions)
      invariant remaining == entries - Paths(actions[..i])
    {
      var action := actions[i];
      ApplyStep(state, done, actions, i, env);
      PathsMore(actions, i);
      remaining := remaining - {action.path};
      assert remaining == entries - Paths(actions[..i + 1]);
      if action.status == AlreadyRestored {
        assert [] + Restored(actions[i + 1..]) == Restored(actions[i + 1..]);
        continue;
      }
      var (next, ok) := GuardedPut(state, Applying, action.path, action.entry.postExisted, action.entry.postimage, action.restored, env);
      store.disk := store.disk.(files := next.files);
      state := next;
      if !ok {
        applied := Applied(state, done, false);
        return;
      }
      assert reverted + ([action.path] + Restored(actions[i + 1..])) == reverted + [action.path] + Restored(actions[i + 1..]);
      reverted := reverted + [action.path];
      done := done + [action];
    }
    assert actions[..|actions|] == actions && actions[|actions|..] == [];
    ApplyNothing(state, done, env);
    assert reverted + [] == reverted;
    applied := Applied(state, done, true);
  }

  lemma PathsAreKeys(keys: seq<Path>, actions: seq<Action>)
    requires |actions| == |keys| && forall k :: 0 <= k < |keys| ==> actions[k].path == keys[k]
    ensures Paths(actions) == KeySet(keys)
  {
    forall p ensures p in Paths(actions) <==> p in KeySet(keys) {
      if p in KeySet(keys) {
        var k :| 0 <= k < |keys| && keys[k] == p;
        assert actions[k] in actions;
      }
    }
  }

  /** Publishing the manifest, and removing the checkpoint directory with its last entry. */
  method PublishRemaining(store: Store, ghost d: Disk, ghost keys: seq<Path>, ghost actions: seq<Action>, applied: Applied, reverted: seq<Path>,
                          remaining: map<Path, Entry>, env: Env) returns (result: UndoResult)
    requires d.manifest.Some? && store.disk == d.(files := applied.state.files)
    requires reverted == Restored(actions) && remaining == d.manifest.value.entries - KeySet(keys)
    modifies store
    ensures var o := Finish(d, keys, actions, applied, env); store.disk == o.disk && result == o.result
  {
    hide Rollback, Others, Restored;
    var seen := Others(applied.state, env);
    store.disk := store.disk.(files := seen.files);
    if env(applied.state.tick).fault {
      var state, incomplete := RollbackUndoActions(store, seen, applied.done, env);
      return Failed(incomplete);
    }
    store.disk := WithEntries(store.disk, remaining);
    if remaining != map[] {
      return Done(reverted, true);
    }
    var last := Others(seen, env);
    store.disk := store.disk.(files := last.files);
    if env(seen.tick).fault {
      return Done(reverted, false);
    }
    store.disk := Disk(last.files, None, map[]);
    result := Done(reverted, true);
  }

  /** The transaction on the selected keys. */
  method UndoListed(store: Store, keys: seq<Path>, allowExternal: bool, env: Env) returns (result: UndoResult)
    requires store.disk.manifest.Some? && forall k :: 0 <= k < |keys| ==> keys[k] in store.disk.manifest.value.entries
    modifies store
    ensures var o := UndoKeys(old(store.disk), keys, allowExternal, env); store.disk == o.disk && result == o.result
  {
    hide Preflight, ApplyAll, Rollback, Others, Restored;
    var d := store.disk;
    var entries := d.manifest.value.entries;
    var preflight := PreflightSelected(d, entries, keys, allowExternal);
    if preflight == None {
      return Refused;
    }
    var actions := preflight.value;
    PreflightIs(d, entries, keys, allowExternal, {});
    PathsAreKeys(keys, actions);
    for i := 0 to |actions|
      invariant forall k :: 0 <= k < i ==> !(actions[k].status == Conflict || actions[k].status == ExternalBlocked)
    {
      if actions[i].status == Conflict || actions[i].status == ExternalBlocked {
        return Refused;
      }
    }
    var applied, reverted, remaining := ApplyActions(store, entries, actions, env);
    if !applied.ok {
      var state, incomplete := RollbackUndoActions(store, applied.state, applied.done, env);
      return Failed(incomplete);
    }
    result := PublishRemaining(store, d, keys, actions, applied, reverted, remaining, env);
  }

  /** undoCheckpointSelectedWithPolicy */
  method UndoCheckpointSelected(store: Store, allowExternal: bool, selection: Option<seq<string>>, id: Path -> string, env: Env)
    returns (result: UndoResult, keys: seq<Path>)
    modifies store
    ensures old(store.disk).manifest == None || old(store.disk).manifest.value.entries == map[] ==>
              result == Nothing && store.disk == old(store.disk)
    ensures old(store.disk).manifest.Some? && old(store.disk).manifest.value.entries != map[] ==>
              var entries := old(store.disk).manifest.value.entries;
              if !ValidSelection(entries.Keys, selection, id) then result == Refused && store.disk == old(store.disk)
              else
                && DistinctKeys(keys) && KeySet(keys) == SelectedBy(entries.Keys, selection, id)
                && (forall k :: 0 <= k < |keys| ==> keys[k] in entries)
                && var o := UndoKeys(old(store.disk), keys, allowExternal, env); store.disk == o.disk && result == o.result
  {
    keys := [];
    var d := store.disk;
    if d.manifest == None || d.manifest.value.entries == map[] {
      return Nothing, keys;
    }
    var entries := d.manifest.value.entries;
    var selected := SelectKeys(entries.Keys, selection, id);
    if selected == None {
      return Refused, keys;
    }
    keys := ListKeys(selected.value);
    forall k | 0 <= k < |keys| ensures keys[k] in entries {
      assert keys[k] in KeySet(keys);
    }
    result := UndoListed(store, keys, allowExternal, env);
  }
}
