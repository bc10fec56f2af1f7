/** The write-ahead execution journal of internal/acpbridge/backend.go (`promptExecutionJournal`,
    `commitObservedRun`, `markInterrupted`) over the session store: before a tool may start, a marker
    of its run is durable, and it stays until the transcript is committed or someone reconciles. */
module ExecutionJournal {
  import opened ExecutionMarker
  import opened SessionStore
  import opened Text
  import opened Wrappers

  const REASON := "Tool execution began; a successful terminal must atomically commit or explicit reconciliation is required."

  /** A load whose history is being replayed: it made the runtime object, or replaced its session. */
  datatype Load = Created | Reloaded(previous: Session)

  /** The session of this process: a runtime object, the prompt active on it, the cached copy of the
      stored session, and the load in progress on it. */
  datatype Runtime = Runtime(instance: nat, quarantined: bool, active: Option<nat>, persisted: Session, loading: Option<Load>)

  /** A journal belongs to one prompt on one runtime object. */
  datatype Owner = Owner(instance: nat, id: nat)

  /** What is known about a journal beyond its fields: whether its marker was enriched since the last
      record, the tools that were allowed to start since the last commit, and the generation of the
      session that it wrote last. */
  datatype Trace = Trace(enriched: bool, running: seq<Entry>, generation: nat)

  /** What is stored under the identifier of the session; every deletion begins a new generation. */
  datatype Stored = Stored(session: Option<Session>, generation: nat)

  datatype Journal = Journal(
    owner: Owner, failed: bool, expected: nat, persisted: Session, marker: Option<Marker>, entries: seq<Entry>, trace: Trace)

  /** What one step of a journal works on. */
  datatype Local = Local(store: Stored, runtime: Option<Runtime>, journal: Journal)

  type Hash = seq<ToolState> -> Hex64

  // ----- the steps of one journal -----

  predicate IsActive(runtime: Option<Runtime>, owner: Owner) {
    && runtime.Some? && runtime.value.instance == owner.instance
    && runtime.value.active == Some(owner.id) && runtime.value.loading == None && !runtime.value.quarantined
  }

  function Quarantine(runtime: Option<Runtime>, owner: Owner): Option<Runtime> {
    if runtime.Some? && runtime.value.instance == owner.instance then Some(runtime.value.(quarantined := true)) else runtime
  }

  function Put(store: Stored, session: Option<Session>): Stored {
    store.(session := session)
  }

  /** failLocked */
  function Fail(l: Local): Local {
    Local(l.store, Quarantine(l.runtime, l.journal.owner), l.journal.(failed := true))
  }

  function Publish(runtime: Option<Runtime>, s: Session): Option<Runtime> {
    if runtime.Some? then Some(runtime.value.(persisted := s)) else None
  }

  /** After a reported write: the journal follows the session. `ended` is whether the prompt ended
      before the write could be published. */
  function Adopt(l: Local, t: Session, marker: Option<Marker>, entries: seq<Entry>, trace: Trace, ended: bool): Local {
    var j := Journal(l.journal.owner, l.journal.failed, t.revision, t, marker, entries, trace);
    var store := Put(l.store, Some(t));
    if ended then Fail(Local(store, l.runtime, j)) else Local(store, Publish(l.runtime, t), j)
  }

  function TrimEntry(e: Entry): Entry {
    Entry(TrimSpace(e.id), TrimSpace(e.name), TrimSpace(e.inputDigest), TrimSpace(e.runId))
  }

  /** What a step of a journal leaves, and whether it reported success. */
  datatype Outcome = Outcome(local: Local, ok: bool)

  function Refused(l: Local): Outcome {
    Outcome(Fail(l), false)
  }

  /** A write that was not reported leaves what was stored, and a failed journal. */
  function Unreported(l: Local, attempt: Attempt): Outcome {
    Refused(l.(store := Put(l.store, attempt.stored)))
  }

  /** The notes after a record. */
  function Noted(l: Local, e: Entry, ended: bool): Trace {
    Trace(false, if ended then l.journal.trace.running else l.journal.trace.running + [e], l.store.generation)
  }

  /** The first record of a run marks the session. */
  function FirstRecord(l: Local, e: Entry, marker: Marker, now: Instant, fault: Fault, ended: bool): Outcome {
    var j := l.journal;
    if j.persisted.reconcile || j.persisted.revision != j.expected then Refused(l)
    else
      var attempt := Try(l.store.session, MarkInterrupted(j.expected, marker, now), fault);
      if attempt.reported == None then Unreported(l, attempt)
      else
        var t := attempt.reported.value;
        Outcome(Adopt(l, t, t.interruption, [e], Noted(l, e, ended), ended), !ended)
  }

  /** The session could be read and still is what a journal wrote last. */
  predicate StillOwn(session: Option<Session>, expected: nat, marker: Option<Marker>, fault: Fault) {
    && fault != ReadFails && session.Some?
    && session.value.revision == expected && session.value.reconcile
    && session.value.interruption.Some? && session.value.interruption == marker
  }

  predicate Holds(l: Local, fault: Fault) {
    StillOwn(l.store.session, l.journal.expected, l.journal.marker, fault)
  }

  /** A further record replaces the marker by the aggregate of all entries. */
  function NextRecord(l: Local, e: Entry, first: Marker, fault: Fault, ended: bool, hash: Hash): Outcome
    requires l.journal.marker.Some?
  {
    var j := l.journal;
    if !Holds(l, fault) || l.store.session.value.interruption.value.runId != first.runId then Refused(l)
    else
      match Aggregate(j.entries + [e], j.marker.value.at, REASON, hash)
      case None => Refused(l)
      case Some(next) =>
        var attempt := Try(l.store.session, UpdateInterrupted(j.expected, j.marker.value, next), fault);
        if attempt.reported == None || attempt.reported.value.interruption != Some(next) then Unreported(l, attempt)
        else
          var t := attempt.reported.value;
          Outcome(Adopt(l, t, t.interruption, j.entries + [e], Noted(l, e, ended), ended), !ended)
  }

  /** Record */
  function RecordStep(l: Local, entry: Entry, now: Instant, fault: Fault, ended: bool, hash: Hash): Outcome {
    var e := TrimEntry(entry);
    match Aggregate([e], 0, REASON, hash)
    case None => Refused(l)
    case Some(first) =>
      if l.journal.failed || !IsActive(l.runtime, l.journal.owner) then Refused(l)
      else if l.journal.marker == None then FirstRecord(l, e, first, now, fault, ended)
      else NextRecord(l, e, first, fault, ended, hash)
  }

  /** EnrichReconciliation with a marker. */
  function EnrichStep(l: Local, next: Marker, fault: Fault, ended: bool): Outcome {
    var j := l.journal;
    if j.failed || j.marker == None || !IsActive(l.runtime, j.owner) || TrimSpace(next.runId) != j.marker.value.runId
       || !ValidMarker(next) || !Holds(l, fault) then Refused(l)
    else if j.marker == Some(next) then Outcome(l, true)
    else
      var attempt := Try(l.store.session, UpdateInterrupted(j.expected, j.marker.value, next), fault);
      if attempt.reported == None || attempt.reported.value.interruption != Some(next) then Unreported(l, attempt)
      else
        var t := attempt.reported.value;
        Outcome(Adopt(l, t, t.interruption, j.entries, Trace(true, j.trace.running, l.store.generation), ended), !ended)
  }

  /** The operation of a transcript commit. */
  function CommitOperation(l: Local, delta: seq<string>, terminal: Option<string>): Operation
    requires l.store.session.Some?
  {
    var s := l.store.session.value;
    var candidate := s.(transcript := s.transcript + delta, terminal := if terminal.Some? then terminal else s.terminal);
    if l.journal.marker.Some? then CommitInterrupted(l.journal.expected, candidate, l.journal.marker.value)
    else Save(Some(l.journal.expected), candidate)
  }

  /** The session could be read, and is at the revision that the journal expects. */
  predicate Current(l: Local, fault: Fault) {
    fault != ReadFails && l.store.session.Some? && l.store.session.value.revision == l.journal.expected
  }

  /** commitObservedRun for a run that produced messages or a terminal. */
  function CommitStep(l: Local, delta: seq<string>, terminal: Option<string>, fault: Fault, ended: bool): Outcome {
    var j := l.journal;
    if delta == [] && terminal == None then Outcome(l, true)
    else if j.failed || !IsActive(l.runtime, j.owner) || !Current(l, fault) then Refused(l)
    else if j.marker.Some? && !Holds(l, fault) then Refused(l)
    else if j.marker == None && (l.store.session.value.reconcile || l.store.session.value.interruption.Some?) then Refused(l)
    else
      var attempt := Try(l.store.session, CommitOperation(l, delta, terminal), fault);
      if attempt.reported == None then Unreported(l, attempt)
      else Outcome(Adopt(l, attempt.reported.value, None, [], Trace(false, [], l.store.generation), ended), !ended)
  }

  // ----- what one journal keeps -----

  /** Unless it was deleted meanwhile, the stored session is the journal's last write, or has moved on
      past it. */
  ghost predicate Follows(store: Stored, j: Journal) {
    && Normal(j.persisted) && j.persisted.revision == j.expected
    && j.trace.generation <= store.generation
    && (j.trace.generation == store.generation ==>
          && store.session.Some? && j.expected <= store.session.value.revision
          && (store.session.value.revision == j.expected ==> store.session.value == j.persisted))
  }

  ghost predicate SameRun(entries: seq<Entry>, runId: string) {
    forall e :: e in entries ==> e.runId == runId
  }

  /** The marker is that of the last write and, until it is enriched, the aggregate of all entries. */
  ghost predicate MarkerOk(j: Journal, hash: Hash) {
    && j.marker == j.persisted.interruption
    && (j.marker.Some? ==> Guarded(j.persisted) && j.entries != [] && SameRun(j.entries, j.marker.value.runId))
    && (j.marker.Some? && !j.trace.enriched ==> Aggregate(j.entries, j.marker.value.at, REASON, hash) == j.marker)
    && (j.marker == None ==> j.entries == [])
    && (!j.failed ==> j.trace.running == j.entries)
  }

  ghost predicate JournalOk(store: Stored, j: Journal, hash: Hash) {
    Follows(store, j) && MarkerOk(j, hash)
  }

  /** The aggregate changes with its time only in its time. */
  lemma AggregateAt(entries: seq<Entry>, at: nat, now: nat, hash: Hash)
    requires Aggregate(entries, at, REASON, hash).Some?
    ensures Aggregate(entries, now, REASON, hash) == Some(Aggregate(entries, at, REASON, hash).value.(at := now))
    ensures Aggregate(entries, at, REASON, hash).value.runId == TrimSpace(entries[0].runId)
    ensures Aggregate(entries, at, REASON, hash).value.at == at
    ensures entries != [] && forall e :: e in entries ==> TrimSpace(e.runId) == TrimSpace(entries[0].runId) != ""
  {
    hide Sort, States, TrimSpace, Decimal, Utf8Length;
    SortSorts(States(entries));
    StatesLength(entries);
    var marker := Aggregate(entries, at, REASON, hash).value;
    SameMarkerValid(marker, now);
  }

  ghost predicate NormalOrNone(s: Option<Session>) {
    s.Some? ==> Normal(s.value)
  }

  ghost predicate LocalOk(l: Local, hash: Hash) {
    NormalOrNone(l.store.session) && JournalOk(l.store, l.journal, hash)
  }

  /** Writes move the revision of a session forward. */
  ghost predicate Advances(before: Option<Session>, after: Option<Session>) {
    && NormalOrNone(after)
    && (before.Some? ==> after.Some? && (after == before || after.value.revision > before.value.revision))
  }

  lemma TryAdvances(s: Option<Session>, op: Operation, fault: Fault)
    requires NormalOrNone(s)
    ensures var a := Try(s, op, fault);
            && Advances(s, a.stored)
            && (a.stored != s ==> a.stored.Some? && ApplyWrite(s, op) == Ok(a.stored.value))
            && (a.stored != s && s.Some? ==>
                  && ExpectedBy(op) in {None, Some(s.value.revision)} && Apply(s.value, op) == Ok(a.stored.value)
                  && a.stored.value.revision == s.value.revision + 1)
            && (a.stored != s && s == None ==> op.Save?)
            && (a.reported.Some? ==> a.reported == a.stored && a.stored != s)
  {
    hide Apply, Normal, Create;
    if s.Some? && Apply(s.value, op).Ok? {
      OperationsKeepNormal(s.value, op);
    }
    if s == None && op.Save? && Create(op.onlyIf, op.candidate).Ok? {
      CreationIsNormal(op.onlyIf, op.candidate);
    }
  }

  /** A failed step leaves the journal where it was, apart from the failure. */
  lemma FailKeeps(l: Local, session: Option<Session>, hash: Hash)
    requires LocalOk(l, hash) && Advances(l.store.session, session)
    ensures LocalOk(Fail(l.(store := Put(l.store, session))), hash)
  {
    hide Normal, Aggregate;
  }

  /** A reported write whose session carries the marker the journal then holds. */
  lemma AdoptKeeps(l: Local, t: Session, marker: Option<Marker>, entries: seq<Entry>, trace: Trace, ended: bool, hash: Hash)
    requires Normal(t) && marker == t.interruption && (marker == None ==> entries == [])
    requires marker.Some? ==>
               && Guarded(t) && entries != [] && SameRun(entries, marker.value.runId)
               && (!trace.enriched ==> Aggregate(entries, marker.value.at, REASON, hash) == marker)
    requires (l.journal.failed || ended || trace.running == entries) && trace.generation == l.store.generation
    ensures LocalOk(Adopt(l, t, marker, entries, trace, ended), hash)
  {
    hide Normal, Aggregate, Guarded;
  }

  lemma TrimmedEntry(e: Entry)
    ensures TrimSpace(TrimEntry(e).runId) == TrimEntry(e).runId == TrimSpace(e.runId)
  {
    hide TrimSpace;
    var before, after := TrimSpaceParts(e.runId);
    TrimTrimmed(TrimSpace(e.runId));
  }

  /** What a record that allowed its tool to start has achieved. */
  ghost predicate Recorded(l: Local, entry: Entry, o: Outcome, hash: Hash) {
    && Marked(o.local.store.session, TrimSpace(entry.runId))
    && o.local.store.session.value.interruption == o.local.journal.marker
    && o.local.journal.entries == l.journal.entries + [TrimEntry(entry)]
    && Aggregate(o.local.journal.entries, o.local.journal.marker.value.at, REASON, hash) == o.local.journal.marker
    && l.store.session.Some? && o.local.store.session.value.transcript == l.store.session.value.transcript
  }

  /** A write of the journal happens on a session at the revision it expects, which is its own last
      write unless the session was deleted since. */
  ghost predicate OwnWrite(l: Local, after: Option<Session>) {
    after != l.store.session ==>
      && !l.journal.failed && l.store.session.Some? && after.Some?
      && l.store.session.value.revision == l.journal.expected && after.value.revision == l.journal.expected + 1
      && (l.journal.trace.generation == l.store.generation ==> l.store.session.value == l.journal.persisted)
  }

  /** What every step of a journal keeps. A failed journal does not write. */
  ghost predicate StepOk(l: Local, o: Outcome, hash: Hash) {
    && LocalOk(o.local, hash) && Advances(l.store.session, o.local.store.session)
    && o.local.store.generation == l.store.generation && OwnWrite(l, o.local.store.session)
    && (o.ok && o.local.store != l.store ==> o.local.journal.expected == o.local.store.session.value.revision)
    && (l.journal.failed ==> o.local.journal.failed)
    && (!o.ok ==> o.local.journal.failed)
    && o.local.journal.owner == l.journal.owner
  }

  lemma FirstRecordKeeps(l: Local, entry: Entry, now: Instant, fault: Fault, ended: bool, hash: Hash)
    requires LocalOk(l, hash) && !l.journal.failed && l.journal.marker == None
    requires Aggregate([TrimEntry(entry)], 0, REASON, hash).Some?
    ensures var o := FirstRecord(l, TrimEntry(entry), Aggregate([TrimEntry(entry)], 0, REASON, hash).value, now, fault, ended);
            StepOk(l, o, hash) && (o.ok ==> Recorded(l, entry, o, hash))
  {
    hide Normal, Aggregate, TrimSpace, ValidMarker, ApplySave, ApplyCommit, ApplyUpdate, ApplyReconcile, ApplyClose;
    var e := TrimEntry(entry);
    var first := Aggregate([e], 0, REASON, hash).value;
    FailKeeps(l, l.store.session, hash);
    var op := MarkInterrupted(l.journal.expected, first, now);
    TryAdvances(l.store.session, op, fault);
    var attempt := Try(l.store.session, op, fault);
    FailKeeps(l, attempt.stored, hash);
    if attempt.reported.Some? {
      AggregateAt([e], 0, now, hash);
      TrimmedEntry(entry);
      var t := attempt.reported.value;
      AdoptKeeps(l, t, t.interruption, [e], Noted(l, e, ended), ended, hash);
    }
  }

  lemma NextRecordKeeps(l: Local, entry: Entry, fault: Fault, ended: bool, hash: Hash)
    requires LocalOk(l, hash) && !l.journal.failed && l.journal.marker.Some?
    requires Aggregate([TrimEntry(entry)], 0, REASON, hash).Some?
    ensures var o := NextRecord(l, TrimEntry(entry), Aggregate([TrimEntry(entry)], 0, REASON, hash).value, fault, ended, hash);
            StepOk(l, o, hash) && (o.ok ==> Recorded(l, entry, o, hash))
  {
    hide Normal, Aggregate, TrimSpace, ValidMarker, ApplySave, ApplyCommit, ApplyMark, ApplyReconcile, ApplyClose;
    var e, j := TrimEntry(entry), l.journal;
    var first := Aggregate([e], 0, REASON, hash).value;
    FailKeeps(l, l.store.session, hash);
    if Holds(l, fault) && l.store.session.value.interruption.value.runId == first.runId {
      var all := j.entries + [e];
      var next := Aggregate(all, j.marker.value.at, REASON, hash);
      if next.Some? {
        var op := UpdateInterrupted(j.expected, j.marker.value, next.value);
        TryAdvances(l.store.session, op, fault);
        var attempt := Try(l.store.session, op, fault);
        FailKeeps(l, attempt.stored, hash);
        if attempt.reported.Some? && attempt.reported.value.interruption == next {
          AggregateAt([e], 0, 0, hash);
          AggregateAt(all, j.marker.value.at, 0, hash);
          TrimmedEntry(entry);
          assert SameRun(all, next.value.runId);
          var t := attempt.reported.value;
          AdoptKeeps(l, t, t.interruption, all, Noted(l, e, ended), ended, hash);
        }
      }
    }
  }

  lemma SelfAdvances(l: Local, hash: Hash)
    requires LocalOk(l, hash)
    ensures Advances(l.store.session, l.store.session)
  {
  }

  /** Every record keeps the journal sound; one that reports success leaves a durable marker of the
      tool's run that is the aggregate of every entry recorded so far. */
  lemma RecordKeeps(l: Local, entry: Entry, now: Instant, fault: Fault, ended: bool, hash: Hash)
    requires LocalOk(l, hash)
    ensures var o := RecordStep(l, entry, now, fault, ended, hash);
            StepOk(l, o, hash) && (o.ok ==> Recorded(l, entry, o, hash))
  {
    hide LocalOk, Aggregate, FirstRecord, NextRecord, Recorded, Normal, JournalOk;
    SelfAdvances(l, hash);
    FailKeeps(l, l.store.session, hash);
    if Aggregate([TrimEntry(entry)], 0, REASON, hash).Some? && !l.journal.failed && IsActive(l.runtime, l.journal.owner) {
      if l.journal.marker == None {
        FirstRecordKeeps(l, entry, now, fault, ended, hash);
      } else {
        NextRecordKeeps(l, entry, fault, ended, hash);
      }
    }
  }

  lemma EnrichKeeps(l: Local, next: Marker, fault: Fault, ended: bool, hash: Hash)
    requires LocalOk(l, hash)
    ensures StepOk(l, EnrichStep(l, next, fault, ended), hash)
    ensures var after := EnrichStep(l, next, fault, ended).local.store.session;
            after != l.store.session ==> after.value.transcript == l.store.session.value.transcript
  {
    hide Normal, Aggregate, TrimSpace, ValidMarker, ApplySave, ApplyCommit, ApplyMark, ApplyReconcile, ApplyClose;
    var j := l.journal;
    FailKeeps(l, l.store.session, hash);
    SelfAdvances(l, hash);
    if !j.failed && j.marker.Some? && Holds(l, fault) && j.marker != Some(next) {
      var op := UpdateInterrupted(j.expected, j.marker.value, next);
      TryAdvances(l.store.session, op, fault);
      var attempt := Try(l.store.session, op, fault);
      FailKeeps(l, attempt.stored, hash);
      if attempt.reported.Some? && attempt.reported.value.interruption == Some(next) {
        var t := attempt.reported.value;
        AdoptKeeps(l, t, t.interruption, j.entries, Trace(true, j.trace.running, l.store.generation), ended, hash);
      }
    }
  }

  lemma CommitOperationIs(l: Local, delta: seq<string>, terminal: Option<string>)
    requires l.store.session.Some? && Apply(l.store.session.value, CommitOperation(l, delta, terminal)).Ok?
    ensures var s := l.store.session.value;
            var t := Apply(s, CommitOperation(l, delta, terminal)).value;
            && t.transcript == s.transcript + delta
            && t.terminal == (if terminal.Some? then terminal else s.terminal)
            && t.interruption == None && !t.reconcile
    ensures ExpectedBy(CommitOperation(l, delta, terminal)) == Some(l.journal.expected)
  {
    hide ValidMarker, TrimSpace;
  }

  /** What a commit that wrote has written. */
  ghost predicate Committed(before: Option<Session>, after: Option<Session>, delta: seq<string>) {
    && before.Some? && after.Some?
    && after.value.transcript == before.value.transcript + delta && after.value.interruption == None && !after.value.reconcile
  }

  lemma CommitAttempt(l: Local, delta: seq<string>, terminal: Option<string>, fault: Fault)
    requires l.store.session.Some?
    ensures var after := Try(l.store.session, CommitOperation(l, delta, terminal), fault).stored;
            after != l.store.session ==> Committed(l.store.session, after, delta)
    ensures ExpectedBy(CommitOperation(l, delta, terminal)) == Some(l.journal.expected)
  {
    hide Apply;
    if Apply(l.store.session.value, CommitOperation(l, delta, terminal)).Ok? {
      CommitOperationIs(l, delta, terminal);
    }
  }

  /** Committing: the transcript and the terminal are written in the step that clears the marker. */
  lemma CommitKeeps(l: Local, delta: seq<string>, terminal: Option<string>, fault: Fault, ended: bool, hash: Hash)
    requires LocalOk(l, hash)
    ensures var o := CommitStep(l, delta, terminal, fault, ended);
            && StepOk(l, o, hash)
            && (o.local.store != l.store ==>
                  && l.store.session.Some? && l.store.session.value.interruption == l.journal.marker
                  && Committed(l.store.session, o.local.store.session, delta))
  {
    hide Normal, Aggregate, TrimSpace, ValidMarker, ApplyWrite, Apply, CommitOperation, Guarded;
    FailKeeps(l, l.store.session, hash);
    SelfAdvances(l, hash);
    if l.store.session.Some? {
      CommitAttempt(l, delta, terminal, fault);
      var op := CommitOperation(l, delta, terminal);
      TryAdvances(l.store.session, op, fault);
      var attempt := Try(l.store.session, op, fault);
      FailKeeps(l, attempt.stored, hash);
      if attempt.reported.Some? {
        AdoptKeeps(l, attempt.reported.value, None, [], Trace(false, [], l.store.generation), ended, hash);
      }
    }
  }

  // ----- the whole system: several prompts, foreign writers, deletions, crashes -----

  /** `copies` are those of the session that loads have read and not installed yet. */
  datatype World = World(store: Stored, runtime: Option<Runtime>, journals: seq<Journal>, instances: nat, copies: seq<Session>)

  /** One atomic step. A foreign write between a journal's read and its write makes that write fail
      just as it would have done before the read, so its reads need no steps of their own. */
  datatype Step =
    | Prompt(message: string, fault: Fault)
    | EndPrompt
    | Record(j: nat, entry: Entry, now: Instant, fault: Fault, ended: bool)
    | Enrich(j: nat, next: Marker, fault: Fault, ended: bool)
    | Commit(j: nat, delta: seq<string>, terminal: Option<string>, fault: Fault, ended: bool)
    | MarkRun(marker: Marker, now: Instant, fault: Fault)
    | LoadRead(fault: Fault)
    | LoadInstall(k: nat)
    | LoadEnd(ok: bool)
    | Unload
    | Configure(fault: Fault)
    | DeleteSession(fault: Fault)
    | Foreign(change: Change)
    | Crash

  function LocalOf(w: World, j: nat): Local
    requires j < |w.journals|
  {
    Local(w.store, w.runtime, w.journals[j])
  }

  function Back(w: World, j: nat, l: Local): World
    requires j < |w.journals|
  {
    w.(store := l.store, runtime := l.runtime, journals := w.journals[j := l.journal])
  }

  /** Whether the session may be prompted or loaded at all. */
  predicate NeedsRecovery(s: Session) {
    s.reconcile || s.lifecycle == Interrupted || s.lifecycle == RecoveryNeeded
  }

  /** The admission checks of Prompt, on the cached session. */
  predicate Admits(w: World) {
    && w.runtime.Some? && w.runtime.value.loading == None && !w.runtime.value.quarantined && w.runtime.value.active == None
    && !NeedsRecovery(w.runtime.value.persisted)
  }

  /** A journal that has recorded nothing yet. */
  function NewJournal(owner: Owner, s: Session, generation: nat): Journal {
    Journal(owner, false, s.revision, s, None, [], Trace(false, [], generation))
  }

  function SaveOfPrompt(cached: Session, message: string): Operation {
    Save(Some(cached.revision), cached.(transcript := cached.transcript + [message]))
  }

  /** Prompt: admission on the cached session, then the save of the user's message. */
  function PromptStep(w: World, message: string, fault: Fault): World {
    if !Admits(w) then w
    else
      var cached := w.runtime.value.persisted;
      var attempt := Try(w.store.session, SaveOfPrompt(cached, message), fault);
      var saved := w.(store := Put(w.store, attempt.stored));
      if attempt.reported == None then saved
      else
        var owner, t := Owner(w.runtime.value.instance, |w.journals|), attempt.reported.value;
        saved.(runtime := Some(Runtime(owner.instance, false, Some(owner.id), t, None)),
               journals := w.journals + [NewJournal(owner, t, w.store.generation)])
  }

  /** The read of LoadSession, and validateLoadable on the copy. */
  function LoadReadStep(w: World, fault: Fault): World {
    if fault == ReadFails || w.store.session == None then w
    else
      var s := w.store.session.value;
      if NeedsRecovery(s) || s.lifecycle == Closed then w else w.(copies := w.copies + [s])
  }

  /** The object can take a load. */
  predicate Loadable(runtime: Option<Runtime>) {
    runtime.Some? ==> runtime.value.active == None && runtime.value.loading == None && !runtime.value.quarantined
  }

  function WithoutCopy(copies: seq<Session>, k: nat): seq<Session>
    requires k < |copies|
  {
    copies[..k] + copies[k + 1..]
  }

  /** The locked part of LoadSession: the copy becomes the cached session, whatever happened to the
      stored one since, and its history is going to be replayed. */
  function LoadInstallStep(w: World, k: nat): World {
    if k >= |w.copies| then w
    else
      var v := w.(copies := WithoutCopy(w.copies, k));
      if !Loadable(w.runtime) then v
      else if w.runtime == None then
        v.(runtime := Some(Runtime(w.instances, false, None, w.copies[k], Some(Created))), instances := w.instances + 1)
      else v.(runtime := Some(w.runtime.value.(persisted := w.copies[k], loading := Some(Reloaded(w.runtime.value.persisted)))))
  }

  /** The end of a load. When the replay failed, the table entry becomes what it was before. */
  function LoadEndStep(w: World, ok: bool): World {
    if w.runtime == None || w.runtime.value.loading == None then w
    else if ok then w.(runtime := Some(w.runtime.value.(loading := None)))
    else if w.runtime.value.active.Some? then w
    else
      match w.runtime.value.loading.value
      case Created => w.(runtime := None)
      case Reloaded(previous) => w.(runtime := Some(Runtime(w.runtime.value.instance, false, None, previous, None)))
  }

  /** CloseSession, after it waited for a prompt: by then another one may have begun. */
  function UnloadStep(w: World): World {
    if w.runtime.Some? && w.runtime.value.quarantined then w else w.(runtime := None)
  }

  function SaveOfSetting(cached: Session): Operation {
    Save(Some(cached.revision), cached)
  }

  /** SetSessionMode and SetSessionConfigOption: the cached session is saved with another setting. */
  function ConfigureStep(w: World, fault: Fault): World {
    if w.runtime == None || !Loadable(w.runtime) || w.runtime.value.persisted.reconcile then w
    else
      var attempt := Try(w.store.session, SaveOfSetting(w.runtime.value.persisted), fault);
      w.(store := Put(w.store, attempt.stored),
         runtime := if attempt.reported.Some? then Publish(w.runtime, attempt.reported.value) else w.runtime)
  }

  /** What a change leaves stored; a deletion ends the generation. */
  function Changed(store: Stored, change: Change): Stored {
    match ApplyChange(store.session, change)
    case Err(_) => store
    case Ok(t) => Stored(t, if change.Remove? then store.generation + 1 else store.generation)
  }

  /** DeleteSession of the back end: a loaded session must be idle and not quarantined, and its cached
      revision must be the stored one; a marker does not matter. */
  function DeleteStep(w: World, fault: Fault): World {
    if fault == ReadFails || fault == WriteFails || w.store.session == None then w
    else if !Loadable(w.runtime) then w
    else
      var expected := if w.runtime.Some? then w.runtime.value.persisted.revision else w.store.session.value.revision;
      if ApplyRemove(w.store.session, Some(expected)).Some? then w
      else
        w.(store := Changed(w.store, Remove(Some(expected))), runtime := if fault == WriteUncertain then w.runtime else None)
  }

  function QuarantineAny(runtime: Option<Runtime>): Option<Runtime> {
    if runtime.Some? then Some(runtime.value.(quarantined := true)) else None
  }

  /** markInterrupted when nothing interferes; the retries are in `MarkRounds`. */
  function MarkRunStep(w: World, marker: Marker, now: Instant, fault: Fault): World {
    if fault == ReadFails || w.store.session == None then w.(runtime := QuarantineAny(w.runtime))
    else if NeedsRecovery(w.store.session.value) then w
    else
      var attempt := Try(w.store.session, MarkInterrupted(w.store.session.value.revision, marker, now), fault);
      w.(store := Put(w.store, attempt.stored),
         runtime := if attempt.reported == None then QuarantineAny(w.runtime) else Publish(w.runtime, attempt.reported.value))
  }

  function Next(w: World, step: Step, hash: Hash): World {
    match step
    case Prompt(message, fault) => PromptStep(w, message, fault)
    case EndPrompt => if w.runtime.Some? then w.(runtime := Some(w.runtime.value.(active := None))) else w
    case Record(j, entry, now, fault, ended) =>
      if j < |w.journals| then Back(w, j, RecordStep(LocalOf(w, j), entry, now, fault, ended, hash).local) else w
    case Enrich(j, next, fault, ended) =>
      if j < |w.journals| then Back(w, j, EnrichStep(LocalOf(w, j), next, fault, ended).local) else w
    case Commit(j, delta, terminal, fault, ended) =>
      if j < |w.journals| then Back(w, j, CommitStep(LocalOf(w, j), delta, terminal, fault, ended).local) else w
    case MarkRun(marker, now, fault) => MarkRunStep(w, marker, now, fault)
    case LoadRead(fault) => LoadReadStep(w, fault)
    case LoadInstall(k) => LoadInstallStep(w, k)
    case LoadEnd(ok) => LoadEndStep(w, ok)
    case Unload => UnloadStep(w)
    case Configure(fault) => ConfigureStep(w, fault)
    case DeleteSession(fault) => DeleteStep(w, fault)
    case Foreign(change) => w.(store := Changed(w.store, change))
    case Crash => w.(runtime := None, copies := [])
  }

  function Run(w: World, steps: seq<Step>, hash: Hash): World
    decreases |steps|
  {
    if steps == [] then w else Run(Next(w, steps[0], hash), steps[1..], hash)
  }

  /** A process that has loaded nothing yet. */
  function Init(session: Option<Session>): World {
    World(Stored(session, 0), None, [], 0, [])
  }

  ghost predicate Inv(w: World, hash: Hash) {
    && NormalOrNone(w.store.session)
    && (forall j :: 0 <= j < |w.journals| ==> JournalOk(w.store, w.journals[j], hash))
  }

  /** What a step does to the stored session: it advances, or it is deleted. */
  ghost predicate MovesOn(before: Stored, after: Stored) {
    || (after.generation == before.generation && Advances(before.session, after.session))
    || (after.generation == before.generation + 1 && before.session.Some? && after.session == None)
  }

  /** Journals stay sound when somebody else writes or deletes the session. */
  lemma JournalCarries(before: Stored, after: Stored, j: Journal, hash: Hash)
    requires JournalOk(before, j, hash) && MovesOn(before, after)
    ensures JournalOk(after, j, hash)
  {
    hide Normal, MarkerOk;
  }

  lemma StoreKeepsInv(w: World, v: World, hash: Hash)
    requires Inv(w, hash) && MovesOn(w.store, v.store) && v.journals == w.journals
    ensures Inv(v, hash)
  {
    hide JournalOk, Normal;
    forall j | 0 <= j < |v.journals| ensures JournalOk(v.store, v.journals[j], hash) {
      JournalCarries(w.store, v.store, w.journals[j], hash);
    }
  }

  lemma LocalKeepsInv(w: World, j: nat, o: Outcome, hash: Hash)
    requires Inv(w, hash) && j < |w.journals| && StepOk(LocalOf(w, j), o, hash)
    ensures Inv(Back(w, j, o.local), hash)
  {
    hide JournalOk, Normal, OwnWrite;
    var v := Back(w, j, o.local);
    forall k | 0 <= k < |v.journals| ensures JournalOk(v.store, v.journals[k], hash) {
      if k != j {
        JournalCarries(w.store, v.store, w.journals[k], hash);
      }
    }
  }

  lemma SaveLeaves(s: Option<Session>, op: Operation)
    requires op.Save? && ApplyWrite(s, op).Ok?
    ensures ApplyWrite(s, op).value.interruption == None
  {
  }

  lemma NewJournalOk(store: Stored, owner: Owner, hash: Hash)
    requires store.session.Some? && Normal(store.session.value) && store.session.value.interruption == None
    ensures JournalOk(store, NewJournal(owner, store.session.value, store.generation), hash)
  {
    hide Normal, Aggregate;
  }

  lemma PromptKeepsInv(w: World, message: string, fault: Fault, hash: Hash)
    requires Inv(w, hash)
    ensures Inv(PromptStep(w, message, fault), hash) && MovesOn(w.store, PromptStep(w, message, fault).store)
  {
    hide JournalOk, ApplyWrite, Normal, NeedsRecovery;
    if Admits(w) {
      var op := SaveOfPrompt(w.runtime.value.persisted, message);
      TryAdvances(w.store.session, op, fault);
      var attempt := Try(w.store.session, op, fault);
      var saved := w.(store := Put(w.store, attempt.stored));
      StoreKeepsInv(w, saved, hash);
      if attempt.reported.Some? {
        SaveLeaves(w.store.session, op);
        NewJournalOk(saved.store, Owner(w.runtime.value.instance, |w.journals|), hash);
      }
    }
  }

  lemma ChangeMovesOn(store: Stored, change: Change)
    requires NormalOrNone(store.session)
    ensures MovesOn(store, Changed(store, change))
  {
    hide Normal, ApplyWrite;
    if change.Write? {
      TryAdvances(store.session, change.op, Healthy);
    }
  }

  lemma SelfMovesOn(store: Stored)
    requires NormalOrNone(store.session)
    ensures MovesOn(store, store)
  {
  }

  lemma MarkRunMovesOn(w: World, marker: Marker, now: Instant, fault: Fault)
    requires NormalOrNone(w.store.session)
    ensures MovesOn(w.store, MarkRunStep(w, marker, now, fault).store)
    ensures MarkRunStep(w, marker, now, fault).journals == w.journals
  {
    hide Normal, ApplyWrite;
    if w.store.session.Some? {
      TryAdvances(w.store.session, MarkInterrupted(w.store.session.value.revision, marker, now), fault);
    }
  }

  lemma ConfigureMovesOn(w: World, fault: Fault)
    requires NormalOrNone(w.store.session)
    ensures MovesOn(w.store, ConfigureStep(w, fault).store) && ConfigureStep(w, fault).journals == w.journals
  {
    hide Normal, ApplyWrite;
    if w.runtime.Some? {
      TryAdvances(w.store.session, SaveOfSetting(w.runtime.value.persisted), fault);
    }
  }

  lemma DeleteMovesOn(w: World, fault: Fault)
    requires NormalOrNone(w.store.session)
    ensures MovesOn(w.store, DeleteStep(w, fault).store) && DeleteStep(w, fault).journals == w.journals
  {
    hide Normal;
  }

  lemma LocalMovesOn(w: World, j: nat, o: Outcome, hash: Hash)
    requires Inv(w, hash) && j < |w.journals| && StepOk(LocalOf(w, j), o, hash)
    ensures Inv(Back(w, j, o.local), hash) && MovesOn(w.store, Back(w, j, o.local).store)
  {
    hide JournalOk, Normal, Inv, OwnWrite;
    LocalKeepsInv(w, j, o, hash);
  }

  lemma InvNormal(w: World, hash: Hash)
    requires Inv(w, hash)
    ensures NormalOrNone(w.store.session)
  {
  }

  lemma LocalFromInv(w: World, j: nat, hash: Hash)
    requires Inv(w, hash) && j < |w.journals|
    ensures LocalOk(LocalOf(w, j), hash)
  {
  }

  lemma NextKeepsInv(w: World, step: Step, hash: Hash)
    requires Inv(w, hash)
    ensures Inv(Next(w, step, hash), hash) && MovesOn(w.store, Next(w, step, hash).store)
  {
    hide Inv, JournalOk, ApplyWrite, Normal, NormalOrNone, NeedsRecovery, RecordStep, EnrichStep, CommitStep, PromptStep, Changed, MovesOn,
         OwnWrite, Advances;
    InvNormal(w, hash);
    SelfMovesOn(w.store);
    match step
    case Prompt(message, fault) => PromptKeepsInv(w, message, fault, hash);
    case Record(j, entry, now, fault, ended) =>
      if j < |w.journals| {
        LocalFromInv(w, j, hash);
        RecordKeeps(LocalOf(w, j), entry, now, fault, ended, hash);
        LocalMovesOn(w, j, RecordStep(LocalOf(w, j), entry, now, fault, ended, hash), hash);
      }
    case Enrich(j, next, fault, ended) =>
      if j < |w.journals| {
        LocalFromInv(w, j, hash);
        EnrichKeeps(LocalOf(w, j), next, fault, ended, hash);
        LocalMovesOn(w, j, EnrichStep(LocalOf(w, j), next, fault, ended), hash);
      }
    case Commit(j, delta, terminal, fault, ended) =>
      if j < |w.journals| {
        LocalFromInv(w, j, hash);
        CommitKeeps(LocalOf(w, j), delta, terminal, fault, ended, hash);
        LocalMovesOn(w, j, CommitStep(LocalOf(w, j), delta, terminal, fault, ended), hash);
      }
    case MarkRun(marker, now, fault) =>
      MarkRunMovesOn(w, marker, now, fault);
      StoreKeepsInv(w, Next(w, step, hash), hash);
    case DeleteSession(fault) =>
      DeleteMovesOn(w, fault);
      StoreKeepsInv(w, Next(w, step, hash), hash);
    case Configure(fault) =>
      ConfigureMovesOn(w, fault);
      StoreKeepsInv(w, Next(w, step, hash), hash);
    case Foreign(change) =>
      ChangeMovesOn(w.store, change);
      StoreKeepsInv(w, Next(w, step, hash), hash);
    case _ => StoreKeepsInv(w, Next(w, step, hash), hash);
  }

  lemma {:induction false} RunSplit(w: World, first: seq<Step>, second: seq<Step>, hash: Hash)
    ensures Run(w, first + second, hash) == Run(Run(w, first, hash), second, hash)
    decreases |first|
  {
    hide Next;
    if first == [] {
      assert first + second == second;
    } else {
      assert (first + second)[1..] == first[1..] + second;
      RunSplit(Next(w, first[0], hash), first[1..], second, hash);
    }
  }

  lemma {:induction false} RunKeepsInv(w: World, steps: seq<Step>, hash: Hash)
    requires Inv(w, hash)
    ensures Inv(Run(w, steps, hash), hash)
    decreases |steps|
  {
    hide Inv, Next, MovesOn;
    if steps != [] {
      NextKeepsInv(w, steps[0], hash);
      RunKeepsInv(Next(w, steps[0], hash), steps[1..], hash);
    }
  }

  /** The stored session, which may be another one under the same identifier, can take a first marker. */
  predicate Startable(l: Local)
    requires l.store.session.Some?
  {
    l.store.session.value.lifecycle == Active && !l.journal.persisted.reconcile
  }

  /** The stored session is guarded by the journal's marker. */
  predicate HeldMarker(l: Local)
    requires l.store.session.Some?
  {
    Guarded(l.store.session.value) && l.store.session.value.interruption == l.journal.marker
  }

  lemma AggregateValid(entries: seq<Entry>, at: nat, hash: Hash)
    requires Aggregate(entries, at, REASON, hash).Some?
    ensures ValidMarker(Aggregate(entries, at, REASON, hash).value)
  {
  }

  lemma FirstAttempt(l: Local, first: Marker, now: Instant)
    requires NormalOrNone(l.store.session) && ValidMarker(first)
    ensures ApplyWrite(l.store.session, MarkInterrupted(l.journal.expected, first, now)).Ok? <==>
            && l.store.session.Some? && l.store.session.value.revision == l.journal.expected < MAX_UINT64
            && l.store.session.value.lifecycle == Active
  {
  }

  lemma FirstSucceeds(l: Local, e: Entry, first: Marker, now: Instant, fault: Fault, ended: bool, hash: Hash)
    requires LocalOk(l, hash) && l.journal.marker == None && ValidMarker(first)
    ensures FirstRecord(l, e, first, now, fault, ended).ok <==>
            fault == Healthy && !ended && l.store.session.Some?
            && l.store.session.value.revision == l.journal.expected < MAX_UINT64 && Startable(l)
  {
    hide ValidMarker, Aggregate, Normal, ApplySave, ApplyCommit, ApplyUpdate, ApplyReconcile, ApplyClose, ApplyRename;
    FirstAttempt(l, first, now);
  }

  lemma NextSucceeds(l: Local, e: Entry, first: Marker, fault: Fault, ended: bool, hash: Hash)
    requires LocalOk(l, hash) && l.journal.marker.Some?
    requires first.runId == e.runId == TrimSpace(e.runId) != ""
    ensures NextRecord(l, e, first, fault, ended, hash).ok <==>
            && fault == Healthy && !ended && l.store.session.Some? && l.store.session.value.revision == l.journal.expected < MAX_UINT64
            && HeldMarker(l) && e.runId == l.journal.marker.value.runId
            && Aggregate(l.journal.entries + [e], l.journal.marker.value.at, REASON, hash).Some?
  {
    hide ValidMarker, Aggregate, TrimSpace, ApplySave, ApplyCommit, ApplyMark, ApplyReconcile, ApplyClose;
    var all := l.journal.entries + [e];
    if Aggregate(all, l.journal.marker.value.at, REASON, hash).Some? {
      AggregateAt(all, l.journal.marker.value.at, 0, hash);
      AggregateValid(all, l.journal.marker.value.at, hash);
      assert all[|all| - 1] == e && all[0] == l.journal.entries[0];
      assert e in all;
    }
  }

  /** The journal's prompt is active on the session of this process, which is not being loaded and not
      quarantined. */
  ghost predicate PromptRuns(l: Local) {
    exists cached :: l.runtime == Some(Runtime(l.journal.owner.instance, false, Some(l.journal.owner.id), cached, None))
  }

  lemma PromptRunsIff(l: Local)
    ensures PromptRuns(l) <==> IsActive(l.runtime, l.journal.owner)
  {
    if IsActive(l.runtime, l.journal.owner) {
      assert l.runtime == Some(Runtime(l.journal.owner.instance, false, Some(l.journal.owner.id), l.runtime.value.persisted, None));
    }
  }

  /** Exactly when a record lets its tool start. */
  lemma RecordSucceeds(l: Local, entry: Entry, now: Instant, fault: Fault, ended: bool, hash: Hash)
    requires LocalOk(l, hash)
    ensures var e := TrimEntry(entry);
            var first := Aggregate([e], 0, REASON, hash);
            RecordStep(l, entry, now, fault, ended, hash).ok <==>
              && first.Some? && !l.journal.failed && PromptRuns(l)
              && fault == Healthy && !ended
              && l.store.session.Some? && l.store.session.value.revision == l.journal.expected < MAX_UINT64
              && if l.journal.marker == None then Startable(l)
                 else HeldMarker(l) && e.runId == l.journal.marker.value.runId
                      && Aggregate(l.journal.entries + [e], l.journal.marker.value.at, REASON, hash).Some?
  {
    hide Aggregate, FirstRecord, NextRecord, LocalOk, TrimSpace, ValidMarker, PromptRuns, IsActive;
    PromptRunsIff(l);
    var e := TrimEntry(entry);
    var first := Aggregate([e], 0, REASON, hash);
    if first.Some? && !l.journal.failed {
      TrimmedEntry(entry);
      AggregateAt([e], 0, 0, hash);
      AggregateValid([e], 0, hash);
      if l.journal.marker == None {
        FirstSucceeds(l, e, first.value, now, fault, ended, hash);
      } else {
        NextSucceeds(l, e, first.value, fault, ended, hash);
      }
    }
  }

  lemma CommitAttemptSucceeds(l: Local, delta: seq<string>, terminal: Option<string>)
    requires l.store.session.Some? && Normal(l.store.session.value)
    ensures Apply(l.store.session.value, CommitOperation(l, delta, terminal)).Ok? <==>
              && l.store.session.value.revision == l.journal.expected < MAX_UINT64
              && if l.journal.marker == None then l.store.session.value.lifecycle == Active
                 else HeldMarker(l) && TrimSpace(l.journal.marker.value.runId) != ""
  {
    hide Apply, ValidMarker, TrimSpace;
    SucceedsIff(l.store.session.value, CommitOperation(l, delta, terminal));
  }

  /** Exactly when a run's messages are committed: nothing is left to commit, or the prompt runs and the
      stored session is at the journal's revision, active or guarded by the journal's marker. */
  lemma CommitSucceeds(l: Local, delta: seq<string>, terminal: Option<string>, fault: Fault, ended: bool, hash: Hash)
    requires LocalOk(l, hash)
    ensures CommitStep(l, delta, terminal, fault, ended).ok <==>
              || (delta == [] && terminal == None)
              || (&& !l.journal.failed && PromptRuns(l) && fault == Healthy && !ended
                  && l.store.session.Some? && l.store.session.value.revision == l.journal.expected < MAX_UINT64
                  && if l.journal.marker == None then l.store.session.value.lifecycle == Active
                     else HeldMarker(l) && TrimSpace(l.journal.marker.value.runId) != "")
  {
    hide Apply, ValidMarker, TrimSpace, Aggregate, PromptRuns, IsActive, CommitOperation;
    PromptRunsIff(l);
    if l.store.session.Some? {
      CommitAttemptSucceeds(l, delta, terminal);
    }
  }

  lemma EnrichAttemptSucceeds(l: Local, next: Marker)
    requires l.journal.marker.Some? && l.store.session.Some? && Normal(l.store.session.value) && ValidMarker(next)
    ensures var op := UpdateInterrupted(l.journal.expected, l.journal.marker.value, next);
            var result := Apply(l.store.session.value, op);
            result.Ok? && result.value.interruption == Some(next) <==>
              && l.store.session.value.revision == l.journal.expected < MAX_UINT64 && HeldMarker(l)
              && TrimSpace(l.journal.marker.value.runId) != "" && next.runId == l.journal.marker.value.runId && next.at != 0
  {
    hide Apply, ValidMarker, TrimSpace;
    var op := UpdateInterrupted(l.journal.expected, l.journal.marker.value, next);
    SucceedsIff(l.store.session.value, op);
    if Apply(l.store.session.value, op).Ok? {
      SuccessLeaves(l.store.session.value, op);
    }
  }

  /** Exactly when a marker is enriched: it is the one that is there already, or a valid one of the same
      run that has a time. */
  lemma EnrichSucceeds(l: Local, next: Marker, fault: Fault, ended: bool, hash: Hash)
    requires LocalOk(l, hash)
    ensures EnrichStep(l, next, fault, ended).ok <==>
              && !l.journal.failed && PromptRuns(l) && l.journal.marker.Some? && ValidMarker(next)
              && TrimSpace(next.runId) == l.journal.marker.value.runId
              && l.store.session.Some? && l.store.session.value.revision == l.journal.expected
              && l.store.session.value.reconcile && l.store.session.value.interruption == l.journal.marker
              && if next == l.journal.marker.value then fault != ReadFails
                 else && fault == Healthy && !ended && l.journal.expected < MAX_UINT64 && HeldMarker(l)
                      && next.runId == TrimSpace(next.runId) != "" && next.at != 0
  {
    hide Apply, ValidMarker, TrimSpace, Aggregate, PromptRuns, IsActive;
    PromptRunsIff(l);
    if l.journal.marker.Some? && l.store.session.Some? && ValidMarker(next) {
      EnrichAttemptSucceeds(l, next);
    }
  }

  /** What a step of a journal does to this process: a failure quarantines the journal's own object and
      changes nothing else of it; a success shows it the session that it has written. */
  ghost predicate TellsRuntime(l: Local, o: Outcome) {
    var own := l.runtime.Some? && l.runtime.value.instance == l.journal.owner.instance;
    && (!o.ok ==> o.local.journal.failed
                  && o.local.runtime == if own then Some(l.runtime.value.(quarantined := true)) else l.runtime)
    && (o.ok ==>
          || o.local == l
          || (&& own && o.local.store.session.Some?
              && o.local.runtime == Some(l.runtime.value.(persisted := o.local.store.session.value))
              && o.local.journal.persisted == o.local.store.session.value))
  }

  lemma RecordTells(l: Local, entry: Entry, now: Instant, fault: Fault, ended: bool, hash: Hash)
    ensures TellsRuntime(l, RecordStep(l, entry, now, fault, ended, hash))
  {
    hide Aggregate, ApplyWrite, TrimSpace;
  }

  lemma EnrichTells(l: Local, next: Marker, fault: Fault, ended: bool)
    ensures TellsRuntime(l, EnrichStep(l, next, fault, ended))
  {
    hide ApplyWrite, TrimSpace, ValidMarker;
  }

  lemma CommitTells(l: Local, delta: seq<string>, terminal: Option<string>, fault: Fault, ended: bool)
    ensures TellsRuntime(l, CommitStep(l, delta, terminal, fault, ended))
  {
    hide ApplyWrite, TrimSpace, CommitOperation;
  }

  // ----- the results over whole runs -----

  lemma Reachable(session: Option<Session>, steps: seq<Step>, hash: Hash)
    requires NormalOrNone(session)
    ensures Inv(Run(Init(session), steps, hash), hash)
  {
    RunKeepsInv(Init(session), steps, hash);
  }

  /** The atomic transcript commit of a journal that holds exactly the stored marker. */
  ghost predicate CommitsMarker(w: World, step: Step, hash: Hash) {
    && step.Commit? && step.j < |w.journals| && w.store.session.Some?
    && w.journals[step.j].marker == w.store.session.value.interruption
    && Committed(w.store.session, Next(w, step, hash).store.session, step.delta)
  }

  /** The commit of that marker, or a reconciliation of its run, by somebody else. */
  predicate ReleasedByOthers(w: World, step: Step) {
    && step.Foreign? && step.change.Write? && w.store.session.Some?
    && Apply(w.store.session.value, step.change.op).Ok? && Releases(w.store.session.value, step.change.op)
  }

  /** The session itself goes away. */
  predicate Deletes(w: World, step: Step, hash: Hash) {
    (step.DeleteSession? || (step.Foreign? && step.change.Remove?)) && Next(w, step, hash).store.session == None
  }

  ghost predicate EndsMarker(w: World, step: Step, hash: Hash) {
    CommitsMarker(w, step, hash) || ReleasedByOthers(w, step) || Deletes(w, step, hash)
  }

  lemma TryGuarded(s: Option<Session>, op: Operation, fault: Fault, runId: string)
    requires NormalOrNone(s) && Marked(s, runId) && !Releases(s.value, op)
    ensures Marked(Try(s, op, fault).stored, runId)
    ensures op.Save? || op.MarkInterrupted? || op.Close? || op.Rename? ==> Try(s, op, fault).stored == s
  {
    hide Normal;
    if Apply(s.value, op).Ok? {
      GuardedStays(s.value, op, runId);
    }
  }

  lemma RecordGuarded(l: Local, entry: Entry, now: Instant, fault: Fault, ended: bool, hash: Hash, runId: string)
    requires NormalOrNone(l.store.session) && Marked(l.store.session, runId)
    ensures Marked(RecordStep(l, entry, now, fault, ended, hash).local.store.session, runId)
  {
    hide NormalOrNone, Aggregate, TrimSpace, ApplyWrite, Marked;
    var e := TrimEntry(entry);
    var first := Aggregate([e], 0, REASON, hash);
    if first.Some? {
      TryGuarded(l.store.session, MarkInterrupted(l.journal.expected, first.value, now), fault, runId);
    }
    if l.journal.marker.Some? {
      var next := Aggregate(l.journal.entries + [e], l.journal.marker.value.at, REASON, hash);
      if next.Some? {
        TryGuarded(l.store.session, UpdateInterrupted(l.journal.expected, l.journal.marker.value, next.value), fault, runId);
      }
    }
  }

  lemma EnrichGuarded(l: Local, next: Marker, fault: Fault, ended: bool, runId: string)
    requires NormalOrNone(l.store.session) && Marked(l.store.session, runId)
    ensures Marked(EnrichStep(l, next, fault, ended).local.store.session, runId)
  {
    hide NormalOrNone, TrimSpace, ValidMarker, ApplyWrite, Marked;
    if l.journal.marker.Some? {
      TryGuarded(l.store.session, UpdateInterrupted(l.journal.expected, l.journal.marker.value, next), fault, runId);
    }
  }

  lemma ForeignGuarded(w: World, change: Change, hash: Hash, runId: string)
    requires NormalOrNone(w.store.session) && Marked(w.store.session, runId)
    ensures !Marked(Changed(w.store, change).session, runId) <==> EndsMarker(w, Foreign(change), hash)
  {
    hide Normal, Apply;
    if ApplyChange(w.store.session, change).Ok? {
      MarkerGoesBy(w.store.session.value, change, runId);
    }
  }

  lemma StoreSame(l: Local, o: Outcome, hash: Hash)
    requires StepOk(l, o, hash)
    ensures o.local.store.session == l.store.session ==> o.local.store == l.store
  {
  }

  lemma CommitGuarded(w: World, step: Step, hash: Hash, runId: string)
    requires Inv(w, hash) && Marked(w.store.session, runId) && step.Commit?
    ensures !Marked(Next(w, step, hash).store.session, runId) <==> CommitsMarker(w, step, hash)
  {
    hide JournalOk, Normal, NormalOrNone, CommitStep, StepOk;
    if step.j < |w.journals| {
      LocalFromInv(w, step.j, hash);
      CommitKeeps(LocalOf(w, step.j), step.delta, step.terminal, step.fault, step.ended, hash);
      StoreSame(LocalOf(w, step.j), CommitStep(LocalOf(w, step.j), step.delta, step.terminal, step.fault, step.ended), hash);
    }
  }

  lemma SaveReleasesNothing(s: Session, op: Operation)
    requires op.Save?
    ensures !Releases(s, op)
  {
  }

  lemma MarkedNeedsRecovery(s: Session, runId: string)
    requires MarkedFor(s, runId)
    ensures NeedsRecovery(s)
  {
  }

  lemma DeleteEnds(w: World, fault: Fault, hash: Hash, runId: string)
    requires Marked(w.store.session, runId)
    ensures !Marked(DeleteStep(w, fault).store.session, runId) <==> Deletes(w, DeleteSession(fault), hash)
  {
  }

  /** The marker of a run goes away in exactly three kinds of step: the commit of that marker, a release
      by somebody else, and the deletion of the session. */
  lemma MarkerEndsExactly(w: World, step: Step, hash: Hash, runId: string)
    requires Inv(w, hash) && Marked(w.store.session, runId)
    ensures !Marked(Next(w, step, hash).store.session, runId) <==> EndsMarker(w, step, hash)
  {
    hide JournalOk, MarkedFor, Normal, NormalOrNone, ApplyWrite, RecordStep, EnrichStep, CommitStep, Releases, Changed, Committed, Apply;
    InvNormal(w, hash);
    match step
    case Prompt(message, fault) =>
      if Admits(w) {
        SaveReleasesNothing(w.store.session.value, SaveOfPrompt(w.runtime.value.persisted, message));
        TryGuarded(w.store.session, SaveOfPrompt(w.runtime.value.persisted, message), fault, runId);
      }
    case Record(j, entry, now, fault, ended) =>
      if j < |w.journals| { RecordGuarded(LocalOf(w, j), entry, now, fault, ended, hash, runId); }
    case Enrich(j, next, fault, ended) =>
      if j < |w.journals| { EnrichGuarded(LocalOf(w, j), next, fault, ended, runId); }
    case Commit(_, _, _, _, _) => CommitGuarded(w, step, hash, runId);
    case MarkRun(marker, now, fault) => MarkedNeedsRecovery(w.store.session.value, runId);
    case Configure(fault) =>
      if w.runtime.Some? {
        SaveReleasesNothing(w.store.session.value, SaveOfSetting(w.runtime.value.persisted));
        TryGuarded(w.store.session, SaveOfSetting(w.runtime.value.persisted), fault, runId);
      }
    case DeleteSession(fault) => DeleteEnds(w, fault, hash, runId);
    case Foreign(change) => ForeignGuarded(w, change, hash, runId);
    case _ =>
  }

  /** In the run of some later steps, the one after the first `k` ends the marker, which stood until then. */
  ghost predicate EndedAt(w: World, later: seq<Step>, k: nat, hash: Hash, runId: string)
    requires k < |later|
  {
    var v := Run(w, later[..k], hash);
    Marked(v.store.session, runId) && EndsMarker(v, later[k], hash)
  }

  lemma {:induction false} CoveredUntilEnded(w: World, later: seq<Step>, hash: Hash, runId: string)
    requires Inv(w, hash) && Marked(w.store.session, runId)
    ensures || Marked(Run(w, later, hash).store.session, runId)
            || (exists k :: 0 <= k < |later| && EndedAt(w, later, k, hash, runId))
    decreases |later|
  {
    hide Inv, Marked, Next, EndsMarker;
    if later != [] {
      var v := Next(w, later[0], hash);
      MarkerEndsExactly(w, later[0], hash, runId);
      if Marked(v.store.session, runId) {
        NextKeepsInv(w, later[0], hash);
        CoveredUntilEnded(v, later[1..], hash, runId);
        if !Marked(Run(v, later[1..], hash).store.session, runId) {
          var k :| 0 <= k < |later[1..]| && EndedAt(v, later[1..], k, hash, runId);
          assert later[..k + 1][1..] == later[1..][..k];
          assert EndedAt(w, later, k + 1, hash, runId);
        }
      } else {
        assert later[..0] == [];
        assert EndedAt(w, later, 0, hash, runId);
      }
    }
  }

  /** The marker stands throughout the run of some later steps. */
  ghost predicate MarkedThroughout(w: World, later: seq<Step>, hash: Hash, runId: string)
    decreases |later|
  {
    Marked(w.store.session, runId) && (later == [] || MarkedThroughout(Next(w, later[0], hash), later[1..], hash, runId))
  }

  /** None of the steps ends the marker. */
  ghost predicate NeverEnded(w: World, later: seq<Step>, hash: Hash)
    decreases |later|
  {
    later == [] || (!EndsMarker(w, later[0], hash) && NeverEnded(Next(w, later[0], hash), later[1..], hash))
  }

  lemma NotThroughout(w: World, later: seq<Step>, hash: Hash, runId: string)
    requires !Marked(w.store.session, runId)
    ensures !MarkedThroughout(w, later, hash, runId)
  {
  }

  lemma {:induction false} ThroughoutUnlessEnded(w: World, later: seq<Step>, hash: Hash, runId: string)
    requires Inv(w, hash) && Marked(w.store.session, runId)
    ensures MarkedThroughout(w, later, hash, runId) <==> NeverEnded(w, later, hash)
    decreases |later|
  {
    hide Inv, Marked, Next, EndsMarker;
    if later != [] {
      var v := Next(w, later[0], hash);
      MarkerEndsExactly(w, later[0], hash, runId);
      if Marked(v.store.session, runId) {
        NextKeepsInv(w, later[0], hash);
        ThroughoutUnlessEnded(v, later[1..], hash, runId);
      } else {
        NotThroughout(v, later[1..], hash, runId);
      }
    }
  }

  /** The record step lets its tool start. */
  predicate Starts(w: World, step: Step, hash: Hash) {
    step.Record? && step.j < |w.journals| && RecordStep(LocalOf(w, step.j), step.entry, step.now, step.fault, step.ended, hash).ok
  }

  lemma StartMarks(w: World, step: Step, hash: Hash)
    requires Inv(w, hash) && Starts(w, step, hash)
    ensures Marked(Next(w, step, hash).store.session, TrimSpace(step.entry.runId))
  {
    hide Inv, LocalOk, JournalOk, Marked, RecordStep, Aggregate, TrimSpace, StepOk;
    LocalFromInv(w, step.j, hash);
    RecordKeeps(LocalOf(w, step.j), step.entry, step.now, step.fault, step.ended, hash);
  }

  lemma StartsRecord(w: World, step: Step, hash: Hash)
    requires Starts(w, step, hash)
    ensures step.Record?
  {
  }

  /** Write-ahead coverage: whatever happened before, when a tool is allowed to start a durable marker of
      its run stands. Whatever happens after, it stands throughout if and only if no step commits that
      marker, releases it, or deletes the session; so if it is gone, one of these steps ended it. */
  lemma StartedToolIsCovered(session: Option<Session>, before: seq<Step>, step: Step, later: seq<Step>, hash: Hash)
    requires NormalOrNone(session)
    ensures var w := Run(Init(session), before, hash);
            Starts(w, step, hash) ==>
              var v, runId := Next(w, step, hash), TrimSpace(step.entry.runId);
              && Marked(v.store.session, runId)
              && (MarkedThroughout(v, later, hash, runId) <==> NeverEnded(v, later, hash))
              && (|| Marked(Run(v, later, hash).store.session, runId)
                  || (exists k :: 0 <= k < |later| && EndedAt(v, later, k, hash, runId)))
  {
    hide Inv, Marked, Next, Run, Starts, EndedAt, TrimSpace, MarkedThroughout, NeverEnded, MovesOn;
    Reachable(session, before, hash);
    var w := Run(Init(session), before, hash);
    if Starts(w, step, hash) {
      StartMarks(w, step, hash);
      NextKeepsInv(w, step, hash);
      StartsRecord(w, step, hash);
      CoveredUntilEnded(Next(w, step, hash), later, hash, TrimSpace(step.entry.runId));
      ThroughoutUnlessEnded(Next(w, step, hash), later, hash, TrimSpace(step.entry.runId));
    }
  }

  // ----- deletion -----

  /** Exactly when the back end's deletion succeeds: the session exists and, if it is loaded, is idle,
      not quarantined and cached at its stored revision. Its marker plays no part. */
  lemma DeletionIgnoresMarkers(w: World)
    ensures DeleteStep(w, Healthy).store.session == None && w.store.session.Some? <==>
            && w.store.session.Some?
            && (w.runtime.Some? ==>
                  && w.runtime.value.loading == None && !w.runtime.value.quarantined && w.runtime.value.active == None
                  && w.runtime.value.persisted.revision == w.store.session.value.revision)
  {
  }

  /** A deletion begins a new generation and unloads the session, unless it is only known to have been
      tried; without one nothing changes. */
  lemma DeletionUnloads(w: World, fault: Fault)
    ensures var v := DeleteStep(w, fault);
            if v.store != w.store then
              && v.store == Stored(None, w.store.generation + 1) && fault in {Healthy, WriteUncertain}
              && v == w.(store := v.store, runtime := if fault == WriteUncertain then w.runtime else None)
            else v == w
  {
  }

  lemma CrashAndDelete(w: World, hash: Hash)
    requires w.store.session.Some?
    ensures Run(w, [Crash, DeleteSession(Healthy)], hash).store.session == None
  {
    hide NeedsRecovery;
    var v := Next(w, Crash, hash);
    assert [Crash, DeleteSession(Healthy)][1..] == [DeleteSession(Healthy)];
    assert [DeleteSession(Healthy)][1..] == [];
    assert Run(v, [DeleteSession(Healthy)], hash) == Next(v, DeleteSession(Healthy), hash);
  }

  /** The session with the prompt's message. */
  function Prompted(s: Session, message: string): Session {
    s.(revision := s.revision + 1, committed := s.revision + 1, transcript := s.transcript + [message])
  }

  /** A load and a prompt. */
  function PromptRun(message: string): seq<Step> {
    [LoadRead(Healthy), LoadInstall(0), LoadEnd(true), Prompt(message, Healthy)]
  }

  lemma LoadSteps(w: World, s: Session, hash: Hash)
    requires w.store.session == Some(s) && Normal(s) && s.lifecycle == Active && w.runtime == None && w.copies == []
    ensures Next(w, LoadRead(Healthy), hash) == w.(copies := [s])
    ensures Next(w.(copies := [s]), LoadInstall(0), hash) ==
            w.(runtime := Some(Runtime(w.instances, false, None, s, Some(Created))), instances := w.instances + 1)
  {
    hide ValidMarker;
    assert WithoutCopy([s], 0) == [];
  }

  lemma ThreeSteps(w: World, first: Step, second: Step, third: Step, hash: Hash)
    ensures Run(w, [first, second, third], hash) == Next(Next(Next(w, first, hash), second, hash), third, hash)
  {
    hide Next;
    var v := Next(w, first, hash);
    assert [first, second, third][1..] == [second, third] && [second, third][1..] == [third] && [third][1..] == [];
    assert Run(v, [second, third], hash) == Run(Next(v, second, hash), [third], hash);
  }

  /** Loading an active session. */
  lemma LoadedWorld(w: World, s: Session, hash: Hash)
    requires w.store.session == Some(s) && Normal(s) && s.lifecycle == Active && w.runtime == None && w.copies == []
    ensures var v := Run(w, [LoadRead(Healthy), LoadInstall(0), LoadEnd(true)], hash);
            v == w.(runtime := Some(Runtime(w.instances, false, None, s, None)), instances := w.instances + 1)
  {
    hide Run, LoadReadStep, LoadInstallStep, Normal;
    LoadSteps(w, s, hash);
    ThreeSteps(w, LoadRead(Healthy), LoadInstall(0), LoadEnd(true), hash);
  }

  lemma PromptedWorld(s: Session, message: string, hash: Hash)
    requires Normal(s) && s.lifecycle == Active && s.revision < MAX_UINT64
    ensures var t := Prompted(s, message);
            Run(Init(Some(s)), PromptRun(message), hash) ==
            World(Stored(Some(t), 0), Some(Runtime(0, false, Some(0), t, None)), [NewJournal(Owner(0, 0), t, 0)], 1, [])
  {
    var init, t := Init(Some(s)), Prompted(s, message);
    var load, prompt := [LoadRead(Healthy), LoadInstall(0), LoadEnd(true)], [Prompt(message, Healthy)];
    LoadedWorld(init, s, hash);
    var loaded := World(Stored(Some(s), 0), Some(Runtime(0, false, None, s, None)), [], 1, []);
    assert Run(init, load, hash) == loaded;
    RunSplit(init, load, prompt, hash);
    assert load + prompt == PromptRun(message);
    var prompted := Next(loaded, prompt[0], hash);
    assert prompted == World(Stored(Some(t), 0), Some(Runtime(0, false, Some(0), t, None)), [NewJournal(Owner(0, 0), t, 0)], 1, []);
    assert prompt[1..] == [];
    assert Run(loaded, prompt, hash) == prompted;
  }

  /** A run in which the marker of a started tool disappears although nobody committed or reconciled:
      the process ends after the tool was allowed to start, and the session is deleted. */
  lemma DeletionDropsMarker(s: Session, message: string, entry: Entry, now: Instant, hash: Hash)
    requires Normal(s) && s.lifecycle == Active && s.revision + 2 < MAX_UINT64
    requires Aggregate([TrimEntry(entry)], 0, REASON, hash).Some?
    ensures var w := Run(Init(Some(s)), PromptRun(message), hash);
            var step := Record(0, entry, now, Healthy, false);
            && Starts(w, step, hash)
            && Marked(Next(w, step, hash).store.session, TrimSpace(entry.runId))
            && Run(Next(w, step, hash), [Crash, DeleteSession(Healthy)], hash).store.session == None
  {
    hide Aggregate, TrimSpace, TrimEntry, ValidMarker;
    var init := Init(Some(s));
    PromptedWorld(s, message, hash);
    var w := Run(init, PromptRun(message), hash);
    var step := Record(0, entry, now, Healthy, false);
    Reachable(Some(s), PromptRun(message), hash);
    LocalFromInv(w, 0, hash);
    RecordSucceeds(LocalOf(w, 0), entry, now, Healthy, false, hash);
    StartMarks(w, step, hash);
    CrashAndDelete(Next(w, step, hash), hash);
  }

  // ----- what journals do to the session -----

  lemma LocalJournal(w: World, j: nat, hash: Hash)
    requires Inv(w, hash) && j < |w.journals|
    ensures JournalOk(w.store, w.journals[j], hash)
  {
  }

  /** In every reachable state, the marker of a working journal that was not enriched is the aggregate
      of exactly the tools it allowed to start. Unless the session was deleted since the journal's last
      write, that marker is what is stored, or somebody wrote after the journal. */
  lemma MarkerIsAggregate(session: Option<Session>, steps: seq<Step>, j: nat, hash: Hash)
    requires NormalOrNone(session) && j < |Run(Init(session), steps, hash).journals|
    ensures var w := Run(Init(session), steps, hash);
            var journal := w.journals[j];
            && (!journal.failed && !journal.trace.enriched && journal.marker.Some? ==>
                  Aggregate(journal.trace.running, journal.marker.value.at, REASON, hash) == journal.marker)
            && (!journal.failed && journal.trace.running != [] ==> journal.marker.Some?)
            && journal.trace.generation <= w.store.generation
            && (journal.trace.generation == w.store.generation ==>
                  && w.store.session.Some? && journal.expected <= w.store.session.value.revision
                  && (w.store.session.value.revision == journal.expected ==> w.store.session.value.interruption == journal.marker))
  {
    hide Aggregate, Normal;
    Reachable(session, steps, hash);
    LocalJournal(Run(Init(session), steps, hash), j, hash);
  }

  predicate StepOf(step: Step, j: nat) {
    (step.Record? && step.j == j) || (step.Enrich? && step.j == j) || (step.Commit? && step.j == j)
  }

  lemma JournalStepOk(w: World, step: Step, j: nat, hash: Hash)
    requires Inv(w, hash) && j < |w.journals| && StepOf(step, j)
    ensures exists o :: StepOk(LocalOf(w, j), o, hash) && Next(w, step, hash) == Back(w, j, o.local)
  {
    hide Inv, LocalOk, RecordStep, EnrichStep, CommitStep, StepOk;
    LocalFromInv(w, j, hash);
    var l := LocalOf(w, j);
    match step
    case Record(_, entry, now, fault, ended) =>
      RecordKeeps(l, entry, now, fault, ended, hash);
      assert StepOk(l, RecordStep(l, entry, now, fault, ended, hash), hash);
    case Enrich(_, next, fault, ended) =>
      EnrichKeeps(l, next, fault, ended, hash);
      assert StepOk(l, EnrichStep(l, next, fault, ended), hash);
    case Commit(_, delta, terminal, fault, ended) =>
      CommitKeeps(l, delta, terminal, fault, ended, hash);
      assert StepOk(l, CommitStep(l, delta, terminal, fault, ended), hash);
  }

  /** A journal writes only on a session at the revision it wrote last, and a failed journal does not
      write. Unless the session was deleted since, that is the journal's own last write. */
  lemma JournalWritesItsOwn(session: Option<Session>, steps: seq<Step>, step: Step, j: nat, hash: Hash)
    requires NormalOrNone(session) && j < |Run(Init(session), steps, hash).journals| && StepOf(step, j)
    ensures var w := Run(Init(session), steps, hash);
            OwnWrite(LocalOf(w, j), Next(w, step, hash).store.session)
  {
    hide Inv, JournalOk, LocalOk, OwnWrite, RecordStep, EnrichStep, CommitStep, Normal;
    Reachable(session, steps, hash);
    JournalStepOk(Run(Init(session), steps, hash), step, j, hash);
  }

  lemma FreshJournalOk(t: Session, hash: Hash)
    requires Normal(t) && t.interruption == None
    ensures forall session :: NormalOrNone(session) ==> JournalOk(Stored(session, 1), NewJournal(Owner(0, 0), t, 0), hash)
  {
    hide Normal, Aggregate;
  }

  lemma Recreated(w: World, other: Session, hash: Hash)
    requires w.store == Stored(w.store.session, 0) && w.store.session.Some?
    requires other.lifecycle == Unnamed && !other.reconcile && other.interruption == None
    ensures Run(w, [Foreign(Remove(None)), Foreign(Write(Save(None, other))), Foreign(Write(Save(None, other)))], hash) ==
            w.(store := Stored(Some(Session(2, Active, false, None, 2, other.transcript, other.terminal)), 1))
  {
    var save := Foreign(Write(Save(None, other)));
    var steps := [Foreign(Remove(None)), save, save];
    var removed := Next(w, steps[0], hash);
    assert removed.store == Stored(None, 1);
    var created := Next(removed, save, hash);
    assert created.store == Stored(Some(Session(1, Active, false, None, 1, other.transcript, other.terminal)), 1);
    var saved := Next(created, save, hash);
    assert saved.store == Stored(Some(Session(2, Active, false, None, 2, other.transcript, other.terminal)), 1);
    assert steps[1..][1..] == [save] && [save][1..] == [];
    assert Run(created, [save], hash) == saved;
    assert Run(removed, steps[1..], hash) == Run(created, steps[1..][1..], hash);
    assert Run(w, steps, hash) == Run(removed, steps[1..], hash);
  }

  /** A run in which a journal writes on a session that is not its own: the session is deleted, created
      again under its identifier, and saved up to the revision that the journal expects. */
  lemma RecreatedSessionIsMarked(s: Session, message: string, other: Session, entry: Entry, now: Instant, hash: Hash)
    requires Normal(s) && s.lifecycle == Active && s.revision == 1
    requires other.lifecycle == Unnamed && !other.reconcile && other.interruption == None
    requires other.transcript != s.transcript + [message]
    requires Aggregate([TrimEntry(entry)], 0, REASON, hash).Some?
    ensures var before := Run(Init(Some(s)), PromptRun(message), hash);
            var w := Run(before, [Foreign(Remove(None)), Foreign(Write(Save(None, other))), Foreign(Write(Save(None, other)))], hash);
            && Starts(w, Record(0, entry, now, Healthy, false), hash)
            && w.store.session.Some? && w.store.session.value != w.journals[0].persisted
  {
    hide Aggregate, TrimSpace, TrimEntry, ValidMarker;
    PromptedWorld(s, message, hash);
    var t := Prompted(s, message);
    var before := Run(Init(Some(s)), PromptRun(message), hash);
    Recreated(before, other, hash);
    var w := Run(before, [Foreign(Remove(None)), Foreign(Write(Save(None, other))), Foreign(Write(Save(None, other)))], hash);
    FreshJournalOk(t, hash);
    RecordSucceeds(LocalOf(w, 0), entry, now, Healthy, false, hash);
  }

  lemma FailedStays(w: World, step: Step, j: nat, hash: Hash)
    requires Inv(w, hash) && j < |w.journals| && w.journals[j].failed
    ensures var v := Next(w, step, hash); j < |v.journals| && v.journals[j].failed
  {
    hide Inv, JournalOk, RecordStep, EnrichStep, CommitStep, ApplyWrite, NeedsRecovery;
    if step.Record? || step.Enrich? || step.Commit? {
      if step.j < |w.journals| {
        JournalStepOk(w, step, step.j, hash);
      }
    }
  }

  lemma FailedRefuses(l: Local, entry: Entry, now: Instant, fault: Fault, ended: bool, hash: Hash)
    requires l.journal.failed
    ensures !RecordStep(l, entry, now, fault, ended, hash).ok
  {
  }

  /** Once failed, a journal never writes and never lets a tool start again. */
  lemma {:induction false} FailedIsFinal(w: World, steps: seq<Step>, step: Step, j: nat, hash: Hash)
    requires Inv(w, hash) && j < |w.journals| && w.journals[j].failed && StepOf(step, j)
    ensures var v := Run(w, steps, hash);
            && j < |v.journals| && v.journals[j].failed
            && Next(v, step, hash).store == v.store
            && (step.Record? ==> !RecordStep(LocalOf(v, j), step.entry, step.now, step.fault, step.ended, hash).ok)
    decreases |steps|
  {
    hide Inv, RecordStep, Next, MovesOn;
    if steps == [] {
      JournalStepOk(w, step, j, hash);
      if step.Record? {
        FailedRefuses(LocalOf(w, j), step.entry, step.now, step.fault, step.ended, hash);
      }
    } else {
      NextKeepsInv(w, steps[0], hash);
      FailedStays(w, steps[0], j, hash);
      FailedIsFinal(Next(w, steps[0], hash), steps[1..], step, j, hash);
    }
  }

  // ----- admission -----

  lemma RecoveryRefusesSaves(s: Session, op: Operation)
    requires Normal(s) && NeedsRecovery(s) && op.Save?
    ensures Apply(s, op).Err?
  {
  }

  /** While the stored session needs recovery, no load reads it and no step of anybody begins a prompt,
      even when this process still holds an older copy. */
  lemma MarkedAdmitsNothing(w: World, step: Step, hash: Hash)
    requires w.store.session.Some? && Normal(w.store.session.value) && NeedsRecovery(w.store.session.value)
    ensures |Next(w, step, hash).journals| == |w.journals|
    ensures step.Prompt? || step.LoadRead? ==> Next(w, step, hash) == w
  {
    hide RecordStep, EnrichStep, CommitStep, Apply;
    if step.Prompt? && Admits(w) {
      RecoveryRefusesSaves(w.store.session.value, SaveOfPrompt(w.runtime.value.persisted, step.message));
    }
  }

  // ----- loads -----

  /** The session was stored after so many steps of a run, and did not need recovery. */
  ghost predicate WasUsable(session: Option<Session>, steps: seq<Step>, i: nat, s: Session, hash: Hash)
    requires i <= |steps|
  {
    Run(Init(session), steps[..i], hash).store.session == Some(s) && !NeedsRecovery(s) && s.lifecycle != Closed
  }

  lemma CopiesAfter(w: World, step: Step, k: nat, hash: Hash)
    requires k < |Next(w, step, hash).copies|
    ensures var copy := Next(w, step, hash).copies[k];
            || copy in w.copies
            || (w.store.session == Some(copy) && !NeedsRecovery(copy) && copy.lifecycle != Closed)
  {
    hide NeedsRecovery, RecordStep, EnrichStep, CommitStep, ApplyWrite;
  }

  lemma RunLast(w: World, steps: seq<Step>, hash: Hash)
    requires steps != []
    ensures var n := |steps| - 1; Run(w, steps, hash) == Next(Run(w, steps[..n], hash), steps[n], hash)
  {
    hide Next;
    var n := |steps| - 1;
    assert steps == steps[..n] + [steps[n]];
    RunSplit(w, steps[..n], [steps[n]], hash);
    assert [steps[n]][1..] == [];
  }

  lemma NothingRun(session: Option<Session>, hash: Hash)
    ensures Run(Init(session), [], hash).copies == []
  {
  }

  /** Every copy that a load holds was the stored session at some time. */
  lemma {:induction false} CopyWasStored(session: Option<Session>, steps: seq<Step>, copy: Session, hash: Hash)
    requires copy in Run(Init(session), steps, hash).copies
    ensures exists i :: 0 <= i < |steps| && WasUsable(session, steps, i, copy, hash)
    decreases |steps|
  {
    hide Next, NeedsRecovery, Run;
    if steps == [] {
      NothingRun(session, hash);
    } else {
      var n := |steps| - 1;
      RunLast(Init(session), steps, hash);
      var before := Run(Init(session), steps[..n], hash);
      var k :| 0 <= k < |Run(Init(session), steps, hash).copies| && Run(Init(session), steps, hash).copies[k] == copy;
      CopiesAfter(before, steps[n], k, hash);
      if copy in before.copies {
        CopyWasStored(session, steps[..n], copy, hash);
        var i :| 0 <= i < n && WasUsable(session, steps[..n], i, copy, hash);
        assert steps[..n][..i] == steps[..i];
        assert WasUsable(session, steps, i, copy, hash);
      } else {
        assert WasUsable(session, steps, n, copy, hash);
      }
    }
  }

  predicate Needy(w: World) {
    w.store.session.Some? && NeedsRecovery(w.store.session.value)
  }

  /** The step after so many turned the stored session into one that needs recovery. */
  ghost predicate TurnedNeedy(session: Option<Session>, steps: seq<Step>, j: nat, hash: Hash)
    requires j < |steps|
  {
    !Needy(Run(Init(session), steps[..j], hash)) && Needy(Run(Init(session), steps[..j + 1], hash))
  }

  lemma {:induction false} TurnsNeedy(session: Option<Session>, steps: seq<Step>, i: nat, hash: Hash)
    requires i <= |steps| && !Needy(Run(Init(session), steps[..i], hash)) && Needy(Run(Init(session), steps, hash))
    ensures exists j :: i <= j < |steps| && TurnedNeedy(session, steps, j, hash)
    decreases |steps| - i
  {
    hide Run, Needy;
    assert steps[..|steps|] == steps;
    if Needy(Run(Init(session), steps[..i + 1], hash)) {
      assert TurnedNeedy(session, steps, i, hash);
    } else {
      TurnsNeedy(session, steps, i + 1, hash);
    }
  }

  /** A load is admitted exactly when this process can take one; nothing about the stored session
      matters by then. */
  lemma LoadAdmitted(w: World, k: nat, hash: Hash)
    ensures var v := Next(w, LoadInstall(k), hash);
            && v.store == w.store
            && (v.runtime != w.runtime <==> k < |w.copies| && Loadable(w.runtime))
            && (v.runtime != w.runtime ==> v.runtime.Some? && v.runtime.value.persisted == w.copies[k])
  {
  }

  /** In every run, what a load installs was the stored session at some earlier step and was usable
      then. If the stored session needs recovery by now, some step since that read made it so: apart
      from such a race, a session that needs recovery admits no load. */
  lemma LoadedWasUsable(session: Option<Session>, steps: seq<Step>, k: nat, hash: Hash)
    requires var w := Run(Init(session), steps, hash); Next(w, LoadInstall(k), hash).runtime != w.runtime
    ensures var w := Run(Init(session), steps, hash);
            var v := Next(w, LoadInstall(k), hash);
            && v.runtime.Some?
            && (exists i :: 0 <= i < |steps| && WasUsable(session, steps, i, v.runtime.value.persisted, hash))
            && (Needy(w) ==>
                  exists i, j :: 0 <= i <= j < |steps| && WasUsable(session, steps, i, v.runtime.value.persisted, hash)
                                 && TurnedNeedy(session, steps, j, hash))
  {
    hide Next, Run, Loadable;
    var w := Run(Init(session), steps, hash);
    LoadAdmitted(w, k, hash);
    var copy := w.copies[k];
    CopyWasStored(session, steps, copy, hash);
    var i :| 0 <= i < |steps| && WasUsable(session, steps, i, copy, hash);
    if Needy(w) {
      TurnsNeedy(session, steps, i, hash);
      var j :| i <= j < |steps| && TurnedNeedy(session, steps, j, hash);
      assert WasUsable(session, steps, i, copy, hash) && TurnedNeedy(session, steps, j, hash);
    }
  }

  /** A load whose read came before the marker is installed although the session needs recovery by now. */
  lemma StaleLoadIsInstalled(s: Session, marker: Marker, now: Instant, hash: Hash)
    requires Normal(s) && s.lifecycle == Active && s.revision < MAX_UINT64 && ValidMarker(marker)
    ensures var w := Run(Init(Some(s)), [LoadRead(Healthy), Foreign(Write(MarkInterrupted(s.revision, marker, now))), LoadInstall(0)], hash);
            && w.store.session.Some? && NeedsRecovery(w.store.session.value)
            && w.runtime.Some? && w.runtime.value.persisted == s
  {
    hide ValidMarker;
    var steps := [LoadRead(Healthy), Foreign(Write(MarkInterrupted(s.revision, marker, now))), LoadInstall(0)];
    var read := Next(Init(Some(s)), steps[0], hash);
    assert read.copies == [s];
    var marked := Next(read, steps[1], hash);
    assert marked.copies == [s] && marked.store.session.Some? && NeedsRecovery(marked.store.session.value);
    var loaded := Next(marked, steps[2], hash);
    assert steps[1..][1..] == [steps[2]] && [steps[2]][1..] == [];
    assert Run(marked, [steps[2]], hash) == loaded;
    assert Run(read, steps[1..], hash) == Run(marked, steps[1..][1..], hash);
    assert Run(Init(Some(s)), steps, hash) == Run(read, steps[1..], hash);
  }

  // ----- prompts and quarantine -----

  /** A prompt that begins saved the user's message on top of a session that needs no recovery (or
      created it, at revision zero), and has a fresh journal for exactly that revision; one that does not
      begin leaves this process as it was. */
  lemma PromptBegins(w: World, message: string, fault: Fault)
    requires NormalOrNone(w.store.session)
    ensures var v := PromptStep(w, message, fault);
            if v.journals != w.journals then
              var cached := w.runtime.value.persisted;
              && Admits(w) && v.store.session.Some? && v.store.generation == w.store.generation
              && (if w.store.session.Some? then !NeedsRecovery(w.store.session.value) && w.store.session.value.revision == cached.revision
                  else cached.revision == 0)
              && v.store.session.value.revision == cached.revision + 1
              && v.store.session.value.transcript == cached.transcript + [message]
              && v.runtime == Some(Runtime(w.runtime.value.instance, false, Some(|w.journals|), v.store.session.value, None))
              && v.journals == w.journals + [NewJournal(Owner(w.runtime.value.instance, |w.journals|), v.store.session.value, w.store.generation)]
            else v.runtime == w.runtime
  {
    hide ValidMarker, Aggregate;
    if Admits(w) {
      TryAdvances(w.store.session, SaveOfPrompt(w.runtime.value.persisted, message), fault);
    }
  }

  // ----- the end of a prompt -----

  /** The journal's prompt is the one active on the session of this process. */
  predicate Running(w: World, j: nat)
    requires j < |w.journals|
  {
    w.runtime.Some? && w.runtime.value.instance == w.journals[j].owner.instance && w.runtime.value.active == Some(w.journals[j].owner.id)
  }

  predicate Numbered(w: World) {
    forall j :: 0 <= j < |w.journals| ==> w.journals[j].owner.id == j
  }

  lemma RecordKeepsOwner(l: Local, entry: Entry, now: Instant, fault: Fault, ended: bool, hash: Hash)
    ensures RecordStep(l, entry, now, fault, ended, hash).local.journal.owner == l.journal.owner
  {
    hide Aggregate, ApplyWrite, TrimSpace, IsActive;
  }

  lemma EnrichKeepsOwner(l: Local, next: Marker, fault: Fault, ended: bool)
    ensures EnrichStep(l, next, fault, ended).local.journal.owner == l.journal.owner
  {
    hide ApplyWrite, TrimSpace, ValidMarker, IsActive;
  }

  lemma CommitKeepsOwner(l: Local, delta: seq<string>, terminal: Option<string>, fault: Fault, ended: bool)
    ensures CommitStep(l, delta, terminal, fault, ended).local.journal.owner == l.journal.owner
  {
    hide ApplyWrite, CommitOperation, IsActive;
  }

  /** The same object, with the same prompt active on it. */
  predicate SameActive(before: Option<Runtime>, after: Option<Runtime>) {
    && before.Some? == after.Some?
    && (before.Some? ==> after.value.instance == before.value.instance && after.value.active == before.value.active)
  }

  lemma JournalStepsKeepActive(w: World, step: Step, hash: Hash)
    requires step.Record? || step.Enrich? || step.Commit?
    ensures var v := Next(w, step, hash);
            && SameActive(w.runtime, v.runtime) && |v.journals| == |w.journals|
            && forall j :: 0 <= j < |w.journals| ==> v.journals[j].owner == w.journals[j].owner
  {
    hide ApplyWrite, Aggregate, ValidMarker, TrimSpace, CommitOperation, RecordStep, EnrichStep, CommitStep;
    if step.j < |w.journals| {
      var l := LocalOf(w, step.j);
      if step.Record? {
        RecordTells(l, step.entry, step.now, step.fault, step.ended, hash);
        RecordKeepsOwner(l, step.entry, step.now, step.fault, step.ended, hash);
      } else if step.Enrich? {
        EnrichTells(l, step.next, step.fault, step.ended);
        EnrichKeepsOwner(l, step.next, step.fault, step.ended);
      } else {
        CommitTells(l, step.delta, step.terminal, step.fault, step.ended);
        CommitKeepsOwner(l, step.delta, step.terminal, step.fault, step.ended);
      }
    }
  }

  /** A prompt ends by its own end, by the end of the process and by the unloading of its session, which a
      quarantine prevents; by nothing else. */
  lemma PromptEndsExactly(w: World, step: Step, j: nat, hash: Hash)
    requires Numbered(w) && j < |w.journals| && Running(w, j)
    ensures var v := Next(w, step, hash);
            && Numbered(v) && |w.journals| <= |v.journals| && v.journals[j].owner == w.journals[j].owner
            && (!Running(v, j) <==> step == EndPrompt || step == Crash || (step == Unload && !w.runtime.value.quarantined))
  {
    hide ApplyWrite, RecordStep, EnrichStep, CommitStep, NeedsRecovery, ApplyChange, ApplyRemove;
    if step.Record? || step.Enrich? || step.Commit? {
      JournalStepsKeepActive(w, step, hash);
    }
  }

  lemma EndedStays(w: World, step: Step, j: nat, hash: Hash)
    requires Numbered(w) && j < |w.journals| && !Running(w, j)
    ensures var v := Next(w, step, hash);
            Numbered(v) && |w.journals| <= |v.journals| && v.journals[j].owner == w.journals[j].owner && !Running(v, j)
  {
    hide ApplyWrite, RecordStep, EnrichStep, CommitStep, NeedsRecovery, ApplyChange, ApplyRemove;
    if step.Record? || step.Enrich? || step.Commit? {
      JournalStepsKeepActive(w, step, hash);
    }
  }

  lemma NextNumbered(w: World, step: Step, hash: Hash)
    requires Numbered(w)
    ensures Numbered(Next(w, step, hash))
  {
    hide ApplyWrite, RecordStep, EnrichStep, CommitStep, NeedsRecovery, ApplyChange, ApplyRemove;
    if step.Record? || step.Enrich? || step.Commit? {
      JournalStepsKeepActive(w, step, hash);
    }
  }

  /** The journals of a process are numbered in every reachable state. */
  lemma {:induction false} RunNumbered(w: World, steps: seq<Step>, hash: Hash)
    requires Numbered(w)
    ensures Numbered(Run(w, steps, hash))
    decreases |steps|
  {
    hide Next, Numbered;
    if steps != [] {
      NextNumbered(w, steps[0], hash);
      RunNumbered(Next(w, steps[0], hash), steps[1..], hash);
    }
  }

  lemma NotRunningRefuses(w: World, step: Step, j: nat, hash: Hash)
    requires j < |w.journals| && !Running(w, j) && StepOf(step, j)
    ensures Next(w, step, hash).store == w.store
    ensures step.Record? ==> !RecordStep(LocalOf(w, j), step.entry, step.now, step.fault, step.ended, hash).ok
  {
    hide ApplyWrite, Aggregate, TrimSpace, ValidMarker, CommitOperation;
  }

  lemma {:induction false} EndedForGood(w: World, steps: seq<Step>, j: nat, hash: Hash)
    requires Numbered(w) && j < |w.journals| && !Running(w, j)
    ensures var v := Run(w, steps, hash); j < |v.journals| && !Running(v, j)
    decreases |steps|
  {
    hide Next, Numbered, Running;
    if steps != [] {
      EndedStays(w, steps[0], j, hash);
      EndedForGood(Next(w, steps[0], hash), steps[1..], j, hash);
    }
  }

  lemma NothingNumbered(session: Option<Session>)
    ensures Numbered(Init(session))
  {
  }

  /** Over every run: once its prompt has ended, a journal never writes again and lets no tool start,
      whatever happens; not under a later prompt, and not after the session was loaded again. */
  lemma EndedPromptIsFinal(session: Option<Session>, before: seq<Step>, later: seq<Step>, step: Step, j: nat, hash: Hash)
    requires j < |Run(Init(session), before, hash).journals| && !Running(Run(Init(session), before, hash), j) && StepOf(step, j)
    ensures var v := Run(Run(Init(session), before, hash), later, hash);
            && j < |v.journals| && !Running(v, j) && Next(v, step, hash).store == v.store
            && (step.Record? ==> !RecordStep(LocalOf(v, j), step.entry, step.now, step.fault, step.ended, hash).ok)
  {
    hide RecordStep, Next, Numbered, Running, Run;
    NothingNumbered(session);
    RunNumbered(Init(session), before, hash);
    var w := Run(Init(session), before, hash);
    EndedForGood(w, later, j, hash);
    NotRunningRefuses(Run(w, later, hash), step, j, hash);
  }

  /** The end of the process loses what it had loaded and read, and nothing that is stored. */
  lemma CrashForgets(w: World, hash: Hash)
    ensures var v := Next(w, Crash, hash);
            v.runtime == None && v.copies == [] && v.store == w.store && v.journals == w.journals && v.instances == w.instances
  {
  }

  lemma NothingLoaded(w: World, step: Step, hash: Hash)
    requires w.runtime == None && w.copies == [] && !step.LoadRead?
    ensures Next(w, step, hash).runtime == None && Next(w, step, hash).copies == []
    ensures |Next(w, step, hash).journals| == |w.journals|
  {
    hide ApplyWrite, Aggregate, NeedsRecovery, ValidMarker, TrimSpace, CommitOperation;
  }

  /** After the end of the process, no prompt begins until the stored session was read again. */
  lemma {:induction false} NoPromptBeforeLoad(w: World, steps: seq<Step>, hash: Hash)
    requires w.runtime == None && w.copies == [] && forall k :: 0 <= k < |steps| ==> !steps[k].LoadRead?
    ensures var v := Run(w, steps, hash); v.runtime == None && v.copies == [] && |v.journals| == |w.journals|
    decreases |steps|
  {
    hide Next;
    if steps != [] {
      NothingLoaded(w, steps[0], hash);
      NoPromptBeforeLoad(Next(w, steps[0], hash), steps[1..], hash);
    }
  }

  // ----- settings -----

  /** Exactly when a setting is saved: the session is idle and not quarantined, and the cached copy is an
      active session at the stored revision (or, when there is none, at revision zero). The cached
      conversation is what is stored then, and the process sees the new revision. */
  lemma SettingIsSaved(w: World, fault: Fault)
    requires NormalOrNone(w.store.session)
    ensures var v := ConfigureStep(w, fault);
            && (v.store != w.store <==>
                  && w.runtime.Some? && Loadable(w.runtime) && fault in {Healthy, WriteUncertain}
                  && var cached := w.runtime.value.persisted;
                     && Plain(cached)
                     && if w.store.session.Some? then
                          w.store.session.value.lifecycle == Active && w.store.session.value.revision == cached.revision < MAX_UINT64
                        else cached.revision == 0)
            && (v.store != w.store ==>
                  && var cached := w.runtime.value.persisted;
                     && v.store.session.Some? && v.store.generation == w.store.generation
                     && v.store.session.value.revision == cached.revision + 1 && v.store.session.value.transcript == cached.transcript
                     && v.store.session.value.lifecycle == Active
                     && v.runtime == if fault == Healthy then Some(w.runtime.value.(persisted := v.store.session.value)) else w.runtime)
            && (v.store == w.store ==> v == w)
  {
    hide ValidMarker, TrimSpace, Apply, Create;
    if w.runtime.Some? && w.store.session.Some? {
      var op := SaveOfSetting(w.runtime.value.persisted);
      SucceedsIff(w.store.session.value, op);
      if Apply(w.store.session.value, op).Ok? {
        OperationsKeepNormal(w.store.session.value, op);
        SuccessLeaves(w.store.session.value, op);
      }
    } else if w.runtime.Some? {
      CreatedOnlyBySave(SaveOfSetting(w.runtime.value.persisted), None);
    }
  }

  predicate Quarantined(w: World, instance: nat) {
    w.runtime.Some? && w.runtime.value.instance == instance && w.runtime.value.quarantined
  }

  /** The two ways out of quarantine: the end of the process, and the end of a load that was in progress
      when the session was quarantined and whose replay failed, which puts the earlier entry back. */
  predicate LiftsQuarantine(w: World, step: Step) {
    || step == Crash
    || (step == LoadEnd(false) && w.runtime.Some? && w.runtime.value.loading.Some? && w.runtime.value.active == None)
  }

  /** A quarantined session leaves quarantine by exactly these steps, and begins no prompt. */
  lemma QuarantineEndsExactly(w: World, step: Step, instance: nat, hash: Hash)
    requires Inv(w, hash) && Quarantined(w, instance)
    ensures !Quarantined(Next(w, step, hash), instance) <==> LiftsQuarantine(w, step)
    ensures |Next(w, step, hash).journals| == |w.journals|
    ensures Next(w, step, hash).runtime.Some? && w.runtime.value.loading == None ==> Next(w, step, hash).runtime.value.loading == None
  {
    hide Inv, ApplyWrite, Aggregate, NeedsRecovery, ValidMarker, TrimSpace;
  }

  /** No step of the run lifts the quarantine. */
  predicate NeverLifted(w: World, steps: seq<Step>, hash: Hash)
    decreases |steps|
  {
    steps == [] || (!LiftsQuarantine(w, steps[0]) && NeverLifted(Next(w, steps[0], hash), steps[1..], hash))
  }

  /** The session is quarantined throughout the run. */
  predicate QuarantinedThroughout(w: World, steps: seq<Step>, instance: nat, hash: Hash)
    decreases |steps|
  {
    Quarantined(w, instance) && (steps == [] || QuarantinedThroughout(Next(w, steps[0], hash), steps[1..], instance, hash))
  }

  lemma NotQuarantined(w: World, steps: seq<Step>, instance: nat, hash: Hash)
    requires !Quarantined(w, instance)
    ensures !QuarantinedThroughout(w, steps, instance, hash)
  {
  }

  /** A quarantined session stays quarantined throughout a run exactly when no step lifts that, and then
      no prompt begins in it. */
  lemma {:induction false} QuarantineLasts(w: World, steps: seq<Step>, instance: nat, hash: Hash)
    requires Inv(w, hash) && Quarantined(w, instance)
    ensures QuarantinedThroughout(w, steps, instance, hash) <==> NeverLifted(w, steps, hash)
    ensures NeverLifted(w, steps, hash) ==> |Run(w, steps, hash).journals| == |w.journals|
    decreases |steps|
  {
    hide Inv, Next, Quarantined, LiftsQuarantine, MovesOn;
    if steps != [] {
      NextKeepsInv(w, steps[0], hash);
      QuarantineEndsExactly(w, steps[0], instance, hash);
      if LiftsQuarantine(w, steps[0]) {
        NotQuarantined(Next(w, steps[0], hash), steps[1..], instance, hash);
      } else {
        QuarantineLasts(Next(w, steps[0], hash), steps[1..], instance, hash);
      }
    }
  }

  /** When no load was in progress, only the end of the process lifts a quarantine. */
  lemma {:induction false} IdleQuarantineLasts(w: World, steps: seq<Step>, instance: nat, hash: Hash)
    requires Inv(w, hash) && Quarantined(w, instance) && w.runtime.value.loading == None
    ensures NeverLifted(w, steps, hash) <== Crash !in steps
    decreases |steps|
  {
    hide Inv, Next, MovesOn;
    if steps != [] && steps[0] != Crash {
      NextKeepsInv(w, steps[0], hash);
      QuarantineEndsExactly(w, steps[0], instance, hash);
      IdleQuarantineLasts(Next(w, steps[0], hash), steps[1..], instance, hash);
    }
  }

  /** The session is closed under a running prompt and loaded again; the prompt cannot be marked and
      quarantines the new entry, whose replay then fails. */
  function LiftRun(marker: Marker, now: Instant): seq<Step> {
    [Unload, LoadRead(Healthy), LoadInstall(0), MarkRun(marker, now, ReadFails)]
  }

  lemma FourSteps(w: World, steps: seq<Step>, hash: Hash)
    requires |steps| == 4
    ensures Run(w, steps, hash) == Next(Next(Next(Next(w, steps[0], hash), steps[1], hash), steps[2], hash), steps[3], hash)
  {
    hide Next;
    var first, rest := Next(w, steps[0], hash), steps[1..];
    assert Run(w, steps, hash) == Run(first, rest, hash);
    var second := Next(first, steps[1], hash);
    assert Run(first, rest, hash) == Run(second, steps[2..], hash) by {
      assert rest[1..] == steps[2..];
    }
    var third := Next(second, steps[2], hash);
    assert Run(second, steps[2..], hash) == Run(third, steps[3..], hash) by {
      assert steps[2..][1..] == steps[3..];
    }
    assert steps[3..][1..] == [];
    assert Run(third, steps[3..], hash) == Next(third, steps[3], hash);
  }

  /** A run in which a quarantine is lifted and another prompt is admitted, although the process goes on. */
  lemma QuarantineIsLifted(s: Session, message: string, marker: Marker, now: Instant, hash: Hash)
    requires Normal(s) && s.lifecycle == Active && s.revision + 1 < MAX_UINT64
    ensures var w := Run(Run(Init(Some(s)), PromptRun(message), hash), LiftRun(marker, now), hash);
            && Quarantined(w, 1)
            && var v := Next(w, LoadEnd(false), hash);
               v.runtime == None && Admits(Run(v, [LoadRead(Healthy), LoadInstall(0), LoadEnd(true)], hash))
  {
    PromptedWorld(s, message, hash);
    var t, journals := Prompted(s, message), [NewJournal(Owner(0, 0), Prompted(s, message), 0)];
    var store := Stored(Some(t), 0);
    var w := Run(Init(Some(s)), PromptRun(message), hash);
    var steps := LiftRun(marker, now);
    var unloaded := World(store, None, journals, 1, []);
    assert Next(w, Unload, hash) == unloaded;
    var read := World(store, None, journals, 1, [t]);
    assert Next(unloaded, LoadRead(Healthy), hash) == read;
    var installed := World(store, Some(Runtime(1, false, None, t, Some(Created))), journals, 2, []);
    assert Next(read, LoadInstall(0), hash) == installed;
    var quarantined := World(store, Some(Runtime(1, true, None, t, Some(Created))), journals, 2, []);
    assert Next(installed, MarkRun(marker, now, ReadFails), hash) == quarantined;
    FourSteps(w, steps, hash);
    var lifted := World(store, None, journals, 2, []);
    assert Next(quarantined, LoadEnd(false), hash) == lifted;
    LoadedWorld(lifted, t, hash);
  }

  // ----- the retries of markInterrupted -----

  /** What the outside world does during one attempt of `markInterrupted`: changes by others between the
      read and the write, and the fault of the attempt. */
  datatype Interference = Interference(between: seq<Change>, now: Instant, fault: Fault)

  /** How the attempts end: the session was found in need of recovery, it was marked, something failed,
      or every attempt met a conflict. */
  datatype MarkEnd = AlreadyNeeded | MarkedNow(session: Session) | Broken | Exhausted

  function ChangedAll(store: Stored, changes: seq<Change>): Stored
    decreases |changes|
  {
    if changes == [] then store else ChangedAll(Changed(store, changes[0]), changes[1..])
  }

  /** The attempts of markInterrupted, and what they leave stored. */
  function MarkRounds(store: Stored, marker: Marker, rounds: seq<Interference>): (Stored, MarkEnd)
    decreases |rounds|
  {
    if rounds == [] then (store, Exhausted)
    else if rounds[0].fault == ReadFails || store.session == None then (store, Broken)
    else if NeedsRecovery(store.session.value) then (store, AlreadyNeeded)
    else
      var met, op := ChangedAll(store, rounds[0].between), MarkInterrupted(store.session.value.revision, marker, rounds[0].now);
      if ApplyWrite(met.session, op) == Err(Conflict) then MarkRounds(met, marker, rounds[1..])
      else
        var attempt := Try(met.session, op, rounds[0].fault);
        (Put(met, attempt.stored), if attempt.reported.Some? then MarkedNow(attempt.reported.value) else Broken)
  }

  /** What the runtime table entry becomes. */
  function AfterRounds(runtime: Option<Runtime>, end: MarkEnd): Option<Runtime> {
    match end
    case AlreadyNeeded => runtime
    case MarkedNow(session) => Publish(runtime, session)
    case Broken => QuarantineAny(runtime)
    case Exhausted => QuarantineAny(runtime)
  }

  lemma MarkApplied(s: Option<Session>, expected: nat, marker: Marker, now: Instant)
    requires ApplyWrite(s, MarkInterrupted(expected, marker, now)).Ok?
    ensures var t := ApplyWrite(s, MarkInterrupted(expected, marker, now)).value;
            && NeedsRecovery(t) && t.interruption.Some? && t.interruption.value.runId == marker.runId
            && s.Some? && t.transcript == s.value.transcript
  {
  }

  lemma ConflictMeans(s: Option<Session>, expected: nat, marker: Marker, now: Instant)
    ensures ApplyWrite(s, MarkInterrupted(expected, marker, now)) == Err(Conflict) <==>
            ValidMarker(marker) && s.Some? && s.value.revision != expected
  {
    hide ValidMarker;
  }

  lemma NoConflictAlone(s: Session, marker: Marker, now: Instant)
    ensures ApplyWrite(Some(s), MarkInterrupted(s.revision, marker, now)) != Err(Conflict)
  {
  }

  /** In every attempt the session could be read and needed no recovery, and others left it at another
      revision before the write. */
  ghost predicate EveryRoundLost(store: Stored, rounds: seq<Interference>)
    decreases |rounds|
  {
    rounds == [] ||
    (&& rounds[0].fault != ReadFails && store.session.Some? && !NeedsRecovery(store.session.value)
     && var met := ChangedAll(store, rounds[0].between);
     met.session.Some? && met.session.value.revision != store.session.value.revision && EveryRoundLost(met, rounds[1..]))
  }

  /** When the attempts report success, the stored session needs recovery: it did when it was read, or it
      holds the given run's marker now. They are exhausted exactly when others changed the revision
      during each of them. */
  lemma {:induction false} MarkRoundsOutcome(store: Stored, marker: Marker, rounds: seq<Interference>)
    ensures var (after, end) := MarkRounds(store, marker, rounds);
            && (end.AlreadyNeeded? ==> after.session.Some? && NeedsRecovery(after.session.value))
            && (end.MarkedNow? ==>
                  && after.session == Some(end.session) && NeedsRecovery(end.session)
                  && end.session.interruption.Some? && end.session.interruption.value.runId == marker.runId)
            && (end.Exhausted? <==> EveryRoundLost(store, rounds) && (rounds == [] || ValidMarker(marker)))
    decreases |rounds|
  {
    hide ApplyWrite, NeedsRecovery, ValidMarker;
    if rounds != [] && rounds[0].fault != ReadFails && store.session.Some? && !NeedsRecovery(store.session.value) {
      var met, op := ChangedAll(store, rounds[0].between), MarkInterrupted(store.session.value.revision, marker, rounds[0].now);
      ConflictMeans(met.session, store.session.value.revision, marker, rounds[0].now);
      if ApplyWrite(met.session, op) == Err(Conflict) {
        MarkRoundsOutcome(met, marker, rounds[1..]);
      } else if ApplyWrite(met.session, op).Ok? {
        MarkApplied(met.session, store.session.value.revision, marker, rounds[0].now);
      }
    }
  }

  /** With nobody interfering in the first attempt, the attempts are the one step of the state machine. */
  lemma UndisturbedRound(w: World, marker: Marker, rounds: seq<Interference>)
    requires rounds != [] && rounds[0].between == []
    ensures var (after, end) := MarkRounds(w.store, marker, rounds);
            w.(store := after, runtime := AfterRounds(w.runtime, end)) == MarkRunStep(w, marker, rounds[0].now, rounds[0].fault)
  {
    hide ApplyWrite, NeedsRecovery;
    if w.store.session.Some? {
      NoConflictAlone(w.store.session.value, marker, rounds[0].now);
    }
  }

  function Foreigns(changes: seq<Change>): seq<Step> {
    seq(|changes|, i requires 0 <= i < |changes| => Foreign(changes[i]))
  }

  lemma {:induction false} ForeignsChange(w: World, changes: seq<Change>, hash: Hash)
    ensures Run(w, Foreigns(changes), hash) == w.(store := ChangedAll(w.store, changes))
    decreases |changes|
  {
    hide Changed;
    if changes != [] {
      assert Foreigns(changes)[1..] == Foreigns(changes[1..]);
      ForeignsChange(Next(w, Foreign(changes[0]), hash), changes[1..], hash);
    }
  }

  lemma MovedIsNormal(before: Stored, after: Stored)
    requires MovesOn(before, after)
    ensures NormalOrNone(after.session)
  {
  }

  lemma {:induction false} ChangedAllNormal(store: Stored, changes: seq<Change>)
    requires NormalOrNone(store.session)
    ensures NormalOrNone(ChangedAll(store, changes).session)
    decreases |changes|
  {
    hide Changed, NormalOrNone, Advances;
    if changes != [] {
      ChangeMovesOn(store, changes[0]);
      MovedIsNormal(store, Changed(store, changes[0]));
      ChangedAllNormal(Changed(store, changes[0]), changes[1..]);
    }
  }

  /** The attempts as steps: the changes of the others, and one `MarkRun`. */
  function StepsOfRounds(store: Stored, marker: Marker, rounds: seq<Interference>): seq<Step>
    decreases |rounds|
  {
    if rounds == [] then [MarkRun(marker, 1, ReadFails)]
    else if rounds[0].fault == ReadFails || store.session == None || NeedsRecovery(store.session.value) then
      [MarkRun(marker, rounds[0].now, rounds[0].fault)]
    else
      var met, op := ChangedAll(store, rounds[0].between), MarkInterrupted(store.session.value.revision, marker, rounds[0].now);
      var write := ApplyWrite(met.session, op);
      Foreigns(rounds[0].between) +
      if write == Err(Conflict) then StepsOfRounds(met, marker, rounds[1..])
      else [MarkRun(marker, rounds[0].now, if write.Ok? then rounds[0].fault else ReadFails)]
  }

  lemma LastRound(w: World, expected: nat, marker: Marker, now: Instant, fault: Fault)
    requires NormalOrNone(w.store.session) && fault != ReadFails
    requires var write := ApplyWrite(w.store.session, MarkInterrupted(expected, marker, now)); write != Err(Conflict)
    ensures var op := MarkInterrupted(expected, marker, now);
            var attempt := Try(w.store.session, op, fault);
            var v := MarkRunStep(w, marker, now, if ApplyWrite(w.store.session, op).Ok? then fault else ReadFails);
            && v.store == Put(w.store, attempt.stored)
            && v.runtime == (if attempt.reported.Some? then Publish(w.runtime, attempt.reported.value) else QuarantineAny(w.runtime))
            && v == w.(store := v.store, runtime := v.runtime)
  {
    hide ValidMarker;
  }

  /** Whatever others do during the attempts, the loop of markInterrupted does what the steps of the
      state machine do: their changes, and one marking at the end. */
  lemma {:induction false} RoundsAreSteps(w: World, marker: Marker, rounds: seq<Interference>, hash: Hash)
    requires NormalOrNone(w.store.session)
    ensures var (after, end) := MarkRounds(w.store, marker, rounds);
            Run(w, StepsOfRounds(w.store, marker, rounds), hash) == w.(store := after, runtime := AfterRounds(w.runtime, end))
    decreases |rounds|
  {
    hide ApplyWrite, NeedsRecovery, ChangedAll, NormalOrNone;
    var steps := StepsOfRounds(w.store, marker, rounds);
    if rounds == [] || rounds[0].fault == ReadFails || w.store.session == None || NeedsRecovery(w.store.session.value) {
      assert steps[1..] == [];
      assert Run(w, steps, hash) == Next(w, steps[0], hash);
    } else {
      var met, round := ChangedAll(w.store, rounds[0].between), rounds[0];
      var v := w.(store := met);
      ForeignsChange(w, round.between, hash);
      ChangedAllNormal(w.store, round.between);
      var op := MarkInterrupted(w.store.session.value.revision, marker, round.now);
      if ApplyWrite(met.session, op) == Err(Conflict) {
        RunSplit(w, Foreigns(round.between), StepsOfRounds(met, marker, rounds[1..]), hash);
        RoundsAreSteps(v, marker, rounds[1..], hash);
      } else {
        var last := MarkRun(marker, round.now, if ApplyWrite(met.session, op).Ok? then round.fault else ReadFails);
        RunSplit(w, Foreigns(round.between), [last], hash);
        LastRound(v, w.store.session.value.revision, marker, round.now, round.fault);
        assert [last][1..] == [];
        assert Run(v, [last], hash) == Next(v, last, hash);
      }
    }
  }

  // ----- the code -----

  /** The stored session and the table entry of this process, shared by all journals. */
  class Backend {
    var session: Option<Session>
    ghost var generation: nat
    var runtime: Option<Runtime>

    ghost function Store(): Stored
      reads this
    {
      Stored(session, generation)
    }

    constructor (session: Option<Session>)
      ensures Store() == Stored(session, 0) && runtime == None
    {
      this.session, generation, runtime := session, 0, None;
    }

    /** A store operation and the fault that strikes it. */
    method Attempt(op: Operation, fault: Fault) returns (updated: Option<Session>, conflict: bool)
      modifies this`session
      ensures session == Try(old(session), op, fault).stored && updated == Try(old(session), op, fault).reported
      ensures conflict <==> ApplyWrite(old(session), op) == Err(Conflict)
    {
      hide ApplyWrite;
      conflict := ApplyWrite(session, op) == Err(Conflict);
      var attempt := Try(session, op, fault);
      session := attempt.stored;
      updated := attempt.reported;
    }

    /** Everybody else's changes. */
    method Interfere(changes: seq<Change>)
      modifies this`session, this`generation
      ensures Store() == ChangedAll(old(Store()), changes)
    {
      var i := 0;
      assert changes[0..] == changes;
      while i < |changes|
        invariant 0 <= i <= |changes|
        invariant ChangedAll(Store(), changes[i..]) == ChangedAll(old(Store()), changes)
      {
        hide ApplyChange;
        assert changes[i..][0] == changes[i] && changes[i..][1..] == changes[i + 1..];
        var result := ApplyChange(session, changes[i]);
        if result.Ok? {
          session := result.value;
          generation := if changes[i].Remove? then generation + 1 else generation;
        }
        i := i + 1;
      }
    }

    /** markInterrupted: three attempts against other writers. */
    method MarkInterrupted(marker: Marker, outside: seq<Interference>) returns (ok: bool)
      requires |outside| == 3
      modifies this
      ensures var (after, end) := MarkRounds(old(Store()), marker, outside);
              && Store() == after && runtime == AfterRounds(old(runtime), end)
              && (ok <==> end.AlreadyNeeded? || end.MarkedNow?)
      ensures ok ==> session.Some? && NeedsRecovery(session.value)
    {
      hide ApplyWrite, NeedsRecovery, ChangedAll;
      MarkRoundsOutcome(Store(), marker, outside);
      assert outside[0..] == outside;
      for attempt := 0 to 3
        invariant runtime == old(runtime)
        invariant MarkRounds(Store(), marker, outside[attempt..]) == MarkRounds(old(Store()), marker, outside)
      {
        assert outside[attempt..][0] == outside[attempt] && outside[attempt..][1..] == outside[attempt + 1..];
        var environment := outside[attempt];
        if environment.fault == ReadFails || session == None {
          runtime := QuarantineAny(runtime);
          return false;
        }
        var persisted := session.value;
        if NeedsRecovery(persisted) {
          return true;
        }
        Interfere(environment.between);
        ghost var met := session;
        var op := Operation.MarkInterrupted(persisted.revision, marker, environment.now);
        var updated, conflict := Attempt(op, environment.fault);
        if conflict {
          assert session == met;
          continue;
        }
        if updated == None {
          runtime := QuarantineAny(runtime);
          return false;
        }
        runtime := Publish(runtime, updated.value);
        return true;
      }
      runtime := QuarantineAny(runtime);
      ok := false;
    }
  }

  class PromptExecutionJournal {
    const backend: Backend
    const owner: Owner
    var failed: bool
    var expectedRevision: nat
    var persisted: Session
    var marker: Option<Marker>
    var entries: seq<Entry>
    ghost var trace: Trace

    ghost function Abstract(): Local
      reads this, backend
    {
      Local(backend.Store(), backend.runtime, Journal(owner, failed, expectedRevision, persisted, marker, entries, trace))
    }

    constructor (backend: Backend, owner: Owner, persisted: Session)
      ensures this.backend == backend
      ensures Abstract() == Local(backend.Store(), backend.runtime, NewJournal(owner, persisted, backend.generation))
    {
      this.backend, this.owner := backend, owner;
      failed, expectedRevision, this.persisted, marker, entries := false, persisted.revision, persisted, None, [];
      trace := Trace(false, [], backend.generation);
    }

    method FailLocked()
      modifies this`failed, backend`runtime
      ensures Abstract() == Fail(old(Abstract()))
    {
      failed := true;
      if backend.runtime.Some? && backend.runtime.value.instance == owner.instance {
        backend.runtime := Some(backend.runtime.value.(quarantined := true));
      }
    }

    /** The fields after a reported write, then `publish`. */
    method Follow(updated: Session, next: Option<Marker>, journalled: seq<Entry>, ghost notes: Trace, ended: bool) returns (ok: bool)
      requires backend.session == Some(updated)
      modifies this, backend`runtime
      ensures Abstract() == Adopt(old(Abstract()), updated, next, journalled, notes, ended) && ok == !ended
    {
      persisted, expectedRevision, marker, entries := updated, updated.revision, next, journalled;
      trace := notes;
      if ended {
        FailLocked();
        return false;
      }
      if backend.runtime.Some? {
        backend.runtime := Some(backend.runtime.value.(persisted := updated));
      }
      ok := true;
    }

    /** Record: nil, here `ok`, only after the marker is durable. */
    method Record(raw: Entry, now: Instant, fault: Fault, ended: bool, hash: Hash) returns (ok: bool)
      modifies this, backend
      ensures Abstract() == RecordStep(old(Abstract()), raw, now, fault, ended, hash).local
      ensures ok == RecordStep(old(Abstract()), raw, now, fault, ended, hash).ok
    {
      hide Aggregate, ApplyWrite;
      var entry := TrimEntry(raw);
      var first := AggregateToolExecutionJournal([entry], 0, REASON, hash);
      if first == None || failed || !IsActive(backend.runtime, owner) {
        FailLocked();
        return false;
      }
      if marker == None {
        ok := RecordFirst(entry, first.value, now, fault, ended);
      } else {
        ok := RecordNext(entry, first.value, fault, ended, hash);
      }
    }

    method RecordFirst(entry: Entry, first: Marker, now: Instant, fault: Fault, ended: bool) returns (ok: bool)
      requires marker == None
      modifies this, backend
      ensures Outcome(Abstract(), ok) == FirstRecord(old(Abstract()), entry, first, now, fault, ended)
    {
      hide ApplyWrite;
      if persisted.reconcile || persisted.revision != expectedRevision {
        FailLocked();
        return false;
      }
      var updated, _ := backend.Attempt(MarkInterrupted(expectedRevision, first, now), fault);
      if updated == None {
        FailLocked();
        return false;
      }
      ok := Follow(updated.value, updated.value.interruption, [entry],
                   Trace(false, if ended then trace.running else trace.running + [entry], backend.generation), ended);
    }

    method RecordNext(entry: Entry, first: Marker, fault: Fault, ended: bool, hash: Hash) returns (ok: bool)
      requires marker.Some?
      modifies this, backend
      ensures Outcome(Abstract(), ok) == NextRecord(old(Abstract()), entry, first, fault, ended, hash)
    {
      hide Aggregate, ApplyWrite;
      if !StillOwn(backend.session, expectedRevision, marker, fault) || backend.session.value.interruption.value.runId != first.runId {
        FailLocked();
        return false;
      }
      var nextEntries := entries + [entry];
      var next := AggregateToolExecutionJournal(nextEntries, marker.value.at, REASON, hash);
      if next == None {
        FailLocked();
        return false;
      }
      var updated, _ := backend.Attempt(UpdateInterrupted(expectedRevision, marker.value, next.value), fault);
      if updated == None || updated.value.interruption != next {
        FailLocked();
        return false;
      }
      ok := Follow(updated.value, updated.value.interruption, nextEntries,
                   Trace(false, if ended then trace.running else trace.running + [entry], backend.generation), ended);
    }

    /** EnrichReconciliation */
    method EnrichReconciliation(next: Marker, fault: Fault, ended: bool) returns (ok: bool)
      modifies this, backend
      ensures Outcome(Abstract(), ok) == EnrichStep(old(Abstract()), next, fault, ended)
    {
      hide ApplyWrite, ValidMarker, TrimSpace;
      if failed || marker == None || !IsActive(backend.runtime, owner) || TrimSpace(next.runId) != marker.value.runId || !ValidMarker(next) || !StillOwn(backend.session, expectedRevision, marker, fault) {
        FailLocked();
        return false;
      }
      if marker == Some(next) {
        return true;
      }
      var updated, _ := backend.Attempt(UpdateInterrupted(expectedRevision, marker.value, next), fault);
      if updated == None || updated.value.interruption != Some(next) {
        FailLocked();
        return false;
      }
      ok := Follow(updated.value, updated.value.interruption, entries, Trace(true, trace.running, backend.generation), ended);
    }

    /** The write of a transcript commit. */
    method CommitWrite(op: Operation, fault: Fault, ended: bool) returns (ok: bool)
      modifies this, backend
      ensures var l := old(Abstract());
              var attempt := Try(l.store.session, op, fault);
              Outcome(Abstract(), ok) ==
              if attempt.reported == None then Unreported(l, attempt)
              else Outcome(Adopt(l, attempt.reported.value, None, [], Trace(false, [], l.store.generation), ended), !ended)
    {
      hide ApplyWrite;
      var updated, _ := backend.Attempt(op, fault);
      if updated == None {
        FailLocked();
        return false;
      }
      ok := Follow(updated.value, None, [], Trace(false, [], backend.generation), ended);
    }

    /** commitObservedRun */
    method CommitObservedRun(delta: seq<string>, terminal: Option<string>, fault: Fault, ended: bool) returns (ok: bool)
      modifies this, backend
      ensures Outcome(Abstract(), ok) == CommitStep(old(Abstract()), delta, terminal, fault, ended)
    {
      hide ApplyWrite, Try, Adopt;
      if delta == [] && terminal == None {
        return true;
      }
      if failed || !IsActive(backend.runtime, owner) || fault == ReadFails || backend.session == None || backend.session.value.revision != expectedRevision {
        FailLocked();
        return false;
      }
      if marker.Some? && !StillOwn(backend.session, expectedRevision, marker, fault) {
        FailLocked();
        return false;
      }
      if marker == None && (backend.session.value.reconcile || backend.session.value.interruption.Some?) {
        FailLocked();
        return false;
      }
      var persisted := backend.session.value;
      var candidate := persisted.(transcript := persisted.transcript + delta);
      if terminal.Some? {
        candidate := candidate.(terminal := terminal);
      }
      var op := if marker.Some? then CommitInterrupted(expectedRevision, candidate, marker.value)
                else Save(Some(expectedRevision), candidate);
      assert op == CommitOperation(old(Abstract()), delta, terminal);
      ok := CommitWrite(op, fault, ended);
    }
  }
}
