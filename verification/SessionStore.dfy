/** The durable session of internal/agent/sessions.go as a compare-and-swap register: the operations
    that write it, and what each of them keeps. */
module SessionStore {
  import opened ExecutionMarker
  import opened Text
  import opened Wrappers

  /** A moment that is not the zero time. */
  type Instant = t: nat | 0 < t witness 1

  datatype Lifecycle = Unnamed | Active | Interrupted | Closed | RecoveryNeeded

  datatype Session = Session(
    revision: nat, lifecycle: Lifecycle, reconcile: bool, interruption: Option<Marker>,
    committed: nat,  // the last committed revision
    transcript: seq<string>, terminal: Option<string>)

  datatype StoreError = Invalid | Conflict | Overflow | ReconcileRequired | NotFound

  /** Every operation that rewrites a stored session. `current` is whether the evidence of a
      reconciliation receipt still is what a new assessment finds; the title that `Rename` sets is not
      part of the session here. */
  datatype Operation =
    | Save(onlyIf: Option<nat>, candidate: Session)
    | CommitInterrupted(expected: nat, candidate: Session, marker: Marker)
    | MarkInterrupted(expected: nat, marker: Marker, now: Instant)
    | UpdateInterrupted(expected: nat, marker: Marker, next: Marker)
    | Reconcile(expected: nat, runId: string, current: bool)
    | Close(expected: nat)
    | Rename

  /** What can happen to a session identifier: a write, which may create the session, or a deletion. */
  datatype Change = Write(op: Operation) | Remove(onlyIf: Option<nat>)

  /** The stored session is guarded by an execution marker. */
  predicate Guarded(s: Session) {
    s.lifecycle == Interrupted && s.reconcile && s.interruption.Some?
  }

  /** normalizeSessionLifecycle accepts the session as it is. */
  predicate Normal(s: Session) {
    match s.lifecycle
    case Unnamed => false
    case Active => !s.reconcile && s.interruption == None && s.committed == s.revision
    case Closed => !s.reconcile && s.interruption == None && s.committed == s.revision
    case Interrupted =>
      && s.reconcile && s.interruption.Some? && s.interruption.value.at != 0 && s.committed < s.revision
      && ValidMarker(s.interruption.value)
    case RecoveryNeeded =>
      s.reconcile && s.committed <= s.revision && (s.interruption.Some? ==> ValidMarker(s.interruption.value))
  }

  /** The revision check that every operation starts with. */
  function RevisionError(s: Session, expected: nat): Option<StoreError> {
    if s.revision != expected then Some(Conflict) else if s.revision >= MAX_UINT64 then Some(Overflow) else None
  }

  /** A transcript write: the new session in an active or closed lifecycle. */
  function Written(s: Session, candidate: Session, lifecycle: Lifecycle): Session {
    Session(s.revision + 1, lifecycle, false, None, s.revision + 1, candidate.transcript,
            if candidate.terminal.Some? then candidate.terminal else s.terminal)
  }

  /** SaveExpected and, without an expected revision, Save. */
  function ApplySave(s: Session, expected: Option<nat>, candidate: Session): Result<Session, StoreError> {
    var revisionError := RevisionError(s, if expected.Some? then expected.value else s.revision);
    if revisionError.Some? then Err(revisionError.value)
    else if s.reconcile then Err(ReconcileRequired)
    else if s.lifecycle == Closed then Err(Invalid)
    else if candidate.lifecycle == Unnamed && (candidate.reconcile || candidate.interruption.Some?) then Err(Invalid)
    else if candidate.lifecycle != Unnamed &&
            (candidate.lifecycle != s.lifecycle || candidate.reconcile || candidate.interruption != s.interruption) then Err(Invalid)
    else Ok(Written(s, candidate, s.lifecycle))
  }

  function ApplyCommit(s: Session, expected: nat, candidate: Session, marker: Marker): Result<Session, StoreError> {
    if TrimSpace(marker.runId) == "" || !ValidMarker(marker) then Err(Invalid)
    else if RevisionError(s, expected).Some? then Err(RevisionError(s, expected).value)
    else if !Guarded(s) then Err(Invalid)
    else if s.interruption != Some(marker) then Err(ReconcileRequired)
    else Ok(Written(s, candidate, Active))
  }

  function ApplyMark(s: Session, expected: nat, marker: Marker, now: Instant): Result<Session, StoreError> {
    if !ValidMarker(marker) then Err(Invalid)
    else if RevisionError(s, expected).Some? then Err(RevisionError(s, expected).value)
    else if s.lifecycle == Closed then Err(Invalid)
    else if s.reconcile then Err(ReconcileRequired)
    else
      Ok(s.(revision := s.revision + 1, lifecycle := Interrupted, reconcile := true, committed := s.revision,
            interruption := Some(if marker.at == 0 then marker.(at := now) else marker)))
  }

  function ApplyUpdate(s: Session, expected: nat, marker: Marker, next: Marker): Result<Session, StoreError> {
    if !ValidMarker(marker) || !ValidMarker(next) || TrimSpace(marker.runId) == "" || marker.runId != next.runId then Err(Invalid)
    else if RevisionError(s, expected).Some? then Err(RevisionError(s, expected).value)
    else if !Guarded(s) then Err(Invalid)
    else if s.interruption != Some(marker) then Err(ReconcileRequired)
    else
      Ok(s.(revision := s.revision + 1,
            interruption := Some(if next.at == 0 then next.(at := marker.at) else next)))
  }

  function ApplyReconcile(s: Session, expected: nat, runId: string, current: bool): Result<Session, StoreError> {
    if RevisionError(s, expected).Some? then Err(RevisionError(s, expected).value)
    else if !s.reconcile || s.interruption == None || s.lifecycle !in {Interrupted, RecoveryNeeded} then Err(Invalid)
    else if s.interruption.value.runId != runId || !current then Err(ReconcileRequired)
    else Ok(s.(revision := s.revision + 1, committed := s.revision + 1, lifecycle := Active, reconcile := false, interruption := None))
  }

  function ApplyClose(s: Session, expected: nat): Result<Session, StoreError> {
    if RevisionError(s, expected).Some? then Err(RevisionError(s, expected).value)
    else if s.reconcile then Err(ReconcileRequired)
    else if s.lifecycle != Active then Err(Invalid)
    else Ok(s.(revision := s.revision + 1, committed := s.revision + 1, lifecycle := Closed, interruption := None))
  }

  /** Rename checks neither an expected revision nor whether the session is closed. */
  function ApplyRename(s: Session): Result<Session, StoreError> {
    if s.revision >= MAX_UINT64 then Err(Overflow)
    else if s.reconcile then Err(ReconcileRequired)
    else Ok(s.(revision := s.revision + 1, committed := s.revision + 1))
  }

  function Apply(s: Session, op: Operation): Result<Session, StoreError> {
    match op
    case Save(expected, candidate) => ApplySave(s, expected, candidate)
    case CommitInterrupted(expected, candidate, marker) => ApplyCommit(s, expected, candidate, marker)
    case MarkInterrupted(expected, marker, now) => ApplyMark(s, expected, marker, now)
    case UpdateInterrupted(expected, marker, next) => ApplyUpdate(s, expected, marker, next)
    case Reconcile(expected, runId, current) => ApplyReconcile(s, expected, runId, current)
    case Close(expected) => ApplyClose(s, expected)
    case Rename => ApplyRename(s)
  }

  /** A save under an identifier that has no session, which has revision zero: a new session. */
  function Create(expected: Option<nat>, candidate: Session): Result<Session, StoreError> {
    if expected.Some? && expected.value != 0 then Err(Conflict)
    else if candidate.lifecycle !in {Unnamed, Active} || candidate.reconcile || candidate.interruption.Some? then Err(Invalid)
    else Ok(Session(1, Active, false, None, 1, candidate.transcript, candidate.terminal))
  }

  /** A write, whether or not there is a session. */
  function ApplyWrite(s: Option<Session>, op: Operation): Result<Session, StoreError> {
    if s.Some? then Apply(s.value, op)
    else if op.Save? then Create(op.onlyIf, op.candidate)
    else Err(NotFound)
  }

  /** deleteSession: only the revision is checked. */
  function ApplyRemove(s: Option<Session>, onlyIf: Option<nat>): Option<StoreError> {
    if s == None then Some(NotFound)
    else if onlyIf.Some? && onlyIf.value != s.value.revision then Some(Conflict)
    else None
  }

  function ApplyChange(s: Option<Session>, change: Change): Result<Option<Session>, StoreError> {
    match change
    case Write(op) =>
      (match ApplyWrite(s, op)
       case Err(e) => Err(e)
       case Ok(t) => Ok(Some(t)))
    case Remove(onlyIf) => if ApplyRemove(s, onlyIf).Some? then Err(ApplyRemove(s, onlyIf).value) else Ok(None)
  }

  /** The revision that an operation insists on. */
  function ExpectedBy(op: Operation): Option<nat> {
    if op.Save? then op.onlyIf else if op.Rename? then None else Some(op.expected)
  }

  lemma SameMarkerValid(m: Marker, at: nat)
    requires ValidMarker(m)
    ensures ValidMarker(m.(at := at))
  {
  }

  /** Every successful operation replaces exactly the revision it was given, and the result passes
      normalization again. */
  lemma OperationsKeepNormal(s: Session, op: Operation)
    requires Normal(s) && Apply(s, op).Ok?
    ensures Normal(Apply(s, op).value) && Apply(s, op).value.revision == s.revision + 1 <= MAX_UINT64
    ensures ExpectedBy(op) in {None, Some(s.revision)}
  {
    hide ValidMarker, TrimSpace;
    if op.MarkInterrupted? && op.marker.at == 0 {
      SameMarkerValid(op.marker, op.now);
    }
    if op.UpdateInterrupted? && op.next.at == 0 {
      SameMarkerValid(op.next, op.marker.at);
    }
  }

  /** What a save may be called with on an active session. */
  predicate Plain(candidate: Session) {
    candidate.lifecycle in {Unnamed, Active} && !candidate.reconcile && candidate.interruption == None
  }

  /** Which operations succeed on a session, by its lifecycle: saves, first markers and closing on an active
      one; the commit and the update of exactly the marker it holds on an interrupted one; a current
      reconciliation of the marker's run on those that need recovery; a change of title on the others. */
  lemma SucceedsIff(s: Session, op: Operation)
    requires Normal(s)
    ensures Apply(s, op).Ok? <==>
            && s.revision < MAX_UINT64 && ExpectedBy(op) in {None, Some(s.revision)}
            && (op.Save? ==> s.lifecycle == Active && Plain(op.candidate))
            && (op.MarkInterrupted? ==> s.lifecycle == Active && ValidMarker(op.marker))
            && (op.Close? ==> s.lifecycle == Active)
            && (op.CommitInterrupted? ==>
                  s.lifecycle == Interrupted && s.interruption == Some(op.marker) && TrimSpace(op.marker.runId) != "")
            && (op.UpdateInterrupted? ==>
                  && s.lifecycle == Interrupted && s.interruption == Some(op.marker) && TrimSpace(op.marker.runId) != ""
                  && ValidMarker(op.next) && op.next.runId == op.marker.runId)
            && (op.Reconcile? ==>
                  && s.lifecycle in {Interrupted, RecoveryNeeded} && s.interruption.Some?
                  && s.interruption.value.runId == op.runId && op.current)
            && (op.Rename? ==> s.lifecycle in {Active, Closed})
  {
    hide ValidMarker, TrimSpace;
  }

  /** The session that a successful operation leaves. */
  lemma SuccessLeaves(s: Session, op: Operation)
    requires Normal(s) && Apply(s, op).Ok?
    ensures var t := Apply(s, op).value;
            && t.lifecycle == (if op.MarkInterrupted? || op.UpdateInterrupted? then Interrupted
                               else if op.Close? || s.lifecycle == Closed then Closed
                               else Active)
            && (t.interruption.Some? <==> op.MarkInterrupted? || op.UpdateInterrupted?)
            && (op.MarkInterrupted? ==> t.interruption == Some(op.marker.(at := if op.marker.at == 0 then op.now else op.marker.at)))
            && (op.UpdateInterrupted? ==> t.interruption == Some(op.next.(at := if op.next.at == 0 then op.marker.at else op.next.at)))
            && t.transcript == (if op.Save? || op.CommitInterrupted? then op.candidate.transcript else s.transcript)
            && t.terminal == (if (op.Save? || op.CommitInterrupted?) && op.candidate.terminal.Some? then op.candidate.terminal else s.terminal)
  {
    hide ValidMarker, TrimSpace;
  }

  /** Why an operation is refused: a caller that is behind gets a conflict and nothing else, and one that
      is up to date is told to reconcile exactly when the session, or the marker it holds, stands in the
      way. */
  lemma RefusedFor(s: Session, op: Operation)
    requires Normal(s) && Apply(s, op).Err?
    ensures Apply(s, op).error != NotFound
    ensures Apply(s, op).error == Conflict ==> ExpectedBy(op) !in {None, Some(s.revision)}
    ensures ExpectedBy(op) !in {None, Some(s.revision)} ==> Apply(s, op).error in {Conflict, Invalid}
    ensures Apply(s, op).error == Overflow <==>
              && s.revision >= MAX_UINT64 && ExpectedBy(op) in {None, Some(s.revision)}
              && (op.CommitInterrupted? ==> TrimSpace(op.marker.runId) != "" && ValidMarker(op.marker))
              && (op.MarkInterrupted? ==> ValidMarker(op.marker))
              && (op.UpdateInterrupted? ==>
                    TrimSpace(op.marker.runId) != "" && ValidMarker(op.marker) && ValidMarker(op.next) && op.next.runId == op.marker.runId)
    ensures op.Save? || op.Close? || op.Rename? || op.Reconcile? ==>
              (Apply(s, op).error == Conflict <==> ExpectedBy(op) !in {None, Some(s.revision)})
    ensures (op.Save? || op.Close? || op.Rename?) && ExpectedBy(op) in {None, Some(s.revision)} && s.revision < MAX_UINT64 ==>
              (Apply(s, op).error == ReconcileRequired <==> s.lifecycle in {Interrupted, RecoveryNeeded})
    ensures op.MarkInterrupted? && ValidMarker(op.marker) && op.expected == s.revision < MAX_UINT64 ==>
              (Apply(s, op).error == ReconcileRequired <==> s.lifecycle in {Interrupted, RecoveryNeeded})
    ensures (op.CommitInterrupted? || op.UpdateInterrupted?) && Apply(s, op).error == ReconcileRequired ==>
              s.lifecycle == Interrupted && s.interruption != Some(op.marker)
  {
    hide ValidMarker, TrimSpace;
  }

  /** A save without a session makes an active one at revision one; every other write needs a session, and
      so does a deletion. */
  lemma CreatedOnlyBySave(op: Operation, onlyIf: Option<nat>)
    ensures ApplyWrite(None, op).Ok? <==> op.Save? && (op.onlyIf == None || op.onlyIf == Some(0)) && Plain(op.candidate)
    ensures ApplyWrite(None, op).Ok? ==>
              ApplyWrite(None, op).value == Session(1, Active, false, None, 1, op.candidate.transcript, op.candidate.terminal)
    ensures ApplyWrite(None, op).Err? && !op.Save? ==> ApplyWrite(None, op).error == NotFound
    ensures ApplyChange(None, Remove(onlyIf)) == Err(NotFound)
  {
    hide Apply;
    assert ApplyRemove(None, onlyIf) == Some(NotFound);
  }

  /** A deletion succeeds on every session, marked or not, unless its caller is behind. */
  lemma RemovalIs(s: Session, onlyIf: Option<nat>)
    ensures ApplyChange(Some(s), Remove(onlyIf)) == if onlyIf == None || onlyIf == Some(s.revision) then Ok(None) else Err(Conflict)
  {
  }

  lemma CreationIsNormal(expected: Option<nat>, candidate: Session)
    requires Create(expected, candidate).Ok?
    ensures Normal(Create(expected, candidate).value)
  {
  }

  /** The session holds a marker of the run. */
  predicate MarkedFor(s: Session, runId: string) {
    Guarded(s) && s.interruption.value.runId == runId
  }

  /** There is a session, and it holds a marker of the run. */
  predicate Marked(s: Option<Session>, runId: string) {
    s.Some? && MarkedFor(s.value, runId)
  }

  /** The operation that takes a session out of its guarded state. */
  predicate Releases(s: Session, op: Operation) {
    || (op.CommitInterrupted? && s.interruption == Some(op.marker))
    || (op.Reconcile? && op.current && s.interruption.Some? && s.interruption.value.runId == op.runId)
  }

  /** A guarded session is released only by the commit of exactly its marker, which writes the
      transcript in the same step, or by a reconciliation of its run. Every other write is refused or
      leaves a marker of the same run. */
  lemma GuardedStays(s: Session, op: Operation, runId: string)
    requires Normal(s) && MarkedFor(s, runId) && Apply(s, op).Ok?
    ensures Releases(s, op) <==> !MarkedFor(Apply(s, op).value, runId)
    ensures Releases(s, op) <==> Apply(s, op).value.lifecycle == Active && !Apply(s, op).value.reconcile
    ensures op.CommitInterrupted? ==> Apply(s, op).value.transcript == op.candidate.transcript
    ensures !op.CommitInterrupted? ==> Apply(s, op).value.transcript == s.transcript && (Releases(s, op) || op.UpdateInterrupted?)
  {
    hide ValidMarker, TrimSpace;
  }

  /** The marker of a run goes away by exactly three changes: the commit of that marker, a current
      reconciliation of the run, and the deletion of the session, which no marker prevents. */
  lemma MarkerGoesBy(s: Session, change: Change, runId: string)
    requires Normal(s) && MarkedFor(s, runId) && ApplyChange(Some(s), change).Ok?
    ensures !Marked(ApplyChange(Some(s), change).value, runId) <==> change.Remove? || Releases(s, change.op)
  {
    hide Normal, Apply;
    if change.Write? {
      GuardedStays(s, change.op, runId);
    }
  }

  /** Nothing but a deletion and a change of title succeeds on a closed session, and the latter leaves
      it closed with the same transcript. */
  lemma ClosedIsFinal(s: Session, expected: nat, change: Change)
    requires Normal(s) && Apply(s, Close(expected)).Ok?
    ensures var t := Apply(s, Close(expected)).value;
            && t.transcript == s.transcript && t.terminal == s.terminal
            && (ApplyChange(Some(t), change).Ok? <==>
                  || (change.Remove? && change.onlyIf in {None, Some(t.revision)})
                  || (change == Write(Rename) && t.revision < MAX_UINT64))
            && (change == Write(Rename) && t.revision < MAX_UINT64 ==>
                  ApplyChange(Some(t), change) == Ok(Some(t.(revision := t.revision + 1, committed := t.revision + 1))))
  {
    hide ValidMarker, TrimSpace;
  }

  /** The last committed revision is the newest one that was not awaiting reconciliation, and only the
      two transcript writes change what was said. */
  lemma CommittedIsLastStable(s: Session, op: Operation)
    requires Normal(s) && Apply(s, op).Ok?
    ensures var t := Apply(s, op).value;
            && t.committed == (if !t.reconcile then t.revision else if s.reconcile then s.committed else s.revision)
            && (t.transcript != s.transcript || t.terminal != s.terminal ==> (op.Save? || op.CommitInterrupted?) && !t.reconcile)
  {
    hide ValidMarker, TrimSpace;
  }

  /** How an attempt to write can go wrong besides being refused. */
  datatype Fault =
    | Healthy
    | ReadFails      // the session cannot be read before the write
    | WriteFails     // nothing was written
    | WriteUncertain // written, but reported as failed

  /** The stored session after an attempt to write, and what the caller is told. */
  datatype Attempt = Attempt(stored: Option<Session>, reported: Option<Session>)

  function Try(s: Option<Session>, op: Operation, fault: Fault): Attempt {
    match ApplyWrite(s, op)
    case Err(_) => Attempt(s, None)
    case Ok(t) =>
      if fault in {ReadFails, WriteFails} then Attempt(s, None)
      else if fault == WriteUncertain then Attempt(Some(t), None)
      else Attempt(Some(t), Some(t))
  }
}
