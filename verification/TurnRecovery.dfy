/** Turn recovery of cmd/proxy/chat_transport.go (`startRecoverableTurn`, `observe`,
    `emitRecoveredAgentTurn`): after a dropped stream a turn is posted again only when that is safe, and
    otherwise completed from the durable receipt of the session. */
module TurnRecovery {
  import opened Text
  import opened Wrappers

  const MAX_EVENT_BYTES := 0x10_0000
  const MAX_POSTS := 3

  /** An event of the stream; None stands for data that cannot be decoded. */
  datatype Event =
    | DoneEvent
    | SessionEvent(id: Option<string>)
    | TextEvent(value: Option<string>)
    | NeutralEvent                       // heartbeat, status, workstream, context_plan, stream_end
    | OtherEvent(kind: string)           // tool activity, approvals and everything else

  datatype Failure = Cancelled | TooLong | Malformed | Http(status: nat, code: string) | Transport

  /** How one POST ended. */
  datatype Ending = Eof | Failed(failure: Failure)

  datatype Attempt = Attempt(events: seq<Event>, end: Ending)

  datatype Message = Message(role: string, content: string)

  datatype Receipt = Receipt(id: string, expectedRevision: nat, committedRevision: nat, messageCount: int)

  datatype SessionView = SessionView(id: string, revision: nat, receipt: Option<Receipt>, messages: seq<Message>)

  datatype Read = Loaded(session: SessionView) | NotLoaded(failure: Failure)

  datatype Turn = Turn(requestId: string, sessionId: string, expectedRevision: nat)

  /** What the consumer of a turn receives. */
  datatype Item = Wire(event: Event) | Terminal(end: Ending)

  // ----- what was observed -----

  datatype State = State(text: string, runtimeId: string, material: bool, tooMuch: bool, done: bool)

  const NOTHING := State("", "", false, false, false)

  function Observed(s: State, e: Event): State {
    match e
    case DoneEvent => s.(done := true)
    case SessionEvent(id) => if id.Some? then s.(runtimeId := id.value) else s
    case TextEvent(value) =>
      if value == None || Utf8Length(s.text) + Utf8Length(value.value) > MAX_EVENT_BYTES then s.(material := true, tooMuch := true)
      else s.(material := true, text := s.text + value.value)
    case NeutralEvent => s
    case OtherEvent(_) => s.(material := true)
  }

  function ObservedAll(s: State, events: seq<Event>): State
    decreases |events|
  {
    if events == [] then s else Observed(ObservedAll(s, events[..|events| - 1]), events[|events| - 1])
  }

  predicate Material(e: Event) {
    e.TextEvent? || e.OtherEvent?
  }

  /** The text of the decodable text events. */
  function TextOf(events: seq<Event>): string
    decreases |events|
  {
    if events == [] then ""
    else
      var e := events[|events| - 1];
      TextOf(events[..|events| - 1]) + if e.TextEvent? && e.value.Some? then e.value.value else ""
  }

  /** The events among the items. */
  function EventsOf(items: seq<Item>): seq<Event>
    decreases |items|
  {
    if items == [] then []
    else
      var last := items[|items| - 1];
      EventsOf(items[..|items| - 1]) + if last.Wire? then [last.event] else []
  }

  lemma {:induction false} MaterialIs(events: seq<Event>)
    ensures ObservedAll(NOTHING, events).material <==> exists k :: 0 <= k < |events| && Material(events[k])
    decreases |events|
  {
    hide Utf8Length;
    if events != [] {
      var n := |events| - 1;
      MaterialIs(events[..n]);
      assert forall k :: 0 <= k < n ==> events[..n][k] == events[k];
    }
  }

  /** The text events cannot be kept: one could not be decoded, or they are too long together. */
  predicate Overflows(events: seq<Event>) {
    TextEvent(None) in events || Utf8Length(TextOf(events)) > MAX_EVENT_BYTES
  }

  /** The identifier of the last session event that could be decoded. */
  function LastId(events: seq<Event>): string
    decreases |events|
  {
    if events == [] then ""
    else
      var e := events[|events| - 1];
      if e.SessionEvent? && e.id.Some? then e.id.value else LastId(events[..|events| - 1])
  }

  lemma Utf8Nothing()
    ensures Utf8Length("") == 0
  {
  }

  lemma {:induction false} IdsAre(events: seq<Event>)
    ensures ObservedAll(NOTHING, events).runtimeId == LastId(events)
    ensures ObservedAll(NOTHING, events).done <==> DoneEvent in events
    decreases |events|
  {
    hide Utf8Length;
    if events != [] {
      var n := |events| - 1;
      IdsAre(events[..n]);
      assert events == events[..n] + [events[n]];
    }
  }

  lemma OverflowsMore(events: seq<Event>, e: Event)
    ensures TextOf(events + [e]) == TextOf(events) + (if e.TextEvent? && e.value.Some? then e.value.value else "")
    ensures Overflows(events + [e]) <==>
            || Overflows(events) || e == TextEvent(None)
            || (e.TextEvent? && Utf8Length(TextOf(events)) + Utf8Length(e.value.value) > MAX_EVENT_BYTES)
  {
    hide Utf8Length;
    assert (events + [e])[..|events|] == events;
    if e.TextEvent? && e.value.Some? {
      Utf8LengthSum(TextOf(events), e.value.value);
    } else {
      assert TextOf(events) + "" == TextOf(events);
    }
  }

  lemma NothingOverflows()
    ensures !Overflows([]) && TextOf([]) == ""
  {
  }

  lemma {:induction false} TextIs(events: seq<Event>)
    ensures var s := ObservedAll(NOTHING, events);
            (s.tooMuch <==> Overflows(events)) && (!s.tooMuch ==> s.text == TextOf(events))
    decreases |events|
  {
    hide Utf8Length, Overflows, TextOf;
    if events == [] {
      NothingOverflows();
    } else {
      var n := |events| - 1;
      TextIs(events[..n]);
      OverflowsMore(events[..n], events[n]);
      assert events == events[..n] + [events[n]];
      assert TextOf(events[..n]) + "" == TextOf(events[..n]);
    }
  }

  /** What is remembered of the events. */
  lemma ObservedIs(events: seq<Event>)
    ensures var s := ObservedAll(NOTHING, events);
            && (s.tooMuch <==> Overflows(events)) && (!s.tooMuch ==> s.text == TextOf(events))
            && s.runtimeId == LastId(events) && (s.done <==> DoneEvent in events)
            && (s.material <==> exists k :: 0 <= k < |events| && Material(events[k]))
  {
    hide ObservedAll, Overflows;
    TextIs(events);
    IdsAre(events);
    MaterialIs(events);
  }

  lemma ObservedMore(s: State, events: seq<Event>, e: Event)
    ensures ObservedAll(s, events + [e]) == Observed(ObservedAll(s, events), e)
  {
    assert (events + [e])[..|events|] == events;
  }

  // ----- recovering from the receipt -----

  /** The committed assistant text of the turn; None when it is too long to be replayed. */
  function Saved(messages: seq<Message>, sofar: string): Option<string>
    decreases |messages|
  {
    if messages == [] then Some(sofar)
    else if messages[0].role != "assistant" then Saved(messages[1..], sofar)
    else if Utf8Length(sofar) + Utf8Length(messages[0].content) > MAX_EVENT_BYTES then None
    else Saved(messages[1..], sofar + messages[0].content)
  }

  /** The assistant text that a session committed after some message. */
  function AssistantText(messages: seq<Message>): string {
    if messages == [] then ""
    else (if messages[0].role == "assistant" then messages[0].content else "") + AssistantText(messages[1..])
  }

  lemma {:induction false} SavedIsText(messages: seq<Message>, sofar: string)
    requires Saved(messages, sofar).Some?
    ensures Saved(messages, sofar).value == sofar + AssistantText(messages)
    decreases |messages|
  {
    hide Utf8Length;
    if messages != [] {
      if messages[0].role != "assistant" {
        SavedIsText(messages[1..], sofar);
        assert "" + AssistantText(messages[1..]) == AssistantText(messages[1..]);
      } else {
        SavedIsText(messages[1..], sofar + messages[0].content);
        assert sofar + messages[0].content + AssistantText(messages[1..]) == sofar + (messages[0].content + AssistantText(messages[1..]));
      }
    } else {
      assert sofar + "" == sofar;
    }
  }

  /** The committed text is replayed exactly when it fits. */
  lemma {:induction false} SavedIff(messages: seq<Message>, sofar: string)
    requires Utf8Length(sofar) <= MAX_EVENT_BYTES
    ensures Saved(messages, sofar).Some? <==> Utf8Length(sofar) + Utf8Length(AssistantText(messages)) <= MAX_EVENT_BYTES
    decreases |messages|
  {
    hide Utf8Length;
    Utf8Nothing();
    if messages != [] {
      var content, rest := messages[0].content, AssistantText(messages[1..]);
      Utf8LengthSum(content, rest);
      Utf8LengthSum(sofar, content);
      assert "" + rest == rest;
      if messages[0].role != "assistant" {
        SavedIff(messages[1..], sofar);
      } else if Utf8Length(sofar) + Utf8Length(content) <= MAX_EVENT_BYTES {
        SavedIff(messages[1..], sofar + content);
      }
    }
  }

  /** The session holds the receipt of exactly this request, at its current revision. */
  predicate Receipted(turn: Turn, session: SessionView) {
    && session.id == turn.sessionId && session.receipt.Some?
    && session.receipt.value.id == turn.requestId
    && session.receipt.value.expectedRevision == turn.expectedRevision
    && session.receipt.value.committedRevision == session.revision
    && 0 <= session.receipt.value.messageCount <= |session.messages|
  }

  /** The assistant text that the receipt vouches for. */
  function Committed(turn: Turn, session: SessionView): string
    requires Receipted(turn, session)
  {
    AssistantText(session.messages[session.receipt.value.messageCount..])
  }

  /** emitRecoveredAgentTurn: the items it emits; None when it recovers nothing. */
  function Recovered(turn: Turn, session: SessionView, s: State): Option<seq<Item>> {
    if session.id != turn.sessionId || session.receipt == None
       || session.receipt.value.id != turn.requestId || session.receipt.value.expectedRevision != turn.expectedRevision
       || session.receipt.value.committedRevision != session.revision || s.tooMuch then None
    else
      var receipt := session.receipt.value;
      if receipt.messageCount < 0 || receipt.messageCount > |session.messages| then None
      else
        var saved := Saved(session.messages[receipt.messageCount..], "");
        if saved == None || !(s.text <= saved.value) then None
        else
          var suffix := saved.value[|s.text|..];
          Some((if suffix == "" then [] else [Wire(TextEvent(Some(suffix)))]) + [Wire(DoneEvent), Terminal(Eof)])
  }

  /** The session completes a turn of which these events were delivered: it holds the turn's receipt,
      and the text that the receipt vouches for fits and continues the delivered text. */
  predicate Completes(turn: Turn, session: SessionView, events: seq<Event>) {
    && Receipted(turn, session) && TextEvent(None) !in events
    && Utf8Length(Committed(turn, session)) <= MAX_EVENT_BYTES && TextOf(events) <= Committed(turn, session)
  }

  lemma PrefixFits(text: string, committed: string)
    requires text <= committed
    ensures Utf8Length(text) <= Utf8Length(committed)
  {
    assert committed == text + committed[|text|..];
    Utf8LengthSum(text, committed[|text|..]);
  }

  lemma CommittedIff(turn: Turn, session: SessionView)
    requires Receipted(turn, session)
    ensures var saved, committed := Saved(session.messages[session.receipt.value.messageCount..], ""), Committed(turn, session);
            && (saved.Some? <==> Utf8Length(committed) <= MAX_EVENT_BYTES)
            && (saved.Some? ==> saved.value == committed)
  {
    hide Utf8Length, Saved, AssistantText;
    Utf8Nothing();
    var messages := session.messages[session.receipt.value.messageCount..];
    SavedIff(messages, "");
    if Saved(messages, "").Some? {
      SavedIsText(messages, "");
      assert "" + AssistantText(messages) == AssistantText(messages);
    }
  }

  /** A turn is recovered exactly from the sessions that complete it, whatever else was delivered. */
  lemma RecoveredIff(turn: Turn, session: SessionView, events: seq<Event>)
    ensures Recovered(turn, session, ObservedAll(NOTHING, events)).Some? <==> Completes(turn, session, events)
  {
    hide ObservedAll, Utf8Length, TextOf, Saved, Committed;
    ObservedIs(events);
    if Receipted(turn, session) {
      CommittedIff(turn, session);
      if TextOf(events) <= Committed(turn, session) {
        PrefixFits(TextOf(events), Committed(turn, session));
      }
    }
  }

  /** retryableAgentTurnEnd */
  predicate Retryable(end: Ending, afterDisconnect: bool) {
    match end
    case Eof => true
    case Failed(failure) =>
      match failure
      case Cancelled => false
      case TooLong => false
      case Malformed => false
      case Http(status, code) =>
        afterDisconnect && status == 409 &&
        code in {"session_run_active", "session_revision_conflict", "session_reconcile_required"}
      case Transport => true
  }

  /** retryableAgentRecoveryRead */
  predicate RetryableRead(failure: Failure) {
    failure == Transport || (failure.Http? && failure.status >= 500)
  }

  /** The endings that end a turn at once: a cancelled or undecodable stream, and any HTTP error except,
      after a first POST, the conflicts that the earlier POST can have caused. */
  predicate EndsTurn(end: Ending, first: bool) {
    && end.Failed?
    && (|| end.failure == Cancelled || end.failure == TooLong || end.failure == Malformed
        || (end.failure.Http? && first)
        || (end.failure.Http? && end.failure.status != 409)
        || (end.failure.Http? && end.failure.code != "session_run_active" && end.failure.code != "session_revision_conflict"
            && end.failure.code != "session_reconcile_required"))
  }

  lemma RetryableIff(end: Ending, first: bool)
    ensures Retryable(end, !first) <==> !EndsTurn(end, first)
  {
  }

  /** The read failures after which the session is read again. */
  predicate Temporary(failure: Failure) {
    match failure
    case Transport => true
    case Http(status, _) => status >= 500
    case _ => false
  }

  // ----- the world -----

  /** Everything the transport depends on: what each POST and each read of the session yields, whether
      each wait runs its full time, and whether the caller's context has ended at each check. */
  datatype World = World(attempts: nat -> Attempt, loads: nat -> Read, waits: nat -> bool, cancelled: nat -> bool, expired: nat -> bool)

  /** The events of so many attempts. */
  function AllEvents(world: World, posts: nat): seq<Event> {
    if posts == 0 then [] else AllEvents(world, posts - 1) + world.attempts(posts - 1).events
  }

  function Wires(events: seq<Event>): seq<Item> {
    seq(|events|, k requires 0 <= k < |events| => Wire(events[k]))
  }

  class AgentTurnRecoveryState {
    var text: string
    var runtimeId: string
    var material: bool
    var tooMuch: bool
    var done: bool

    function Abstract(): State
      reads this
    {
      State(text, runtimeId, material, tooMuch, done)
    }

    constructor ()
      ensures Abstract() == NOTHING
    {
      text, runtimeId, material, tooMuch, done := "", "", false, false, false;
    }

    /** observe */
    method Observe(event: Event)
      modifies this
      ensures Abstract() == Observed(old(Abstract()), event)
    {
      match event
      case DoneEvent => done := true;
      case SessionEvent(id) =>
        if id.Some? {
          runtimeId := id.value;
        }
      case TextEvent(value) =>
        material := true;
        if value == None || Utf8Length(text) + Utf8Length(value.value) > MAX_EVENT_BYTES {
          tooMuch := true;
          return;
        }
        text := text + value.value;
      case NeutralEvent =>
      case OtherEvent(_) => material := true;
    }
  }

  /** The items of a turn: all events in order, and one terminal item at the very end. */
  ghost predicate WellEnded(items: seq<Item>) {
    items != [] && items[|items| - 1].Terminal? && forall k :: 0 <= k < |items| - 1 ==> items[k].Wire?
  }

  /** After so many POSTs the turn is decided by what came in: it is done, the caller gave up, its text
      cannot be kept, or the last POST ended for good. */
  ghost predicate Over(world: World, posts: nat)
    requires posts > 0
  {
    var events := AllEvents(world, posts);
    DoneEvent in events || world.cancelled(posts) || Overflows(events) || EndsTurn(world.attempts(posts - 1).end, posts == 1)
  }

  /** Posting once more is safe: nothing material was delivered, and the session that was read does not
      complete the turn and still has the revision that the turn expects. */
  ghost predicate SafeToRepost(world: World, turn: Turn, posts: nat)
    requires posts > 0
  {
    && !Over(world, posts) && (forall e :: e in AllEvents(world, posts) ==> !Material(e))
    && world.loads(posts - 1).Loaded? && world.loads(posts - 1).session.revision == turn.expectedRevision
    && !Completes(turn, world.loads(posts - 1).session, AllEvents(world, posts))
  }

  lemma WiresMore(events: seq<Event>, e: Event)
    ensures Wires(events + [e]) == Wires(events) + [Wire(e)]
  {
  }

  /** One POST: its events are observed and forwarded. */
  method ForwardAttempt(state: AgentTurnRecoveryState, attempt: Attempt, items: seq<Item>, ghost before: seq<Event>) returns (more: seq<Item>)
    requires items == Wires(before) && state.Abstract() == ObservedAll(NOTHING, before)
    modifies state
    ensures more == Wires(before + attempt.events)
    ensures state.Abstract() == ObservedAll(NOTHING, before + attempt.events)
  {
    hide ObservedAll, Observed, Wires;
    more := items;
    ghost var events := attempt.events;
    assert before + events[..0] == before;
    for i := 0 to |attempt.events|
      invariant more == Wires(before + events[..i])
      invariant state.Abstract() == ObservedAll(NOTHING, before + events[..i])
    {
      assert before + events[..i + 1] == before + events[..i] + [events[i]];
      ObservedMore(NOTHING, before + events[..i], events[i]);
      WiresMore(before + events[..i], events[i]);
      state.Observe(attempt.events[i]);
      more := more + [Wire(attempt.events[i])];
    }
    assert events[..|events|] == events;
  }

  /** The items that complete a text to the committed one. */
  ghost function Rest(delivered: string, committed: string): seq<Item> {
    (if delivered == committed then [] else if delivered <= committed then [Wire(TextEvent(Some(committed[|delivered|..])))] else [])
    + [Wire(DoneEvent), Terminal(Eof)]
  }

  /** What a turn that was recovered from a session delivers in all. */
  ghost predicate RecoveredFrom(turn: Turn, session: SessionView, events: seq<Event>, items: seq<Item>) {
    && Receipted(turn, session)
    && items == Wires(events) + Rest(TextOf(events), Committed(turn, session))
    && TextOf(events) <= Committed(turn, session) && TextEvent(None) !in events
  }

  lemma RecoveryIs(turn: Turn, session: SessionView, events: seq<Event>)
    requires Recovered(turn, session, ObservedAll(NOTHING, events)).Some?
    ensures RecoveredFrom(turn, session, events, Wires(events) + Recovered(turn, session, ObservedAll(NOTHING, events)).value)
  {
    hide ObservedAll, TextOf, Wires, Saved;
    ObservedIs(events);
    var messages := session.messages[session.receipt.value.messageCount..];
    SavedIsText(messages, "");
    assert "" + AssistantText(messages) == AssistantText(messages);
    var text, saved := TextOf(events), AssistantText(messages);
    assert saved[|text|..] == "" <==> text == saved;
  }

  lemma WiresSum(events: seq<Event>, more: seq<Event>)
    ensures Wires(events + more) == Wires(events) + Wires(more)
  {
  }

  lemma EventsOfAppend(items: seq<Item>, item: Item)
    ensures EventsOf(items + [item]) == EventsOf(items) + if item.Wire? then [item.event] else []
  {
    assert (items + [item])[..|items|] == items;
  }

  lemma {:induction false} EventsOfWires(events: seq<Event>)
    ensures EventsOf(Wires(events)) == events
    decreases |events|
  {
    if events != [] {
      var n := |events| - 1;
      EventsOfWires(events[..n]);
      assert events == events[..n] + [events[n]];
      WiresMore(events[..n], events[n]);
      EventsOfAppend(Wires(events[..n]), Wire(events[n]));
    }
  }

  lemma EventsOfTail(events: seq<Event>, tail: seq<Event>)
    requires |tail| <= 1
    ensures EventsOf(Wires(events) + Wires(tail) + [Wire(DoneEvent), Terminal(Eof)]) == events + tail + [DoneEvent]
  {
    hide Wires, EventsOf;
    var all := events + tail + [DoneEvent];
    WiresMore(events + tail, DoneEvent);
    WiresSum(events, tail);
    EventsOfWires(all);
    EventsOfAppend(Wires(all), Terminal(Eof));
    assert Wires(all) + [Terminal(Eof)] == Wires(events) + Wires(tail) + [Wire(DoneEvent), Terminal(Eof)];
  }

  lemma WiresNothing()
    ensures Wires([]) == []
  {
  }

  lemma TextOfAppend(events: seq<Event>, e: Event)
    ensures TextOf(events + [e]) == TextOf(events) + if e.TextEvent? && e.value.Some? then e.value.value else ""
  {
    assert (events + [e])[..|events|] == events;
  }

  /** Conservation of text: the text that a recovered turn delivers over all its attempts is exactly
      the committed assistant text. */
  lemma TextIsConserved(turn: Turn, session: SessionView, events: seq<Event>, items: seq<Item>)
    requires RecoveredFrom(turn, session, events, items)
    ensures TextOf(EventsOf(items)) == Committed(turn, session)
  {
    hide Committed, Receipted, Wires, TextOf, EventsOf;
    var text, all := TextOf(events), Committed(turn, session);
    var tail := if text == all then [] else [TextEvent(Some(all[|text|..]))];
    assert items == Wires(events) + Wires(tail) + [Wire(DoneEvent), Terminal(Eof)] by {
      WiresNothing();
      if text != all {
        WiresMore([], tail[0]);
        assert [] + tail == tail && [] + [Wire(tail[0])] == [Wire(tail[0])];
      }
      assert [] + [Wire(DoneEvent), Terminal(Eof)] == [Wire(DoneEvent), Terminal(Eof)];
    }
    EventsOfTail(events, tail);
    if text == all {
      assert events + tail == events;
    } else {
      TextOfAppend(events, tail[0]);
    }
    TextOfAppend(events + tail, DoneEvent);
    assert all + "" == all;
  }

  /** How a turn that was not recovered ends: with its last transport ending or as cancelled. */
  function Ended(end: Ending, cancelled: bool): Item {
    Terminal(if cancelled then Failed(Cancelled) else end)
  }

  lemma EndsWell(events: seq<Event>, item: Item)
    requires item.Terminal?
    ensures WellEnded(Wires(events) + [item])
  {
  }

  lemma RecoveredEndsWell(turn: Turn, session: SessionView, events: seq<Event>, items: seq<Item>)
    requires RecoveredFrom(turn, session, events, items)
    ensures WellEnded(items)
  {
    hide TextOf, Committed;
  }

  lemma SafeStep(world: World, turn: Turn, posts: nat, s: State)
    requires posts > 0 && s == ObservedAll(NOTHING, AllEvents(world, posts)) && !s.material && !Over(world, posts)
    requires world.loads(posts - 1).Loaded? && world.loads(posts - 1).session.revision == turn.expectedRevision
    requires Recovered(turn, world.loads(posts - 1).session, s) == None
    ensures SafeToRepost(world, turn, posts)
  {
    hide ObservedAll, Over, Recovered;
    MaterialIs(AllEvents(world, posts));
    RecoveredIff(turn, world.loads(posts - 1).session, AllEvents(world, posts));
  }

  lemma OverIs(world: World, posts: nat, s: State)
    requires posts > 0 && s == ObservedAll(NOTHING, AllEvents(world, posts))
    ensures Over(world, posts) <==>
            s.done || world.cancelled(posts) || s.tooMuch || !Retryable(world.attempts(posts - 1).end, posts > 1)
  {
    hide ObservedAll, Overflows, Retryable, EndsTurn;
    ObservedIs(AllEvents(world, posts));
    RetryableIff(world.attempts(posts - 1).end, posts == 1);
  }

  lemma UnsafeStep(world: World, turn: Turn, posts: nat, s: State)
    requires posts > 0 && s == ObservedAll(NOTHING, AllEvents(world, posts))
    requires s.material || world.loads(posts - 1).NotLoaded? || world.loads(posts - 1).session.revision != turn.expectedRevision
    ensures !SafeToRepost(world, turn, posts)
  {
    hide ObservedAll, Over;
    MaterialIs(AllEvents(world, posts));
  }

  /** The ending of the last POST, or the caller's or the recovery's context ended. */
  predicate OwnEnding(world: World, posts: nat, end: Ending) {
    end == Failed(Cancelled) || (posts > 0 && end == world.attempts(posts - 1).end)
  }

  /** What a recoverable turn delivers: the events of all its POSTs, then either the completion from
      the receipt or one transport ending. */
  ghost predicate Delivered(world: World, turn: Turn, posts: nat, items: seq<Item>, recovered: Option<SessionView>) {
    if recovered.Some? then RecoveredFrom(turn, recovered.value, AllEvents(world, posts), items)
    else exists end :: OwnEnding(world, posts, end) && items == Wires(AllEvents(world, posts)) + [Terminal(end)]
  }

  /** A read after which polling goes on: it failed for now, or the session does not complete the turn. */
  ghost predicate Useless(read: Read, turn: Turn, events: seq<Event>) {
    if read.Loaded? then !Completes(turn, read.session, events) else Temporary(read.failure)
  }

  /** Polling ends at the poll `n`: the window is over, nothing can be expected because the stream ended
      properly without naming a runtime session, the wait was cut short, or the read failed for good. */
  ghost predicate PollStops(world: World, events: seq<Event>, last: Ending, n: nat) {
    || world.expired(n) || (LastId(events) == "" && last == Eof) || !world.waits(MAX_POSTS + n)
    || (world.loads(MAX_POSTS + n).NotLoaded? && !Temporary(world.loads(MAX_POSTS + n).failure))
  }

  /** The poll `n` was made and read nothing of use. */
  ghost predicate PolledAt(world: World, turn: Turn, events: seq<Event>, last: Ending, n: nat) {
    !PollStops(world, events, last, n) && Useless(world.loads(MAX_POSTS + n), turn, events)
  }

  /** The first so many polls were made and read nothing of use. */
  ghost predicate PolledOn(world: World, turn: Turn, events: seq<Event>, last: Ending, n: nat) {
    forall k :: 0 <= k < n ==> PolledAt(world, turn, events, last, k)
  }

  lemma NothingPolled(world: World, turn: Turn, events: seq<Event>, last: Ending)
    ensures PolledOn(world, turn, events, last, 0)
  {
  }

  lemma PolledMore(world: World, turn: Turn, events: seq<Event>, last: Ending, n: nat)
    requires PolledOn(world, turn, events, last, n) && !PollStops(world, events, last, n)
    requires Useless(world.loads(MAX_POSTS + n), turn, events)
    ensures PolledOn(world, turn, events, last, n + 1)
  {
    assert PolledAt(world, turn, events, last, n);
    hide PolledAt;
  }

  /** Every session that the first so many polls read completed nothing, and then the polling ended
      for a reason. */
  ghost predicate PolledInVain(world: World, turn: Turn, polls: nat, events: seq<Event>, last: Ending, n: nat) {
    n <= polls && PolledOn(world, turn, events, last, n) && (n == polls || PollStops(world, events, last, n))
  }

  /** The session was read by the poll `n`, and it is the first that completes the turn. */
  ghost predicate FirstUsable(world: World, turn: Turn, polls: nat, events: seq<Event>, last: Ending, session: SessionView, n: nat) {
    && n < polls && PolledOn(world, turn, events, last, n) && !PollStops(world, events, last, n)
    && world.loads(MAX_POSTS + n) == Loaded(session) && Completes(turn, session, events)
  }

  /** How a turn ends that went on to poll after so many POSTs. */
  ghost predicate PolledEnd(world: World, turn: Turn, polls: nat, posts: nat, last: Ending, item: Item, items: seq<Item>, recovered: Option<SessionView>) {
    var events := AllEvents(world, posts);
    if recovered.Some? then exists n :: FirstUsable(world, turn, polls, events, last, recovered.value, n)
    else (exists n :: PolledInVain(world, turn, polls, events, last, n)) && items == Wires(events) + [item]
  }

  /** How a turn ends after so many POSTs: a wait was cut short; the turn was decided by what came in, or
      by a read that failed for good; the session that was read completes it; or it went on to poll. */
  ghost predicate TurnEnd(world: World, turn: Turn, polls: nat, posts: nat, items: seq<Item>, recovered: Option<SessionView>)
    requires posts > 0
  {
    var events, end, read := AllEvents(world, posts), world.attempts(posts - 1).end, world.loads(posts - 1);
    if posts < MAX_POSTS && SafeToRepost(world, turn, posts) then
      !world.waits(posts) && recovered == None && items == Wires(events) + [Terminal(Failed(Cancelled))]
    else if Over(world, posts) || (read.NotLoaded? && !Temporary(read.failure)) then
      recovered == None && items == Wires(events) + [Ended(end, world.cancelled(posts))]
    else if read.Loaded? && Completes(turn, read.session, events) then recovered == Some(read.session)
    else PolledEnd(world, turn, polls, posts, end, Ended(end, world.cancelled(posts + 1)), items, recovered)
  }

  /** The rest of startRecoverableTurn: within the window, the session is read until its receipt
      completes the turn. */
  method PollReceipt(turn: Turn, world: World, polls: nat, delivered: seq<Item>, state: AgentTurnRecoveryState, last: Ending, check: nat, ghost posts: nat)
    returns (items: seq<Item>, recovered: Option<SessionView>)
    requires delivered == Wires(AllEvents(world, posts)) && state.Abstract() == ObservedAll(NOTHING, AllEvents(world, posts))
    requires OwnEnding(world, posts, last)
    ensures Delivered(world, turn, posts, items, recovered) && WellEnded(items)
    ensures PolledEnd(world, turn, polls, posts, last, Ended(last, world.cancelled(check)), items, recovered)
  {
    hide ObservedAll, Wires, Recovered, RecoveredFrom, WellEnded, AllEvents, Completes, Overflows, LastId, PolledOn;
    ghost var events := AllEvents(world, posts);
    ObservedIs(events);
    NothingPolled(world, turn, events, last);
    var poll := 0;
    while poll < polls && !world.expired(poll)
      invariant poll <= polls && PolledOn(world, turn, events, last, poll)
      invariant state.runtimeId == LastId(events)
    {
      if state.runtimeId == "" && last == Eof {
        break;
      }
      if !world.waits(MAX_POSTS + poll) {
        break;
      }
      var read := world.loads(MAX_POSTS + poll);
      if read.NotLoaded? {
        if RetryableRead(read.failure) {
          PolledMore(world, turn, events, last, poll);
          poll := poll + 1;
          continue;
        }
        break;
      }
      var completion := Recovered(turn, read.session, state.Abstract());
      RecoveredIff(turn, read.session, events);
      if completion.Some? {
        RecoveryIs(turn, read.session, events);
        items := delivered + completion.value;
        RecoveredEndsWell(turn, read.session, events, items);
        recovered := Some(read.session);
        assert FirstUsable(world, turn, polls, events, last, read.session, poll);
        return;
      }
      PolledMore(world, turn, events, last, poll);
      poll := poll + 1;
    }
    assert PolledInVain(world, turn, polls, events, last, poll);
    EndsWell(events, Ended(last, world.cancelled(check)));
    items, recovered := delivered + [Ended(last, world.cancelled(check))], None;
  }

  lemma NoEvents(world: World)
    ensures Wires(AllEvents(world, 0)) == [] && ObservedAll(NOTHING, AllEvents(world, 0)) == NOTHING
  {
  }

  lemma MoreEvents(world: World, posts: nat)
    ensures AllEvents(world, posts + 1) == AllEvents(world, posts) + world.attempts(posts).events
  {
  }

  lemma OverIsUnsafe(world: World, turn: Turn, posts: nat)
    requires posts > 0
    ensures SafeToRepost(world, turn, posts) ==>
              && !Over(world, posts) && world.loads(posts - 1).Loaded?
              && !Completes(turn, world.loads(posts - 1).session, AllEvents(world, posts))
  {
  }

  lemma EndsCutShort(world: World, turn: Turn, polls: nat, posts: nat)
    requires 0 < posts < MAX_POSTS && SafeToRepost(world, turn, posts) && !world.waits(posts)
    ensures var items := Wires(AllEvents(world, posts)) + [Terminal(Failed(Cancelled))];
            TurnEnd(world, turn, polls, posts, items, None) && Delivered(world, turn, posts, items, None) && WellEnded(items)
  {
    hide Wires, SafeToRepost;
    EndsWell(AllEvents(world, posts), Terminal(Failed(Cancelled)));
    assert OwnEnding(world, posts, Failed(Cancelled));
  }

  lemma EndsDecided(world: World, turn: Turn, polls: nat, posts: nat)
    requires posts > 0
    requires Over(world, posts) || (world.loads(posts - 1).NotLoaded? && !Temporary(world.loads(posts - 1).failure))
    ensures var items := Wires(AllEvents(world, posts)) + [Ended(world.attempts(posts - 1).end, world.cancelled(posts))];
            TurnEnd(world, turn, polls, posts, items, None) && Delivered(world, turn, posts, items, None) && WellEnded(items)
  {
    hide Wires, Over;
    var end := world.attempts(posts - 1).end;
    EndsWell(AllEvents(world, posts), Ended(end, world.cancelled(posts)));
    assert OwnEnding(world, posts, if world.cancelled(posts) then Failed(Cancelled) else end);
  }

  lemma EndsRecovered(world: World, turn: Turn, polls: nat, posts: nat, session: SessionView, items: seq<Item>)
    requires posts > 0 && !Over(world, posts) && world.loads(posts - 1) == Loaded(session)
    requires Completes(turn, session, AllEvents(world, posts)) && RecoveredFrom(turn, session, AllEvents(world, posts), items)
    ensures TurnEnd(world, turn, polls, posts, items, Some(session)) && Delivered(world, turn, posts, items, Some(session)) && WellEnded(items)
  {
    hide Over, Completes;
    RecoveredEndsWell(turn, session, AllEvents(world, posts), items);
  }

  lemma EndsPolled(world: World, turn: Turn, polls: nat, posts: nat, items: seq<Item>, recovered: Option<SessionView>)
    requires posts > 0 && !Over(world, posts) && !(posts < MAX_POSTS && SafeToRepost(world, turn, posts))
    requires if world.loads(posts - 1).NotLoaded? then Temporary(world.loads(posts - 1).failure)
             else !Completes(turn, world.loads(posts - 1).session, AllEvents(world, posts))
    requires var end := world.attempts(posts - 1).end;
             PolledEnd(world, turn, polls, posts, end, Ended(end, world.cancelled(posts + 1)), items, recovered)
    ensures TurnEnd(world, turn, polls, posts, items, recovered)
  {
    hide Over, Completes, PolledEnd;
  }

  /** startRecoverableTurn. `polls` bounds the reads that fit into the recovery window after the last
      POST. Each POST carries the one body; a further POST is sent only when that is safe. */
  method StartRecoverableTurn(turn: Turn, body: string, world: World, polls: nat)
    returns (items: seq<Item>, posts: seq<string>, recovered: Option<SessionView>)
    ensures 1 <= |posts| <= MAX_POSTS && forall k :: 0 <= k < |posts| ==> posts[k] == body
    ensures forall k :: 0 < k < |posts| ==> SafeToRepost(world, turn, k) && world.waits(k)
    ensures Delivered(world, turn, |posts|, items, recovered)
    ensures WellEnded(items)
    ensures TurnEnd(world, turn, polls, |posts|, items, recovered)
  {
    hide ObservedAll, Wires, Recovered, RecoveredFrom, SafeToRepost, WellEnded, AllEvents, Over, Completes, Retryable, TurnEnd,
         Delivered, PolledEnd, Observed, TextOf;
    var state := new AgentTurnRecoveryState();
    items, posts, recovered := [], [], None;
    var last := Eof;
    var checks := 0;
    NoEvents(world);
    while |posts| < MAX_POSTS
      invariant |posts| <= MAX_POSTS && forall k :: 0 <= k < |posts| ==> posts[k] == body
      invariant forall k :: 0 < k < |posts| ==> SafeToRepost(world, turn, k) && world.waits(k)
      invariant |posts| > 0 ==> SafeToRepost(world, turn, |posts|)
      invariant fresh(state) && items == Wires(AllEvents(world, |posts|))
      invariant state.Abstract() == ObservedAll(NOTHING, AllEvents(world, |posts|))
      invariant |posts| > 0 ==> last == world.attempts(|posts| - 1).end
      invariant checks == |posts|
      decreases MAX_POSTS - |posts|
    {
      var post := |posts|;
      if post > 0 && !world.waits(post) {
        EndsCutShort(world, turn, polls, post);
        items := items + [Terminal(Failed(Cancelled))];
        return;
      }
      var attempt := world.attempts(post);
      posts := posts + [body];
      MoreEvents(world, post);
      items := ForwardAttempt(state, attempt, items, AllEvents(world, post));
      last := attempt.end;
      checks := checks + 1;
      OverIs(world, |posts|, state.Abstract());
      if state.done || world.cancelled(checks) || state.tooMuch || !Retryable(last, post > 0) {
        EndsDecided(world, turn, polls, |posts|);
        items := items + [Ended(last, world.cancelled(checks))];
        return;
      }
      var read := world.loads(post);
      if read.NotLoaded? {
        UnsafeStep(world, turn, |posts|, state.Abstract());
        if RetryableRead(read.failure) {
          break;
        }
        EndsDecided(world, turn, polls, |posts|);
        items := items + [Ended(last, world.cancelled(checks))];
        return;
      }
      var completion := Recovered(turn, read.session, state.Abstract());
      RecoveredIff(turn, read.session, AllEvents(world, |posts|));
      if completion.Some? {
        RecoveryIs(turn, read.session, AllEvents(world, |posts|));
        items := items + completion.value;
        EndsRecovered(world, turn, polls, |posts|, read.session, items);
        recovered := Some(read.session);
        return;
      }
      if state.material || read.session.revision != turn.expectedRevision {
        UnsafeStep(world, turn, |posts|, state.Abstract());
        break;
      }
      SafeStep(world, turn, |posts|, state.Abstract());
    }
    OverIsUnsafe(world, turn, |posts|);
    items, recovered := PollReceipt(turn, world, polls, items, state, last, checks + 1, |posts|);
    EndsPolled(world, turn, polls, |posts|, items, recovered);
  }

  /** What follows for the consumer: exactly one terminal item, at the end; a recovered turn delivers
      the committed text, no more and no less; and a turn that is not recovered delivers every event of
      its POSTs once, with at most one POST among them that delivered anything material. */
  lemma DeliveredOnce(world: World, turn: Turn, posts: nat, items: seq<Item>, recovered: Option<SessionView>)
    requires Delivered(world, turn, posts, items, recovered) && posts > 0
    requires forall k :: 0 < k < posts ==> SafeToRepost(world, turn, k)
    ensures recovered.Some? ==> Receipted(turn, recovered.value) && TextOf(EventsOf(items)) == Committed(turn, recovered.value)
    ensures recovered.None? ==> EventsOf(items) == AllEvents(world, posts)
    ensures forall k, e :: 0 <= k < posts - 1 && e in world.attempts(k).events ==> !Material(e)
  {
    hide TextOf, Committed, Wires;
    if recovered.Some? {
      TextIsConserved(turn, recovered.value, AllEvents(world, posts), items);
    } else {
      var end :| OwnEnding(world, posts, end) && items == Wires(AllEvents(world, posts)) + [Terminal(end)];
      EventsOfAppend(Wires(AllEvents(world, posts)), Terminal(end));
      EventsOfWires(AllEvents(world, posts));
    }
    forall k, e | 0 <= k < posts - 1 && e in world.attempts(k).events ensures !Material(e) {
      assert SafeToRepost(world, turn, k + 1);
      assert e in AllEvents(world, k + 1);
    }
  }
}
