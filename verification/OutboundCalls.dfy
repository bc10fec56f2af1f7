/** Calls from the agent to its client (internal/acp/client.go `call`, internal/acp/connection.go
    `resolveResponse`): identifier allocation, the pending table and the delivery of responses. */
module OutboundCalls {
  import opened Text
  import opened Wrappers

  const MAX_INT64: int := 0x7FFF_FFFF_FFFF_FFFF

  /** A JSON-RPC 2.0 request identifier (section 4 of the JSON-RPC 2.0 specification). */
  datatype RequestId = StringId(text: string) | IntegerId(num: int) | NullId

  /** The table key of an identifier. */
  function Key(id: RequestId): string {
    match id
    case StringId(text) => "s:" + text
    case IntegerId(num) => "i:" + FormatInt(num)
    case NullId => "n:"
  }

  /** Different identifiers have different keys. */
  lemma KeyInjective(a: RequestId, b: RequestId)
    requires Key(a) == Key(b)
    ensures a == b
  {
    assert Key(a)[0] == Key(b)[0];
    assert Key(a)[2..] == Key(b)[2..];
    if a.IntegerId? && b.IntegerId? {
      FormatIntInjective(a.num, b.num);
    }
  }

  function NumKey(num: int): string {
    Key(IntegerId(num))
  }

  // ----- allocation -----

  /** The wrap at the top of the 64-bit range. */
  function Wrap(next: int): nat {
    if next <= 0 || next == MAX_INT64 then 1 else next
  }

  /** The identifier the allocation loop settles on, with so many attempts. */
  function Allocate(next: int, taken: set<string>, attempts: nat): nat
    requires attempts > 0
    decreases attempts
  {
    var num := Wrap(next);
    if attempts == 1 || NumKey(num) !in taken then num else Allocate(num + 1, taken, attempts - 1)
  }

  /** The identifiers tried in so many attempts. */
  ghost function Tried(next: int, attempts: nat): set<nat>
    decreases attempts
  {
    if attempts == 0 then {} else {Wrap(next)} + Tried(Wrap(next) + 1, attempts - 1)
  }

  /** The identifiers a window of the cycle 1 .. MAX_INT64 - 1 contains. */
  ghost predicate InWindow(next: int, attempts: nat, num: nat) {
    var first := Wrap(next);
    first <= num < first + attempts || (1 <= num <= first + attempts - MAX_INT64)
  }

  lemma WindowGrows(next: int, attempts: nat, num: nat)
    requires next <= MAX_INT64 && 0 < attempts <= MAX_INT64 - 1
    requires InWindow(Wrap(next) + 1, attempts - 1, num) && 1 <= num < MAX_INT64
    ensures InWindow(next, attempts, num) && num != Wrap(next)
  {
    var first := Wrap(next);
    var second := Wrap(first + 1);
    assert second == if first == MAX_INT64 - 1 then 1 else first + 1;
    assert second <= num < second + attempts - 1 || 1 <= num <= second + attempts - 1 - MAX_INT64;
    if second == 1 {
      assert num <= attempts - 1;
    }
  }

  lemma FirstInWindow(next: int, attempts: nat)
    requires next <= MAX_INT64 && attempts > 0
    ensures InWindow(next, attempts, Wrap(next)) && 1 <= Wrap(next) < MAX_INT64
  {
  }

  lemma {:induction false} TriedIsWindow(next: int, attempts: nat)
    requires next <= MAX_INT64 && attempts <= MAX_INT64 - 1
    ensures forall num :: num in Tried(next, attempts) ==> InWindow(next, attempts, num) && 1 <= num < MAX_INT64
    ensures |Tried(next, attempts)| == attempts
    decreases attempts
  {
    hide InWindow, Wrap;
    if attempts > 0 {
      var first := Wrap(next);
      FirstInWindow(next, attempts);
      var rest := Tried(first + 1, attempts - 1);
      TriedIsWindow(first + 1, attempts - 1);
      forall num | num in rest ensures InWindow(next, attempts, num) && num != first {
        WindowGrows(next, attempts, num);
      }
      assert Tried(next, attempts) == {first} + rest && first !in rest;
    }
  }

  lemma {:induction false} AllTriedTaken(next: int, taken: set<string>, attempts: nat)
    requires attempts > 0 && NumKey(Allocate(next, taken, attempts)) in taken
    ensures forall num :: num in Tried(next, attempts) ==> NumKey(num) in taken
    decreases attempts
  {
    if attempts > 1 {
      AllTriedTaken(Wrap(next) + 1, taken, attempts - 1);
    } else {
      assert Tried(Wrap(next) + 1, 0) == {};
    }
  }

  /** Numbers cannot outnumber their keys. */
  lemma {:induction false} KeysCount(nums: set<nat>, keys: set<string>)
    requires forall num :: num in nums ==> NumKey(num) in keys
    ensures |nums| <= |keys|
    decreases |nums|
  {
    if nums != {} {
      var num :| num in nums;
      forall other | other in nums - {num} ensures NumKey(other) in keys - {NumKey(num)} {
        if NumKey(other) == NumKey(num) {
          KeyInjective(IntegerId(other), IntegerId(num));
        }
      }
      KeysCount(nums - {num}, keys - {NumKey(num)});
    }
  }

  /** With fewer calls pending than attempts, the allocated identifier is unused: so many
      consecutive candidates are distinct even across the wrap. */
  lemma AllocatedIsFresh(next: int, taken: set<string>, attempts: nat)
    requires next <= MAX_INT64
    requires |taken| < attempts <= MAX_INT64 - 1
    ensures NumKey(Allocate(next, taken, attempts)) !in taken
  {
    if NumKey(Allocate(next, taken, attempts)) in taken {
      AllTriedTaken(next, taken, attempts);
      TriedIsWindow(next, attempts);
      KeysCount(Tried(next, attempts), taken);
    }
  }

  lemma {:induction false} AllocatedRange(next: int, taken: set<string>, attempts: nat)
    requires next <= MAX_INT64 && attempts > 0
    ensures 1 <= Allocate(next, taken, attempts) < MAX_INT64
    decreases attempts
  {
    if attempts > 1 && NumKey(Wrap(next)) in taken {
      AllocatedRange(Wrap(next) + 1, taken, attempts - 1);
    }
  }

  // ----- the protocol over a whole connection -----

  /** An entry of the pending table: the call it belongs to, and its one-place response channel. */
  datatype Pending = Pending(call: nat, response: Option<string>)

  /** A response that reached a call: the call whose request the peer answered, if it was one that was
      ever sent, the call that received the answer, and the answer. */
  datatype Delivery = Delivery(answers: Option<nat>, reached: nat, payload: string)

  /** Calls are numbered in the order they were sent; `sent[c]` is the identifier of call `c`. */
  datatype State = State(
    maxInflight: nat,
    nextRequest: int,
    pending: map<string, Pending>,
    sent: seq<int>,
    finished: set<nat>,
    deliveries: seq<Delivery>)

  datatype Step =
    | Begin                                 // a call starts, unless too many are pending
    | Answer(call: nat, payload: string)    // the peer answers a request it was ever sent, at any time
    | Stray(id: RequestId, payload: string) // the peer answers something it was never asked
    | Finish(call: nat)                     // a call returns and cleans up

  function Init(maxInflight: nat): State {
    State(maxInflight, 1, map[], [], {}, [])
  }

  function BeginStep(s: State): State {
    if |s.pending| >= s.maxInflight then s
    else
      var num := Allocate(s.nextRequest, s.pending.Keys, s.maxInflight + 1);
      s.(nextRequest := num + 1,
         pending := s.pending[NumKey(num) := Pending(|s.sent|, None)],
         sent := s.sent + [num])
  }

  /** resolveResponse: the entry under the response's key receives it, unless it already has one. */
  function Deliver(s: State, id: RequestId, answers: Option<nat>, payload: string): State {
    var key := Key(id);
    if key !in s.pending || s.pending[key].response.Some? then s
    else s.(pending := s.pending[key := s.pending[key].(response := Some(payload))],
            deliveries := s.deliveries + [Delivery(answers, s.pending[key].call, payload)])
  }

  function AnswerStep(s: State, call: nat, payload: string): State {
    if call >= |s.sent| then s else Deliver(s, IntegerId(s.sent[call]), Some(call), payload)
  }

  /** The identifier is that of a request that was sent. */
  predicate EverSent(s: State, id: RequestId) {
    exists call :: 0 <= call < |s.sent| && id == IntegerId(s.sent[call])
  }

  function StrayStep(s: State, id: RequestId, payload: string): State {
    if EverSent(s, id) then s else Deliver(s, id, None, payload)
  }

  predicate Active(s: State, call: nat) {
    call < |s.sent| && call !in s.finished
  }

  function FinishStep(s: State, call: nat): State {
    if !Active(s, call) then s
    else s.(pending := s.pending - {NumKey(s.sent[call])}, finished := s.finished + {call})
  }

  function Next(s: State, step: Step): State {
    match step
    case Begin => BeginStep(s)
    case Answer(call, payload) => AnswerStep(s, call, payload)
    case Stray(id, payload) => StrayStep(s, id, payload)
    case Finish(call) => FinishStep(s, call)
  }

  function Run(s: State, steps: seq<Step>): State
    decreases |steps|
  {
    if steps == [] then s else Run(Next(s, steps[0]), steps[1..])
  }

  ghost predicate OwnEntry(s: State, call: nat)
    requires call < |s.sent|
  {
    NumKey(s.sent[call]) in s.pending && s.pending[NumKey(s.sent[call])].call == call
  }

  /** The pending table holds exactly one entry for every active call, under its own identifier. */
  ghost predicate Inv(s: State) {
    && s.maxInflight < MAX_INT64 - 1
    && 1 <= s.nextRequest <= MAX_INT64
    && |s.pending| <= s.maxInflight
    && (forall key :: key in s.pending ==> Active(s, s.pending[key].call) && key == NumKey(s.sent[s.pending[key].call]))
    && (forall call: nat :: Active(s, call) ==> OwnEntry(s, call))
    && (forall call :: call in s.finished ==> call < |s.sent|)
    && (forall d :: d in s.deliveries ==> d.answers.Some?)
  }

  /** Until the identifiers wrap they are handed out in order, so none is ever used twice. */
  ghost predicate InOrder(s: State) {
    |s.sent| <= MAX_INT64 - 2 ==>
      && s.nextRequest == |s.sent| + 1
      && (forall call :: 0 <= call < |s.sent| ==> s.sent[call] == call + 1)
      && (forall d :: d in s.deliveries ==> d.answers == Some(d.reached))
  }

  /** The call has returned, or its channel is full. */
  predicate Served(s: State, call: nat) {
    call < |s.sent| && (call in s.finished || (NumKey(s.sent[call]) in s.pending && s.pending[NumKey(s.sent[call])].response.Some?))
  }

  /** No call receives two responses. */
  ghost predicate OnceInv(s: State) {
    && (forall i :: 0 <= i < |s.deliveries| ==> Served(s, s.deliveries[i].reached))
    && (forall i, j :: 0 <= i < j < |s.deliveries| ==> s.deliveries[i].reached != s.deliveries[j].reached)
  }

  /** Sending an unused identifier keeps the table exact. */
  lemma SendKeepsInv(s: State, num: int)
    requires Inv(s) && |s.pending| < s.maxInflight && 1 <= num < MAX_INT64
    requires NumKey(num) !in s.pending
    ensures Inv(s.(nextRequest := num + 1, pending := s.pending[NumKey(num) := Pending(|s.sent|, None)], sent := s.sent + [num]))
  {
    hide NumKey;
    var t := s.(nextRequest := num + 1, pending := s.pending[NumKey(num) := Pending(|s.sent|, None)], sent := s.sent + [num]);
    assert t.pending.Keys == s.pending.Keys + {NumKey(num)};
    assert |t.pending.Keys| == |s.pending.Keys| + 1;
    forall key | key in t.pending
      ensures Active(t, t.pending[key].call) && key == NumKey(t.sent[t.pending[key].call])
    {
      if key != NumKey(num) {
        assert key in s.pending && Active(s, s.pending[key].call);
      }
    }
    forall call: nat | Active(t, call) ensures OwnEntry(t, call) {
      if call < |s.sent| {
        assert Active(s, call) && OwnEntry(s, call);
      }
    }
  }

  lemma InvBounds(s: State)
    requires Inv(s)
    ensures 1 <= s.nextRequest <= MAX_INT64 && |s.pending| <= s.maxInflight < MAX_INT64 - 1
  {
  }

  lemma BeginIsFresh(s: State)
    requires Inv(s) && |s.pending| < s.maxInflight
    ensures var num := Allocate(s.nextRequest, s.pending.Keys, s.maxInflight + 1);
            NumKey(num) !in s.pending && 1 <= num < MAX_INT64
  {
    assert |s.pending.Keys| == |s.pending|;
    AllocatedIsFresh(s.nextRequest, s.pending.Keys, s.maxInflight + 1);
    AllocatedRange(s.nextRequest, s.pending.Keys, s.maxInflight + 1);
  }

  lemma BeginKeepsInv(s: State)
    requires Inv(s)
    ensures Inv(BeginStep(s))
  {
    hide Inv, Allocate, NumKey;
    if |s.pending| < s.maxInflight {
      BeginIsFresh(s);
      SendKeepsInv(s, Allocate(s.nextRequest, s.pending.Keys, s.maxInflight + 1));
    }
  }

  lemma DeliverKeepsInv(s: State, id: RequestId, call: nat, payload: string)
    requires Inv(s)
    ensures Inv(Deliver(s, id, Some(call), payload))
  {
    hide NumKey, Key;
    var t := Deliver(s, id, Some(call), payload);
    assert t.pending.Keys == s.pending.Keys;
    assert |t.pending.Keys| == |s.pending.Keys|;
    forall c: nat | Active(t, c) ensures OwnEntry(t, c) {
      assert Active(s, c) && OwnEntry(s, c);
    }
  }

  lemma AnswerKeepsInv(s: State, call: nat, payload: string)
    requires Inv(s)
    ensures Inv(AnswerStep(s, call, payload))
  {
    hide Inv, Deliver;
    if call < |s.sent| {
      DeliverKeepsInv(s, IntegerId(s.sent[call]), call, payload);
    }
  }

  /** A response to an identifier that was never sent finds no entry. */
  lemma StrayIsDropped(s: State, id: RequestId, payload: string)
    requires Inv(s) && !EverSent(s, id)
    ensures Key(id) !in s.pending && Deliver(s, id, None, payload) == s
  {
    if Key(id) in s.pending {
      KeyInjective(id, IntegerId(s.sent[s.pending[Key(id)].call]));
    }
  }

  lemma FinishKeepsInv(s: State, call: nat)
    requires Inv(s)
    ensures Inv(FinishStep(s, call))
  {
    if Active(s, call) {
      var t := FinishStep(s, call);
      assert OwnEntry(s, call);
      assert t.pending.Keys == s.pending.Keys - {NumKey(s.sent[call])};
      assert |t.pending.Keys| == |s.pending.Keys| - 1;
      forall c: nat | Active(t, c) ensures OwnEntry(t, c) {
        assert Active(s, c) && OwnEntry(s, c);
      }
    }
  }

  lemma NextKeepsInv(s: State, step: Step)
    requires Inv(s)
    ensures Inv(Next(s, step))
  {
    match step
    case Begin => BeginKeepsInv(s);
    case Answer(call, payload) => AnswerKeepsInv(s, call, payload);
    case Stray(id, payload) =>
      if !EverSent(s, id) {
        StrayIsDropped(s, id, payload);
      }
    case Finish(call) => FinishKeepsInv(s, call);
  }

  lemma NextKeepsOrder(s: State, step: Step)
    requires Inv(s) && InOrder(s)
    ensures InOrder(Next(s, step))
  {
    if step.Begin? && |s.pending| < s.maxInflight && |s.sent| < MAX_INT64 - 2 {
      var num := Wrap(s.nextRequest);
      assert num == |s.sent| + 1;
      if NumKey(num) in s.pending {
        KeyInjective(IntegerId(num), IntegerId(s.sent[s.pending[NumKey(num)].call]));
      }
    }
    if step.Answer? && step.call < |s.sent| {
      var key := NumKey(s.sent[step.call]);
      if key in s.pending {
        KeyInjective(IntegerId(s.sent[step.call]), IntegerId(s.sent[s.pending[key].call]));
      }
    }
    if step.Stray? && !EverSent(s, step.id) {
      StrayIsDropped(s, step.id, step.payload);
    }
  }

  lemma ActiveKeysDiffer(s: State, c: nat, d: nat)
    requires Inv(s) && Active(s, c) && Active(s, d) && c != d
    ensures NumKey(s.sent[c]) != NumKey(s.sent[d])
  {
    assert OwnEntry(s, c) && OwnEntry(s, d);
  }

  lemma ServedStays(s: State, step: Step, call: nat)
    requires Inv(s) && Served(s, call)
    ensures Served(Next(s, step), call)
  {
    hide NumKey, Key;
    if step.Begin? && |s.pending| < s.maxInflight {
      BeginIsFresh(s);
    }
    if step.Finish? && Active(s, step.call) && Active(s, call) && step.call != call {
      ActiveKeysDiffer(s, step.call, call);
    }
  }

  lemma DeliverOnce(s: State, id: RequestId, answers: Option<nat>, payload: string)
    requires Inv(s)
    ensures var t := Deliver(s, id, answers, payload);
            t == s || exists d :: t.deliveries == s.deliveries + [d] && Served(t, d.reached) && !Served(s, d.reached)
  {
    hide NumKey;
    var t := Deliver(s, id, answers, payload);
    if t != s {
      var d := Delivery(answers, s.pending[Key(id)].call, payload);
      assert t.deliveries == s.deliveries + [d] && Served(t, d.reached) && !Served(s, d.reached);
    }
  }

  lemma DeliveriesGrow(s: State, step: Step)
    ensures step.Begin? || step.Finish? ==> Next(s, step).deliveries == s.deliveries
  {
  }

  lemma NextKeepsOnce(s: State, step: Step)
    requires Inv(s) && OnceInv(s)
    ensures OnceInv(Next(s, step))
  {
    hide Inv, Served, BeginStep, FinishStep, Deliver;
    var t := Next(s, step);
    forall i | 0 <= i < |s.deliveries| ensures Served(t, s.deliveries[i].reached) {
      ServedStays(s, step, s.deliveries[i].reached);
    }
    DeliveriesGrow(s, step);
    if step.Answer? && step.call < |s.sent| {
      DeliverOnce(s, IntegerId(s.sent[step.call]), Some(step.call), step.payload);
    }
    if step.Stray? {
      DeliverOnce(s, step.id, None, step.payload);
    }
  }

  lemma {:induction false} RunIsSafe(s: State, steps: seq<Step>)
    requires Inv(s) && InOrder(s) && OnceInv(s)
    ensures Inv(Run(s, steps)) && InOrder(Run(s, steps)) && OnceInv(Run(s, steps))
    decreases |steps|
  {
    hide Inv, InOrder, OnceInv, Next;
    if steps != [] {
      NextKeepsInv(s, steps[0]);
      NextKeepsOrder(s, steps[0]);
      NextKeepsOnce(s, steps[0]);
      RunIsSafe(Next(s, steps[0]), steps[1..]);
    }
  }

  /** A returning call removes its own entry and leaves every other active call's entry alone. */
  lemma CleanupIsOwn(s: State, call: nat, other: nat)
    requires Inv(s) && Active(s, call) && Active(s, other) && call != other
    ensures var t := FinishStep(s, call);
            && NumKey(s.sent[call]) !in t.pending
            && OwnEntry(t, other)
            && t.pending[NumKey(s.sent[other])] == s.pending[NumKey(s.sent[other])]
  {
    assert OwnEntry(s, call) && OwnEntry(s, other);
  }

  // ----- what a call receives -----

  /** The response that an active call can read from its channel. */
  function ResponseOf(s: State, call: nat): Option<string> {
    if call < |s.sent| && NumKey(s.sent[call]) in s.pending then s.pending[NumKey(s.sent[call])].response else None
  }

  /** The answer to an active call that has none yet is what that call reads, and no other call's
      channel changes. */
  lemma AnswerIsHeld(s: State, call: nat, payload: string)
    requires Inv(s) && Active(s, call) && ResponseOf(s, call) == None
    ensures var t := Next(s, Answer(call, payload));
            && ResponseOf(t, call) == Some(payload)
            && (forall other: nat :: Active(s, other) && other != call ==> ResponseOf(t, other) == ResponseOf(s, other))
            && t.pending.Keys == s.pending.Keys && t.sent == s.sent && t.finished == s.finished && t.nextRequest == s.nextRequest
  {
    hide Key;
    assert OwnEntry(s, call);
    forall other: nat | Active(s, other) && other != call
      ensures ResponseOf(Next(s, Answer(call, payload)), other) == ResponseOf(s, other)
    {
      ActiveKeysDiffer(s, call, other);
    }
  }

  /** A call that begins is active, has read nothing, and disturbs no other; it does not begin when too many
      are pending. */
  lemma BegunUnanswered(s: State)
    requires Inv(s)
    ensures var t, call := Next(s, Begin), |s.sent|;
            if |s.pending| >= s.maxInflight then t == s
            else
              && |t.sent| == |s.sent| + 1 && s.sent <= t.sent && t.finished == s.finished && t.deliveries == s.deliveries
              && Active(t, call) && ResponseOf(t, call) == None
              && (forall other: nat :: Active(s, other) ==> Active(t, other) && ResponseOf(t, other) == ResponseOf(s, other))
  {
    hide NumKey, Allocate;
    if |s.pending| < s.maxInflight {
      BeginIsFresh(s);
      forall other: nat | Active(s, other) ensures ResponseOf(Next(s, Begin), other) == ResponseOf(s, other) {
        assert OwnEntry(s, other);
      }
      assert |s.sent| !in s.finished;
    }
  }

  /** What a call has received stays until it returns. */
  lemma ResponseStays(s: State, step: Step, call: nat)
    requires Inv(s) && Active(s, call) && step != Finish(call)
    ensures var t := Next(s, step);
            Active(t, call) && (ResponseOf(s, call).Some? ==> ResponseOf(t, call) == ResponseOf(s, call))
  {
    hide NumKey, Key;
    assert OwnEntry(s, call);
    if step.Begin? && |s.pending| < s.maxInflight {
      BeginIsFresh(s);
    }
    if step.Finish? && Active(s, step.call) {
      ActiveKeysDiffer(s, call, step.call);
    }
  }

  lemma {:induction false} ReadUntilReturn(s: State, call: nat, later: seq<Step>)
    requires Inv(s) && Active(s, call) && ResponseOf(s, call).Some? && Finish(call) !in later
    ensures ResponseOf(Run(s, later), call) == ResponseOf(s, call)
    decreases |later|
  {
    hide Inv, Next;
    if later != [] {
      ResponseStays(s, later[0], call);
      NextKeepsInv(s, later[0]);
      ReadUntilReturn(Next(s, later[0]), call, later[1..]);
    }
  }

  /** The peer's first answer to a call is what the call reads, whatever happens until it returns. */
  lemma {:induction false} FirstAnswerIsRead(s: State, call: nat, payload: string, later: seq<Step>)
    requires Inv(s) && Active(s, call) && ResponseOf(s, call) == None && Finish(call) !in later
    ensures ResponseOf(Run(Next(s, Answer(call, payload)), later), call) == Some(payload)
  {
    hide Inv, Next;
    AnswerIsHeld(s, call, payload);
    NextKeepsInv(s, Answer(call, payload));
    ResponseStays(s, Answer(call, payload), call);
    ReadUntilReturn(Next(s, Answer(call, payload)), call, later);
  }

  /** What an active call reads is the answer of one of the deliveries to it. */
  ghost predicate ReadInv(s: State) {
    forall call: nat :: Active(s, call) && ResponseOf(s, call).Some? ==>
      exists i :: 0 <= i < |s.deliveries| && s.deliveries[i].reached == call && ResponseOf(s, call) == Some(s.deliveries[i].payload)
  }

  /** A delivery was made by an answer of the peer among the steps. */
  ghost predicate Sent(steps: seq<Step>, d: Delivery) {
    d.answers.Some? && Answer(d.answers.value, d.payload) in steps
  }

  /** A step that changes what a call reads delivers to it. */
  lemma ReadAfter(s: State, step: Step, call: nat)
    requires Inv(s) && Active(Next(s, step), call) && ResponseOf(Next(s, step), call).Some?
    ensures var t := Next(s, step);
            || (Active(s, call) && ResponseOf(t, call) == ResponseOf(s, call))
            || (|t.deliveries| == |s.deliveries| + 1 && t.deliveries[|s.deliveries|].reached == call
                && ResponseOf(t, call) == Some(t.deliveries[|s.deliveries|].payload))
  {
    hide NumKey, Key;
    if Active(s, call) {
      assert OwnEntry(s, call);
    }
    if step.Begin? && |s.pending| < s.maxInflight {
      BeginIsFresh(s);
    }
    if step.Finish? && Active(s, step.call) && Active(s, call) && step.call != call {
      ActiveKeysDiffer(s, call, step.call);
    }
    if step.Stray? && !EverSent(s, step.id) {
      StrayIsDropped(s, step.id, step.payload);
    }
  }

  lemma NextKeepsRead(s: State, step: Step)
    requires Inv(s) && ReadInv(s)
    ensures ReadInv(Next(s, step))
    ensures forall d :: d in Next(s, step).deliveries ==> d in s.deliveries || Sent([step], d)
  {
    hide NumKey, Key;
    var t := Next(s, step);
    if step.Begin? && |s.pending| < s.maxInflight {
      BeginIsFresh(s);
    }
    if step.Stray? && !EverSent(s, step.id) {
      StrayIsDropped(s, step.id, step.payload);
    }
    assert forall i :: 0 <= i < |s.deliveries| ==> t.deliveries[i] == s.deliveries[i];
    forall call: nat | Active(t, call) && ResponseOf(t, call).Some?
      ensures exists i :: 0 <= i < |t.deliveries| && t.deliveries[i].reached == call && ResponseOf(t, call) == Some(t.deliveries[i].payload)
    {
      ReadAfter(s, step, call);
      if ResponseOf(t, call) == ResponseOf(s, call) && Active(s, call) {
        var i :| 0 <= i < |s.deliveries| && s.deliveries[i].reached == call && ResponseOf(s, call) == Some(s.deliveries[i].payload);
        assert t.deliveries[i] == s.deliveries[i];
      } else {
        assert t.deliveries[|s.deliveries|].reached == call;
      }
    }
  }

  lemma {:induction false} RunKeepsRead(s: State, steps: seq<Step>)
    requires Inv(s) && ReadInv(s)
    ensures ReadInv(Run(s, steps))
    ensures forall d :: d in Run(s, steps).deliveries ==> d in s.deliveries || Sent(steps, d)
    decreases |steps|
  {
    hide Inv, ReadInv, Next;
    if steps != [] {
      NextKeepsInv(s, steps[0]);
      NextKeepsRead(s, steps[0]);
      RunKeepsRead(Next(s, steps[0]), steps[1..]);
    }
  }

  lemma NothingRead(maxInflight: nat)
    requires maxInflight < MAX_INT64 - 1
    ensures Inv(Init(maxInflight)) && ReadInv(Init(maxInflight))
  {
  }

  lemma ReadHasDelivery(s: State, call: nat)
    requires ReadInv(s) && Active(s, call) && ResponseOf(s, call).Some?
    ensures exists i :: 0 <= i < |s.deliveries| && s.deliveries[i].reached == call && ResponseOf(s, call) == Some(s.deliveries[i].payload)
  {
  }

  /** In every run, what an active call reads was answered by the peer, and until the identifiers wrap it
      was answered to that very call. */
  lemma ReadWasAnswered(maxInflight: nat, steps: seq<Step>, call: nat)
    requires maxInflight < MAX_INT64 - 1
    requires var s := Run(Init(maxInflight), steps); Active(s, call) && ResponseOf(s, call).Some?
    ensures var s := Run(Init(maxInflight), steps);
            && (exists asked: nat :: Answer(asked, ResponseOf(s, call).value) in steps)
            && (|s.sent| <= MAX_INT64 - 2 ==> Answer(call, ResponseOf(s, call).value) in steps)
  {
    hide ReadInv, ResponseOf;
    var s := Run(Init(maxInflight), steps);
    RunKeepsRead(Init(maxInflight), steps) by {
      NothingRead(maxInflight);
    }
    RunIsSafe(Init(maxInflight), steps);
    ReadHasDelivery(s, call);
    var i :| 0 <= i < |s.deliveries| && s.deliveries[i].reached == call && ResponseOf(s, call) == Some(s.deliveries[i].payload);
    var d := s.deliveries[i];
    assert d in s.deliveries && Sent(steps, d);
  }

  /** Over every run each active call owns exactly its entry and has an identifier of its own, no call
      receives two responses, none receives a response to something that was never asked, what a call
      reads is the content of the one response it received, and as long as fewer than MAX_INT64 - 1 calls
      were made every response reached the call whose request it answers. */
  lemma ConnectionIsSafe(maxInflight: nat, steps: seq<Step>)
    requires maxInflight < MAX_INT64 - 1
    ensures var s := Run(Init(maxInflight), steps);
            && Inv(s)
            && (forall c: nat, d: nat :: Active(s, c) && Active(s, d) && c != d ==> s.sent[c] != s.sent[d])
            && (forall i, j :: 0 <= i < j < |s.deliveries| ==> s.deliveries[i].reached != s.deliveries[j].reached)
            && (forall d :: d in s.deliveries ==> d.answers.Some?) && ReadInv(s)
            && (|s.sent| <= MAX_INT64 - 2 ==> forall d :: d in s.deliveries ==> d.answers == Some(d.reached))
  {
    hide ReadInv;
    NothingRead(maxInflight);
    RunKeepsRead(Init(maxInflight), steps);
    RunIsSafe(Init(maxInflight), steps);
    var s := Run(Init(maxInflight), steps);
    forall c: nat, d: nat | Active(s, c) && Active(s, d) && c != d ensures s.sent[c] != s.sent[d] {
      ActiveKeysDiffer(s, c, d);
    }
  }

  // ----- after the wrap -----

  /** Which call an answer reaches: the active one that now carries the identifier. */
  lemma AnswerReaches(s: State, call: nat, payload: string, reached: nat)
    requires Inv(s) && call < |s.sent|
    ensures AnswerStep(s, call, payload).deliveries == s.deliveries + [Delivery(Some(call), reached, payload)] <==>
            && Active(s, reached) && s.sent[reached] == s.sent[call]
            && s.pending[NumKey(s.sent[reached])].response == None
  {
    var key := NumKey(s.sent[call]);
    if Active(s, reached) {
      assert OwnEntry(s, reached);
    }
    if key in s.pending {
      KeyInjective(IntegerId(s.sent[call]), IntegerId(s.sent[s.pending[key].call]));
    }
    var t := AnswerStep(s, call, payload);
    if t.deliveries == s.deliveries + [Delivery(Some(call), reached, payload)] {
      assert t.deliveries[|s.deliveries|] == Delivery(Some(call), reached, payload);
    }
  }

  /** So many calls, each returning before the next one starts. */
  ghost function Rounds(n: nat): seq<Step> {
    if n == 0 then [] else Rounds(n - 1) + [Begin, Finish(n - 1)]
  }

  lemma {:induction false} RunAppend(s: State, first: seq<Step>, second: seq<Step>)
    ensures Run(s, first + second) == Run(Run(s, first), second)
    decreases |first|
  {
    if first == [] {
      assert first + second == second;
    } else {
      assert (first + second)[1..] == first[1..] + second;
      RunAppend(Next(s, first[0]), first[1..], second);
    }
  }

  ghost function Below(n: nat): set<nat> {
    if n == 0 then {} else Below(n - 1) + {n - 1}
  }

  lemma {:induction false} BelowIs(n: nat)
    ensures forall c :: c in Below(n) ==> c < n
  {
    if n > 0 {
      BelowIs(n - 1);
    }
  }

  lemma TwoSteps(s: State, first: Step, second: Step)
    ensures Run(s, [first, second]) == Next(Next(s, first), second)
  {
    assert [first, second][1..] == [second];
    assert [second][1..] == [];
    assert Run(Next(s, first), [second]) == Next(Next(s, first), second);
  }

  lemma OneRound(s: State, n: nat)
    requires 0 < n <= MAX_INT64 - 1 && s == State(1, n, map[], seq(n - 1, i => i + 1), s.finished, [])
    requires n - 1 !in s.finished
    ensures FinishStep(BeginStep(s), n - 1) ==
            State(1, n + 1, map[], seq(n, i => i + 1), s.finished + {n - 1}, [])
  {
    var t := BeginStep(s);
    assert Wrap(s.nextRequest) == n;
    assert t.sent == seq(n, i => i + 1);
    assert t.pending == map[NumKey(n) := Pending(n - 1, None)];
    assert t.pending - {NumKey(n)} == map[];
  }

  lemma {:induction false} AfterRounds(n: nat)
    requires n <= MAX_INT64 - 1
    ensures Run(Init(1), Rounds(n)) == State(1, n + 1, map[], seq(n, i => i + 1), Below(n), [])
  {
    if n == 0 {
      assert Init(1).sent == seq(0, i => i + 1);
    } else {
      AfterRounds(n - 1);
      BelowIs(n - 1);
      var s := Run(Init(1), Rounds(n - 1));
      RunAppend(Init(1), Rounds(n - 1), [Begin, Finish(n - 1)]);
      TwoSteps(s, Begin, Finish(n - 1));
      OneRound(s, n);
    }
  }

  /** Once the identifiers have wrapped, a late second answer to the very first call can reach a
      new call that was given the first identifier again. */
  lemma LateAnswerAfterWrap()
    ensures exists steps :: Delivery(Some(0), MAX_INT64 - 1, "late") in Run(Init(1), steps).deliveries
  {
    var rounds := Rounds(MAX_INT64 - 1);
    AfterRounds(MAX_INT64 - 1);
    var s := Run(Init(1), rounds);
    var last := [Begin, Answer(0, "late")];
    RunAppend(Init(1), rounds, last);
    var t := BeginStep(s);
    assert s.nextRequest == MAX_INT64 && Wrap(s.nextRequest) == 1;
    assert t.sent[0] == 1 && t.pending[NumKey(1)] == Pending(MAX_INT64 - 1, None);
    var u := AnswerStep(t, 0, "late");
    assert u.deliveries == [Delivery(Some(0), MAX_INT64 - 1, "late")];
    TwoSteps(s, Begin, Answer(0, "late"));
    assert Delivery(Some(0), MAX_INT64 - 1, "late") in Run(Init(1), rounds + last).deliveries;
  }

  // ----- the code -----

  /** The fields of a connection that its outbound calls use. */
  class Calls {
    const maxInflight: nat
    var nextRequest: int
    var pending: map<string, Pending>
    var sent: seq<int>  // one per pending-call object ever made; its index is that object's identity
    ghost var finished: set<nat>
    ghost var deliveries: seq<Delivery>

    ghost function Abstract(): State
      reads this
    {
      State(maxInflight, nextRequest, pending, sent, finished, deliveries)
    }

    constructor (maxInflight: nat)
      requires maxInflight < MAX_INT64 - 1
      ensures Abstract() == Init(maxInflight) && Inv(Abstract()) && InOrder(Abstract())
    {
      this.maxInflight := maxInflight;
      nextRequest, pending, sent, finished, deliveries := 1, map[], [], {}, [];
    }

    /** The allocation loop of `call`. */
    method AllocateId() returns (num: nat)
      requires nextRequest <= MAX_INT64 && |pending.Keys| <= maxInflight < MAX_INT64 - 1
      modifies this`nextRequest
      ensures num == Allocate(old(nextRequest), pending.Keys, maxInflight + 1)
      ensures nextRequest == num + 1
      ensures NumKey(num) !in pending
    {
      ghost var taken := pending.Keys;
      AllocatedIsFresh(nextRequest, taken, maxInflight + 1);
      num := 0;
      var attempts := 0;
      while attempts < maxInflight + 1
        invariant attempts <= maxInflight && nextRequest <= MAX_INT64
        invariant Allocate(nextRequest, taken, maxInflight + 1 - attempts) == Allocate(old(nextRequest), taken, maxInflight + 1)
      {
        if nextRequest <= 0 || nextRequest == MAX_INT64 {
          nextRequest := 1;
        }
        num := nextRequest;
        nextRequest := nextRequest + 1;
        if NumKey(num) !in pending {
          break;
        }
        attempts := attempts + 1;
      }
    }

    /** The locked part of `call` that admits a call; None when too many are pending. */
    method BeginCall() returns (id: Option<RequestId>)
      requires Inv(Abstract())
      modifies this
      ensures Abstract() == Next(old(Abstract()), Begin) && Inv(Abstract())
      ensures id.Some? <==> |old(pending)| < maxInflight
      ensures id.Some? ==> Key(id.value) !in old(pending) && pending.Keys == old(pending).Keys + {Key(id.value)}
    {
      hide Inv, Allocate, FormatInt, OwnEntry;
      InvBounds(Abstract());
      BeginKeepsInv(Abstract());
      if |pending| >= maxInflight {
        return None;
      }
      assert |pending.Keys| == |pending|;
      var num := AllocateId();
      pending := pending[NumKey(num) := Pending(|sent|, None)];
      sent := sent + [num];
      id := Some(IntegerId(num));
    }

    /** resolveResponse; `answers` is the call whose request the response answers, if it is one that was
        ever sent. */
    method ResolveResponse(id: RequestId, ghost answers: Option<nat>, payload: string)
      requires Inv(Abstract())
      requires if answers.Some? then answers.value < |sent| && id == IntegerId(sent[answers.value]) else !EverSent(Abstract(), id)
      modifies this
      ensures Abstract() == Next(old(Abstract()), if answers.Some? then Answer(answers.value, payload) else Stray(id, payload))
      ensures Inv(Abstract()) && (answers == None ==> Abstract() == old(Abstract()))
      ensures sent == old(sent) && nextRequest == old(nextRequest) && pending.Keys == old(pending).Keys
      ensures forall key :: key in pending ==>
                && pending[key].call == old(pending)[key].call
                && pending[key].response == (if key == Key(id) && old(pending)[key].response == None then Some(payload) else old(pending)[key].response)
    {
      hide Inv, NumKey;
      NextKeepsInv(Abstract(), if answers.Some? then Answer(answers.value, payload) else Stray(id, payload));
      if answers == None {
        StrayIsDropped(Abstract(), id, payload);
      }
      var key := Key(id);
      if key !in pending {
        return;
      }
      if pending[key].response == None {
        deliveries := deliveries + [Delivery(answers, pending[key].call, payload)];
        pending := pending[key := pending[key].(response := Some(payload))];
      }
    }

    /** The deferred cleanup of `call`. */
    method FinishCall(id: RequestId, ghost call: nat)
      requires Inv(Abstract()) && Active(Abstract(), call) && id == IntegerId(sent[call])
      modifies this
      ensures Abstract() == Next(old(Abstract()), Finish(call)) && Inv(Abstract())
      ensures Key(id) !in pending
      ensures forall key :: key in old(pending) && key != Key(id) ==> key in pending && pending[key] == old(pending)[key]
    {
      FinishKeepsInv(Abstract(), call);
      pending := pending - {Key(id)};
      finished := finished + {call};
    }
  }
}
