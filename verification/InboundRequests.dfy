/** Inbound requests of internal/acp/connection.go (`startRequest` and its `finish`) and the prompts
    that run inside them, internal/acp/router.go (`dispatchPrompt`, `reserveSession`,
    `rollbackSession`): slots, the table of in-flight requests, and the one active prompt of a
    session. Each step below is one section that the connection runs under its lock, or one slot
    operation on the semaphore. */
module InboundRequests {
  import opened Wrappers

  /** How far a request that obtained a slot has come. */
  datatype Phase =
    | Accepting  // holds a slot, not in the table yet
    | Rejecting  // refused as a duplicate or because the connection closed; still holds its slot
    | InFlight   // in the table
    | Finishing  // `finish` took it out of the table; the slot is about to be released
    | Released

  datatype Request = Request(key: string, phase: Phase)

  /** The request side of a connection. */
  datatype Table = Table(
    maxInflight: nat,
    slots: nat,                 // slots held on the semaphore
    inbound: map<string, nat>,  // the request in flight under a key
    requests: seq<Request>,     // every request that ever obtained a slot
    released: seq<nat>,         // the requests whose slot was released, in order
    closed: bool)

  /** A session state object: the request whose prompt is active, and that request's key. */
  datatype Session = Session(prompt: Option<nat>, promptKey: string)

  /** A prompt handler that has not returned: the session id and object it was started on. */
  datatype Running = Running(sessionId: string, session: nat)

  /** The session side of a connection. */
  datatype Prompts = Prompts(
    sessions: map<string, nat>,   // the state object registered for a session id
    objects: seq<Session>,        // every session state object ever made
    running: map<nat, Running>)   // the prompt handlers that have not returned, by request

  datatype State = State(table: Table, prompts: Prompts)

  datatype Step =
    | Acquire(key: string)
    | Register(request: nat)
    | Reject(request: nat)
    | Finish(request: nat)
    | Release(request: nat)
    | Shutdown
    | CreateSession(id: string)
    | RemoveSession(id: string)
    | BeginPrompt(request: nat, id: string)
    | EndPrompt(request: nat)

  function Init(maxInflight: nat): State {
    State(Table(maxInflight, 0, map[], [], [], false), Prompts(map[], [], map[]))
  }

  // ----- the steps of the table -----

  predicate In(t: Table, r: nat, phase: Phase) {
    r < |t.requests| && t.requests[r].phase == phase
  }

  function SetPhase(requests: seq<Request>, r: nat, phase: Phase): seq<Request>
    requires r < |requests|
  {
    requests[r := Request(requests[r].key, phase)]
  }

  /** Taking a slot without waiting. */
  function AcquireSlot(t: Table, key: string): Table {
    if t.slots >= t.maxInflight then t
    else t.(slots := t.slots + 1, requests := t.requests + [Request(key, Accepting)])
  }

  function Enter(t: Table, r: nat): Table
    requires r < |t.requests|
  {
    t.(inbound := t.inbound[t.requests[r].key := r], requests := SetPhase(t.requests, r, InFlight))
  }

  /** Closed connections and duplicate keys are refused. */
  function RegisterRequest(t: Table, r: nat): Table
    requires r < |t.requests|
  {
    if t.closed || t.requests[r].key in t.inbound then t.(requests := SetPhase(t.requests, r, Rejecting))
    else Enter(t, r)
  }

  function Leave(t: Table, r: nat): Table
    requires r < |t.requests|
  {
    t.(inbound := t.inbound - {t.requests[r].key}, requests := SetPhase(t.requests, r, Finishing))
  }

  function GiveBack(t: Table, r: nat): Table
    requires r < |t.requests|
  {
    t.(slots := if t.slots == 0 then 0 else t.slots - 1,
       requests := SetPhase(t.requests, r, Released),
       released := t.released + [r])
  }

  /** The table after a step. `finish`, which the code calls twice, acts once, and only when the
      handler of the request has returned: `busy` is whether it still runs a prompt. */
  function TableStep(t: Table, busy: map<nat, Running>, step: Step): Table {
    match step
    case Acquire(key) => AcquireSlot(t, key)
    case Register(r) => if In(t, r, Accepting) then RegisterRequest(t, r) else t
    case Reject(r) => if In(t, r, Rejecting) then GiveBack(t, r) else t
    case Finish(r) => if In(t, r, InFlight) && r !in busy then Leave(t, r) else t
    case Release(r) => if In(t, r, Finishing) then GiveBack(t, r) else t
    case Shutdown => t.(closed := true)
    case _ => t
  }

  // ----- the steps of the sessions -----

  /** NewSession, and a reservation for a session that is not registered: a new state object. */
  function Create(p: Prompts, id: string): Prompts {
    if id in p.sessions then p
    else p.(sessions := p.sessions[id := |p.objects|], objects := p.objects + [Session(None, "")])
  }

  predicate Idle(p: Prompts, id: string) {
    id in p.sessions && p.sessions[id] < |p.objects| && p.objects[p.sessions[id]].prompt == None
  }

  function StartPrompt(p: Prompts, r: nat, key: string, id: string): Prompts {
    if r in p.running || !Idle(p, id) then p
    else
      p.(objects := p.objects[p.sessions[id] := Session(Some(r), key)],
         running := p.running[r := Running(id, p.sessions[id])])
  }

  /** The deferred cleanup of dispatchPrompt, then the handler returns. */
  function StopPrompt(p: Prompts, r: nat, key: string): Prompts {
    if r !in p.running then p
    else
      var Running(id, session) := p.running[r];
      var own := id in p.sessions && p.sessions[id] == session && session < |p.objects|
                 && p.objects[session].promptKey == key;
      p.(objects := if own then p.objects[session := Session(None, "")] else p.objects,
         running := p.running - {r})
  }

  function PromptStep(p: Prompts, t: Table, step: Step): Prompts {
    match step
    case CreateSession(id) => Create(p, id)
    case RemoveSession(id) => p.(sessions := p.sessions - {id})
    case BeginPrompt(r, id) => if In(t, r, InFlight) then StartPrompt(p, r, t.requests[r].key, id) else p
    case EndPrompt(r) => if r < |t.requests| then StopPrompt(p, r, t.requests[r].key) else p
    case _ => p
  }

  function Next(s: State, step: Step): State {
    State(TableStep(s.table, s.prompts.running, step), PromptStep(s.prompts, s.table, step))
  }

  function Run(s: State, steps: seq<Step>): State
    decreases |steps|
  {
    if steps == [] then s else Run(Next(s, steps[0]), steps[1..])
  }

  // ----- slots and the table -----

  /** The requests that hold a slot without being in the table. */
  function InBetween(requests: seq<Request>): set<nat> {
    set r: nat | r < |requests| && requests[r].phase in {Accepting, Rejecting, Finishing}
  }

  ghost predicate Counted(t: Table) {
    t.slots == |t.inbound| + |InBetween(t.requests)| && t.slots <= t.maxInflight
  }

  /** A request in flight has its own entry. */
  ghost predicate Registered(t: Table, r: nat)
    requires r < |t.requests|
  {
    t.requests[r].key in t.inbound && t.inbound[t.requests[r].key] == r
  }

  /** The table holds exactly the requests in flight, each under its own key. */
  ghost predicate TableInv(t: Table) {
    && (forall key :: key in t.inbound ==> In(t, t.inbound[key], InFlight) && t.requests[t.inbound[key]].key == key)
    && (forall r: nat :: In(t, r, InFlight) ==> Registered(t, r))
  }

  ghost predicate ReleasedInv(t: Table) {
    && (forall i, j :: 0 <= i < j < |t.released| ==> t.released[i] != t.released[j])
    && (forall r: nat :: r in t.released <==> In(t, r, Released))
  }

  ghost predicate SlotsInv(t: Table) {
    Counted(t) && TableInv(t) && ReleasedInv(t)
  }

  lemma EnterKeepsTable(t: Table, r: nat)
    requires TableInv(t) && r < |t.requests| && t.requests[r].phase != InFlight && t.requests[r].key !in t.inbound
    ensures TableInv(Enter(t, r))
  {
    var u := Enter(t, r);
    forall q: nat | In(u, q, InFlight) ensures Registered(u, q) {
      if q != r {
        assert In(t, q, InFlight) && Registered(t, q);
      }
    }
  }

  lemma LeaveKeepsTable(t: Table, r: nat)
    requires TableInv(t) && In(t, r, InFlight)
    ensures TableInv(Leave(t, r))
  {
    var u := Leave(t, r);
    assert Registered(t, r);
    forall q: nat | In(u, q, InFlight) ensures Registered(u, q) {
      assert In(t, q, InFlight) && Registered(t, q);
    }
  }

  /** Requests that are not in flight before or after do not matter to the table. */
  lemma OthersKeepTable(t: Table, u: Table)
    requires TableInv(t) && u.inbound == t.inbound
    requires forall r: nat :: In(u, r, InFlight) <==> In(t, r, InFlight)
    requires forall r: nat :: In(t, r, InFlight) && In(u, r, InFlight) ==> u.requests[r].key == t.requests[r].key
    ensures TableInv(u)
  {
    forall q: nat | In(u, q, InFlight) ensures Registered(u, q) {
      assert In(t, q, InFlight) && Registered(t, q);
    }
  }

  lemma TableKeeps(t: Table, busy: map<nat, Running>, step: Step)
    requires TableInv(t)
    ensures TableInv(TableStep(t, busy, step))
  {
    hide TableInv, Enter, Leave;
    var u := TableStep(t, busy, step);
    if step.Register? && In(t, step.request, Accepting) && !t.closed && t.requests[step.request].key !in t.inbound {
      EnterKeepsTable(t, step.request);
    } else if step.Finish? && In(t, step.request, InFlight) && step.request !in busy {
      LeaveKeepsTable(t, step.request);
    } else {
      OthersKeepTable(t, u);
    }
  }

  lemma ReleasedKeeps(t: Table, busy: map<nat, Running>, step: Step)
    requires ReleasedInv(t)
    ensures ReleasedInv(TableStep(t, busy, step))
  {
    var u := TableStep(t, busy, step);
    forall r: nat ensures r in u.released <==> In(u, r, Released) {
      assert r in t.released <==> In(t, r, Released);
    }
    if u.released != t.released {
      var r := step.request;
      assert u.released == t.released + [r];
      assert r !in t.released by {
        assert r in t.released <==> In(t, r, Released);
      }
    }
  }

  lemma EnterKeepsCount(t: Table, r: nat)
    requires Counted(t) && In(t, r, Accepting) && t.requests[r].key !in t.inbound
    ensures Counted(Enter(t, r))
  {
    var u, key := Enter(t, r), t.requests[r].key;
    assert r in InBetween(t.requests) && InBetween(u.requests) == InBetween(t.requests) - {r};
    assert u.inbound.Keys == t.inbound.Keys + {key} && |u.inbound.Keys| == |t.inbound.Keys| + 1;
  }

  lemma LeaveKeepsCount(t: Table, r: nat)
    requires Counted(t) && In(t, r, InFlight) && Registered(t, r)
    ensures Counted(Leave(t, r))
  {
    var u, key := Leave(t, r), t.requests[r].key;
    assert r !in InBetween(t.requests) && InBetween(u.requests) == InBetween(t.requests) + {r};
    assert u.inbound.Keys == t.inbound.Keys - {key} && |u.inbound.Keys| == |t.inbound.Keys| - 1;
  }

  lemma GiveBackKeepsCount(t: Table, r: nat)
    requires Counted(t) && r < |t.requests| && t.requests[r].phase in {Rejecting, Finishing}
    ensures Counted(GiveBack(t, r)) && t.slots > 0
  {
    var u := GiveBack(t, r);
    assert r in InBetween(t.requests) && InBetween(u.requests) == InBetween(t.requests) - {r};
  }

  lemma AppendInBetween(requests: seq<Request>, key: string)
    ensures InBetween(requests + [Request(key, Accepting)]) == InBetween(requests) + {|requests|}
  {
    var more := requests + [Request(key, Accepting)];
    forall r: nat ensures r in InBetween(more) <==> r in InBetween(requests) || r == |requests| {
      assert r < |requests| ==> more[r] == requests[r];
    }
  }

  lemma AcquireKeepsCount(t: Table, key: string)
    requires Counted(t)
    ensures Counted(AcquireSlot(t, key))
  {
    if t.slots < t.maxInflight {
      AppendInBetween(t.requests, key);
      assert |t.requests| !in InBetween(t.requests);
    }
  }

  lemma RegisterKeepsCount(t: Table, r: nat)
    requires Counted(t) && In(t, r, Accepting)
    ensures Counted(RegisterRequest(t, r))
  {
    if t.closed || t.requests[r].key in t.inbound {
      assert InBetween(RegisterRequest(t, r).requests) == InBetween(t.requests);
    } else {
      EnterKeepsCount(t, r);
    }
  }

  lemma CountedCarries(t: Table, u: Table)
    requires Counted(t) && u == t.(closed := u.closed)
    ensures Counted(u)
  {
  }

  lemma CountKeeps(t: Table, busy: map<nat, Running>, step: Step)
    requires Counted(t) && TableInv(t)
    ensures Counted(TableStep(t, busy, step))
  {
    hide AcquireSlot, RegisterRequest, Leave, GiveBack, Counted;
    match step
    case Acquire(key) => AcquireKeepsCount(t, key);
    case Register(r) => if In(t, r, Accepting) { RegisterKeepsCount(t, r); }
    case Reject(r) => if In(t, r, Rejecting) { GiveBackKeepsCount(t, r); }
    case Finish(r) => if In(t, r, InFlight) && r !in busy { LeaveKeepsCount(t, r); }
    case Release(r) => if In(t, r, Finishing) { GiveBackKeepsCount(t, r); }
    case _ => CountedCarries(t, TableStep(t, busy, step));
  }

  lemma StepKeepsSlots(t: Table, busy: map<nat, Running>, step: Step)
    requires SlotsInv(t)
    ensures SlotsInv(TableStep(t, busy, step))
  {
    CountKeeps(t, busy, step);
    TableKeeps(t, busy, step);
    ReleasedKeeps(t, busy, step);
  }

  // ----- prompts -----

  /** A running prompt is the one its session object names. */
  ghost predicate OwnsPrompt(p: Prompts, requests: seq<Request>, r: nat)
    requires r in p.running
  {
    var session := p.running[r].session;
    r < |requests| && session < |p.objects| && p.objects[session] == Session(Some(r), requests[r].key)
  }

  ghost predicate PromptInv(p: Prompts, requests: seq<Request>) {
    && (forall id :: id in p.sessions ==> p.sessions[id] < |p.objects|)
    && (forall r :: r in p.running ==> OwnsPrompt(p, requests, r))
  }

  lemma StartKeeps(p: Prompts, requests: seq<Request>, r: nat, id: string)
    requires PromptInv(p, requests) && r < |requests|
    ensures PromptInv(StartPrompt(p, r, requests[r].key, id), requests)
  {
    var q := StartPrompt(p, r, requests[r].key, id);
    forall other | other in q.running ensures OwnsPrompt(q, requests, other) {
      if other in p.running {
        assert OwnsPrompt(p, requests, other);
      }
    }
  }

  lemma StopKeeps(p: Prompts, requests: seq<Request>, r: nat)
    requires PromptInv(p, requests) && r < |requests|
    ensures PromptInv(StopPrompt(p, r, requests[r].key), requests)
  {
    var q := StopPrompt(p, r, requests[r].key);
    forall other | other in q.running ensures OwnsPrompt(q, requests, other) {
      assert OwnsPrompt(p, requests, other);
      if r in p.running {
        assert OwnsPrompt(p, requests, r);
      }
    }
  }

  /** Requests keep their keys. */
  ghost predicate KeysKept(before: seq<Request>, after: seq<Request>) {
    |before| <= |after| && forall r :: 0 <= r < |before| ==> after[r].key == before[r].key
  }

  lemma StepKeepsKeys(t: Table, busy: map<nat, Running>, step: Step)
    ensures KeysKept(t.requests, TableStep(t, busy, step).requests)
  {
  }

  lemma PromptsCarry(p: Prompts, before: seq<Request>, after: seq<Request>)
    requires PromptInv(p, before) && KeysKept(before, after)
    ensures PromptInv(p, after)
  {
    forall r | r in p.running ensures OwnsPrompt(p, after, r) {
      assert OwnsPrompt(p, before, r);
    }
  }

  lemma PromptStepKeeps(p: Prompts, t: Table, step: Step)
    requires PromptInv(p, t.requests)
    ensures PromptInv(PromptStep(p, t, step), t.requests)
  {
    match step
    case BeginPrompt(r, id) => if In(t, r, InFlight) { StartKeeps(p, t.requests, r, id); }
    case EndPrompt(r) => if r < |t.requests| { StopKeeps(p, t.requests, r); }
    case CreateSession(id) =>
      var q := Create(p, id);
      forall r | r in q.running ensures OwnsPrompt(q, t.requests, r) {
        assert OwnsPrompt(p, t.requests, r);
      }
    case RemoveSession(id) =>
      var q := PromptStep(p, t, step);
      forall r | r in q.running ensures OwnsPrompt(q, t.requests, r) {
        assert OwnsPrompt(p, t.requests, r);
      }
    case _ =>
  }

  // ----- whole runs -----

  ghost predicate Inv(s: State) {
    SlotsInv(s.table) && PromptInv(s.prompts, s.table.requests)
  }

  lemma StepKeepsInv(s: State, step: Step)
    requires Inv(s)
    ensures Inv(Next(s, step))
  {
    hide SlotsInv, PromptInv, PromptStep, TableStep, KeysKept;
    StepKeepsSlots(s.table, s.prompts.running, step);
    PromptStepKeeps(s.prompts, s.table, step);
    StepKeepsKeys(s.table, s.prompts.running, step);
    PromptsCarry(Next(s, step).prompts, s.table.requests, Next(s, step).table.requests);
  }

  lemma StepKeepsMax(t: Table, busy: map<nat, Running>, step: Step)
    ensures TableStep(t, busy, step).maxInflight == t.maxInflight
  {
  }

  lemma {:induction false} RunKeepsInv(s: State, steps: seq<Step>)
    requires Inv(s)
    ensures Inv(Run(s, steps)) && Run(s, steps).table.maxInflight == s.table.maxInflight
    decreases |steps|
  {
    hide Inv, PromptStep, TableStep;
    if steps != [] {
      StepKeepsMax(s.table, s.prompts.running, steps[0]);
      StepKeepsInv(s, steps[0]);
      RunKeepsInv(Next(s, steps[0]), steps[1..]);
    }
  }

  lemma Reachable(maxInflight: nat, steps: seq<Step>)
    ensures Inv(Run(Init(maxInflight), steps))
    ensures Run(Init(maxInflight), steps).table.maxInflight == maxInflight
  {
    assert InBetween([]) == {};
    RunKeepsInv(Init(maxInflight), steps);
  }

  /** Over every interleaving: the slots held are the entries of the table plus the requests that
      are just entering or leaving it, never more than the limit; and no slot is released twice. */
  lemma SlotsAreAccountedFor(maxInflight: nat, steps: seq<Step>)
    ensures var t := Run(Init(maxInflight), steps).table;
            && t.slots == |t.inbound| + |InBetween(t.requests)| <= maxInflight
            && (forall i, j :: 0 <= i < j < |t.released| ==> t.released[i] != t.released[j])
            && (forall r: nat :: r in t.released <==> In(t, r, Released))
  {
    Reachable(maxInflight, steps);
  }

  predicate Past(t: Table, r: nat) {
    In(t, r, Finishing) || In(t, r, Released)
  }

  lemma {:induction false} PastFlight(s: State, steps: seq<Step>, r: nat)
    requires Past(s.table, r)
    ensures Past(Run(s, steps).table, r)
    decreases |steps|
  {
    if steps != [] {
      assert Past(Next(s, steps[0]).table, r);
      PastFlight(Next(s, steps[0]), steps[1..], r);
    }
  }

  /** The first `finish` of a request removes its own entry and no other; every later call of it
      changes nothing, even when the key was taken by a newer request meanwhile. */
  lemma FinishIsOwn(maxInflight: nat, steps: seq<Step>, r: nat, later: seq<Step>)
    requires var s := Run(Init(maxInflight), steps); In(s.table, r, InFlight) && r !in s.prompts.running
    ensures var s := Run(Init(maxInflight), steps);
            var t := Next(s, Finish(r));
            && Registered(s.table, r)
            && t.table.inbound == s.table.inbound - {s.table.requests[r].key}
            && Next(Run(t, later), Finish(r)) == Run(t, later)
  {
    Reachable(maxInflight, steps);
    var s := Run(Init(maxInflight), steps);
    assert Registered(s.table, r);
    PastFlight(Next(s, Finish(r)), later, r);
  }

  /** A request that holds a slot is accepted exactly when the connection is open and no request in
      flight has its key. */
  lemma AcceptedUnlessDuplicate(maxInflight: nat, steps: seq<Step>, r: nat)
    requires In(Run(Init(maxInflight), steps).table, r, Accepting)
    ensures var s := Run(Init(maxInflight), steps);
            In(Next(s, Register(r)).table, r, InFlight) <==>
              && !s.table.closed
              && forall other: nat :: In(s.table, other, InFlight) ==> s.table.requests[other].key != s.table.requests[r].key
  {
    Reachable(maxInflight, steps);
    var t := Run(Init(maxInflight), steps).table;
    var key := t.requests[r].key;
    if key in t.inbound {
      assert In(t, t.inbound[key], InFlight) && t.requests[t.inbound[key]].key == key;
    }
    forall other: nat | In(t, other, InFlight) ensures Registered(t, other) {
    }
  }

  /** No session object ever has two running prompts; so two prompts that run under one session id
      were not both started on the object that is registered for it now. */
  lemma OnePromptPerSession(maxInflight: nat, steps: seq<Step>, q: nat, r: nat)
    requires var p := Run(Init(maxInflight), steps).prompts; q in p.running && r in p.running && q != r
    ensures var p := Run(Init(maxInflight), steps).prompts;
            && p.running[q].session != p.running[r].session
            && forall id :: id in p.sessions ==> p.running[q].session != p.sessions[id] || p.running[r].session != p.sessions[id]
  {
    Reachable(maxInflight, steps);
    var s := Run(Init(maxInflight), steps);
    assert OwnsPrompt(s.prompts, s.table.requests, q) && OwnsPrompt(s.prompts, s.table.requests, r);
  }

  /** The step does not remove a session id under which a prompt runs. */
  ghost predicate SparesPrompts(p: Prompts, step: Step) {
    step.RemoveSession? ==> forall r :: r in p.running ==> p.running[r].sessionId != step.id
  }

  ghost predicate AllSparePrompts(s: State, steps: seq<Step>)
    decreases |steps|
  {
    steps == [] || (SparesPrompts(s.prompts, steps[0]) && AllSparePrompts(Next(s, steps[0]), steps[1..]))
  }

  /** Every running prompt was started on the object that is registered for its id now. */
  ghost predicate NamedInv(p: Prompts) {
    forall r :: r in p.running ==> p.running[r].sessionId in p.sessions && p.sessions[p.running[r].sessionId] == p.running[r].session
  }

  lemma {:induction false} RunKeepsNames(s: State, steps: seq<Step>)
    requires NamedInv(s.prompts) && AllSparePrompts(s, steps)
    ensures NamedInv(Run(s, steps).prompts)
    decreases |steps|
  {
    hide TableStep;
    if steps != [] {
      RunKeepsNames(Next(s, steps[0]), steps[1..]);
    }
  }

  /** If no session id is removed while a prompt runs under it, no two prompts ever run under one id. */
  lemma OnePromptPerId(maxInflight: nat, steps: seq<Step>, q: nat, r: nat)
    requires AllSparePrompts(Init(maxInflight), steps)
    requires var p := Run(Init(maxInflight), steps).prompts; q in p.running && r in p.running && q != r
    ensures var p := Run(Init(maxInflight), steps).prompts; p.running[q].sessionId != p.running[r].sessionId
  {
    hide Run, AllSparePrompts;
    OnePromptPerSession(maxInflight, steps, q, r);
    RunKeepsNames(Init(maxInflight), steps);
  }

  /** The session that a prompt was started on, if it is still registered, is idle afterwards. */
  predicate FreesOwn(before: Prompts, after: Prompts, r: nat) {
    r in before.running ==>
      var Running(id, session) := before.running[r];
      id in before.sessions && before.sessions[id] == session ==> Idle(after, id)
  }

  /** A prompt's cleanup frees its session, touches at most the session object that names this prompt,
      and every other running prompt keeps its registration. */
  lemma CleanupIsOwn(maxInflight: nat, steps: seq<Step>, r: nat, session: nat)
    requires var p := Run(Init(maxInflight), steps).prompts; r in p.running && session < |p.objects|
    ensures var s := Run(Init(maxInflight), steps);
            var p := Next(s, EndPrompt(r)).prompts;
            && |p.objects| == |s.prompts.objects| && r !in p.running
            && FreesOwn(s.prompts, p, r)
            && (p.objects[session] != s.prompts.objects[session] ==> s.prompts.objects[session].prompt == Some(r))
            && (forall q :: q in s.prompts.running && q != r ==> q in p.running && OwnsPrompt(p, s.table.requests, q))
  {
    Reachable(maxInflight, steps);
    var s := Run(Init(maxInflight), steps);
    assert OwnsPrompt(s.prompts, s.table.requests, r);
    StopKeeps(s.prompts, s.table.requests, r);
  }

  /** While a prompt runs, its session id admits another one exactly when its object was
      unregistered and the id is registered again for an idle object. */
  lemma SecondPromptAdmitted(maxInflight: nat, steps: seq<Step>, q: nat, r: nat, id: string)
    requires var s := Run(Init(maxInflight), steps);
             && q in s.prompts.running && s.prompts.running[q].sessionId == id
             && In(s.table, r, InFlight) && r !in s.prompts.running
    ensures var s := Run(Init(maxInflight), steps);
            r in Next(s, BeginPrompt(r, id)).prompts.running <==>
            Idle(s.prompts, id) && s.prompts.sessions[id] != s.prompts.running[q].session
  {
    Reachable(maxInflight, steps);
    var s := Run(Init(maxInflight), steps);
    assert OwnsPrompt(s.prompts, s.table.requests, q);
  }

  /** Different ids have different session objects, and one that is busy is so with a running prompt that
      was started on it. */
  ghost predicate BusyInv(p: Prompts) {
    && (forall id :: id in p.sessions ==> p.sessions[id] < |p.objects|)
    && (forall id, other :: id in p.sessions && other in p.sessions && id != other ==> p.sessions[id] != p.sessions[other])
    && (forall id :: id in p.sessions && p.objects[p.sessions[id]].prompt.Some? ==>
          var r := p.objects[p.sessions[id]].prompt.value; r in p.running && p.running[r] == Running(id, p.sessions[id]))
  }

  lemma StopKeepsBusy(p: Prompts, requests: seq<Request>, r: nat)
    requires BusyInv(p) && PromptInv(p, requests) && r < |requests|
    ensures BusyInv(StopPrompt(p, r, requests[r].key))
  {
    if r in p.running {
      assert OwnsPrompt(p, requests, r);
    }
  }

  lemma PromptStepKeepsBusy(p: Prompts, t: Table, step: Step)
    requires BusyInv(p) && PromptInv(p, t.requests)
    ensures BusyInv(PromptStep(p, t, step))
  {
    if step.EndPrompt? && step.request < |t.requests| {
      StopKeepsBusy(p, t.requests, step.request);
    }
  }

  lemma {:induction false} RunKeepsBusy(s: State, steps: seq<Step>)
    requires Inv(s) && BusyInv(s.prompts)
    ensures BusyInv(Run(s, steps).prompts)
    decreases |steps|
  {
    hide BusyInv, SlotsInv, PromptInv, PromptStep, TableStep;
    if steps != [] {
      PromptStepKeepsBusy(s.prompts, s.table, steps[0]);
      StepKeepsInv(s, steps[0]);
      RunKeepsBusy(Next(s, steps[0]), steps[1..]);
    }
  }

  lemma ReachableBusy(maxInflight: nat, steps: seq<Step>)
    ensures Inv(Run(Init(maxInflight), steps)) && BusyInv(Run(Init(maxInflight), steps).prompts)
  {
    assert InBetween([]) == {};
    Reachable(maxInflight, []);
    Reachable(maxInflight, steps);
    RunKeepsBusy(Init(maxInflight), steps);
  }

  /** A request in flight begins its prompt exactly when its session is registered and no running prompt
      was started on the registered object; nothing else makes a session busy. */
  lemma PromptAdmittedIff(maxInflight: nat, steps: seq<Step>, r: nat, id: string)
    requires var s := Run(Init(maxInflight), steps); In(s.table, r, InFlight) && r !in s.prompts.running
    ensures var p := Run(Init(maxInflight), steps).prompts;
            r in Next(Run(Init(maxInflight), steps), BeginPrompt(r, id)).prompts.running <==>
              id in p.sessions && forall q :: q in p.running ==> p.running[q] != Running(id, p.sessions[id])
  {
    ReachableBusy(maxInflight, steps);
    var s := Run(Init(maxInflight), steps);
    forall q | q in s.prompts.running ensures OwnsPrompt(s.prompts, s.table.requests, q) {
    }
  }

  /** A slot is given exactly while fewer requests than the limit hold one. */
  lemma SlotGivenIff(maxInflight: nat, steps: seq<Step>, key: string)
    ensures var t := Run(Init(maxInflight), steps).table;
            Next(Run(Init(maxInflight), steps), Acquire(key)).table.requests ==
              if |t.inbound| + |InBetween(t.requests)| < maxInflight then t.requests + [Request(key, Accepting)] else t.requests
  {
    Reachable(maxInflight, steps);
  }

  /** A refused request, and one that has finished, gives its slot back in one step, and its key is free
      again as soon as it has finished. */
  lemma SlotsComeBack(maxInflight: nat, steps: seq<Step>, r: nat)
    ensures var s := Run(Init(maxInflight), steps);
            && (In(s.table, r, Rejecting) ==>
                  Next(s, Reject(r)).table.slots == s.table.slots - 1 && In(Next(s, Reject(r)).table, r, Released))
            && (In(s.table, r, Finishing) ==>
                  Next(s, Release(r)).table.slots == s.table.slots - 1 && In(Next(s, Release(r)).table, r, Released))
            && (In(s.table, r, InFlight) && r !in s.prompts.running ==>
                  In(Next(s, Finish(r)).table, r, Finishing) && s.table.requests[r].key !in Next(s, Finish(r)).table.inbound)
            && (In(s.table, r, InFlight) && r in s.prompts.running ==> Next(s, Finish(r)) == s)
  {
    Reachable(maxInflight, steps);
    var t := Run(Init(maxInflight), steps).table;
    if In(t, r, Rejecting) || In(t, r, Finishing) {
      GiveBackKeepsCount(t, r);
    }
  }

  /** Opening a session registers an idle object unless one is registered; closing it unregisters that id.
      Neither touches another id, a session object that exists, or a running prompt; and after the
      connection closed, nothing opens it again. */
  lemma SessionsChange(s: State, id: string, other: string)
    ensures var p := Next(s, CreateSession(id)).prompts;
            && id in p.sessions && (id in s.prompts.sessions ==> p == s.prompts) && p.running == s.prompts.running
            && s.prompts.objects <= p.objects && (id !in s.prompts.sessions ==> Idle(p, id) && p.sessions[id] == |s.prompts.objects|)
            && (other != id ==> (other in p.sessions <==> other in s.prompts.sessions)
                                && (other in p.sessions ==> p.sessions[other] == s.prompts.sessions[other]))
    ensures Next(s, RemoveSession(id)) == s.(prompts := s.prompts.(sessions := s.prompts.sessions - {id}))
    ensures Next(s, Shutdown) == s.(table := s.table.(closed := true))
  {
  }

  // ----- two prompts under one session id -----

  const OPENED := [CreateSession("a"), Acquire("i:1"), Register(0), BeginPrompt(0, "a")]
  const REOPENED := [RemoveSession("a"), CreateSession("a"), Acquire("i:2"), Register(1), BeginPrompt(1, "a")]

  const ONE_PROMPT := State(
    Table(2, 1, map["i:1" := 0], [Request("i:1", InFlight)], [], false),
    Prompts(map["a" := 0], [Session(Some(0), "i:1")], map[0 := Running("a", 0)]))

  lemma RunTwo(s: State, steps: seq<Step>)
    requires |steps| >= 2
    ensures Run(s, steps) == Run(Next(Next(s, steps[0]), steps[1]), steps[2..])
  {
    assert steps[1..][1..] == steps[2..];
    assert Run(s, steps) == Run(Next(s, steps[0]), steps[1..]);
  }

  lemma OpenAndPrompt()
    ensures Run(Init(2), OPENED) == ONE_PROMPT
  {
    RunTwo(Init(2), OPENED);
    var s := Next(Next(Init(2), OPENED[0]), OPENED[1]);
    RunTwo(s, OPENED[2..]);
    assert OPENED[2..][2..] == [];
    assert s.prompts == Prompts(map["a" := 0], [Session(None, "")], map[]);
    assert Next(s, OPENED[2]).table == ONE_PROMPT.table;
  }

  lemma ReopenAndPrompt()
    ensures Run(ONE_PROMPT, REOPENED).prompts.running == map[0 := Running("a", 0), 1 := Running("a", 1)]
  {
    RunTwo(ONE_PROMPT, REOPENED);
    var s := Next(Next(ONE_PROMPT, REOPENED[0]), REOPENED[1]);
    assert s.prompts == Prompts(map["a" := 1], [Session(Some(0), "i:1"), Session(None, "")], map[0 := Running("a", 0)]);
    RunTwo(s, REOPENED[2..]);
    var t := Next(Next(s, REOPENED[2]), REOPENED[3]);
    assert "i:1"[2] != "i:2"[2];
    assert t.table.requests == [Request("i:1", InFlight), Request("i:2", InFlight)];
    assert REOPENED[2..][2..] == [REOPENED[4]] && [REOPENED[4]][1..] == [];
  }

  lemma {:induction false} RunAppend(s: State, first: seq<Step>, second: seq<Step>)
    ensures Run(s, first + second) == Run(Run(s, first), second)
    decreases |first|
  {
    if first == [] {
      assert first + second == second;
    } else {
      assert (first + second)[1..] == first[1..] + second;
      RunAppend(Next(s, first[0]), first[1..], second);
    }
  }

  /** Closing a session while its prompt still runs, and opening it again, leads to two prompts
      that run under the same session id. */
  lemma TwoPromptsUnderOneId()
    ensures exists steps ::
              var p := Run(Init(2), steps).prompts;
              0 in p.running && 1 in p.running && p.running[0].sessionId == p.running[1].sessionId
  {
    OpenAndPrompt();
    ReopenAndPrompt();
    RunAppend(Init(2), OPENED, REOPENED);
    var p := Run(Init(2), OPENED + REOPENED).prompts;
    assert p.running == map[0 := Running("a", 0), 1 := Running("a", 1)];
  }

  // ----- the code -----

  /** The fields of a connection that its inbound side uses. */
  class Connection {
    const maxInflight: nat
    var slots: nat
    var inbound: map<string, nat>
    var requests: seq<Request>
    var released: seq<nat>
    var closed: bool
    var sessions: map<string, nat>
    var objects: seq<Session>
    var running: map<nat, Running>

    ghost function Abstract(): State
      reads this
    {
      State(Table(maxInflight, slots, inbound, requests, released, closed), Prompts(sessions, objects, running))
    }

    constructor (maxInflight: nat)
      ensures Abstract() == Init(maxInflight)
    {
      this.maxInflight := maxInflight;
      slots, inbound, requests, released, closed := 0, map[], [], [], false;
      sessions, objects, running := map[], [], map[];
    }

    /** The non-blocking send on the semaphore. */
    method TakeSlot(key: string) returns (request: Option<nat>)
      modifies this
      ensures Abstract() == Next(old(Abstract()), Acquire(key))
      ensures request == if old(slots) < maxInflight then Some(|old(requests)|) else None
    {
      if slots >= maxInflight {
        return None;
      }
      slots := slots + 1;
      request := Some(|requests|);
      requests := requests + [Request(key, Accepting)];
    }

    /** The locked section of startRequest. */
    method RegisterLocked(r: nat) returns (accepted: bool)
      requires r < |requests| && requests[r].phase == Accepting
      modifies this
      ensures Abstract() == Next(old(Abstract()), Register(r))
      ensures accepted <==> requests[r].phase == InFlight
    {
      var key := requests[r].key;
      if closed {
        requests := SetPhase(requests, r, Rejecting);
        return false;
      }
      if key in inbound {
        requests := SetPhase(requests, r, Rejecting);
        return false;
      }
      inbound := inbound[key := r];
      requests := SetPhase(requests, r, InFlight);
      accepted := true;
    }

    /** The locked section of `finish`, whose effect happens once however often it is called. */
    method FinishLocked(r: nat) returns (first: bool)
      requires r < |requests| && r !in running
      modifies this
      ensures Abstract() == Next(old(Abstract()), Finish(r))
      ensures first <==> old(requests[r]).phase == InFlight
    {
      if requests[r].phase != InFlight {
        return false;
      }
      inbound := inbound - {requests[r].key};
      requests := SetPhase(requests, r, Finishing);
      first := true;
    }

    /** The receive on the semaphore that ends `finish` or a refused request. */
    method ReleaseSlot(r: nat)
      requires SlotsInv(Abstract().table) && r < |requests| && requests[r].phase in {Rejecting, Finishing}
      modifies this
      ensures Abstract() == Next(old(Abstract()), if old(requests[r]).phase == Rejecting then Reject(r) else Release(r))
      ensures slots == old(slots) - 1
    {
      GiveBackKeepsCount(Abstract().table, r);
      slots := slots - 1;
      released := released + [r];
      requests := SetPhase(requests, r, Released);
    }

    /** reserveSession: refuses a session with an active prompt; creates a missing one. */
    method ReserveSession(id: string) returns (created: bool, ok: bool)
      requires PromptInv(Abstract().prompts, requests)
      modifies this
      ensures Abstract() == Next(old(Abstract()), CreateSession(id))
      ensures created <==> id !in old(sessions)
      ensures ok <==> Idle(Abstract().prompts, id)
    {
      if id in sessions {
        return false, objects[sessions[id]].prompt == None;
      }
      sessions := sessions[id := |objects|];
      objects := objects + [Session(None, "")];
      return true, true;
    }

    /** The locked section of dispatchPrompt that starts a prompt. */
    method BeginPromptLocked(r: nat, id: string) returns (ok: bool)
      requires PromptInv(Abstract().prompts, requests)
      requires r < |requests| && requests[r].phase == InFlight && r !in running
      modifies this
      ensures Abstract() == Next(old(Abstract()), BeginPrompt(r, id))
      ensures ok <==> r in running
    {
      if id !in sessions {
        return false;
      }
      var session := sessions[id];
      if objects[session].prompt.Some? {
        return false;
      }
      objects := objects[session := Session(Some(r), requests[r].key)];
      running := running[r := Running(id, session)];
      ok := true;
    }

    /** The deferred cleanup of dispatchPrompt. */
    method EndPromptLocked(r: nat)
      requires PromptInv(Abstract().prompts, requests) && r in running
      modifies this
      ensures Abstract() == Next(old(Abstract()), EndPrompt(r))
      ensures r !in running
    {
      assert OwnsPrompt(Abstract().prompts, requests, r);
      var Running(id, session) := running[r];
      if id in sessions && sessions[id] == session && objects[session].promptKey == requests[r].key {
        objects := objects[session := Session(None, "")];
      }
      running := running - {r};
    }
  }
}
