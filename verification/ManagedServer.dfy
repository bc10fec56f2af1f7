/** The attach and idle-shutdown protocol of the managed chat server (cmd/proxy/managed_server.go,
    cmd/proxy/main.go): leases that clients refresh, the startup lock, and a server that stops when no
    lease is live. */
module ManagedServer {
  import opened Wrappers

  // ----- leases -----

  /** A directory entry: a lease only if its name ends in ".lease" and it can be inspected and is a
      regular file. */
  datatype DirEntry = DirEntry(isLease: bool, modified: int)

  predicate Fresh(modified: int, now: int, expiry: int) {
    now - modified <= expiry
  }

  /** managedServerHasLiveLease; a directory that cannot be read counts as empty. */
  method HasLiveLease(entries: Option<seq<DirEntry>>, now: int, expiry: int) returns (live: bool)
    ensures live <==> entries.Some? && exists k :: 0 <= k < |entries.value| && entries.value[k].isLease && Fresh(entries.value[k].modified, now, expiry)
  {
    if entries == None {
      return false;
    }
    for i := 0 to |entries.value|
      invariant forall k :: 0 <= k < i ==> !(entries.value[k].isLease && Fresh(entries.value[k].modified, now, expiry))
    {
      if !entries.value[i].isLease {
        continue;
      }
      if Fresh(entries.value[i].modified, now, expiry) {
        return true;
      }
    }
    live := false;
  }

  /** One look at the leases. */
  datatype Sighting = Sighting(now: int, live: bool)

  /** What the idle loop meets: its looks, the looks it takes under the lock, whether it gets the lock,
      and whether its context has ended. */
  datatype World = World(looks: nat -> Sighting, rechecks: nat -> Sighting, locks: nat -> bool, ended: nat -> bool)

  /** No look from `first` to `last` saw a live lease, and they lie at least the timeout apart. */
  ghost predicate IdleFor(world: World, first: nat, last: nat, timeout: int) {
    first <= last && (forall k :: first <= k <= last ==> !world.looks(k).live) && world.looks(last).now - world.looks(first).now >= timeout
  }

  /** Since which look the loop counts the server as idle, when it comes to its look `i`: the first one
      without a live lease since the last live one, whether that was seen with or without the lock. */
  ghost function IdleSince(world: World, i: nat, timeout: int): (since: Option<nat>)
    ensures since.Some? ==> since.value < i && forall k :: since.value <= k < i ==> !world.looks(k).live
  {
    if i == 0 then None
    else
      var before := IdleSince(world, i - 1, timeout);
      if world.looks(i - 1).live then None
      else if before == None then Some(i - 1)
      else if IdleFor(world, before.value, i - 1, timeout) && world.rechecks(i - 1).live then None
      else before
  }

  /** At look `i` the server has been idle for long enough. */
  ghost predicate Due(world: World, i: nat, timeout: int) {
    var since := IdleSince(world, i, timeout);
    since.Some? && IdleFor(world, since.value, i, timeout)
  }

  /** The loop comes back after look `i`: a server that was due turned out to have a live lease, or it
      was not due and the context goes on. */
  ghost predicate GoesOn(world: World, i: nat, timeout: int) {
    if Due(world, i, timeout) then world.locks(i) && world.rechecks(i).live else !world.ended(i)
  }

  /** The loop ends at look `i` without the lock. */
  ghost predicate GivesUp(world: World, i: nat, timeout: int) {
    if Due(world, i, timeout) then !world.locks(i) else world.ended(i)
  }

  /** waitForManagedServerIdleLock: the lock is returned at the first look at which the server is due, the
      lock can be had and no lease is live once it is held. Nothing is returned exactly when before such
      a look the context ends or the lock cannot be had; `rounds` bounds the looks considered. */
  method WaitForIdleLock(world: World, timeout: int, rounds: nat) returns (locked: Option<nat>)
    ensures locked.Some? ==>
              && locked.value < rounds && Due(world, locked.value, timeout)
              && world.locks(locked.value) && !world.rechecks(locked.value).live
              && (forall k :: 0 <= k < locked.value ==> GoesOn(world, k, timeout))
    ensures locked == None ==>
              || (forall k :: 0 <= k < rounds ==> GoesOn(world, k, timeout))
              || (exists n :: 0 <= n < rounds && GivesUp(world, n, timeout) && forall k :: 0 <= k < n ==> GoesOn(world, k, timeout))
  {
    var idleSince: Option<int> := None;
    var i: nat := 0;
    while i < rounds
      invariant i <= rounds
      invariant idleSince.Some? <==> IdleSince(world, i, timeout).Some?
      invariant idleSince.Some? ==> idleSince.value == world.looks(IdleSince(world, i, timeout).value).now
      invariant forall k :: 0 <= k < i ==> GoesOn(world, k, timeout)
    {
      var look := world.looks(i);
      if look.live {
        idleSince := None;
      } else if idleSince == None {
        idleSince := Some(look.now);
      } else if look.now - idleSince.value >= timeout {
        assert Due(world, i, timeout);
        if !world.locks(i) {
          assert GivesUp(world, i, timeout);
          return None;
        }
        if world.rechecks(i).live {
          idleSince := None;
          i := i + 1;
          continue;
        }
        return Some(i);
      }
      if world.ended(i) {
        assert GivesUp(world, i, timeout);
        return None;
      }
      i := i + 1;
    }
    locked := None;
  }

  // ----- the protocol -----

  /** How far a client has come. */
  datatype Client =
    | Locked     // holds the startup lock, has not probed yet
    | FoundReady // holds the lock; the probe found the server ready
    | Launching  // holds the lock and a lease; started a server and waits for it
    | Attaching  // holds the lock and a lease; about to release the lock
    | Attached   // holds a lease

  datatype Holder = ByClient(id: nat) | ByServer

  datatype Server =
    | Down
    | Serving(idleSince: Option<nat>)
    | WantsLock   // idle long enough; waits for the startup lock
    | Rechecking  // holds the lock; looks at the leases once more
    | Stopping    // holds the lock; has decided to stop, and may still answer probes
    | Stopped     // no longer accepts requests; still holds the lock

  datatype State = State(now: nat, lock: Option<Holder>, leases: map<nat, nat>, clients: map<nat, Client>, server: Server)

  datatype Step =
    | Tick
    | Lock(id: nat)
    | Probe(id: nat)
    | Lease(id: nat)           // the lease of a client that found the server ready
    | ServerUp                 // the started server listens
    | LaunchDone(id: nat)      // the launching client's probe succeeds
    | Unlock(id: nat)
    | Heartbeat(id: nat)
    | Leave(id: nat)           // the client gives up or closes, and removes its lease
    | Crash(id: nat)           // the client dies; its lease stays, its lock is released
    | Look(seen: set<nat>)     // one turn of the server's idle loop, and the leases it could inspect
    | ServerLock
    | Recheck(seen: set<nat>)
    | StopAccepting
    | Release
    | Kill                     // the server dies or is stopped by a signal

  predicate HoldsLock(c: Client) {
    c != Attached
  }

  predicate HasLease(c: Client) {
    c in {Launching, Attaching, Attached}
  }

  /** The live clients refresh their leases in time. */
  ghost predicate Timely(s: State, now: nat, expiry: nat) {
    forall c :: c in s.clients && HasLease(s.clients[c]) && c in s.leases ==> now <= s.leases[c] + expiry
  }

  predicate FreshLease(s: State, c: nat, expiry: nat)
    requires c in s.leases
  {
    s.now <= s.leases[c] + expiry
  }

  /** A lease that can be inspected is live. */
  predicate Live(s: State, expiry: nat, seen: set<nat>) {
    exists c :: c in s.leases && FreshLease(s, c, expiry) && c in seen
  }

  function Drop(clients: map<nat, Client>, c: nat): map<nat, Client> {
    clients - {c}
  }

  function ReleasedBy(lock: Option<Holder>, c: nat): Option<Holder> {
    if lock == Some(ByClient(c)) then None else lock
  }

  /** The server answers probes. */
  predicate Accepting(server: Server) {
    server.Serving? || server.WantsLock? || server.Rechecking? || server.Stopping?
  }

  predicate Is(s: State, c: nat, phase: Client) {
    c in s.clients && s.clients[c] == phase
  }

  function ClientStep(s: State, step: Step): State {
    match step
    case Lock(c) =>
      if s.lock == None && c !in s.clients && c !in s.leases then s.(lock := Some(ByClient(c)), clients := s.clients[c := Locked]) else s
    case Probe(c) =>
      if !Is(s, c, Locked) then s
      else if Accepting(s.server) then s.(clients := s.clients[c := FoundReady])
      else s.(leases := s.leases[c := s.now], clients := s.clients[c := Launching])
    case Lease(c) =>
      if Is(s, c, FoundReady) then s.(leases := s.leases[c := s.now], clients := s.clients[c := Attaching]) else s
    case LaunchDone(c) =>
      if Is(s, c, Launching) && Accepting(s.server) then s.(clients := s.clients[c := Attaching]) else s
    case Unlock(c) =>
      if Is(s, c, Attaching) then s.(lock := ReleasedBy(s.lock, c), clients := s.clients[c := Attached]) else s
    case Heartbeat(c) =>
      if c in s.clients && HasLease(s.clients[c]) then s.(leases := s.leases[c := s.now]) else s
    case Leave(c) =>
      if c in s.clients then s.(lock := ReleasedBy(s.lock, c), clients := Drop(s.clients, c), leases := s.leases - {c}) else s
    case Crash(c) =>
      if c in s.clients then s.(lock := ReleasedBy(s.lock, c), clients := Drop(s.clients, c)) else s
    case _ => s
  }

  predicate ServerHoldsLock(server: Server) {
    server.Rechecking? || server.Stopping? || server.Stopped?
  }

  function IdleLook(s: State, idleSince: Option<nat>, live: bool, timeout: nat): Server {
    if live then Serving(None)
    else if idleSince == None then Serving(Some(s.now))
    else if s.now >= idleSince.value + timeout then WantsLock
    else Serving(idleSince)
  }

  function ServerStep(s: State, step: Step, expiry: nat, timeout: nat): State {
    match step
    case ServerUp => if s.server == Down && (exists c :: c in s.clients && s.clients[c] == Launching) then s.(server := Serving(None)) else s
    case Look(seen) =>
      if s.server.Serving? then s.(server := IdleLook(s, s.server.idleSince, Live(s, expiry, seen), timeout)) else s
    case ServerLock =>
      if s.server == WantsLock && s.lock == None then s.(lock := Some(ByServer), server := Rechecking) else s
    case Recheck(seen) =>
      if s.server != Rechecking then s
      else if Live(s, expiry, seen) then s.(lock := None, server := Serving(None))
      else s.(server := Stopping)
    case StopAccepting => if s.server == Stopping then s.(server := Stopped) else s
    case Release => if s.server == Stopped then s.(lock := None, server := Down) else s
    case Kill => s.(lock := if ServerHoldsLock(s.server) then None else s.lock, server := Down)
    case _ => s
  }

  function Next(s: State, step: Step, expiry: nat, timeout: nat): State {
    match step
    case Tick => s.(now := s.now + 1)
    case ServerUp => ServerStep(s, step, expiry, timeout)
    case Look(_) => ServerStep(s, step, expiry, timeout)
    case ServerLock => ServerStep(s, step, expiry, timeout)
    case Recheck(_) => ServerStep(s, step, expiry, timeout)
    case StopAccepting => ServerStep(s, step, expiry, timeout)
    case Release => ServerStep(s, step, expiry, timeout)
    case Kill => ServerStep(s, step, expiry, timeout)
    case _ => ClientStep(s, step)
  }

  /** Steps that keep the rules: time passes only while live clients refresh in time, and the final check
      can inspect their leases. */
  ghost predicate Legal(s: State, step: Step, expiry: nat) {
    match step
    case Tick => Timely(s, s.now + 1, expiry)
    case Recheck(seen) => forall c :: c in s.clients && HasLease(s.clients[c]) ==> c in seen
    case _ => true
  }

  function Run(s: State, steps: seq<Step>, expiry: nat, timeout: nat): State
    decreases |steps|
  {
    if steps == [] then s else Run(Next(s, steps[0], expiry, timeout), steps[1..], expiry, timeout)
  }

  ghost predicate AllLegal(s: State, steps: seq<Step>, expiry: nat, timeout: nat)
    decreases |steps|
  {
    steps == [] || (Legal(s, steps[0], expiry) && AllLegal(Next(s, steps[0], expiry, timeout), steps[1..], expiry, timeout))
  }

  function Init(server: Server): State {
    State(0, None, map[], map[], server)
  }

  // ----- what every legal step keeps -----

  /** The lock is with whoever says so, and with nobody else. */
  ghost predicate LockInv(s: State) {
    && (forall c :: c in s.clients && HoldsLock(s.clients[c]) ==> s.lock == Some(ByClient(c)))
    && (ServerHoldsLock(s.server) ==> s.lock == Some(ByServer))
    && (s.lock == Some(ByServer) ==> ServerHoldsLock(s.server))
    && (s.lock.Some? && s.lock.value.ByClient? ==> s.lock.value.id in s.clients && HoldsLock(s.clients[s.lock.value.id]))
  }

  /** Every client that has a lease refreshed it within the expiry. */
  ghost predicate LeaseInv(s: State, expiry: nat) {
    && Timely(s, s.now, expiry)
    && (forall c :: c in s.clients && HasLease(s.clients[c]) ==> c in s.leases && s.leases[c] <= s.now)
  }

  /** Once the server has decided to stop for idleness, there is no client until the lock is released. */
  ghost predicate StopInv(s: State) {
    s.server in {Stopping, Stopped} ==> s.clients == map[]
  }

  ghost predicate Inv(s: State, expiry: nat) {
    LockInv(s) && LeaseInv(s, expiry) && StopInv(s)
  }

  lemma LockKeeps(s: State, step: Step, expiry: nat, timeout: nat)
    requires LockInv(s)
    ensures LockInv(Next(s, step, expiry, timeout))
  {
    hide Live;
  }

  lemma LeaseKeeps(s: State, step: Step, expiry: nat, timeout: nat)
    requires LeaseInv(s, expiry) && Legal(s, step, expiry)
    ensures LeaseInv(Next(s, step, expiry, timeout), expiry)
  {
    hide Live;
  }

  /** While the server holds the lock every client is attached, and an attached client's lease is live. */
  lemma ClientIsLive(s: State, c: nat, expiry: nat)
    requires Inv(s, expiry) && ServerHoldsLock(s.server) && c in s.clients
    ensures s.clients[c] == Attached && c in s.leases && FreshLease(s, c, expiry)
  {
    assert HasLease(s.clients[c]);
    assert s.now <= s.leases[c] + expiry;
  }

  lemma StopKeeps(s: State, step: Step, expiry: nat, timeout: nat)
    requires Inv(s, expiry) && Legal(s, step, expiry)
    ensures StopInv(Next(s, step, expiry, timeout))
  {
    if step.Recheck? && s.server == Rechecking && s.clients != map[] {
      var c :| c in s.clients;
      ClientIsLive(s, c, expiry);
    }
  }

  lemma {:induction false} RunKeepsInv(s: State, steps: seq<Step>, expiry: nat, timeout: nat)
    requires Inv(s, expiry) && AllLegal(s, steps, expiry, timeout)
    ensures Inv(Run(s, steps, expiry, timeout), expiry)
    decreases |steps|
  {
    hide LockInv, LeaseInv, StopInv, Legal, Next;
    if steps != [] {
      LockKeeps(s, steps[0], expiry, timeout);
      LeaseKeeps(s, steps[0], expiry, timeout);
      StopKeeps(s, steps[0], expiry, timeout);
      RunKeepsInv(Next(s, steps[0], expiry, timeout), steps[1..], expiry, timeout);
    }
  }

  lemma Reachable(server: Server, steps: seq<Step>, expiry: nat, timeout: nat)
    requires !ServerHoldsLock(server) && AllLegal(Init(server), steps, expiry, timeout)
    ensures Inv(Run(Init(server), steps, expiry, timeout), expiry)
  {
    RunKeepsInv(Init(server), steps, expiry, timeout);
  }

  /** Idle shutdown strands nobody: in every run in which live clients refresh their leases within the
      expiry, a server that decided to stop for idleness has no client, neither attached nor attaching,
      until it has released the startup lock. */
  lemma IdleStopStrandsNobody(server: Server, steps: seq<Step>, expiry: nat, timeout: nat)
    requires !ServerHoldsLock(server) && AllLegal(Init(server), steps, expiry, timeout)
    ensures var s := Run(Init(server), steps, expiry, timeout);
            s.server in {Stopping, Stopped} ==> s.lock == Some(ByServer) && s.clients == map[]
  {
    Reachable(server, steps, expiry, timeout);
  }

  /** A client that found the server ready still holds the lock under which it probed when it obtains
      its lease, and the server cannot be on its way to stop; the same holds for one that launched it. */
  lemma LeasedUnderTheLock(server: Server, steps: seq<Step>, c: nat, expiry: nat, timeout: nat)
    requires !ServerHoldsLock(server) && AllLegal(Init(server), steps, expiry, timeout)
    requires var s := Run(Init(server), steps, expiry, timeout); Is(s, c, FoundReady) || Is(s, c, Launching) || Is(s, c, Attaching)
    ensures var s := Run(Init(server), steps, expiry, timeout);
            && s.lock == Some(ByClient(c)) && !ServerHoldsLock(s.server)
            && (forall d :: d in s.clients && d != c ==> s.clients[d] == Attached)
  {
    Reachable(server, steps, expiry, timeout);
  }

  /** Exactly when the final check lets a server stop under a client: when it can inspect no fresh lease,
      neither of a client nor left behind by one, because it takes what it cannot inspect for absent. */
  lemma UnreadableLeasesStrand(s: State, seen: set<nat>, expiry: nat, timeout: nat)
    requires Inv(s, expiry) && s.server == Rechecking
    ensures var t := Next(s, Recheck(seen), expiry, timeout);
            && (t.server == Stopping && t.clients != map[] <==>
                  s.clients != map[] && forall c :: c in s.leases && FreshLease(s, c, expiry) ==> c !in seen)
            && (t.server == Stopping ==> forall c :: c in s.clients ==> c in s.leases && FreshLease(s, c, expiry) && c !in seen)
  {
    forall c | c in s.clients ensures c in s.leases && FreshLease(s, c, expiry) {
      ClientIsLive(s, c, expiry);
    }
  }

  // ----- such a state is reached -----

  lemma {:induction false} RunSplit(s: State, first: seq<Step>, second: seq<Step>, expiry: nat, timeout: nat)
    ensures Run(s, first + second, expiry, timeout) == Run(Run(s, first, expiry, timeout), second, expiry, timeout)
    ensures AllLegal(s, first + second, expiry, timeout) <==>
            AllLegal(s, first, expiry, timeout) && AllLegal(Run(s, first, expiry, timeout), second, expiry, timeout)
    decreases |first|
  {
    hide Next, Legal;
    if first == [] {
      assert first + second == second;
    } else {
      assert (first + second)[1..] == first[1..] + second;
      RunSplit(Next(s, first[0], expiry, timeout), first[1..], second, expiry, timeout);
    }
  }

  lemma OneStep(s: State, step: Step, expiry: nat, timeout: nat)
    ensures Run(s, [step], expiry, timeout) == Next(s, step, expiry, timeout)
    ensures AllLegal(s, [step], expiry, timeout) <==> Legal(s, step, expiry)
  {
    assert [step][1..] == [];
  }

  // ----- an idle stop takes idle looks -----

  /** The state in which a step of a run is taken. */
  function At(server: Server, steps: seq<Step>, k: nat, expiry: nat, timeout: nat): State
    requires k <= |steps|
  {
    Run(Init(server), steps[..k], expiry, timeout)
  }

  /** None of the looks from one step to another saw a live lease. */
  ghost predicate NoneSeen(server: Server, steps: seq<Step>, i: nat, j: nat, expiry: nat, timeout: nat)
    requires j < |steps|
  {
    forall k :: i <= k <= j && steps[k].Look? ==> !Live(At(server, steps, k, expiry, timeout), expiry, steps[k].seen)
  }

  /** The server counts as idle since a look at that time, and no look since then saw a live lease. */
  ghost predicate IdleFrom(server: Server, steps: seq<Step>, since: nat, expiry: nat, timeout: nat) {
    exists i :: 0 <= i < |steps| && steps[i].Look? && At(server, steps, i, expiry, timeout).now == since
      && NoneSeen(server, steps, i, |steps| - 1, expiry, timeout)
  }

  /** Two looks at least the timeout apart, and no look from the one to the other saw a live lease. */
  ghost predicate IdleBetween(server: Server, steps: seq<Step>, i: nat, j: nat, expiry: nat, timeout: nat) {
    && i <= j < |steps| && steps[i].Look? && steps[j].Look? && NoneSeen(server, steps, i, j, expiry, timeout)
    && At(server, steps, i, expiry, timeout).now + timeout <= At(server, steps, j, expiry, timeout).now
  }

  ghost predicate WasIdle(server: Server, steps: seq<Step>, expiry: nat, timeout: nat) {
    exists i: nat, j: nat :: IdleBetween(server, steps, i, j, expiry, timeout)
  }

  /** What the server's state says about the looks so far. */
  ghost predicate LooksInv(server: Server, steps: seq<Step>, expiry: nat, timeout: nat) {
    var s := Run(Init(server), steps, expiry, timeout).server;
    && (s.Serving? && s.idleSince.Some? ==> IdleFrom(server, steps, s.idleSince.value, expiry, timeout))
    && (s in {WantsLock, Rechecking, Stopping, Stopped} ==> WasIdle(server, steps, expiry, timeout))
  }

  lemma AtEarlier(server: Server, steps: seq<Step>, step: Step, k: nat, expiry: nat, timeout: nat)
    requires k <= |steps|
    ensures At(server, steps + [step], k, expiry, timeout) == At(server, steps, k, expiry, timeout)
  {
    assert (steps + [step])[..k] == steps[..k];
  }

  lemma AtLast(server: Server, steps: seq<Step>, step: Step, expiry: nat, timeout: nat)
    ensures At(server, steps + [step], |steps|, expiry, timeout) == Run(Init(server), steps, expiry, timeout)
  {
    assert (steps + [step])[..|steps|] == steps;
  }

  lemma NoneSeenLonger(server: Server, all: seq<Step>, i: nat, expiry: nat, timeout: nat)
    requires |all| >= 2 && NoneSeen(server, all, i, |all| - 2, expiry, timeout)
    requires all[|all| - 1].Look? ==> !Live(At(server, all, |all| - 1, expiry, timeout), expiry, all[|all| - 1].seen)
    ensures NoneSeen(server, all, i, |all| - 1, expiry, timeout)
  {
    hide Live, At;
  }

  lemma NoneSeenStill(server: Server, steps: seq<Step>, step: Step, i: nat, j: nat, expiry: nat, timeout: nat)
    requires j < |steps| && NoneSeen(server, steps, i, j, expiry, timeout)
    ensures NoneSeen(server, steps + [step], i, j, expiry, timeout)
  {
    hide Live, At;
    forall k | i <= k <= j && (steps + [step])[k].Look?
      ensures !Live(At(server, steps + [step], k, expiry, timeout), expiry, (steps + [step])[k].seen)
    {
      AtEarlier(server, steps, step, k, expiry, timeout);
    }
  }

  lemma WasIdleStill(server: Server, steps: seq<Step>, step: Step, expiry: nat, timeout: nat)
    requires WasIdle(server, steps, expiry, timeout)
    ensures WasIdle(server, steps + [step], expiry, timeout)
  {
    hide At, NoneSeen;
    var i: nat, j: nat :| IdleBetween(server, steps, i, j, expiry, timeout);
    NoneSeenStill(server, steps, step, i, j, expiry, timeout);
    AtEarlier(server, steps, step, i, expiry, timeout);
    AtEarlier(server, steps, step, j, expiry, timeout);
    assert IdleBetween(server, steps + [step], i, j, expiry, timeout);
  }

  /** One more step is not a look that saw a live lease. */
  lemma IdleFromStill(server: Server, steps: seq<Step>, step: Step, since: nat, expiry: nat, timeout: nat)
    requires IdleFrom(server, steps, since, expiry, timeout)
    requires step.Look? ==> !Live(Run(Init(server), steps, expiry, timeout), expiry, step.seen)
    ensures IdleFrom(server, steps + [step], since, expiry, timeout)
    ensures step.Look? && since + timeout <= Run(Init(server), steps, expiry, timeout).now ==>
              WasIdle(server, steps + [step], expiry, timeout)
  {
    hide Live, At, NoneSeen;
    var i :| 0 <= i < |steps| && steps[i].Look? && At(server, steps, i, expiry, timeout).now == since
             && NoneSeen(server, steps, i, |steps| - 1, expiry, timeout);
    var all := steps + [step];
    NoneSeenStill(server, steps, step, i, |steps| - 1, expiry, timeout);
    AtEarlier(server, steps, step, i, expiry, timeout);
    AtLast(server, steps, step, expiry, timeout);
    NoneSeenLonger(server, all, i, expiry, timeout);
    if step.Look? && since + timeout <= Run(Init(server), steps, expiry, timeout).now {
      assert IdleBetween(server, all, i, |steps|, expiry, timeout);
    }
  }

  lemma FirstIdleLook(server: Server, steps: seq<Step>, step: Step, expiry: nat, timeout: nat)
    requires step.Look? && !Live(Run(Init(server), steps, expiry, timeout), expiry, step.seen)
    ensures IdleFrom(server, steps + [step], Run(Init(server), steps, expiry, timeout).now, expiry, timeout)
  {
    hide Live, At;
    var all := steps + [step];
    AtLast(server, steps, step, expiry, timeout);
    assert NoneSeen(server, all, |steps|, |all| - 1, expiry, timeout);
    assert all[|steps|].Look?;
  }

  lemma LookedAgain(s: State, step: Step, expiry: nat, timeout: nat)
    ensures var t := Next(s, step, expiry, timeout);
            && (t.server.Serving? && t.server.idleSince.Some? ==>
                  && s.server.Serving?
                  && (step.Look? ==> !Live(s, expiry, step.seen))
                  && (t.server == s.server || (step.Look? && t.server.idleSince.value == s.now)))
            && (t.server in {WantsLock, Rechecking, Stopping, Stopped} ==>
                  || s.server in {WantsLock, Rechecking, Stopping, Stopped}
                  || (&& step.Look? && !Live(s, expiry, step.seen) && s.server.Serving? && s.server.idleSince.Some?
                      && s.server.idleSince.value + timeout <= s.now))
  {
    hide Live;
  }

  lemma {:induction false} LooksKeep(server: Server, steps: seq<Step>, expiry: nat, timeout: nat)
    requires server in {Down, Serving(None)}
    ensures LooksInv(server, steps, expiry, timeout)
    decreases |steps|
  {
    hide Next, Live, IdleFrom, WasIdle;
    if steps != [] {
      var n := |steps| - 1;
      var before, step := steps[..n], steps[n];
      assert steps == before + [step];
      LooksKeep(server, before, expiry, timeout);
      var s := Run(Init(server), before, expiry, timeout);
      RunSplit(Init(server), before, [step], expiry, timeout);
      OneStep(s, step, expiry, timeout);
      LookedAgain(s, step, expiry, timeout);
      var t := Next(s, step, expiry, timeout);
      if t.server.Serving? && t.server.idleSince.Some? {
        if t.server == s.server {
          IdleFromStill(server, before, step, s.server.idleSince.value, expiry, timeout);
        } else {
          FirstIdleLook(server, before, step, expiry, timeout);
        }
      }
      if t.server in {WantsLock, Rechecking, Stopping, Stopped} {
        if s.server in {WantsLock, Rechecking, Stopping, Stopped} {
          WasIdleStill(server, before, step, expiry, timeout);
        } else {
          IdleFromStill(server, before, step, s.server.idleSince.value, expiry, timeout);
        }
      }
    }
  }

  /** The server stops for idleness only after two of its looks, at least the timeout apart, and all looks
      between them saw no live lease: one live lease makes it count from the start. */
  lemma StopsOnlyWhenIdle(server: Server, steps: seq<Step>, expiry: nat, timeout: nat)
    requires server in {Down, Serving(None)}
    requires Run(Init(server), steps, expiry, timeout).server in {WantsLock, Rechecking, Stopping, Stopped}
    ensures exists i: nat, j: nat :: IdleBetween(server, steps, i, j, expiry, timeout)
  {
    LooksKeep(server, steps, expiry, timeout);
  }

  /** What clients do to their leases: a heartbeat makes a lease last for another expiry, leaving removes it,
      and dying leaves it to expire; both give up the startup lock. */
  lemma LeasesFollowClients(s: State, c: nat, expiry: nat, timeout: nat)
    requires LockInv(s) && c in s.clients
    ensures HasLease(s.clients[c]) ==> Next(s, Heartbeat(c), expiry, timeout) == s.(leases := s.leases[c := s.now])
    ensures var t := Next(s, Leave(c), expiry, timeout);
            t.clients == s.clients - {c} && t.leases == s.leases - {c} && t.lock != Some(ByClient(c)) && t.server == s.server
    ensures var t := Next(s, Crash(c), expiry, timeout);
            t.clients == s.clients - {c} && t.leases == s.leases && t.lock != Some(ByClient(c)) && t.server == s.server
  {
  }

  function Ticks(n: nat): seq<Step> {
    seq(n, _ => Tick)
  }

  lemma {:induction false} Idling(s: State, n: nat, expiry: nat, timeout: nat)
    requires s.clients == map[]
    ensures AllLegal(s, Ticks(n), expiry, timeout) && Run(s, Ticks(n), expiry, timeout) == s.(now := s.now + n)
    decreases n
  {
    if n > 0 {
      assert Ticks(n)[1..] == Ticks(n - 1);
      Idling(s.(now := s.now + 1), n - 1, expiry, timeout);
    }
  }

  /** A client starts the server and leaves; the server finds itself idle. */
  const STARTED: seq<Step> := [Lock(0), Probe(0), ServerUp, LaunchDone(0), Unlock(0), Leave(0), Look({})]

  /** The server's time is up; a client attaches before the server has the lock. */
  const ATTACHED: seq<Step> := [Look({}), Lock(1), Probe(1), Lease(1), Unlock(1), ServerLock]

  /** The steps of such a run, in which every directory can be read. */
  function IdleThenAttached(timeout: nat): seq<Step> {
    STARTED + Ticks(timeout) + ATTACHED
  }

  lemma FirstOf(s: State, steps: seq<Step>, expiry: nat, timeout: nat)
    requires steps != []
    ensures Run(s, steps, expiry, timeout) == Run(Next(s, steps[0], expiry, timeout), steps[1..], expiry, timeout)
    ensures AllLegal(s, steps, expiry, timeout) <==>
            Legal(s, steps[0], expiry) && AllLegal(Next(s, steps[0], expiry, timeout), steps[1..], expiry, timeout)
  {
  }

  lemma StartedRun(expiry: nat, timeout: nat)
    ensures AllLegal(Init(Down), STARTED, expiry, timeout)
    ensures Run(Init(Down), STARTED, expiry, timeout) == State(0, None, map[], map[], Serving(Some(0)))
  {
    var s0 := Init(Down);
    var s1 := Next(s0, Lock(0), expiry, timeout);
    var s2 := Next(s1, Probe(0), expiry, timeout);
    assert Is(s2, 0, Launching);
    var s3 := Next(s2, ServerUp, expiry, timeout);
    var s4 := Next(s3, LaunchDone(0), expiry, timeout);
    var s5 := Next(s4, Unlock(0), expiry, timeout);
    var s6 := Next(s5, Leave(0), expiry, timeout);
    assert s6 == State(0, None, map[], map[], Serving(None));
    OneStep(s6, Look({}), expiry, timeout);
    FirstOf(s5, STARTED[5..], expiry, timeout);
    FirstOf(s4, STARTED[4..], expiry, timeout);
    FirstOf(s3, STARTED[3..], expiry, timeout);
    FirstOf(s2, STARTED[2..], expiry, timeout);
    FirstOf(s1, STARTED[1..], expiry, timeout);
    FirstOf(s0, STARTED, expiry, timeout);
  }

  lemma AttachedSteps(s0: State, s1: State, s2: State, s3: State, s4: State, s5: State, expiry: nat, timeout: nat)
    requires Next(s0, Look({}), expiry, timeout) == s1 && Next(s1, Lock(1), expiry, timeout) == s2
    requires Next(s2, Probe(1), expiry, timeout) == s3 && Next(s3, Lease(1), expiry, timeout) == s4
    requires Next(s4, Unlock(1), expiry, timeout) == s5
    ensures AllLegal(s0, ATTACHED, expiry, timeout)
    ensures Run(s0, ATTACHED, expiry, timeout) == Next(s5, ServerLock, expiry, timeout)
  {
    hide Next, Run, AllLegal, Timely;
    OneStep(s5, ServerLock, expiry, timeout);
    FirstOf(s4, [Unlock(1), ServerLock], expiry, timeout);
    FirstOf(s3, [Lease(1), Unlock(1), ServerLock], expiry, timeout);
    FirstOf(s2, [Probe(1), Lease(1), Unlock(1), ServerLock], expiry, timeout);
    FirstOf(s1, [Lock(1), Probe(1), Lease(1), Unlock(1), ServerLock], expiry, timeout);
    FirstOf(s0, ATTACHED, expiry, timeout);
    assert ATTACHED[1..] == [Lock(1), Probe(1), Lease(1), Unlock(1), ServerLock];
    assert [Lock(1), Probe(1), Lease(1), Unlock(1), ServerLock][1..] == [Probe(1), Lease(1), Unlock(1), ServerLock];
    assert [Probe(1), Lease(1), Unlock(1), ServerLock][1..] == [Lease(1), Unlock(1), ServerLock];
    assert [Lease(1), Unlock(1), ServerLock][1..] == [Unlock(1), ServerLock];
    assert [Unlock(1), ServerLock][1..] == [ServerLock];
  }

  lemma BeforeTheLease(s0: State, s1: State, s2: State, s3: State, expiry: nat, timeout: nat)
    requires s0 == State(timeout, None, map[], map[], Serving(Some(0))) && s1 == s0.(server := WantsLock)
    requires s2 == State(timeout, Some(ByClient(1)), map[], map[1 := Locked], WantsLock) && s3 == s2.(clients := map[1 := FoundReady])
    ensures Next(s0, Look({}), expiry, timeout) == s1 && Next(s1, Lock(1), expiry, timeout) == s2
    ensures Next(s2, Probe(1), expiry, timeout) == s3
  {
  }

  lemma AfterTheLease(s3: State, s4: State, s5: State, expiry: nat, timeout: nat)
    requires s3 == State(timeout, Some(ByClient(1)), map[], map[1 := FoundReady], WantsLock)
    requires s4 == s3.(leases := map[1 := timeout], clients := map[1 := Attaching])
    requires s5 == State(timeout, None, map[1 := timeout], map[1 := Attached], WantsLock)
    ensures Next(s3, Lease(1), expiry, timeout) == s4 && Next(s4, Unlock(1), expiry, timeout) == s5
    ensures Next(s5, ServerLock, expiry, timeout) == s5.(lock := Some(ByServer), server := Rechecking)
  {
  }

  lemma AttachedRun(expiry: nat, timeout: nat)
    ensures var s := State(timeout, None, map[], map[], Serving(Some(0)));
            && AllLegal(s, ATTACHED, expiry, timeout)
            && Run(s, ATTACHED, expiry, timeout) == State(timeout, Some(ByServer), map[1 := timeout], map[1 := Attached], Rechecking)
  {
    var s0 := State(timeout, None, map[], map[], Serving(Some(0)));
    var s1 := State(timeout, None, map[], map[], WantsLock);
    var s2 := State(timeout, Some(ByClient(1)), map[], map[1 := Locked], WantsLock);
    var s3 := s2.(clients := map[1 := FoundReady]);
    var s4 := s2.(leases := map[1 := timeout], clients := map[1 := Attaching]);
    var s5 := State(timeout, None, map[1 := timeout], map[1 := Attached], WantsLock);
    hide Next, Run, AllLegal, ATTACHED;
    BeforeTheLease(s0, s1, s2, s3, expiry, timeout);
    AfterTheLease(s3, s4, s5, expiry, timeout);
    AttachedSteps(s0, s1, s2, s3, s4, s5, expiry, timeout);
  }

  lemma FinalChecks(s: State, seen: set<nat>, expiry: nat, timeout: nat)
    requires s.server == Rechecking && Is(s, 1, Attached) && 1 in s.leases && s.now <= s.leases[1] + expiry
    requires s.leases.Keys == {1}
    ensures FreshLease(s, 1, expiry)
    ensures var t := Next(s, Recheck(seen), expiry, timeout);
            t.server == (if 1 in seen then Serving(None) else Stopping) && Is(t, 1, Attached)
  {
  }

  /** For every expiry and timeout a run from nothing that keeps all rules and ends before the final
      check, with an attached client whose lease is fresh: if only that check cannot inspect the lease,
      the server stops under the client. */
  lemma AttachedClientIsStranded(seen: set<nat>, expiry: nat, timeout: nat)
    ensures AllLegal(Init(Down), IdleThenAttached(timeout), expiry, timeout)
    ensures var s := Run(Init(Down), IdleThenAttached(timeout), expiry, timeout);
            && s.server == Rechecking && Is(s, 1, Attached) && 1 in s.leases && FreshLease(s, 1, expiry)
            && var t := Next(s, Recheck(seen), expiry, timeout);
            Is(t, 1, Attached) && t.server == if 1 in seen then Serving(None) else Stopping
  {
    hide Next, Run, AllLegal, STARTED, ATTACHED;
    StartedRun(expiry, timeout);
    var started := Run(Init(Down), STARTED, expiry, timeout);
    Idling(started, timeout, expiry, timeout);
    RunSplit(Init(Down), STARTED, Ticks(timeout), expiry, timeout);
    AttachedRun(expiry, timeout);
    RunSplit(Init(Down), STARTED + Ticks(timeout), ATTACHED, expiry, timeout);
    FinalChecks(Run(Init(Down), IdleThenAttached(timeout), expiry, timeout), seen, expiry, timeout);
  }
}
