/** The interruption marker of internal/agent/sessions.go and its aggregate over the tool executions
    that a run journalled before they started. */
module ExecutionMarker {
  import opened Text
  import opened Wrappers

  /** A SHA-256 digest in hexadecimal. */
  type Hex64 = s: string | |s| == 64 && LowerHex(s)
    witness seq(64, _ => '0')

  datatype Effect = Unset | Unknown | Started | MayHaveApplied | Applied | OtherEffect(name: string)

  /** What is durably known about a run that may have had side effects; `at` is 0 for the zero time. */
  datatype Marker = Marker(
    at: nat, reason: string, runId: string, toolName: string, toolCallId: string,
    inputDigest: string, effect: Effect, summary: string)

  /** ValidateSessionInterruption */
  predicate ValidMarker(m: Marker) {
    && Utf8Length(m.reason) <= 1024 && Utf8Length(m.runId) <= 256 && Utf8Length(m.toolName) <= 128
    && Utf8Length(m.toolCallId) <= 256 && Utf8Length(m.summary) <= 1024
    && (m.runId != "" || m.inputDigest != "" || m.effect != Unset || m.summary != "" ==>
          && TrimSpace(m.runId) != "" && TrimSpace(m.toolName) != "" && TrimSpace(m.summary) != ""
          && IsLowerSha256(m.inputDigest, "sha256:")
          && m.effect in {Unknown, Started, MayHaveApplied, Applied})
  }

  // ----- the aggregate of a run's tool executions -----

  datatype Entry = Entry(id: string, name: string, inputDigest: string, runId: string)

  /** What the digest covers of one execution. */
  datatype ToolState = ToolState(toolCallId: string, toolName: string, inputDigest: string)

  const ONE_SUMMARY := "Authorized tool execution started; marker quarantines the entire run."
  const MANY_SUMMARY := " tool executions began; reconcile every side effect represented by the aggregate digest before resuming."

  function StateOf(e: Entry): ToolState {
    ToolState(TrimSpace(e.id), TrimSpace(e.name), TrimSpace(e.inputDigest))
  }

  function States(entries: seq<Entry>): seq<ToolState> {
    if entries == [] then [] else [StateOf(entries[0])] + States(entries[1..])
  }

  /** The order that the states are sorted by. */
  predicate Before(x: ToolState, y: ToolState) {
    if x.toolCallId != y.toolCallId then Below(x.toolCallId, y.toolCallId)
    else if x.inputDigest != y.inputDigest then Below(x.inputDigest, y.inputDigest)
    else Below(x.toolName, y.toolName)
  }

  function Insert(x: ToolState, sorted: seq<ToolState>): seq<ToolState> {
    if sorted == [] || !Before(sorted[0], x) then [x] + sorted else [sorted[0]] + Insert(x, sorted[1..])
  }

  function Sort(states: seq<ToolState>): seq<ToolState> {
    if states == [] then [] else Insert(states[0], Sort(states[1..]))
  }

  predicate Sorted(states: seq<ToolState>) {
    forall i, j :: 0 <= i < j < |states| ==> !Before(states[j], states[i])
  }

  lemma BeforeTotal(x: ToolState, y: ToolState)
    ensures !(Before(x, y) && Before(y, x))
    ensures !Before(x, y) && !Before(y, x) ==> x == y
  {
    BelowTotal(x.toolCallId, y.toolCallId);
    BelowTotal(x.inputDigest, y.inputDigest);
    BelowTotal(x.toolName, y.toolName);
  }

  lemma BeforeChain(x: ToolState, y: ToolState, z: ToolState)
    requires Before(x, y) && Before(y, z)
    ensures Before(x, z)
  {
    BelowTotal(x.toolCallId, y.toolCallId);
    BelowTotal(x.inputDigest, y.inputDigest);
    if x.toolCallId != y.toolCallId && y.toolCallId != z.toolCallId {
      BelowTransitive(x.toolCallId, y.toolCallId, z.toolCallId);
      BelowTotal(x.toolCallId, z.toolCallId);
    }
    if x.inputDigest != y.inputDigest && y.inputDigest != z.inputDigest && x.toolCallId == y.toolCallId == z.toolCallId {
      BelowTransitive(x.inputDigest, y.inputDigest, z.inputDigest);
      BelowTotal(x.inputDigest, z.inputDigest);
    }
    if x.toolCallId == y.toolCallId == z.toolCallId && x.inputDigest == y.inputDigest == z.inputDigest {
      BelowTransitive(x.toolName, y.toolName, z.toolName);
    }
  }

  lemma BeforeTransitive(x: ToolState, y: ToolState, z: ToolState)
    requires !Before(y, x) && !Before(z, y)
    ensures !Before(z, x)
  {
    hide Below;
    BeforeTotal(x, y);
    BeforeTotal(y, z);
    if Before(z, x) && x != y && y != z {
      BeforeChain(x, y, z);
      BeforeTotal(x, z);
    }
  }

  lemma {:induction false} InsertSorts(x: ToolState, sorted: seq<ToolState>)
    requires Sorted(sorted)
    ensures Sorted(Insert(x, sorted)) && multiset(Insert(x, sorted)) == multiset{x} + multiset(sorted)
  {
    hide Before;
    if sorted != [] {
      assert sorted == [sorted[0]] + sorted[1..];
      if Before(sorted[0], x) {
        BeforeTotal(sorted[0], x);
        var rest := Insert(x, sorted[1..]);
        InsertSorts(x, sorted[1..]);
        forall j | 0 <= j < |rest| ensures !Before(rest[j], sorted[0]) {
          assert rest[j] in multiset(rest);
        }
      } else {
        forall j | 0 <= j < |sorted| ensures !Before(sorted[j], x) {
          if j > 0 {
            BeforeTransitive(x, sorted[0], sorted[j]);
          }
        }
      }
    }
  }

  lemma {:induction false} SortSorts(states: seq<ToolState>)
    ensures Sorted(Sort(states)) && multiset(Sort(states)) == multiset(states) && |Sort(states)| == |states|
  {
    if states != [] {
      SortSorts(states[1..]);
      InsertSorts(states[0], Sort(states[1..]));
      assert states == [states[0]] + states[1..];
      assert |multiset(Sort(states))| == |multiset(states)|;
    }
  }

  lemma SortedHead(a: seq<ToolState>, b: seq<ToolState>)
    requires Sorted(a) && Sorted(b) && multiset(a) == multiset(b) && a != []
    ensures b != [] && a[0] == b[0]
  {
    hide Before;
    assert a[0] in multiset(b);
    var i :| 0 <= i < |b| && b[i] == a[0];
    assert b[0] in multiset(a);
    var j :| 0 <= j < |a| && a[j] == b[0];
    BeforeTotal(a[0], b[0]);
  }

  lemma SameTails<T>(a: seq<T>, b: seq<T>)
    requires a != [] && b != [] && a[0] == b[0] && multiset(a) == multiset(b)
    ensures multiset(a[1..]) == multiset(b[1..])
  {
    assert a == [a[0]] + a[1..] && b == [b[0]] + b[1..];
    assert multiset(a[1..]) == multiset(a) - multiset{a[0]};
  }

  lemma SortedTail(a: seq<ToolState>)
    requires Sorted(a) && a != []
    ensures Sorted(a[1..])
  {
  }

  /** There is only one sorted arrangement. */
  lemma {:induction false} SortedIsUnique(a: seq<ToolState>, b: seq<ToolState>)
    requires Sorted(a) && Sorted(b) && multiset(a) == multiset(b)
    ensures a == b
  {
    hide Before, Sorted;
    if a == [] {
      assert |b| == |multiset(b)| == 0;
    } else {
      SortedHead(a, b);
      SameTails(a, b);
      SortedTail(a);
      SortedTail(b);
      SortedIsUnique(a[1..], b[1..]);
      assert a == [a[0]] + a[1..] && b == [b[0]] + b[1..];
    }
  }

  /** An execution that may be journalled for the run. */
  predicate Sound(e: Entry, runId: string) {
    && TrimSpace(e.id) != "" && TrimSpace(e.name) != "" && TrimSpace(e.runId) != "" && TrimSpace(e.runId) == runId
    && Utf8Length(TrimSpace(e.id)) <= 256 && Utf8Length(TrimSpace(e.name)) <= 128 && Utf8Length(runId) <= 256
    && IsLowerSha256(TrimSpace(e.inputDigest), "sha256:")
  }

  /** The marker for one execution is exact; the marker for several is a digest of all of them. */
  function MarkerOf(states: seq<ToolState>, runId: string, at: nat, reason: string, hash: seq<ToolState> -> Hex64): Marker
    requires states != []
  {
    if |states| == 1 then
      Marker(at, TrimSpace(reason), runId, states[0].toolName, states[0].toolCallId, states[0].inputDigest, Started, ONE_SUMMARY)
    else
      Marker(at, TrimSpace(reason), runId, "multiple_tools", "multiple", "sha256:" + hash(states), MayHaveApplied,
             "Agent run ended after " + Decimal(|states|) + MANY_SUMMARY)
  }

  predicate Aggregable(entries: seq<Entry>) {
    entries != [] && forall e :: e in entries ==> Sound(e, TrimSpace(entries[0].runId))
  }

  lemma {:induction false} StatesLength(entries: seq<Entry>)
    ensures |States(entries)| == |entries|
    ensures forall k :: 0 <= k < |entries| ==> States(entries)[k] == StateOf(entries[k])
  {
    if entries != [] {
      StatesLength(entries[1..]);
    }
  }

  /** AggregateToolExecutionJournal; None for its errors. */
  function Aggregate(entries: seq<Entry>, at: nat, reason: string, hash: seq<ToolState> -> Hex64): Option<Marker> {
    if !Aggregable(entries) then None
    else
      SortSorts(States(entries));
      StatesLength(entries);
      var marker := MarkerOf(Sort(States(entries)), TrimSpace(entries[0].runId), at, reason, hash);
      if ValidMarker(marker) then Some(marker) else None
  }

  lemma {:induction false} StatesAppend(entries: seq<Entry>, e: Entry)
    ensures States(entries + [e]) == States(entries) + [StateOf(e)]
  {
    StatesLength(entries);
    StatesLength(entries + [e]);
    assert forall k :: 0 <= k < |entries| ==> (entries + [e])[k] == entries[k];
    assert States(entries + [e]) == States(entries) + [StateOf(e)];
  }

  lemma StatesCut(entries: seq<Entry>, k: nat)
    requires k < |entries|
    ensures multiset(States(entries)) == multiset{StateOf(entries[k])} + multiset(States(entries[..k] + entries[k + 1..]))
  {
    hide States, StateOf;
    var rest := entries[..k] + entries[k + 1..];
    StatesLength(entries);
    StatesLength(rest);
    assert States(rest) == States(entries)[..k] + States(entries)[k + 1..];
    assert States(entries) == States(entries)[..k] + [States(entries)[k]] + States(entries)[k + 1..];
  }

  lemma {:induction false} StatesOfSameEntries(entries: seq<Entry>, others: seq<Entry>)
    requires multiset(entries) == multiset(others)
    ensures multiset(States(entries)) == multiset(States(others))
  {
    assert |entries| == |multiset(entries)| == |multiset(others)| == |others|;
    if entries != [] {
      var e := entries[0];
      assert e in multiset(others);
      var k :| 0 <= k < |others| && others[k] == e;
      var rest := others[..k] + others[k + 1..];
      assert entries == [e] + entries[1..];
      assert others == others[..k] + [e] + others[k + 1..];
      assert multiset(entries[1..]) == multiset(entries) - multiset{e};
      assert multiset(rest) == multiset(others) - multiset{e};
      StatesOfSameEntries(entries[1..], rest);
      StatesCut(others, k);
    }
  }

  lemma SameElements(entries: seq<Entry>, others: seq<Entry>)
    requires multiset(entries) == multiset(others)
    ensures |entries| == |others| && forall e :: e in entries <==> e in others
    ensures entries != [] ==> others[0] in entries && entries[0] in others
  {
    assert |entries| == |multiset(entries)| == |multiset(others)| == |others|;
    assert forall e :: e in entries <==> e in multiset(entries);
    assert forall e :: e in others <==> e in multiset(others);
  }

  /** The aggregate depends only on which executions were journalled, not on their order. */
  lemma ScheduleIndependent(entries: seq<Entry>, others: seq<Entry>, at: nat, reason: string, hash: seq<ToolState> -> Hex64)
    requires multiset(entries) == multiset(others)
    ensures Aggregate(entries, at, reason, hash) == Aggregate(others, at, reason, hash)
  {
    hide TrimSpace, Utf8Length, States, Sort, MarkerOf, ValidMarker, IsLowerSha256;
    SameElements(entries, others);
    if entries != [] {
      StatesOfSameEntries(entries, others);
      SortSorts(States(entries));
      SortSorts(States(others));
      SortedIsUnique(Sort(States(entries)), Sort(States(others)));
    }
  }

  /** One execution is named exactly; several are not named, and may have been applied. */
  lemma AggregateNames(entries: seq<Entry>, at: nat, reason: string, hash: seq<ToolState> -> Hex64)
    ensures var m := Aggregate(entries, at, reason, hash);
            m.Some? ==>
              && m.value.at == at && m.value.runId == TrimSpace(entries[0].runId)
              && (forall e :: e in entries ==> TrimSpace(e.runId) == m.value.runId)
              && (m.value.effect == Started <==> |entries| == 1)
              && (m.value.effect == Started ==>
                    ToolState(m.value.toolCallId, m.value.toolName, m.value.inputDigest) == StateOf(entries[0]))
              && (m.value.effect != Started ==>
                    m.value.effect == MayHaveApplied && m.value.toolCallId == "multiple" && m.value.toolName == "multiple_tools")
  {
    hide ValidMarker, Sort, States, TrimSpace, Decimal, Utf8Length;
    SortSorts(States(entries));
    StatesLength(entries);
    var sorted := Sort(States(entries));
    if |entries| == 1 {
      assert sorted == [sorted[0]] && States(entries) == [StateOf(entries[0])];
      assert sorted[0] in multiset(States(entries));
    }
  }

  lemma SortedAlone(sorted: seq<ToolState>, states: seq<ToolState>)
    requires |states| == 1 && multiset(sorted) == multiset(states)
    ensures sorted == states
  {
    assert |sorted| == |multiset(sorted)| == 1;
    assert sorted[0] in multiset(states);
  }

  /** What the marker says about the executions: one is described by its own digest, several by the digest
      of their sorted states, in whatever order they were journalled. */
  lemma AggregateDescribes(entries: seq<Entry>, at: nat, reason: string, hash: seq<ToolState> -> Hex64, sorted: seq<ToolState>)
    requires Aggregate(entries, at, reason, hash).Some?
    requires Sorted(sorted) && multiset(sorted) == multiset(States(entries))
    ensures var m := Aggregate(entries, at, reason, hash).value;
            && m.reason == TrimSpace(reason)
            && m.inputDigest == (if |entries| == 1 then TrimSpace(entries[0].inputDigest) else "sha256:" + hash(sorted))
            && m.summary == if |entries| == 1 then ONE_SUMMARY else "Agent run ended after " + Decimal(|entries|) + MANY_SUMMARY
  {
    hide ValidMarker, Sort, States, TrimSpace, Decimal, Utf8Length, Sorted, Sound;
    SortSorts(States(entries));
    StatesLength(entries);
    SortedIsUnique(sorted, Sort(States(entries)));
    if |entries| == 1 {
      SortedAlone(sorted, States(entries));
    }
  }

  lemma TrimTwice(s: string)
    ensures TrimSpace(TrimSpace(s)) == TrimSpace(s)
  {
    var before, after := TrimSpaceParts(s);
    TrimTrimmed(TrimSpace(s));
  }

  lemma SummariesFit(n: nat)
    ensures TrimSpace(ONE_SUMMARY) != "" && Utf8Length(ONE_SUMMARY) <= 1024
    ensures TrimSpace("Agent run ended after " + Decimal(n) + MANY_SUMMARY) != ""
    ensures TrimSpace("multiple_tools") != "" && Utf8Length("multiple_tools") <= 128 && Utf8Length("multiple") <= 256
  {
    hide TrimSpace, Utf8Length, Decimal;
    Utf8LengthBound(ONE_SUMMARY);
    Utf8LengthBound("multiple_tools");
    Utf8LengthBound("multiple");
    NotBlank(ONE_SUMMARY);
    NotBlank("Agent run ended after " + Decimal(n) + MANY_SUMMARY);
    NotBlank("multiple_tools");
  }

  lemma DigestValid(hash: Hex64)
    ensures IsLowerSha256("sha256:" + hash, "sha256:")
  {
    assert ("sha256:" + hash)[..7] == "sha256:" && ("sha256:" + hash)[7..] == hash;
  }

  lemma MarkerValidIff(states: seq<ToolState>, runId: string, at: nat, reason: string, hash: seq<ToolState> -> Hex64)
    requires states != [] && TrimSpace(runId) != "" && Utf8Length(runId) <= 256
    requires forall x :: x in states ==>
               && TrimSpace(x.toolName) != "" && Utf8Length(x.toolName) <= 128 && Utf8Length(x.toolCallId) <= 256
               && IsLowerSha256(x.inputDigest, "sha256:")
    ensures ValidMarker(MarkerOf(states, runId, at, reason, hash)) <==>
              && Utf8Length(TrimSpace(reason)) <= 1024
              && (|states| == 1 || Utf8Length("Agent run ended after " + Decimal(|states|) + MANY_SUMMARY) <= 1024)
  {
    hide TrimSpace, Utf8Length, Decimal, IsLowerSha256;
    SummariesFit(|states|);
    DigestValid(hash(states));
    assert states[0] in states;
  }

  /** A journal is aggregated exactly if it is not empty, every execution has an identifier, a name, a
      digest and the one run's identifier within their lengths, and the reason and the summary fit. */
  lemma AggregateSucceedsIff(entries: seq<Entry>, at: nat, reason: string, hash: seq<ToolState> -> Hex64)
    ensures Aggregate(entries, at, reason, hash).Some? <==>
              && entries != []
              && (forall e :: e in entries ==>
                    && TrimSpace(e.id) != "" && Utf8Length(TrimSpace(e.id)) <= 256
                    && TrimSpace(e.name) != "" && Utf8Length(TrimSpace(e.name)) <= 128
                    && TrimSpace(e.runId) != "" && TrimSpace(e.runId) == TrimSpace(entries[0].runId) && Utf8Length(TrimSpace(e.runId)) <= 256
                    && IsLowerSha256(TrimSpace(e.inputDigest), "sha256:"))
              && Utf8Length(TrimSpace(reason)) <= 1024
              && (|entries| == 1 || Utf8Length("Agent run ended after " + Decimal(|entries|) + MANY_SUMMARY) <= 1024)
  {
    hide TrimSpace, Utf8Length, Decimal, IsLowerSha256, Sort, States, MarkerOf, ValidMarker;
    if Aggregable(entries) {
      var runId, sorted := TrimSpace(entries[0].runId), Sort(States(entries));
      assert entries[0] in entries;
      SortSorts(States(entries));
      StatesLength(entries);
      TrimTwice(entries[0].runId);
      forall x | x in sorted
        ensures && TrimSpace(x.toolName) != "" && Utf8Length(x.toolName) <= 128 && Utf8Length(x.toolCallId) <= 256
                && IsLowerSha256(x.inputDigest, "sha256:")
      {
        assert x in multiset(States(entries));
        var k :| 0 <= k < |entries| && States(entries)[k] == x;
        assert Sound(entries[k], runId);
        TrimTwice(entries[k].name);
      }
      MarkerValidIff(sorted, runId, at, reason, hash);
    }
  }

  /** Different collections with one digest. */
  predicate Collide(x: seq<ToolState>, y: seq<ToolState>, hash: seq<ToolState> -> Hex64) {
    x != y && hash(x) == hash(y)
  }

  lemma MarkerTells(x: seq<ToolState>, y: seq<ToolState>, runId: string, other: string, at: nat, reason: string, hash: seq<ToolState> -> Hex64)
    requires x != [] && y != [] && !Collide(x, y, hash)
    requires MarkerOf(x, runId, at, reason, hash) == MarkerOf(y, other, at, reason, hash)
    ensures x == y && runId == other
  {
    hide TrimSpace, Decimal;
    var m, n := MarkerOf(x, runId, at, reason, hash), MarkerOf(y, other, at, reason, hash);
    assert |x| == 1 <==> m.effect == Started;
    assert |y| == 1 <==> n.effect == Started;
    if |x| != 1 {
      assert m.inputDigest[7..] == hash(x) && n.inputDigest[7..] == hash(y);
    }
  }

  lemma IdentifiesWithoutCollision(entries: seq<Entry>, others: seq<Entry>, at: nat, reason: string, hash: seq<ToolState> -> Hex64)
    requires Aggregate(entries, at, reason, hash).Some? && Aggregate(others, at, reason, hash).Some?
    requires !Collide(Sort(States(entries)), Sort(States(others)), hash)
    ensures Aggregate(entries, at, reason, hash) == Aggregate(others, at, reason, hash) <==>
            && multiset(States(entries)) == multiset(States(others))
            && TrimSpace(entries[0].runId) == TrimSpace(others[0].runId)
  {
    hide ValidMarker, Sound, Sort, States, TrimSpace, Decimal;
    var x, y := Sort(States(entries)), Sort(States(others));
    SortSorts(States(entries));
    SortSorts(States(others));
    StatesLength(entries);
    StatesLength(others);
    var m, n := Aggregate(entries, at, reason, hash).value, Aggregate(others, at, reason, hash).value;
    if m == n {
      MarkerTells(x, y, TrimSpace(entries[0].runId), TrimSpace(others[0].runId), at, reason, hash);
    }
    if multiset(States(entries)) == multiset(States(others)) {
      SortedIsUnique(x, y);
    }
  }

  /** And it tells different collections of executions apart, unless their digests collide. */
  lemma AggregateIdentifies(entries: seq<Entry>, others: seq<Entry>, at: nat, reason: string, hash: seq<ToolState> -> Hex64)
    ensures var m, n := Aggregate(entries, at, reason, hash), Aggregate(others, at, reason, hash);
            m.Some? && n.Some? && !Collide(Sort(States(entries)), Sort(States(others)), hash) ==>
              (m == n <==>
                && multiset(States(entries)) == multiset(States(others))
                && TrimSpace(entries[0].runId) == TrimSpace(others[0].runId))
  {
    if Aggregate(entries, at, reason, hash).Some? && Aggregate(others, at, reason, hash).Some?
       && !Collide(Sort(States(entries)), Sort(States(others)), hash) {
      IdentifiesWithoutCollision(entries, others, at, reason, hash);
    }
  }

  /** The loop over the entries; None when one of them may not be journalled for the run. */
  method CollectStates(entries: seq<Entry>, runId: string) returns (states: Option<seq<ToolState>>)
    ensures states == if forall e :: e in entries ==> Sound(e, runId) then Some(States(entries)) else None
  {
    hide TrimSpace, States, Sound, StateOf;
    var collected: seq<ToolState> := [];
    StatesLength([]);
    for i := 0 to |entries|
      invariant collected == States(entries[..i])
      invariant forall k :: 0 <= k < i ==> Sound(entries[k], runId)
    {
      if !Sound(entries[i], runId) {
        return None;
      }
      assert entries[..i + 1] == entries[..i] + [entries[i]];
      StatesAppend(entries[..i], entries[i]);
      collected := collected + [StateOf(entries[i])];
    }
    assert entries[..|entries|] == entries;
    states := Some(collected);
  }

  /** AggregateToolExecutionJournal: the loop over the entries, then the sort. */
  method AggregateToolExecutionJournal(entries: seq<Entry>, at: nat, reason: string, hash: seq<ToolState> -> Hex64)
    returns (marker: Option<Marker>)
    ensures marker == Aggregate(entries, at, reason, hash)
  {
    if entries == [] {
      return None;
    }
    hide TrimSpace, States, Sort, Sound, ValidMarker, MarkerOf;
    var runId := TrimSpace(entries[0].runId);
    var states := CollectStates(entries, runId);
    if states.None? {
      return None;
    }
    StatesLength(entries);
    SortSorts(states.value);
    var result := MarkerOf(Sort(states.value), runId, at, reason, hash);
    marker := if ValidMarker(result) then Some(result) else None;
  }
}
