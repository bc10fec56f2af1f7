/** The line diff of internal/agent/diff.go: a bottom-up table of longest-common-subsequence
    lengths, a greedy walk over it, and the printed script. */
module LineDiff {
  import opened Sequences
  import opened Wrappers

  /** One line of a diff. */
  datatype Edit = Keep(line: string) | Remove(line: string) | Add(line: string)

  /** The table is only built while it has at most this many cells. */
  const MAX_TABLE_CELLS := 4_000_000

  // ----- what a script means -----

  function OldPart(e: Edit): seq<string> {
    if e.Add? then [] else [e.line]
  }

  function NewPart(e: Edit): seq<string> {
    if e.Remove? then [] else [e.line]
  }

  function KeptPart(e: Edit): seq<string> {
    if e.Keep? then [e.line] else []
  }

  /** The lines of the old text, as the script tells them. */
  function OldLines(script: seq<Edit>): seq<string> {
    if script == [] then [] else OldPart(script[0]) + OldLines(script[1..])
  }

  /** The lines of the new text, as the script tells them. */
  function NewLines(script: seq<Edit>): seq<string> {
    if script == [] then [] else NewPart(script[0]) + NewLines(script[1..])
  }

  function Kept(script: seq<Edit>): seq<string> {
    if script == [] then [] else KeptPart(script[0]) + Kept(script[1..])
  }

  /** The number of removed and added lines. */
  function Changes(script: seq<Edit>): nat {
    if script == [] then 0 else (if script[0].Keep? then 0 else 1) + Changes(script[1..])
  }

  function PrintEdit(e: Edit): string {
    match e
    case Keep(line) => "  " + line + "\n"
    case Remove(line) => "- " + line + "\n"
    case Add(line) => "+ " + line + "\n"
  }

  function Print(script: seq<Edit>): string {
    if script == [] then "" else PrintEdit(script[0]) + Print(script[1..])
  }

  /** Reads one printed line, without its newline. */
  function ParseEdit(line: string): Option<Edit> {
    if |line| < 2 then None
    else if line[..2] == "  " then Some(Keep(line[2..]))
    else if line[..2] == "- " then Some(Remove(line[2..]))
    else if line[..2] == "+ " then Some(Add(line[2..]))
    else None
  }

  function ParseEdits(lines: seq<string>): Option<seq<Edit>> {
    if lines == [] then Some([])
    else
      match (ParseEdit(lines[0]), ParseEdits(lines[1..]))
      case (Some(e), Some(rest)) => Some([e] + rest)
      case _ => None
  }

  /** Reads a printed diff back: every line is newline-terminated. */
  function ParseScript(text: string): Option<seq<Edit>> {
    var lines := Split(text, '\n');
    if lines[|lines| - 1] != "" then None else ParseEdits(lines[..|lines| - 1])
  }

  predicate SingleLines(script: seq<Edit>) {
    forall k :: 0 <= k < |script| ==> '\n' !in script[k].line
  }

  /** A script that turns the lines `a` into the lines `b`. */
  predicate Turns(script: seq<Edit>, a: seq<string>, b: seq<string>) {
    OldLines(script) == a && NewLines(script) == b
  }

  // ----- common subsequences -----

  /** `c` is obtained from `a` by leaving lines out. */
  predicate Subsequence(c: seq<string>, a: seq<string>) {
    c == [] || (a != [] && ((c[0] == a[0] && Subsequence(c[1..], a[1..])) || Subsequence(c, a[1..])))
  }

  predicate Common(c: seq<string>, a: seq<string>, b: seq<string>) {
    Subsequence(c, a) && Subsequence(c, b)
  }

  /** The recurrence the table is filled by. */
  function Lcs(a: seq<string>, b: seq<string>): nat {
    if a == [] || b == [] then 0
    else if a[0] == b[0] then Lcs(a[1..], b[1..]) + 1
    else if Lcs(a[1..], b) >= Lcs(a, b[1..]) then Lcs(a[1..], b)
    else Lcs(a, b[1..])
  }

  lemma {:induction false} SubsequenceSkip(c: seq<string>, a: seq<string>)
    requires a != [] && Subsequence(c, a[1..])
    ensures Subsequence(c, a)
  {
  }

  /** Dropping the head of a subsequence leaves a subsequence of the tail. */
  lemma {:induction false} SubsequenceTail(c: seq<string>, a: seq<string>)
    requires c != [] && Subsequence(c, a)
    ensures a != [] && Subsequence(c[1..], a[1..])
  {
    if !(c[0] == a[0] && Subsequence(c[1..], a[1..])) {
      SubsequenceTail(c, a[1..]);
      SubsequenceSkip(c[1..], a[1..]);
    }
  }

  /** No common subsequence of any kind is longer than the recurrence says. */
  lemma {:induction false} LcsIsUpperBound(c: seq<string>, a: seq<string>, b: seq<string>)
    requires Common(c, a, b)
    ensures |c| <= Lcs(a, b)
    decreases |a| + |b|
  {
    if c == [] || a == [] || b == [] {
    } else if a[0] == b[0] {
      SubsequenceTail(c, a);
      SubsequenceTail(c, b);
      LcsIsUpperBound(c[1..], a[1..], b[1..]);
    } else if c[0] == a[0] {
      LcsIsUpperBound(c, a, b[1..]);
    } else {
      LcsIsUpperBound(c, a[1..], b);
    }
  }

  lemma CommonMore(e: Edit, c: seq<string>, a: seq<string>, b: seq<string>)
    requires Common(c, a, b)
    ensures Common(KeptPart(e) + c, OldPart(e) + a, NewPart(e) + b)
  {
    var kept, older, newer := KeptPart(e) + c, OldPart(e) + a, NewPart(e) + b;
    if e.Keep? {
      assert kept[1..] == c && older[1..] == a && newer[1..] == b;
    } else if e.Remove? {
      assert kept == c && older[1..] == a && newer == b;
      SubsequenceSkip(c, older);
    } else {
      assert kept == c && older == a && newer[1..] == b;
      SubsequenceSkip(c, newer);
    }
  }

  /** The kept lines of any script are common to both texts it relates. */
  lemma {:induction false} KeptIsCommon(script: seq<Edit>)
    ensures Common(Kept(script), OldLines(script), NewLines(script))
  {
    if script != [] {
      hide Common, KeptPart, OldPart, NewPart;
      KeptIsCommon(script[1..]);
      CommonMore(script[0], Kept(script[1..]), OldLines(script[1..]), NewLines(script[1..]));
    }
  }

  lemma {:induction false} ChangesCount(script: seq<Edit>)
    ensures Changes(script) + 2 * |Kept(script)| == |OldLines(script)| + |NewLines(script)|
  {
    if script != [] {
      ChangesCount(script[1..]);
    }
  }

  /** A script that keeps as many lines as the recurrence says is optimal: it keeps a longest
      common subsequence, and no script between the same texts changes fewer lines. */
  lemma {:induction false} OptimalScript(script: seq<Edit>, a: seq<string>, b: seq<string>)
    requires Turns(script, a, b) && |Kept(script)| == Lcs(a, b)
    ensures Common(Kept(script), a, b)
    ensures forall c :: Common(c, a, b) ==> |c| <= |Kept(script)|
    ensures forall other :: Turns(other, a, b) ==> Changes(script) <= Changes(other)
  {
    KeptIsCommon(script);
    ChangesCount(script);
    forall c | Common(c, a, b) ensures |c| <= |Kept(script)| {
      LcsIsUpperBound(c, a, b);
    }
    forall other | Turns(other, a, b) ensures Changes(script) <= Changes(other) {
      KeptIsCommon(other);
      ChangesCount(other);
    }
  }

  // ----- which optimal script -----

  function Rank(e: Edit): nat {
    match e
    case Keep(_) => 0
    case Remove(_) => 1
    case Add(_) => 2
  }

  /** Where the scripts first differ, the first one has the earlier kind of edit: keep, remove, add. */
  predicate Precedes(script: seq<Edit>, other: seq<Edit>) {
    if script == [] || other == [] then script == other
    else if script[0] == other[0] then Precedes(script[1..], other[1..])
    else Rank(script[0]) < Rank(other[0])
  }

  /** The script that the walk prints from two texts on. */
  function Greedy(a: seq<string>, b: seq<string>): seq<Edit> {
    if a == [] && b == [] then []
    else if b == [] then [Remove(a[0])] + Greedy(a[1..], b)
    else if a == [] then [Add(b[0])] + Greedy(a, b[1..])
    else if a[0] == b[0] then [Keep(a[0])] + Greedy(a[1..], b[1..])
    else if Lcs(a[1..], b) >= Lcs(a, b[1..]) then [Remove(a[0])] + Greedy(a[1..], b)
    else [Add(b[0])] + Greedy(a, b[1..])
  }

  function Removes(lines: seq<string>): seq<Edit> {
    seq(|lines|, k requires 0 <= k < |lines| => Remove(lines[k]))
  }

  function Adds(lines: seq<string>): seq<Edit> {
    seq(|lines|, k requires 0 <= k < |lines| => Add(lines[k]))
  }

  lemma RemovesAll(lines: seq<string>)
    ensures Removes([]) == [] && (lines != [] ==> Removes(lines) == [Remove(lines[0])] + Removes(lines[1..]))
  {
  }

  lemma AddsAll(lines: seq<string>)
    ensures Adds([]) == [] && (lines != [] ==> Adds(lines) == [Add(lines[0])] + Adds(lines[1..]))
  {
  }

  lemma {:induction false} GreedyAtEdge(a: seq<string>, b: seq<string>)
    requires a == [] || b == []
    ensures Greedy(a, b) == Removes(a) + Adds(b)
    decreases |a| + |b|
  {
    hide Removes, Adds, Lcs;
    RemovesAll(a);
    AddsAll(b);
    if a != [] {
      GreedyAtEdge(a[1..], b);
    } else if b != [] {
      GreedyAtEdge(a, b[1..]);
    }
  }

  lemma KeptAtMost(script: seq<Edit>, a: seq<string>, b: seq<string>)
    requires Turns(script, a, b)
    ensures |Kept(script)| <= Lcs(a, b)
  {
    KeptIsCommon(script);
    LcsIsUpperBound(Kept(script), a, b);
  }

  lemma TurnsTail(script: seq<Edit>, a: seq<string>, b: seq<string>)
    requires Turns(script, a, b) && script != []
    ensures match script[0]
            case Keep(line) => a != [] && b != [] && a[0] == b[0] == line && Turns(script[1..], a[1..], b[1..])
            case Remove(line) => a != [] && a[0] == line && Turns(script[1..], a[1..], b)
            case Add(line) => b != [] && b[0] == line && Turns(script[1..], a, b[1..])
  {
  }

  /** Among all scripts that keep as many lines, the walk prints the one that precedes all others: it
      keeps a line where it can, and removes before it adds. */
  lemma {:induction false} GreedyPrecedes(a: seq<string>, b: seq<string>, other: seq<Edit>)
    requires Turns(other, a, b) && |Kept(other)| == Lcs(a, b)
    ensures Precedes(Greedy(a, b), other)
    decreases |other|
  {
    if other != [] {
      var rest := other[1..];
      TurnsTail(other, a, b);
      match other[0]
      case Keep(_) =>
        GreedyPrecedes(a[1..], b[1..], rest);
      case Remove(_) =>
        KeptAtMost(rest, a[1..], b);
        if b == [] || a[0] != b[0] {
          GreedyPrecedes(a[1..], b, rest);
        }
      case Add(_) =>
        KeptAtMost(rest, a, b[1..]);
        if a == [] || (a[0] != b[0] && Lcs(a[1..], b) < Lcs(a, b[1..])) {
          GreedyPrecedes(a, b[1..], rest);
        }
    }
  }

  lemma FirstOfOptimal(script: seq<Edit>, a: seq<string>, b: seq<string>)
    requires Turns(script, a, b) && |Kept(script)| == Lcs(a, b) && script == Greedy(a, b)
    ensures forall other :: Turns(other, a, b) && Changes(other) == Changes(script) ==> Precedes(script, other)
  {
    ChangesCount(script);
    forall other | Turns(other, a, b) && Changes(other) == Changes(script) ensures Precedes(script, other) {
      ChangesCount(other);
      GreedyPrecedes(a, b, other);
    }
  }

  // ----- printing and parsing -----

  lemma {:induction false} PrintAsLines(script: seq<Edit>) returns (lines: seq<string>)
    requires SingleLines(script)
    ensures |lines| == |script|
    ensures forall k :: 0 <= k < |lines| ==> '\n' !in lines[k]
    ensures ParseEdits(lines) == Some(script)
    ensures Print(script) == Join(lines + [""], '\n')
  {
    if script == [] {
      lines := [];
    } else {
      var rest := PrintAsLines(script[1..]);
      var printed := PrintEdit(script[0]);
      var first := printed[..|printed| - 1];
      assert first[2..] == script[0].line;
      lines := [first] + rest;
      assert lines[1..] == rest && [script[0]] + script[1..] == script;
      assert (lines + [""])[1..] == rest + [""];
    }
  }

  /** What is printed reads back as the same script. */
  lemma {:induction false} PrintParse(script: seq<Edit>)
    requires SingleLines(script)
    ensures ParseScript(Print(script)) == Some(script)
  {
    var lines := PrintAsLines(script);
    SplitJoin(lines + [""], '\n');
    assert (lines + [""])[..|lines|] == lines;
  }

  /** The lines of a diff that do not start with a mark, without their two leading characters. */
  function Unmarked(lines: seq<string>, mark: char): seq<string> {
    if lines == [] then []
    else (if lines[0] == "" || lines[0][0] == mark then [] else [lines[0][if |lines[0]| < 2 then |lines[0]| else 2..]]) + Unmarked(lines[1..], mark)
  }

  lemma PrintedEdit(e: Edit, rest: seq<string>)
    ensures var line := PrintEdit(e)[..|PrintEdit(e)| - 1];
            && Unmarked([line] + rest, '+') == OldPart(e) + Unmarked(rest, '+')
            && Unmarked([line] + rest, '-') == NewPart(e) + Unmarked(rest, '-')
  {
    var line := PrintEdit(e)[..|PrintEdit(e)| - 1];
    assert line[2..] == e.line && ([line] + rest)[1..] == rest;
  }

  lemma PrintedHead(script: seq<Edit>)
    requires SingleLines(script) && script != []
    ensures var line := PrintEdit(script[0])[..|PrintEdit(script[0])| - 1];
            Split(Print(script), '\n') == [line] + Split(Print(script[1..]), '\n')
  {
    var line, rest := PrintEdit(script[0])[..|PrintEdit(script[0])| - 1], Print(script[1..]);
    assert line[2..] == script[0].line;
    assert Print(script) == line + ['\n'] + rest;
    SplitPrefix(line, rest, '\n');
  }

  lemma NothingPrinted()
    ensures Unmarked(Split("", '\n'), '+') == [] && Unmarked(Split("", '\n'), '-') == []
  {
    assert Split("", '\n')[1..] == [];
  }

  /** How a reader takes a printed diff: the old text is in the lines that do not start with `+`, the new
      text in those that do not start with `-`. */
  lemma {:induction false} PrintedTexts(script: seq<Edit>)
    requires SingleLines(script)
    ensures Unmarked(Split(Print(script), '\n'), '+') == OldLines(script)
    ensures Unmarked(Split(Print(script), '\n'), '-') == NewLines(script)
  {
    hide Split, Unmarked, PrintEdit, OldPart, NewPart;
    if script == [] {
      NothingPrinted();
    } else {
      PrintedTexts(script[1..]);
      PrintedHead(script);
      PrintedEdit(script[0], Split(Print(script[1..]), '\n'));
    }
  }

  lemma {:induction false} OldLinesAppended(script: seq<Edit>, e: Edit)
    ensures OldLines(script + [e]) == OldLines(script) + OldPart(e)
  {
    hide OldPart;
    if script == [] {
      assert [] + [e] == [e];
    } else {
      OldLinesAppended(script[1..], e);
      assert (script + [e])[1..] == script[1..] + [e];
    }
  }

  lemma {:induction false} NewLinesAppended(script: seq<Edit>, e: Edit)
    ensures NewLines(script + [e]) == NewLines(script) + NewPart(e)
  {
    hide NewPart;
    if script == [] {
      assert [] + [e] == [e];
    } else {
      NewLinesAppended(script[1..], e);
      assert (script + [e])[1..] == script[1..] + [e];
    }
  }

  lemma {:induction false} KeptAppended(script: seq<Edit>, e: Edit)
    ensures Kept(script + [e]) == Kept(script) + KeptPart(e)
  {
    hide KeptPart;
    if script == [] {
      assert [] + [e] == [e];
    } else {
      KeptAppended(script[1..], e);
      assert (script + [e])[1..] == script[1..] + [e];
    }
  }

  lemma {:induction false} PrintAppended(script: seq<Edit>, e: Edit)
    ensures Print(script + [e]) == Print(script) + PrintEdit(e)
  {
    hide PrintEdit;
    if script == [] {
      assert [] + [e] == [e];
    } else {
      PrintAppended(script[1..], e);
      assert (script + [e])[1..] == script[1..] + [e];
    }
  }

  /** Appending one edit to a script appends its part to everything the script means. */
  lemma Appended(script: seq<Edit>, e: Edit)
    ensures OldLines(script + [e]) == OldLines(script) + OldPart(e)
    ensures NewLines(script + [e]) == NewLines(script) + NewPart(e)
    ensures Kept(script + [e]) == Kept(script) + KeptPart(e)
    ensures Print(script + [e]) == Print(script) + PrintEdit(e)
  {
    OldLinesAppended(script, e);
    NewLinesAppended(script, e);
    KeptAppended(script, e);
    PrintAppended(script, e);
  }

  // ----- the code -----

  lemma LcsAt(a: seq<string>, b: seq<string>, i: nat, j: nat)
    requires i < |a| && j < |b|
    ensures Lcs(a[i..], b[j..]) ==
            if a[i] == b[j] then Lcs(a[i + 1..], b[j + 1..]) + 1
            else if Lcs(a[i + 1..], b[j..]) >= Lcs(a[i..], b[j + 1..]) then Lcs(a[i + 1..], b[j..])
            else Lcs(a[i..], b[j + 1..])
  {
    assert a[i..][1..] == a[i + 1..] && b[j..][1..] == b[j + 1..];
  }

  lemma GreedyAt(a: seq<string>, b: seq<string>, i: nat, j: nat)
    requires i < |a| && j < |b|
    ensures Greedy(a[i..], b[j..]) ==
            if a[i] == b[j] then [Keep(a[i])] + Greedy(a[i + 1..], b[j + 1..])
            else if Lcs(a[i + 1..], b[j..]) >= Lcs(a[i..], b[j + 1..]) then [Remove(a[i])] + Greedy(a[i + 1..], b[j..])
            else [Add(b[j])] + Greedy(a[i..], b[j + 1..])
  {
    assert a[i..][1..] == a[i + 1..] && b[j..][1..] == b[j + 1..];
  }

  lemma LcsEdge(a: seq<string>, b: seq<string>, i: nat, j: nat)
    requires i <= |a| && j <= |b| && (i == |a| || j == |b|)
    ensures Lcs(a[i..], b[j..]) == 0
  {
  }

  /** Fills the table from its last corner: cell (i, j) is for the lines from i and from j on. */
  method FillTable(a: seq<string>, b: seq<string>) returns (lcs: array2<nat>)
    ensures lcs.Length0 == |a| + 1 && lcs.Length1 == |b| + 1
    ensures forall i, j :: 0 <= i <= |a| && 0 <= j <= |b| ==> lcs[i, j] == Lcs(a[i..], b[j..])
  {
    var m, n := |a|, |b|;
    lcs := new nat[m + 1, n + 1]((i, j) => 0);
    for i := m downto 0
      invariant forall k, j :: i <= k <= m && 0 <= j <= n ==> lcs[k, j] == Lcs(a[k..], b[j..])
      invariant forall k :: 0 <= k <= m ==> lcs[k, n] == 0
    {
      for j := n downto 0
        invariant forall k, l :: i < k <= m && 0 <= l <= n ==> lcs[k, l] == Lcs(a[k..], b[l..])
        invariant forall l :: j <= l <= n ==> lcs[i, l] == Lcs(a[i..], b[l..])
        invariant forall k :: 0 <= k <= m ==> lcs[k, n] == 0
      {
        LcsAt(a, b, i, j);
        if a[i] == b[j] {
          lcs[i, j] := lcs[i + 1, j + 1] + 1;
        } else if lcs[i + 1, j] >= lcs[i, j + 1] {
          lcs[i, j] := lcs[i + 1, j];
        } else {
          lcs[i, j] := lcs[i, j + 1];
        }
      }
    }
  }

  /** The script so far accounts for the lines before `i` and `j`, and `text` is its print. */
  ghost predicate Walked(script: seq<Edit>, text: string, a: seq<string>, b: seq<string>, i: nat, j: nat) {
    && i <= |a| && j <= |b|
    && Turns(script, a[..i], b[..j])
    && text == Print(script)
    && SingleLines(script)
  }

  lemma WalkStart(a: seq<string>, b: seq<string>)
    ensures Walked([], "", a, b, 0, 0) && Kept([]) == []
  {
  }

  lemma WalkKeep(script: seq<Edit>, text: string, a: seq<string>, b: seq<string>, i: nat, j: nat)
    requires Walked(script, text, a, b, i, j) && i < |a| && j < |b| && a[i] == b[j] && '\n' !in a[i]
    ensures Walked(script + [Keep(a[i])], text + PrintEdit(Keep(a[i])), a, b, i + 1, j + 1)
    ensures Kept(script + [Keep(a[i])]) == Kept(script) + [a[i]]
  {
    hide OldLines, NewLines, Kept, Print, PrintEdit;
    var e := Keep(a[i]);
    Appended(script, e);
    assert OldLines(script + [e]) == a[..i + 1];
    assert NewLines(script + [e]) == b[..j + 1];
  }

  lemma WalkRemove(script: seq<Edit>, text: string, a: seq<string>, b: seq<string>, i: nat, j: nat)
    requires Walked(script, text, a, b, i, j) && i < |a| && '\n' !in a[i]
    ensures Walked(script + [Remove(a[i])], text + PrintEdit(Remove(a[i])), a, b, i + 1, j)
    ensures Kept(script + [Remove(a[i])]) == Kept(script)
  {
    hide OldLines, NewLines, Kept, Print, PrintEdit;
    Appended(script, Remove(a[i]));
    assert a[..i] + [a[i]] == a[..i + 1];
  }

  lemma WalkAdd(script: seq<Edit>, text: string, a: seq<string>, b: seq<string>, i: nat, j: nat)
    requires Walked(script, text, a, b, i, j) && j < |b| && '\n' !in b[j]
    ensures Walked(script + [Add(b[j])], text + PrintEdit(Add(b[j])), a, b, i, j + 1)
    ensures Kept(script + [Add(b[j])]) == Kept(script)
  {
    hide OldLines, NewLines, Kept, Print, PrintEdit;
    Appended(script, Add(b[j]));
    assert b[..j] + [b[j]] == b[..j + 1];
  }

  /** Removing one more line, or adding one more, after what was done. */
  lemma RestMore(done: seq<Edit>, a: seq<string>, b: seq<string>, from: nat, i: nat, to: nat, j: nat)
    requires from <= i <= |a| && to <= j <= |b|
    ensures i < |a| ==> done + Removes(a[from..i]) + [Remove(a[i])] == done + Removes(a[from..i + 1])
    ensures j < |b| ==> done + Adds(b[to..j]) + [Add(b[j])] == done + Adds(b[to..j + 1])
    ensures done + Removes(a[from..from]) == done + Adds(b[to..to]) == done
  {
    assert i < |a| ==> Removes(a[from..i + 1]) == Removes(a[from..i]) + [Remove(a[i])];
    assert j < |b| ==> Adds(b[to..j + 1]) == Adds(b[to..j]) + [Add(b[j])];
  }

  /** The remaining old lines are removed and the remaining new lines added. */
  method PrintRest(a: seq<string>, b: seq<string>, from: nat, to: nat, sofar: string, ghost done: seq<Edit>)
    returns (text: string, ghost script: seq<Edit>)
    requires forall k :: 0 <= k < |a| ==> '\n' !in a[k]
    requires forall k :: 0 <= k < |b| ==> '\n' !in b[k]
    requires Walked(done, sofar, a, b, from, to)
    ensures text == Print(script) && SingleLines(script) && Turns(script, a, b)
    ensures Kept(script) == Kept(done) && script == done + Removes(a[from..]) + Adds(b[to..])
  {
    hide Removes, Adds, Kept, Print, PrintEdit, OldLines, NewLines;
    var i, j := from, to;
    text, script := sofar, done;
    RestMore(done, a, b, from, i, to, j);
    while i < |a|
      invariant from <= i && Walked(script, text, a, b, i, j)
      invariant Kept(script) == Kept(done) && script == done + Removes(a[from..i])
    {
      WalkRemove(script, text, a, b, i, j);
      RestMore(done, a, b, from, i, to, j);
      text, script := text + PrintEdit(Remove(a[i])), script + [Remove(a[i])];
      i := i + 1;
    }
    assert a[from..i] == a[from..];
    ghost var removed := script;
    RestMore(removed, a, b, from, i, to, j);
    while j < |b|
      invariant to <= j && Walked(script, text, a, b, i, j)
      invariant Kept(script) == Kept(done) && i == |a| && script == removed + Adds(b[to..j])
    {
      WalkAdd(script, text, a, b, i, j);
      RestMore(removed, a, b, from, i, to, j);
      text, script := text + PrintEdit(Add(b[j])), script + [Add(b[j])];
      j := j + 1;
    }
    assert b[to..j] == b[to..];
  }

  /** The script so far is the beginning of the greedy one. */
  ghost predicate OnGreedy(script: seq<Edit>, a: seq<string>, b: seq<string>, i: nat, j: nat)
    requires i <= |a| && j <= |b|
  {
    script + Greedy(a[i..], b[j..]) == Greedy(a, b)
  }

  lemma GreedyStart(a: seq<string>, b: seq<string>)
    ensures OnGreedy([], a, b, 0, 0)
  {
    assert a[0..] == a && b[0..] == b && [] + Greedy(a, b) == Greedy(a, b);
  }

  lemma GreedyStep(script: seq<Edit>, a: seq<string>, b: seq<string>, i: nat, j: nat)
    requires i < |a| && j < |b| && OnGreedy(script, a, b, i, j)
    ensures if a[i] == b[j] then OnGreedy(script + [Keep(a[i])], a, b, i + 1, j + 1)
            else if Lcs(a[i + 1..], b[j..]) >= Lcs(a[i..], b[j + 1..]) then OnGreedy(script + [Remove(a[i])], a, b, i + 1, j)
            else OnGreedy(script + [Add(b[j])], a, b, i, j + 1)
  {
    hide Greedy, Lcs;
    GreedyAt(a, b, i, j);
    var rest := Greedy(a[i..], b[j..]);
    assert script + rest == script + [rest[0]] + rest[1..];
  }

  lemma GreedyEnd(script: seq<Edit>, a: seq<string>, b: seq<string>, i: nat, j: nat)
    requires i <= |a| && j <= |b| && (i == |a| || j == |b|) && OnGreedy(script, a, b, i, j)
    ensures script + Removes(a[i..]) + Adds(b[j..]) == Greedy(a, b)
  {
    hide Greedy, Removes, Adds;
    GreedyAtEdge(a[i..], b[j..]);
    assert script + Removes(a[i..]) + Adds(b[j..]) == script + (Removes(a[i..]) + Adds(b[j..]));
  }

  /** Walks the table, printing kept, removed and added lines. */
  method WalkTable(a: seq<string>, b: seq<string>, lcs: array2<nat>) returns (text: string, ghost script: seq<Edit>)
    requires forall k :: 0 <= k < |a| ==> '\n' !in a[k]
    requires forall k :: 0 <= k < |b| ==> '\n' !in b[k]
    requires lcs.Length0 == |a| + 1 && lcs.Length1 == |b| + 1
    requires forall i, j :: 0 <= i <= |a| && 0 <= j <= |b| ==> lcs[i, j] == Lcs(a[i..], b[j..])
    ensures text == Print(script) && SingleLines(script) && Turns(script, a, b)
    ensures |Kept(script)| == Lcs(a, b) && script == Greedy(a, b)
  {
    hide Lcs, Walked, Kept, PrintEdit, SingleLines, Turns, Greedy, OnGreedy, Removes, Adds;
    var m, n := |a|, |b|;
    var i, j := 0, 0;
    text, script := "", [];
    assert a[0..] == a && b[0..] == b;
    WalkStart(a, b);
    GreedyStart(a, b);
    while i < m && j < n
      invariant i <= m && j <= n
      invariant Walked(script, text, a, b, i, j)
      invariant |Kept(script)| + lcs[i, j] == Lcs(a, b)
      invariant OnGreedy(script, a, b, i, j)
    {
      LcsAt(a, b, i, j);
      GreedyStep(script, a, b, i, j);
      if a[i] == b[j] {
        WalkKeep(script, text, a, b, i, j);
        text, script := text + PrintEdit(Keep(a[i])), script + [Keep(a[i])];
        i, j := i + 1, j + 1;
      } else if lcs[i + 1, j] >= lcs[i, j + 1] {
        WalkRemove(script, text, a, b, i, j);
        text, script := text + PrintEdit(Remove(a[i])), script + [Remove(a[i])];
        i := i + 1;
      } else {
        WalkAdd(script, text, a, b, i, j);
        text, script := text + PrintEdit(Add(b[j])), script + [Add(b[j])];
        j := j + 1;
      }
    }
    LcsEdge(a, b, i, j);
    GreedyEnd(script, a, b, i, j);
    text, script := PrintRest(a, b, i, j, text, script);
  }

  lemma TextsRebuilt(script: seq<Edit>, oldText: string, newText: string)
    requires Turns(script, Split(oldText, '\n'), Split(newText, '\n'))
    ensures |OldLines(script)| > 0 && |NewLines(script)| > 0 && Print(script) != ""
    ensures Join(OldLines(script), '\n') == oldText && Join(NewLines(script), '\n') == newText
  {
  }

  /** The diff before it is capped. Whatever is printed reads back as a script from which both
      texts can be rebuilt. Below the size guard that script is optimal, and precedes every other optimal
      script; beyond it, the script removes all old lines and then adds all new ones. */
  method UnifiedLineDiff(oldText: string, newText: string) returns (text: string)
    ensures text == "" <==> oldText == newText
    ensures oldText != newText ==>
              var parsed := ParseScript(text);
              && parsed.Some?
              && Turns(parsed.value, Split(oldText, '\n'), Split(newText, '\n'))
              && Join(OldLines(parsed.value), '\n') == oldText
              && Join(NewLines(parsed.value), '\n') == newText
              && Unmarked(Split(text, '\n'), '+') == OldLines(parsed.value)
              && Unmarked(Split(text, '\n'), '-') == NewLines(parsed.value)
    ensures oldText != newText && |Split(oldText, '\n')| * |Split(newText, '\n')| <= MAX_TABLE_CELLS ==>
              var a, b, script := Split(oldText, '\n'), Split(newText, '\n'), ParseScript(text).value;
              && Common(Kept(script), a, b)
              && (forall c :: Common(c, a, b) ==> |c| <= |Kept(script)|)
              && (forall other :: Turns(other, a, b) ==> Changes(script) <= Changes(other))
              && (forall other :: Turns(other, a, b) && Changes(other) == Changes(script) ==> Precedes(script, other))
    ensures oldText != newText && |Split(oldText, '\n')| * |Split(newText, '\n')| > MAX_TABLE_CELLS ==>
              ParseScript(text) == Some(Removes(Split(oldText, '\n')) + Adds(Split(newText, '\n')))
  {
    hide Join, Print, OldLines, NewLines, Kept, Changes, Precedes, Common, Greedy, Lcs, Unmarked, ParseScript, Removes, Adds, SingleLines;
    if oldText == newText {
      return "";
    }
    var a, b := Split(oldText, '\n'), Split(newText, '\n');
    ghost var script;
    if |a| * |b| > MAX_TABLE_CELLS {
      WalkStart(a, b);
      text, script := PrintRest(a, b, 0, 0, "", []);
      assert a[0..] == a && b[0..] == b && [] + Removes(a) + Adds(b) == Removes(a) + Adds(b);
    } else {
      var lcs := FillTable(a, b);
      text, script := WalkTable(a, b, lcs);
      OptimalScript(script, a, b);
      FirstOfOptimal(script, a, b);
    }
    TextsRebuilt(script, oldText, newText);
    PrintParse(script);
    PrintedTexts(script);
  }
}
