/** SplitCompoundCommand of internal/agent/bash_allowlist.go: cutting a shell command at its
    top-level operators `;`, `&&`, `||` and `|`. */
module CompoundCommand {
  import opened Text

  /** What the scanner knows at one position. Unmatched `)` make the depth negative. */
  datatype Scan = Scan(inSingle: bool, inDouble: bool, escaped: bool, depth: int)

  const START := Scan(false, false, false, 0)

  /** The scanner after reading a character that stays in the current command. */
  function After(st: Scan, c: char): Scan {
    if st.escaped then st.(escaped := false)
    else if c == '\\' then st.(escaped := true)
    else if c == '\'' && !st.inDouble then st.(inSingle := !st.inSingle)
    else if c == '"' && !st.inSingle then st.(inDouble := !st.inDouble)
    else if st.inSingle || st.inDouble then st
    else if c == '(' then st.(depth := st.depth + 1)
    else if c == ')' then st.(depth := st.depth - 1)
    else st
  }

  /** The scanner after reading all of `s`. */
  function AfterAll(st: Scan, s: string): Scan
    decreases |s|
  {
    if s == "" then st else AfterAll(After(st, s[0]), s[1..])
  }

  predicate TopLevel(st: Scan) {
    !st.escaped && !st.inSingle && !st.inDouble && st.depth <= 0
  }

  /** The length of the operator at the head of `s`; 0 when there is none. */
  function OperatorLength(st: Scan, s: string): (n: nat)
    ensures n <= |s|
  {
    if s == "" || !TopLevel(st) then 0
    else if s[0] == ';' then 1
    else if |s| >= 2 && s[0] == s[1] == '&' then 2
    else if |s| >= 2 && s[0] == s[1] == '|' then 2
    else if s[0] == '|' then 1
    else 0
  }

  predicate IsOperator(op: string) {
    op in {";", "&&", "||", "|"}
  }

  /** The untrimmed segments of a command and the operators between them. */
  datatype Cut = Cut(segments: seq<string>, operators: seq<string>) {
    predicate Valid() {
      |segments| == |operators| + 1
    }
  }

  function RawCut(st: Scan, s: string): (cut: Cut)
    ensures cut.Valid()
    decreases |s|
  {
    if s == "" then Cut([""], [])
    else
      var n := OperatorLength(st, s);
      if n > 0 then
        var rest := RawCut(st, s[n..]);
        Cut([""] + rest.segments, [s[..n]] + rest.operators)
      else
        var rest := RawCut(After(st, s[0]), s[1..]);
        Cut([[s[0]] + rest.segments[0]] + rest.segments[1..], rest.operators)
  }

  /** The segments with the operators put back between them. */
  function Glue(segments: seq<string>, operators: seq<string>): string
    requires |segments| == |operators| + 1
  {
    if operators == [] then segments[0]
    else segments[0] + operators[0] + Glue(segments[1..], operators[1..])
  }

  /** The segments that survive trimming, in order. */
  function Commands(segments: seq<string>): seq<string> {
    if segments == [] then []
    else
      var s := TrimSpace(segments[0]);
      (if s == "" then [] else [s]) + Commands(segments[1..])
  }

  /** Scanning `s` from `st` meets no operator. */
  predicate Quiet(st: Scan, s: string)
    decreases |s|
  {
    s == "" || (OperatorLength(st, s) == 0 && Quiet(After(st, s[0]), s[1..]))
  }

  /** Every segment gives its trimmed text or, when it is blank, nothing; in the order of the segments. */
  lemma {:induction false} CommandsInOrder(segments: seq<string>, others: seq<string>)
    ensures Commands(segments + others) == Commands(segments) + Commands(others)
    ensures forall k :: 0 <= k < |segments| ==> TrimSpace(segments[k]) != "" ==> TrimSpace(segments[k]) in Commands(segments)
    ensures (forall k :: 0 <= k < |segments| ==> TrimSpace(segments[k]) == "") ==> Commands(segments) == []
    ensures (forall k :: 0 <= k < |segments| ==> TrimSpace(segments[k]) != "") ==>
              |Commands(segments)| == |segments| && forall k :: 0 <= k < |segments| ==> Commands(segments)[k] == TrimSpace(segments[k])
  {
    hide TrimSpace;
    if segments == [] {
      assert segments + others == others;
    } else {
      assert (segments + others)[1..] == segments[1..] + others;
      CommandsInOrder(segments[1..], others);
    }
  }

  // ----- nothing is lost -----

  lemma GlueOperator(operator: string, segments: seq<string>, operators: seq<string>)
    requires |segments| == |operators| + 1
    ensures Glue([""] + segments, [operator] + operators) == operator + Glue(segments, operators)
  {
    var all, between := [""] + segments, [operator] + operators;
    assert all[1..] == segments && between[1..] == operators;
    assert Glue(all, between) == all[0] + between[0] + Glue(all[1..], between[1..]);
    assert "" + operator == operator;
  }

  lemma GlueChar(c: char, segments: seq<string>, operators: seq<string>)
    requires |segments| == |operators| + 1
    ensures Glue([[c] + segments[0]] + segments[1..], operators) == [c] + Glue(segments, operators)
  {
    var more := [[c] + segments[0]] + segments[1..];
    assert more[1..] == segments[1..];
    if operators != [] {
      assert [c] + segments[0] + operators[0] + Glue(segments[1..], operators[1..]) ==
             [c] + (segments[0] + operators[0] + Glue(segments[1..], operators[1..]));
    }
  }

  lemma GlueNothing()
    ensures Glue([""], []) == ""
  {
  }

  lemma {:induction false} CutLosesNothing(st: Scan, s: string)
    ensures var cut := RawCut(st, s); Glue(cut.segments, cut.operators) == s
    decreases |s|
  {
    hide OperatorLength, After, Glue;
    if s == "" {
      GlueNothing();
    } else {
      var n := OperatorLength(st, s);
      if n > 0 {
        var rest := RawCut(st, s[n..]);
        CutLosesNothing(st, s[n..]);
        GlueOperator(s[..n], rest.segments, rest.operators);
      } else {
        var rest := RawCut(After(st, s[0]), s[1..]);
        CutLosesNothing(After(st, s[0]), s[1..]);
        GlueChar(s[0], rest.segments, rest.operators);
      }
    }
  }

  /** Reading the segments and operators in turn from `st`, every operator is met at top level. */
  ghost predicate MetAtTopLevel(st: Scan, segments: seq<string>, operators: seq<string>)
    requires |segments| == |operators| + 1
    decreases |operators|
  {
    operators == [] ||
    (IsOperator(operators[0]) && TopLevel(AfterAll(st, segments[0])) &&
     MetAtTopLevel(AfterAll(AfterAll(st, segments[0]), operators[0]), segments[1..], operators[1..]))
  }

  lemma OperatorKeepsScan(st: Scan, s: string)
    requires OperatorLength(st, s) > 0
    ensures var op := s[..OperatorLength(st, s)]; IsOperator(op) && AfterAll(st, op) == st
  {
    var op := s[..OperatorLength(st, s)];
    assert op == ";" || op == "&&" || op == "||" || op == "|";
    if |op| == 2 {
      assert op[1..] == [op[1]];
    }
  }

  lemma {:induction false} OperatorsAreTopLevel(st: Scan, s: string)
    ensures var cut := RawCut(st, s); MetAtTopLevel(st, cut.segments, cut.operators)
    decreases |s|
  {
    if s != "" {
      var n, cut := OperatorLength(st, s), RawCut(st, s);
      if n > 0 {
        OperatorsAreTopLevel(st, s[n..]);
        OperatorKeepsScan(st, s);
        assert cut.segments[1..] == RawCut(st, s[n..]).segments && cut.operators[1..] == RawCut(st, s[n..]).operators;
      } else {
        var rest := RawCut(After(st, s[0]), s[1..]);
        OperatorsAreTopLevel(After(st, s[0]), s[1..]);
        assert cut.segments[0][1..] == rest.segments[0] && cut.segments[1..] == rest.segments[1..];
      }
    }
  }

  // ----- where the cuts are -----

  lemma OperatorAtHead(st: Scan, op: string, right: string)
    requires TopLevel(st) && IsOperator(op) && (op == "|" ==> right == "" || right[0] != '|')
    ensures OperatorLength(st, op + right) == |op|
  {
  }

  /** The text ends in an ampersand that another one would make an operator. */
  predicate OpenAmpersand(st: Scan, s: string) {
    s != "" && s[|s| - 1] == '&' && TopLevel(AfterAll(st, s[..|s| - 1]))
  }

  lemma NoOperatorAtHead(st: Scan, left: string, op: string, right: string)
    requires left != "" && OperatorLength(st, left) == 0 && TopLevel(AfterAll(st, left)) && IsOperator(op)
    requires op == "&&" ==> left[|left| - 1] != '&' || |left| > 1 || !TopLevel(st)
    ensures OperatorLength(st, left + op + right) == 0
  {
  }

  lemma OpenAfter(st: Scan, s: string)
    requires s != ""
    ensures OpenAmpersand(st, s) == if |s| == 1 then s == "&" && TopLevel(st) else OpenAmpersand(After(st, s[0]), s[1..])
  {
    if |s| > 1 {
      assert s[..|s| - 1][1..] == s[1..][..|s| - 2];
    }
  }

  /** A top-level operator cuts: the text before it is a segment of its own, and what follows is
      cut as if it stood alone. The side conditions rule out that the operator is a part of a
      longer one. */
  lemma {:induction false} OperatorCuts(st: Scan, left: string, op: string, right: string)
    requires Quiet(st, left) && TopLevel(AfterAll(st, left)) && IsOperator(op)
    requires op == "|" ==> right == "" || right[0] != '|'
    requires op == "&&" ==> !OpenAmpersand(st, left)
    ensures var rest := RawCut(AfterAll(st, left), right);
            RawCut(st, left + op + right) == Cut([left] + rest.segments, [op] + rest.operators)
    decreases |left|
  {
    hide OperatorLength;
    var s := left + op + right;
    if left == "" {
      assert s == op + right;
      OperatorAtHead(st, op, right);
      assert s[..|op|] == op && s[|op|..] == right;
    } else {
      assert s[1..] == left[1..] + op + right;
      OpenAfter(st, left);
      OperatorCuts(After(st, left[0]), left[1..], op, right);
      NoOperatorAtHead(st, left, op, right);
      assert [left[0]] + left[1..] == left;
    }
  }

  /** The scanner is hidden before every character of the text. */
  predicate Hidden(st: Scan, s: string)
    decreases |s|
  {
    s == "" || (!TopLevel(st) && Hidden(After(st, s[0]), s[1..]))
  }

  /** Text that keeps the scanner hidden throughout holds no operator, in whatever state it begins. */
  lemma {:induction false} HiddenIsQuiet(st: Scan, s: string)
    requires Hidden(st, s)
    ensures Quiet(st, s)
    decreases |s|
  {
    if s != "" {
      HiddenIsQuiet(After(st, s[0]), s[1..]);
    }
  }

  lemma {:induction false} QuietAppend(st: Scan, s: string, t: string)
    requires Quiet(st, s) && Quiet(AfterAll(st, s), t) && !TopLevel(AfterAll(st, s))
    ensures Quiet(st, s + t) && AfterAll(st, s + t) == AfterAll(AfterAll(st, s), t)
    decreases |s|
  {
    if s == "" {
      assert s + t == t;
    } else {
      QuietAppend(After(st, s[0]), s[1..], t);
      assert (s + t)[1..] == s[1..] + t;
      if |s| == 1 {
        assert AfterAll(After(st, s[0]), s[1..]) == After(st, s[0]);
      }
    }
  }

  lemma ReadChar(st: Scan, c: char)
    ensures AfterAll(st, [c]) == After(st, c)
    ensures OperatorLength(st, [c]) == 0 ==> Quiet(st, [c])
  {
    assert [c][1..] == "";
    assert AfterAll(After(st, c), "") == After(st, c);
  }

  /** Text as a reader of commands sees it: characters, escaped characters, quoted text and groups in
      parentheses. */
  datatype Word = Char(c: char) | Escape(c: char) | Quoted(quote: char, body: Words) | Group(body: Words)

  datatype Words = NoWords | Then(head: Word, tail: Words)

  function Print(w: Word): string {
    match w
    case Char(c) => [c]
    case Escape(c) => ['\\', c]
    case Quoted(quote, body) => [quote] + PrintAll(body) + [quote]
    case Group(body) => "(" + PrintAll(body) + ")"
  }

  function PrintAll(words: Words): string {
    match words
    case NoWords => ""
    case Then(head, tail) => Print(head) + PrintAll(tail)
  }

  predicate Literal(words: Words, quote: char) {
    match words
    case NoWords => true
    case Then(head, tail) => (head.Escape? || (head.Char? && head.c != quote && head.c != '\\')) && Literal(tail, quote)
  }

  /** The words stand for what they look like: within quotes there are characters other than that quote,
      and escaped ones; elsewhere quotes and parentheses are matched. */
  predicate Matched(w: Word) {
    match w
    case Char(c) => c !in "()'\"\\"
    case Escape(_) => true
    case Quoted(quote, body) => quote in "'\"" && Literal(body, quote)
    case Group(body) => AllMatched(body)
  }

  predicate AllMatched(words: Words) {
    match words
    case NoWords => true
    case Then(head, tail) => Matched(head) && AllMatched(tail)
  }

  /** Outside quotes and escapes. */
  predicate Unquoted(st: Scan) {
    !st.escaped && !st.inSingle && !st.inDouble
  }

  function InQuote(st: Scan, quote: char): Scan {
    if quote == '"' then st.(inDouble := true) else st.(inSingle := true)
  }

  lemma EscapeIsQuiet(st: Scan, c: char)
    requires !st.escaped
    ensures Quiet(st, ['\\', c]) && AfterAll(st, ['\\', c]) == st
  {
    ReadChar(st, '\\');
    ReadChar(st.(escaped := true), c);
    QuietAppend(st, ['\\'], [c]);
    assert ['\\'] + [c] == ['\\', c];
  }

  lemma {:induction false} LiteralIsQuiet(st: Scan, quote: char, words: Words)
    requires Unquoted(st) && quote in "'\"" && Literal(words, quote)
    ensures Quiet(InQuote(st, quote), PrintAll(words)) && AfterAll(InQuote(st, quote), PrintAll(words)) == InQuote(st, quote)
    decreases words
  {
    var inside := InQuote(st, quote);
    match words
    case NoWords =>
    case Then(head, tail) =>
      if head.Escape? {
        EscapeIsQuiet(inside, head.c);
      } else {
        ReadChar(inside, head.c);
      }
      LiteralIsQuiet(st, quote, tail);
      QuietAppend(inside, Print(head), PrintAll(tail));
  }

  /** Text between two characters that hide it. */
  lemma BetweenIsQuiet(st: Scan, open: char, s: string, close: char)
    requires OperatorLength(st, [open]) == 0 && !TopLevel(After(st, open))
    requires Quiet(After(st, open), s) && AfterAll(After(st, open), s) == After(st, open)
    ensures Quiet(st, [open] + s + [close])
    ensures AfterAll(st, [open] + s + [close]) == After(After(st, open), close)
  {
    var inside := After(st, open);
    ReadChar(st, open);
    QuietAppend(st, [open], s);
    ReadChar(inside, close);
    QuietAppend(st, [open] + s, [close]);
  }

  lemma {:induction false} WordIsQuiet(st: Scan, w: Word)
    requires Unquoted(st) && Matched(w) && (w.Char? ==> st.depth > 0) && (w.Group? ==> st.depth >= 0)
    ensures Quiet(st, Print(w)) && AfterAll(st, Print(w)) == st
    decreases w
  {
    match w
    case Char(c) => ReadChar(st, c);
    case Escape(c) => EscapeIsQuiet(st, c);
    case Quoted(quote, body) =>
      LiteralIsQuiet(st, quote, body);
      BetweenIsQuiet(st, quote, PrintAll(body), quote);
    case Group(body) =>
      WordsAreQuiet(st.(depth := st.depth + 1), body);
      BetweenIsQuiet(st, '(', PrintAll(body), ')');
  }

  lemma {:induction false} WordsAreQuiet(st: Scan, words: Words)
    requires Unquoted(st) && st.depth > 0 && AllMatched(words)
    ensures Quiet(st, PrintAll(words)) && AfterAll(st, PrintAll(words)) == st
    decreases words
  {
    match words
    case NoWords =>
    case Then(head, tail) =>
      WordIsQuiet(st, head);
      WordsAreQuiet(st, tail);
      QuietAppend(st, Print(head), PrintAll(tail));
  }

  lemma {:induction false} QuietIsOneSegment(st: Scan, s: string)
    requires Quiet(st, s)
    ensures RawCut(st, s) == Cut([s], [])
    decreases |s|
  {
    if s != "" {
      QuietIsOneSegment(After(st, s[0]), s[1..]);
      assert [s[0]] + s[1..] == s;
    }
  }

  /** Escaped characters, quoted text and balanced groups, nested in any way, are never cut, wherever
      they stand outside quotes; only below an unmatched `)` does a group not hide what is in it. The
      scanner goes on as before. */
  lemma EnclosedIsQuiet(st: Scan, w: Word)
    requires Unquoted(st) && Matched(w) && !w.Char? && (w.Group? ==> st.depth >= 0)
    ensures RawCut(st, Print(w)) == Cut([Print(w)], []) && AfterAll(st, Print(w)) == st
  {
    WordIsQuiet(st, w);
    QuietIsOneSegment(st, Print(w));
  }

  lemma {:induction false} AfterAppend(st: Scan, s: string, t: string)
    ensures AfterAll(st, s + t) == AfterAll(AfterAll(st, s), t)
    decreases |s|
  {
    hide After;
    if s == "" {
      assert s + t == t;
    } else {
      assert (s + t)[1..] == s[1..] + t;
      AfterAppend(After(st, s[0]), s[1..], t);
    }
  }

  /** Matched words leave the scanner as it was, at whatever depth. */
  lemma {:induction false} WordKeepsScan(st: Scan, w: Word)
    requires Unquoted(st) && Matched(w)
    ensures AfterAll(st, Print(w)) == st
    decreases w
  {
    match w
    case Char(c) => ReadChar(st, c);
    case Escape(c) => EscapeIsQuiet(st, c);
    case Quoted(quote, body) => WordIsQuiet(st, w);
    case Group(body) =>
      var inside := st.(depth := st.depth + 1);
      WordsKeepScan(inside, body);
      ReadChar(st, '(');
      ReadChar(inside, ')');
      AfterAppend(st, "(", PrintAll(body));
      AfterAppend(st, "(" + PrintAll(body), ")");
  }

  lemma {:induction false} WordsKeepScan(st: Scan, words: Words)
    requires Unquoted(st) && AllMatched(words)
    ensures AfterAll(st, PrintAll(words)) == st
    decreases words
  {
    match words
    case NoWords =>
    case Then(head, tail) =>
      WordKeepsScan(st, head);
      WordsKeepScan(st, tail);
      AfterAppend(st, Print(head), PrintAll(tail));
  }

  /** An unmatched `)` makes the scanner cut inside a balanced group. */
  lemma NegativeDepthCuts()
    ensures RawCut(START.(depth := -1), "(;)") == Cut(["(", ")"], [";"])
  {
    hide RawCut, Quiet, AfterAll;
    var st := START.(depth := -1);
    ReadChar(st, '(');
    ReadChar(START, ')');
    OperatorCuts(st, "(", ";", ")");
    QuietIsOneSegment(START, ")");
    assert "(" + ";" + ")" == "(;)";
  }

  // ----- command lines -----

  /** A command line as a reader sees it: commands with operators between them. */
  datatype Line = Last(words: Words) | Joined(words: Words, operator: string, rest: Line)

  function PrintLine(line: Line): string {
    match line
    case Last(words) => PrintAll(words)
    case Joined(words, operator, rest) => PrintAll(words) + operator + PrintLine(rest)
  }

  function SegmentsOf(line: Line): seq<string> {
    match line
    case Last(words) => [PrintAll(words)]
    case Joined(words, _, rest) => [PrintAll(words)] + SegmentsOf(rest)
  }

  function OperatorsOf(line: Line): seq<string> {
    match line
    case Last(_) => []
    case Joined(_, operator, rest) => [operator] + OperatorsOf(rest)
  }

  /** No operator stands outside quotes, escapes and groups; a single `&` is no operator. */
  predicate Simple(words: Words) {
    match words
    case NoWords => true
    case Then(head, tail) =>
      && head != Char(';') && head != Char('|') && !(head == Char('&') && tail.Then? && tail.head == Char('&'))
      && Simple(tail)
  }

  predicate EndsInAmpersand(words: Words) {
    words.Then? && if words.tail.NoWords? then words.head == Char('&') else EndsInAmpersand(words.tail)
  }

  /** The line reads as it was put together: its commands are matched and simple, and no operator runs
      together with what stands beside it. */
  predicate Proper(line: Line) {
    && AllMatched(line.words) && Simple(line.words)
    && (line.Joined? ==>
          && IsOperator(line.operator) && Proper(line.rest)
          && (line.operator == "|" ==> PrintLine(line.rest) == "" || PrintLine(line.rest)[0] != '|')
          && (line.operator == "&&" ==> !EndsInAmpersand(line.words)))
  }

  lemma {:induction false} QuietConcat(st: Scan, s: string, t: string)
    requires Quiet(st, s) && Quiet(AfterAll(st, s), t)
    requires s != "" ==> s[|s| - 1] !in "&|" || !TopLevel(AfterAll(st, s[..|s| - 1]))
    ensures Quiet(st, s + t)
    decreases |s|
  {
    if s == "" {
      assert s + t == t;
    } else {
      assert (s + t)[1..] == s[1..] + t;
      if |s| > 1 {
        assert s[..|s| - 1][1..] == s[1..][..|s| - 2];
      }
      QuietConcat(After(st, s[0]), s[1..], t);
    }
  }

  /** How a word other than a character ends: with a character that is no part of an operator, or with
      an escaped one. */
  lemma WordEnds(st: Scan, w: Word)
    requires Unquoted(st) && Matched(w) && !w.Char?
    ensures var s := Print(w);
            s != "" && s[0] !in "&|;" && (s[|s| - 1] !in "&|" || !TopLevel(AfterAll(st, s[..|s| - 1])))
  {
    if w.Escape? {
      assert Print(w)[..1] == ['\\'];
      ReadChar(st, '\\');
    }
  }

  /** What begins with an ampersand has one as its first word. */
  lemma FirstOf(words: Words)
    requires AllMatched(words)
    ensures PrintAll(words) != "" && PrintAll(words)[0] == '&' ==> words.Then? && words.head == Char('&')
  {
    if words.Then? {
      if !words.head.Char? {
        WordEnds(START, words.head);
      }
      assert PrintAll(words)[0] == Print(words.head)[0];
    }
  }

  lemma {:induction false} SimpleIsQuiet(words: Words)
    requires AllMatched(words) && Simple(words)
    ensures Quiet(START, PrintAll(words))
    decreases words
  {
    if words.Then? {
      var head, tail := words.head, words.tail;
      SimpleIsQuiet(tail);
      if head.Char? {
        FirstOf(tail);
        assert PrintAll(words)[1..] == PrintAll(tail);
        assert After(START, head.c) == START;
      } else {
        WordIsQuiet(START, head);
        WordEnds(START, head);
        QuietConcat(START, Print(head), PrintAll(tail));
      }
    }
  }

  lemma WordsPrint(words: Words)
    requires words.Then?
    ensures PrintAll(words) != ""
  {
  }

  lemma {:induction false} OpenAmpersandIs(words: Words)
    requires AllMatched(words)
    ensures OpenAmpersand(START, PrintAll(words)) ==> EndsInAmpersand(words)
    decreases words
  {
    if words.Then? {
      var head, tail := words.head, words.tail;
      WordKeepsScan(START, head);
      if tail.NoWords? {
        assert PrintAll(words) == Print(head);
        if !head.Char? {
          WordEnds(START, head);
        }
      } else {
        OpenAmpersandIs(tail);
        WordsPrint(tail);
        var s, t := Print(head), PrintAll(tail);
        assert (s + t)[..|s + t| - 1] == s + t[..|t| - 1];
        AfterAppend(START, s, t[..|t| - 1]);
      }
    }
  }

  /** A proper line is cut exactly between its commands. */
  lemma {:induction false} LineIsCut(line: Line)
    requires Proper(line)
    ensures RawCut(START, PrintLine(line)) == Cut(SegmentsOf(line), OperatorsOf(line))
    decreases line
  {
    hide Matched, Print;
    SimpleIsQuiet(line.words);
    match line
    case Last(words) => QuietIsOneSegment(START, PrintAll(words));
    case Joined(words, operator, rest) =>
      WordsKeepScan(START, words);
      OpenAmpersandIs(words);
      LineIsCut(rest);
      OperatorCuts(START, PrintAll(words), operator, PrintLine(rest));
  }

  // ----- splitting is a fixpoint -----

  /** Deeper parentheses hide at least as many operators: the simulation that the negative depths
      after an unmatched `)` call for. */
  lemma {:induction false} QuietDeeper(st: Scan, deeper: Scan, s: string)
    requires deeper == st.(depth := deeper.depth) && st.depth <= deeper.depth
    requires Quiet(st, s)
    ensures Quiet(deeper, s)
    decreases |s|
  {
    if s != "" {
      QuietDeeper(After(st, s[0]), After(deeper, s[0]), s[1..]);
    }
  }

  lemma {:induction false} QuietPrefix(st: Scan, s: string, t: string)
    requires Quiet(st, s + t)
    ensures Quiet(st, s)
    decreases |s|
  {
    if s != "" {
      assert (s + t)[1..] == s[1..] + t;
      QuietPrefix(After(st, s[0]), s[1..], t);
    }
  }

  lemma {:induction false} QuietAfterSpace(spaces: string, t: string)
    requires AllSpace(spaces) && Quiet(START, spaces + t)
    ensures Quiet(START, t)
  {
    if spaces == "" {
      assert spaces + t == t;
    } else {
      assert (spaces + t)[1..] == spaces[1..] + t;
      QuietAfterSpace(spaces[1..], t);
    }
  }

  lemma HeadIsPrefix(st: Scan, s: string)
    ensures RawCut(st, s).segments[0] <= s
  {
    var cut := RawCut(st, s);
    CutLosesNothing(st, s);
  }

  lemma QuietNothing(st: Scan)
    ensures Quiet(st, "")
  {
  }

  lemma OperatorIsTopLevel(st: Scan, s: string)
    requires OperatorLength(st, s) > 0
    ensures START == st.(depth := START.depth) && st.depth <= START.depth
  {
  }

  lemma QuietMore(st: Scan, s: string, head: string)
    requires s != "" && OperatorLength(st, s) == 0 && head <= s[1..] && Quiet(After(st, s[0]), head)
    ensures Quiet(st, [s[0]] + head)
  {
    var t := [s[0]] + head;
    assert t[1..] == head;
    assert |t| >= 2 ==> t[1] == s[1..][0];
  }

  /** No segment holds an operator; after the first one, none does even when scanned afresh. */
  lemma {:induction false} SegmentsAreQuiet(st: Scan, s: string)
    ensures var segments := RawCut(st, s).segments;
            && Quiet(st, segments[0])
            && forall k :: 1 <= k < |segments| ==> Quiet(START, segments[k])
    decreases |s|
  {
    hide OperatorLength, After, Quiet, TopLevel;
    if s == "" {
      QuietNothing(st);
    } else {
      var n, segments := OperatorLength(st, s), RawCut(st, s).segments;
      if n > 0 {
        var rest := RawCut(st, s[n..]).segments;
        SegmentsAreQuiet(st, s[n..]);
        OperatorIsTopLevel(st, s);
        QuietDeeper(st, START, rest[0]);
        QuietNothing(st);
        assert segments == [""] + rest;
      } else {
        var rest := RawCut(After(st, s[0]), s[1..]).segments;
        SegmentsAreQuiet(After(st, s[0]), s[1..]);
        HeadIsPrefix(After(st, s[0]), s[1..]);
        QuietMore(st, s, rest[0]);
        assert segments == [[s[0]] + rest[0]] + rest[1..];
      }
    }
  }

  lemma TrimmedIsQuiet(segment: string)
    requires Quiet(START, segment)
    ensures Quiet(START, TrimSpace(segment)) && Trimmed(TrimSpace(segment))
  {
    var piece := TrimSpace(segment);
    var before, after := TrimSpaceParts(segment);
    assert before + piece + after == before + (piece + after);
    QuietAfterSpace(before, piece + after);
    QuietPrefix(START, piece, after);
  }

  lemma {:induction false} CommandsAreQuiet(segments: seq<string>)
    requires forall k :: 0 <= k < |segments| ==> Quiet(START, segments[k])
    ensures forall piece :: piece in Commands(segments) ==> Quiet(START, piece) && piece != "" && Trimmed(piece)
  {
    if segments != [] {
      TrimmedIsQuiet(segments[0]);
      CommandsAreQuiet(segments[1..]);
    }
  }

  lemma QuietSplits(piece: string)
    requires Quiet(START, piece) && Trimmed(piece) && piece != ""
    ensures Commands(RawCut(START, piece).segments) == [piece]
  {
    QuietIsOneSegment(START, piece);
    TrimTrimmed(piece);
    assert [piece][1..] == [];
  }

  /** Splitting any returned piece again returns just that piece. */
  lemma SplitIsFixpoint(command: string, piece: string)
    requires piece in Commands(RawCut(START, command).segments)
    ensures Commands(RawCut(START, piece).segments) == [piece]
  {
    SegmentsAreQuiet(START, command);
    CommandsAreQuiet(RawCut(START, command).segments);
    QuietSplits(piece);
  }

  // ----- the code -----

  /** The commands already cut off, then those of `current` continued by the segments of a cut. */
  ghost function Outcome(commands: seq<string>, current: string, cut: Cut): seq<string>
    requires cut.Valid()
  {
    commands + Commands([current + cut.segments[0]] + cut.segments[1..])
  }

  lemma ReadOne(commands: seq<string>, current: string, st: Scan, s: string)
    requires s != "" && OperatorLength(st, s) == 0
    ensures Outcome(commands, current, RawCut(st, s)) ==
            Outcome(commands, current + [s[0]], RawCut(After(st, s[0]), s[1..]))
  {
    var rest := RawCut(After(st, s[0]), s[1..]);
    assert current + ([s[0]] + rest.segments[0]) == current + [s[0]] + rest.segments[0];
  }

  /** The commands after `current` ends: blank text is not a command. */
  function Push(commands: seq<string>, current: string): seq<string> {
    var piece := TrimSpace(current);
    if piece == "" then commands else commands + [piece]
  }

  lemma CommandsOfCons(first: string, rest: seq<string>)
    ensures Commands([first] + rest) == (if TrimSpace(first) == "" then [] else [TrimSpace(first)]) + Commands(rest)
  {
    assert ([first] + rest)[1..] == rest;
  }

  lemma NothingCut(st: Scan)
    ensures OperatorLength(st, "") == 0
  {
  }

  lemma CutHead(st: Scan, s: string)
    requires OperatorLength(st, s) > 0
    ensures RawCut(st, s).segments == [""] + RawCut(st, s[OperatorLength(st, s)..]).segments
  {
    hide OperatorLength;
    NothingCut(st);
  }

  lemma CutOne(commands: seq<string>, current: string, st: Scan, s: string)
    requires OperatorLength(st, s) > 0
    ensures Outcome(commands, current, RawCut(st, s)) ==
            Outcome(Push(commands, current), "", RawCut(st, s[OperatorLength(st, s)..]))
  {
    hide OperatorLength, RawCut, TrimSpace, Commands;
    var rest, cut := RawCut(st, s[OperatorLength(st, s)..]).segments, RawCut(st, s).segments;
    CutHead(st, s);
    assert cut[1..] == rest && current + "" == current;
    assert "" + rest[0] == rest[0];
    assert ["" + rest[0]] + rest[1..] == rest;
    CommandsOfCons(current, rest);
    assert commands + ([] + Commands(rest)) == commands + Commands(rest);
    assert commands + ([TrimSpace(current)] + Commands(rest)) == commands + [TrimSpace(current)] + Commands(rest);
  }

  lemma AtStart(command: string)
    ensures Outcome([], "", RawCut(START, command)) == Commands(RawCut(START, command).segments)
  {
    var segments := RawCut(START, command).segments;
    assert "" + segments[0] == segments[0];
    assert [segments[0]] + segments[1..] == segments;
  }

  lemma AtEnd(commands: seq<string>, current: string, st: Scan)
    ensures Outcome(commands, current, RawCut(st, "")) == Push(commands, current)
  {
    assert current + "" == current;
    CommandsOfCons(current, []);
  }

  /** One turn of the scanning loop keeps the outcome. */
  lemma ScanStep(command: string, commands: seq<string>, current: string, st: Scan, i: nat)
    requires i < |command|
    ensures var n := OperatorLength(st, command[i..]);
            Outcome(commands, current, RawCut(st, command[i..])) ==
            if n == 0 then Outcome(commands, current + [command[i]], RawCut(After(st, command[i]), command[i + 1..]))
            else Outcome(Push(commands, current), "", RawCut(st, command[i + n..]))
  {
    var n := OperatorLength(st, command[i..]);
    if n == 0 {
      ReadOne(commands, current, st, command[i..]);
      assert command[i..][1..] == command[i + 1..];
    } else {
      CutOne(commands, current, st, command[i..]);
      assert command[i..][n..] == command[i + n..];
    }
  }

  /** The scanner: the result is the non-empty trimmed segments of the command, in order. */
  method SplitCompoundCommand(command: string) returns (commands: seq<string>)
    ensures commands == Commands(RawCut(START, command).segments)
    ensures forall piece :: piece in commands ==> Commands(RawCut(START, piece).segments) == [piece]
    ensures forall line :: Proper(line) && PrintLine(line) == command ==> commands == Commands(SegmentsOf(line))
  {
    hide Outcome, RawCut, Commands, Push, OperatorLength, After, TopLevel, Quiet;
    commands := [];
    var current, st, i := "", START, 0;
    AtStart(command);
    assert command[0..] == command;
    while i < |command|
      invariant 0 <= i <= |command|
      invariant Outcome(commands, current, RawCut(st, command[i..])) == Commands(RawCut(START, command).segments)
    {
      var n := OperatorLength(st, command[i..]);
      ScanStep(command, commands, current, st, i);
      if n == 0 {
        current, st, i := current + [command[i]], After(st, command[i]), i + 1;
      } else {
        commands, current, i := Push(commands, current), "", i + n;
      }
    }
    assert command[i..] == "";
    AtEnd(commands, current, st);
    commands := Push(commands, current);
    forall piece | piece in commands ensures Commands(RawCut(START, piece).segments) == [piece] {
      SplitIsFixpoint(command, piece);
    }
    forall line | Proper(line) && PrintLine(line) == command ensures commands == Commands(SegmentsOf(line)) {
      LineIsCut(line);
    }
  }
}
