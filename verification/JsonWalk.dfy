/** The bounded, duplicate-rejecting JSON token walk of internal/acp/validation.go, and the unbounded
    walk over checkpoint manifests of internal/agent/checkpoint.go. */
module JsonWalk {
  import opened Wrappers

  /** The tokens of a JSON decoder, which hides commas and colons. */
  datatype Token = OpenObject | CloseObject | OpenArray | CloseArray | Str(text: string) | Plain(literal: string)

  // ----- the reference: JSON values and their tokens -----

  /** A JSON value; `Scalar` stands for numbers, true, false and null. */
  datatype Json = Text(text: string) | Scalar(literal: string) | Array(items: Items) | Object(fields: Fields)

  datatype Items = NoItems | Item(head: Json, tail: Items)

  datatype Fields = NoFields | Field(key: string, value: Json, tail: Fields)

  function Flatten(v: Json): seq<Token> {
    match v
    case Text(s) => [Str(s)]
    case Scalar(s) => [Plain(s)]
    case Array(items) => [OpenArray] + FlattenItems(items)
    case Object(fields) => [OpenObject] + FlattenFields(fields)
  }

  function FlattenItems(items: Items): seq<Token> {
    match items
    case NoItems => [CloseArray]
    case Item(head, tail) => Flatten(head) + FlattenItems(tail)
  }

  function FlattenFields(fields: Fields): seq<Token> {
    match fields
    case NoFields => [CloseObject]
    case Field(key, value, tail) => [Str(key)] + Flatten(value) + FlattenFields(tail)
  }

  function Max(a: nat, b: nat): nat {
    if a >= b then a else b
  }

  /** How deep containers nest below a value. */
  function Height(v: Json): nat {
    match v
    case Text(_) => 0
    case Scalar(_) => 0
    case Array(items) => ItemsHeight(items)
    case Object(fields) => FieldsHeight(fields)
  }

  function ItemsHeight(items: Items): nat {
    match items
    case NoItems => 0
    case Item(head, tail) => Max(1 + Height(head), ItemsHeight(tail))
  }

  function FieldsHeight(fields: Fields): nat {
    match fields
    case NoFields => 0
    case Field(_, value, tail) => Max(1 + Height(value), FieldsHeight(tail))
  }

  function Keys(fields: Fields): set<string> {
    match fields
    case NoFields => {}
    case Field(key, _, tail) => {key} + Keys(tail)
  }

  /** No object anywhere in the value repeats a key. */
  predicate UniqueKeys(v: Json) {
    match v
    case Text(_) => true
    case Scalar(_) => true
    case Array(items) => ItemsUnique(items)
    case Object(fields) => FieldsUnique(fields)
  }

  predicate ItemsUnique(items: Items) {
    match items
    case NoItems => true
    case Item(head, tail) => UniqueKeys(head) && ItemsUnique(tail)
  }

  predicate FieldsUnique(fields: Fields) {
    match fields
    case NoFields => true
    case Field(key, value, tail) => key !in Keys(tail) && UniqueKeys(value) && FieldsUnique(tail)
  }

  // ----- the reference parser -----

  /** Reads one value off the head of the tokens. */
  function Parse(tokens: seq<Token>): (p: Option<(Json, seq<Token>)>)
    ensures p.Some? ==> |p.value.1| < |tokens|
    decreases |tokens|, 0
  {
    if tokens == [] then None
    else
      match tokens[0]
      case Str(s) => Some((Text(s), tokens[1..]))
      case Plain(s) => Some((Scalar(s), tokens[1..]))
      case OpenArray =>
        (match ParseItems(tokens[1..])
         case None => None
         case Some((items, rest)) => Some((Array(items), rest)))
      case OpenObject =>
        (match ParseFields(tokens[1..])
         case None => None
         case Some((fields, rest)) => Some((Object(fields), rest)))
      case _ => None
  }

  function ParseItems(tokens: seq<Token>): (p: Option<(Items, seq<Token>)>)
    ensures p.Some? ==> |p.value.1| < |tokens|
    decreases |tokens|, 1
  {
    if tokens == [] then None
    else if tokens[0] == CloseArray then Some((NoItems, tokens[1..]))
    else
      match Parse(tokens)
      case None => None
      case Some((head, rest)) =>
        match ParseItems(rest)
        case None => None
        case Some((tail, rest')) => Some((Item(head, tail), rest'))
  }

  function ParseFields(tokens: seq<Token>): (p: Option<(Fields, seq<Token>)>)
    ensures p.Some? ==> |p.value.1| < |tokens|
    decreases |tokens|, 1
  {
    if tokens == [] then None
    else if tokens[0] == CloseObject then Some((NoFields, tokens[1..]))
    else if !tokens[0].Str? then None
    else
      match Parse(tokens[1..])
      case None => None
      case Some((value, rest)) =>
        match ParseFields(rest)
        case None => None
        case Some((tail, rest')) => Some((Field(tokens[0].text, value, tail), rest'))
  }

  lemma FlattenOpens(v: Json)
    ensures Flatten(v) != [] && Flatten(v)[0] !in {CloseArray, CloseObject}
  {
  }

  /** Parsing undoes flattening, whatever follows. */
  lemma {:induction false} ParseFlatten(v: Json, rest: seq<Token>)
    ensures Parse(Flatten(v) + rest) == Some((v, rest))
    decreases v
  {
    hide ParseItems, ParseFields, FlattenItems, FlattenFields;
    match v
    case Text(_) =>
    case Scalar(_) =>
    case Array(items) =>
      ParseFlattenItems(items, rest);
      assert (Flatten(v) + rest)[1..] == FlattenItems(items) + rest;
    case Object(fields) =>
      ParseFlattenFields(fields, rest);
      assert (Flatten(v) + rest)[1..] == FlattenFields(fields) + rest;
  }

  lemma {:induction false} ParseFlattenItems(items: Items, rest: seq<Token>)
    ensures ParseItems(FlattenItems(items) + rest) == Some((items, rest))
    decreases items
  {
    match items
    case NoItems =>
    case Item(head, tail) =>
      ParseFlatten(head, FlattenItems(tail) + rest);
      ParseFlattenItems(tail, rest);
      assert FlattenItems(items) + rest == Flatten(head) + (FlattenItems(tail) + rest);
      FlattenOpens(head);
  }

  lemma {:induction false} ParseFlattenFields(fields: Fields, rest: seq<Token>)
    ensures ParseFields(FlattenFields(fields) + rest) == Some((fields, rest))
    decreases fields
  {
    match fields
    case NoFields =>
    case Field(key, value, tail) =>
      ParseFlatten(value, FlattenFields(tail) + rest);
      ParseFlattenFields(tail, rest);
      assert (FlattenFields(fields) + rest)[1..] == Flatten(value) + (FlattenFields(tail) + rest);
  }

  /** What was parsed flattens back to the tokens that were consumed. */
  lemma {:induction false} FlattenParse(tokens: seq<Token>)
    requires Parse(tokens).Some?
    ensures var (v, rest) := Parse(tokens).value; tokens == Flatten(v) + rest
    decreases |tokens|, 0
  {
    if tokens[0] == OpenArray {
      FlattenParseItems(tokens[1..]);
    } else if tokens[0] == OpenObject {
      FlattenParseFields(tokens[1..]);
    }
  }

  lemma {:induction false} FlattenParseItems(tokens: seq<Token>)
    requires ParseItems(tokens).Some?
    ensures var (items, rest) := ParseItems(tokens).value; tokens == FlattenItems(items) + rest
    decreases |tokens|, 1
  {
    if tokens[0] != CloseArray {
      FlattenParse(tokens);
      FlattenParseItems(Parse(tokens).value.1);
    }
  }

  lemma {:induction false} FlattenParseFields(tokens: seq<Token>)
    requires ParseFields(tokens).Some?
    ensures var (fields, rest) := ParseFields(tokens).value; tokens == FlattenFields(fields) + rest
    decreases |tokens|, 1
  {
    if tokens[0] != CloseObject {
      FlattenParse(tokens[1..]);
      FlattenParseFields(Parse(tokens[1..]).value.1);
    }
  }

  // ----- what the walks accept -----

  /** The tokens left after one acceptable value whose containers nest at most `room` deep. */
  function Bounded(tokens: seq<Token>, room: int): Option<seq<Token>> {
    match Parse(tokens)
    case None => None
    case Some((v, rest)) => if Height(v) <= room && UniqueKeys(v) then Some(rest) else None
  }

  function BoundedItems(tokens: seq<Token>, room: int): Option<seq<Token>> {
    match ParseItems(tokens)
    case None => None
    case Some((items, rest)) => if ItemsHeight(items) <= room && ItemsUnique(items) then Some(rest) else None
  }

  /** The rest of an object whose keys so far are `seen`. */
  function BoundedFields(tokens: seq<Token>, seen: set<string>, room: int): Option<seq<Token>> {
    match ParseFields(tokens)
    case None => None
    case Some((fields, rest)) =>
      if FieldsHeight(fields) <= room && FieldsUnique(fields) && Keys(fields) !! seen then Some(rest) else None
  }

  /** As `Bounded`, but at any depth. */
  function Unbounded(tokens: seq<Token>): Option<seq<Token>> {
    match Parse(tokens)
    case None => None
    case Some((v, rest)) => if UniqueKeys(v) then Some(rest) else None
  }

  /** The bounded walk accepts a token sequence, leaving `rest`, exactly when the sequence is the
      tokens of one value of bounded height without repeated keys, followed by `rest`. */
  lemma BoundedIsOneValue(tokens: seq<Token>, room: int, rest: seq<Token>)
    ensures Bounded(tokens, room) == Some(rest) <==>
            exists v :: tokens == Flatten(v) + rest && Height(v) <= room && UniqueKeys(v)
  {
    if Bounded(tokens, room) == Some(rest) {
      FlattenParse(tokens);
    }
    forall v | tokens == Flatten(v) + rest && Height(v) <= room && UniqueKeys(v)
      ensures Bounded(tokens, room) == Some(rest)
    {
      ParseFlatten(v, rest);
    }
  }

  /** The checkpoint manifest's walk accepts whatever the bounded walk accepts, and leaves the same
      rest; it accepts nothing that no bound would let through. */
  lemma UnboundedIsAnyBound(tokens: seq<Token>, rest: seq<Token>)
    ensures Unbounded(tokens) == Some(rest) <==> exists room: int :: Bounded(tokens, room) == Some(rest)
  {
    if Unbounded(tokens) == Some(rest) {
      assert Bounded(tokens, Height(Parse(tokens).value.0)) == Some(rest);
    }
  }

  /** A token sequence determines its value and what follows it. */
  lemma FlattenUnambiguous(v: Json, rest: seq<Token>, w: Json, other: seq<Token>)
    requires Flatten(v) + rest == Flatten(w) + other
    ensures v == w && rest == other
  {
    ParseFlatten(v, rest);
    ParseFlatten(w, other);
  }

  // ----- the code -----

  class Decoder {
    var tokens: seq<Token>

    constructor (tokens: seq<Token>)
      ensures this.tokens == tokens
    {
      this.tokens := tokens;
    }

    /** The next token; None at the end of the input. */
    method Token() returns (token: Option<Token>)
      modifies this
      ensures old(tokens) == [] ==> token == None && tokens == []
      ensures old(tokens) != [] ==> token == Some(old(tokens)[0]) && tokens == old(tokens)[1..]
    {
      if tokens == [] {
        return None;
      }
      token, tokens := Some(tokens[0]), tokens[1..];
    }

    /** Whether the current container has another element. */
    predicate More()
      reads this
    {
      tokens != [] && tokens[0] != CloseObject && tokens[0] != CloseArray
    }
  }

  predicate RootMatches(tokens: seq<Token>, root: Option<Token>) {
    root.Some? ==> tokens != [] && tokens[0] == root.value
  }

  lemma NextItem(tokens: seq<Token>, room: int)
    requires tokens != [] && tokens[0] != CloseArray && tokens[0] != CloseObject
    ensures BoundedItems(tokens, room) ==
            match Bounded(tokens, room - 1)
            case None => None
            case Some(rest) => BoundedItems(rest, room)
  {
  }

  lemma NextField(tokens: seq<Token>, seen: set<string>, room: int)
    requires tokens != [] && tokens[0].Str?
    ensures BoundedFields(tokens, seen, room) ==
            if tokens[0].text in seen then None
            else match Bounded(tokens[1..], room - 1)
                 case None => None
                 case Some(rest) => BoundedFields(rest, seen + {tokens[0].text}, room)
  {
  }

  /** consumeJSON: the walk of one value at `depth`. */
  method ConsumeJson(decoder: Decoder, depth: nat, depthLimit: int, requiredRoot: Option<Token>) returns (ok: bool)
    modifies decoder
    ensures ok <==> Bounded(old(decoder.tokens), depthLimit - depth).Some?
                    && (depth == 0 ==> RootMatches(old(decoder.tokens), requiredRoot))
    ensures ok ==> decoder.tokens == Bounded(old(decoder.tokens), depthLimit - depth).value
    ensures |decoder.tokens| <= |old(decoder.tokens)|
    decreases |decoder.tokens|, 0
  {
    if depth > depthLimit {
      return false;
    }
    var token := decoder.Token();
    if token == None {
      return false;
    }
    if depth == 0 && requiredRoot.Some? && token != requiredRoot {
      return false;
    }
    match token.value
    case Str(_) => return true;
    case Plain(_) => return true;
    case OpenObject =>
      ok := ConsumeFields(decoder, depth, depthLimit);
    case OpenArray =>
      ok := ConsumeItems(decoder, depth, depthLimit);
    case _ => return false;
  }

  /** The object branch of consumeJSON. */
  method ConsumeFields(decoder: Decoder, depth: nat, depthLimit: int) returns (ok: bool)
    requires depth <= depthLimit
    modifies decoder
    ensures ok <==> BoundedFields(old(decoder.tokens), {}, depthLimit - depth).Some?
    ensures ok ==> decoder.tokens == BoundedFields(old(decoder.tokens), {}, depthLimit - depth).value
    ensures |decoder.tokens| <= |old(decoder.tokens)|
    decreases |decoder.tokens|, 1
  {
    var seen: set<string> := {};
    ghost var room := depthLimit - depth;
    while decoder.More()
      invariant |decoder.tokens| <= |old(decoder.tokens)|
      invariant BoundedFields(old(decoder.tokens), {}, room) == BoundedFields(decoder.tokens, seen, room)
      decreases |decoder.tokens|
    {
      ghost var tokens := decoder.tokens;
      var keyToken := decoder.Token();
      if !keyToken.value.Str? {
        return false;
      }
      NextField(tokens, seen, room);
      var key := keyToken.value.text;
      if key in seen {
        return false;
      }
      seen := seen + {key};
      var nested := ConsumeJson(decoder, depth + 1, depthLimit, None);
      if !nested {
        return false;
      }
    }
    var closing := decoder.Token();
    ok := closing == Some(CloseObject);
  }

  /** The array branch of consumeJSON. */
  method ConsumeItems(decoder: Decoder, depth: nat, depthLimit: int) returns (ok: bool)
    requires depth <= depthLimit
    modifies decoder
    ensures ok <==> BoundedItems(old(decoder.tokens), depthLimit - depth).Some?
    ensures ok ==> decoder.tokens == BoundedItems(old(decoder.tokens), depthLimit - depth).value
    ensures |decoder.tokens| <= |old(decoder.tokens)|
    decreases |decoder.tokens|, 1
  {
    ghost var room := depthLimit - depth;
    while decoder.More()
      invariant |decoder.tokens| <= |old(decoder.tokens)|
      invariant BoundedItems(old(decoder.tokens), room) == BoundedItems(decoder.tokens, room)
      decreases |decoder.tokens|
    {
      NextItem(decoder.tokens, room);
      var nested := ConsumeJson(decoder, depth + 1, depthLimit, None);
      if !nested {
        return false;
      }
    }
    assert decoder.tokens != [] && decoder.tokens[0] == CloseObject ==> Parse(decoder.tokens) == None;
    var closing := decoder.Token();
    ok := closing == Some(CloseArray);
  }

  /** validateJSON: one acceptable value and nothing after it. */
  method ValidateJson(tokens: seq<Token>, depthLimit: int, requiredRoot: Option<Token>) returns (ok: bool)
    ensures ok <==> RootMatches(tokens, requiredRoot) &&
                    exists v :: tokens == Flatten(v) && Height(v) <= depthLimit && UniqueKeys(v)
  {
    var decoder := new Decoder(tokens);
    ok := ConsumeJson(decoder, 0, depthLimit, requiredRoot);
    if ok {
      var trailing := decoder.Token();
      ok := trailing == None;
    }
    BoundedIsOneValue(tokens, depthLimit, []);
    assert forall v :: Flatten(v) + [] == Flatten(v);
  }

  function UniqueItems(tokens: seq<Token>): Option<seq<Token>> {
    match ParseItems(tokens)
    case None => None
    case Some((items, rest)) => if ItemsUnique(items) then Some(rest) else None
  }

  function UniqueFields(tokens: seq<Token>, seen: set<string>): Option<seq<Token>> {
    match ParseFields(tokens)
    case None => None
    case Some((fields, rest)) => if FieldsUnique(fields) && Keys(fields) !! seen then Some(rest) else None
  }

  lemma NextUniqueField(tokens: seq<Token>, seen: set<string>)
    requires tokens != [] && tokens[0].Str?
    ensures UniqueFields(tokens, seen) ==
            if tokens[0].text in seen then None
            else match Unbounded(tokens[1..])
                 case None => None
                 case Some(rest) => UniqueFields(rest, seen + {tokens[0].text})
  {
  }

  /** scanCheckpointJSONValue: the same walk without a depth limit. */
  method ScanCheckpointValue(decoder: Decoder) returns (ok: bool)
    modifies decoder
    ensures ok <==> Unbounded(old(decoder.tokens)).Some?
    ensures ok ==> decoder.tokens == Unbounded(old(decoder.tokens)).value
    ensures |decoder.tokens| <= |old(decoder.tokens)|
    decreases |decoder.tokens|
  {
    var token := decoder.Token();
    if token == None {
      return false;
    }
    ghost var before := decoder.tokens;
    match token.value
    case Str(_) => return true;
    case Plain(_) => return true;
    case OpenObject =>
      var seen: set<string> := {};
      while decoder.More()
        invariant |decoder.tokens| <= |before|
        invariant UniqueFields(before, {}) == UniqueFields(decoder.tokens, seen)
        decreases |decoder.tokens|
      {
        ghost var tokens := decoder.tokens;
        var keyToken := decoder.Token();
        if !keyToken.value.Str? {
          return false;
        }
        NextUniqueField(tokens, seen);
        var key := keyToken.value.text;
        if key in seen {
          return false;
        }
        seen := seen + {key};
        var nested := ScanCheckpointValue(decoder);
        if !nested {
          return false;
        }
      }
      var closing := decoder.Token();
      ok := closing == Some(CloseObject);
    case OpenArray =>
      while decoder.More()
        invariant |decoder.tokens| <= |before|
        invariant UniqueItems(before) == UniqueItems(decoder.tokens)
        decreases |decoder.tokens|
      {
        var nested := ScanCheckpointValue(decoder);
        if !nested {
          return false;
        }
      }
      assert decoder.tokens != [] && decoder.tokens[0] == CloseObject ==> Parse(decoder.tokens) == None;
      var closing := decoder.Token();
      ok := closing == Some(CloseArray);
    case _ => return false;
  }
}
