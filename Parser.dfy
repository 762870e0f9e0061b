/** The parser: an index-driven recursive descent that turns the token list
    into a tree of statements. */
module Parser {
  import opened Common
  import Tokens
  import Tokenizer

  /** The `Statement` subclasses. */
  datatype Kind =
    | Select | From | Group | Having | Limit | Order | Where
    | Join | Key | Link | Compare | Identifier | Comma | Sub

  /** A `Statement(value, statements)`. */
  datatype Node = Node(kind: Kind, value: string, children: seq<Node>)

  /** How `_parse` can go wrong:
      - `Stuck`: a token matches no branch, so the loop index never moves
        and the source loops forever (appending `None` each time);
      - `MissingOperand`: STR and COMPARE are the last two tokens, and
        reading the operand after the operator is an `IndexError`. */
  datatype ParseError = Stuck | MissingOperand

  /** The `(statements, count)` pair `_parse` returns, or how it fails. */
  datatype ParseResult = Parsed(nodes: seq<Node>, count: nat) | Failed(error: ParseError)

  /** The result of `parse`. */
  datatype Tree = Tree(nodes: seq<Node>) | Error(error: ParseError)

  // ---------------------------------------------------------------------------
  // Token tests
  // ---------------------------------------------------------------------------

  /** `statements_with_subs`: the clause tokens, which take the following
      tokens as children. */
  function ClauseKind(t: Tokens.TokenType): Option<Kind>
  {
    match t
    case Select => Some(Select)
    case From => Some(From)
    case Group => Some(Group)
    case Having => Some(Having)
    case Limit => Some(Limit)
    case Order => Some(Order)
    case Where => Some(Where)
    case _ => None
  }

  /** `statements_without_subs`. */
  function PlainKind(t: Tokens.TokenType): Option<Kind>
  {
    match t
    case Join => Some(Join)
    case Keyword => Some(Key)
    case Link => Some(Link)
    case _ => None
  }

  /** The clause tokens at which a nested parse stops: all but SELECT. */
  predicate EndsNested(t: Tokens.TokenType)
  {
    t == Tokens.From || t == Tokens.Group || t == Tokens.Having
    || t == Tokens.Limit || t == Tokens.Order || t == Tokens.Where
  }

  predicate IsClosing(t: Tokens.Token)
  {
    t.ttype == Tokens.Punctuation && t.value == ")"
  }

  predicate IsOpening(t: Tokens.Token)
  {
    t.ttype == Tokens.Punctuation && t.value == "("
  }

  predicate IsComma(t: Tokens.Token)
  {
    t.ttype == Tokens.Punctuation && t.value == ","
  }

  /** The two `break`s of the loop. */
  predicate Stops(t: Tokens.Token, nested: bool)
  {
    (nested && EndsNested(t.ttype)) || IsClosing(t)
  }

  /** The nodes of `ns` in front of the nodes of `r`; a failure stays. */
  function Prepend(ns: seq<Node>, r: ParseResult): ParseResult
  {
    match r
    case Parsed(ms, c) => Parsed(ns + ms, c)
    case Failed(e) => r
  }

  // ---------------------------------------------------------------------------
  // The parser as specification functions
  // ---------------------------------------------------------------------------

  /** `_cls_with_sub_statements`: a node of the given kind whose children
      are the parse of the tokens after it; the count is the parse's. */
  function WithSubStatements(kind: Kind, token: Tokens.Token, sub: seq<Tokens.Token>, nested: bool): ParseResult
    decreases |sub|, 3, 0
  {
    match Parse(sub, nested)
    case Parsed(children, count) => Parsed([Node(kind, token.value, children)], count)
    case Failed(e) => Failed(e)
  }

  /** `_cls_from_dict`: a clause node with its children, or a childless
      JOIN, KEYWORD or LINK node, with the tokens consumed; no node (the
      source's `None`) and a count of 1 for any other token. */
  function ClsFromDict(token: Tokens.Token, sub: seq<Tokens.Token>): ParseResult
    decreases |sub|, 4, 0
  {
    match ClauseKind(token.ttype)
    case Some(kind) =>
      (match WithSubStatements(kind, token, sub, true)
       case Parsed(ns, count) => Parsed(ns, count + 1)
       case Failed(e) => Failed(e))
    case None =>
      match PlainKind(token.ttype)
      case Some(kind) => Parsed([Node(kind, token.value, [])], 1)
      case None => Parsed([], 1)
  }

  /** `_parse(tokens, nested)`. */
  function Parse(tokens: seq<Tokens.Token>, nested: bool): ParseResult
    decreases |tokens|, 2, 0
  {
    if tokens == [] then Parsed([], 0) else ParseAt(tokens, nested, 0)
  }

  /** One pass of the loop body of `_parse` at index `i`: the statements
      it appends and the index it moves to. */
  datatype Step = Next(nodes: seq<Node>, next: nat) | Halt(error: ParseError)

  /** The loop body of `_parse` at index `i`, for a token that is not a stop
      token: the first branch that applies. */
  function StepAt(tokens: seq<Tokens.Token>, nested: bool, i: nat): (r: Step)
    requires i < |tokens|
    ensures r.Next? ==> r.next > i
    decreases |tokens|, 0, 0
  {
    var token := tokens[i];
    var sub := tokens[i + 1..];
    match ClsFromDict(token, sub)
    case Failed(e) => Halt(e)
    case Parsed(ns, count) =>
      if ns != [] then Next(ns, i + count)
      else if token.ttype == Tokens.Str then
        if sub != [] && sub[0].ttype == Tokens.Compare then
          if |sub| < 2 then Halt(MissingOperand)
          else if sub[1].ttype == Tokens.Punctuation then
            match Parse(sub[1..], true)
            case Failed(e) => Halt(e)
            case Parsed(inner, c) => Next([Node(Compare, JoinSpace([token.value, sub[0].value]), inner)], i + c + 2)
          else Next([Node(Compare, JoinSpace([token.value, sub[0].value, sub[1].value]), [])], i + 3)
        else Next([Node(Identifier, token.value, [])], i + 1)
      else if IsOpening(token) then
        match WithSubStatements(Sub, token, sub, false)
        case Failed(e) => Halt(e)
        case Parsed(ns', c) => Next(ns', i + 2 + c)
      else if IsComma(token) then Next([Node(Comma, token.value, [])], i + 1)
      else Halt(Stuck)
  }

  /** The loop of `_parse` from index `i` on: the nodes it still appends and
      the index at which it ends. */
  function ParseAt(tokens: seq<Tokens.Token>, nested: bool, i: nat): ParseResult
    decreases |tokens|, 1, if i < |tokens| then |tokens| - i else 0
  {
    if i >= |tokens| || Stops(tokens[i], nested) then Parsed([], i)
    else
      match StepAt(tokens, nested, i)
      case Halt(e) => Failed(e)
      case Next(ns, next) => Prepend(ns, ParseAt(tokens, nested, next))
  }

  /** `parse`: the top-level statements. */
  function ParseTree(tokens: seq<Tokens.Token>): Tree
  {
    match Parse(tokens, false)
    case Parsed(ns, _) => Tree(ns)
    case Failed(e) => Error(e)
  }

  // ---------------------------------------------------------------------------
  // Facts the loop needs about `Prepend`
  // ---------------------------------------------------------------------------

  lemma PrependNothing(r: ParseResult)
    ensures Prepend([], r) == r
  {
    if r.Parsed? {
      assert [] + r.nodes == r.nodes;
    }
  }

  lemma PrependTwice(a: seq<Node>, b: seq<Node>, r: ParseResult)
    ensures Prepend(a, Prepend(b, r)) == Prepend(a + b, r)
  {
    if r.Parsed? {
      AppendAssoc(a, b, r.nodes);
    }
  }

  // ---------------------------------------------------------------------------
  // One pass of the loop body, branch by branch
  // ---------------------------------------------------------------------------

  /** A token `_cls_from_dict` makes a statement of is that statement. */
  lemma StepFromDict(tokens: seq<Tokens.Token>, nested: bool, i: nat)
    requires i < |tokens|
    requires var r := ClsFromDict(tokens[i], tokens[i + 1..]); r.Parsed? && r.nodes != []
    ensures var r := ClsFromDict(tokens[i], tokens[i + 1..]);
      StepAt(tokens, nested, i) == Next(r.nodes, i + r.count)
  {
  }

  /** A clause token becomes a node with the token text whose children are
      the nested parse of the tokens after it; it consumes 1 plus their count. */
  lemma StepClause(tokens: seq<Tokens.Token>, nested: bool, i: nat, kind: Kind)
    requires i < |tokens| && ClauseKind(tokens[i].ttype) == Some(kind)
    ensures Parse(tokens[i + 1..], true).Failed? ==> StepAt(tokens, nested, i) == Halt(Parse(tokens[i + 1..], true).error)
    ensures var r := Parse(tokens[i + 1..], true);
      r.Parsed? ==> StepAt(tokens, nested, i) == Next([Node(kind, tokens[i].value, r.nodes)], i + 1 + r.count)
  {
    var sub := tokens[i + 1..];
    var r := Parse(sub, true);
    if r.Parsed? {
      var node := Node(kind, tokens[i].value, r.nodes);
      assert WithSubStatements(kind, tokens[i], sub, true) == Parsed([node], r.count);
      assert ClsFromDict(tokens[i], sub) == Parsed([node], r.count + 1);
    } else {
      assert WithSubStatements(kind, tokens[i], sub, true) == Failed(r.error);
      assert ClsFromDict(tokens[i], sub) == Failed(r.error);
    }
  }

  /** JOIN, KEYWORD and LINK tokens become childless nodes and consume one token. */
  lemma StepPlain(tokens: seq<Tokens.Token>, nested: bool, i: nat, kind: Kind)
    requires i < |tokens| && PlainKind(tokens[i].ttype) == Some(kind)
    ensures StepAt(tokens, nested, i) == Next([Node(kind, tokens[i].value, [])], i + 1)
  {
  }

  /** STR, COMPARE and then a token that is not PUNCTUATION become one Compare
      valued by the three texts joined with single spaces, consuming three tokens. */
  lemma StepCompare(tokens: seq<Tokens.Token>, nested: bool, i: nat)
    requires i + 2 < |tokens| && tokens[i].ttype == Tokens.Str
    requires tokens[i + 1].ttype == Tokens.Compare && tokens[i + 2].ttype != Tokens.Punctuation
    ensures StepAt(tokens, nested, i)
      == Next([Node(Compare, tokens[i].value + " " + tokens[i + 1].value + " " + tokens[i + 2].value, [])], i + 3)
  {
    var a, op, b := tokens[i].value, tokens[i + 1].value, tokens[i + 2].value;
    assert [a, op, b][1..] == [op, b];
    assert JoinSpace([op, b]) == op + " " + b;
    assert JoinSpace([a, op, b]) == a + " " + op + " " + b;
    var sub := tokens[i + 1..];
    assert ClsFromDict(tokens[i], sub) == Parsed([], 1);
    assert sub[0] == tokens[i + 1] && sub[1] == tokens[i + 2];
  }

  /** STR, COMPARE and then PUNCTUATION become a Compare valued `operand op`
      whose children are the nested parse from the punctuation on; it consumes
      2 plus their count. */
  lemma StepListCompare(tokens: seq<Tokens.Token>, nested: bool, i: nat)
    requires i + 2 < |tokens| && tokens[i].ttype == Tokens.Str
    requires tokens[i + 1].ttype == Tokens.Compare && tokens[i + 2].ttype == Tokens.Punctuation
    ensures var r := Parse(tokens[i + 2..], true);
      StepAt(tokens, nested, i)
      == if r.Failed? then Halt(r.error)
         else Next([Node(Compare, tokens[i].value + " " + tokens[i + 1].value, r.nodes)], i + 2 + r.count)
  {
    assert tokens[i + 1..][1..] == tokens[i + 2..];
    assert JoinSpace([tokens[i].value, tokens[i + 1].value]) == tokens[i].value + " " + tokens[i + 1].value;
  }

  /** STR and COMPARE as the last two tokens: the operand is missing. */
  lemma StepMissingOperand(tokens: seq<Tokens.Token>, nested: bool)
    requires |tokens| >= 2 && tokens[|tokens| - 2].ttype == Tokens.Str
    requires tokens[|tokens| - 1].ttype == Tokens.Compare
    ensures StepAt(tokens, nested, |tokens| - 2) == Halt(MissingOperand)
  {
  }

  /** A STR that no COMPARE follows is an Identifier consuming one token. */
  lemma StepIdentifier(tokens: seq<Tokens.Token>, nested: bool, i: nat)
    requires i < |tokens| && tokens[i].ttype == Tokens.Str
    requires i + 1 == |tokens| || tokens[i + 1].ttype != Tokens.Compare
    ensures StepAt(tokens, nested, i) == Next([Node(Identifier, tokens[i].value, [])], i + 1)
  {
  }

  /** `(` becomes a Sub whose children are the non-nested parse of what
      follows; it consumes 2 plus their count, the parentheses included. */
  lemma StepSub(tokens: seq<Tokens.Token>, nested: bool, i: nat)
    requires i < |tokens| && IsOpening(tokens[i])
    ensures var r := Parse(tokens[i + 1..], false);
      StepAt(tokens, nested, i)
      == if r.Failed? then Halt(r.error) else Next([Node(Sub, "(", r.nodes)], i + 2 + r.count)
  {
  }

  /** `,` is a Comma consuming one token. */
  lemma StepComma(tokens: seq<Tokens.Token>, nested: bool, i: nat)
    requires i < |tokens| && IsComma(tokens[i])
    ensures StepAt(tokens, nested, i) == Next([Node(Comma, ",", [])], i + 1)
  {
  }

  /** One pass of the loop keeps its invariant. */
  lemma LoopStep(tokens: seq<Tokens.Token>, nested: bool, i: nat, statements: seq<Node>)
    requires i < |tokens| && !Stops(tokens[i], nested) && StepAt(tokens, nested, i).Next?
    requires Parse(tokens, nested) == Prepend(statements, ParseAt(tokens, nested, i))
    ensures var step := StepAt(tokens, nested, i);
      Parse(tokens, nested) == Prepend(statements + step.nodes, ParseAt(tokens, nested, step.next))
  {
    var step := StepAt(tokens, nested, i);
    PrependTwice(statements, step.nodes, ParseAt(tokens, nested, step.next));
  }

  lemma ValuesOfFew(tks: seq<Tokens.Token>)
    ensures |tks| == 2 ==> Tokenizer.Values(tks) == [tks[0].value, tks[1].value]
    ensures |tks| == 3 ==> Tokenizer.Values(tks) == [tks[0].value, tks[1].value, tks[2].value]
  {
  }

  // ---------------------------------------------------------------------------
  // The imperative parser
  // ---------------------------------------------------------------------------

  /** `_cls_with_sub_statements` */
  method ClsWithSubStatements(kind: Kind, token: Tokens.Token, sub: seq<Tokens.Token>, nested: bool)
    returns (r: ParseResult)
    ensures r == WithSubStatements(kind, token, sub, nested)
    decreases |sub|, 3, 0
  {
    var parsed := ParseTokens(sub, nested);
    if parsed.Failed? {
      return Failed(parsed.error);
    }
    var statement := Node(kind, token.value, parsed.nodes);
    r := Parsed([statement], parsed.count);
  }

  /** `_cls_from_dict` */
  method ClassFromDict(token: Tokens.Token, sub: seq<Tokens.Token>) returns (r: ParseResult)
    ensures r == ClsFromDict(token, sub)
    decreases |sub|, 4, 0
  {
    var statement: seq<Node> := [];
    var count := 0;
    var withSubs := ClauseKind(token.ttype);
    if withSubs.Some? {
      var built := ClsWithSubStatements(withSubs.value, token, sub, true);
      if built.Failed? {
        return built;
      }
      statement, count := built.nodes, built.count;
    } else {
      var withoutSubs := PlainKind(token.ttype);
      if withoutSubs.Some? {
        statement := [Node(withoutSubs.value, token.value, [])];
      }
    }
    r := Parsed(statement, count + 1);
  }

  /** `_parse`: walks the tokens with index `i`, appending one statement per
      step, until a stop token or the end. Where the source would loop
      forever the method returns `Stuck`. */
  method ParseTokens(tokens: seq<Tokens.Token>, nested: bool) returns (r: ParseResult)
    ensures r == Parse(tokens, nested)
    decreases |tokens|, 2, 0
  {
    var statements: seq<Node> := [];
    if tokens == [] {
      return Parsed(statements, 0);
    }
    var i := 0;
    PrependNothing(ParseAt(tokens, nested, 0));
    while i < |tokens|
      invariant Parse(tokens, nested) == Prepend(statements, ParseAt(tokens, nested, i))
      decreases |tokens| - i
    {
      var token := tokens[i];
      if (nested && EndsNested(token.ttype)) || IsClosing(token) {
        break;
      }
      var step := StepTokens(tokens, nested, i);
      if step.Halt? {
        return Failed(step.error);
      }
      LoopStep(tokens, nested, i, statements);
      statements := statements + step.nodes;
      i := step.next;
    }
    r := Parsed(statements, i);
  }

  /** The body of the `_parse` loop at index `i`: the statements one pass
      appends and the index it moves on to. */
  method StepTokens(tokens: seq<Tokens.Token>, nested: bool, i: nat) returns (step: Step)
    requires i < |tokens|
    ensures step == StepAt(tokens, nested, i)
    decreases |tokens|, 1, 0
  {
    var token, sub := tokens[i], tokens[i + 1..];
    var fromDict := ClassFromDict(token, sub);
    if fromDict.Failed? {
      return Halt(fromDict.error);
    }
    if fromDict.nodes != [] {
      StepFromDict(tokens, nested, i);
      return Next(fromDict.nodes, i + fromDict.count);
    }
    if token.ttype == Tokens.Str {
      if sub != [] && sub[0].ttype == Tokens.Compare {
        if |sub| < 2 {
          return Halt(MissingOperand);
        }
        var isListCompare := sub[1].ttype == Tokens.Punctuation;
        var tks: seq<Tokens.Token>;
        var subStatement: seq<Node> := [];
        var count := 0;
        if isListCompare {
          tks := [token, sub[0]];
          assert sub[1..] == tokens[i + 2..];
          var inner := ParseTokens(sub[1..], true);
          if inner.Failed? {
            StepListCompare(tokens, nested, i);
            return Halt(inner.error);
          }
          subStatement, count := inner.nodes, inner.count;
        } else {
          tks := [token, sub[0], sub[1]];
        }
        var node := Node(Compare, JoinSpace(Tokenizer.Values(tks)), []);
        ValuesOfFew(tks);
        if isListCompare {
          node := node.(children := subStatement);
          StepListCompare(tokens, nested, i);
        } else {
          StepCompare(tokens, nested, i);
        }
        return Next([node], i + count + |tks|);
      }
      StepIdentifier(tokens, nested, i);
      return Next([Node(Identifier, token.value, [])], i + 1);
    }
    if IsOpening(token) {
      var built := ClsWithSubStatements(Sub, token, sub, false);
      StepSub(tokens, nested, i);
      if built.Failed? {
        return Halt(built.error);
      }
      return Next(built.nodes, i + 2 + built.count);
    }
    if IsComma(token) {
      StepComma(tokens, nested, i);
      return Next([Node(Comma, token.value, [])], i + 1);
    }
    return Halt(Stuck);
  }

  /** `parse` */
  method ParseStatements(tokens: seq<Tokens.Token>) returns (t: Tree)
    ensures t == ParseTree(tokens)
  {
    var parsed := ParseTokens(tokens, false);
    if parsed.Failed? {
      return Error(parsed.error);
    }
    t := Tree(parsed.nodes);
  }
}
