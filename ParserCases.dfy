/** Parse trees of the queries the test fixtures list, and the whole path
    from SQL text to statements for `SELECT * FROM <table> LIMIT <n>`. */
module ParserCases {
  import opened Common
  import Tokens
  import Tokenizer
  import TokenizerCases
  import opened Parser
  import opened ParserFacts

  function Word(v: string): Tokens.Token
  {
    Tokens.Token(Tokens.Str, v)
  }

  function Ident(v: string): Node
  {
    Node(Identifier, v, [])
  }

  /** A lone operand at the end of a nested parse is one Identifier. */
  lemma IdentifierAtEnd(t: Tokens.Token)
    requires t.ttype == Tokens.Str
    ensures Parse([t], true) == Parsed([Ident(t.value)], 1)
  {
    StepIdentifier([t], true, 0);
    assert ParseAt([t], true, 0) == Prepend([Ident(t.value)], ParseAt([t], true, 1));
  }

  /** A lone operand before a clause that ends a nested parse is one Identifier. */
  lemma IdentifierBeforeClause(ts: seq<Tokens.Token>)
    requires |ts| >= 2 && ts[0].ttype == Tokens.Str && EndsNested(ts[1].ttype)
    ensures Parse(ts, true) == Parsed([Ident(ts[0].value)], 1)
  {
    StepIdentifier(ts, true, 0);
    assert ParseAt(ts, true, 0) == Prepend([Ident(ts[0].value)], ParseAt(ts, true, 1));
  }

  /** A clause followed by one operand, then the end or another clause. */
  lemma ClauseOverOperand(tokens: seq<Tokens.Token>, i: nat, kind: Kind)
    requires i + 1 < |tokens| && ClauseKind(tokens[i].ttype) == Some(kind)
    requires tokens[i + 1].ttype == Tokens.Str
    requires i + 2 == |tokens| || EndsNested(tokens[i + 2].ttype)
    ensures StepAt(tokens, false, i)
      == Next([Node(kind, tokens[i].value, [Ident(tokens[i + 1].value)])], i + 2)
  {
    StepClause(tokens, false, i, kind);
    if i + 2 == |tokens| {
      assert tokens[i + 1..] == [tokens[i + 1]];
      IdentifierAtEnd(tokens[i + 1]);
    } else {
      IdentifierBeforeClause(tokens[i + 1..]);
    }
  }

  function SelectFromLimit(a: string, b: string, c: string): seq<Tokens.Token>
  {
    [Tokens.Token(Tokens.Select, "SELECT"), Word(a), Tokens.Token(Tokens.From, "FROM"),
     Word(b), Tokens.Token(Tokens.Limit, "LIMIT"), Word(c)]
  }

  /** The `select_with_limit` tree, for any three operands. */
  lemma SelectFromLimitTree(a: string, b: string, c: string)
    ensures Parse(SelectFromLimit(a, b, c), false)
      == Parsed([Node(Select, "SELECT", [Ident(a)]), Node(From, "FROM", [Ident(b)]),
                 Node(Limit, "LIMIT", [Ident(c)])], 6)
  {
    var ts := SelectFromLimit(a, b, c);
    ClauseOverOperand(ts, 0, Select);
    ClauseOverOperand(ts, 2, From);
    ClauseOverOperand(ts, 4, Limit);
    ThreeSteps(ts, Node(Select, "SELECT", [Ident(a)]), Node(From, "FROM", [Ident(b)]), Node(Limit, "LIMIT", [Ident(c)]));
  }

  /** From text to statements: `SELECT * FROM <table> LIMIT <n>` parses to a
      SELECT of `*`, a FROM of the table and a LIMIT of the count. */
  lemma SelectStarFromLimitTree(table: string, n: string)
    requires TokenizerCases.PlainWord(table) && TokenizerCases.PlainWord(n)
    ensures ParseTree(Tokenizer.Tokenize(TokenizerCases.SelectStarFromLimit(table, n)))
      == Tree([Node(Select, "SELECT", [Ident("*")]), Node(From, "FROM", [Ident(table)]),
               Node(Limit, "LIMIT", [Ident(n)])])
  {
    TokenizerCases.SelectStarFromLimitTokens(table, n);
    SelectFromLimitTree("*", table, n);
  }
  function Punct(v: string): Tokens.Token
  {
    Tokens.Token(Tokens.Punctuation, v)
  }

  /** `SELECT a FROM b WHERE` followed by `tail`. */
  function SelectFromWhere(a: string, b: string, tail: seq<Tokens.Token>): seq<Tokens.Token>
  {
    [Tokens.Token(Tokens.Select, "SELECT"), Word(a), Tokens.Token(Tokens.From, "FROM"),
     Word(b), Tokens.Token(Tokens.Where, "WHERE")] + tail
  }

  /** Three passes of the top-level loop that end exactly at the end. */
  lemma ThreeSteps(ts: seq<Tokens.Token>, s: Node, f: Node, w: Node)
    requires |ts| > 4 && !IsClosing(ts[0]) && !IsClosing(ts[2]) && !IsClosing(ts[4])
    requires StepAt(ts, false, 0) == Next([s], 2) && StepAt(ts, false, 2) == Next([f], 4)
    requires StepAt(ts, false, 4) == Next([w], |ts|)
    ensures Parse(ts, false) == Parsed([s, f, w], |ts|)
  {
    var r := ParseAt(ts, false, |ts|);
    assert r == Parsed([], |ts|);
    var r4 := ParseAt(ts, false, 4);
    assert r4 == Prepend([w], r);
    var r2 := ParseAt(ts, false, 2);
    assert r2 == Prepend([f], r4);
    assert ParseAt(ts, false, 0) == Prepend([s], r2);
  }

  /** A WHERE at index 4 whose nested parse takes all the rest. */
  lemma WhereStep(ts: seq<Tokens.Token>, filters: seq<Node>)
    requires |ts| > 5 && ts[4].ttype == Tokens.Where
    requires Parse(ts[5..], true) == Parsed(filters, |ts| - 5)
    ensures StepAt(ts, false, 4) == Next([Node(Where, ts[4].value, filters)], |ts|)
  {
    StepClause(ts, false, 4, Where);
  }

  /** The shape of `SelectFromWhere`. */
  lemma SelectFromWhereShape(a: string, b: string, tail: seq<Tokens.Token>)
    ensures var ts := SelectFromWhere(a, b, tail);
      |ts| == 5 + |tail| && ts[5..] == tail
      && ts[0] == Tokens.Token(Tokens.Select, "SELECT") && ts[1] == Word(a)
      && ts[2] == Tokens.Token(Tokens.From, "FROM") && ts[3] == Word(b)
      && ts[4] == Tokens.Token(Tokens.Where, "WHERE")
  {
  }

  /** SELECT and FROM over one operand each, then a WHERE whose nested parse
      of the rest gives `filters` and consumes all of it. */
  lemma SelectFromWhereSteps(ts: seq<Tokens.Token>, filters: seq<Node>)
    requires |ts| > 5 && ts[0].ttype == Tokens.Select && ts[1].ttype == Tokens.Str
    requires ts[2].ttype == Tokens.From && ts[3].ttype == Tokens.Str && ts[4].ttype == Tokens.Where
    requires Parse(ts[5..], true) == Parsed(filters, |ts| - 5)
    ensures Parse(ts, false)
      == Parsed([Node(Select, ts[0].value, [Ident(ts[1].value)]), Node(From, ts[2].value, [Ident(ts[3].value)]),
                 Node(Where, ts[4].value, filters)], |ts|)
  {
    ClauseOverOperand(ts, 0, Select);
    ClauseOverOperand(ts, 2, From);
    WhereStep(ts, filters);
    ThreeSteps(ts, Node(Select, ts[0].value, [Ident(ts[1].value)]), Node(From, ts[2].value, [Ident(ts[3].value)]),
      Node(Where, ts[4].value, filters));
  }

  lemma SelectFromWhereTree(a: string, b: string, tail: seq<Tokens.Token>, filters: seq<Node>)
    requires |tail| >= 1 && Parse(tail, true) == Parsed(filters, |tail|)
    ensures Parse(SelectFromWhere(a, b, tail), false)
      == Parsed([Node(Select, "SELECT", [Ident(a)]), Node(From, "FROM", [Ident(b)]),
                 Node(Where, "WHERE", filters)], 5 + |tail|)
  {
    SelectFromWhereShape(a, b, tail);
    SelectFromWhereParsed(SelectFromWhere(a, b, tail), a, b, filters);
  }

  /** The parse of any tokens of the shape of `SelectFromWhere`. */
  lemma SelectFromWhereParsed(ts: seq<Tokens.Token>, a: string, b: string, filters: seq<Node>)
    requires |ts| > 5 && ts[0] == Tokens.Token(Tokens.Select, "SELECT") && ts[1] == Word(a)
    requires ts[2] == Tokens.Token(Tokens.From, "FROM") && ts[3] == Word(b)
    requires ts[4] == Tokens.Token(Tokens.Where, "WHERE")
    requires Parse(ts[5..], true) == Parsed(filters, |ts| - 5)
    ensures Parse(ts, false)
      == Parsed([Node(Select, "SELECT", [Ident(a)]), Node(From, "FROM", [Ident(b)]),
                 Node(Where, "WHERE", filters)], |ts|)
  {
    SelectFromWhereSteps(ts, filters);
  }

  /** `x op y`: one Compare of the three texts. */
  lemma ComparisonTree(x: string, op: string, y: string)
    ensures Parse([Word(x), Tokens.Token(Tokens.Compare, op), Word(y)], true)
      == Parsed([Node(Compare, x + " " + op + " " + y, [])], 3)
  {
    var ts := [Word(x), Tokens.Token(Tokens.Compare, op), Word(y)];
    StepCompare(ts, true, 0);
    assert ParseAt(ts, true, 0) == Prepend([Node(Compare, x + " " + op + " " + y, [])], ParseAt(ts, true, 3));
  }

  /** The `select_with_where` tree, for any operands. */
  lemma SelectWithWhereTree(a: string, b: string, x: string, op: string, y: string)
    ensures Parse(SelectFromWhere(a, b, [Word(x), Tokens.Token(Tokens.Compare, op), Word(y)]), false)
      == Parsed([Node(Select, "SELECT", [Ident(a)]), Node(From, "FROM", [Ident(b)]),
                 Node(Where, "WHERE", [Node(Compare, x + " " + op + " " + y, [])])], 8)
  {
    ComparisonTree(x, op, y);
    SelectFromWhereTree(a, b, [Word(x), Tokens.Token(Tokens.Compare, op), Word(y)],
      [Node(Compare, x + " " + op + " " + y, [])]);
  }

  /** `p , q )` in a Sub: two Identifiers and a Comma, ending at the `)`. */
  lemma PairTree(p: string, q: string)
    ensures Parse([Word(p), Punct(","), Word(q), Punct(")")], false)
      == Parsed([Ident(p), Node(Comma, ",", []), Ident(q)], 3)
  {
    var ts := [Word(p), Punct(","), Word(q), Punct(")")];
    StepIdentifier(ts, false, 0);
    StepComma(ts, false, 1);
    StepIdentifier(ts, false, 2);
    var r3 := ParseAt(ts, false, 3);
    assert r3 == Parsed([], 3);
    var r2 := ParseAt(ts, false, 2);
    assert r2 == Prepend([Ident(q)], r3);
    var r1 := ParseAt(ts, false, 1);
    assert r1 == Prepend([Node(Comma, ",", [])], r2);
    assert ParseAt(ts, false, 0) == Prepend([Ident(p)], r1);
  }

  /** `( p , q )`: one Sub holding the pair, consuming all five tokens. */
  lemma ListTree(p: string, q: string)
    ensures Parse([Punct("("), Word(p), Punct(","), Word(q), Punct(")")], true)
      == Parsed([Node(Sub, "(", [Ident(p), Node(Comma, ",", []), Ident(q)])], 5)
  {
    var ts := [Punct("("), Word(p), Punct(","), Word(q), Punct(")")];
    assert ts[1..] == [Word(p), Punct(","), Word(q), Punct(")")];
    PairTree(p, q);
    StepSub(ts, true, 0);
    var sub := Node(Sub, "(", [Ident(p), Node(Comma, ",", []), Ident(q)]);
    assert ParseAt(ts, true, 0) == Prepend([sub], ParseAt(ts, true, 5));
  }

  /** `x op ( p , q )`: a Compare valued `x op` holding the Sub. */
  lemma InListTree(x: string, op: string, p: string, q: string)
    ensures Parse([Word(x), Tokens.Token(Tokens.Compare, op), Punct("("), Word(p), Punct(","), Word(q), Punct(")")], true)
      == Parsed([Node(Compare, x + " " + op, [Node(Sub, "(", [Ident(p), Node(Comma, ",", []), Ident(q)])])], 7)
  {
    var ts := [Word(x), Tokens.Token(Tokens.Compare, op), Punct("("), Word(p), Punct(","), Word(q), Punct(")")];
    assert ts[2..] == [Punct("("), Word(p), Punct(","), Word(q), Punct(")")];
    ListTree(p, q);
    StepListCompare(ts, true, 0);
    var cmp := Node(Compare, x + " " + op, [Node(Sub, "(", [Ident(p), Node(Comma, ",", []), Ident(q)])]);
    assert ParseAt(ts, true, 0) == Prepend([cmp], ParseAt(ts, true, 7));
  }

  /** The `select_with_filter_in_list` tree, for any operands. */
  lemma SelectWithFilterInListTree(a: string, b: string, x: string, op: string, p: string, q: string)
    ensures Parse(SelectFromWhere(a, b, [Word(x), Tokens.Token(Tokens.Compare, op), Punct("("),
                                         Word(p), Punct(","), Word(q), Punct(")")]), false)
      == Parsed([Node(Select, "SELECT", [Ident(a)]), Node(From, "FROM", [Ident(b)]),
                 Node(Where, "WHERE", [Node(Compare, x + " " + op,
                   [Node(Sub, "(", [Ident(p), Node(Comma, ",", []), Ident(q)])])])], 12)
  {
    InListTree(x, op, p, q);
    SelectFromWhereTree(a, b, [Word(x), Tokens.Token(Tokens.Compare, op), Punct("("), Word(p), Punct(","), Word(q), Punct(")")],
      [Node(Compare, x + " " + op, [Node(Sub, "(", [Ident(p), Node(Comma, ",", []), Ident(q)])])]);
  }
  // ---------------------------------------------------------------------------
  // The fixtures themselves
  // ---------------------------------------------------------------------------

  /** `select_with_limit`, from its text to its statements. */
  lemma SelectWithLimitStatements(sql: string)
    requires sql == "SELECT * FROM my_table LIMIT 65"
    ensures ParseTree(Tokenizer.Tokenize(sql))
      == Tree([Node(Select, "SELECT", [Ident("*")]), Node(From, "FROM", [Ident("my_table")]),
               Node(Limit, "LIMIT", [Ident("65")])])
  {
    TokenizerCases.SelectWithLimitTokens(sql);
    SelectFromLimitTree("*", "my_table", "65");
  }

  /** `select_with_where`: `WHERE t = 3` is one Compare `t = 3`. */
  lemma SelectWithWhereStatements(tokens: seq<Tokens.Token>)
    requires tokens == [Tokens.Token(Tokens.Select, "SELECT"), Word("*"), Tokens.Token(Tokens.From, "FROM"),
                        Word("my_table2"), Tokens.Token(Tokens.Where, "WHERE"), Word("t"),
                        Tokens.Token(Tokens.Compare, "="), Word("3")]
    ensures ParseTree(tokens)
      == Tree([Node(Select, "SELECT", [Ident("*")]), Node(From, "FROM", [Ident("my_table2")]),
               Node(Where, "WHERE", [Node(Compare, "t = 3", [])])])
  {
    SelectWithWhereTree("*", "my_table2", "t", "=", "3");
    assert "t" + " " + "=" + " " + "3" == "t = 3";
    assert tokens == SelectFromWhere("*", "my_table2", [Word("t"), Tokens.Token(Tokens.Compare, "="), Word("3")]);
  }

  /** `select_with_filter_in_list`: `x IN ("78", "d")` is a Compare `x IN`
      holding a Sub of two Identifiers and a Comma. */
  lemma SelectWithFilterInListStatements(tokens: seq<Tokens.Token>)
    requires tokens == [Tokens.Token(Tokens.Select, "SELECT"), Word("x3"), Tokens.Token(Tokens.From, "FROM"),
                        Word("tab1"), Tokens.Token(Tokens.Where, "WHERE"), Word("x"),
                        Tokens.Token(Tokens.Compare, "IN"), Punct("("), Word("\"78\""), Punct(","),
                        Word("\"d\""), Punct(")")]
    ensures ParseTree(tokens)
      == Tree([Node(Select, "SELECT", [Ident("x3")]), Node(From, "FROM", [Ident("tab1")]),
               Node(Where, "WHERE", [Node(Compare, "x IN",
                 [Node(Sub, "(", [Ident("\"78\""), Node(Comma, ",", []), Ident("\"d\"")])])])])
  {
    SelectWithFilterInListTree("x3", "tab1", "x", "IN", "\"78\"", "\"d\"");
    assert "x" + " " + "IN" == "x IN";
    assert tokens == SelectFromWhere("x3", "tab1", [Word("x"), Tokens.Token(Tokens.Compare, "IN"), Punct("("),
                                                    Word("\"78\""), Punct(","), Word("\"d\""), Punct(")")]);
  }

  // ---------------------------------------------------------------------------
  // An operator with no left operand
  // ---------------------------------------------------------------------------

  /** After one comparison, a second operator starts the next pass with no
      operand before it: no branch of the loop applies, so the loop does
      not advance. */
  lemma StuckAfterCompare(sub: seq<Tokens.Token>)
    requires |sub| == 5 && sub[0].ttype == Tokens.Str && sub[1].ttype == Tokens.Compare
    requires sub[2].ttype == Tokens.Str && sub[3].ttype == Tokens.Compare
    ensures Parse(sub, true) == Failed(Stuck)
  {
    StepCompare(sub, true, 0);
    CompareAtHeadIsStuck(sub, true, 3);
  }

  /** An unmatched `(` at the end of the input: the nested parse stops at
      the end, yet the consumed count still adds 2 for the parenthesis and
      its missing `)`, so it exceeds the number of tokens. */
  lemma UnmatchedParenOvershoots(paren: string)
    requires paren == "("
    ensures Parse([Punct(paren)], false) == Parsed([Node(Sub, "(", [])], 2)
    ensures Parse([Punct(paren)], false).count > |[Punct(paren)]|
  {
    var ts := [Punct(paren)];
    assert ts[1..] == [];
    assert ClsFromDict(ts[0], []) == Parsed([], 1);
    assert WithSubStatements(Sub, ts[0], [], false) == Parsed([Node(Sub, "(", [])], 0);
    assert StepAt(ts, false, 0) == Next([Node(Sub, "(", [])], 2);
    assert ParseAt(ts, false, 2) == Parsed([], 2);
  }

  /** The shape of `test_parse_can_handle_unknown_combinations`: the
      operands of FROM hold a comparison followed by a second operator, and
      the parse fails as `Stuck` (the source never leaves its loop). */
  lemma UnknownCombinationStuck(ts: seq<Tokens.Token>)
    requires |ts| == 8 && ts[0].ttype == Tokens.Select && ts[1].ttype == Tokens.Str
    requires ts[2].ttype == Tokens.From && ts[3].ttype == Tokens.Str && ts[4].ttype == Tokens.Compare
    requires ts[5].ttype == Tokens.Str && ts[6].ttype == Tokens.Compare && ts[7].ttype == Tokens.Str
    ensures ParseTree(ts) == Error(Stuck)
  {
    IdentifierBeforeClause(ts[1..]);
    StepClause(ts, false, 0, Select);
    assert StepAt(ts, false, 0).Next? && StepAt(ts, false, 0).next == 2;
    StuckAfterCompare(ts[3..]);
    StepClause(ts, false, 2, From);
    assert ParseAt(ts, false, 2) == Failed(Stuck);
    assert ParseAt(ts, false, 0) == Failed(Stuck);
  }

  /** `test_parse_can_handle_unknown_combinations` expects `parse` to return
      on these tokens; as written, the loop over the operands of FROM stops
      advancing at `>`. */
  lemma UnknownCombinationsTest(ts: seq<Tokens.Token>)
    requires ts == [Tokens.Token(Tokens.Select, "SELECT"), Word("*"), Tokens.Token(Tokens.From, "FROM"), Word("MY_TABLE"),
                    Tokens.Token(Tokens.Compare, "<"), Word("xyz"), Tokens.Token(Tokens.Compare, ">"), Word(";")]
    ensures ParseTree(ts) == Error(Stuck)
  {
    UnknownCombinationStuck(ts);
  }
}
