/** Whole statements of the styler fixtures, as the text `style` renders. */
module StylerFixtures {
  import opened Common
  import opened Parser
  import opened Styler
  import opened StylerFacts
  import opened StylerCases
  import ParserCases

  // ---------------------------------------------------------------------------
  // From depth rows to text
  // ---------------------------------------------------------------------------

  /** Each row as its line: four spaces per level, then the string. */
  function Indented(rows: seq<(nat, string)>): (r: seq<string>)
    ensures |r| == |rows|
    ensures forall k :: 0 <= k < |rows| ==> r[k] == Spaces(4 * rows[k].0) + rows[k].1
  {
    seq(|rows|, k requires 0 <= k < |rows| => Spaces(4 * rows[k].0) + rows[k].1)
  }

  lemma {:induction false} RenderLines(rows: seq<(nat, string)>)
    ensures Render(rows) == Lines(Indented(rows))
  {
    if rows != [] {
      RenderLines(rows[1..]);
      var first := Spaces(4 * rows[0].0) + rows[0].1;
      assert Indented(rows)[1..] == Indented(rows[1..]);
      assert Render(rows) == first + "\n" + Render(rows[1..]);
    }
  }

  /** `style` renders every string of the styled lines on a line of its own,
      indented by four spaces per level of nesting. */
  lemma StyleTextRows(ns: seq<Node>, lines: seq<Line>)
    requires Style(ns) == Some(lines)
    ensures StyleText(ns) == Some(Lines(Indented(Rows(lines, 0))))
  {
    FlattenRows(lines, 0);
    RenderLines(Rows(lines, 0));
  }

  lemma RowsText(s: string, rest: seq<Line>, depth: nat)
    ensures Rows([Text(s)] + rest, depth) == [(depth, s)] + Rows(rest, depth)
  {
    assert ([Text(s)] + rest)[1..] == rest;
  }

  lemma RowsBlock(inner: seq<Line>, rest: seq<Line>, depth: nat)
    ensures Rows([Block(inner)] + rest, depth) == Rows(inner, depth + 1) + Rows(rest, depth)
  {
    assert ([Block(inner)] + rest)[1..] == rest;
  }

  /** A keyword and the block of its operands. */
  lemma RowsClause(kw: string, inner: seq<Line>, rest: seq<Line>)
    ensures Rows([Text(kw), Block(inner)] + rest, 0) == [(0, kw)] + Rows(inner, 1) + Rows(rest, 0)
  {
    assert [Text(kw), Block(inner)] + rest == [Text(kw)] + ([Block(inner)] + rest);
    RowsText(kw, [Block(inner)] + rest, 0);
    RowsBlock(inner, rest, 0);
  }

  lemma TwoTextRows(x: string, y: string, depth: nat)
    ensures Rows([Text(x), Text(y)], depth) == [(depth, x), (depth, y)]
  {
    RowsText(y, [], depth);
    assert [Text(y)] + [] == [Text(y)];
    RowsText(x, [Text(y)], depth);
    assert [Text(x)] + [Text(y)] == [Text(x), Text(y)];
  }

  lemma IndentSpaces()
    ensures Spaces(0) == "" && Spaces(4) == "    " && Spaces(8) == "        "
    ensures Spaces(12) == "            "
  {
  }

  // ---------------------------------------------------------------------------
  // select_with_join_and_nested_filters
  // ---------------------------------------------------------------------------

  /** The WHERE block: the parenthesis' contents one level deeper. */
  lemma NestedFiltersRows(c1: string, l: string, c2: string, l2: string, c3: string)
    ensures Rows([Text(c1), Text(l + " ("), Block([Text(c2), Text(l2 + " " + c3 + ")")])], 1)
      == [(1, c1), (1, l + " ("), (2, c2), (2, l2 + " " + c3 + ")")]
  {
    var inner := [Text(c2), Text(l2 + " " + c3 + ")")];
    TwoTextRows(c2, l2 + " " + c3 + ")", 2);
    RowsBlock(inner, [], 1);
    assert [Block(inner)] + [] == [Block(inner)];
    RowsText(l + " (", [Block(inner)], 1);
    assert [Text(l + " (")] + [Block(inner)] == [Text(l + " ("), Block(inner)];
    RowsText(c1, [Text(l + " ("), Block(inner)], 1);
    assert [Text(c1)] + [Text(l + " ("), Block(inner)] == [Text(c1), Text(l + " ("), Block(inner)];
  }

  lemma NestedFiltersIndented(a: string, t: string, c1: string, l: string, c2: string, m: string)
    ensures Indented([(0, "SELECT"), (1, a), (0, "FROM"), (1, t), (0, "WHERE"), (1, c1), (1, l), (2, c2), (2, m)])
      == ["SELECT", "    " + a, "FROM", "    " + t, "WHERE", "    " + c1, "    " + l, "        " + c2, "        " + m]
  {
    var rows := [(0, "SELECT"), (1, a), (0, "FROM"), (1, t), (0, "WHERE"), (1, c1), (1, l), (2, c2), (2, m)];
    var r := Indented(rows);
    IndentSpaces();
    assert "" + "SELECT" == "SELECT" && "" + "FROM" == "FROM" && "" + "WHERE" == "WHERE";
    assert r[0] == "SELECT" && r[2] == "FROM" && r[4] == "WHERE";
    assert r[1] == "    " + a && r[3] == "    " + t && r[5] == "    " + c1 && r[6] == "    " + l;
    assert r[7] == "        " + c2 && r[8] == "        " + m;
  }

  /** `select_with_join_and_nested_filters`: the link and `(` on the line
      after the first condition, the conditions in parentheses four spaces
      further in, `)` after the last. */
  lemma SelectWithJoinAndNestedFiltersText(a: string, t: string, c1: string, l: string, c2: string, l2: string, c3: string)
    ensures StyleText([Node(Select, "SELECT", [ParserCases.Ident(a)]), Node(From, "FROM", [ParserCases.Ident(t)]),
                       Node(Where, "WHERE", [Node(Compare, c1, []), Node(Link, l, []),
                         Node(Sub, "(", [Node(Compare, c2, []), Node(Link, l2, []), Node(Compare, c3, [])])])])
      == Some(Lines(["SELECT", "    " + a, "FROM", "    " + t, "WHERE", "    " + c1, "    " + l + " (",
                     "        " + c2, "        " + l2 + " " + c3 + ")"]))
  {
    var w := [Text(c1), Text(l + " ("), Block([Text(c2), Text(l2 + " " + c3 + ")")])];
    var ns := [Node(Select, "SELECT", [ParserCases.Ident(a)]), Node(From, "FROM", [ParserCases.Ident(t)]),
               Node(Where, "WHERE", [Node(Compare, c1, []), Node(Link, l, []),
                 Node(Sub, "(", [Node(Compare, c2, []), Node(Link, l2, []), Node(Compare, c3, [])])])];
    var lines := [Text("SELECT"), Block([Text(a)]), Text("FROM"), Block([Text(t)]), Text("WHERE"), Block(w)];
    IdentifierLine(a);
    IdentifierLine(t);
    NestedFiltersLines(c1, l, c2, l2, c3);
    ThreeClauses(ns[0], ns[1], ns[2], [Text(a)], [Text(t)], w);
    StyleTextRows(ns, lines);
    ThreeClauseRows("SELECT", [Text(a)], "FROM", [Text(t)], "WHERE", w);
    OperandRows(a);
    OperandRows(t);
    NestedFiltersRows(c1, l, c2, l2, c3);
    assert Rows(lines, 0) == [(0, "SELECT"), (1, a), (0, "FROM"), (1, t), (0, "WHERE"),
                              (1, c1), (1, l + " ("), (2, c2), (2, l2 + " " + c3 + ")")];
    NestedFiltersIndented(a, t, c1, l + " (", c2, l2 + " " + c3 + ")");
    assert "    " + (l + " (") == "    " + l + " (";
    assert "        " + (l2 + " " + c3 + ")") == "        " + l2 + " " + c3 + ")";
  }

  // ---------------------------------------------------------------------------
  // join_with_nested_on
  // ---------------------------------------------------------------------------

  lemma TwoClauses(n1: Node, n2: Node, l1: seq<Line>, l2: seq<Line>)
    requires IsClause(n1.kind) && n1.children != [] && Style(n1.children) == Some(l1)
    requires IsClause(n2.kind) && n2.children != [] && Style(n2.children) == Some(l2)
    ensures Style([n1, n2]) == Some([Text(n1.value), Block(l1), Text(n2.value), Block(l2)])
  {
    var cs := [n1, n2];
    var ls := [l1, l2];
    assert ClausesStyled(cs, ls);
    ClausesStyle(cs, ls);
    assert cs[1..][1..] == [] && ls[1..][1..] == [];
    assert ClauseLines(cs[1..], ls[1..]) == [Text(n2.value), Block(l2)] + [];
    assert ClauseLines(cs, ls) == [Text(n1.value), Block(l1)] + ClauseLines(cs[1..], ls[1..]);
    assert ClauseLines(cs, ls) == [Text(n1.value), Block(l1), Text(n2.value), Block(l2)];
  }

  lemma {:induction false} RowsAppend(a: seq<Line>, b: seq<Line>, depth: nat)
    ensures Rows(a + b, depth) == Rows(a, depth) + Rows(b, depth)
    decreases a
  {
    if a != [] {
      assert (a + b)[0] == a[0];
      assert (a + b)[1..] == a[1..] + b;
      RowsAppend(a[1..], b, depth);
    } else {
      assert a + b == b;
    }
  }

  /** One clause: the keyword at the left margin, its block one level in. */
  lemma ClauseRows(k: string, b: seq<Line>)
    ensures Rows([Text(k), Block(b)], 0) == [(0, k)] + Rows(b, 1)
  {
    RowsClause(k, b, []);
    assert [Text(k), Block(b)] + [] == [Text(k), Block(b)];
    assert [(0, k)] + Rows(b, 1) + [] == [(0, k)] + Rows(b, 1);
  }

  /** Two clauses, each as [ClauseRows] has it. */
  lemma TwoClauseRows(k1: string, b1: seq<Line>, k2: string, b2: seq<Line>)
    ensures Rows([Text(k1), Block(b1), Text(k2), Block(b2)], 0)
      == ([(0, k1)] + Rows(b1, 1)) + ([(0, k2)] + Rows(b2, 1))
  {
    var p1 := [Text(k1), Block(b1)];
    var p2 := [Text(k2), Block(b2)];
    assert p1 + p2 == [Text(k1), Block(b1), Text(k2), Block(b2)];
    RowsAppend(p1, p2, 0);
    ClauseRows(k1, b1);
    ClauseRows(k2, b2);
  }

  /** Three clauses, likewise. */
  lemma ThreeClauseRows(k1: string, b1: seq<Line>, k2: string, b2: seq<Line>, k3: string, b3: seq<Line>)
    ensures Rows([Text(k1), Block(b1), Text(k2), Block(b2), Text(k3), Block(b3)], 0)
      == ([(0, k1)] + Rows(b1, 1)) + (([(0, k2)] + Rows(b2, 1)) + ([(0, k3)] + Rows(b3, 1)))
  {
    var p1 := [Text(k1), Block(b1)];
    var rest := [Text(k2), Block(b2), Text(k3), Block(b3)];
    assert p1 + rest == [Text(k1), Block(b1), Text(k2), Block(b2), Text(k3), Block(b3)];
    RowsAppend(p1, rest, 0);
    ClauseRows(k1, b1);
    TwoClauseRows(k2, b2, k3, b3);
  }

  /** A single operand one level in. */
  lemma OperandRows(x: string)
    ensures Rows([Text(x)], 1) == [(1, x)]
  {
    RowsText(x, [], 1);
    assert [Text(x)] + [] == [Text(x)];
  }

  /** The FROM block: the `ON (` line one level in, the parenthesis'
      contents two levels below it. */
  lemma NestedOnRows(t1: string, x: string, on: string, c1: string, y: string)
    ensures Rows([Text(t1), Text(x), Text(on), Block([Block([Text(c1), Text(y)])])], 1)
      == [(1, t1), (1, x), (1, on), (3, c1), (3, y)]
  {
    var pair := [Text(c1), Text(y)];
    TwoTextRows(c1, y, 3);
    RowsBlock(pair, [], 2);
    assert [Block(pair)] + [] == [Block(pair)];
    RowsBlock([Block(pair)], [], 1);
    assert [Block([Block(pair)])] + [] == [Block([Block(pair)])];
    RowsText(on, [Block([Block(pair)])], 1);
    assert [Text(on)] + [Block([Block(pair)])] == [Text(on), Block([Block(pair)])];
    RowsText(x, [Text(on), Block([Block(pair)])], 1);
    assert [Text(x)] + [Text(on), Block([Block(pair)])] == [Text(x), Text(on), Block([Block(pair)])];
    RowsText(t1, [Text(x), Text(on), Block([Block(pair)])], 1);
    assert [Text(t1)] + [Text(x), Text(on), Block([Block(pair)])] == [Text(t1), Text(x), Text(on), Block([Block(pair)])];
  }

  lemma NestedOnIndented(a: string, t1: string, x: string, c1: string, y: string)
    ensures Indented([(0, "SELECT"), (1, a), (0, "FROM"), (1, t1), (1, x), (1, OnIndent + "ON ("), (3, c1), (3, y)])
      == ["SELECT", "    " + a, "FROM", "    " + t1, "    " + x, "        ON (", "            " + c1, "            " + y]
  {
    var rows := [(0, "SELECT"), (1, a), (0, "FROM"), (1, t1), (1, x), (1, OnIndent + "ON ("), (3, c1), (3, y)];
    var r := Indented(rows);
    IndentSpaces();
    assert "" + "SELECT" == "SELECT" && "" + "FROM" == "FROM";
    assert r[0] == "SELECT" && r[2] == "FROM";
    assert r[1] == "    " + a && r[3] == "    " + t1 && r[4] == "    " + x;
    assert r[5] == "        ON (";
    assert r[6] == "            " + c1 && r[7] == "            " + y;
  }

  /** `join_with_nested_on`: `ON (` eight spaces deep, the joined
      conditions twelve, `)` after the last of them. */
  lemma JoinWithNestedOnText(a: string, t1: string, j: string, t2: string, c1: string, l: string, c2: string)
    ensures StyleText([Node(Select, "SELECT", [ParserCases.Ident(a)]),
                       Node(From, "FROM", [ParserCases.Ident(t1), Node(Join, j, []), ParserCases.Ident(t2), Node(Key, "ON", []),
                         Node(Sub, "(", [Node(Compare, c1, []), Node(Link, l, []), Node(Compare, c2, [])])])])
      == Some(Lines(["SELECT", "    " + a, "FROM", "    " + t1, "    " + j + " " + t2, "        ON (",
                     "            " + c1, "            " + l + " " + c2 + ")"]))
  {
    var f := [Text(t1), Text(j + " " + t2), Text(OnIndent + "ON ("), Block([Block([Text(c1), Text(l + " " + c2 + ")")])])];
    var ns := [Node(Select, "SELECT", [ParserCases.Ident(a)]),
               Node(From, "FROM", [ParserCases.Ident(t1), Node(Join, j, []), ParserCases.Ident(t2), Node(Key, "ON", []),
                 Node(Sub, "(", [Node(Compare, c1, []), Node(Link, l, []), Node(Compare, c2, [])])])];
    var lines := [Text("SELECT"), Block([Text(a)]), Text("FROM"), Block(f)];
    IdentifierLine(a);
    JoinWithNestedOnLines(t1, j, t2, c1, l, c2);
    TwoClauses(ns[0], ns[1], [Text(a)], f);
    StyleTextRows(ns, lines);
    TwoClauseRows("SELECT", [Text(a)], "FROM", f);
    OperandRows(a);
    NestedOnRows(t1, j + " " + t2, OnIndent + "ON (", c1, l + " " + c2 + ")");
    assert Rows(lines, 0) == [(0, "SELECT"), (1, a), (0, "FROM"), (1, t1), (1, j + " " + t2),
                              (1, OnIndent + "ON ("), (3, c1), (3, l + " " + c2 + ")")];
    NestedOnIndented(a, t1, j + " " + t2, c1, l + " " + c2 + ")");
    assert "    " + (j + " " + t2) == "    " + j + " " + t2;
    assert "            " + (l + " " + c2 + ")") == "            " + l + " " + c2 + ")";
  }

  // ---------------------------------------------------------------------------
  // select_with_join_and_on
  // ---------------------------------------------------------------------------

  lemma ThreeTextRows(x: string, y: string, z: string, depth: nat)
    ensures Rows([Text(x), Text(y), Text(z)], depth) == [(depth, x), (depth, y), (depth, z)]
  {
    TwoTextRows(y, z, depth);
    RowsText(x, [Text(y), Text(z)], depth);
    assert [Text(x)] + [Text(y), Text(z)] == [Text(x), Text(y), Text(z)];
  }

  lemma JoinOnIndented(a: string, t1: string, x: string, c: string)
    ensures Indented([(0, "SELECT"), (1, a), (0, "FROM"), (1, t1), (1, x), (1, OnIndent + "ON " + c)])
      == ["SELECT", "    " + a, "FROM", "    " + t1, "    " + x, "        ON " + c]
  {
    var rows := [(0, "SELECT"), (1, a), (0, "FROM"), (1, t1), (1, x), (1, OnIndent + "ON " + c)];
    var r := Indented(rows);
    IndentSpaces();
    assert "" + "SELECT" == "SELECT" && "" + "FROM" == "FROM";
    assert r[0] == "SELECT" && r[2] == "FROM";
    assert r[1] == "    " + a && r[3] == "    " + t1 && r[4] == "    " + x;
    assert r[5] == "        ON " + c;
  }

  /** `select_with_join_and_on`: the joined table on the line after the
      first, `ON` and its condition four spaces further in. */
  lemma SelectWithJoinAndOnText(a: string, t1: string, j: string, t2: string, c: string)
    ensures StyleText([Node(Select, "SELECT", [ParserCases.Ident(a)]),
                       Node(From, "FROM", [ParserCases.Ident(t1), Node(Join, j, []), ParserCases.Ident(t2),
                         Node(Key, "ON", []), Node(Compare, c, [])])])
      == Some(Lines(["SELECT", "    " + a, "FROM", "    " + t1, "    " + j + " " + t2, "        ON " + c]))
  {
    var f := [Text(t1), Text(j + " " + t2), Text(OnIndent + "ON " + c)];
    var ns := [Node(Select, "SELECT", [ParserCases.Ident(a)]),
               Node(From, "FROM", [ParserCases.Ident(t1), Node(Join, j, []), ParserCases.Ident(t2),
                 Node(Key, "ON", []), Node(Compare, c, [])])];
    var lines := [Text("SELECT"), Block([Text(a)]), Text("FROM"), Block(f)];
    IdentifierLine(a);
    JoinOnLines(t1, j, t2, c);
    TwoClauses(ns[0], ns[1], [Text(a)], f);
    StyleTextRows(ns, lines);
    TwoClauseRows("SELECT", [Text(a)], "FROM", f);
    OperandRows(a);
    ThreeTextRows(t1, j + " " + t2, OnIndent + "ON " + c, 1);
    assert Rows(lines, 0) == [(0, "SELECT"), (1, a), (0, "FROM"), (1, t1), (1, j + " " + t2), (1, OnIndent + "ON " + c)];
    JoinOnIndented(a, t1, j + " " + t2, c);
    assert "    " + (j + " " + t2) == "    " + j + " " + t2;
  }

  // ---------------------------------------------------------------------------
  // select_with_filter_in_list
  // ---------------------------------------------------------------------------

  /** The WHERE block: the comparison opens the parenthesis, the listed
      values one level deeper. */
  lemma InListRows(x: string, p: string, q: string)
    ensures Rows([Text(x), Block([Text(p), Text(q)])], 1) == [(1, x), (2, p), (2, q)]
  {
    TwoTextRows(p, q, 2);
    RowsBlock([Text(p), Text(q)], [], 1);
    assert [Block([Text(p), Text(q)])] + [] == [Block([Text(p), Text(q)])];
    RowsText(x, [Block([Text(p), Text(q)])], 1);
    assert [Text(x)] + [Block([Text(p), Text(q)])] == [Text(x), Block([Text(p), Text(q)])];
  }

  lemma InListIndented(a: string, b: string, x: string, p: string, q: string)
    ensures Indented([(0, "SELECT"), (1, a), (0, "FROM"), (1, b), (0, "WHERE"), (1, x), (2, p), (2, q)])
      == ["SELECT", "    " + a, "FROM", "    " + b, "WHERE", "    " + x, "        " + p, "        " + q]
  {
    var rows := [(0, "SELECT"), (1, a), (0, "FROM"), (1, b), (0, "WHERE"), (1, x), (2, p), (2, q)];
    var r := Indented(rows);
    IndentSpaces();
    assert "" + "SELECT" == "SELECT" && "" + "FROM" == "FROM" && "" + "WHERE" == "WHERE";
    assert r[0] == "SELECT" && r[2] == "FROM" && r[4] == "WHERE";
    assert r[1] == "    " + a && r[3] == "    " + b && r[5] == "    " + x;
    assert r[6] == "        " + p && r[7] == "        " + q;
  }

  /** `select_with_filter_in_list`: each listed value on a line of its own,
      eight spaces deep, a comma after all but the last, `)` after the last. */
  lemma SelectWithFilterInListText(a: string, b: string, op: string, p: string, q: string)
    ensures StyleText([Node(Select, "SELECT", [ParserCases.Ident(a)]), Node(From, "FROM", [ParserCases.Ident(b)]),
                       Node(Where, "WHERE", [Node(Compare, op, [Node(Sub, "(", [ParserCases.Ident(p), Node(Comma, ",", []), ParserCases.Ident(q)])])])])
      == Some(Lines(["SELECT", "    " + a, "FROM", "    " + b, "WHERE", "    " + op + " (",
                     "        " + p + ",", "        " + q + ")"]))
  {
    var w := [Text(op + " ("), Block([Text(p + ","), Text(q + ")")])];
    var ns := [Node(Select, "SELECT", [ParserCases.Ident(a)]), Node(From, "FROM", [ParserCases.Ident(b)]),
               Node(Where, "WHERE", [Node(Compare, op, [Node(Sub, "(", [ParserCases.Ident(p), Node(Comma, ",", []), ParserCases.Ident(q)])])])];
    var lines := [Text("SELECT"), Block([Text(a)]), Text("FROM"), Block([Text(b)]), Text("WHERE"), Block(w)];
    SelectWithFilterInListLines(a, b, op, p, q);
    StyleTextRows(ns, lines);
    ThreeClauseRows("SELECT", [Text(a)], "FROM", [Text(b)], "WHERE", w);
    OperandRows(a);
    OperandRows(b);
    InListRows(op + " (", p + ",", q + ")");
    assert Rows(lines, 0) == [(0, "SELECT"), (1, a), (0, "FROM"), (1, b), (0, "WHERE"),
                              (1, op + " ("), (2, p + ","), (2, q + ")")];
    InListIndented(a, b, op + " (", p + ",", q + ")");
    assert "    " + (op + " (") == "    " + op + " (";
    assert "        " + (p + ",") == "        " + p + ",";
    assert "        " + (q + ")") == "        " + q + ")";
  }
}
