/** The styler on the statement trees of the repository's test fixtures, and
    the whole pipeline from SQL text to formatted text on one of them. */
module StylerCases {
  import opened Common
  import opened Parser
  import opened Styler
  import opened StylerFacts
  import Tokenizer
  import TokenizerCases
  import ParserCases

  /** The loop of `_style` through given states, one statement at a time. */
  lemma {:induction false} RunSteps(ns: seq<Node>, ss: seq<StyleState>)
    requires |ss| == |ns| + 1
    requires forall k :: 0 <= k < |ns| ==> StyleOne(ns[k], ss[k]) == Some(ss[k + 1])
    ensures StyleRun(ns, ss[0]) == Some(ss[|ns|])
    decreases ns
  {
    if ns != [] {
      assert StyleOne(ns[0], ss[0]) == Some(ss[1]);
      assert forall k :: 0 <= k < |ns| - 1 ==> ns[1..][k] == ns[k + 1] && ss[1..][k] == ss[k + 1];
      RunSteps(ns[1..], ss[1..]);
    }
  }

  /** The loop through one, two and three given steps. */
  lemma RunOne(a: Node, s0: StyleState, s1: StyleState)
    requires StyleOne(a, s0) == Some(s1)
    ensures StyleRun([a], s0) == Some(s1)
  {
    assert [a][1..] == [];
  }

  lemma RunTwo(a: Node, b: Node, s0: StyleState, s1: StyleState, s2: StyleState)
    requires StyleOne(a, s0) == Some(s1) && StyleOne(b, s1) == Some(s2)
    ensures StyleRun([a, b], s0) == Some(s2)
  {
    assert [a, b][1..] == [b];
    RunOne(b, s1, s2);
  }

  lemma RunThree(a: Node, b: Node, c: Node, s0: StyleState, s1: StyleState, s2: StyleState, s3: StyleState)
    requires StyleOne(a, s0) == Some(s1) && StyleOne(b, s1) == Some(s2) && StyleOne(c, s2) == Some(s3)
    ensures StyleRun([a, b, c], s0) == Some(s3)
  {
    assert [a, b, c][1..] == [b, c];
    RunTwo(b, c, s1, s2, s3);
  }

  /** One identifier is one line. */
  lemma IdentifierLine(x: string)
    ensures Style([ParserCases.Ident(x)]) == Some([Text(x)])
  {
    CommaColumns([x]);
    assert CommaList([x]) == [ParserCases.Ident(x)];
    assert CommaLines([x]) == [Text(x)];
  }

  /** `'\n'.join(rows + [''])`, the form the fixtures give the expected
      text in: every row followed by a newline. */
  function Lines(rows: seq<string>): string
  {
    if rows == [] then "" else rows[0] + "\n" + Lines(rows[1..])
  }

  /** A keyword line followed by a block of one line. */
  lemma FlattenClause(kw: string, x: string, rest: seq<Line>, rows: seq<string>)
    requires Flatten(rest, 0) == Lines(rows)
    ensures Flatten([Text(kw), Block([Text(x)])] + rest, 0) == Lines([kw, "    " + x] + rows)
  {
    assert [Text(kw), Block([Text(x)])] + rest == [Text(kw)] + ([Block([Text(x)])] + rest);
    FlattenAppend([Text(kw)], [Block([Text(x)])] + rest, 0);
    FlattenAppend([Block([Text(x)])], rest, 0);
    assert Spaces(0) == "";
    assert Spaces(4) == "    ";
    FlattenOne(Text(kw), 0);
    FlattenOne(Block([Text(x)]), 0);
    FlattenOne(Text(x), 4);
    assert Flatten([Block([Text(x)])] + rest, 0) == "    " + x + "\n" + Lines(rows);
    var rs := [kw, "    " + x] + rows;
    assert rs[1..] == ["    " + x] + rows;
    assert rs[1..][1..] == rows;
    assert Lines(rs[1..]) == "    " + x + "\n" + Lines(rows);
    assert Lines(rs) == kw + "\n" + Lines(rs[1..]);
    assert "" + kw + "\n" == kw + "\n";
  }

  /** Three keywords, each with one operand. */
  lemma FlattenThree(k1: string, x1: string, k2: string, x2: string, k3: string, x3: string)
    ensures Flatten([Text(k1), Block([Text(x1)]), Text(k2), Block([Text(x2)]), Text(k3), Block([Text(x3)])], 0)
      == Lines([k1, "    " + x1, k2, "    " + x2, k3, "    " + x3])
  {
    var l3 := [Text(k3), Block([Text(x3)])];
    var l2 := [Text(k2), Block([Text(x2)])] + l3;
    var l1 := [Text(k1), Block([Text(x1)])] + l2;
    var r3 := [k3, "    " + x3];
    var r2 := [k2, "    " + x2] + r3;
    FlattenClause(k3, x3, [], []);
    assert l3 + [] == l3 && r3 + [] == r3;
    FlattenClause(k2, x2, l3, r3);
    FlattenClause(k1, x1, l2, r2);
    assert l1 == [Text(k1), Block([Text(x1)]), Text(k2), Block([Text(x2)]), Text(k3), Block([Text(x3)])];
    assert [k1, "    " + x1] + r2 == [k1, "    " + x1, k2, "    " + x2, k3, "    " + x3];
  }

  /** Three clauses with operands. */
  lemma ThreeClauses(n1: Node, n2: Node, n3: Node, l1: seq<Line>, l2: seq<Line>, l3: seq<Line>)
    requires IsClause(n1.kind) && n1.children != [] && Style(n1.children) == Some(l1)
    requires IsClause(n2.kind) && n2.children != [] && Style(n2.children) == Some(l2)
    requires IsClause(n3.kind) && n3.children != [] && Style(n3.children) == Some(l3)
    ensures Style([n1, n2, n3]) == Some([Text(n1.value), Block(l1), Text(n2.value), Block(l2), Text(n3.value), Block(l3)])
  {
    var cs := [n1, n2, n3];
    var ls := [l1, l2, l3];
    assert ClausesStyled(cs, ls);
    ClausesStyle(cs, ls);
    assert cs[1..][1..][1..] == [] && ls[1..][1..][1..] == [];
    var c3 := ClauseLines(cs[1..][1..], ls[1..][1..]);
    assert c3 == [Text(n3.value), Block(l3)] + [];
    var c2 := ClauseLines(cs[1..], ls[1..]);
    assert c2 == [Text(n2.value), Block(l2)] + c3;
    assert ClauseLines(cs, ls) == [Text(n1.value), Block(l1)] + c2;
    assert ClauseLines(cs, ls) == [Text(n1.value), Block(l1), Text(n2.value), Block(l2), Text(n3.value), Block(l3)];
  }

  /** The lines of three clauses with one identifier each. */
  lemma ThreeClauseLines(k1: Kind, w1: string, x1: string, k2: Kind, w2: string, x2: string, k3: Kind, w3: string, x3: string)
    requires IsClause(k1) && IsClause(k2) && IsClause(k3)
    ensures Style([Node(k1, w1, [ParserCases.Ident(x1)]), Node(k2, w2, [ParserCases.Ident(x2)]), Node(k3, w3, [ParserCases.Ident(x3)])])
      == Some([Text(w1), Block([Text(x1)]), Text(w2), Block([Text(x2)]), Text(w3), Block([Text(x3)])])
  {
    IdentifierLine(x1);
    IdentifierLine(x2);
    IdentifierLine(x3);
    ThreeClauses(Node(k1, w1, [ParserCases.Ident(x1)]), Node(k2, w2, [ParserCases.Ident(x2)]),
                 Node(k3, w3, [ParserCases.Ident(x3)]), [Text(x1)], [Text(x2)], [Text(x3)]);
  }

  /** `select_with_limit`: `SELECT a FROM b LIMIT c`, one keyword per line,
      each operand below it indented by four spaces. */
  lemma SelectWithLimitStyle(a: string, b: string, c: string)
    ensures StyleText([Node(Select, "SELECT", [ParserCases.Ident(a)]), Node(From, "FROM", [ParserCases.Ident(b)]),
                       Node(Limit, "LIMIT", [ParserCases.Ident(c)])])
      == Some(Lines(["SELECT", "    " + a, "FROM", "    " + b, "LIMIT", "    " + c]))
  {
    ThreeClauseLines(Select, "SELECT", a, From, "FROM", b, Limit, "LIMIT", c);
    FlattenThree("SELECT", a, "FROM", b, "LIMIT", c);
  }

  /** `select_with_limit` from its SQL text to its formatted text. */
  lemma SelectWithLimitFormatted(sql: string)
    requires sql == "SELECT * FROM my_table LIMIT 65"
    ensures ParseTree(Tokenizer.Tokenize(sql)).Tree?
    ensures StyleText(ParseTree(Tokenizer.Tokenize(sql)).nodes)
      == Some(Lines(["SELECT", "    *", "FROM", "    my_table", "LIMIT", "    65"]))
  {
    ParserCases.SelectWithLimitStatements(sql);
    SelectWithLimitTree(ParseTree(Tokenizer.Tokenize(sql)), "*", "my_table", "65");
  }

  lemma SelectWithLimitTree(t: Tree, a: string, b: string, c: string)
    requires a == "*" && b == "my_table" && c == "65"
    requires t == Tree([Node(Select, "SELECT", [ParserCases.Ident(a)]), Node(From, "FROM", [ParserCases.Ident(b)]),
                        Node(Limit, "LIMIT", [ParserCases.Ident(c)])])
    ensures t.Tree? && StyleText(t.nodes) == Some(Lines(["SELECT", "    *", "FROM", "    my_table", "LIMIT", "    65"]))
  {
    SelectWithLimitStyle(a, b, c);
    assert "    " + a == "    *" && "    " + b == "    my_table" && "    " + c == "    65";
    assert ["SELECT", "    " + a, "FROM", "    " + b, "LIMIT", "    " + c]
      == ["SELECT", "    *", "FROM", "    my_table", "LIMIT", "    65"];
  }

  // ---------------------------------------------------------------------------
  // Fixtures at the level of `_style`'s nested lines
  // ---------------------------------------------------------------------------

  /** A single clause with operands. */
  lemma OneClause(c: Node, lines: seq<Line>)
    requires IsClause(c.kind) && c.children != [] && Style(c.children) == Some(lines)
    ensures Style([c]) == Some([Text(c.value), Block(lines)])
  {
    assert ClausesStyled([c], [lines]);
    ClausesStyle([c], [lines]);
    assert [c][1..] == [] && [lines][1..] == [];
    assert ClauseLines([c], [lines]) == [Text(c.value), Block(lines)] + [];
    assert [Text(c.value), Block(lines)] + [] == [Text(c.value), Block(lines)];
  }

  /** `select_with_multiple_columns`: one column per line, each but the last
      followed by a comma. */
  lemma MultipleColumnsLines(a: string, b: string, c: string)
    ensures Style([Node(Select, "SELECT", [ParserCases.Ident(a), Node(Comma, ",", []), ParserCases.Ident(b),
                                           Node(Comma, ",", []), ParserCases.Ident(c)])])
      == Some([Text("SELECT"), Block([Text(a + ","), Text(b + ","), Text(c)])])
  {
    var xs := [a, b, c];
    CommaColumns(xs);
    assert xs[..2] == [a, b] && [a, b][..1] == [a];
    assert CommaList([a]) == [ParserCases.Ident(a)];
    assert CommaList([a, b]) == [ParserCases.Ident(a)] + [Node(Comma, ",", []), ParserCases.Ident(b)];
    assert CommaList(xs) == CommaList([a, b]) + [Node(Comma, ",", []), ParserCases.Ident(c)];
    assert CommaList(xs) == [ParserCases.Ident(a), Node(Comma, ",", []), ParserCases.Ident(b),
                             Node(Comma, ",", []), ParserCases.Ident(c)];
    assert CommaLines(xs) == [Text(a + ","), Text(b + ","), Text(c)];
    OneClause(Node(Select, "SELECT", CommaList(xs)), CommaLines(xs));
  }

  /** Two items of a list, as the contents of a parenthesis: the first with
      its comma, then the second with `)` after it. */
  lemma PairInParens(p: string, q: string)
    ensures Style([ParserCases.Ident(p), Node(Comma, ",", []), ParserCases.Ident(q)]) == Some([Text(p + ","), Text(q)])
    ensures AddedToLast([Text(p + ","), Text(q)], ")", "") == Some([Text(p + ","), Text(q + ")")])
  {
    CommaColumns([p, q]);
    assert [p, q][..1] == [p];
    assert CommaList([p]) == [ParserCases.Ident(p)];
    assert CommaList([p, q]) == [ParserCases.Ident(p), Node(Comma, ",", []), ParserCases.Ident(q)];
    assert CommaLines([p, q]) == [Text(p + ","), Text(q)];
    CloseSecond(p + ",", q);
  }

  /** A comparison over a parenthesis, styled on its own. */
  lemma CompareOverSubAlone(op: string, v: string, children: seq<Node>, inner: seq<Line>, closed: seq<Line>)
    requires children != [] && Style(children) == Some(inner) && LastText(inner).Some?
    requires AddedToLast(inner, ")", "") == Some(closed)
    ensures Style([Node(Compare, op, [Node(Sub, v, children)])]) == Some([Text(op + " " + v), Block(closed)])
  {
    var sb := Node(Sub, v, children);
    var cmp := Node(Compare, op, [sb]);
    CompareOverSub(op, sb, Start, inner);
    var s1 := StyleState([Text(op + " " + v), Block(closed)], Some(cmp), "");
    assert Start.lines == [] && Start.onPrefix == "";
    assert "" + op + " " + v == op + " " + v;
    assert Start.lines + [Text(Start.onPrefix + op + " " + sb.value), Block(closed)] == s1.lines;
    assert StyleOne(cmp, Start) == Some(s1);
    RunOne(cmp, Start, s1);
  }

  /** `x IN (p, q)`: `x IN (` on one line, the list one level deeper, and
      `)` after its last item. */
  lemma InListLines(op: string, p: string, q: string)
    ensures Style([Node(Compare, op, [Node(Sub, "(", [ParserCases.Ident(p), Node(Comma, ",", []), ParserCases.Ident(q)])])])
      == Some([Text(op + " ("), Block([Text(p + ","), Text(q + ")")])])
  {
    PairInParens(p, q);
    assert LastText([Text(p + ","), Text(q)]).Some?;
    CompareOverSubAlone(op, "(", [ParserCases.Ident(p), Node(Comma, ",", []), ParserCases.Ident(q)],
      [Text(p + ","), Text(q)], [Text(p + ","), Text(q + ")")]);
    assert op + " " + "(" == op + " (";
  }

  /** `select_with_filter_in_list` */
  lemma SelectWithFilterInListLines(a: string, b: string, op: string, p: string, q: string)
    ensures Style([Node(Select, "SELECT", [ParserCases.Ident(a)]), Node(From, "FROM", [ParserCases.Ident(b)]),
                   Node(Where, "WHERE", [Node(Compare, op, [Node(Sub, "(", [ParserCases.Ident(p), Node(Comma, ",", []), ParserCases.Ident(q)])])])])
      == Some([Text("SELECT"), Block([Text(a)]), Text("FROM"), Block([Text(b)]),
               Text("WHERE"), Block([Text(op + " ("), Block([Text(p + ","), Text(q + ")")])])])
  {
    IdentifierLine(a);
    IdentifierLine(b);
    InListLines(op, p, q);
    ThreeClauses(Node(Select, "SELECT", [ParserCases.Ident(a)]), Node(From, "FROM", [ParserCases.Ident(b)]),
                 Node(Where, "WHERE", [Node(Compare, op, [Node(Sub, "(", [ParserCases.Ident(p), Node(Comma, ",", []), ParserCases.Ident(q)])])]),
                 [Text(a)], [Text(b)], [Text(op + " ("), Block([Text(p + ","), Text(q + ")")])]);
  }

  /** A statement after a link or a join, onto the end of the last line. */
  lemma LinkedStep(y: Node, s: StyleState, front: seq<Line>, t: string)
    requires y.children == [] && y.kind != Sub && y.kind != Join
    requires HasType(s.last, {Link, Join}) && s.lines == front + [Text(t)]
    ensures StyleOne(y, s) == Some(StyleState(front + [Text(t + " " + y.value)], Some(y), s.onPrefix))
  {
    AddToTextLine(front, t, " " + y.value, "");
    assert "" + t + (" " + y.value) == t + " " + y.value;
  }

  /** A statement after `ON`, onto the end of the `ON` line, which then
      starts with four spaces, as every line after it does. */
  lemma AfterOnStep(y: Node, s: StyleState, front: seq<Line>, t: string)
    requires y.children == [] && y.kind != Sub
    requires AfterOn(s.last) && s.lines == front + [Text(t)]
    ensures StyleOne(y, s) == Some(StyleState(front + [Text(OnIndent + t + " " + y.value)], Some(y), OnIndent))
  {
    AddToTextLine(front, t, " " + y.value, OnIndent);
    assert OnIndent + t + (" " + y.value) == OnIndent + t + " " + y.value;
  }

  /** A link or a join between two plain statements: the first on a line of
      its own, then the link with the second after it on the next line. */
  lemma LinkedPair(x: Node, link: Node, y: Node, s: StyleState)
    requires x.children == [] && link.children == [] && y.children == []
    requires x.kind in {Identifier, Compare} && y.kind in {Identifier, Compare} && link.kind in {Link, Join}
    requires s.onPrefix == "" && !HasType(s.last, {Link, Join, Key, Sub})
    ensures StyleRun([x, link, y], s)
      == Some(StyleState(s.lines + [Text(x.value), Text(link.value + " " + y.value)], Some(y), ""))
  {
    NewLine(x, s);
    var s1 := StyleState(s.lines + [Text(x.value)], Some(x), "");
    assert "" + x.value == x.value;
    NewLine(link, s1);
    var s2 := StyleState(s1.lines + [Text(link.value)], Some(link), "");
    assert "" + link.value == link.value;
    LinkedStep(y, s2, s1.lines, link.value);
    var s3 := StyleState(s1.lines + [Text(link.value + " " + y.value)], Some(y), "");
    assert s1.lines + [Text(link.value + " " + y.value)] == s.lines + [Text(x.value), Text(link.value + " " + y.value)];
    RunThree(x, link, y, s, s1, s2, s3);
  }

  /** `select_with_join`: the joined table after the join, on the line
      below the first table. */
  lemma SelectWithJoinLines(a: string, t1: string, j: string, t2: string)
    ensures Style([Node(Select, "SELECT", [ParserCases.Ident(a)]),
                   Node(From, "FROM", [ParserCases.Ident(t1), Node(Join, j, []), ParserCases.Ident(t2)])])
      == Some([Text("SELECT"), Block([Text(a)]), Text("FROM"), Block([Text(t1), Text(j + " " + t2)])])
  {
    var tables := [ParserCases.Ident(t1), Node(Join, j, []), ParserCases.Ident(t2)];
    LinkedPair(ParserCases.Ident(t1), Node(Join, j, []), ParserCases.Ident(t2), Start);
    assert Start.lines + [Text(t1), Text(j + " " + t2)] == [Text(t1), Text(j + " " + t2)];
    assert Style(tables) == Some([Text(t1), Text(j + " " + t2)]);
    IdentifierLine(a);
    var cs := [Node(Select, "SELECT", [ParserCases.Ident(a)]), Node(From, "FROM", tables)];
    var ls := [[Text(a)], [Text(t1), Text(j + " " + t2)]];
    assert ClausesStyled(cs, ls);
    ClausesStyle(cs, ls);
    assert cs[1..][1..] == [] && ls[1..][1..] == [];
    var c2 := ClauseLines(cs[1..], ls[1..]);
    assert c2 == [Text("FROM"), Block(ls[1])] + [];
    assert ClauseLines(cs, ls) == [Text("SELECT"), Block([Text(a)])] + c2;
    assert ClauseLines(cs, ls) == [Text("SELECT"), Block([Text(a)]), Text("FROM"), Block([Text(t1), Text(j + " " + t2)])];
  }

  /** `ON` on a line of its own, then the condition onto it; from then on
      lines are indented by four more spaces. */
  lemma OnCondition(front: seq<Line>, last: Option<Node>, c: string)
    requires !HasType(last, {Link, Join, Key})
    ensures StyleRun([Node(Key, "ON", []), Node(Compare, c, [])], StyleState(front, last, ""))
      == Some(StyleState(front + [Text(OnIndent + "ON " + c)], Some(Node(Compare, c, [])), OnIndent))
  {
    var on := Node(Key, "ON", []);
    var cmp := Node(Compare, c, []);
    var s3 := StyleState(front, last, "");
    NewLine(on, s3);
    var s4 := StyleState(front + [Text("ON")], Some(on), "");
    assert "" + "ON" == "ON";
    AfterOnStep(cmp, s4, front, "ON");
    var s5 := StyleState(front + [Text(OnIndent + "ON " + c)], Some(cmp), OnIndent);
    assert OnIndent + "ON" + " " + c == OnIndent + "ON " + c;
    RunTwo(on, cmp, s3, s4, s5);
  }

  /** The tables of `select_with_join_and_on`: after `ON` the condition goes
      onto the `ON` line, which is indented by four more spaces. */
  lemma JoinOnLines(t1: string, j: string, t2: string, c: string)
    ensures Style([ParserCases.Ident(t1), Node(Join, j, []), ParserCases.Ident(t2), Node(Key, "ON", []), Node(Compare, c, [])])
      == Some([Text(t1), Text(j + " " + t2), Text(OnIndent + "ON " + c)])
  {
    var pair := [ParserCases.Ident(t1), Node(Join, j, []), ParserCases.Ident(t2)];
    var cond := [Node(Key, "ON", []), Node(Compare, c, [])];
    LinkedPair(ParserCases.Ident(t1), Node(Join, j, []), ParserCases.Ident(t2), Start);
    var front := Start.lines + [Text(t1), Text(j + " " + t2)];
    OnCondition(front, Some(ParserCases.Ident(t2)), c);
    StyleRunAppend(pair, cond, Start);
    assert pair + cond == [ParserCases.Ident(t1), Node(Join, j, []), ParserCases.Ident(t2), Node(Key, "ON", []), Node(Compare, c, [])];
    assert front + [Text(OnIndent + "ON " + c)] == [Text(t1), Text(j + " " + t2), Text(OnIndent + "ON " + c)];
  }

  /** A parenthesis after `ON` goes onto the `ON` line; its contents follow
      two levels deeper, closed by `)`. */
  lemma SubAfterOn(v: string, children: seq<Node>, s: StyleState, front: seq<Line>, t: string, sub: seq<Line>, closed: seq<Line>)
    requires children != [] && Style(children) == Some(sub)
    requires AddedToLast(sub, ")", "") == Some(closed)
    requires AfterOn(s.last) && s.lines == front + [Text(t)]
    ensures StyleOne(Node(Sub, v, children), s)
      == Some(StyleState(front + [Text(OnIndent + t + " " + v), Block([Block(closed)])], Some(Node(Sub, v, children)), OnIndent))
  {
    var sb := Node(Sub, v, children);
    var head := front + [Text(OnIndent + t + " " + v)];
    AddToTextLine(front, t, " " + v, OnIndent);
    AppendAssoc(OnIndent + t, " ", v);
    assert Placed(sb, s) == Some((head, OnIndent));
    NestedAfterOn(sb, s.last, head, sub);
    CloseLast([], sub, closed);
    assert [] + [Block(sub)] == [Block(sub)] && [] + [Block(closed)] == [Block(closed)];
    CloseLast(head, [Block(sub)], [Block(closed)]);
    AppendAssoc(front, [Text(OnIndent + t + " " + v)], [Block([Block(closed)])]);
    assert [Text(OnIndent + t + " " + v)] + [Block([Block(closed)])] == [Text(OnIndent + t + " " + v), Block([Block(closed)])];
  }

  /** A parenthesis after a link goes onto the link's line; its contents
      follow one level deeper, closed by `)`. */
  lemma SubAfterLink(v: string, children: seq<Node>, s: StyleState, front: seq<Line>, t: string, sub: seq<Line>, closed: seq<Line>)
    requires children != [] && Style(children) == Some(sub)
    requires AddedToLast(sub, ")", "") == Some(closed)
    requires HasType(s.last, {Link, Join}) && s.lines == front + [Text(t)]
    ensures StyleOne(Node(Sub, v, children), s)
      == Some(StyleState(front + [Text(t + " " + v), Block(closed)], Some(Node(Sub, v, children)), s.onPrefix))
  {
    var sb := Node(Sub, v, children);
    var head := front + [Text(t + " " + v)];
    AddToTextLine(front, t, " " + v, "");
    assert "" + t == t;
    AppendAssoc(t, " ", v);
    assert Placed(sb, s) == Some((head, s.onPrefix));
    NestedAfterOn(sb, s.last, head, sub);
    CloseLast(head, sub, closed);
    AppendAssoc(front, [Text(t + " " + v)], [Block(closed)]);
    assert [Text(t + " " + v)] + [Block(closed)] == [Text(t + " " + v), Block(closed)];
  }

  /** Two comparisons joined by a link, inside a parenthesis. */
  lemma LinkedInParens(c1: string, l: string, c2: string)
    ensures Style([Node(Compare, c1, []), Node(Link, l, []), Node(Compare, c2, [])]) == Some([Text(c1), Text(l + " " + c2)])
  {
    LinkedPair(Node(Compare, c1, []), Node(Link, l, []), Node(Compare, c2, []), Start);
    assert Start.lines + [Text(c1), Text(l + " " + c2)] == [Text(c1), Text(l + " " + c2)];
  }

  /** `)` after the last of two lines. */
  lemma CloseSecond(x: string, y: string)
    ensures AddedToLast([Text(x), Text(y)], ")", "") == Some([Text(x), Text(y + ")")])
  {
    AddToTextLine([Text(x)], y, ")", "");
    assert [Text(x)] + [Text(y)] == [Text(x), Text(y)];
    assert "" + y + ")" == y + ")";
    assert [Text(x)] + [Text("" + y + ")")] == [Text(x), Text(y + ")")];
  }

  /** `ON` followed by a parenthesis: both on one line, indented by four
      spaces, the parenthesis' contents two levels deeper. */
  lemma OnSub(front: seq<Line>, last: Option<Node>, v: string, children: seq<Node>, sub: seq<Line>, closed: seq<Line>)
    requires !HasType(last, {Link, Join, Key})
    requires children != [] && Style(children) == Some(sub)
    requires AddedToLast(sub, ")", "") == Some(closed)
    ensures StyleRun([Node(Key, "ON", []), Node(Sub, v, children)], StyleState(front, last, ""))
      == Some(StyleState(front + [Text(OnIndent + "ON " + v), Block([Block(closed)])], Some(Node(Sub, v, children)), OnIndent))
  {
    var on := Node(Key, "ON", []);
    var s3 := StyleState(front, last, "");
    NewLine(on, s3);
    var s4 := StyleState(front + [Text("ON")], Some(on), "");
    assert "" + "ON" == "ON";
    SubAfterOn(v, children, s4, front, "ON", sub, closed);
    AppendAssoc(OnIndent, "ON", " ");
    assert "ON" + " " == "ON ";
    var s5 := StyleState(front + [Text(OnIndent + "ON " + v), Block([Block(closed)])], Some(Node(Sub, v, children)), OnIndent);
    assert StyleOne(Node(Sub, v, children), s4) == Some(s5);
    RunTwo(on, Node(Sub, v, children), s3, s4, s5);
  }

  /** The tables of `join_with_nested_on`: the parenthesis after `ON` opens
      on the `ON` line, its two conditions below it, `)` after the last. */
  lemma JoinWithNestedOnLines(t1: string, j: string, t2: string, c1: string, l: string, c2: string)
    ensures Style([ParserCases.Ident(t1), Node(Join, j, []), ParserCases.Ident(t2), Node(Key, "ON", []),
                   Node(Sub, "(", [Node(Compare, c1, []), Node(Link, l, []), Node(Compare, c2, [])])])
      == Some([Text(t1), Text(j + " " + t2), Text(OnIndent + "ON ("), Block([Block([Text(c1), Text(l + " " + c2 + ")")])])])
  {
    var pair := [ParserCases.Ident(t1), Node(Join, j, []), ParserCases.Ident(t2)];
    var inner := [Node(Compare, c1, []), Node(Link, l, []), Node(Compare, c2, [])];
    var cond := [Node(Key, "ON", []), Node(Sub, "(", inner)];
    LinkedPair(ParserCases.Ident(t1), Node(Join, j, []), ParserCases.Ident(t2), Start);
    var front := Start.lines + [Text(t1), Text(j + " " + t2)];
    LinkedInParens(c1, l, c2);
    CloseSecond(c1, l + " " + c2);
    var closed := [Text(c1), Text(l + " " + c2 + ")")];
    OnSub(front, Some(ParserCases.Ident(t2)), "(", inner, [Text(c1), Text(l + " " + c2)], closed);
    StyleRunAppend(pair, cond, Start);
    assert OnIndent + "ON " + "(" == OnIndent + "ON (";
    assert pair + cond == [ParserCases.Ident(t1), Node(Join, j, []), ParserCases.Ident(t2), Node(Key, "ON", []), Node(Sub, "(", inner)];
    assert front + [Text(OnIndent + "ON ("), Block([Block(closed)])]
      == [Text(t1), Text(j + " " + t2), Text(OnIndent + "ON ("), Block([Block(closed)])];
  }

  /** A condition, a link and a parenthesis: the condition on a line of its
      own, the link with `(` on the next, the contents one level deeper. */
  lemma LinkedSub(s: StyleState, c: string, l: string, v: string, children: seq<Node>, sub: seq<Line>, closed: seq<Line>)
    requires s.onPrefix == "" && !HasType(s.last, {Link, Join, Key, Sub})
    requires children != [] && Style(children) == Some(sub)
    requires AddedToLast(sub, ")", "") == Some(closed)
    ensures StyleRun([Node(Compare, c, []), Node(Link, l, []), Node(Sub, v, children)], s)
      == Some(StyleState(s.lines + [Text(c), Text(l + " " + v), Block(closed)], Some(Node(Sub, v, children)), ""))
  {
    var x := Node(Compare, c, []);
    var link := Node(Link, l, []);
    NewLine(x, s);
    var s1 := StyleState(s.lines + [Text(c)], Some(x), "");
    assert "" + c == c;
    NewLine(link, s1);
    var s2 := StyleState(s1.lines + [Text(l)], Some(link), "");
    assert "" + l == l;
    SubAfterLink(v, children, s2, s1.lines, l, sub, closed);
    var s3 := StyleState(s1.lines + [Text(l + " " + v), Block(closed)], Some(Node(Sub, v, children)), "");
    assert s3.lines == s.lines + [Text(c), Text(l + " " + v), Block(closed)];
    RunThree(x, link, Node(Sub, v, children), s, s1, s2, s3);
  }

  /** The filters of `select_with_join_and_nested_filters`: the link and the
      `(` on one line, the inner conditions one level deeper, `)` after the
      last. */
  lemma NestedFiltersLines(c1: string, l: string, c2: string, l2: string, c3: string)
    ensures Style([Node(Compare, c1, []), Node(Link, l, []),
                   Node(Sub, "(", [Node(Compare, c2, []), Node(Link, l2, []), Node(Compare, c3, [])])])
      == Some([Text(c1), Text(l + " ("), Block([Text(c2), Text(l2 + " " + c3 + ")")])])
  {
    var inner := [Node(Compare, c2, []), Node(Link, l2, []), Node(Compare, c3, [])];
    LinkedInParens(c2, l2, c3);
    CloseSecond(c2, l2 + " " + c3);
    var closed := [Text(c2), Text(l2 + " " + c3 + ")")];
    assert Start.lines == [] && Start.onPrefix == "" && Start.last == None;
    LinkedSub(Start, c1, l, "(", inner, [Text(c2), Text(l2 + " " + c3)], closed);
    assert l + " " + "(" == l + " (";
    assert Start.lines + [Text(c1), Text(l + " " + "("), Block(closed)] == [Text(c1), Text(l + " ("), Block(closed)];
  }
}
