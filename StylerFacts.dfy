/** What the styler guarantees: how `_add_to_last_line` changes the list and
    its rendering, what `_has_type_chain` accepts, and how commas, links,
    joins, `ON` and parentheses are laid out. */
module StylerFacts {
  import opened Common
  import opened Parser
  import opened Styler

  // ---------------------------------------------------------------------------
  // _add_to_last_line
  // ---------------------------------------------------------------------------

  /** `_add_to_last_line` succeeds exactly when there is a deepest-rightmost
      string; it keeps the number of items and every item but the last, and
      that string becomes `prefix + old + value`. */
  lemma {:induction false} AddToLastShape(lines: seq<Line>, value: string, prefix: string)
    ensures AddedToLast(lines, value, prefix).Some? <==> LastText(lines).Some?
    ensures AddedToLast(lines, value, prefix).Some? ==>
      var r := AddedToLast(lines, value, prefix).value;
      |r| == |lines| && r[..|r| - 1] == lines[..|lines| - 1]
      && LastText(r) == Some(prefix + LastText(lines).value + value)
    decreases lines
  {
    if lines != [] {
      var front := lines[..|lines| - 1];
      match lines[|lines| - 1]
      case Text(s) =>
        var r := front + [Text(prefix + s + value)];
        assert r[..|r| - 1] == front;
      case Block(inner) =>
        AddToLastShape(inner, value, prefix);
        if AddedToLast(inner, value, prefix).Some? {
          var r := front + [Block(AddedToLast(inner, value, prefix).value)];
          assert r[..|r| - 1] == front;
        }
    }
  }

  /** The common case: the last item is a string. */
  lemma AddToTextLine(front: seq<Line>, t: string, value: string, prefix: string)
    ensures AddedToLast(front + [Text(t)], value, prefix) == Some(front + [Text(prefix + t + value)])
  {
    var lines := front + [Text(t)];
    assert lines[..|lines| - 1] == front;
  }

  /** When the last item is a list, the update happens inside it. */
  lemma AddToBlockLine(front: seq<Line>, inner: seq<Line>, inner': seq<Line>, value: string, prefix: string)
    requires AddedToLast(inner, value, prefix) == Some(inner')
    ensures AddedToLast(front + [Block(inner)], value, prefix) == Some(front + [Block(inner')])
  {
    var lines := front + [Block(inner)];
    assert lines[..|lines| - 1] == front;
  }

  /** The deepest-rightmost string of a list lies in its last item. */
  lemma LastTextSnoc(front: seq<Line>, last: Line)
    ensures LastText(front + [last]) == if last.Text? then Some(last.text) else LastText(last.lines)
  {
    var lines := front + [last];
    assert lines[|lines| - 1] == last;
  }

  // ---------------------------------------------------------------------------
  // _flatten
  // ---------------------------------------------------------------------------

  lemma {:induction false} FlattenAppend(a: seq<Line>, b: seq<Line>, indent: nat)
    ensures Flatten(a + b, indent) == Flatten(a, indent) + Flatten(b, indent)
    decreases a
  {
    if a == [] {
      assert a + b == b;
    } else {
      assert (a + b)[0] == a[0];
      assert (a + b)[1..] == a[1..] + b;
      FlattenAppend(a[1..], b, indent);
    }
  }

  lemma FlattenOne(line: Line, indent: nat)
    ensures line.Text? ==> Flatten([line], indent) == Spaces(indent) + line.text + "\n"
    ensures line.Block? ==> Flatten([line], indent) == Flatten(line.lines, indent + 4)
  {
    assert [line][1..] == [];
  }

  /** The rendered text ends with the deepest-rightmost string and a newline;
      `_add_to_last_line` rewrites just that end, putting the prefix after the
      indentation and the value before the newline. */
  lemma FlattenAddedToLast(lines: seq<Line>, value: string, prefix: string, indent: nat)
    requires LastText(lines).Some?
    ensures AddedToLast(lines, value, prefix).Some?
    ensures var t := LastText(lines).value;
      var f := Flatten(lines, indent);
      |f| >= |t| + 1 && f == f[..|f| - |t| - 1] + t + "\n"
      && Flatten(AddedToLast(lines, value, prefix).value, indent) == f[..|f| - |t| - 1] + prefix + t + value + "\n"
  {
    var pre := LastLineSplit(lines, value, prefix, indent);
    TailSplit(pre, LastText(lines).value);
  }

  /** The text before the last string, shared by both renderings. */
  lemma {:induction false} LastLineSplit(lines: seq<Line>, value: string, prefix: string, indent: nat) returns (pre: string)
    requires LastText(lines).Some?
    ensures AddedToLast(lines, value, prefix).Some?
    ensures Flatten(lines, indent) == pre + LastText(lines).value + "\n"
    ensures Flatten(AddedToLast(lines, value, prefix).value, indent) == pre + prefix + LastText(lines).value + value + "\n"
    decreases lines
  {
    var front := lines[..|lines| - 1];
    var last := lines[|lines| - 1];
    assert lines == front + [last];
    LastTextSnoc(front, last);
    match last {
      case Text(s) =>
        pre := TextSplit(front, s, value, prefix, indent);
      case Block(inner) =>
        var innerPre := LastLineSplit(inner, value, prefix, indent + 4);
        var t := LastText(inner).value;
        pre := BlockSplit(front, inner, AddedToLast(inner, value, prefix).value, innerPre, t, value, prefix, indent);
    }
  }

  lemma TextSplit(front: seq<Line>, s: string, value: string, prefix: string, indent: nat) returns (pre: string)
    ensures AddedToLast(front + [Text(s)], value, prefix) == Some(front + [Text(prefix + s + value)])
    ensures Flatten(front + [Text(s)], indent) == pre + s + "\n"
    ensures Flatten(front + [Text(prefix + s + value)], indent) == pre + prefix + s + value + "\n"
  {
    AddToTextLine(front, s, value, prefix);
    pre := Flatten(front, indent) + Spaces(indent);
    SnocText(front, s, indent);
    SnocText(front, prefix + s + value, indent);
  }

  /** A string appended at the end is rendered after everything before it. */
  lemma SnocText(front: seq<Line>, s: string, indent: nat)
    ensures Flatten(front + [Text(s)], indent) == (Flatten(front, indent) + Spaces(indent)) + s + "\n"
  {
    FlattenAppend(front, [Text(s)], indent);
    FlattenOne(Text(s), indent);
  }

  /** A block appended at the end is rendered after everything before it. */
  lemma SnocBlock(front: seq<Line>, inner: seq<Line>, indent: nat)
    ensures Flatten(front + [Block(inner)], indent) == Flatten(front, indent) + Flatten(inner, indent + 4)
  {
    FlattenAppend(front, [Block(inner)], indent);
    FlattenOne(Block(inner), indent);
  }

  lemma BlockSplit(front: seq<Line>, inner: seq<Line>, inner': seq<Line>, innerPre: string, t: string,
                   value: string, prefix: string, indent: nat)
    returns (pre: string)
    requires AddedToLast(inner, value, prefix) == Some(inner')
    requires Flatten(inner, indent + 4) == innerPre + t + "\n"
    requires Flatten(inner', indent + 4) == innerPre + prefix + t + value + "\n"
    ensures AddedToLast(front + [Block(inner)], value, prefix) == Some(front + [Block(inner')])
    ensures Flatten(front + [Block(inner)], indent) == pre + t + "\n"
    ensures Flatten(front + [Block(inner')], indent) == pre + prefix + t + value + "\n"
  {
    AddToBlockLine(front, inner, inner', value, prefix);
    var f := Flatten(front, indent);
    pre := f + innerPre;
    SnocBlock(front, inner, indent);
    AppendAssoc(f, innerPre + t, "\n");
    AppendAssoc(f, innerPre, t);
    SnocBlock(front, inner', indent);
    AppendAssoc(f, innerPre + prefix + t + value, "\n");
    AppendAssoc(f, innerPre + prefix + t, value);
    AppendAssoc(f, innerPre + prefix, t);
    AppendAssoc(f, innerPre, prefix);
  }

  lemma TailSplit(pre: string, t: string)
    ensures var f := pre + t + "\n"; |f| >= |t| + 1 && f[..|f| - |t| - 1] == pre
  {
    var f := pre + t + "\n";
    assert f[..|pre|] == pre;
  }

  /** The depth and text of every string, in order. */
  function Rows(lines: seq<Line>, depth: nat): seq<(nat, string)>
    decreases lines
  {
    if lines == [] then []
    else
      (match lines[0]
       case Text(s) => [(depth, s)]
       case Block(inner) => Rows(inner, depth + 1))
      + Rows(lines[1..], depth)
  }

  /** Each row on a line of its own after four spaces per level. */
  function Render(rows: seq<(nat, string)>): string
  {
    if rows == [] then "" else Spaces(4 * rows[0].0) + rows[0].1 + "\n" + Render(rows[1..])
  }

  lemma {:induction false} RenderAppend(a: seq<(nat, string)>, b: seq<(nat, string)>)
    ensures Render(a + b) == Render(a) + Render(b)
  {
    if a == [] {
      assert a + b == b;
    } else {
      assert (a + b)[1..] == a[1..] + b;
      RenderAppend(a[1..], b);
    }
  }

  /** `_flatten` puts each string, in order, on a line of its own after
      4·d spaces, d being how deeply it is nested. */
  lemma {:induction false} FlattenRows(lines: seq<Line>, depth: nat)
    ensures Flatten(lines, 4 * depth) == Render(Rows(lines, depth))
    decreases lines
  {
    if lines != [] {
      FlattenRows(lines[1..], depth);
      match lines[0]
      case Text(s) =>
        RenderAppend([(depth, s)], Rows(lines[1..], depth));
      case Block(inner) =>
        FlattenRows(inner, depth + 1);
        RenderAppend(Rows(inner, depth + 1), Rows(lines[1..], depth));
    }
  }

  // ---------------------------------------------------------------------------
  // _has_type_chain
  // ---------------------------------------------------------------------------

  /** `_has_type_chain(s, [Compare, Sub])` holds exactly for a Compare whose
      first child is a Sub, and raises when that Compare or that Sub has no
      children to step to. */
  lemma CompareSubChain(n: Node)
    ensures TypeChain(n, [Compare, Sub]) == Some(true) <==>
      n.kind == Compare && n.children != [] && n.children[0].kind == Sub && n.children[0].children != []
    ensures TypeChain(n, [Compare, Sub]).None? <==>
      n.kind == Compare && (n.children == [] || (n.children[0].kind == Sub && n.children[0].children == []))
  {
    assert [Compare, Sub][1..] == [Sub];
    assert [Sub][1..] == [];
  }

  // ---------------------------------------------------------------------------
  // _style, one statement at a time
  // ---------------------------------------------------------------------------

  /** The loop of `_style` over `a + b` is the loop over `a`, then over `b`. */
  lemma {:induction false} StyleRunAppend(a: seq<Node>, b: seq<Node>, s: StyleState)
    ensures StyleRun(a + b, s) ==
      (match StyleRun(a, s)
       case None => None
       case Some(s') => StyleRun(b, s'))
    decreases a
  {
    if a == [] {
      assert a + b == b;
    } else {
      assert (a + b)[0] == a[0];
      assert (a + b)[1..] == a[1..] + b;
      match StyleOne(a[0], s)
      case None =>
      case Some(s1) => StyleRunAppend(a[1..], b, s1);
    }
  }

  /** With nothing to join to, a statement without children starts a line of
      its own after the `ON` indentation; a JOIN ends that indentation. */
  lemma NewLine(st: Node, s: StyleState)
    requires st.children == [] && st.kind != Sub && st.kind != Comma
    requires !HasType(s.last, {Link, Join, Key})
    requires !(st.kind == Identifier && HasType(s.last, {Sub}))
    ensures var p := if st.kind == Join then "" else s.onPrefix;
      StyleOne(st, s) == Some(StyleState(s.lines + [Text(p + st.value)], Some(st), p))
  {
  }

  /** After a link (AND, OR) or a join, and for an identifier after a
      parenthesis, the statement goes onto the end of the last line after one
      space; with no line to go onto the source raises. */
  lemma JoinedToLast(st: Node, s: StyleState)
    requires st.children == [] && st.kind != Sub
    requires HasType(s.last, {Link, Join}) || (st.kind == Identifier && HasType(s.last, {Sub}))
    ensures StyleOne(st, s).Some? <==> LastText(s.lines).Some?
    ensures StyleOne(st, s).Some? ==>
      var r := StyleOne(st, s).value;
      |r.lines| == |s.lines| && r.lines[..|r.lines| - 1] == s.lines[..|s.lines| - 1]
      && LastText(r.lines) == Some(LastText(s.lines).value + " " + st.value)
      && r.onPrefix == (if st.kind == Join then "" else s.onPrefix)
  {
    AddToLastShape(s.lines, " " + st.value, "");
    if LastText(s.lines).Some? {
      var t := LastText(s.lines).value;
      assert "" + t + (" " + st.value) == t + " " + st.value;
    }
  }

  /** After a keyword the statement goes onto the keyword's line after one
      space; after `ON` that line and the lines that follow are indented by
      four spaces. */
  lemma AfterKey(st: Node, s: StyleState)
    requires st.children == [] && st.kind != Sub
    requires HasType(s.last, {Key})
    ensures StyleOne(st, s).Some? <==> LastText(s.lines).Some?
    ensures StyleOne(st, s).Some? ==>
      var p := if AfterOn(s.last) then OnIndent else if st.kind == Join then "" else s.onPrefix;
      var r := StyleOne(st, s).value;
      |r.lines| == |s.lines| && r.lines[..|r.lines| - 1] == s.lines[..|s.lines| - 1]
      && LastText(r.lines) == Some(p + LastText(s.lines).value + " " + st.value)
      && r.onPrefix == p
  {
    var p := if AfterOn(s.last) then OnIndent else if st.kind == Join then "" else s.onPrefix;
    AddToLastShape(s.lines, " " + st.value, p);
    if LastText(s.lines).Some? {
      var t := LastText(s.lines).value;
      assert p + t + (" " + st.value) == p + t + " " + st.value;
    }
  }

  /** A comma ends the last line; a leading comma has no line to end. */
  lemma CommaEndsLine(st: Node, s: StyleState)
    requires st.kind == Comma && st.children == []
    requires !HasType(s.last, {Link, Join, Key})
    ensures StyleOne(st, s).Some? <==> LastText(s.lines).Some?
    ensures StyleOne(st, s).Some? ==>
      var r := StyleOne(st, s).value;
      |r.lines| == |s.lines| && r.lines[..|r.lines| - 1] == s.lines[..|s.lines| - 1]
      && LastText(r.lines) == Some(LastText(s.lines).value + ",")
      && r.onPrefix == s.onPrefix
  {
    AddToLastShape(s.lines, ",", "");
    if LastText(s.lines).Some? {
      var t := LastText(s.lines).value;
      assert "" + t + "," == t + ",";
    }
  }

  /** A statement with children is followed by its children's lines, one
      level deeper, two levels after `ON`. */
  lemma ChildrenBlock(st: Node, s: StyleState, sub: seq<Line>)
    requires st.kind != Sub && st.kind != Compare && st.kind != Comma
    requires !HasType(s.last, {Link, Join, Key})
    requires !(st.kind == Identifier && HasType(s.last, {Sub}))
    requires st.children != [] && Style(st.children) == Some(sub)
    ensures var p := if st.kind == Join then "" else s.onPrefix;
      StyleOne(st, s) == Some(StyleState(s.lines + [Text(p + st.value), Block(sub)], Some(st), p))
  {
    var p := if st.kind == Join then "" else s.onPrefix;
    var lines := s.lines + [Text(p + st.value)];
    assert Placed(st, s) == Some((lines, p));
    NestedAfterOn(st, s.last, lines, sub);
    assert lines + [Block(sub)] == s.lines + [Text(p + st.value), Block(sub)];
  }

  /** After `ON` the children's lines are wrapped one level deeper. */
  lemma NestedAfterOn(st: Node, last: Option<Node>, lines: seq<Line>, sub: seq<Line>)
    requires st.kind != Compare
    requires st.children != [] && Style(st.children) == Some(sub)
    ensures AfterOn(last) ==> Nested(st, last, lines) == Some(lines + [Block([Block(sub)])])
    ensures !AfterOn(last) ==> Nested(st, last, lines) == Some(lines + [Block(sub)])
  {
    CompareSubChain(st);
  }

  /** A failure anywhere among the children fails the whole statement. */
  lemma ChildrenFail(st: Node, s: StyleState)
    requires st.children != [] && Style(st.children).None?
    ensures StyleOne(st, s).None?
  {
  }

  /** A parenthesis starts a line of its own, its contents follow one level
      deeper, and the closing parenthesis goes onto the end of their last
      line. */
  lemma SubBlock(st: Node, s: StyleState, sub: seq<Line>)
    requires st.kind == Sub && st.children != [] && Style(st.children) == Some(sub)
    requires LastText(sub).Some?
    requires !HasType(s.last, {Link, Join, Key})
    ensures AddedToLast(sub, ")", "").Some?
    ensures var b := AddedToLast(sub, ")", "").value;
      |b| == |sub| && b[..|b| - 1] == sub[..|sub| - 1] && LastText(b) == Some(LastText(sub).value + ")")
    ensures StyleOne(st, s).Some?
    ensures var r := StyleOne(st, s).value.lines;
      |r| == |s.lines| + 2 && r[..|s.lines|] == s.lines && r[|s.lines|] == Text(s.onPrefix + st.value)
      && r[|s.lines| + 1] == Block(AddedToLast(sub, ")", "").value)
  {
    AddToLastShape(sub, ")", "");
    assert "" + LastText(sub).value + ")" == LastText(sub).value + ")";
    var closed := AddedToLast(sub, ")", "").value;
    SubStep(st.value, st.children, s, sub, closed);
    var r := s.lines + [Text(s.onPrefix + st.value), Block(closed)];
    assert r[..|s.lines|] == s.lines;
  }

  /** The step for a parenthesis: `(` on a new line, then the block of its
      contents with `)` after the last string. */
  lemma SubStep(v: string, children: seq<Node>, s: StyleState, sub: seq<Line>, closed: seq<Line>)
    requires children != [] && Style(children) == Some(sub)
    requires AddedToLast(sub, ")", "") == Some(closed)
    requires !HasType(s.last, {Link, Join, Key})
    ensures StyleOne(Node(Sub, v, children), s)
      == Some(StyleState(s.lines + [Text(s.onPrefix + v), Block(closed)], Some(Node(Sub, v, children)), s.onPrefix))
  {
    var st := Node(Sub, v, children);
    var head := s.lines + [Text(s.onPrefix + v)];
    assert Placed(st, s) == Some((head, s.onPrefix));
    NestedAfterOn(st, s.last, head, sub);
    CloseLast(head, sub, closed);
    assert head + [Block(closed)] == s.lines + [Text(s.onPrefix + v), Block(closed)];
  }

  lemma CloseLast(head: seq<Line>, sub: seq<Line>, closed: seq<Line>)
    requires AddedToLast(sub, ")", "") == Some(closed)
    ensures AddedToLast(head + [Block(sub)], ")", "") == Some(head + [Block(closed)])
  {
    var lines := head + [Block(sub)];
    assert lines[..|lines| - 1] == head;
  }

  /** A comparison whose only operand is a parenthesis (`x IN (...)`) takes
      the `(` onto its own line; the contents follow one level deeper, closed
      by `)`. */
  lemma CompareOverSub(op: string, sb: Node, s: StyleState, inner: seq<Line>)
    requires sb.kind == Sub && sb.children != []
    requires Style(sb.children) == Some(inner) && LastText(inner).Some?
    requires !HasType(s.last, {Link, Join, Key})
    ensures AddedToLast(inner, ")", "").Some?
    ensures StyleOne(Node(Compare, op, [sb]), s) == Some(StyleState(
      s.lines + [Text(s.onPrefix + op + " " + sb.value), Block(AddedToLast(inner, ")", "").value)],
      Some(Node(Compare, op, [sb])), s.onPrefix))
  {
    var cmp := Node(Compare, op, [sb]);
    SubAlone(sb, inner);
    var closed := AddedToLast(inner, ")", "").value;
    assert Style(cmp.children) == Some([Text(sb.value), Block(closed)]);
    CompareSubChain(cmp);
    var head := s.lines + [Text(s.onPrefix + cmp.value)];
    assert Placed(cmp, s) == Some((head, s.onPrefix));
    var joined := s.lines + [Text(s.onPrefix + cmp.value + " " + sb.value)];
    assert head[..|head| - 1] == s.lines;
    assert "" + (s.onPrefix + cmp.value) + (" " + sb.value) == s.onPrefix + cmp.value + " " + sb.value;
    assert AddedToLast(head, " " + sb.value, "") == Some(joined);
    assert Nested(cmp, s.last, head) == Some(joined + [Block(closed)]);
    assert joined + [Block(closed)] == s.lines + [Text(s.onPrefix + op + " " + sb.value), Block(closed)];
  }

  /** A comparison whose first operand is a parenthesis keeps only the first
      two lines its operands style to: the first joins the operator's line,
      the second follows it, and every later line `more` is dropped. */
  lemma CompareOverSubDropsRest(op: string, sv: string, subChildren: seq<Node>, rest: seq<Node>,
                                s: StyleState, h: string, item: Line, more: seq<Line>)
    requires subChildren != []
    requires Style([Node(Sub, sv, subChildren)] + rest) == Some([Text(h), item] + more)
    requires !HasType(s.last, {Link, Join, Key})
    ensures StyleOne(Node(Compare, op, [Node(Sub, sv, subChildren)] + rest), s) == Some(StyleState(
      s.lines + [Text(s.onPrefix + op + " " + h), item],
      Some(Node(Compare, op, [Node(Sub, sv, subChildren)] + rest)), s.onPrefix))
  {
    var cmp := Node(Compare, op, [Node(Sub, sv, subChildren)] + rest);
    var sub := [Text(h), item] + more;
    assert cmp.children[0] == Node(Sub, sv, subChildren);
    CompareSubChain(cmp);
    var head := s.lines + [Text(s.onPrefix + op)];
    assert Placed(cmp, s) == Some((head, s.onPrefix));
    assert sub[0] == Text(h) && sub[1] == item;
    var joined := s.lines + [Text(s.onPrefix + op + " " + h)];
    AddToTextLine(s.lines, s.onPrefix + op, " " + h, "");
    assert "" + (s.onPrefix + op) + (" " + h) == s.onPrefix + op + " " + h;
    assert AddedToLast(head, " " + h, "") == Some(joined);
    assert Nested(cmp, s.last, head) == Some(joined + [item]);
    assert joined + [item] == s.lines + [Text(s.onPrefix + op + " " + h), item];
  }

  /** A parenthesis styled on its own: `(` on a line, the contents one level
      deeper, closed by `)`. */
  lemma SubAlone(sb: Node, inner: seq<Line>)
    requires sb.kind == Sub && sb.children != []
    requires Style(sb.children) == Some(inner) && LastText(inner).Some?
    ensures AddedToLast(inner, ")", "").Some?
    ensures Style([sb]) == Some([Text(sb.value), Block(AddedToLast(inner, ")", "").value)])
  {
    SubBlock(sb, Start, inner);
    var closed := AddedToLast(inner, ")", "").value;
    var s1 := StyleOne(sb, Start).value;
    assert Start.onPrefix + sb.value == sb.value;
    assert s1.lines == [Text(sb.value), Block(closed)];
    assert [sb][1..] == [];
    assert StyleRun([sb], Start) == Some(s1);
  }

  // ---------------------------------------------------------------------------
  // A comma-separated list
  // ---------------------------------------------------------------------------

  /** The statements the parser makes of `x1, x2, ..., xn`. */
  function CommaList(xs: seq<string>): (ns: seq<Node>)
    requires |xs| > 0
    ensures |ns| == 2 * |xs| - 1
  {
    if |xs| == 1 then [Node(Identifier, xs[0], [])]
    else CommaList(xs[..|xs| - 1]) + [Node(Comma, ",", []), Node(Identifier, xs[|xs| - 1], [])]
  }

  /** One line per item, every line but the last ending in a comma. */
  function CommaLines(xs: seq<string>): (lines: seq<Line>)
    ensures |lines| == |xs|
  {
    seq(|xs|, k requires 0 <= k < |xs| => Text(if k < |xs| - 1 then xs[k] + "," else xs[k]))
  }

  /** `_style` puts each item of a comma-separated list on a line of its own
      and the comma at the end of the line before. */
  lemma {:induction false} CommaColumns(xs: seq<string>)
    requires |xs| > 0
    ensures StyleRun(CommaList(xs), Start) ==
      Some(StyleState(CommaLines(xs), Some(Node(Identifier, xs[|xs| - 1], [])), ""))
    ensures Style(CommaList(xs)) == Some(CommaLines(xs))
    decreases |xs|
  {
    if |xs| == 1 {
      OneColumn(xs[0]);
      assert CommaLines(xs) == CommaLines([xs[0]]);
    } else {
      var ys := xs[..|xs| - 1];
      CommaColumns(ys);
      StyleRunAppend(CommaList(ys), [Node(Comma, ",", []), Node(Identifier, xs[|xs| - 1], [])], Start);
      NextColumn(ys, xs[|xs| - 1]);
      assert ys + [xs[|xs| - 1]] == xs;
    }
  }

  lemma OneColumn(x: string)
    ensures StyleRun([Node(Identifier, x, [])], Start) ==
      Some(StyleState(CommaLines([x]), Some(Node(Identifier, x, [])), ""))
  {
    var item := Node(Identifier, x, []);
    NewLine(item, Start);
    assert Start.lines == [] && Start.onPrefix == "";
    assert "" + x == x;
    assert [] + [Text(x)] == [Text(x)];
    var s1 := StyleState([Text(x)], Some(item), "");
    assert StyleOne(item, Start) == Some(s1);
    assert [item][1..] == [];
    assert StyleRun([item], Start) == StyleRun([], s1);
    assert CommaLines([x]) == [Text(x)];
  }

  lemma NextColumn(ys: seq<string>, x: string)
    requires |ys| > 0
    ensures StyleRun([Node(Comma, ",", []), Node(Identifier, x, [])],
                     StyleState(CommaLines(ys), Some(Node(Identifier, ys[|ys| - 1], [])), "")) ==
      Some(StyleState(CommaLines(ys + [x]), Some(Node(Identifier, x, [])), ""))
  {
    var m := |ys|;
    var item := Node(Identifier, x, []);
    var comma := Node(Comma, ",", []);
    var s1 := StyleState(CommaLines(ys), Some(Node(Identifier, ys[m - 1], [])), "");
    var front := CommaLines(ys)[..m - 1];
    CommaLinesSnoc(ys, x);
    var lines2 := front + [Text(ys[m - 1] + ",")];
    AddToTextLine(front, ys[m - 1], ",", "");
    assert "" + ys[m - 1] + "," == ys[m - 1] + ",";
    var s2 := StyleState(lines2, Some(comma), "");
    assert StyleOne(comma, s1) == Some(s2);
    NewLine(item, s2);
    assert "" + x == x;
    var s3 := StyleState(lines2 + [Text(x)], Some(item), "");
    assert StyleOne(item, s2) == Some(s3);
    assert [comma, item][1..] == [item];
    assert [item][1..] == [];
    assert StyleRun([item], s2) == Some(s3);
    AppendAssoc(front, [Text(ys[m - 1] + ",")], [Text(x)]);
    assert [Text(ys[m - 1] + ",")] + [Text(x)] == [Text(ys[m - 1] + ","), Text(x)];
  }

  /** A further item adds a line and a comma to the line before. */
  lemma CommaLinesSnoc(ys: seq<string>, x: string)
    requires |ys| > 0
    ensures CommaLines(ys) == CommaLines(ys)[..|ys| - 1] + [Text(ys[|ys| - 1])]
    ensures CommaLines(ys + [x]) == CommaLines(ys)[..|ys| - 1] + [Text(ys[|ys| - 1] + ","), Text(x)]
  {
    var m := |ys|;
    var front := CommaLines(ys)[..m - 1];
    assert CommaLines(ys) == front + [Text(ys[m - 1])];
    var r := CommaLines(ys + [x]);
    assert forall k | 0 <= k < m - 1 :: r[k] == front[k];
    assert r == front + [Text(ys[m - 1] + ","), Text(x)];
  }

  // ---------------------------------------------------------------------------
  // A list of clauses
  // ---------------------------------------------------------------------------

  predicate IsClause(kind: Kind)
  {
    kind in {Select, From, Group, Having, Limit, Order, Where}
  }

  /** Each clause's keyword on a line of its own, its operands' lines in a
      block after it. */
  function ClauseLines(cs: seq<Node>, ls: seq<seq<Line>>): (lines: seq<Line>)
    requires |cs| == |ls|
    ensures |lines| == 2 * |cs|
  {
    if cs == [] then [] else [Text(cs[0].value), Block(ls[0])] + ClauseLines(cs[1..], ls[1..])
  }

  /** Every clause has operands, and `ls` holds their lines. */
  predicate ClausesStyled(cs: seq<Node>, ls: seq<seq<Line>>)
  {
    |cs| == |ls| && forall k :: 0 <= k < |cs| ==>
      IsClause(cs[k].kind) && cs[k].children != [] && Style(cs[k].children) == Some(ls[k])
  }

  lemma ClauseStep(st: Node, s: StyleState, sub: seq<Line>)
    requires IsClause(st.kind) && st.children != [] && Style(st.children) == Some(sub)
    requires s.last.Some? ==> IsClause(s.last.value.kind)
    ensures StyleOne(st, s) == Some(StyleState(s.lines + [Text(s.onPrefix + st.value), Block(sub)], Some(st), s.onPrefix))
  {
    ChildrenBlock(st, s, sub);
  }

  lemma {:induction false} ClauseRun(cs: seq<Node>, ls: seq<seq<Line>>, pre: seq<Line>, last: Option<Node>)
    requires ClausesStyled(cs, ls)
    requires last.Some? ==> IsClause(last.value.kind)
    ensures StyleRun(cs, StyleState(pre, last, "")).Some?
    ensures StyleRun(cs, StyleState(pre, last, "")).value.lines == pre + ClauseLines(cs, ls)
    decreases cs
  {
    if cs == [] {
      assert pre + [] == pre;
    } else {
      var s := StyleState(pre, last, "");
      ClauseStep(cs[0], s, ls[0]);
      var pre' := pre + [Text("" + cs[0].value), Block(ls[0])];
      assert ClausesStyled(cs[1..], ls[1..]) by {
        forall k | 0 <= k < |cs| - 1
          ensures IsClause(cs[1..][k].kind) && cs[1..][k].children != [] && Style(cs[1..][k].children) == Some(ls[1..][k])
        {
          assert cs[1..][k] == cs[k + 1] && ls[1..][k] == ls[k + 1];
        }
      }
      ClauseRun(cs[1..], ls[1..], pre', Some(cs[0]));
      assert "" + cs[0].value == cs[0].value;
      AppendAssoc(pre, [Text(cs[0].value), Block(ls[0])], ClauseLines(cs[1..], ls[1..]));
    }
  }

  /** A list of clauses styles as each keyword on a line of its own with its
      operands' lines one level deeper. */
  lemma ClausesStyle(cs: seq<Node>, ls: seq<seq<Line>>)
    requires ClausesStyled(cs, ls)
    ensures Style(cs) == Some(ClauseLines(cs, ls))
  {
    ClauseRun(cs, ls, [], None);
    assert [] + ClauseLines(cs, ls) == ClauseLines(cs, ls);
  }

  /** Their text: each keyword on a line of its own, then its operands' text
      indented by four more spaces. */
  lemma {:induction false} FlattenClauses(cs: seq<Node>, ls: seq<seq<Line>>)
    requires |cs| == |ls|
    ensures Flatten(ClauseLines(cs, ls), 0) == ClauseText(cs, ls)
    decreases cs
  {
    if cs != [] {
      ClauseHeadText(cs[0].value, ls[0], ClauseLines(cs[1..], ls[1..]));
      FlattenClauses(cs[1..], ls[1..]);
    }
  }

  /** A keyword at the left margin, then its block four spaces in, then the rest. */
  lemma ClauseHeadText(k: string, b: seq<Line>, rest: seq<Line>)
    ensures Flatten([Text(k), Block(b)] + rest, 0) == k + "\n" + Flatten(b, 4) + Flatten(rest, 0)
  {
    var head := [Text(k), Block(b)];
    FlattenAppend(head, rest, 0);
    KeywordBlockText(k, b);
  }

  lemma KeywordBlockText(k: string, b: seq<Line>)
    ensures Flatten([Text(k), Block(b)], 0) == k + "\n" + Flatten(b, 4)
  {
    assert [Text(k), Block(b)] == [Text(k)] + [Block(b)];
    SnocBlock([Text(k)], b, 0);
    KeywordText(k);
  }

  lemma KeywordText(k: string)
    ensures Flatten([Text(k)], 0) == k + "\n"
  {
    FlattenOne(Text(k), 0);
    assert Spaces(0) == [];
  }

  function ClauseText(cs: seq<Node>, ls: seq<seq<Line>>): string
    requires |cs| == |ls|
  {
    if cs == [] then "" else cs[0].value + "\n" + Flatten(ls[0], 4) + ClauseText(cs[1..], ls[1..])
  }
}
