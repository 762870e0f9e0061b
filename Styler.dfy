/** The styler: lays the statement tree out as nested lines, one level of
    nesting per indentation step, and renders them as text. */
module Styler {
  import opened Common
  import opened Parser

  /** An item of the styler's result list: a string, or a list one level
      deeper. */
  datatype Line = Text(text: string) | Block(lines: seq<Line>)

  /** The loop state of `_style`: the result list, `last_statement` and
      `on_prefix`. */
  datatype StyleState = StyleState(lines: seq<Line>, last: Option<Node>, onPrefix: string)

  /** The prefix that lines after an `ON` get. */
  const OnIndent: string := "    "

  /** `' ' * n` */
  function Spaces(n: nat): (s: string)
    ensures |s| == n && forall k :: 0 <= k < n ==> s[k] == ' '
  {
    seq(n, _ => ' ')
  }

  // ---------------------------------------------------------------------------
  // The result list
  // ---------------------------------------------------------------------------

  /** `_add_to_last_line`: the deepest-rightmost string becomes
      `prefix + old + value`; an empty list on the way is an `IndexError`
      (`None`). */
  function AddedToLast(lines: seq<Line>, value: string, prefix: string): Option<seq<Line>>
    decreases lines
  {
    if lines == [] then None
    else
      var front := lines[..|lines| - 1];
      match lines[|lines| - 1]
      case Text(s) => Some(front + [Text(prefix + s + value)])
      case Block(inner) =>
        match AddedToLast(inner, value, prefix)
        case None => None
        case Some(inner') => Some(front + [Block(inner')])
  }

  /** The deepest-rightmost string of a result list, if every list on the way
      to it is non-empty. */
  function LastText(lines: seq<Line>): Option<string>
    decreases lines
  {
    if lines == [] then None
    else
      match lines[|lines| - 1]
      case Text(s) => Some(s)
      case Block(inner) => LastText(inner)
  }

  /** The result list as a class whose list the methods update in place. */
  class LineBuffer {
    var lines: seq<Line>

    constructor (initial: seq<Line>)
      ensures lines == initial
    {
      lines := initial;
    }

    /** `result.append(line)` */
    method Append(line: Line)
      modifies this
      ensures lines == old(lines) + [line]
    {
      lines := lines + [line];
    }

    /** `_add_to_last_line(result, value, prefix)`: pops the last item; a
        string comes back as `prefix + last + value`, a list is updated the
        same way and comes back. `false` where the source raises `IndexError`,
        and then the list is left as it was. */
    method AddToLastLine(value: string, prefix: string) returns (ok: bool)
      modifies this
      ensures ok == AddedToLast(old(lines), value, prefix).Some?
      ensures lines == if ok then AddedToLast(old(lines), value, prefix).value else old(lines)
      decreases lines
    {
      if lines == [] {
        return false;
      }
      var front, last := lines[..|lines| - 1], lines[|lines| - 1];
      match last {
        case Text(s) =>
          lines := front + [Text(prefix + s + value)];
          ok := true;
        case Block(inner) =>
          var nested := new LineBuffer(inner);
          ok := nested.AddToLastLine(value, prefix);
          if ok {
            lines := front + [Block(nested.lines)];
          }
      }
    }
  }

  // ---------------------------------------------------------------------------
  // Type tests
  // ---------------------------------------------------------------------------

  /** `_has_type`: the statement is present and of one of the kinds. */
  predicate HasType(s: Option<Node>, kinds: set<Kind>)
  {
    s.Some? && s.value.kind in kinds
  }

  /** `_has_type_chain`: the statement has the first kind, its first child
      the second, and so on; every statement checked must have a first child
      to step to, else `IndexError` (`None`). */
  function TypeChain(n: Node, kinds: seq<Kind>): Option<bool>
    decreases kinds
  {
    if kinds == [] then Some(true)
    else if n.kind != kinds[0] then Some(false)
    else if n.children == [] then None
    else TypeChain(n.children[0], kinds[1..])
  }

  /** `last_statement` is the keyword `ON`. */
  predicate AfterOn(last: Option<Node>)
  {
    HasType(last, {Key}) && last.value.value == "ON"
  }

  // ---------------------------------------------------------------------------
  // _style and _style_statements as specification functions
  // ---------------------------------------------------------------------------

  function WithPrefix(r: Option<seq<Line>>, onPrefix: string): Option<(seq<Line>, string)>
  {
    match r
    case None => None
    case Some(lines) => Some((lines, onPrefix))
  }

  /** The first half of the loop body of `_style`: where the statement's own
      value goes, and the `on_prefix` after it. */
  function Placed(st: Node, s: StyleState): Option<(seq<Line>, string)>
  {
    var onPrefix := if s.onPrefix != "" && st.kind == Join then "" else s.onPrefix;
    if st.kind == Identifier && HasType(s.last, {Sub}) then
      WithPrefix(AddedToLast(s.lines, " " + st.value, ""), onPrefix)
    else if HasType(s.last, {Link, Join}) then
      WithPrefix(AddedToLast(s.lines, " " + st.value, ""), onPrefix)
    else if HasType(s.last, {Key}) then
      var onPrefix' := if s.last.value.value == "ON" then OnIndent else onPrefix;
      WithPrefix(AddedToLast(s.lines, " " + st.value, onPrefix'), onPrefix')
    else if st.kind == Comma then
      WithPrefix(AddedToLast(s.lines, ",", ""), onPrefix)
    else
      Some((s.lines + [Text(onPrefix + st.value)], onPrefix))
  }

  /** `_style_statements`: the statement's children, styled, as one item
      after `lines`. For a Compare over a Sub the Sub's `(` is joined onto
      the last line and only the item after it is kept; after `ON` the item
      is wrapped one level deeper. */
  function Nested(st: Node, last: Option<Node>, lines: seq<Line>): Option<seq<Line>>
    decreases st.children, 3
  {
    if st.children == [] then Some(lines)
    else
      match Style(st.children)
      case None => None
      case Some(sub) =>
        match TypeChain(st, [Compare, Sub])
        case None => None
        case Some(chain) =>
          var joined: Option<(seq<Line>, Line)> :=
            if !chain then Some((lines, Block(sub)))
            else if sub == [] || sub[0].Block? then None
            else
              match AddedToLast(lines, " " + sub[0].text, "")
              case None => None
              case Some(lines') => if |sub| < 2 then None else Some((lines', sub[1]));
          match joined
          case None => None
          case Some((lines', item)) =>
            Some(lines' + [if AfterOn(last) then Block([item]) else item])
  }

  /** One pass of the loop of `_style`. */
  function StyleOne(st: Node, s: StyleState): Option<StyleState>
    decreases st.children, 4
  {
    match Placed(st, s)
    case None => None
    case Some((lines, onPrefix)) =>
      match Nested(st, s.last, lines)
      case None => None
      case Some(lines') =>
        var closed := if st.kind == Sub then AddedToLast(lines', ")", "") else Some(lines');
        match closed
        case None => None
        case Some(lines'') => Some(StyleState(lines'', Some(st), onPrefix))
  }

  /** The loop of `_style` over the statements still to come. */
  function StyleRun(ns: seq<Node>, s: StyleState): Option<StyleState>
    decreases ns, 1
  {
    if ns == [] then Some(s)
    else
      match StyleOne(ns[0], s)
      case None => None
      case Some(s') => StyleRun(ns[1..], s')
  }

  const Start: StyleState := StyleState([], None, "")

  /** `_style`: the nested lines of a list of statements; `None` where the
      source raises `IndexError` or `TypeError`. */
  function Style(ns: seq<Node>): Option<seq<Line>>
    decreases ns, 2
  {
    match StyleRun(ns, Start)
    case None => None
    case Some(s) => Some(s.lines)
  }

  /** `_flatten`: every string on a line of its own, after four spaces per
      level of nesting. */
  function Flatten(lines: seq<Line>, indent: nat): string
    decreases lines
  {
    if lines == [] then ""
    else
      (match lines[0]
       case Text(s) => Spaces(indent) + s + "\n"
       case Block(inner) => Flatten(inner, indent + 4))
      + Flatten(lines[1..], indent)
  }

  /** `style` */
  function StyleText(ns: seq<Node>): Option<string>
  {
    match Style(ns)
    case None => None
    case Some(lines) => Some(Flatten(lines, 0))
  }

  // ---------------------------------------------------------------------------
  // The imperative styler
  // ---------------------------------------------------------------------------

  /** `_style_statements(statement, last_statement, result)`; `false` where
      the source raises. */
  method StyleStatements(st: Node, last: Option<Node>, result: LineBuffer) returns (ok: bool)
    modifies result
    ensures ok == Nested(st, last, old(result.lines)).Some?
    ensures ok ==> result.lines == Nested(st, last, old(result.lines)).value
    decreases st.children, 3
  {
    if st.children == [] {
      return true;
    }
    var sub := StyleLines(st.children);
    if sub.None? {
      return false;
    }
    var lines := sub.value;
    var chain := TypeChain(st, [Compare, Sub]);
    if chain.None? {
      return false;
    }
    var item := Block(lines);
    if chain.value {
      if lines == [] || lines[0].Block? {
        return false;
      }
      var first := lines[0].text;
      lines := lines[1..];
      ok := result.AddToLastLine(" " + first, "");
      if !ok {
        return false;
      }
      if lines == [] {
        return false;
      }
      item := lines[0];
    }
    if HasType(last, {Key}) && last.value.value == "ON" {
      item := Block([item]);
    }
    result.Append(item);
    ok := true;
  }

  /** `_style(statements)`: walks the statements keeping `last_statement`
      and `on_prefix`, building the result list in place. */
  method StyleLines(statements: seq<Node>) returns (r: Option<seq<Line>>)
    ensures r == Style(statements)
    decreases statements, 2
  {
    var result := new LineBuffer([]);
    var last: Option<Node> := None;
    var onPrefix := "";
    for i := 0 to |statements|
      invariant StyleRun(statements, Start) == StyleRun(statements[i..], StyleState(result.lines, last, onPrefix))
    {
      var statement := statements[i];
      ghost var before := StyleState(result.lines, last, onPrefix);
      if onPrefix != "" && statement.kind == Join {
        onPrefix := "";
      }
      var ok := true;
      if statement.kind == Identifier && HasType(last, {Sub}) {
        ok := result.AddToLastLine(" " + statement.value, "");
      } else if HasType(last, {Link, Join}) {
        ok := result.AddToLastLine(" " + statement.value, "");
      } else if HasType(last, {Key}) {
        if last.value.value == "ON" {
          onPrefix := OnIndent;
        }
        ok := result.AddToLastLine(" " + statement.value, onPrefix);
      } else if statement.kind == Comma {
        ok := result.AddToLastLine(",", "");
      } else {
        result.Append(Text(onPrefix + statement.value));
      }
      if !ok {
        return None;
      }
      assert Placed(statement, before) == Some((result.lines, onPrefix));
      ok := StyleStatements(statement, last, result);
      if !ok {
        return None;
      }
      if statement.kind == Sub {
        ok := result.AddToLastLine(")", "");
        if !ok {
          return None;
        }
      }
      last := Some(statement);
      assert StyleOne(statement, before) == Some(StyleState(result.lines, last, onPrefix));
      assert statements[i..][1..] == statements[i + 1..];
    }
    assert statements[|statements|..] == [];
    r := Some(result.lines);
  }

  /** The rendering of the items from `i` on is that of item `i`, then the rest. */
  lemma FlattenAt(lines: seq<Line>, i: nat, indent: nat)
    requires i < |lines|
    ensures lines[i].Text? ==>
      Flatten(lines[i..], indent) == Spaces(indent) + lines[i].text + "\n" + Flatten(lines[i + 1..], indent)
    ensures lines[i].Block? ==>
      Flatten(lines[i..], indent) == Flatten(lines[i].lines, indent + 4) + Flatten(lines[i + 1..], indent)
  {
    assert lines[i..][0] == lines[i];
    assert lines[i..][1..] == lines[i + 1..];
  }

  /** `_flatten(lists, indent)` */
  method FlattenLines(lines: seq<Line>, indent: nat) returns (text: string)
    ensures text == Flatten(lines, indent)
    decreases lines
  {
    text := "";
    for i := 0 to |lines|
      invariant Flatten(lines, indent) == text + Flatten(lines[i..], indent)
    {
      var piece;
      match lines[i] {
        case Block(inner) =>
          piece := FlattenLines(inner, indent + 4);
        case Text(s) =>
          piece := Spaces(indent) + s + "\n";
      }
      FlattenAt(lines, i, indent);
      AppendAssoc(text, piece, Flatten(lines[i + 1..], indent));
      text := text + piece;
    }
    assert lines[|lines|..] == [];
  }

  /** `style(statements)` */
  method StyleStatementList(statements: seq<Node>) returns (r: Option<string>)
    ensures r == StyleText(statements)
  {
    var styled := StyleLines(statements);
    if styled.None? {
      return None;
    }
    var text := FlattenLines(styled.value, 0);
    r := Some(text);
  }
}
