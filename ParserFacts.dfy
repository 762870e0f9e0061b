/** What the parser guarantees: where its loop stops, that the tree it builds
    spells out exactly the tokens it consumed, which clauses can nest, and
    when it fails. */
module ParserFacts {
  import opened Common
  import Tokens
  import opened Tokenizer
  import opened Parser

  // ---------------------------------------------------------------------------
  // The count and the stop token
  // ---------------------------------------------------------------------------

  /** `_parse` of no tokens is no statements and a count of 0. */
  lemma ParseEmpty(nested: bool)
    ensures Parse([], nested) == Parsed([], 0)
  {
  }

  /** The loop only moves forward, and it ends at the end of the tokens or at
      a token it stops at: `)`, or in nested mode a clause other than SELECT. */
  lemma {:induction false} ParseAtEnds(tokens: seq<Tokens.Token>, nested: bool, i: nat)
    requires ParseAt(tokens, nested, i).Parsed?
    ensures ParseAt(tokens, nested, i).count >= i
    ensures var c := ParseAt(tokens, nested, i).count;
      c >= |tokens| || Stops(tokens[c], nested)
    decreases if i < |tokens| then |tokens| - i else 0
  {
    if i < |tokens| && !Stops(tokens[i], nested) {
      ParseAtEnds(tokens, nested, StepAt(tokens, nested, i).next);
    }
  }

  lemma ParseEnds(tokens: seq<Tokens.Token>, nested: bool)
    requires Parse(tokens, nested).Parsed?
    ensures var c := Parse(tokens, nested).count;
      c >= |tokens| || Stops(tokens[c], nested)
  {
    if tokens != [] {
      ParseAtEnds(tokens, nested, 0);
    }
  }

  // ---------------------------------------------------------------------------
  // The tree spells out the consumed tokens
  // ---------------------------------------------------------------------------

  /** The text of a list of statements: each node's value, then its
      children's text, then `)` after the children of a Sub. */
  function Words(ns: seq<Node>): seq<string>
    decreases ns
  {
    if ns == [] then []
    else
      [ns[0].value] + Words(ns[0].children) + (if ns[0].kind == Sub then [")"] else [])
      + Words(ns[1..])
  }

  /** The statements `ns` spell out the tokens from `i` to `c`, up to how
      words are grouped by single spaces. */
  predicate Covers(ns: seq<Node>, tokens: seq<Tokens.Token>, i: nat, c: nat)
  {
    i <= c <= |tokens| && Spaced(Words(ns)) == Spaced(Values(tokens[i..c]))
  }

  lemma {:induction false} WordsAppend(a: seq<Node>, b: seq<Node>)
    ensures Words(a + b) == Words(a) + Words(b)
    decreases a
  {
    if a == [] {
      assert a + b == b;
    } else {
      assert (a + b)[0] == a[0];
      assert (a + b)[1..] == a[1..] + b;
      WordsAppend(a[1..], b);
    }
  }

  lemma ValuesSlice(ts: seq<Tokens.Token>, i: nat, j: nat, k: nat)
    requires i <= j <= k <= |ts|
    ensures Values(ts[i..k]) == Values(ts[i..j]) + Values(ts[j..k])
  {
    assert ts[i..k] == ts[i..j] + ts[j..k];
    ValuesAppendSlices(ts[i..j], ts[j..k]);
  }

  lemma ValuesAppendSlices(a: seq<Tokens.Token>, b: seq<Tokens.Token>)
    ensures Values(a + b) == Values(a) + Values(b)
  {
    assert |Values(a + b)| == |Values(a) + Values(b)|;
    forall k | 0 <= k < |a + b|
      ensures Values(a + b)[k] == (Values(a) + Values(b))[k]
    {
    }
  }

  lemma CoversEmpty(tokens: seq<Tokens.Token>, i: nat)
    requires i <= |tokens|
    ensures Covers([], tokens, i, i)
  {
    assert Values(tokens[i..i]) == [];
  }

  lemma CoversAppend(a: seq<Node>, b: seq<Node>, tokens: seq<Tokens.Token>, i: nat, j: nat, k: nat)
    requires Covers(a, tokens, i, j) && Covers(b, tokens, j, k)
    ensures Covers(a + b, tokens, i, k)
  {
    WordsAppend(a, b);
    SpacedAppend(Words(a), Words(b));
    ValuesSlice(tokens, i, j, k);
    SpacedAppend(Values(tokens[i..j]), Values(tokens[j..k]));
  }

  /** A parse of the suffix after `j` covers the same tokens of the whole list. */
  lemma CoversShift(ns: seq<Node>, tokens: seq<Tokens.Token>, j: nat, c: nat)
    requires j <= |tokens| && Covers(ns, tokens[j..], 0, c)
    ensures Covers(ns, tokens, j, j + c)
  {
    assert tokens[j..][0..c] == tokens[j..j + c];
  }

  lemma OneValue(tokens: seq<Tokens.Token>, i: nat)
    requires i < |tokens|
    ensures Values(tokens[i..i + 1]) == [tokens[i].value]
  {
  }

  lemma WordsOne(n: Node)
    ensures Words([n]) == [n.value] + Words(n.children) + (if n.kind == Sub then [")"] else [])
  {
    assert [n][1..] == [];
  }

  /** A node without `)` spells its own token, then its children's tokens. */
  lemma CoversNode(n: Node, tokens: seq<Tokens.Token>, i: nat, k: nat)
    requires n.kind != Sub && i < |tokens| && tokens[i].value == n.value
    requires Covers(n.children, tokens, i + 1, k)
    ensures Covers([n], tokens, i, k)
  {
    WordsOne(n);
    OneValue(tokens, i);
    assert Words([n]) == [n.value] + Words(n.children);
    SpacedAppend([n.value], Words(n.children));
    ValuesSlice(tokens, i, i + 1, k);
    SpacedAppend([n.value], Values(tokens[i + 1..k]));
  }

  /** A Sub spells `(`, its children's tokens, and the `)` that ended them. */
  lemma CoversSub(n: Node, tokens: seq<Tokens.Token>, i: nat, j: nat)
    requires n.kind == Sub && i < j < |tokens|
    requires tokens[i].value == n.value && tokens[j].value == ")"
    requires Covers(n.children, tokens, i + 1, j)
    ensures Covers([n], tokens, i, j + 1)
  {
    WordsOne(n);
    OneValue(tokens, i);
    OneValue(tokens, j);
    SpacedAppend([n.value] + Words(n.children), [")"]);
    SpacedAppend([n.value], Words(n.children));
    ValuesSlice(tokens, i, i + 1, j);
    ValuesSlice(tokens, i, j, j + 1);
    SpacedAppend(Values(tokens[i..j]), [")"]);
    SpacedAppend([n.value], Values(tokens[i + 1..j]));
  }

  /** The text of a Compare: the words its value joins, then its children. */
  lemma CompareWords(n: Node, words: seq<string>, rest: seq<string>)
    requires n.kind == Compare && words != [] && n.value == JoinSpace(words)
    requires Spaced(Words(n.children)) == Spaced(rest)
    ensures Spaced(Words([n])) == Spaced(words + rest)
  {
    var ws := Words(n.children);
    WordsOne(n);
    assert Words([n]) == [n.value] + ws;
    SpacedAppend([n.value], ws);
    assert Spaced([n.value]) == n.value + " ";
    JoinSpaceSpaced(words);
    SpacedAppend(words, rest);
  }

  /** A Compare spells the `m` tokens its value joins, then its children's. */
  lemma CoversCompare(n: Node, tokens: seq<Tokens.Token>, i: nat, m: nat, k: nat)
    requires n.kind == Compare && 0 < m && i + m <= |tokens|
    requires n.value == JoinSpace(Values(tokens[i..i + m]))
    requires Covers(n.children, tokens, i + m, k)
    ensures Covers([n], tokens, i, k)
  {
    var words := Values(tokens[i..i + m]);
    var rest := Values(tokens[i + m..k]);
    ValuesSlice(tokens, i, i + m, k);
    CompareWords(n, words, rest);
  }

  /** Any other token, such as a COMPARE at the head of the loop or a
      punctuation other than `(` and `,`, matches no branch. */
  lemma StepStuck(tokens: seq<Tokens.Token>, nested: bool, i: nat)
    requires i < |tokens|
    requires tokens[i].ttype == Tokens.Compare
      || (tokens[i].ttype == Tokens.Punctuation && !IsOpening(tokens[i]) && !IsComma(tokens[i]))
    ensures StepAt(tokens, nested, i) == Halt(Stuck)
  {
  }

  /** A COMPARE at the head of the loop is where the source loops forever. */
  lemma CompareAtHeadIsStuck(tokens: seq<Tokens.Token>, nested: bool, i: nat)
    requires i < |tokens| && tokens[i].ttype == Tokens.Compare
    ensures ParseAt(tokens, nested, i) == Failed(Stuck)
  {
    StepStuck(tokens, nested, i);
  }

  /** Each pass of the loop appends exactly one statement; in nested mode it
      is never a clause other than SELECT. */
  lemma StepOneNode(tokens: seq<Tokens.Token>, nested: bool, i: nat)
    requires i < |tokens| && !Stops(tokens[i], nested) && StepAt(tokens, nested, i).Next?
    ensures |StepAt(tokens, nested, i).nodes| == 1
    ensures nested ==> !InnerClause(StepAt(tokens, nested, i).nodes[0].kind)
  {
    var kind := ClauseKind(tokens[i].ttype);
    if kind.Some? {
      StepClause(tokens, nested, i, kind.value);
    }
  }

  /** The clauses that end a nested parse. */
  predicate InnerClause(k: Kind)
  {
    k == From || k == Group || k == Having || k == Limit || k == Order || k == Where
  }

  /** A nested parse yields no FROM, GROUP, HAVING, LIMIT, ORDER or WHERE
      statement at its own level: those clauses only follow one another at
      the top, and a SELECT is the only clause one can hold. */
  lemma {:induction false} NestedHasNoClauses(tokens: seq<Tokens.Token>, i: nat)
    requires ParseAt(tokens, true, i).Parsed?
    ensures forall n <- ParseAt(tokens, true, i).nodes :: !InnerClause(n.kind)
    decreases if i < |tokens| then |tokens| - i else 0
  {
    if i < |tokens| && !Stops(tokens[i], true) {
      var step := StepAt(tokens, true, i);
      StepOneNode(tokens, true, i);
      NestedHasNoClauses(tokens, step.next);
    }
  }

  /** One pass of the loop body spells out the tokens it steps over. */
  lemma StepText(tokens: seq<Tokens.Token>, nested: bool, i: nat)
    requires i < |tokens| && StepAt(tokens, nested, i).Next?
    requires StepAt(tokens, nested, i).next <= |tokens|
    ensures Covers(StepAt(tokens, nested, i).nodes, tokens, i, StepAt(tokens, nested, i).next)
    decreases |tokens|, 1, 1
  {
    if ClauseKind(tokens[i].ttype).Some? {
      ClauseStepText(tokens, nested, i, ClauseKind(tokens[i].ttype).value);
    } else if PlainKind(tokens[i].ttype).Some? {
      StepPlain(tokens, nested, i, PlainKind(tokens[i].ttype).value);
      LeafText(Node(PlainKind(tokens[i].ttype).value, tokens[i].value, []), tokens, i);
    } else {
      OtherStepText(tokens, nested, i);
    }
  }

  /** The step over a clause keyword spells out the keyword and its body. */
  lemma ClauseStepText(tokens: seq<Tokens.Token>, nested: bool, i: nat, kind: Kind)
    requires i < |tokens| && ClauseKind(tokens[i].ttype) == Some(kind)
    requires StepAt(tokens, nested, i).Next? && StepAt(tokens, nested, i).next <= |tokens|
    ensures Covers(StepAt(tokens, nested, i).nodes, tokens, i, StepAt(tokens, nested, i).next)
    decreases |tokens|, 1, 0
  {
    StepClause(tokens, nested, i, kind);
    var r := Parse(tokens[i + 1..], true);
    assert r.Parsed?;
    assert StepAt(tokens, nested, i) == Next([Node(kind, tokens[i].value, r.nodes)], i + 1 + r.count);
    ClauseText(tokens, i, kind);
  }

  /** The steps over a token that is neither a clause keyword nor a plain
      statement: an identifier or a comparison, a parenthesis, a comma. */
  lemma OtherStepText(tokens: seq<Tokens.Token>, nested: bool, i: nat)
    requires i < |tokens| && ClauseKind(tokens[i].ttype).None? && PlainKind(tokens[i].ttype).None?
    requires StepAt(tokens, nested, i).Next? && StepAt(tokens, nested, i).next <= |tokens|
    ensures Covers(StepAt(tokens, nested, i).nodes, tokens, i, StepAt(tokens, nested, i).next)
    decreases |tokens|, 1, 0
  {
    var token, sub := tokens[i], tokens[i + 1..];
    var step := StepAt(tokens, nested, i);
    if token.ttype == Tokens.Str {
      if sub != [] && sub[0].ttype == Tokens.Compare {
        CompareText(tokens, nested, i);
      } else {
        LeafText(step.nodes[0], tokens, i);
      }
    } else if IsOpening(token) {
      SubText(tokens, i);
    } else {
      LeafText(step.nodes[0], tokens, i);
    }
  }

  /** A statement of one token without children spells out that token. */
  lemma LeafText(n: Node, tokens: seq<Tokens.Token>, i: nat)
    requires i < |tokens| && n.kind != Sub && n.children == [] && n.value == tokens[i].value
    ensures Covers([n], tokens, i, i + 1)
  {
    CoversEmpty(tokens, i + 1);
    CoversNode(n, tokens, i, i + 1);
  }

  lemma ClauseText(tokens: seq<Tokens.Token>, i: nat, kind: Kind)
    requires i < |tokens| && ClauseKind(tokens[i].ttype) == Some(kind)
    requires Parse(tokens[i + 1..], true).Parsed?
    requires 1 + i + Parse(tokens[i + 1..], true).count <= |tokens|
    ensures var r := Parse(tokens[i + 1..], true);
      Covers([Node(kind, tokens[i].value, r.nodes)], tokens, i, i + 1 + r.count)
    decreases |tokens|, 0
  {
    var r := Parse(tokens[i + 1..], true);
    ParseText(tokens[i + 1..], true);
    CoversShift(r.nodes, tokens, i + 1, r.count);
    CoversNode(Node(kind, tokens[i].value, r.nodes), tokens, i, i + 1 + r.count);
  }

  lemma SubText(tokens: seq<Tokens.Token>, i: nat)
    requires i < |tokens| && IsOpening(tokens[i])
    requires Parse(tokens[i + 1..], false).Parsed?
    requires i + 2 + Parse(tokens[i + 1..], false).count <= |tokens|
    ensures var r := Parse(tokens[i + 1..], false);
      Covers([Node(Sub, tokens[i].value, r.nodes)], tokens, i, i + 2 + r.count)
    decreases |tokens|, 0
  {
    var sub := tokens[i + 1..];
    var r := Parse(sub, false);
    ParseText(sub, false);
    ParseEnds(sub, false);
    assert sub[r.count] == tokens[i + 1 + r.count];
    CoversShift(r.nodes, tokens, i + 1, r.count);
    CoversSub(Node(Sub, tokens[i].value, r.nodes), tokens, i, i + 1 + r.count);
  }

  lemma CompareText(tokens: seq<Tokens.Token>, nested: bool, i: nat)
    requires i + 1 < |tokens| && tokens[i].ttype == Tokens.Str && tokens[i + 1].ttype == Tokens.Compare
    requires StepAt(tokens, nested, i).Next? && StepAt(tokens, nested, i).next <= |tokens|
    ensures Covers(StepAt(tokens, nested, i).nodes, tokens, i, StepAt(tokens, nested, i).next)
    decreases |tokens|, 0
  {
    var sub := tokens[i + 1..];
    var step := StepAt(tokens, nested, i);
    assert ClsFromDict(tokens[i], sub) == Parsed([], 1);
    assert |sub| >= 2;
    if sub[1].ttype == Tokens.Punctuation {
      var r := Parse(sub[1..], true);
      assert sub[1..] == tokens[i + 2..];
      ParseText(tokens[i + 2..], true);
      CoversShift(r.nodes, tokens, i + 2, r.count);
      assert Values(tokens[i..i + 2]) == [tokens[i].value, tokens[i + 1].value];
      CoversCompare(step.nodes[0], tokens, i, 2, step.next);
    } else {
      CoversEmpty(tokens, i + 3);
      assert Values(tokens[i..i + 3]) == [tokens[i].value, tokens[i + 1].value, tokens[i + 2].value];
      CoversCompare(step.nodes[0], tokens, i, 3, i + 3);
    }
  }

  /** The loop from `i` on spells out the tokens from `i` to where it ends,
      whenever that end lies within the list. */
  lemma {:induction false} ParseAtText(tokens: seq<Tokens.Token>, nested: bool, i: nat)
    requires ParseAt(tokens, nested, i).Parsed? && ParseAt(tokens, nested, i).count <= |tokens|
    ensures Covers(ParseAt(tokens, nested, i).nodes, tokens, i, ParseAt(tokens, nested, i).count)
    decreases |tokens|, 2, if i < |tokens| then |tokens| - i else 0
  {
    ParseAtEnds(tokens, nested, i);
    if i >= |tokens| || Stops(tokens[i], nested) {
      CoversEmpty(tokens, i);
    } else {
      var step := StepAt(tokens, nested, i);
      var rest := ParseAt(tokens, nested, step.next);
      ParseAtEnds(tokens, nested, step.next);
      StepText(tokens, nested, i);
      ParseAtText(tokens, nested, step.next);
      CoversAppend(step.nodes, rest.nodes, tokens, i, step.next, rest.count);
    }
  }

  /** Round trip: when `_parse` ends within its tokens, the statements it
      returns spell out exactly the tokens it consumed, in order. */
  lemma ParseText(tokens: seq<Tokens.Token>, nested: bool)
    requires Parse(tokens, nested).Parsed? && Parse(tokens, nested).count <= |tokens|
    ensures Covers(Parse(tokens, nested).nodes, tokens, 0, Parse(tokens, nested).count)
    decreases |tokens|, 3
  {
    if tokens == [] {
      CoversEmpty(tokens, 0);
    } else {
      ParseAtText(tokens, nested, 0);
    }
  }
}
