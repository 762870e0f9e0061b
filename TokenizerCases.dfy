/** Concrete behaviour of the tokenizer: which piece the scan takes at a
    given position, and the token list of a whole query. */
module TokenizerCases {
  import opened Common
  import opened Tokens
  import opened Tokenizer
  import opened TokenizerFacts

  // ---------------------------------------------------------------------------
  // Where the keyword search can hit
  // ---------------------------------------------------------------------------

  /** The characters a keyword of the table can start with. */
  predicate KeywordStart(c: char)
  {
    ('A' <= c <= 'Z') || c == '=' || c == '!' || c == '<' || c == '>' || c == ',' || c == ')' || c == '('
  }

  lemma KeywordStarts()
    ensures forall k :: k in KeywordOrder ==> k != [] && KeywordStart(k[0])
  {
  }

  /** No keyword is found where the input starts with any other character,
      e.g. a lower-case letter, a digit, a quote or a space. */
  lemma NoKeywordAt(s: string)
    requires s != [] && !KeywordStart(s[0])
    ensures FirstKeyword(s, KeywordOrder) == None
  {
    KeywordStarts();
    FirstKeywordNone(s, KeywordOrder, 0);
  }

  /** The search returns the first keyword, in table order, that matches. */
  lemma {:induction false} FirstKeywordAt(s: string, kws: seq<string>, i: nat)
    requires i < |kws| && StartsWithWord(s, kws[i])
    requires forall j :: 0 <= j < i ==> !StartsWithWord(s, kws[j])
    ensures FirstKeyword(s, kws) == Some(kws[i])
  {
    if i > 0 {
      assert !StartsWithWord(s, kws[0]);
      FirstKeywordAt(s, kws[1..], i - 1);
    }
  }

  lemma KeywordOrderHead()
    ensures KeywordOrder[0] == "FROM" && KeywordOrder[1] == "WHERE" && KeywordOrder[2] == "LIMIT"
  {
  }

  lemma FromIsKeyword(s: string)
    requires StartsWithWord(s, "FROM")
    ensures FirstKeyword(s, KeywordOrder) == Some("FROM")
  {
    KeywordOrderHead();
    FirstKeywordAt(s, KeywordOrder, 0);
  }

  lemma LimitIsKeyword(s: string)
    requires StartsWithWord(s, "LIMIT")
    ensures FirstKeyword(s, KeywordOrder) == Some("LIMIT")
  {
    KeywordOrderHead();
    NotWordAt(s, "FROM", 0);
    NotWordAt(s, "WHERE", 0);
    FirstKeywordAt(s, KeywordOrder, 2);
  }

  /** The comparison operators are tried before the joins, yet `INNER JOIN`
      is taken whole: `IN` does not match the start of `INNER`. */
  lemma InnerJoinIsOneKeyword(s: string)
    requires StartsWithWord(s, "INNER JOIN")
    ensures FirstKeyword(s, KeywordOrder) == Some("INNER JOIN")
  {
    KeywordOrderAroundJoins();
    NoAdditionalAtInnerJoin(s);
    NoCompareAtInnerJoin(s);
    InnerJoinInJoins(s);
    FirstKeywordAppend(s, Additional, Compares);
    FirstKeywordAppend(s, Additional + Compares, Joins + AfterJoins);
  }

  /** The tables tried after the joins. */
  const AfterJoins: seq<string> := Keywords + Links + Selects + Punctuations

  lemma KeywordOrderAroundJoins()
    ensures KeywordOrder == Additional + Compares + (Joins + AfterJoins)
  {
  }

  lemma AdditionalStarts()
    ensures forall k :: k in Additional ==> k != [] && k[0] != 'I'
  {
  }

  lemma NoAdditionalAtInnerJoin(s: string)
    requires StartsWithWord(s, "INNER JOIN")
    ensures FirstKeyword(s, Additional) == None
  {
    assert s[0] == 'I';
    AdditionalStarts();
    FirstKeywordNone(s, Additional, 0);
  }

  lemma ComparesStarts()
    ensures forall k :: k in Compares ==> k[0] != 'I' || k == "IN" || k == "IS"
  {
  }

  lemma NoCompareAtInnerJoin(s: string)
    requires StartsWithWord(s, "INNER JOIN")
    ensures FirstKeyword(s, Compares) == None
  {
    assert s[0] == 'I' && s[1] == 'N' && s[2] == 'N';
    ComparesStarts();
    forall k | k in Compares
      ensures !StartsWithWord(s, k)
    {
      if k == "IN" {
        assert s[2] != ' ';
      } else if k == "IS" {
        NotWordAt(s, k, 1);
      } else {
        NotWordAt(s, k, 0);
      }
    }
    FirstKeywordMiss(s, Compares);
  }

  lemma AfterJoinsStarts()
    ensures forall k :: k in AfterJoins ==> k != [] && k[0] != 'I'
    ensures Joins[0] == "JOIN" && Joins[1..][0] == "INNER JOIN"
  {
  }

  lemma InnerJoinInJoins(s: string)
    requires StartsWithWord(s, "INNER JOIN")
    ensures FirstKeyword(s, Joins + AfterJoins) == Some("INNER JOIN")
  {
    assert s[0] == 'I';
    AfterJoinsStarts();
    FirstKeywordNone(s, AfterJoins, 0);
    NotWordAt(s, "JOIN", 0);
    FirstKeywordSkip(s, Joins);
    FirstKeywordHit(s, Joins[1..]);
    FirstKeywordAppend(s, Joins, AfterJoins);
  }

  lemma KeywordsWithI()
    ensures forall k :: k in KeywordOrder ==> k != [] && (k[0] != 'I' || k == "IN" || k == "IS" || k == "INNER JOIN")
  {
  }

  /** `IN` directly followed by `(` is not a keyword: no keyword at all is
      found there. */
  lemma InBeforeParenIsNotKeyword(s: string)
    requires "IN(" <= s
    ensures FirstKeyword(s, KeywordOrder) == None
  {
    assert s[0] == 'I' && s[1] == 'N' && s[2] == '(';
    KeywordsWithI();
    forall k | k in KeywordOrder
      ensures !StartsWithWord(s, k)
    {
      if k == "IN" {
        assert s[2] != ' ';
      } else if k == "IS" {
        NotWordAt(s, k, 1);
      } else if k == "INNER JOIN" {
        NotWordAt(s, k, 2);
      } else {
        NotWordAt(s, k, 0);
      }
    }
    FirstKeywordMiss(s, KeywordOrder);
  }

  // ---------------------------------------------------------------------------
  // The piece taken by the regular expression
  // ---------------------------------------------------------------------------

  /** A run of `\w` characters that no keyword can start, ended by a space or
      the end of input, is one piece: the call alternatives need a `(`, and
      the name alternative takes the whole run. */
  lemma WordPiece(s: string, n: nat)
    requires 1 <= n <= |s| && !KeywordStart(s[0])
    requires forall k :: 0 <= k < n ==> IsWordChar(s[k])
    requires n == |s| || s[n] == ' '
    ensures NonEmptyWords(KeywordOrder)
    ensures PieceLength(s, KeywordOrder) == n
  {
    KeywordsNonEmpty();
    NoKeywordAt(s);
    assert RunEnd(s, 0, IsWordChar) == n;
    assert RunEnd(s, 0, IsCallChar) == n;
    assert RunEnd(s, 0, IsNameChar) == n;
  }

  /** A single space before a non-space is a piece of its own. */
  lemma SpacePiece(s: string)
    requires s != [] && s[0] == ' ' && (|s| == 1 || !IsSpace(s[1]))
    ensures NonEmptyWords(KeywordOrder)
    ensures PieceLength(s, KeywordOrder) == 1
  {
    KeywordsNonEmpty();
    NoKeywordAt(s);
    assert RunEnd(s, 0, IsWordChar) == 0;
    assert RunEnd(s, 0, IsCallChar) == 0;
    assert RunEnd(s, 0, IsNameChar) == 0;
    assert RunEnd(s, 0, IsSpace) == 1;
  }

  /** A character that no other alternative accepts, such as `*`, is taken
      alone by the catch-all `.+?`. */
  lemma CatchAllPiece(s: string)
    requires s != [] && !KeywordStart(s[0]) && !IsNameChar(s[0]) && !IsCallChar(s[0])
    requires s[0] != '"' && s[0] != '\'' && !IsSpace(s[0])
    ensures NonEmptyWords(KeywordOrder)
    ensures PieceLength(s, KeywordOrder) == 1
  {
    KeywordsNonEmpty();
    NoKeywordAt(s);
    assert RunEnd(s, 0, IsWordChar) == 0;
    assert RunEnd(s, 0, IsCallChar) == 0;
    assert RunEnd(s, 0, IsNameChar) == 0;
    assert RunEnd(s, 0, IsSpace) == 0;
    assert IsSpace('\n');
  }

  /** An unterminated quote is not an error: with no closing quote after it,
      the quote character is taken alone by the catch-all. */
  lemma UnterminatedQuotePiece(s: string)
    requires s != [] && (s[0] == '"' || s[0] == '\'')
    requires forall k :: 1 <= k < |s| ==> s[k] != s[0]
    ensures NonEmptyWords(KeywordOrder)
    ensures PieceLength(s, KeywordOrder) == 1
  {
    KeywordsNonEmpty();
    NoKeywordAt(s);
    assert RunEnd(s, 0, IsWordChar) == 0;
    assert RunEnd(s, 0, IsCallChar) == 0;
    assert RunEnd(s, 0, IsNameChar) == 0;
    assert RunEnd(s, 0, IsSpace) == 0;
    assert LazyUntil(s, 1, s[0]) == None;
  }

  /** Keyword matching is case-sensitive: a lower-case `select` is an
      ordinary word and becomes a STR token. */
  lemma LowerCaseSelectIsStr(s: string)
    requires "select" <= s && (|s| == 6 || s[6] == ' ')
    ensures NonEmptyWords(KeywordOrder)
    ensures PieceLength(s, KeywordOrder) == 6
    ensures TokenOf(s[..6]) == [Token(Str, "select")]
  {
    assert s[..6] == "select";
    WordPiece(s, 6);
    KeywordStarts();
    TokenOfPlain("select");
    TypeOfStr("select");
  }

  // ---------------------------------------------------------------------------
  // The token of a piece
  // ---------------------------------------------------------------------------

  /** A piece with no space at either end yields itself as the token value. */
  lemma TokenOfPlain(v: string)
    requires v != [] && !IsSpace(v[0]) && !IsSpace(v[|v| - 1])
    ensures TokenOf(v) == [Token(TypeOf(v), v)]
  {
    StripSpec(v);
  }

  lemma TokenOfBlank(v: string)
    requires AllSpace(v)
    ensures TokenOf(v) == []
  {
    StripSpec(v);
  }

  lemma PiecesCons(p: string, rest: string)
    requires p != [] && NonEmptyWords(KeywordOrder)
    requires PieceLength(p + rest, KeywordOrder) == |p|
    ensures Pieces(p + rest, KeywordOrder) == [p] + Pieces(rest, KeywordOrder)
  {
    PiecesStep(p + rest, KeywordOrder);
    assert (p + rest)[..|p|] == p && (p + rest)[|p|..] == rest;
  }

  /** The type is that of the first table holding the value. */
  lemma {:induction false} LookupTypeAt(v: string, tables: seq<(seq<string>, TokenType)>, i: nat)
    requires i < |tables| && v in tables[i].0
    requires forall j :: 0 <= j < i ==> v !in tables[j].0
    ensures LookupType(v, tables) == tables[i].1
  {
    if i > 0 {
      assert v !in tables[0].0;
      LookupTypeAt(v, tables[1..], i - 1);
    }
  }

  lemma TypeOfSelect()
    ensures TypeOf("SELECT") == Select
  {
    var v := "SELECT";
    assert TypeTables[10] == (Selects, Select);
    assert v in Selects;
    forall j | 0 <= j < 10
      ensures v !in TypeTables[j].0
    {
      assert forall k :: k in TypeTables[j].0 ==> k != [] && k[0] != 'S';
    }
    LookupTypeAt(v, TypeTables, 10);
  }

  lemma TypeOfClauseWords()
    ensures TypeOf("SELECT") == Select && TypeOf("FROM") == From && TypeOf("LIMIT") == Limit
  {
    TypeOfSelect();
    LookupTypeAt("FROM", TypeTables, 0);
    assert "LIMIT" != "FROM" && "LIMIT" != "WHERE";
    LookupTypeAt("LIMIT", TypeTables, 2);
  }

  /** A value starting with a character no keyword starts with is STR. */
  lemma TypeOfPlainWord(v: string)
    requires v != [] && !KeywordStart(v[0])
    ensures TypeOf(v) == Str
  {
    KeywordStarts();
    TypeOfStr(v);
  }

  // ---------------------------------------------------------------------------
  // One scan step each: the piece taken at the front and the rest
  // ---------------------------------------------------------------------------

  lemma SelectStep(rest: string)
    requires PlainSelectAt("SELECT" + rest)
    ensures NonEmptyWords(KeywordOrder)
    ensures Pieces("SELECT" + rest, KeywordOrder) == ["SELECT"] + Pieces(rest, KeywordOrder)
  {
    KeywordsNonEmpty();
    PlainSelectIsKeyword("SELECT" + rest);
    PiecesCons("SELECT", rest);
  }

  lemma FromStep(rest: string)
    requires rest == [] || rest[0] == ' '
    ensures NonEmptyWords(KeywordOrder)
    ensures Pieces("FROM" + rest, KeywordOrder) == ["FROM"] + Pieces(rest, KeywordOrder)
  {
    KeywordsNonEmpty();
    FromIsKeyword("FROM" + rest);
    PiecesCons("FROM", rest);
  }

  lemma LimitStep(rest: string)
    requires rest == [] || rest[0] == ' '
    ensures NonEmptyWords(KeywordOrder)
    ensures Pieces("LIMIT" + rest, KeywordOrder) == ["LIMIT"] + Pieces(rest, KeywordOrder)
  {
    KeywordsNonEmpty();
    LimitIsKeyword("LIMIT" + rest);
    PiecesCons("LIMIT", rest);
  }

  lemma SpaceStep(rest: string)
    requires rest == [] || !IsSpace(rest[0])
    ensures NonEmptyWords(KeywordOrder)
    ensures Pieces(" " + rest, KeywordOrder) == [" "] + Pieces(rest, KeywordOrder)
  {
    SpacePiece(" " + rest);
    PiecesCons(" ", rest);
  }

  lemma CatchAllStep(c: char, rest: string)
    requires !KeywordStart(c) && !IsNameChar(c) && !IsCallChar(c) && c != '"' && c != '\'' && !IsSpace(c)
    ensures NonEmptyWords(KeywordOrder)
    ensures Pieces([c] + rest, KeywordOrder) == [[c]] + Pieces(rest, KeywordOrder)
  {
    CatchAllPiece([c] + rest);
    PiecesCons([c], rest);
  }

  lemma WordStep(w: string, rest: string)
    requires w != [] && !KeywordStart(w[0]) && forall k :: 0 <= k < |w| ==> IsWordChar(w[k])
    requires rest == [] || rest[0] == ' '
    ensures NonEmptyWords(KeywordOrder)
    ensures Pieces(w + rest, KeywordOrder) == [w] + Pieces(rest, KeywordOrder)
  {
    WordPiece(w + rest, |w|);
    PiecesCons(w, rest);
  }

  // ---------------------------------------------------------------------------
  // A whole query: `SELECT * FROM <table> LIMIT <n>`
  // ---------------------------------------------------------------------------

  /** A word of `\w` characters that does not start like a keyword, such as
      `my_table` or `65`. */
  predicate PlainWord(w: string)
  {
    w != [] && !KeywordStart(w[0]) && forall k :: 0 <= k < |w| ==> IsWordChar(w[k])
  }

  lemma PiecesLimit(n: string)
    requires PlainWord(n)
    ensures NonEmptyWords(KeywordOrder)
    ensures Pieces("LIMIT" + (" " + n), KeywordOrder) == ["LIMIT"] + ([" "] + [n])
  {
    assert n + [] == n;
    WordStep(n, []);
    SpaceStep(n);
    LimitStep(" " + n);
  }

  lemma PiecesFrom(table: string, tail: string)
    requires PlainWord(table) && (tail == [] || tail[0] == ' ')
    ensures NonEmptyWords(KeywordOrder)
    ensures Pieces("FROM" + (" " + (table + tail)), KeywordOrder)
      == ["FROM"] + ([" "] + ([table] + Pieces(tail, KeywordOrder)))
  {
    WordStep(table, tail);
    SpaceStep(table + tail);
    FromStep(" " + (table + tail));
  }

  lemma PiecesSelectStar(tail: string)
    ensures NonEmptyWords(KeywordOrder)
    ensures Pieces("SELECT" + (" " + ("*" + tail)), KeywordOrder)
      == ["SELECT"] + ([" "] + (["*"] + Pieces(tail, KeywordOrder)))
  {
    var star := "*" + tail;
    CatchAllStep('*', tail);
    SpaceStep(star);
    var s := "SELECT" + (" " + star);
    assert s[6] == ' ' && s[7] == '*';
    SelectStep(" " + star);
  }

  /** The text of the query, grouped the way the scan takes it apart. */
  function SelectStarFromLimit(table: string, n: string): string
  {
    "SELECT" + (" " + ("*" + (" " + ("FROM" + (" " + (table + (" " + ("LIMIT" + (" " + n)))))))))
  }

  lemma SelectStarFromLimitPieces(table: string, n: string)
    requires PlainWord(table) && PlainWord(n)
    ensures NonEmptyWords(KeywordOrder)
    ensures Pieces(SelectStarFromLimit(table, n), KeywordOrder)
      == ["SELECT"] + ([" "] + (["*"] + ([" "] + (["FROM"] + ([" "] + ([table] + ([" "] + (["LIMIT"] + ([" "] + [n])))))))))
  {
    var limit := "LIMIT" + (" " + n);
    PiecesLimit(n);
    SpaceStep(limit);
    var from := "FROM" + (" " + (table + (" " + limit)));
    PiecesFrom(table, " " + limit);
    SpaceStep(from);
    PiecesSelectStar(" " + from);
  }

  /** Two pieces, the second blank, give the token of the first only. */
  lemma ClassifyPair(a: string, b: string, rest: seq<string>)
    requires TokenOf(b) == []
    ensures Classify([a] + ([b] + rest)) == TokenOf(a) + Classify(rest)
  {
    ClassifyCons(a, [b] + rest);
    ClassifyCons(b, rest);
    assert [] + Classify(rest) == Classify(rest);
  }

  lemma TokenOfPlainWord(w: string)
    requires PlainWord(w)
    ensures TokenOf(w) == [Token(Str, w)]
  {
    TokenOfPlain(w);
    TypeOfPlainWord(w);
  }

  lemma TokenOfClauseWords()
    ensures TokenOf("SELECT") == [Token(Select, "SELECT")]
    ensures TokenOf("FROM") == [Token(From, "FROM")]
    ensures TokenOf("LIMIT") == [Token(Limit, "LIMIT")]
    ensures TokenOf("*") == [Token(Str, "*")]
    ensures TokenOf(" ") == []
  {
    TokenOfSelect();
    TokenOfFromLimit();
    TokenOfStar();
    TokenOfBlank(" ");
  }

  lemma TokenOfStar()
    ensures TokenOf("*") == [Token(Str, "*")]
  {
    TypeOfPlainWord("*");
    TokenOfPlain("*");
  }

  lemma TokenOfSelect()
    ensures TokenOf("SELECT") == [Token(Select, "SELECT")]
  {
    TypeOfSelect();
    TokenOfPlain("SELECT");
  }

  lemma TokenOfFromLimit()
    ensures TokenOf("FROM") == [Token(From, "FROM")]
    ensures TokenOf("LIMIT") == [Token(Limit, "LIMIT")]
  {
    TypeOfClauseWords();
    TokenOfPlain("FROM");
    TokenOfPlain("LIMIT");
  }

  lemma SelectStarFromLimitClassify(table: string, n: string)
    requires PlainWord(table) && PlainWord(n)
    ensures Classify(["SELECT"] + ([" "] + (["*"] + ([" "] + (["FROM"] + ([" "] + ([table] + ([" "] + (["LIMIT"] + ([" "] + [n]))))))))))
      == [Token(Select, "SELECT")] + ([Token(Str, "*")] + ([Token(From, "FROM")] + ([Token(Str, table)] + ([Token(Limit, "LIMIT")] + [Token(Str, n)]))))
  {
    TokenOfClauseWords();
    TokenOfPlainWord(table);
    TokenOfPlainWord(n);
    var r5 := [n];
    ClassifyCons(n, []);
    var c5 := [Token(Str, n)];
    assert Classify(r5) == c5;
    var r4 := ["LIMIT"] + ([" "] + r5);
    ClassifyPair("LIMIT", " ", r5);
    var c4 := [Token(Limit, "LIMIT")] + c5;
    assert Classify(r4) == c4;
    var r3 := [table] + ([" "] + r4);
    ClassifyPair(table, " ", r4);
    var c3 := [Token(Str, table)] + c4;
    assert Classify(r3) == c3;
    var r2 := ["FROM"] + ([" "] + r3);
    ClassifyPair("FROM", " ", r3);
    var c2 := [Token(From, "FROM")] + c3;
    assert Classify(r2) == c2;
    var r1 := ["*"] + ([" "] + r2);
    ClassifyPair("*", " ", r2);
    var c1 := [Token(Str, "*")] + c2;
    assert Classify(r1) == c1;
    ClassifyPair("SELECT", " ", r1);
  }

  /** `SELECT * FROM <table> LIMIT <n>` tokenizes to SELECT, STR `*`, FROM,
      STR table, LIMIT, STR n. */
  lemma SelectStarFromLimitTokens(table: string, n: string)
    requires PlainWord(table) && PlainWord(n)
    ensures Tokenize(SelectStarFromLimit(table, n))
      == [Token(Select, "SELECT"), Token(Str, "*"), Token(From, "FROM"),
          Token(Str, table), Token(Limit, "LIMIT"), Token(Str, n)]
  {
    var sql := SelectStarFromLimit(table, n);
    SelectStarFromLimitPieces(table, n);
    var pieces := ["SELECT"] + ([" "] + (["*"] + ([" "] + (["FROM"] + ([" "] + ([table] + ([" "] + (["LIMIT"] + ([" "] + [n])))))))));
    assert Pieces(sql, KeywordOrder) == pieces;
    SelectStarFromLimitClassify(table, n);
    var tokens := [Token(Select, "SELECT"), Token(Str, "*"), Token(From, "FROM"),
                   Token(Str, table), Token(Limit, "LIMIT"), Token(Str, n)];
    SelectStarFromLimitList(table, n);
    assert Classify(pieces) == tokens;
    SelectStarFromLimitMerge(table, n);
    assert Tokenize(sql) == MergeStr(Classify(pieces));
  }

  /** The STR tokens are separated by others, so merging leaves them. */
  lemma SelectStarFromLimitMerge(table: string, n: string)
    ensures MergeStr([Token(Select, "SELECT"), Token(Str, "*"), Token(From, "FROM"),
                      Token(Str, table), Token(Limit, "LIMIT"), Token(Str, n)])
      == [Token(Select, "SELECT"), Token(Str, "*"), Token(From, "FROM"),
          Token(Str, table), Token(Limit, "LIMIT"), Token(Str, n)]
  {
    var tokens := [Token(Select, "SELECT"), Token(Str, "*"), Token(From, "FROM"),
                   Token(Str, table), Token(Limit, "LIMIT"), Token(Str, n)];
    forall k | 0 <= k < |tokens| - 1
      ensures tokens[k].ttype != Str || tokens[k + 1].ttype != Str
    {
      if k % 2 == 0 {
        assert tokens[k].ttype != Str;
      } else {
        assert tokens[k + 1].ttype != Str;
      }
    }
    MergeFromUnmerged(tokens);
  }

  lemma SelectStarFromLimitList(table: string, n: string)
    ensures [Token(Select, "SELECT")] + ([Token(Str, "*")] + ([Token(From, "FROM")] + ([Token(Str, table)] + ([Token(Limit, "LIMIT")] + [Token(Str, n)]))))
      == [Token(Select, "SELECT"), Token(Str, "*"), Token(From, "FROM"),
          Token(Str, table), Token(Limit, "LIMIT"), Token(Str, n)]
  {
  }

  /** The `select_with_limit` fixture. */
  lemma SelectWithLimitTokens(sql: string)
    requires sql == "SELECT * FROM my_table LIMIT 65"
    ensures Tokenize(sql)
      == [Token(Select, "SELECT"), Token(Str, "*"), Token(From, "FROM"),
          Token(Str, "my_table"), Token(Limit, "LIMIT"), Token(Str, "65")]
  {
    FixtureWords();
    assert sql == SelectStarFromLimit("my_table", "65");
    SelectStarFromLimitTokens("my_table", "65");
  }

  lemma FixtureWords()
    ensures PlainWord("my_table") && PlainWord("65")
  {
  }
}
