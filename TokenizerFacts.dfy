/** Properties of the tokenizer: the scan covers its input, keywords are
    matched as whole words with the longer variants first, blank pieces are
    dropped, and merging leaves no two STR tokens side by side. */
module TokenizerFacts {
  import opened Common
  import opened Tokens
  import opened Tokenizer

  // ---------------------------------------------------------------------------
  // The scan
  // ---------------------------------------------------------------------------

  /** The pieces are non-empty and concatenate back to the input, so the scan
      index strictly increases and every character is read exactly once. */
  lemma {:induction false} PiecesCoverInput(s: string, kwords: seq<string>)
    requires NonEmptyWords(kwords)
    ensures Concat(Pieces(s, kwords)) == s
    ensures forall k :: 0 <= k < |Pieces(s, kwords)| ==> Pieces(s, kwords)[k] != []
    decreases |s|
  {
    if s != [] {
      var n := PieceLength(s, kwords);
      var tail := Pieces(s[n..], kwords);
      PiecesCoverInput(s[n..], kwords);
      PiecesStep(s, kwords);
      ConcatCons(s[..n], tail);
      assert s[..n] + s[n..] == s;
      var ps := Pieces(s, kwords);
      forall k | 0 <= k < |ps|
        ensures ps[k] != []
      {
        if k > 0 {
          assert ps[k] == tail[k - 1];
        }
      }
    }
  }

  /** The scan of the real keyword table covers its input. */
  lemma ScanCoversInput(s: string)
    ensures NonEmptyWords(KeywordOrder)
    ensures Concat(Pieces(s, KeywordOrder)) == s
  {
    KeywordsNonEmpty();
    PiecesCoverInput(s, KeywordOrder);
  }

  /** `_startswith_and_is_not_partial`: a keyword never matches the start of a
      longer word, so `IN` is not found in `INNER` nor in `IN(`. */
  lemma WholeWordOnly(s: string, word: string)
    requires word <= s && |word| < |s|
    ensures StartsWithWord(s, word) <==> s[|word|] == ' '
  {
  }

  // ---------------------------------------------------------------------------
  // The keyword search
  // ---------------------------------------------------------------------------

  /** The search over two tables in a row is the search over the first,
      falling back to the second. */
  lemma {:induction false} FirstKeywordAppend(s: string, p: seq<string>, q: seq<string>)
    ensures FirstKeyword(s, p + q) == if FirstKeyword(s, p).Some? then FirstKeyword(s, p) else FirstKeyword(s, q)
  {
    if p == [] {
      assert p + q == q;
    } else {
      assert (p + q)[0] == p[0];
      assert (p + q)[1..] == p[1..] + q;
      FirstKeywordAppend(s, p[1..], q);
    }
  }

  /** No keyword can match that differs from the input in its first
      character, or at position `i`. */
  lemma FirstKeywordNone(s: string, kws: seq<string>, i: nat)
    requires s != []
    requires forall k :: k in kws ==> k != [] && (k[0] != s[0] || (i < |k| && i < |s| && k[i] != s[i]))
    ensures FirstKeyword(s, kws) == None
  {
    forall k | k in kws
      ensures !StartsWithWord(s, k)
    {
      assert k[0] != s[0] || k[i] != s[i];
    }
    FirstKeywordMiss(s, kws);
  }

  lemma FirstKeywordSkip(s: string, kws: seq<string>)
    requires kws != [] && !StartsWithWord(s, kws[0])
    ensures FirstKeyword(s, kws) == FirstKeyword(s, kws[1..])
  {
  }

  lemma FirstKeywordHit(s: string, kws: seq<string>)
    requires kws != [] && StartsWithWord(s, kws[0])
    ensures FirstKeyword(s, kws) == Some(kws[0])
  {
  }

  lemma NotWordAt(s: string, word: string, i: nat)
    requires i < |word| && i < |s| && word[i] != s[i]
    ensures !StartsWithWord(s, word)
  {
  }

  /** The tables tried before the SELECT variants. */
  const BeforeSelects: seq<string> := Additional + Compares + Joins + Keywords + Links

  lemma NoTableBeforeSelectsStartsWithS()
    ensures forall k :: k in BeforeSelects ==> k != [] && k[0] != 'S'
  {
  }

  lemma PunctuationsAreOneChar()
    ensures forall k :: k in Punctuations ==> |k| == 1 && k[0] in ",)("
  {
  }

  /** A table in the middle decides the search when the tables around it
      cannot match. */
  lemma FirstKeywordMiddle(s: string, p: seq<string>, q: seq<string>, r: seq<string>)
    requires FirstKeyword(s, p) == None && FirstKeyword(s, r) == None
    ensures FirstKeyword(s, p + q + r) == FirstKeyword(s, q)
  {
    FirstKeywordAppend(s, p + q, r);
    FirstKeywordAppend(s, p, q);
  }

  lemma KeywordOrderAroundSelects()
    ensures KeywordOrder == BeforeSelects + Selects + Punctuations
  {
  }

  lemma NoKeywordBeforeSelects(s: string)
    requires s != [] && s[0] == 'S'
    ensures FirstKeyword(s, BeforeSelects) == None
  {
    NoTableBeforeSelectsStartsWithS();
    FirstKeywordNone(s, BeforeSelects, 0);
  }

  lemma NoPunctuation(s: string)
    requires s != [] && s[0] !in ",)("
    ensures FirstKeyword(s, Punctuations) == None
  {
    PunctuationsAreOneChar();
    FirstKeywordNone(s, Punctuations, 0);
  }

  /** A word starting with `S` is only ever matched against the SELECT
      variants, in their table order. */
  lemma SelectVariantsOnly(s: string)
    requires s != [] && s[0] == 'S'
    ensures FirstKeyword(s, KeywordOrder) == FirstKeyword(s, Selects)
  {
    KeywordOrderAroundSelects();
    NoKeywordBeforeSelects(s);
    NoPunctuation(s);
    FirstKeywordMiddle(s, BeforeSelects, Selects, Punctuations);
  }

  /** `SELECT DISTINCT` is taken whole, not as `SELECT` followed by a word. */
  lemma SelectDistinctIsOneKeyword(rest: string)
    requires rest == [] || rest[0] == ' '
    ensures FirstKeyword("SELECT DISTINCT" + rest, KeywordOrder) == Some("SELECT DISTINCT")
  {
    var s := "SELECT DISTINCT" + rest;
    SelectVariantsOnly(s);
    assert "SELECT DISTINCT" <= s;
  }

  /** `SELECT SQL_NO_CACHE` is taken whole too. */
  lemma SelectNoCacheIsOneKeyword(rest: string)
    requires rest == [] || rest[0] == ' '
    ensures FirstKeyword("SELECT SQL_NO_CACHE" + rest, KeywordOrder) == Some("SELECT SQL_NO_CACHE")
  {
    var s := "SELECT SQL_NO_CACHE" + rest;
    SelectVariantsOnly(s);
    NotWordAt(s, "SELECT DISTINCT", 7);
    assert "SELECT SQL_NO_CACHE" <= s;
  }

  lemma SelectsTable()
    ensures Selects[0] == "SELECT DISTINCT" && Selects[1] == "SELECT SQL_NO_CACHE"
    ensures Selects[1..][1..] == ["SELECT"]
  {
  }

  /** The input is the word `SELECT` on its own, or followed by a space and a
      word that does not start like `DISTINCT` or `SQL_NO_CACHE`. */
  predicate PlainSelectAt(s: string)
  {
    "SELECT" <= s && (|s| == 6 || (|s| >= 8 && s[6] == ' ' && s[7] != 'D' && s[7] != 'S'))
  }

  lemma NoSelectVariant(s: string)
    requires PlainSelectAt(s)
    ensures !StartsWithWord(s, "SELECT DISTINCT")
    ensures !StartsWithWord(s, "SELECT SQL_NO_CACHE")
  {
    if |s| > 6 {
      NotWordAt(s, "SELECT DISTINCT", 7);
      NotWordAt(s, "SELECT SQL_NO_CACHE", 7);
    }
  }

  lemma PlainSelectInSelects(s: string)
    requires PlainSelectAt(s)
    ensures FirstKeyword(s, Selects) == Some("SELECT")
  {
    SelectsTable();
    NoSelectVariant(s);
    FirstKeywordSkip(s, Selects);
    FirstKeywordSkip(s, Selects[1..]);
    FirstKeywordHit(s, Selects[1..][1..]);
  }

  /** A plain `SELECT` followed by a word other than the two variants. */
  lemma PlainSelectIsKeyword(s: string)
    requires PlainSelectAt(s)
    ensures FirstKeyword(s, KeywordOrder) == Some("SELECT")
  {
    assert s[0] == 'S';
    PlainSelectInSelects(s);
    SelectVariantsOnly(s);
  }

  /** The tables tried after the comparison operators. */
  const AfterCompares: seq<string> := Joins + Keywords + Links + Selects + Punctuations

  lemma KeywordOrderAroundCompares()
    ensures KeywordOrder == Additional + Compares + AfterCompares
  {
  }

  predicate NotLK(k: string)
  {
    k != [] && (k[0] != 'L' || (2 < |k| && k[2] != 'K'))
  }

  lemma NoLKWordInTables()
    ensures forall k :: k in Additional ==> NotLK(k)
    ensures forall k :: k in Joins ==> NotLK(k)
    ensures forall k :: k in Keywords ==> NotLK(k)
    ensures forall k :: k in Links ==> NotLK(k)
    ensures forall k :: k in Selects ==> NotLK(k)
    ensures forall k :: k in Punctuations ==> NotLK(k)
  {
  }

  lemma NoLKWordAroundCompares()
    ensures forall k :: k in Additional ==> NotLK(k)
    ensures forall k :: k in AfterCompares ==> NotLK(k)
  {
    NoLKWordInTables();
  }

  lemma ComparesAroundLikeBinary()
    ensures forall k :: k in Compares[..7] ==> k != [] && k[0] != 'L'
    ensures Compares[7..][0] == "LIKE BINARY"
  {
  }

  /** `LIKE BINARY` is taken whole, not as `LIKE`. */
  lemma LikeBinaryIsOneKeyword(rest: string)
    requires rest == [] || rest[0] == ' '
    ensures FirstKeyword("LIKE BINARY" + rest, KeywordOrder) == Some("LIKE BINARY")
  {
    var s := "LIKE BINARY" + rest;
    assert s[0] == 'L' && s[2] == 'K';
    KeywordOrderAroundCompares();
    NoLKWordAroundCompares();
    FirstKeywordNone(s, Additional, 2);
    FirstKeywordNone(s, AfterCompares, 2);
    FirstKeywordMiddle(s, Additional, Compares, AfterCompares);
    SplitAt(Compares, 7);
    ComparesAroundLikeBinary();
    FirstKeywordNone(s, Compares[..7], 0);
    assert "LIKE BINARY" <= s;
    FirstKeywordHit(s, Compares[7..]);
    FirstKeywordAppend(s, Compares[..7], Compares[7..]);
  }

  // ---------------------------------------------------------------------------
  // Token.from_value
  // ---------------------------------------------------------------------------

  /** A value is STR exactly when it is in none of the keyword tables. */
  lemma {:induction false} LookupTypeStr(v: string, tables: seq<(seq<string>, TokenType)>)
    requires forall t :: t in tables ==> t.1 != Str
    ensures LookupType(v, tables) == Str <==> forall t :: t in tables ==> v !in t.0
  {
    if tables != [] {
      assert forall t :: t in tables ==> t == tables[0] || t in tables[1..];
      LookupTypeStr(v, tables[1..]);
    }
  }

  lemma TablesAreTyped()
    ensures forall t :: t in TypeTables ==> t.1 != Str
  {
  }

  lemma KeywordOrderTables(v: string)
    ensures (forall t :: t in TypeTables ==> v !in t.0) <==> v !in KeywordOrder
  {
  }

  lemma TypeOfStr(v: string)
    ensures TypeOf(v) == Str <==> v !in KeywordOrder
  {
    KeywordOrderTables(v);
    TablesAreTyped();
    LookupTypeStr(v, TypeTables);
  }

  /** A blank piece gives no token. */
  lemma FromValueBlank(value: string)
    ensures FromValue(value).None? <==> AllSpace(value)
  {
    StripSpec(value);
  }

  /** Any other piece gives a token whose value is the stripped piece, of type
      STR exactly when that value is in none of the keyword tables. */
  lemma FromValueClass(value: string)
    requires FromValue(value).Some?
    ensures FromValue(value).value.value == Strip(value)
    ensures FromValue(value).value.ttype == Str <==> Strip(value) !in KeywordOrder
  {
    TypeOfStr(Strip(value));
  }

  /** A value that is not STR is found in a table of its type. */
  lemma {:induction false} LookupTypeFound(v: string, tables: seq<(seq<string>, TokenType)>)
    requires LookupType(v, tables) != Str
    ensures exists i :: 0 <= i < |tables| && v in tables[i].0 && tables[i].1 == LookupType(v, tables)
  {
    if v !in tables[0].0 {
      LookupTypeFound(v, tables[1..]);
      var i :| 0 <= i < |tables[1..]| && v in tables[1..][i].0 && tables[1..][i].1 == LookupType(v, tables);
      assert tables[i + 1] == tables[1..][i];
    } else {
      assert v in tables[0].0 && tables[0].1 == LookupType(v, tables);
    }
  }

  lemma TypeOfFound(v: string)
    requires TypeOf(v) != Str
    ensures exists i :: 0 <= i < |TypeTables| && v in TypeTables[i].0 && TypeTables[i].1 == TypeOf(v)
  {
    LookupTypeFound(v, TypeTables);
  }

  // ---------------------------------------------------------------------------
  // _merge_str_tokens
  // ---------------------------------------------------------------------------

  predicate AllStr(ts: seq<Token>)
  {
    forall k :: 0 <= k < |ts| ==> ts[k].ttype == Str
  }

  /** No two neighbouring tokens are both STR. */
  predicate NoAdjacentStr(ts: seq<Token>)
  {
    forall k :: 0 <= k < |ts| - 1 ==> ts[k].ttype != Str || ts[k + 1].ttype != Str
  }

  /** The tokens other than STR, in order. */
  function NonStr(ts: seq<Token>): seq<Token>
  {
    if ts == [] then []
    else if ts[0].ttype == Str then NonStr(ts[1..])
    else [ts[0]] + NonStr(ts[1..])
  }

  function NonStrHead(t: Token): seq<Token>
  {
    if t.ttype == Str then [] else [t]
  }

  lemma NonStrCons(ts: seq<Token>)
    requires ts != []
    ensures NonStr(ts) == NonStrHead(ts[0]) + NonStr(ts[1..])
  {
  }

  lemma {:induction false} NonStrAppend(a: seq<Token>, b: seq<Token>)
    ensures NonStr(a + b) == NonStr(a) + NonStr(b)
  {
    if a == [] {
      assert a + b == b;
    } else {
      var ab := a + b;
      assert ab[0] == a[0] && ab[1..] == a[1..] + b;
      NonStrAppend(a[1..], b);
      NonStrCons(ab);
      NonStrCons(a);
      AppendAssoc(NonStrHead(a[0]), NonStr(a[1..]), NonStr(b));
    }
  }

  lemma ValuesAppend(a: seq<Token>, b: seq<Token>)
    ensures Values(a + b) == Values(a) + Values(b)
  {
  }

  /** After merging, no two adjacent tokens are both STR. */
  lemma {:induction false} MergeFromNoAdjacentStr(ts: seq<Token>, buffer: seq<Token>)
    ensures NoAdjacentStr(MergeFrom(ts, buffer))
    decreases |ts|
  {
    if ts != [] {
      if ts[0].ttype == Str {
        MergeFromNoAdjacentStr(ts[1..], buffer + [ts[0]]);
      } else {
        var rest := MergeFrom(ts[1..], []);
        MergeFromNoAdjacentStr(ts[1..], []);
        var head := Flushed(buffer) + [ts[0]];
        var r := head + rest;
        assert MergeFrom(ts, buffer) == r;
        forall k | 0 <= k < |r| - 1
          ensures r[k].ttype != Str || r[k + 1].ttype != Str
        {
          if k >= |head| {
            assert r[k] == rest[k - |head|] && r[k + 1] == rest[k + 1 - |head|];
          } else if k == |head| - 1 {
            assert r[k] == ts[0];
          } else {
            assert r[k + 1] == ts[0];
          }
        }
      }
    }
  }

  lemma MergeNoAdjacentStr(ts: seq<Token>)
    ensures NoAdjacentStr(MergeStr(ts))
  {
    MergeFromNoAdjacentStr(ts, []);
  }

  /** Merging keeps every token other than STR, in order. */
  lemma {:induction false} MergeFromKeepsNonStr(ts: seq<Token>, buffer: seq<Token>)
    ensures NonStr(MergeFrom(ts, buffer)) == NonStr(ts)
    decreases |ts|
  {
    assert NonStr(Flushed(buffer)) == [] by {
      if buffer != [] {
        assert Flushed(buffer)[1..] == [];
      }
    }
    if ts != [] {
      if ts[0].ttype == Str {
        MergeFromKeepsNonStr(ts[1..], buffer + [ts[0]]);
      } else {
        MergeFromKeepsNonStr(ts[1..], []);
        NonStrAppend(Flushed(buffer), [ts[0]]);
        NonStrAppend(Flushed(buffer) + [ts[0]], MergeFrom(ts[1..], []));
        assert NonStr([ts[0]]) == [ts[0]];
      }
    }
  }

  lemma MergeKeepsNonStr(ts: seq<Token>)
    ensures NonStr(MergeStr(ts)) == NonStr(ts)
  {
    MergeFromKeepsNonStr(ts, []);
  }

  lemma FlushedText(buffer: seq<Token>)
    ensures Spaced(Values(Flushed(buffer))) == Spaced(Values(buffer))
  {
    if buffer != [] {
      JoinSpaceSpaced(Values(buffer));
      assert Values(Flushed(buffer)) == [JoinSpace(Values(buffer))];
    }
  }

  lemma ValuesCons(ts: seq<Token>)
    requires ts != []
    ensures Values(ts) == [ts[0].value] + Values(ts[1..])
  {
  }

  lemma ValuesSnoc(ts: seq<Token>, t: Token)
    ensures Values(ts + [t]) == Values(ts) + [t.value]
  {
  }

  /** Moving one word across the boundary between two spaced texts. */
  lemma SpacedMove(vs: seq<string>, v: string, ws: seq<string>)
    ensures Spaced(vs + [v]) + Spaced(ws) == Spaced(vs) + Spaced([v] + ws)
  {
    SpacedAppend(vs, [v]);
    SpacedAppend(vs + [v], ws);
    SpacedAppend(vs, [v] + ws);
    assert vs + [v] + ws == vs + ([v] + ws);
  }

  lemma TextStrStep(ts: seq<Token>, buffer: seq<Token>)
    requires ts != [] && ts[0].ttype == Str
    requires Spaced(Values(MergeFrom(ts[1..], buffer + [ts[0]])))
      == Spaced(Values(buffer + [ts[0]])) + Spaced(Values(ts[1..]))
    ensures Spaced(Values(MergeFrom(ts, buffer))) == Spaced(Values(buffer)) + Spaced(Values(ts))
  {
    MergeFromStep(ts, buffer);
    ValuesCons(ts);
    ValuesSnoc(buffer, ts[0]);
    SpacedMove(Values(buffer), ts[0].value, Values(ts[1..]));
  }

  lemma ValuesJoin3(a: seq<Token>, t: Token, b: seq<Token>)
    ensures Values(a + [t] + b) == Values(a) + [t.value] + Values(b)
  {
    ValuesAppend(a + [t], b);
    ValuesSnoc(a, t);
  }

  lemma SpacedJoin3(a: seq<string>, v: string, b: seq<string>)
    ensures Spaced(a + [v] + b) == Spaced(a) + Spaced([v] + b)
  {
    AppendAssoc(a, [v], b);
    SpacedAppend(a, [v] + b);
  }

  lemma SpacedCons(v: string, b: seq<string>)
    ensures Spaced([v] + b) == v + " " + Spaced(b)
  {
    assert ([v] + b)[1..] == b;
  }

  lemma TextOtherStep(ts: seq<Token>, buffer: seq<Token>)
    requires ts != [] && ts[0].ttype != Str
    requires Spaced(Values(MergeFrom(ts[1..], []))) == Spaced(Values(ts[1..]))
    ensures Spaced(Values(MergeFrom(ts, buffer))) == Spaced(Values(buffer)) + Spaced(Values(ts))
  {
    var f := Flushed(buffer);
    var m := MergeFrom(ts[1..], []);
    MergeFromStep(ts, buffer);
    ValuesJoin3(f, ts[0], m);
    SpacedJoin3(Values(f), ts[0].value, Values(m));
    FlushedText(buffer);
    SpacedCons(ts[0].value, Values(m));
    SpacedCons(ts[0].value, Values(ts[1..]));
    ValuesCons(ts);
  }

  /** Merging keeps the text: each merged value is its constituents joined by
      one space, so the words, each followed by a space, are unchanged. */
  lemma {:induction false} MergeFromKeepsText(ts: seq<Token>, buffer: seq<Token>)
    ensures Spaced(Values(MergeFrom(ts, buffer))) == Spaced(Values(buffer)) + Spaced(Values(ts))
    decreases |ts|
  {
    if ts == [] {
      FlushedText(buffer);
      assert Values(ts) == [];
    } else if ts[0].ttype == Str {
      MergeFromKeepsText(ts[1..], buffer + [ts[0]]);
      TextStrStep(ts, buffer);
    } else {
      MergeFromKeepsText(ts[1..], []);
      assert Values([]) == [];
      TextOtherStep(ts, buffer);
    }
  }

  lemma MergeKeepsText(ts: seq<Token>)
    ensures Spaced(Values(MergeStr(ts))) == Spaced(Values(ts))
  {
    MergeFromKeepsText(ts, []);
  }

  /** A run of STR tokens becomes one STR token: their values joined by one
      space. */
  lemma {:induction false} MergeFromAllStr(ts: seq<Token>, buffer: seq<Token>)
    requires AllStr(ts)
    ensures MergeFrom(ts, buffer) == Flushed(buffer + ts)
    decreases |ts|
  {
    if ts == [] {
      assert buffer + ts == buffer;
    } else {
      MergeFromAllStr(ts[1..], buffer + [ts[0]]);
      assert buffer + [ts[0]] + ts[1..] == buffer + ts;
    }
  }

  lemma MergeAllStr(ts: seq<Token>)
    requires ts != [] && AllStr(ts)
    ensures MergeStr(ts) == [Token(Str, JoinSpace(Values(ts)))]
  {
    MergeFromAllStr(ts, []);
    assert [] + ts == ts;
  }

  /** A run of STR tokens ended by a token of another type: the buffer and
      the run are flushed as one STR token, the ending token is kept, and
      merging starts afresh after it. */
  lemma {:induction false} MergeFromRun(run: seq<Token>, t: Token, rest: seq<Token>, buffer: seq<Token>)
    requires AllStr(run) && t.ttype != Str
    ensures MergeFrom(run + [t] + rest, buffer) == Flushed(buffer + run) + [t] + MergeStr(rest)
    decreases |run|
  {
    var ts := run + [t] + rest;
    if run == [] {
      assert ts == [t] + rest && ts[0] == t && ts[1..] == rest;
      assert buffer + run == buffer;
    } else {
      assert ts[0] == run[0] && ts[1..] == run[1..] + [t] + rest;
      MergeFromRun(run[1..], t, rest, buffer + [run[0]]);
      assert buffer + [run[0]] + run[1..] == buffer + run;
    }
  }

  /** Merging splits at the first non-STR token: the STR run before it
      becomes one STR token carrying the run's values joined by spaces. */
  lemma MergeRun(run: seq<Token>, t: Token, rest: seq<Token>)
    requires AllStr(run) && t.ttype != Str
    ensures MergeStr(run + [t] + rest) == Flushed(run) + [t] + MergeStr(rest)
    ensures run != [] ==> Flushed(run) == [Token(Str, JoinSpace(Values(run)))]
  {
    MergeFromRun(run, t, rest, []);
    assert [] + run == run;
  }

  /** A lone STR token is flushed as itself. */
  lemma FlushedSingle(t: Token)
    requires t.ttype == Str
    ensures Flushed([t]) == [t]
  {
    assert Values([t]) == [t.value];
  }

  /** A token list with no two adjacent STR tokens is left as it is. */
  lemma {:induction false} MergeFromUnmerged(ts: seq<Token>)
    requires NoAdjacentStr(ts)
    ensures MergeFrom(ts, []) == ts
    decreases |ts|
  {
    if ts != [] {
      var tail := ts[1..];
      assert NoAdjacentStr(tail) by {
        forall k | 0 <= k < |tail| - 1
          ensures tail[k].ttype != Str || tail[k + 1].ttype != Str
        {
          assert tail[k] == ts[k + 1] && tail[k + 1] == ts[k + 2];
        }
      }
      MergeFromUnmerged(tail);
      if ts[0].ttype == Str && tail != [] {
        assert tail[0].ttype != Str by {
          assert ts[0].ttype != Str || ts[1].ttype != Str;
        }
        FlushedSingle(ts[0]);
        MergeFromStep(tail, [ts[0]]);
        assert [] + [ts[0]] == [ts[0]];
        assert MergeFrom(ts, []) == MergeFrom(tail, [ts[0]]);
        assert MergeFrom(tail, [ts[0]]) == [ts[0]] + [tail[0]] + MergeFrom(tail[1..], []);
        assert [tail[0]] + tail[1..] == tail;
        AppendAssoc([ts[0]], [tail[0]], tail[1..]);
      } else if ts[0].ttype == Str {
        FlushedSingle(ts[0]);
        assert MergeFrom(ts, []) == MergeFrom(tail, [] + [ts[0]]);
        assert [] + [ts[0]] == [ts[0]];
      } else {
        MergeFromStep(ts, []);
      }
    }
  }

  /** Merging is idempotent: a merged list is merged again to itself. */
  lemma MergeIdempotent(ts: seq<Token>)
    ensures MergeStr(MergeStr(ts)) == MergeStr(ts)
  {
    MergeNoAdjacentStr(ts);
    MergeFromUnmerged(MergeStr(ts));
  }

  /** Classifying works piece by piece: the tokens of two lists of pieces are
      the tokens of the first followed by those of the second. */
  lemma {:induction false} ClassifyAppend(p: seq<string>, q: seq<string>)
    ensures Classify(p + q) == Classify(p) + Classify(q)
    decreases |p|
  {
    if p == [] {
      assert p + q == q;
    } else {
      assert (p + q)[0] == p[0] && (p + q)[1..] == p[1..] + q;
      ClassifyAppend(p[1..], q);
      AppendAssoc(TokenOf(p[0]), Classify(p[1..]), Classify(q));
    }
  }

  /** `tokenize` returns a merged list: no two STR tokens are adjacent, and
      merging it again changes nothing. */
  lemma TokenizeMerged(sql: string)
    ensures NoAdjacentStr(Tokenize(sql))
    ensures MergeStr(Tokenize(sql)) == Tokenize(sql)
  {
    KeywordsNonEmpty();
    var ts := Classify(Pieces(sql, KeywordOrder));
    MergeNoAdjacentStr(ts);
    MergeIdempotent(ts);
  }
}
