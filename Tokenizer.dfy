/** The tokenizer: scans an (already upper-cased) SQL string left to right into
    typed tokens, then merges runs of adjacent STR tokens. */
module Tokenizer {
  import opened Common
  import opened Tokens

  // ---------------------------------------------------------------------------
  // _startswith_and_is_not_partial and the keyword scan
  // ---------------------------------------------------------------------------

  /** `_startswith_and_is_not_partial(s, word)` */
  predicate StartsWithWord(s: string, word: string)
  {
    if word <= s then |s| <= |word| || s[|word|] == ' ' else false
  }

  /** The `for kw in kwords: ... break` search. */
  function FirstKeyword(s: string, kws: seq<string>): (r: Option<string>)
    ensures r.Some? ==> StartsWithWord(s, r.value)
  {
    if kws == [] then None
    else if StartsWithWord(s, kws[0]) then Some(kws[0])
    else FirstKeyword(s, kws[1..])
  }

  /** The search finds a keyword of the table, and comes back empty exactly
      when no keyword of the table matches. */
  lemma {:induction false} FirstKeywordMiss(s: string, kws: seq<string>)
    ensures FirstKeyword(s, kws).Some? ==> FirstKeyword(s, kws).value in kws
    ensures FirstKeyword(s, kws).None? <==> forall k :: k in kws ==> !StartsWithWord(s, k)
  {
    if kws != [] {
      FirstKeywordMiss(s, kws[1..]);
      assert forall k :: k in kws ==> k == kws[0] || k in kws[1..];
    }
  }

  // ---------------------------------------------------------------------------
  // The seven TOKENS_RE alternatives, each hand-coded as a matcher that
  // returns the length of the match at the start of the string.
  // ---------------------------------------------------------------------------

  /** End of the maximal run of characters satisfying `p` starting at `i`. */
  function RunEnd(s: string, i: nat, p: char -> bool): (j: nat)
    requires i <= |s|
    ensures i <= j <= |s|
    ensures forall k :: i <= k < j ==> p(s[k])
    ensures j == |s| || !p(s[j])
    decreases |s| - i
  {
    if i < |s| && p(s[i]) then RunEnd(s, i + 1, p) else i
  }

  /** Lazy `.*?` followed by the character `close`: the first index `k >= i`
      holding `close`, provided no newline comes before it. */
  function LazyUntil(s: string, i: nat, close: char): (r: Option<nat>)
    requires i <= |s|
    ensures r.Some? ==> i <= r.value < |s| && s[r.value] == close
    ensures r.Some? ==> forall k :: i <= k < r.value ==> s[k] != close && s[k] != '\n'
    ensures (forall k :: i <= k < |s| ==> s[k] != close) ==> r.None?
    decreases |s| - i
  {
    if i == |s| then None
    else if s[i] == close then Some(i)
    else if s[i] == '\n' then None
    else LazyUntil(s, i + 1, close)
  }

  /** `\w+\(.*?\)` */
  function MatchCall(s: string): (r: Option<nat>)
    ensures r.Some? ==> 3 <= r.value <= |s| && IsWordChar(s[0]) && s[r.value - 1] == ')'
  {
    var w := RunEnd(s, 0, IsWordChar);
    if w == 0 || w == |s| || s[w] != '(' then None
    else match LazyUntil(s, w + 1, ')')
      case Some(k) => Some(k + 1)
      case None => None
  }

  /** `".*?"` and `'.*?'` */
  function MatchQuoted(s: string, quote: char): (r: Option<nat>)
    ensures r.Some? ==> 2 <= r.value <= |s| && s[0] == quote && s[r.value - 1] == quote
  {
    if s == [] || s[0] != quote then None
    else match LazyUntil(s, 1, quote)
      case Some(k) => Some(k + 1)
      case None => None
  }

  /** `[\w\d%]+\([_\w\d\.`%]+\)[\w\d]*` */
  function MatchParamCall(s: string): (r: Option<nat>)
    ensures r.Some? ==> 4 <= r.value <= |s| && IsCallChar(s[0])
    ensures r.Some? ==> s[r.value - 1] == ')' || IsWordChar(s[r.value - 1])
  {
    var a := RunEnd(s, 0, IsCallChar);
    if a == 0 || a == |s| || s[a] != '(' then None
    else
      var b := RunEnd(s, a + 1, IsNameChar);
      if b == a + 1 || b == |s| || s[b] != ')' then None
      else Some(RunEnd(s, b + 1, IsWordChar))
  }

  /** `[_\w\d\.`%]+` */
  function MatchName(s: string): (r: Option<nat>)
    ensures r.Some? ==> 1 <= r.value <= |s| && forall k :: 0 <= k < r.value ==> IsNameChar(s[k])
  {
    var n := RunEnd(s, 0, IsNameChar);
    if n == 0 then None else Some(n)
  }

  /** `\s+` */
  function MatchSpace(s: string): (r: Option<nat>)
    ensures r.Some? ==> 1 <= r.value <= |s| && AllSpace(s[..r.value])
    ensures r.None? <==> s == [] || !IsSpace(s[0])
  {
    var n := RunEnd(s, 0, IsSpace);
    if n == 0 then None else Some(n)
  }

  /** `.+?`: one character other than a newline. */
  function MatchAnyChar(s: string): (r: Option<nat>)
  {
    if s != [] && s[0] != '\n' then Some(1) else None
  }

  /** `re.match(TOKENS_RE, s).group(0)`: the first alternative that matches wins.
      It always matches a non-empty string, because `\s+` takes a newline and
      `.+?` takes every other character. */
  function RegexMatch(s: string): (r: Option<nat>)
    requires s != []
    ensures r.Some? && 1 <= r.value <= |s|
  {
    var call := MatchCall(s);
    if call.Some? then call else
    var dq := MatchQuoted(s, '"');
    if dq.Some? then dq else
    var param := MatchParamCall(s);
    if param.Some? then param else
    var name := MatchName(s);
    if name.Some? then name else
    var sq := MatchQuoted(s, '\'');
    if sq.Some? then sq else
    var sp := MatchSpace(s);
    if sp.Some? then sp else
    assert IsSpace('\n');
    MatchAnyChar(s)
  }

  // ---------------------------------------------------------------------------
  // _tokenize and _merge_str_tokens as specification functions
  // ---------------------------------------------------------------------------

  /** A keyword table the scan can use: no keyword is empty. */
  predicate NonEmptyWords(kwords: seq<string>)
  {
    forall k :: k in kwords ==> k != []
  }

  /** Length of the piece consumed at the start of `s`: the first keyword of
      `kwords` that matches as a whole word, else the regular expression. */
  function PieceLength(s: string, kwords: seq<string>): (n: nat)
    requires s != [] && NonEmptyWords(kwords)
    ensures 1 <= n <= |s|
  {
    match FirstKeyword(s, kwords)
    case Some(kw) => FirstKeywordMiss(s, kwords); |kw|
    case None => RegexMatch(s).value
  }

  /** The pieces `val` of the scan loop, in order. */
  function Pieces(s: string, kwords: seq<string>): seq<string>
    requires NonEmptyWords(kwords)
    decreases |s|
  {
    if s == [] then []
    else
      var n := PieceLength(s, kwords);
      [s[..n]] + Pieces(s[n..], kwords)
  }

  /** The token a piece yields, if any. */
  function TokenOf(piece: string): seq<Token>
  {
    match FromValue(piece)
    case Some(t) => [t]
    case None => []
  }

  /** Each piece through `Token.from_value`, dropping the blank ones. */
  function Classify(pieces: seq<string>): seq<Token>
  {
    if pieces == [] then [] else TokenOf(pieces[0]) + Classify(pieces[1..])
  }

  /** `_create_str_token` */
  function StrToken(buffer: seq<Token>): Token
  {
    Token(Str, JoinSpace(Values(buffer)))
  }

  function Values(ts: seq<Token>): seq<string>
  {
    seq(|ts|, k requires 0 <= k < |ts| => ts[k].value)
  }

  /** What a pending buffer contributes when it is flushed: nothing when it
      is empty, else one `_create_str_token`. */
  function Flushed(buffer: seq<Token>): seq<Token>
  {
    if buffer == [] then [] else [StrToken(buffer)]
  }

  /** `_merge_str_tokens` continued from a pending buffer of STR tokens. */
  function MergeFrom(ts: seq<Token>, buffer: seq<Token>): seq<Token>
  {
    if ts == [] then Flushed(buffer)
    else if ts[0].ttype == Str then MergeFrom(ts[1..], buffer + [ts[0]])
    else Flushed(buffer) + [ts[0]] + MergeFrom(ts[1..], [])
  }

  lemma MergeFromStep(ts: seq<Token>, buffer: seq<Token>)
    requires ts != []
    ensures ts[0].ttype == Str ==> MergeFrom(ts, buffer) == MergeFrom(ts[1..], buffer + [ts[0]])
    ensures ts[0].ttype != Str ==> MergeFrom(ts, buffer) == Flushed(buffer) + [ts[0]] + MergeFrom(ts[1..], [])
  {
  }

  /** One iteration of the merge loop keeps its invariant. */
  lemma MergeInvariantStep(tokens: seq<Token>, merged: seq<Token>, rest: seq<Token>, buffer: seq<Token>)
    requires rest != []
    requires merged + MergeFrom(rest, buffer) == MergeStr(tokens)
    ensures rest[0].ttype == Str ==> merged + MergeFrom(rest[1..], buffer + [rest[0]]) == MergeStr(tokens)
    ensures rest[0].ttype != Str ==>
      (merged + Flushed(buffer) + [rest[0]]) + MergeFrom(rest[1..], []) == MergeStr(tokens)
  {
    var tail := MergeFrom(rest[1..], []);
    if rest[0].ttype != Str {
      assert MergeFrom(rest, buffer) == Flushed(buffer) + [rest[0]] + tail;
      AppendAssoc(merged, Flushed(buffer), [rest[0]]);
      AppendAssoc(merged + Flushed(buffer), [rest[0]], tail);
      AppendAssoc(merged, Flushed(buffer) + [rest[0]], tail);
    }
  }

  function MergeStr(ts: seq<Token>): seq<Token>
  {
    MergeFrom(ts, [])
  }

  /** `tokenize` */
  function Tokenize(sql: string): seq<Token>
  {
    KeywordsNonEmpty();
    MergeStr(Classify(Pieces(sql, KeywordOrder)))
  }

  lemma KeywordsNonEmpty()
    ensures NonEmptyWords(KeywordOrder)
  {
  }

  // ---------------------------------------------------------------------------
  // The imperative scan and merge
  // ---------------------------------------------------------------------------

  /** The `for kw in kwords: ... break` loop of `_tokenize`. */
  method MatchKeyword(sub: string, kwords: seq<string>) returns (hit: Option<string>)
    ensures hit == FirstKeyword(sub, kwords)
  {
    hit := None;
    var k := 0;
    while k < |kwords| && hit.None?
      invariant 0 <= k <= |kwords|
      invariant hit.None? ==> FirstKeyword(sub, kwords) == FirstKeyword(sub, kwords[k..])
      invariant hit.Some? ==> FirstKeyword(sub, kwords) == hit
      decreases |kwords| - k + (if hit.None? then 1 else 0)
    {
      if StartsWithWord(sub, kwords[k]) {
        hit := Some(kwords[k]);
      } else {
        assert kwords[k..][1..] == kwords[k + 1..];
        k := k + 1;
      }
    }
  }

  /** One step of `_tokenize`: the keyword found by the search, or else the
      text the regular expression matches. */
  method NextPiece(sub: string, kwords: seq<string>) returns (val: string)
    requires sub != [] && NonEmptyWords(kwords)
    ensures val == sub[..PieceLength(sub, kwords)]
  {
    var hit := MatchKeyword(sub, kwords);
    if hit.Some? {
      val := hit.value;
    } else {
      val := sub[..RegexMatch(sub).value];
    }
  }

  lemma PiecesStep(s: string, kwords: seq<string>)
    requires s != [] && NonEmptyWords(kwords)
    ensures Pieces(s, kwords) == [s[..PieceLength(s, kwords)]] + Pieces(s[PieceLength(s, kwords)..], kwords)
  {
  }

  lemma ClassifyCons(piece: string, pieces: seq<string>)
    ensures Classify([piece] + pieces) == TokenOf(piece) + Classify(pieces)
  {
    assert ([piece] + pieces)[1..] == pieces;
  }

  /** The loop of `_tokenize` over the keyword table `kwords`: advances
      through the input by the length of each piece and emits the token of
      every non-blank piece; `sub` is the unread rest of the input (the
      source's `sql[i:]`). */
  method ScanPieces(sql: string, kwords: seq<string>) returns (tokens: seq<Token>)
    requires NonEmptyWords(kwords)
    ensures tokens == Classify(Pieces(sql, kwords))
  {
    tokens := [];
    var sub := sql;
    while sub != []
      invariant tokens + Classify(Pieces(sub, kwords)) == Classify(Pieces(sql, kwords))
      decreases |sub|
    {
      var val := NextPiece(sub, kwords);
      PiecesStep(sub, kwords);
      var rest := sub[|val|..];
      ClassifyCons(val, Pieces(rest, kwords));
      ghost var before := tokens;
      var token := FromValue(val);
      if token.Some? {
        tokens := tokens + [token.value];
      }
      assert tokens == before + TokenOf(val);
      AppendAssoc(before, TokenOf(val), Classify(Pieces(rest, kwords)));
      sub := rest;
    }
  }

  /** `_tokenize`: the scan with the keyword table built from the type
      tables. */
  method ScanTokens(sql: string) returns (tokens: seq<Token>)
    ensures tokens == Classify(Pieces(sql, KeywordOrder))
  {
    var kwords := KeywordOrder;
    KeywordsNonEmpty();
    tokens := ScanPieces(sql, kwords);
  }

  /** `_merge_str_tokens`: collects STR tokens in a buffer and emits them as
      one STR token whenever another token, or the end, is reached. */
  method MergeStrTokens(tokens: seq<Token>) returns (merged: seq<Token>)
    ensures merged == MergeStr(tokens)
  {
    var strTokens: seq<Token> := [];
    merged := [];
    var rest := tokens;
    while rest != []
      invariant merged + MergeFrom(rest, strTokens) == MergeStr(tokens)
    {
      var token := rest[0];
      MergeInvariantStep(tokens, merged, rest, strTokens);
      if token.ttype == Str {
        strTokens := strTokens + [token];
      } else {
        merged := merged + Flushed(strTokens) + [token];
        strTokens := [];
      }
      rest := rest[1..];
    }
    merged := merged + Flushed(strTokens);
  }

  /** `tokenize` */
  method TokenizeSql(sql: string) returns (tokens: seq<Token>)
    ensures tokens == Tokenize(sql)
  {
    var scanned := ScanTokens(sql);
    tokens := MergeStrTokens(scanned);
  }
}
