/** Tokens: the token types, the keyword tables and `Token.from_value`,
    which classifies one scanned piece. */
module Tokens {
  import opened Common

  /** The token categories (class `Type`). */
  datatype TokenType =
    | Compare | From | Group | Having | Join | Keyword | Limit
    | Link | Punctuation | Select | Str | Where | Order

  datatype Token = Token(ttype: TokenType, value: string)

  // ---------------------------------------------------------------------------
  // Keyword tables
  // ---------------------------------------------------------------------------

  const Additional: seq<string> := ["FROM", "WHERE", "LIMIT", "GROUP BY", "HAVING", "ORDER BY"]
  const Compares: seq<string> := ["=", "!=", "IN", "<>", ">", "<", "IS", "LIKE BINARY", "LIKE"]
  const Joins: seq<string> :=
    ["JOIN", "INNER JOIN", "FULL OUTER JOIN", "LEFT OUTER JOIN", "LEFT JOIN", "RIGHT OUTER JOIN", "RIGHT JOIN"]
  const Keywords: seq<string> := ["ON", "NULL", "NOT"]
  const Links: seq<string> := ["AND", "OR"]
  const Selects: seq<string> := ["SELECT DISTINCT", "SELECT SQL_NO_CACHE", "SELECT"]
  const Punctuations: seq<string> := [",", ")", "("]

  /** The order in which the scanner tries the keywords at each position. */
  const KeywordOrder: seq<string> := Additional + Compares + Joins + Keywords + Links + Selects + Punctuations

  // ---------------------------------------------------------------------------
  // Character classes
  // ---------------------------------------------------------------------------

  /** Python's `str.isspace`, which is also what `\s` and `strip()` use. */
  predicate IsSpace(c: char)
  {
    var n := c as int;
    (9 <= n <= 13) || (28 <= n <= 32) || n == 0x85 || n == 0xA0 || n == 0x1680
    || (0x2000 <= n <= 0x200A) || n == 0x2028 || n == 0x2029 || n == 0x202F
    || n == 0x205F || n == 0x3000
  }

  /** `\w` (and `\d`, which it contains), taken as ASCII. */
  predicate IsWordChar(c: char)
  {
    ('a' <= c <= 'z') || ('A' <= c <= 'Z') || ('0' <= c <= '9') || c == '_'
  }

  /** `[\w\d%]` */
  predicate IsCallChar(c: char) { IsWordChar(c) || c == '%' }

  /** `[_\w\d\.`%]` */
  predicate IsNameChar(c: char) { IsWordChar(c) || c == '.' || c == '`' || c == '%' }

  predicate AllSpace(s: string) { forall k :: 0 <= k < |s| ==> IsSpace(s[k]) }

  // ---------------------------------------------------------------------------
  // Token.from_value
  // ---------------------------------------------------------------------------

  function StripLeft(s: string): (r: string)
    ensures |r| <= |s| && r == s[|s| - |r|..]
    ensures r == [] || !IsSpace(r[0])
    ensures AllSpace(s[..|s| - |r|])
  {
    if s != [] && IsSpace(s[0]) then
      var r := StripLeft(s[1..]);
      assert s[..|s| - |r|] == [s[0]] + s[1..][..|s| - 1 - |r|];
      r
    else s
  }

  function StripRight(s: string): (r: string)
    ensures |r| <= |s| && r == s[..|r|]
    ensures r == [] || !IsSpace(r[|r| - 1])
    ensures AllSpace(s[|r|..])
  {
    if s != [] && IsSpace(s[|s| - 1]) then
      var r := StripRight(s[..|s| - 1]);
      assert s[|r|..] == s[..|s| - 1][|r|..] + [s[|s| - 1]];
      r
    else s
  }

  /** Python's `str.strip()`. */
  function Strip(s: string): (r: string)
  {
    StripRight(StripLeft(s))
  }

  /** The stripped text is empty exactly for blank input, and a piece that
      neither starts nor ends with whitespace is left as it is. */
  lemma StripSpec(s: string)
    ensures Strip(s) == [] <==> AllSpace(s)
    ensures s != [] && !IsSpace(s[0]) && !IsSpace(s[|s| - 1]) ==> Strip(s) == s
  {
    var l := StripLeft(s);
    assert l != [] ==> l[0] == s[|s| - |l|];
    if Strip(s) == [] {
      assert AllSpace(l[|Strip(s)|..]);
      assert s == s[..|s| - |l|] + l;
    }
  }

  /** The `ADDITIONAL` dictionary (one word per type) followed by the
      `token_types` dictionary of `Token.from_value`, tried in order. The
      tables are disjoint, so the order does not change the outcome. */
  const TypeTables: seq<(seq<string>, TokenType)> :=
    [(["FROM"], From), (["WHERE"], Where), (["LIMIT"], Limit), (["GROUP BY"], Group),
     (["HAVING"], Having), (["ORDER BY"], Order),
     (Compares, Compare), (Joins, Join), (Keywords, Keyword), (Links, Link),
     (Selects, Select), (Punctuations, Punctuation)]

  function LookupType(v: string, tables: seq<(seq<string>, TokenType)>): TokenType
  {
    if tables == [] then Str
    else if v in tables[0].0 then tables[0].1
    else LookupType(v, tables[1..])
  }

  /** The table a non-blank stripped value belongs to; STR when in none. */
  function TypeOf(v: string): TokenType
  {
    LookupType(v, TypeTables)
  }

  /** `Token.from_value`: None for a blank piece, otherwise the stripped value
      classified by exact membership in the keyword tables. */
  function FromValue(value: string): Option<Token>
  {
    var v := Strip(value);
    if v == [] then None else Some(Token(TypeOf(v), v))
  }
}
