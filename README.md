# format-sql: tokenizer, parser and styler in Dafny

This project models the three stages of format-sql. Together they reformat an SQL query:

- **Tokenizer.** `tokenize` cuts the query into tokens. Each token is a keyword or operator from fixed tables, or a STR token holding everything else. Runs of adjacent STR tokens are merged into one.
- **Parser.** `parse` turns the token list into a tree of statements. A clause keyword (SELECT, FROM, WHERE, LIMIT, ...) owns the statements after it. A parenthesis opens a Sub. `x = y` becomes one Compare.
- **Styler.** `style` lays the tree out. Each clause keyword goes on a line of its own. Its operands go on the lines after it, four spaces further in. Joined tables, AND/OR links and `ON` conditions are appended to the line before. Lines after `ON` are indented by four more spaces.

Every stage has two models:

- A specification function: `Pieces`/`Classify`/`MergeStr` for the tokenizer, `Parse`/`StepAt`/`ParseAt` for the parser, `Style`/`StyleOne`/`Flatten` for the styler.
- An imperative method with the source's loops: `ScanPieces`, `MergeStrTokens`, `ParseTokens`, `StyleLines`, `FlattenLines`.

Each method is proved to compute its function. The styler's result list is a `LineBuffer` class whose `lines` field the methods update in place.

The properties are proved about the functions. They cover:

- **Tokenizer:** the pieces cover the input exactly; the merge keeps the text and every non-STR token, leaves no two STR tokens adjacent, and is idempotent.
- **Parser:** the parse stops exactly at a stop token; its statements spell the consumed tokens in order.
- **Styler:** the behaviour of each branch of the `_style` loop; comma columns; clause layout; the text `_flatten` produces.

Fixtures from the test suite are proved as instances: `select_with_limit` from SQL text to formatted text, the others from their token lists or their statement trees.

Errors are values:

- In the parser, `Stuck` stands for a token no branch of the `_parse` loop handles. The source then never advances.
- In the parser, `MissingOperand` stands for the `IndexError` when STR and COMPARE are the last two tokens.
- In the styler, `None` stands for the `IndexError` or `TypeError` the source raises.

The tokens of `test_parse_can_handle_unknown_combinations` (a second comparison operator with no left operand) reach `Stuck`. So as written, the source does not return on the input that test feeds it. `ParserCases.UnknownCombinationsTest` states this.

## Model

| member | source | states |
|---|---|---|
| Tokens.StripLeft | format_sql/tokenizer.py:71 | the result is a suffix of the input that does not start with whitespace, and only whitespace was removed |
| Tokens.StripRight | format_sql/tokenizer.py:71 | the result is a prefix of the input that does not end with whitespace, and only whitespace was removed |
| Tokens.StripSpec | format_sql/tokenizer.py:71-73 | `strip()` is empty exactly for all-whitespace values, and leaves a value without surrounding whitespace unchanged |
| Tokens.FromValue | format_sql/tokenizer.py:69-98 | `Token.from_value`: strips the value, gives no token for a blank one, and types it by the keyword tables; `FromValueBlank`, `FromValueClass` and `TypeOfStr` state its contract |
| TokenizerFacts.FromValueBlank | format_sql/tokenizer.py:70-73 | `from_value` returns no token exactly when the value is all whitespace |
| TokenizerFacts.FromValueClass | format_sql/tokenizer.py:69-98 | the token holds the stripped value, and it is STR exactly when the stripped value is in no keyword table |
| TokenizerFacts.TypeOfStr | format_sql/tokenizer.py:75-98 | the type lookup yields STR exactly for values in none of the keyword tables |
| TokenizerFacts.TypeOfFound | format_sql/tokenizer.py:75-96 | a non-STR type comes from a table that contains the value |
| TokenizerFacts.LookupTypeStr | format_sql/tokenizer.py:94-98 | walking typed tables falls through to STR exactly when no table holds the value |
| TokenizerFacts.LookupTypeFound | format_sql/tokenizer.py:94-96 | the type found is the type of a table that holds the value |
| TokenizerFacts.TablesAreTyped | format_sql/tokenizer.py:75-93 | no keyword table maps to STR |
| TokenizerFacts.KeywordOrderTables | format_sql/tokenizer.py:137-138 | a value is in some keyword table exactly when it is in the tokenizer's keyword list |
| Tokenizer.FirstKeyword | format_sql/tokenizer.py:144-147 | a keyword found is a whole word at the start of the input |
| Tokenizer.FirstKeywordMiss | format_sql/tokenizer.py:144-148 | the keyword found is from the list; none is found exactly when no keyword of the list starts the input as a whole word |
| Tokenizer.StartsWithWord | format_sql/tokenizer.py:129-133 | `_startswith_and_is_not_partial`: the word starts the input and the input ends there or a space follows; `WholeWordOnly` and `NotWordAt` state its contract |
| TokenizerFacts.WholeWordOnly | format_sql/tokenizer.py:129-133 | a keyword that is a proper prefix counts only when a space follows it |
| TokenizerFacts.NotWordAt | format_sql/tokenizer.py:129-131 | a mismatch inside the keyword means it does not start the input |
| TokenizerFacts.FirstKeywordAppend | format_sql/tokenizer.py:144-147 | searching a concatenated list finds the first list's hit if there is one, else the second's |
| TokenizerFacts.FirstKeywordHit | format_sql/tokenizer.py:144-147 | the first keyword that matches ends the search |
| TokenizerFacts.FirstKeywordMiddle | format_sql/tokenizer.py:137-147 | when the tables before and after have no hit, the middle table decides |
| TokenizerFacts.SelectVariantsOnly | format_sql/tokenizer.py:137-138 | input starting with `S` can only match one of the SELECT variants |
| TokenizerFacts.SelectDistinctIsOneKeyword | format_sql/tokenizer.py:20 | `SELECT DISTINCT` is read as one keyword, not as `SELECT` |
| TokenizerFacts.SelectNoCacheIsOneKeyword | format_sql/tokenizer.py:20 | `SELECT SQL_NO_CACHE` is read as one keyword |
| TokenizerFacts.PlainSelectIsKeyword | format_sql/tokenizer.py:20 | a plain `SELECT` word is the keyword `SELECT` |
| TokenizerFacts.LikeBinaryIsOneKeyword | format_sql/tokenizer.py:15 | `LIKE BINARY` is read as one operator, not as `LIKE` |
| Tokenizer.RunEnd | format_sql/tokenizer.py:28 | a `+` run ends at the first character outside the class and contains only characters of it |
| Tokenizer.LazyUntil | format_sql/tokenizer.py:25-29 | a lazy `.*?` stops at the first closing character, and no newline lies before it |
| Tokenizer.MatchCall | format_sql/tokenizer.py:25 | a call match is at least `w()` long, starts with a word character and ends in `)` |
| Tokenizer.MatchQuoted | format_sql/tokenizer.py:26-29 | a quoted match starts and ends with the quote |
| Tokenizer.MatchParamCall | format_sql/tokenizer.py:27 | a parameter call starts with a call character and ends in `)` or a word character |
| Tokenizer.MatchName | format_sql/tokenizer.py:28 | a name match is non-empty and made of name characters only |
| Tokenizer.MatchSpace | format_sql/tokenizer.py:31 | a whitespace match is non-empty whitespace, and there is none exactly when the input does not start with whitespace |
| Tokenizer.RegexMatch | format_sql/tokenizer.py:32 | the combined expression always matches a non-empty prefix of non-empty input |
| Tokenizer.PieceLength | format_sql/tokenizer.py:141-157 | each pass of the scan consumes at least one and at most all remaining characters |
| Tokenizer.KeywordsNonEmpty | format_sql/tokenizer.py:14-21 | every keyword is non-empty, which is what makes the scan advance |
| Tokenizer.Pieces | format_sql/tokenizer.py:140-157 | the values `val` the scan loop takes, in order; `PiecesCoverInput`, `PieceLength` and `NextPiece` state its contract |
| Tokenizer.Classify | format_sql/tokenizer.py:153-155 | each piece through `Token.from_value`, blank pieces dropped; `ClassifyAppend` and `FromValueBlank` state its contract |
| TokenizerFacts.ClassifyAppend | format_sql/tokenizer.py:141-155 | the tokens of two lists of pieces are the tokens of the first followed by those of the second: each piece is classified on its own |
| TokenizerFacts.PiecesCoverInput | format_sql/tokenizer.py:140-157 | the scanned pieces are non-empty and concatenate back to the input |
| TokenizerFacts.ScanCoversInput | format_sql/tokenizer.py:136-157 | with the tokenizer's keyword list, the pieces concatenate back to the input |
| Tokenizer.MatchKeyword | format_sql/tokenizer.py:144-147 | the `for ... break` loop finds the first keyword that starts the input as a whole word |
| Tokenizer.NextPiece | format_sql/tokenizer.py:142-151 | the value taken at each position is the keyword or the regular-expression match there |
| Tokenizer.ScanPieces | format_sql/tokenizer.py:140-157 | the scan loop yields the tokens of its pieces, in order |
| Tokenizer.ScanTokens | format_sql/tokenizer.py:136-157 | `_tokenize` with the tokenizer's keyword list |
| Tokenizer.MergeFrom | format_sql/tokenizer.py:113-126 | `_merge_str_tokens` continued from a pending buffer; `MergeFromRun`, `MergeFromAllStr` and `MergeFromKeepsText` state its contract |
| Tokenizer.MergeStr | format_sql/tokenizer.py:113-126 | `_merge_str_tokens`; `MergeRun`, `MergeNoAdjacentStr`, `MergeKeepsNonStr`, `MergeKeepsText` and `MergeIdempotent` state its contract |
| Tokenizer.Tokenize | format_sql/tokenizer.py:160-162 | `tokenize`: scan, classify, merge; `TokenizeMerged`, `TokenizeSql` and `ScanCoversInput` state its contract |
| Tokenizer.MergeStrTokens | format_sql/tokenizer.py:113-126 | the merge loop with its buffer computes the merged token list |
| Tokenizer.TokenizeSql | format_sql/tokenizer.py:160-162 | `tokenize` scans, then merges |
| TokenizerFacts.FlushedText | format_sql/tokenizer.py:109-110 | a flushed buffer spells the same words as the buffered tokens |
| TokenizerFacts.MergeNoAdjacentStr | format_sql/tokenizer.py:113-126 | after merging, no two STR tokens are adjacent |
| TokenizerFacts.MergeKeepsNonStr | format_sql/tokenizer.py:113-126 | merging keeps every non-STR token, in order |
| TokenizerFacts.MergeKeepsText | format_sql/tokenizer.py:113-126 | merging keeps the space-separated text of the tokens |
| TokenizerFacts.MergeAllStr | format_sql/tokenizer.py:125-126 | a list of STR tokens becomes one STR token holding their values joined by spaces |
| TokenizerFacts.MergeFromRun | format_sql/tokenizer.py:116-123 | with a pending buffer, a run of STR tokens ended by another token flushes buffer and run as one token, keeps the ending token and merges the rest afresh |
| TokenizerFacts.MergeRun | format_sql/tokenizer.py:113-126 | merging splits at the first non-STR token: the STR run before it becomes one STR token of its values joined by spaces, the token follows, then the merge of the rest |
| TokenizerFacts.MergeFromUnmerged | format_sql/tokenizer.py:113-126 | a list with no two adjacent STR tokens is left unchanged |
| TokenizerFacts.MergeIdempotent | format_sql/tokenizer.py:113-126 | merging twice is merging once |
| TokenizerFacts.TokenizeMerged | format_sql/tokenizer.py:160-162 | `tokenize` leaves no two STR tokens adjacent, and merging its result again changes nothing |
| TokenizerCases.NoKeywordAt | format_sql/tokenizer.py:144-148 | input starting with a character no keyword starts with falls through to the regular expression |
| TokenizerCases.InnerJoinIsOneKeyword | format_sql/tokenizer.py:16 | `INNER JOIN` is one JOIN keyword, not `IN` |
| TokenizerCases.InBeforeParenIsNotKeyword | format_sql/tokenizer.py:129-133 | `IN(` is not the keyword `IN`, because no space follows |
| TokenizerCases.LowerCaseSelectIsStr | format_sql/tokenizer.py:144-155 | lower-case `select` is a STR token: keywords are matched case-sensitively |
| TokenizerCases.UnterminatedQuotePiece | format_sql/tokenizer.py:26-31 | a quote that is never closed is a single-character piece |
| TokenizerCases.CatchAllPiece | format_sql/tokenizer.py:31 | a character no other alternative takes is a piece of its own |
| TokenizerCases.TypeOfClauseWords | format_sql/tokenizer.py:75-84 | SELECT, FROM and LIMIT get their clause types |
| TokenizerCases.SelectStarFromLimitTokens | tests/conftest.py:19-30 | `SELECT * FROM t LIMIT n` tokenizes to the six tokens of `select_with_limit`, for any plain table name and count |
| TokenizerCases.SelectWithLimitTokens | tests/conftest.py:19-30 | the `select_with_limit` query yields its fixture tokens |
| Parser.WithSubStatements | format_sql/parser.py:78-81 | `_cls_with_sub_statements`: the nested parse of the tokens after the token becomes its children, with the same count; `ClsWithSubStatements` and `ClauseText` state its contract |
| Parser.ClsFromDict | format_sql/parser.py:84-112 | `_cls_from_dict`: a clause takes its nested parse and one more token, a plain keyword is a childless statement, anything else yields nothing; `StepClause`, `StepPlain` and `ClassFromDict` state its contract |
| Parser.Parse | format_sql/parser.py:115-168 | `_parse`: the statements and the count; `ParseEmpty`, `ParseEnds`, `NestedHasNoClauses`, `ParseText` and `ParseTokens` state its contract |
| Parser.ParseAt | format_sql/parser.py:122-168 | the loop of `_parse` from an index on; `ParseAtEnds`, `ParseAtText` and `LoopStep` state its contract |
| Parser.ParseTree | format_sql/parser.py:171-173 | `parse`: the statements, or the failure; `ParseStatements` states its contract |
| Parser.StepAt | format_sql/parser.py:122-166 | every pass of the loop that does not fail moves the index forward |
| Parser.StepClause | format_sql/parser.py:84-112 | a clause keyword takes as children the nested parse of the tokens after it; its failure is the step's failure |
| Parser.StepPlain | format_sql/parser.py:95-108 | JOIN, KEYWORD and LINK tokens become childless statements and consume one token |
| Parser.StepCompare | format_sql/parser.py:136-152 | STR, COMPARE, operand becomes one Compare of the three values joined by spaces, consuming three tokens |
| Parser.StepListCompare | format_sql/parser.py:137-152 | STR, COMPARE, punctuation becomes a Compare of two values holding the nested parse from the punctuation on |
| Parser.StepMissingOperand | format_sql/parser.py:137-138 | STR and COMPARE as the last two tokens fail as a missing operand |
| Parser.StepIdentifier | format_sql/parser.py:153-155 | a STR not followed by COMPARE is an Identifier |
| Parser.StepSub | format_sql/parser.py:157-160 | `(` holds the un-nested parse of what follows and skips the closing `)` |
| Parser.StepComma | format_sql/parser.py:162-164 | a comma is a Comma statement |
| ParserFacts.StepStuck | format_sql/parser.py:132-166 | a COMPARE, or punctuation other than `(` and `,`, matches no branch |
| ParserFacts.CompareAtHeadIsStuck | format_sql/parser.py:132-166 | a COMPARE at the head of the loop makes the parse fail as `Stuck` |
| Parser.LoopStep | format_sql/parser.py:122-166 | one pass appends its statements and continues from the new index |
| Parser.PrependTwice | format_sql/parser.py:166 | appending statements in two passes equals appending them at once |
| Parser.ClsWithSubStatements | format_sql/parser.py:78-81 | the method computes its specification function |
| Parser.ClassFromDict | format_sql/parser.py:84-112 | the method computes its specification function, including the `count + 1` |
| Parser.StepTokens | format_sql/parser.py:132-166 | one pass of the loop body yields exactly the statements and next index of `StepAt`, or its failure |
| Parser.ParseTokens | format_sql/parser.py:115-168 | the `while` loop computes `Parse`, the recursive definition the lemmas are about |
| Parser.ParseStatements | format_sql/parser.py:171-173 | `parse` keeps the statements and drops the count |
| ParserFacts.ParseEmpty | format_sql/parser.py:118-119 | no tokens parse to no statements and count 0 |
| ParserFacts.ParseAtEnds | format_sql/parser.py:122-130 | the loop ends at or after its start, at the end of the tokens or at a stop token |
| ParserFacts.ParseEnds | format_sql/parser.py:122-130 | a parse ends at the end of the tokens, at a closing parenthesis, or at a clause keyword when nested |
| ParserFacts.StepOneNode | format_sql/parser.py:132-166 | each pass appends exactly one statement; nested, it is never a clause other than SELECT |
| ParserFacts.NestedHasNoClauses | format_sql/parser.py:126-128 | a nested parse holds no FROM, WHERE, LIMIT, GROUP, HAVING or ORDER statement |
| ParserFacts.CoversAppend | format_sql/parser.py:166 | statements covering consecutive token ranges cover their union |
| ParserFacts.CoversSub | format_sql/parser.py:157-160 | a Sub spells `(`, its children and the `)` it skipped |
| ParserFacts.CoversCompare | format_sql/parser.py:145-150 | a Compare's value spells the tokens joined into it |
| ParserFacts.StepText | format_sql/parser.py:132-166 | one pass's statements spell exactly the tokens it consumed |
| ParserFacts.ClauseText | format_sql/parser.py:78-81 | a clause and its children spell the clause token and the tokens of its nested parse |
| ParserFacts.SubText | format_sql/parser.py:157-160 | a Sub spells the tokens from `(` through its `)` |
| ParserFacts.CompareText | format_sql/parser.py:136-152 | a Compare spells the tokens from its left operand through its operand or list |
| ParserFacts.ParseAtText | format_sql/parser.py:122-168 | the statements of the loop spell, in order, the tokens from the start index to the count |
| ParserFacts.ParseText | format_sql/parser.py:115-168 | the statements spell exactly the consumed tokens, in order, whenever the count does not overshoot |
| ParserCases.IdentifierBeforeClause | format_sql/parser.py:126-130 | in a nested parse, an operand before the next clause keyword is a lone Identifier |
| ParserCases.ClauseOverOperand | format_sql/parser.py:84-112 | a clause with one operand consumes two tokens |
| ParserCases.SelectFromLimitTree | tests/conftest.py:31-35 | SELECT/FROM/LIMIT tokens parse to three clauses of one Identifier each |
| ParserCases.SelectStarFromLimitTree | tests/conftest.py:19-35 | the `select_with_limit` query, tokenized and parsed, gives its fixture statements |
| ParserCases.SelectWithLimitStatements | tests/conftest.py:19-35 | the `select_with_limit` query gives its fixture statements |
| ParserCases.ComparisonTree | format_sql/parser.py:143-152 | `x op y` parses to one Compare `x op y` |
| ParserCases.SelectWithWhereStatements | tests/conftest.py:134-151 | the `select_with_where` tokens parse to its fixture statements |
| ParserCases.PairTree | format_sql/parser.py:153-164 | `p , q )` parses to Identifier, Comma, Identifier and stops at `)` |
| ParserCases.InListTree | format_sql/parser.py:137-150 | `x IN (p, q)` is a Compare `x IN` holding a Sub |
| ParserCases.SelectWithFilterInListStatements | tests/conftest.py:351-380 | the `select_with_filter_in_list` tokens parse to its fixture statements |
| ParserCases.UnknownCombinationStuck | format_sql/parser.py:122-166 | a second operator after a comparison in the FROM operands makes the parse fail as `Stuck` |
| ParserCases.UnknownCombinationsTest | tests/test_parser.py:110-127 | the tokens of that test reach `Stuck`, where the source loops forever |
| ParserCases.UnmatchedParenOvershoots | format_sql/parser.py:157-160 | a lone `(` parses to an empty Sub with count 2, one more than the number of tokens: the skip of the closing `)` happens even when there is none |
| Styler.AddedToLast | format_sql/styler.py:12-18 | `_add_to_last_line` on values; `AddToLastShape`, `AddToTextLine` and `FlattenAddedToLast` state its contract |
| Styler.HasType | format_sql/styler.py:21-26 | `_has_type`: a statement is present and of one of the kinds; `NewLine` and `JoinedToLast` state how the loop uses it |
| Styler.TypeChain | format_sql/styler.py:29-35 | `_has_type_chain`, with `None` for the `IndexError`; `CompareSubChain` states its contract |
| Styler.Placed | format_sql/styler.py:60-78 | the first half of the `_style` loop body; `NewLine`, `JoinedToLast`, `AfterKey` and `CommaEndsLine` state its contract |
| Styler.Nested | format_sql/styler.py:38-51 | `_style_statements`; `ChildrenBlock`, `NestedAfterOn`, `ChildrenFail`, `CompareOverSub` and `CompareOverSubDropsRest` state its contract |
| Styler.StyleOne | format_sql/styler.py:59-85 | one pass of the `_style` loop; `ClauseStep`, `SubBlock` and `SubAlone` state its contract |
| Styler.Style | format_sql/styler.py:54-87 | `_style`; `StyleRunAppend`, `ClausesStyle` and `StyleLines` state its contract |
| Styler.Flatten | format_sql/styler.py:90-99 | `_flatten`; `FlattenRows`, `RenderAppend` and `FlattenLines` state its contract |
| Styler.StyleText | format_sql/styler.py:102-104 | `style`; `StyleTextRows` and `StyleStatementList` state its contract |
| Styler.Spaces | format_sql/styler.py:96 | `' ' * n` is n spaces |
| Styler.LineBuffer.constructor | format_sql/styler.py:55 | a new result list holds the given lines |
| Styler.LineBuffer.Append | format_sql/styler.py:51 | `result.append` adds one item at the end |
| Styler.LineBuffer.AddToLastLine | format_sql/styler.py:12-18 | the in-place recursive update computes `AddedToLast`; on `IndexError` it reports failure and leaves the list as it was |
| StylerFacts.AddToLastShape | format_sql/styler.py:12-18 | the update succeeds exactly when there is a deepest-rightmost string; then only the last item changes, and that string becomes prefix + string + value |
| StylerFacts.AddToTextLine | format_sql/styler.py:17-18 | when the last item is a string, it becomes prefix + string + value |
| StylerFacts.FlattenAddedToLast | format_sql/styler.py:12-18 | in the flattened text, the update rewrites only the last line |
| StylerFacts.LastLineSplit | format_sql/styler.py:90-99 | the text before the last line is the same before and after the update |
| StylerFacts.CompareSubChain | format_sql/styler.py:29-35 | `_has_type_chain(s, [Compare, Sub])` holds exactly for a Compare whose first child is a non-empty Sub, and raises where a statement on the chain has no children |
| Styler.StyleStatements | format_sql/styler.py:38-51 | `_style_statements` on the buffer computes `Nested`, and fails exactly where the source raises |
| Styler.StyleLines | format_sql/styler.py:54-87 | the `_style` loop computes `Style` |
| Styler.FlattenLines | format_sql/styler.py:90-99 | the `_flatten` loop computes `Flatten` |
| Styler.StyleStatementList | format_sql/styler.py:102-104 | `style` flattens the styled lines |
| StylerFacts.StyleRunAppend | format_sql/styler.py:58-85 | styling a list in two parts, threading the state, equals styling it at once |
| StylerFacts.NewLine | format_sql/styler.py:73-78 | a plain statement after a non-linking one starts a new line with the current ON prefix; a Join clears the prefix |
| StylerFacts.JoinedToLast | format_sql/styler.py:63-67 | after a Link or Join, or an Identifier after a Sub, the value goes onto the last line after a space |
| StylerFacts.AfterKey | format_sql/styler.py:69-72 | after a keyword, the value goes onto the last line; after `ON` every later line gets four spaces |
| StylerFacts.CommaEndsLine | format_sql/styler.py:75-76 | a comma is appended to the last line |
| StylerFacts.ChildrenBlock | format_sql/styler.py:38-51 | a statement's children, styled, follow it as one block |
| StylerFacts.NestedAfterOn | format_sql/styler.py:48-51 | after `ON` that block is wrapped one level deeper |
| StylerFacts.ChildrenFail | format_sql/styler.py:42 | a failure inside the children is a failure of the statement |
| StylerFacts.SubBlock | format_sql/styler.py:80-83 | a Sub's children form a block whose last line ends in `)` |
| StylerFacts.CompareOverSub | format_sql/styler.py:44-46 | for a Compare over a Sub, `(` joins the Compare's line and the Sub's contents follow as a block |
| StylerFacts.CompareOverSubDropsRest | format_sql/styler.py:44-46 | for a Compare whose first operand is a Sub, the first styled line joins the Compare's line, the second follows it, and every later line is dropped |
| StylerFacts.SubAlone | format_sql/styler.py:78-83 | a Sub alone is `(` on a line, then its contents, closed by `)` |
| StylerFacts.CommaColumns | format_sql/styler.py:75-78 | identifiers separated by commas give one line each, every line but the last ending in `,` |
| StylerFacts.ClauseStep | format_sql/styler.py:73-80 | a clause keyword is a line of its own followed by the block of its operands |
| StylerFacts.ClauseRun | format_sql/styler.py:58-87 | a run of clauses is keyword, block, keyword, block, ... |
| StylerFacts.ClausesStyle | format_sql/styler.py:54-87 | a statement list of clauses styles to its keywords and their blocks |
| StylerFacts.FlattenClauses | format_sql/styler.py:90-99 | their text is each keyword at the left margin followed by its operands' text four spaces in |
| StylerFacts.FlattenRows | format_sql/styler.py:90-99 | flattening puts every string, in order, on a line of its own after 4·d spaces, d being its depth |
| StylerFacts.RenderAppend | format_sql/styler.py:99 | the rendered text of two row lists is their concatenation |
| StylerCases.RunSteps | format_sql/styler.py:58-85 | the loop's result is the state after the last of a chain of single steps |
| StylerCases.IdentifierLine | format_sql/styler.py:78 | a lone Identifier styles to one line |
| StylerCases.ThreeClauses | format_sql/styler.py:54-87 | three clauses style to three keyword lines and blocks |
| StylerCases.SelectWithLimitStyle | tests/conftest.py:31-44 | the `select_with_limit` statements, for any operands, render to its fixture text |
| StylerCases.SelectWithLimitFormatted | tests/conftest.py:19-44 | the `select_with_limit` query, tokenized, parsed and styled, is its fixture text |
| StylerCases.MultipleColumnsLines | tests/conftest.py:116-131 | `SELECT a, b, c` puts each column on its own line with trailing commas |
| StylerCases.InListLines | tests/conftest.py:372-390 | `x IN (p, q)` is `x IN (` followed by a block of `p,` and `q)` |
| StylerCases.SelectWithFilterInListLines | tests/conftest.py:369-390 | the `select_with_filter_in_list` statements style to its fixture lines |
| StylerCases.LinkedPair | format_sql/styler.py:66-67 | `x LINK y` gives `x` and `LINK y` on the next line |
| StylerCases.SelectWithJoinLines | tests/conftest.py:215-229 | the `select_with_join` statements style to its fixture lines |
| StylerCases.OnCondition | format_sql/styler.py:69-72 | `ON c` is one line indented by four spaces, and the prefix stays set |
| StylerCases.JoinOnLines | tests/conftest.py:251-265 | the FROM operands of `select_with_join_and_on` style to its fixture lines |
| StylerCases.SubAfterOn | format_sql/styler.py:48-83 | a Sub after `ON` joins `ON`'s line and its block is nested two levels deeper |
| StylerCases.SubAfterLink | format_sql/styler.py:66-83 | a Sub after a link joins the link's line and closes with `)` |
| StylerCases.LinkedInParens | format_sql/styler.py:66-78 | the contents of a parenthesis are styled as a statement list of their own |
| StylerCases.JoinWithNestedOnLines | tests/conftest.py:326-346 | the FROM operands of `join_with_nested_on` style to its fixture lines |
| StylerCases.LinkedSub | format_sql/styler.py:66-83 | `c LINK (...)` gives `c`, then `LINK (` and the closed block |
| StylerCases.NestedFiltersLines | tests/conftest.py:278-297 | the WHERE operands of `select_with_join_and_nested_filters` style to its fixture lines |
| StylerFixtures.RenderLines | format_sql/styler.py:90-99 | rendering rows is joining their indented strings, each followed by a newline |
| StylerFixtures.StyleTextRows | format_sql/styler.py:102-104 | `style` is the styled strings, each indented by four spaces per level and followed by a newline |
| StylerFixtures.TwoClauses | format_sql/styler.py:54-87 | two clauses style to two keyword lines and blocks |
| StylerFixtures.SelectWithJoinAndOnText | tests/conftest.py:249-267 | the `select_with_join_and_on` statements, for any operands, render to its fixture text |
| StylerFixtures.SelectWithJoinAndNestedFiltersText | tests/conftest.py:275-299 | the `select_with_join_and_nested_filters` statements, for any operands, render to its fixture text |
| StylerFixtures.JoinWithNestedOnText | tests/conftest.py:324-348 | the `join_with_nested_on` statements, for any operands, render to its fixture text |
| StylerFixtures.SelectWithFilterInListText | tests/conftest.py:369-392 | the `select_with_filter_in_list` statements, for any operands, render to its fixture text |

## Left out

- `normalize_sql` calls into the `sqlparse` library, so it is not modelled. The model starts from normalised text.
- `formatter.py`, `file_handling.py`, `format_sql.py`, `main.py`, `shortcuts.py` and `util.py` are not part of this model. They do file I/O and command-line handling around the three stages.
- `Token.__str__` and `Statement.__str__` are debugging output and are not modelled.
- `\w` and `\d` are modelled as ASCII letters, digits and `_`. Python's Unicode classes are wider.
- Whitespace, for `str.strip()` and `\s`, is the set Python's `str.isspace` accepts: the ASCII controls 9-13 and 28-31, the space, and U+0085, U+00A0, U+1680, U+2000-U+200A, U+2028, U+2029, U+202F, U+205F and U+3000.
- Strings are sequences of characters. There is no encoding.
- Parser.StepAt: the source appends `None` and loops forever on a token no branch handles. The model stops with `Failed(Stuck)` instead.
- Parser.StepAt: the source raises `IndexError` when STR and COMPARE are the last two tokens. The model returns `Failed(MissingOperand)`.
- ParserFacts.ParseText: holds only when the count does not pass the end of the token list. After an unmatched `(`, the source's count counts a `)` that is not there (`ParserCases.UnmatchedParenOvershoots`).
- Styler.Style: `IndexError` and `TypeError` are one outcome, `None`.
- Styler.LineBuffer.AddToLastLine: on `IndexError` the source has already popped items on the way down. The model leaves the list unchanged and reports failure; the caller discards the list either way.
- Nested result lists are values, so aliasing between the lists `_style` builds is not modelled. The source never shares them.
- The shared default `statements=[]` of `Statement` is never mutated by the source, so a fresh empty list per statement is modelled.
- StylerFacts.JoinedToLast, StylerFacts.AfterKey and StylerFacts.CommaEndsLine: these state the new last line and that every earlier item is unchanged, not the whole new list.
- Not every test fixture has a lemma. Those with GROUP BY/HAVING, ORDER BY, sub-selects and several joins are not proved as instances. The general lemmas above cover their steps.
