# Octoscript: verified core

A Dafny model of three parts of Octoscript, with proofs of what their documentation and tests rely on.

**The canonical language front end** (`profile.rs`). The lexer, the recursive-descent parser, the formatter, the
lowering to a VM that ignores newlines, the lexical index, module-alias hints and static record shapes. The lexer,
parser, formatter and collector are classes whose methods update fields in loops, as in the source; each is proved
against a specification on values, and the main results are about the specifications:

* formatting an accepted source keeps its tokens, is accepted again and is idempotent, unless a block comment loses a
  line: a character after a lone `*` in a comment is swallowed, and the formatter trims blanks before line breaks, so a
  comment line that ends in a star and a blank loses its newline token. Each property has its own exact condition:
  tokens at their places (`FormatKeepsPlaces`), formatting to itself (`FormatIsIdempotent`), being accepted again
  (`FormatAccepted`); `StarSwallowsLine` and `StarJoinsStatements` are inputs that fail, and sources without block
  comments always meet them (`NoCommentKeepsLines`);
* lowering keeps the nested statement lists, from token plan through sorted text edits to the re-lexed text, whose
  tokens alone, with their spellings, read back as those lists;
* a source is accepted exactly if it has a derivation that nests within the limit and has none of the few starts the
  parser refuses beyond the grammar (`AcceptedIfAndOnlyIf`), and a text is one token exactly if the lexical rules spell
  it so (`TokenIsSpelled`);
* every blank of the canonical layout is said of the nodes of the derivation, every indentation of the braces open
  there (`NodesLaidOut`, `TreeIndented`);
* the grammar is ambiguous (`if a {}`, `|x| y + x`, a dangling `else`); the parser builds the one derivation whose
  choices the next token forces (`DerivationIsUnique`), and every result about a source is about that one;
* the parser tells the symbol collector exactly the events of its derivation, whose scoping rules are lemmas
  (`ScopeRules`); the interval index answers like a scope stack at every offset, and a capped run is a prefix of the
  uncapped one;
* module-call hints follow `let` aliases: of every accepted source each alias leads to an earlier binding, and an alias
  too deep for the limit takes the hints from its whole group;
* the parser terminates on every token list, restores nesting and scopes on every path, and has never more than a
  constant times the nesting limit of recursive calls in progress (`peak` in the contract of `Parse`);
* the scan for static record shapes finds a record literal exactly if no value of it has a comma outside all brackets
  (`RecordIsFound`; `SeveralParametersHideRecord` is one it misses);
* the string decoder and the string scanner agree on every literal.

**The worker session protocols** (`multiplexed_worker.rs`, `bounded_worker.rs`, `json_line_worker.rs`). A session is a
machine of small steps over all interleavings: host commands, the coordinator taking one event and making one channel
send at a time, the demand-driven reader, and bindings that read two channels in turn. The authorizer, sealer, opener
and runtime may answer anything. Proved over every run: at most one outcome per call and why it was earned, that what was
earned is given (`SessionDeliveries`), the wire discipline, one frame in flight, no handle left waiting, and polls that
agree with the coordinator whichever channel they see first. Supervision and framing are classes with ledgers and
stream contents as ghost state.

**The durable audit journal** (`durable_audits.rs`). The journal is a bounded suffix of an append-only log; its JSON
text is modelled field by field, so that its size bounds are theorems. Proved: refinement of one log, harmless replay,
independence from how a stream is cut into batches, one chain of commits for any number of concurrent writers, and
exactly when a call succeeds, an exact retry above all.

## How the files fit together

| files | subject |
|---|---|
| Tokens, Lexing, ProfileLexer, LexFacts, Tiling | tokens, lexical specification, lexer, stability and tiling of texts |
| StringLiterals | string literal decoding against scanning |
| Grammar, Recogniser, ParseBuilder, ParseShapes, CanonicalParser | grammar, verdict on values, parser with its derivation |
| Choices, OneDerivation | which derivation of an ambiguous source is meant, and that there is only one |
| LexicalGrammar, Completeness | the published rules, and that what follows them is accepted |
| NodeLayout | the canonical layout, node by node |
| LexicalEvents, SymbolEvents, ScopeRules, AliasNotes, AliasEvents | what a derivation tells the collectors |
| Formatting, FormatRoundTrip, SwallowedLines, OperatorSpacing, FinalNewline, CanonicalFormatter, CanonicalSource | formatting |
| LoweringPlan, LoweredStructure, LoweredReading, LoweredText, LoweredEdits, VmLowering | lowering |
| Symbols, SymbolIndex, SymbolTruncation, SymbolCollector, SourceSymbols | lexical index |
| ModuleAliases, ModuleHints, RecordShapes, RecordNodes | import hints, record shapes |
| AuditEvents, AuditJournal, AuditLog, AuditHistory, AuditStore, AuditOutcomes | audit journal and its store |
| JsonLines, OneShotTransport | framing and one-shot exchanges |
| Coordinator, CoordinatorLoop, SessionInvariant, SessionWire, SessionOutcomes, SessionEvidence, SessionEnds, SessionPolls, SessionDeliveries | worker sessions |
| Supervision | process supervision and bounded dispatch |

`dafny verify dfyconfig.toml` checks the whole project.

## Model

| member | source | states |
|---|---|---|
| ProfileLexer.Lexer.Tokenize | crates/octoscript-core/src/profile.rs:1126-1171 | the tokens, the closing End and the clean flag are exactly `Lexing.Tokenized` of the source under the token limit |
| ProfileLexer.Lexer.ScanIdentifier | crates/octoscript-core/src/profile.rs:1264-1282 | performs exactly the identifier step of the lexical specification |
| ProfileLexer.Lexer.ScanNumber | crates/octoscript-core/src/profile.rs:1284-1354 | consumes exactly the number extent and reports exactly when the suffix, fraction, exponent or range is refused |
| ProfileLexer.Lexer.ScanString | crates/octoscript-core/src/profile.rs:1365-1396 | consumes exactly the string extent and reports exactly when an escape or the terminator is wrong |
| ProfileLexer.Lexer.ScanEscapeSequence | crates/octoscript-core/src/profile.rs:1398-1422 | consumes exactly the escape after a backslash, with its verdict |
| ProfileLexer.Lexer.ScanUnicodeEscape | crates/octoscript-core/src/profile.rs:1424-1496 | four-digit and braced escapes, with the same extent and verdict as the specification |
| ProfileLexer.Lexer.ScanSingleQuotedString | crates/octoscript-core/src/profile.rs:1498-1517 | reports and skips to the end of the single-quoted text |
| ProfileLexer.Lexer.SkipBlockComment | crates/octoscript-core/src/profile.rs:1530-1569 | runs the comment modes to the end of the comment; a character after a lone star is swallowed |
| ProfileLexer.Lexer.ScanOperator | crates/octoscript-core/src/profile.rs:1571-1599 | takes the longest run of operator characters and reports unless it is canonical |
| Tiling.LexTiles | crates/octoscript-core/src/profile.rs:1126-1612 | a clean text is gaps and tokens, each gap a walk through blanks, line comments and block comments that ends in code or in front of a line break |
| Tiling.TilesLex | crates/octoscript-core/src/profile.rs:1126-1612 | conversely any such tiling lexes to exactly its tokens |
| Tiling.CutBack | crates/octoscript-core/src/profile.rs:1126-1612 | a text and its token spans determine the gaps between them |
| Tiling.LexInOrder | crates/octoscript-core/src/profile.rs:1197-1216 | token spans lie one after another inside the text, none empty |
| LexFacts.StepStable | crates/octoscript-core/src/profile.rs:1264-1612 | a token scanned without error is scanned the same in front of any text it does not absorb |
| LexicalGrammar.TokenIsSpelled | crates/octoscript-core/src/profile.rs:1173-1612 | the scanner takes a text as one clean token of a kind exactly if the lexical rules spell that kind so |
| LexicalGrammar.SpelledScansBefore | crates/octoscript-core/src/profile.rs:1173-1612 | a well-spelled token is scanned as itself in front of any text it does not absorb |
| StringLiterals.ScannerAgreement | crates/octoscript-core/src/profile.rs:960-1022 | the lexer reports no error for a string literal exactly when the independent decoder succeeds on its text |
| StringLiterals.DecodedValue | crates/octoscript-core/src/profile.rs:960-1022 | for an accepted literal the decoder returns the characters its pieces stand for |
| StringLiterals.PiecesDecode | crates/octoscript-core/src/profile.rs:960-1022 | every documented spelling decodes to its characters |
| StringLiterals.AcceptedHasPieces | crates/octoscript-core/src/profile.rs:1365-1496 | a literal scanned without error is a sequence of documented pieces and a closing quote |
| StringLiterals.RejectedDoesNotDecode | crates/octoscript-core/src/profile.rs:1365-1496 | a literal with a reported error does not decode, wherever the scan stopped |
| StringLiterals.Decode | crates/octoscript-core/src/profile.rs:960-985 | the decoder loop computes `DecodeLiteral` |
| StringLiterals.ReadUnicodeEscape | crates/octoscript-core/src/profile.rs:987-1022 | four-digit and braced escapes decode as specified |
| StringLiterals.ShortEscapes | crates/octoscript-core/src/profile.rs:1398-1422 | the short escapes are the five published ones, with their characters |
| StringLiterals.ScalarsHaveEscapes | crates/octoscript-core/src/profile.rs:987-1022 | every scalar has an escape that decodes to it |
| CanonicalFormatter.Formatter.Format | crates/octoscript-core/src/profile.rs:1701-1769 | the output is the laid-out cut of the source, and the limit error is returned exactly when some check along the way is exceeded |
| CanonicalFormatter.Formatter.FormatToken | crates/octoscript-core/src/profile.rs:1701-1769 | writes the new gap and the token, and moves the layout state past it |
| CanonicalFormatter.Formatter.WriteRawGap | crates/octoscript-core/src/profile.rs:1771-1785 | keeps comment text, drops blanks |
| CanonicalFormatter.Formatter.WriteIndentation | crates/octoscript-core/src/profile.rs:1787-1795 | four blanks per level |
| CanonicalFormatter.Formatter.WriteNewline | crates/octoscript-core/src/profile.rs:1797-1801 | trims blanks before the line break |
| CanonicalFormatter.Formatter.TrimTrailing | crates/octoscript-core/src/profile.rs:1803-1812 | removes exactly the blanks at the end |
| FormatRoundTrip.FormattedTiles | crates/octoscript-core/src/profile.rs:1701-1892 | the formatted text is tiled by the tokens of the source, plus the final newline if one was added, exactly when no line of a block comment ends in a lone star |
| FormatRoundTrip.FormatAgain | crates/octoscript-core/src/profile.rs:1701-1892 | laying out a laid-out text changes nothing |
| FormatRoundTrip.TightIsSafe | crates/octoscript-core/src/profile.rs:1829-1892 | two tokens without a space between them cannot merge |
| OperatorSpacing.AcceptedOperatorsApart | crates/octoscript-core/src/profile.rs:1829-1892 | in every derivable program neighbouring operators are spaced apart |
| FinalNewline.AcceptedWithNewline | crates/octoscript-core/src/profile.rs:239-264 | one more newline at the end does not change the verdict on an accepted token list |
| Tiling.LooseLexes | crates/octoscript-core/src/profile.rs:1530-1569 | a cut whose line breaks may stand behind a star is the cut of the lexer exactly when none does |
| CanonicalSource.FormatKeepsPlaces | crates/octoscript-core/src/profile.rs:239-264 | for every clean source with operators apart the formatted text lexes to the tokens it was written from, each at its place, if and only if no line of a block comment ends, blanks aside, in a lone star |
| CanonicalSource.StarSwallowsLine | crates/octoscript-core/src/profile.rs:1530-1569 | an accepted source with such a line whose formatted text does not format to itself |
| CanonicalSource.FormatKeepsTokens | crates/octoscript-core/src/profile.rs:239-264 | under that condition re-lexing the formatted text gives the same kinds and spellings, and at most one newline more, only when the token budget has room |
| CanonicalSource.FormatIsIdempotent | crates/octoscript-core/src/profile.rs:239-264 | for every clean source with operators apart, formatting the formatted text gives it back if and only if the comments keep their lines, or the final newline had room in the token budget, or the source ends, blanks aside, in a line break |
| CanonicalSource.FormatAgainIsSame | crates/octoscript-core/src/profile.rs:239-264 | if the comments keep their lines the second pass also gives the same cut, and its comments keep their lines |
| SwallowedLines.FormattedFuses | crates/octoscript-core/src/profile.rs:1530-1569 | what a formatted text with swallowed line breaks lexes to: each such break is part of the gap it stands in |
| SwallowedLines.FusedFormats | crates/octoscript-core/src/profile.rs:1701-1892 | laying such a text out again changes no gap |
| CanonicalSource.NoCommentKeepsLines | crates/octoscript-core/src/profile.rs:1530-1569 | a source in which no gap opens a block comment keeps its lines |
| CanonicalSource.FormatAccepted | crates/octoscript-core/src/profile.rs:239-264 | for every clean source with operators apart, the formatted text is accepted if and only if the tokens of the source without the swallowed line breaks, and with the final newline if one is added, are |
| CanonicalSource.FormatIsAccepted | crates/octoscript-core/src/profile.rs:239-264 | so an accepted source whose comments keep their lines stays accepted under the same token and nesting limits |
| CanonicalSource.StarJoinsStatements | crates/octoscript-core/src/profile.rs:1530-1569 | an accepted source with a swallowed line break whose formatted text is refused |
| CanonicalSource.LimitOfFormatted | crates/octoscript-core/src/profile.rs:1814-1823 | the formatted text never trips the output limit it was produced under |
| CanonicalSource.LexOrdered | crates/octoscript-core/src/profile.rs:1126-1171 | the token list handed to the parser has strictly increasing, disjoint spans |
| CanonicalSource.CheckTokens | crates/octoscript-core/src/profile.rs:40-57 | accepts exactly the sources that have a derivation within the nesting limit in which nothing is refused beyond the grammar; their operators are apart and they are laid out by the nodes of that derivation |
| CanonicalSource.FormatCanonicalSource | crates/octoscript-core/src/profile.rs:239-264 | refuses exactly the unaccepted sources; otherwise the text is the canonical one, or the limit is exceeded; every gap of it is the one the derivation calls for (`CanonicalLayout`); a text whose comments keep their lines round-trips, and every text formats again as its exact conditions say |
| Completeness.AcceptedIfAndOnlyIf | crates/octoscript-core/src/profile.rs:2230-2881 | a source with a derivation is accepted if and only if its expressions and blocks nest within the limit and none of its nodes is refused: a condition, iterable or conditional branch that starts with a lambda, or a `try` followed by `catch` |
| Completeness.ExpressionTakes | crates/octoscript-core/src/profile.rs:2439-2464 | of every expression of a derivation the parser takes exactly the tokens, or reports, by that condition |
| Completeness.UnaryTakes | crates/octoscript-core/src/profile.rs:2696-2699 | every unary operator of a derivation is taken without a report |
| Completeness.BinaryTakes | crates/octoscript-core/src/profile.rs:2647-2694 | every level of operators is taken to its end |
| Completeness.RecordTakes | crates/octoscript-core/src/profile.rs:2812-2851 | every record literal of a derivation is taken, with its newlines |
| Completeness.LambdaTakes | crates/octoscript-core/src/profile.rs:2853-2881 | every lambda of a derivation is taken with its body |
| Completeness.ConditionalTakes | crates/octoscript-core/src/profile.rs:2554-2589 | every conditional is taken unless a condition or branch starts with a lambda |
| Completeness.BlockTakes | crates/octoscript-core/src/profile.rs:2251-2295 | every block is taken, one level deeper |
| Completeness.StatementTakes | crates/octoscript-core/src/profile.rs:2297-2317 | every statement in front of a boundary is taken |
| Completeness.ProgramTakes | crates/octoscript-core/src/profile.rs:2230-2245 | a whole program is taken up to the end of the source |
| Completeness.FineMeans | crates/octoscript-core/src/profile.rs:2439-2589 | the condition is depth within the limit and nothing refused at any node |
| NodeLayout.NodesLaidOut | crates/octoscript-core/src/profile.rs:1829-1892 | wherever two children of a node meet on one line without a comment, one blank or nothing stands there as the table `Blank` says of that node |
| NodeLayout.RowSpacing | crates/octoscript-core/src/profile.rs:1829-1892 | the spacing rule on neighbouring tokens agrees with the table on every production of the grammar |
| NodeLayout.LayoutLaws | crates/octoscript-core/src/profile.rs:1829-1892 | nothing in front of the bracket of a call, index or parameter list, around dots, in front of commas and inside round and square brackets, a blank in front of operators; behind operators and commas one exactly if no round bracket follows |
| NodeLayout.TreeIndented | crates/octoscript-core/src/profile.rs:1787-1795 | brackets balance, and every line starts with four blanks for each brace open there |
| NodeLayout.LevelIsOpenBraces | crates/octoscript-core/src/profile.rs:1701-1756 | the running level is the number of braces on the bracket stack |
| NodeLayout.LayoutKeepsComments | crates/octoscript-core/src/profile.rs:1771-1785 | only blanks at the ends of a gap change; comments stay |
| NodeLayout.RoundBracketsAreTight | crates/octoscript-core/src/profile.rs:1862-1864 | a round bracket stands tight behind an operator and behind a comma |
| CanonicalParser.Parser.Parse | crates/octoscript-core/src/profile.rs:2142-2148 | ends at End with nesting and scope depth zero; clean exactly when the recogniser accepts, which is exactly when there is a derivation within the nesting limit with nothing refused (`AcceptedIfAndOnlyIf`); a clean parse derives all tokens from Program, logs exactly the edits of that derivation and tells exactly its events (`EventsOf`), in time order with increasing keys; aliases and imports are the logs of those events; the tree is the one derivation whose choices the tokens force (`Forced`); the calls in progress never exceed 38 times the nesting limit plus one |
| CanonicalParser.Parser.ParseProgram | crates/octoscript-core/src/profile.rs:2230-2245 | follows the recogniser, consumes everything before End |
| CanonicalParser.Parser.ParseStatements | crates/octoscript-core/src/profile.rs:2251-2295 | the statements of a block up to its brace, with whether the last is a value and where its ends start |
| CanonicalParser.Parser.ParseBlock | crates/octoscript-core/src/profile.rs:2251-2295 | a block; in value position its tail edits are logged |
| CanonicalParser.Parser.CloseBranch | crates/octoscript-core/src/profile.rs:2251-2295 | a value tail loses its semicolons, any other tail gets `nil` |
| CanonicalParser.Parser.ParseStatement | crates/octoscript-core/src/profile.rs:2297-2317 | one statement as the grammar derives it |
| CanonicalParser.Parser.ParseImport | crates/octoscript-core/src/profile.rs:2319-2364 | an import path; tells the definition of its last name behind the statement, and logs the import if the statement ends there |
| CanonicalParser.Parser.ParseDeclaration | crates/octoscript-core/src/profile.rs:2366-2388 | a `let`; tells the events of the initializer and then the definition of its name, visible behind the whole declaration |
| CanonicalParser.Parser.ParseFunctionDeclaration | crates/octoscript-core/src/profile.rs:2398-2407 | a function; tells its name, visible from its parameters on, then a scope with parameters and body that ends with it |
| CanonicalParser.Parser.ParseParameterList | crates/octoscript-core/src/profile.rs:2409-2437 | parameters; each name is defined in order, visible from the token behind it |
| CanonicalParser.Parser.ParseExpression | crates/octoscript-core/src/profile.rs:2439-2464 | one nesting level down and back on every path |
| CanonicalParser.Parser.ParseCondition | crates/octoscript-core/src/profile.rs:2466-2480 | an expression that may not start a control expression or lambda |
| CanonicalParser.Parser.ParseTry | crates/octoscript-core/src/profile.rs:2495-2512 | the two arms of a try |
| CanonicalParser.Parser.ParseTryBranch | crates/octoscript-core/src/profile.rs:2514-2544 | a block that ends in a value exactly if it starts with a brace, otherwise an expression |
| CanonicalParser.Parser.ParseIf | crates/octoscript-core/src/profile.rs:2554-2577 | condition, branches, any number of elifs, optional else; takes every `elif` and `else` that follows |
| CanonicalParser.Parser.ParseBranch | crates/octoscript-core/src/profile.rs:2579-2589 | a conditional branch: a block that produces a value exactly if it starts with a brace, otherwise an expression |
| CanonicalParser.Parser.ParseFor | crates/octoscript-core/src/profile.rs:2591-2635 | up to three bindings; tells the events of what it iterates over, then a scope in which the bindings are visible from the first token of the block and which ends with it |
| CanonicalParser.Parser.ParseBody | crates/octoscript-core/src/profile.rs:2637-2645 | a block exactly if it starts with a brace, otherwise an expression |
| CanonicalParser.Parser.ParseBinary | crates/octoscript-core/src/profile.rs:2647-2694 | one precedence level, operands joined by its operators |
| CanonicalParser.Parser.ParseUnary | crates/octoscript-core/src/profile.rs:2696-2699 | a unary operator or a postfix expression; a derivable one is never reported (`UnaryTakes`) |
| CanonicalParser.Parser.ParsePostfix | crates/octoscript-core/src/profile.rs:2701-2722 | a primary and its suffixes |
| CanonicalParser.Parser.ParseCall | crates/octoscript-core/src/profile.rs:2724-2746 | arguments and the closing bracket |
| CanonicalParser.Parser.ParsePrimary | crates/octoscript-core/src/profile.rs:2748-2786 | literal, name, group, array, record or lambda, or a report |
| CanonicalParser.Parser.ParseArray | crates/octoscript-core/src/profile.rs:2788-2810 | array elements |
| CanonicalParser.Parser.ParseRecord | crates/octoscript-core/src/profile.rs:2812-2851 | record members with commas or newlines |
| CanonicalParser.Parser.ParseLambda | crates/octoscript-core/src/profile.rs:2853-2881 | bars, names and body; tells a scope around them, with each parameter defined as a lambda parameter |
| CanonicalParser.Parser.RequireStatementEnd | crates/octoscript-core/src/profile.rs:2883-2891 | ends, the end of the source, or a report and a resynchronisation |
| CanonicalParser.Parser.SynchronizeStatement | crates/octoscript-core/src/profile.rs:2893-2902 | skips to the next statement boundary |
| CanonicalParser.Parser.RecordBoundary | crates/octoscript-core/src/profile.rs:2910-2948 | logs one `;` beside the next real token, unless the line has a semicolon of its own or the source ends |
| CanonicalParser.Parser.TakePlainIdentifier | crates/octoscript-core/src/profile.rs:2987-3003 | a name that is not reserved, or a report |
| CanonicalParser.Parser.DefineSymbol | crates/octoscript-core/src/profile.rs:3018-3026 | adds exactly the definition of the name at the given token with its kind, name and span, visible from the current token on |
| CanonicalParser.Parser.DefineLet | crates/octoscript-core/src/profile.rs:2366-2388 | adds the definition of a `let`, and notes an alias exactly when its initializer is a name with up to two fields |
| CanonicalParser.Parser.DefineImport | crates/octoscript-core/src/profile.rs:2319-2364 | adds the definition of an import, and notes it exactly when the statement ends behind it |
| CanonicalParser.Parser.ReferenceSymbol | crates/octoscript-core/src/profile.rs:3052-3059 | adds exactly the reference event of the name at the given token |
| CanonicalParser.Parser.PushSymbolScope | crates/octoscript-core/src/profile.rs:3005-3009 | adds exactly one opening scope event |
| CanonicalParser.Parser.PopSymbolScope | crates/octoscript-core/src/profile.rs:3011-3016 | adds exactly the closing scope event at the start of the current token |
| CanonicalParser.Parser.EnterNesting | crates/octoscript-core/src/profile.rs:3121-3132 | one level deeper, with a report beyond the limit |
| CanonicalParser.Parser.LeaveNesting | crates/octoscript-core/src/profile.rs:3134-3136 | back to the level before |
| CanonicalParser.Parser.Advance | crates/octoscript-core/src/profile.rs:3111-3115 | one token further, never past End |
| Recogniser.ParseProgram | crates/octoscript-core/src/profile.rs:2230-2245 | on every token list ending in End it terminates, stays inside the list, never moves back and returns to its entry nesting |
| Recogniser.ParseBlock | crates/octoscript-core/src/profile.rs:2251-2295 | on every token list ending in End it terminates, stays inside the list, never moves back and returns to its entry nesting |
| Recogniser.ParseStatement | crates/octoscript-core/src/profile.rs:2297-2317 | on every token list ending in End it terminates, stays inside the list, never moves back and returns to its entry nesting |
| Recogniser.ParseImport | crates/octoscript-core/src/profile.rs:2319-2364 | on every token list ending in End it terminates, stays inside the list, never moves back and returns to its entry nesting |
| Recogniser.ParseDeclaration | crates/octoscript-core/src/profile.rs:2366-2388 | on every token list ending in End it terminates, stays inside the list, never moves back and returns to its entry nesting |
| Recogniser.ParseFunctionDeclaration | crates/octoscript-core/src/profile.rs:2398-2407 | on every token list ending in End it terminates, stays inside the list, never moves back and returns to its entry nesting |
| Recogniser.ParseParameterList | crates/octoscript-core/src/profile.rs:2409-2437 | on every token list ending in End it terminates, stays inside the list, never moves back and returns to its entry nesting |
| Recogniser.ParseExpression | crates/octoscript-core/src/profile.rs:2439-2464 | on every token list ending in End it terminates, stays inside the list, never moves back and returns to its entry nesting |
| Recogniser.ParseCondition | crates/octoscript-core/src/profile.rs:2466-2480 | on every token list ending in End it terminates, stays inside the list, never moves back and returns to its entry nesting |
| Recogniser.ParseTry | crates/octoscript-core/src/profile.rs:2495-2512 | on every token list ending in End it terminates, stays inside the list, never moves back and returns to its entry nesting |
| Recogniser.ParseTryBranch | crates/octoscript-core/src/profile.rs:2514-2544 | on every token list ending in End it terminates, stays inside the list, never moves back and returns to its entry nesting |
| Recogniser.ParseIf | crates/octoscript-core/src/profile.rs:2554-2577 | on every token list ending in End it terminates, stays inside the list, never moves back and returns to its entry nesting |
| Recogniser.ParseBranch | crates/octoscript-core/src/profile.rs:2579-2589 | on every token list ending in End it terminates, stays inside the list, never moves back and returns to its entry nesting |
| Recogniser.ParseFor | crates/octoscript-core/src/profile.rs:2591-2635 | on every token list ending in End it terminates, stays inside the list, never moves back and returns to its entry nesting |
| Recogniser.ParseBody | crates/octoscript-core/src/profile.rs:2637-2645 | on every token list ending in End it terminates, stays inside the list, never moves back and returns to its entry nesting |
| Recogniser.ParseBinary | crates/octoscript-core/src/profile.rs:2647-2694 | on every token list ending in End it terminates, stays inside the list, never moves back and returns to its entry nesting |
| Recogniser.ParseUnary | crates/octoscript-core/src/profile.rs:2696-2699 | on every token list ending in End it terminates, stays inside the list, never moves back and returns to its entry nesting |
| Recogniser.ParsePostfix | crates/octoscript-core/src/profile.rs:2701-2722 | on every token list ending in End it terminates, stays inside the list, never moves back and returns to its entry nesting |
| Recogniser.ParseCall | crates/octoscript-core/src/profile.rs:2724-2746 | on every token list ending in End it terminates, stays inside the list, never moves back and returns to its entry nesting |
| Recogniser.ParsePrimary | crates/octoscript-core/src/profile.rs:2748-2786 | on every token list ending in End it terminates, stays inside the list, never moves back and returns to its entry nesting |
| Recogniser.ParseArray | crates/octoscript-core/src/profile.rs:2788-2810 | on every token list ending in End it terminates, stays inside the list, never moves back and returns to its entry nesting |
| Recogniser.ParseRecord | crates/octoscript-core/src/profile.rs:2812-2851 | on every token list ending in End it terminates, stays inside the list, never moves back and returns to its entry nesting |
| Recogniser.ParseLambda | crates/octoscript-core/src/profile.rs:2853-2881 | on every token list ending in End it terminates, stays inside the list, never moves back and returns to its entry nesting |
| Recogniser.RequireStatementEnd | crates/octoscript-core/src/profile.rs:2883-2902 | on every token list ending in End it terminates, stays inside the list, never moves back and returns to its entry nesting |
| OneDerivation.DerivationIsUnique | crates/octoscript-core/src/profile.rs:2142-2148 | the tokens of a source have at most one derivation with forced choices, so whatever is stated of the derivation of a source is fixed by the source |
| OneDerivation.SameTree | crates/octoscript-core/src/profile.rs:2439-2881 | two such derivations of one symbol at one place are the same tree |
| OneDerivation.KidChosen | crates/octoscript-core/src/profile.rs:2439-2881 | every child of such a derivation is the one that the children in front of it and the tokens ahead select |
| OneDerivation.LineOrStatement | crates/octoscript-core/src/profile.rs:2230-2245 | whether the last statement of a source is a line of its own is settled by what follows its ends |
| OneDerivation.BraceOpensBlock | crates/octoscript-core/src/profile.rs:2579-2589 | in every node of a derivation a brace where a block may stand opens one, and only a brace does |
| ScopeRules.LetVisibleBehind | crates/octoscript-core/src/profile.rs:2366-2388 | in every derivation a `let` says what its initializer says, and then its name is visible behind the whole declaration: not in its own initializer |
| ScopeRules.ImportBindsLastName | crates/octoscript-core/src/profile.rs:2319-2364 | an import says one thing: its last name, visible behind the statement |
| ScopeRules.FunctionVisibleInside | crates/octoscript-core/src/profile.rs:2398-2407 | a function is visible before its parameters and its body, which share a scope that ends with it |
| ScopeRules.BindingsVisibleInBlock | crates/octoscript-core/src/profile.rs:2591-2635 | what a `for` iterates over is outside its scope; its bindings are visible from the first token of the block, and the scope ends with it |
| ScopeRules.LambdaHasScope | crates/octoscript-core/src/profile.rs:2853-2881 | a lambda says, inside a scope that ends with it, its parameters one by one and then what its body says from its own first token on |
| AliasEvents.TreeSound | crates/octoscript-core/src/profile.rs:2366-2396 | in the events of every derivation each definition has a name token of its own, no two share one, and a plain alias is defined only after the use of its target |
| AliasEvents.ValueNameFirst | crates/octoscript-core/src/profile.rs:2647-2786 | an expression that starts with a name is that name alone, or goes on with an operator or an opening bracket |
| AliasNotes.FindTarget | crates/octoscript-core/src/profile.rs:1927-1985 | the loop finds exactly a name with up to two fields in front of a statement end |
| LoweredStructure.PlanGivesWords | crates/octoscript-core/src/profile.rs:2251-2295 | applying the planned edits to the tokens of a derivation and erasing newlines gives the token kinds of its statement structure, literals with their spellings |
| LoweredReading.LoweredReadsBack | crates/octoscript-core/src/profile.rs:2155-2198 | reading those tokens, split at `;` alone and nested at every brace, gives back the same nested statement lists; each conditional block ends in an unterminated value, which is `nil` exactly where its tail was none |
| LoweredText.LowLexes | crates/octoscript-core/src/profile.rs:2155-2198 | the edited text lexes to exactly the edited tokens, literals with their spellings, block comments included |
| LexFacts.LexSpells | crates/octoscript-core/src/profile.rs:1126-1612 | the text of every token but a newline is the spelling its kind carries |
| LoweredEdits.SortGivesPlan | crates/octoscript-core/src/profile.rs:2155-2198 | stably sorting separators and tail edits by position puts them in the order of the plan |
| LoweredEdits.AppliedIsLow | crates/octoscript-core/src/profile.rs:2155-2198 | applying the sorted edits span by span gives the edited text |
| VmLowering.ApplyEdits | crates/octoscript-core/src/profile.rs:2155-2198 | the copying loop applies exactly the given edits |
| VmLowering.CountIsLogged | crates/octoscript-core/src/profile.rs:2155-2198 | the reported count is the number of tokens inserted |
| VmLowering.LowerCanonicalSource | crates/octoscript-core/src/profile.rs:59-76 | refuses exactly the unaccepted sources; the tokens of the lowered text alone, split at `;` and nested at every brace, read as the statement lists of the one derivation of the source with every spelling kept, and their number grows by at most the one reported |
| VmLowering.LoweringIsFixed | crates/octoscript-core/src/profile.rs:59-76 | two texts that keep the structure of a source have the same tokens, newlines aside, and the same derivation behind them |
| SymbolCollector.SymbolCollector.PushScope | crates/octoscript-core/src/profile.rs:483-485 | the push step of the collector specification |
| SymbolCollector.SymbolCollector.PopScope | crates/octoscript-core/src/profile.rs:487-495 | ends the symbols of the scope at the given position |
| SymbolCollector.SymbolCollector.Define | crates/octoscript-core/src/profile.rs:497-525 | records a definition unless the cap is reached; a redefinition ends the earlier binding of the scope |
| SymbolCollector.SymbolCollector.Refer | crates/octoscript-core/src/profile.rs:527-544 | records a reference on the innermost binding, or a completion site only |
| SymbolCollector.SymbolCollector.RecordCompletionSite | crates/octoscript-core/src/profile.rs:546-555 | sites are capped separately |
| SymbolCollector.SymbolCollector.ReserveOccurrence | crates/octoscript-core/src/profile.rs:557-567 | counts up to the cap, then sets the truncated flag |
| SymbolCollector.SymbolCollector.Finish | crates/octoscript-core/src/profile.rs:578-590 | closes all scopes at the end and sorts by definition |
| SymbolCollector.VisibleSymbolIn | crates/octoscript-core/src/profile.rs:866-879 | returns the visible symbol of that name with the largest key |
| SymbolCollector.CollectEvents | crates/octoscript-core/src/profile.rs:471-591 | feeding a run of events gives the specified report |
| Symbols.ResolveIsLastOpen | crates/octoscript-core/src/profile.rs:527-544 | what the scope stack resolves is the last open symbol of that name |
| SymbolIndex.IndexAgreesWithStack | crates/octoscript-core/src/profile.rs:866-879 | for every name and offset the interval lookup gives exactly the symbol the scope stack resolves once all events at or before that offset are done |
| SymbolIndex.UseIsRecorded | crates/octoscript-core/src/profile.rs:527-544 | a use is among the references of the symbol that a lookup at the use finds |
| SymbolIndex.KnownByStart | crates/octoscript-core/src/profile.rs:497-525 | if no two events define at the same place, a finished symbol is known by where it is defined |
| SymbolIndex.ReferencesLieInside | crates/octoscript-core/src/profile.rs:527-544 | every recorded reference lies inside the interval of its symbol |
| SymbolTruncation.RunRecorded | crates/octoscript-core/src/profile.rs:497-567 | the counter is the number of recorded occurrences |
| SymbolTruncation.RunCounted | crates/octoscript-core/src/profile.rs:557-567 | it equals symbols plus references |
| SymbolTruncation.TruncationIsPrefix | crates/octoscript-core/src/profile.rs:497-567 | under the cap the recorded occurrences are the first ones of the uncapped run in time order, and the flag is set exactly when there are more |
| SymbolTruncation.SitesAreReferences | crates/octoscript-core/src/profile.rs:546-555 | the completion sites are the first references of the run, resolved or not, and the flag says that there were more |
| SourceSymbols.CollectSymbols | crates/octoscript-core/src/profile.rs:2200-2207 | end to end: for an accepted source the report is that of the events of its one derivation; scopes balance, references lie inside, and an untruncated report answers like the scope stack at every offset |
| SourceSymbols.ReadSource | crates/octoscript-core/src/profile.rs:2200-2225 | one pass gives tokens, symbols, imports and aliases, all of the same events; for an accepted source those of its one derivation |
| ModuleAliases.BuildTargets | crates/octoscript-core/src/profile.rs:741-805 | each alias leads to the visible binding of the name it was given |
| ModuleAliases.ImportedBinding | crates/octoscript-core/src/profile.rs:837-864 | the bounded, visited-checked loop is the depth-limited chain |
| ModuleAliases.CycleHasNoImport | crates/octoscript-core/src/profile.rs:837-864 | a walk that comes back without an import never meets one |
| ModuleAliases.ChainIsReach | crates/octoscript-core/src/profile.rs:837-864 | in any index the bounded chain finds an import if and only if it is at most that many alias steps away and the first one met |
| ModuleAliases.WalkDescends | crates/octoscript-core/src/profile.rs:837-864 | where aliases lead to earlier bindings no chain turns back |
| ModuleAliases.BuildIndex | crates/octoscript-core/src/profile.rs:741-805 | the index of a source, its tokens and the reports on it |
| ModuleHints.TargetsDescend | crates/octoscript-core/src/profile.rs:741-805 | in the index built from the events of a derivation every alias leads to a binding defined earlier in the source |
| ModuleHints.RunEdgesAreUses | crates/octoscript-core/src/profile.rs:741-805 | in that index every alias is found under its target, which is a recorded use of the binding it stands for and no call |
| ModuleAliases.IsStable | crates/octoscript-core/src/profile.rs:893-913 | true exactly when every use of every member is a group-internal alias or a direct call |
| ModuleAliases.HintFor | crates/octoscript-core/src/profile.rs:881-891 | gives the import exactly when the receiver stands for it and its group is stable |
| ModuleAliases.HintMeaning | crates/octoscript-core/src/profile.rs:683-729 | there is a hint exactly if the visible name is the import or an alias reaching it within the limit, and every use of every name standing for the import is such an alias or a direct call |
| ModuleHints.OverDeepAliasDisablesGroup | crates/octoscript-core/src/profile.rs:893-913 | in the index of every run, an alias that reaches an import only beyond the depth limit takes the hints from its whole group |
| ModuleHints.CallHints | crates/octoscript-core/src/profile.rs:683-729 | the hints are those of the receivers in order, cut at the limit, with the flag exactly when there are more |
| ModuleHints.CollectCallHints | crates/octoscript-core/src/profile.rs:206-232 | end to end: no hints for a refused source or an incomplete report; otherwise the hints of the index of its one derivation, in which aliases lead to earlier bindings, and none for an import that some alias reaches only beyond the depth limit |
| RecordShapes.DirectRecordFields | crates/octoscript-core/src/profile.rs:1987-2107 | the three-counter scan computes `RecordAt` |
| RecordShapes.ReadMember | crates/octoscript-core/src/profile.rs:1987-2107 | one member and the shape of its value |
| RecordShapes.ScanToEnd | crates/octoscript-core/src/profile.rs:1987-2107 | from a value to its separator or to the closing brace |
| RecordShapes.ScanStops | crates/octoscript-core/src/profile.rs:1987-2107 | on balanced brackets the counters stop only directly inside the record or at its own brace |
| RecordShapes.RecordMatchesBrace | crates/octoscript-core/src/profile.rs:1987-2107 | the closing index is the brace that matches the opening one, and every field stands directly inside |
| RecordShapes.RecordFacts | crates/octoscript-core/src/profile.rs:1902-1925 | fields are unique and in source order, nested shapes only under retained fields and only without duplicates, depth within the limit |
| RecordShapes.RecordListsMembers | crates/octoscript-core/src/profile.rs:1987-2107 | the fields are the first occurrences of the members, and duplicates are flagged exactly when some member repeats |
| RecordNodes.RecordIsFound | crates/octoscript-core/src/profile.rs:1987-2107 | for every record literal of a derivation the scan succeeds if and only if no value of it has a lambda with several parameters or a loop with several bindings outside all brackets; it then ends at the brace of the literal and has found exactly its members |
| RecordNodes.SeveralParametersHideRecord | crates/octoscript-core/src/profile.rs:1987-2107 | a record literal the scan does not find |
| RecordNodes.ScanFlat | crates/octoscript-core/src/profile.rs:1987-2107 | outside brackets the scan passes a whole expression, or stops behind its first bare comma |
| AuditEvents.ValidateBatch | crates/octoscript-capabilities/src/durable_audits.rs:425-450 | no error exactly for batches of valid, contiguous events up to their cursor; otherwise the first error in checking order |
| AuditEvents.BatchProblemMeans | crates/octoscript-capabilities/src/durable_audits.rs:425-450 | the checks together mean contiguity and validity |
| AuditEvents.EventProblemMeans | crates/octoscript-capabilities/src/lib.rs:1878-1910 | the checks on one event find nothing exactly in the valid ones |
| AuditEvents.EventTextWidth | crates/octoscript-capabilities/src/lib.rs:1849-1910 | the text of one valid event has at most 400 characters |
| AuditEvents.EventsTextGrows | crates/octoscript-capabilities/src/durable_audits.rs:368-373 | appending events never shortens the event list text |
| AuditJournal.CapabilityAuditJournal.constructor | crates/octoscript-capabilities/src/durable_audits.rs:106-120 | an empty journal at the segment start |
| AuditJournal.CapabilityAuditJournal.Validate | crates/octoscript-capabilities/src/durable_audits.rs:310-366 | no error exactly for well-formed journals within their limits; otherwise the first error in checking order |
| AuditJournal.JournalProblemMeans | crates/octoscript-capabilities/src/durable_audits.rs:310-366 | the checks together mean the well-formedness predicate |
| AuditJournal.CapabilityAuditJournal.AppendBatchInner | crates/octoscript-capabilities/src/durable_audits.rs:228-280 | gap, replay and overlap errors leave the journal alone; otherwise the unseen events follow |
| AuditJournal.CapabilityAuditJournal.TrimToLimits | crates/octoscript-capabilities/src/durable_audits.rs:282-308 | drops from the front until the journal fits |
| AuditJournal.CapabilityAuditJournal.AppendBatch | crates/octoscript-capabilities/src/durable_audits.rs:205-226 | a refused batch changes nothing; an accepted one gives the specified journal and count |
| AuditLog.AppendRefines | crates/octoscript-capabilities/src/durable_audits.rs:205-308 | a journal that refines a log refuses a batch exactly when it is malformed, reaches before retention, leaves a gap or contradicts the log; otherwise the result is the joined log cut at the first suffix that fits, and neither the size check nor the last validation can refuse |
| AuditLog.TrimmedIsFirstFit | crates/octoscript-capabilities/src/durable_audits.rs:282-308 | trimming stops at the first suffix that fits |
| AuditLog.FirstFitMeans | crates/octoscript-capabilities/src/durable_audits.rs:282-308 | every longer suffix does not fit |
| AuditLog.FirstFitKeepsOne | crates/octoscript-capabilities/src/durable_audits.rs:282-308 | one event always fits, so trimming never runs dry |
| AuditLog.FirstFitLater | crates/octoscript-capabilities/src/durable_audits.rs:282-308 | where an earlier log did not fit, a longer one does not either |
| AuditLog.JoinedExtends | crates/octoscript-capabilities/src/durable_audits.rs:228-280 | the joined log is the old log with the unseen events behind it |
| AuditLog.OverlapProblemMeans | crates/octoscript-capabilities/src/durable_audits.rs:247-266 | the overlap loop passes exactly when every shared sequence holds the same event |
| AuditHistory.ReplayIsHarmless | crates/octoscript-capabilities/src/durable_audits.rs:205-226 | a batch already in the log appends zero events or is refused as before retention |
| AuditHistory.AcceptedIsInside | crates/octoscript-capabilities/src/durable_audits.rs:205-226 | an accepted batch is in the log afterwards |
| AuditHistory.RunRefines | crates/octoscript-capabilities/src/durable_audits.rs:205-226 | every journal a run of appends reaches is the retained suffix of one growing contiguous log, and dropped plus retained is next minus segment start |
| AuditHistory.FixedCapacityKeepsLongest | crates/octoscript-capabilities/src/durable_audits.rs:282-308 | under one capacity what is retained depends only on the log: the longest suffix that fits |
| AuditHistory.SomeHistory | crates/octoscript-capabilities/src/durable_audits.rs:310-366 | every valid journal is the retained suffix of some contiguous log |
| AuditHistory.GluedAppend | crates/octoscript-capabilities/src/durable_audits.rs:205-308 | two adjacent batches do what their concatenation does, errors included |
| AuditHistory.GroupingDoesNotMatter | crates/octoscript-capabilities/src/durable_audits.rs:205-308 | a contiguous stream cut into batches in any way gives the journal, count and refusal of appending it at once |
| AuditHistory.CutsAgree | crates/octoscript-capabilities/src/durable_audits.rs:205-308 | two cuts of the same stream agree |
| AuditStore.AppendBatch | crates/octoscript-capabilities/src/durable_audits.rs:778-852 | the retry loop settles as the attempt steps say, for every sequence of storage replies; what the steps decide is `LoadDecides` and the lemmas of `AuditOutcomes` |
| AuditStore.CheckLoaded | crates/octoscript-capabilities/src/durable_audits.rs:736-770 | hands a stored journal on exactly when it is valid and of the configured stream and segment |
| AuditStore.WritersShareOneChain | crates/octoscript-capabilities/src/durable_audits.rs:778-852 | over every interleaving of any number of writers the commits form one chain of strictly growing logs; a success has its batch in the log at its revision; a call is contended only after four other writes; a refusal has its reason at some revision during the call |
| AuditStore.CommitsOnlyGrow | crates/octoscript-capabilities/src/durable_audits.rs:778-852 | a committed revision is never taken back or replaced |
| AuditStore.NothingIsLost | crates/octoscript-capabilities/src/durable_audits.rs:778-852 | what an earlier revision holds under a sequence a later one holds too, unless it counts it as dropped |
| AuditStore.SuccessIsPermanent | crates/octoscript-capabilities/src/durable_audits.rs:778-852 | the batch of a successful call stays in the log of every later revision |
| AuditStore.AppendOfConfig | crates/octoscript-capabilities/src/durable_audits.rs:222-225 | what an append returns has passed validation under its capacity, in the same stream and segment |
| AuditStore.ConflictKeeps | crates/octoscript-capabilities/src/durable_audits.rs:835-846 | a conflict means another write went through since the load |
| AuditStore.LoadDecides | crates/octoscript-capabilities/src/durable_audits.rs:794-816 | against the log behind the register: a batch the log has succeeds at the loaded revision, one that continues it is written, and every other one is refused with its reason |
| AuditStore.RefusalMeans | crates/octoscript-capabilities/src/durable_audits.rs:228-280 | a well-formed batch is refused only for a gap, for starting before what is retained, or for contradicting the log |
| AuditOutcomes.LoadOutcome | crates/octoscript-capabilities/src/durable_audits.rs:794-816 | in every run a load ends as a success exactly if the batch is already stored, goes on to write exactly if it brings something new, and commits nothing |
| AuditOutcomes.WriteSucceeds | crates/octoscript-capabilities/src/durable_audits.rs:818-834 | in every run a batch with something new, written with no commit since its load, is committed and its call succeeds at the next revision |
| AuditOutcomes.RetryIsIdempotent | crates/octoscript-capabilities/src/durable_audits.rs:773-816 | in every run an exact retry of a successful batch that is still retained succeeds at the current revision and commits nothing |
| AuditOutcomes.FailureHasReason | crates/octoscript-capabilities/src/durable_audits.rs:778-852 | in every run a failed call was failed by storage, contended by four writes, malformed, or refused at some revision for a stated reason |
| JsonLines.ReadJsonLine | crates/octoscript-capabilities/src/json_line_worker.rs:594-641 | line or error class depend only on the bytes, not on the pieces; exactly the line and its newline are consumed; at most limit plus one bytes are held |
| JsonLines.JsonLineWorkerChannel.SendFrame | crates/octoscript-capabilities/src/json_line_worker.rs:79-88 | succeeds exactly if the message encodes, the line fits and the flush works, and says which of them failed; what is written is whole frames, torn only on a poisoned channel; every failure poisons |
| JsonLines.JsonLineWorkerChannel.ReceiveFrame | crates/octoscript-capabilities/src/json_line_worker.rs:90-100 | the next line decoded, or an error that poisons |
| JsonLines.ReceiveInOrder | crates/octoscript-capabilities/src/json_line_worker.rs:107-121 | every frame sequence the sender wrote is received in order, however the stream is cut |
| JsonLines.ReadsFirst | crates/octoscript-capabilities/src/json_line_worker.rs:594-641 | a frame in front of any tail is read as itself |
| OneShotTransport.OneShotOperationTransport.Run | crates/octoscript-capabilities/src/json_line_worker.rs:388-490 | an exchange succeeds exactly when every check passes and the answer is of the kind asked for; the transport is completed or poisoned and never used again |
| OneShotTransport.OneShotOperationTransport.Exchange | crates/octoscript-capabilities/src/json_line_worker.rs:492-506 | at most one frame is handed to the channel |
| OneShotTransport.OneShotOperationTransport.Discard | crates/octoscript-capabilities/src/json_line_worker.rs:377-379 | poisons without sending |
| CoordinatorLoop.CoordinatorLoop.HandleWorkerMessage | crates/octoscript-capabilities/src/multiplexed_worker.rs:1313-1401 | the sends, their order and the new active call are those of the session step, whose results are pinned by the lemmas of `SessionDeliveries`; an error leaves the call to be failed |
| CoordinatorLoop.CoordinatorLoop.HandleFrame | crates/octoscript-capabilities/src/multiplexed_worker.rs:1266-1308 | one frame handled as the session step does, with stop, demand and close answer |
| CoordinatorLoop.CoordinatorLoop.FailActive | crates/octoscript-capabilities/src/multiplexed_worker.rs:1451-1460 | the invocation is told first, then the pending cancellation |
| SessionInvariant.StepKeeps | crates/octoscript-capabilities/src/multiplexed_worker.rs:1153-1310 | every step of host, coordinator, reader or binding keeps the invariant between stages, pending sends, queue and channels |
| SessionInvariant.RunKeeps | crates/octoscript-capabilities/src/multiplexed_worker.rs:1153-1310 | so it holds in every reachable state |
| SessionInvariant.FailAllKeeps | crates/octoscript-capabilities/src/multiplexed_worker.rs:1451-1460 | failing the active call tells both holders once and leads out |
| SessionInvariant.TakeDispositionKeeps | crates/octoscript-capabilities/src/multiplexed_worker.rs:1346-1395 | each disposition agrees with the outcome decided with it |
| SessionWire.WireDiscipline | crates/octoscript-capabilities/src/multiplexed_worker.rs:1145-1310 | every run is accepted by the wire monitor, and at most one frame is asked for, being read or queued |
| SessionWire.InvokesAlternate | crates/octoscript-capabilities/src/multiplexed_worker.rs:1158-1189 | between two invokes the first is resolved |
| SessionWire.CancelsAlternate | crates/octoscript-capabilities/src/multiplexed_worker.rs:1190-1243 | between two cancels the first is resolved |
| SessionWire.CancelNamesUnresolved | crates/octoscript-capabilities/src/multiplexed_worker.rs:1190-1243 | every cancel names the request and tool of an unresolved invocation |
| SessionWire.NothingAfterClose | crates/octoscript-capabilities/src/multiplexed_worker.rs:1244-1258 | nothing is sent after a close |
| SessionWire.StepDemand | crates/octoscript-capabilities/src/multiplexed_worker.rs:1403-1431 | no step puts a second frame in flight |
| SessionOutcomes.StepMoves | crates/octoscript-capabilities/src/multiplexed_worker.rs:1313-1401 | the only ways in which a step moves a call or a cancellation, with the evidence each needs |
| SessionOutcomes.OutcomesAreEarned | crates/octoscript-capabilities/src/multiplexed_worker.rs:1313-1401 | over every run at most one outcome per accepted invocation; completed carries a validated result, cancelled the validated acknowledgement of a cancellation sent for this call, a failure means the coordinator is on its way out |
| SessionEvidence.TraceIsWarranted | crates/octoscript-capabilities/src/multiplexed_worker.rs:1153-1401 | in every run each sent message and each piece of evidence was written while its own event was handled, and only because authorizer, writer, opener and validator allowed it then |
| SessionEvidence.TakeWarranted | crates/octoscript-capabilities/src/multiplexed_worker.rs:1153-1401 | handling one event writes only what the event asks for and the answers allow |
| SessionOutcomes.OutcomesAreFinal | crates/octoscript-capabilities/src/multiplexed_worker.rs:1313-1401 | what a holder was sent is never taken back or followed |
| SessionEnds.TooLateBeforeResultEndsSession | crates/octoscript-capabilities/src/multiplexed_worker.rs:1354-1395 | in every run a validated too-late answer comes after a validated result of the call it was sent for, or that call has failed, the cancellation is dropped and the session is over from then on |
| SessionOutcomes.HaltingIsFinal | crates/octoscript-capabilities/src/multiplexed_worker.rs:1153-1310 | on its way out the coordinator takes no event, writes nothing and decides nothing |
| SessionEnds.StoppedCalls | crates/octoscript-capabilities/src/multiplexed_worker.rs:1153-1310 | once the coordinator has stopped every accepted invocation has exactly one outcome in its channel, every other one none, and a start without a reply was never taken |
| SessionEnds.StoppedCancels | crates/octoscript-capabilities/src/multiplexed_worker.rs:1313-1401 | once it has stopped every cancellation that was sent has exactly one note in its channel, unless it was dropped together with the failure of its call; a lost one failed with the error of its call |
| SessionEnds.StoppedCloses | crates/octoscript-capabilities/src/multiplexed_worker.rs:1244-1310 | once it has stopped every close whose command was taken has exactly one answer |
| SessionEnds.StepCloses | crates/octoscript-capabilities/src/multiplexed_worker.rs:1153-1460 | every step keeps a close queued, waited for or answered once, and a taken one waited for or answered once |
| SessionOutcomes.NeverStuck | crates/octoscript-capabilities/src/multiplexed_worker.rs:1153-1310 | a running coordinator can always take the next event or make the next send |
| SessionPolls.ObservationIsConfluent | crates/octoscript-capabilities/src/multiplexed_worker.rs:400-478 | for every interleaving of sends and polls a binding reports at most one terminal event, as its last, equal to the decision; too-late is followed by completed |
| SessionPolls.CompletedFollowsTooLate | crates/octoscript-capabilities/src/multiplexed_worker.rs:400-428 | the poll after a too-late report gives the completed result |
| SessionPolls.MidwayIsOwn | crates/octoscript-capabilities/src/multiplexed_worker.rs:400-428 | a binding reads the cancellation channel only for a cancellation sent for its own call |
| SessionPolls.DecisionIsStable | crates/octoscript-capabilities/src/multiplexed_worker.rs:1362-1394 | a decision once made never changes |
| SessionPolls.PollFirstKeeps | crates/octoscript-capabilities/src/multiplexed_worker.rs:400-408 | the first read of a poll keeps the binding invariant |
| SessionPolls.PollSecondKeeps | crates/octoscript-capabilities/src/multiplexed_worker.rs:409-428 | the second read of a poll keeps the binding invariant |
| SessionPolls.OutcomeIsReported | crates/octoscript-capabilities/src/multiplexed_worker.rs:400-408 | in every run the first read of a poll reports an outcome that was sent and unread, and nothing as long as none was sent |
| SessionPolls.NoteIsReported | crates/octoscript-capabilities/src/multiplexed_worker.rs:409-428 | in every run the second read reports a note that was sent, and nothing while the cancellation is pending |
| SessionDeliveries.StartIsAnswered | crates/octoscript-capabilities/src/multiplexed_worker.rs:1158-1189 | in every run a start is accepted and becomes active exactly if nothing is active or closing and it is authorized and written; every refusal has its reason, and only a failed write ends the session |
| SessionDeliveries.CancelIsAnswered | crates/octoscript-capabilities/src/multiplexed_worker.rs:1190-1243 | in every run a cancellation is accepted and pending exactly if it names the active call, none is pending and it is authorized and written; every refusal has its reason |
| SessionDeliveries.CloseIsAnswered | crates/octoscript-capabilities/src/multiplexed_worker.rs:1244-1258 | in every run a close is written and awaited exactly if nothing is active or closing |
| SessionDeliveries.ResultCompletesCall | crates/octoscript-capabilities/src/multiplexed_worker.rs:1319-1342 | in every run a valid result of a call without a pending cancellation gives its caller exactly that result, and the next frame is asked for |
| SessionDeliveries.ResultIsKept | crates/octoscript-capabilities/src/multiplexed_worker.rs:1319-1342 | a valid result that overtakes a pending cancellation is kept and nothing is sent yet |
| SessionDeliveries.AnswerIsHandedOn | crates/octoscript-capabilities/src/multiplexed_worker.rs:1344-1395 | a valid answer to the pending cancellation is handed on: acknowledged cancels the call, too-late completes it with its result, unsupported leaves it as it was |
| SessionDeliveries.CloseCompletes | crates/octoscript-capabilities/src/multiplexed_worker.rs:1266-1275 | a written close is answered by the end of the stream |
| SessionDeliveries.OnlyMisfitsEnd | crates/octoscript-capabilities/src/multiplexed_worker.rs:1266-1308 | the session goes on exactly if a frame is valid and awaited; otherwise everyone who waits is told the stated error |
| SessionDeliveries.AbandonEnds | crates/octoscript-capabilities/src/multiplexed_worker.rs:1259-1265 | abandoning ends the session and fails whatever waits |
| SessionDeliveries.StartedCallCompletes | crates/octoscript-capabilities/src/multiplexed_worker.rs:1158-1342 | from start to result: an accepted start and then a valid result, before any cancellation, other frame or abandonment, completes the call with that result |
| SessionDeliveries.RunReaderOk | crates/octoscript-capabilities/src/multiplexed_worker.rs:1296-1308 | a reader that has stopped has said so, so a demanded frame is never lost |
| Supervision.SupervisedSession.StartExternalTool | crates/octoscript-capabilities/src/multiplexed_worker.rs:738-773 | begins exactly when idle, healthy and prepared; each failure has its exact error and poisons with one termination |
| Supervision.SupervisedSession.RequestCancellation | crates/octoscript-capabilities/src/multiplexed_worker.rs:776-800 | only a transport failure ends the call; each failure has its exact error |
| Supervision.SupervisedSession.PollEvent | crates/octoscript-capabilities/src/multiplexed_worker.rs:830-913 | a terminal event is handed on exactly if it converts and finish said completed; a deadline or stop gives an indeterminate outcome exactly if finish says so, and a failed finish a supervisor error; a broken transport fails by `FailureOf` |
| Supervision.SupervisedSession.Poll | crates/octoscript-capabilities/src/multiplexed_worker.rs:803-825 | the outcome of the call is given to the runtime exactly if it converts and finish said completed, once, with its own token; the answer is that of the runtime |
| Supervision.SupervisedSession.FailTransport | crates/octoscript-capabilities/src/multiplexed_worker.rs:925-969 | finishes the call and gives the error that the way it ended calls for, with one termination observation |
| Supervision.SupervisedSession.constructor | crates/octoscript-capabilities/src/multiplexed_worker.rs:672-690 | an idle healthy session |
| Supervision.BoundedWorkerTransport.Dispatch | crates/octoscript-capabilities/src/bounded_worker.rs:188-255 | succeeds exactly when arming, finish and transport do, with the answer; each failure has its exact error; begins equal finishes; every poisoning carries one termination |
| Supervision.BoundedWorkerTransport.Discard | crates/octoscript-capabilities/src/bounded_worker.rs:257-261 | poisons with one termination of its own |
| Supervision.Supervisor.FinishInvocation | crates/octoscript-capabilities/src/bounded_worker.rs:101-104 | each token is finished once, and a stop is reported with its observation |

## Left out

- Positions are indices of characters, not of UTF-8 bytes; only the formatter's output limit counts bytes.
- Diagnostics: each is one bit (reported or not). Wording, line and column, and the cap on their number are not modelled.
- The binary64 range check on number literals is a parameter of the lexer.
- Top-level declarations and tool-call hints (profile.rs:593-681) are lists read off the tokens for editors; they are not modelled, and no result here depends on them.
- Of the record-shape collector in the parser (profile.rs:360-450) only the aliases are kept, since the import hints rest on them; `RecordShapes` models the shapes from their tokens. Collecting from an incomplete snapshot up to a safe prefix is not modelled.
- ModuleHints.CollectCallHints: a hint names its import by where it is bound, not by the module path, and the verdict of the vendored parser is a parameter.
- CanonicalParser.Parser.Parse: the calls in progress count the methods that call each other; the few helpers below them that call none of these are not counted. That each of those methods does count itself rests on its text: `Enter` or `Begin` on entry, `Leave` or `Done` on exit.
- Number and string tokens carry their spelling as part of their kind; the source keeps the span and reads the text when it needs it.
- Decoding a stored journal from JSON: serde is not part of this model; a stored journal comes back as it was written and is then checked again.
- `AuthenticatedStore` is a revisioned compare-and-swap register whose operations may fail at any time, also after a write went through; sealing and rollback anchors are not modelled.
- Stream and tool names are unescaped in the journal text; the size is consulted only after they were checked to need no escaping.
- Real threads and time: channels are sequences of sends, deadlines are answers of the supervisor. A reply to a start, cancel or close command is delivered together with the step that decides it.
- The coordinator loop is a step machine on values because its threads interleave; `CoordinatorLoop` gives the frame handling in place. Commands are handled on values only, and so is the binding.
- Delivery of a buffered result is not claimed: a result that arrives while a cancellation is pending is only stored, and an unsupported cancellation leaves it undelivered.
- Closing or dropping a supervised session, in particular while a call is active.
- The three operations of the one-shot transport share one method with the operation as a parameter.
- HTTP catalogs, network broker, keyring, mobile bindings, the watchdog process, CLI, fuzz targets, the VM, the capability runtime and all cryptography.
