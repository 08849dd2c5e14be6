# thtml code generator, modelled in Dafny

thtml compiles HTML templates into Tcl scripts or into C code. This project
models the template code generator: the functions that take a parsed Tcl
token array and the list of scope blocks, and append C or Tcl source text to
a buffer. It models these parts:

- **The sentinel-stream transform** (`thtml_CTransformCmd`). It turns
  intermediate code, made of STX…ETX text regions and the code between them,
  into C. Each text region becomes one `Tcl_DStringAppend(__ds_default__, …)`
  statement, and `thtml_AppendEscaped` escapes the region's line breaks.
- **The template-text pre-escaper.** It tracks bracket depth, escapes
  interior double quotes, and handles a backslash before a bracket or a
  double quote.
- **The variable resolver of both backends.** It splits a dotted path,
  searches the scope blocks in order (a `stop` block ends the search), and
  otherwise looks the whole path up in `__data__`.
- **Expression and command lowering in both backends.** This covers operator
  arity from `numComponents`, the C `INSTR` table, the text temporaries and
  their releases, quoted strings, template text, commands, foreach lists and
  quoted arguments.
- **`src/expr.c`**, the earlier draft expression compiler.
- **The run-time string-equality helpers** `__thtml_streq__` and
  `__thtml_strneq__`.

Each part is built in two layers:

- **Specification functions.** These state what text each generator produces
  for a token array: `TclBackend`, `CVariables`, `CExpr`, `CCommands`, `Draft`
  and `CText`. Each one takes the output so far (or, for the C backend, the
  statement buffer, the expression buffer and the two global name counters)
  and returns the new output or an error.
- **Imperative methods.** These follow the C code step by step: `TclGen`,
  `CGen`, `DraftGen`, `Common.AppendEscaped`, the `CText` loops and the
  `Scope` loops. A `Tcl_DString` is the class `Gen.DString`, which only grows
  by `Append` or is emptied by `Reset`. The global counters
  `count_text_subst` and `count_var_dict_subst` are the class
  `CGen.Counters`. Each method is proved to leave the buffers exactly as its
  specification function says, and to report the error exactly when that
  function fails.

The specification functions are then related to independent descriptions:

- expression trees (`TclProps.Expr`), laid out the way `Tcl_ParseExpr` lays
  them out, for the three expression compilers;
- lists of pieces and lists of words for quoted strings, template text and
  commands; `TclCommandFix` states the Tcl command compiler with its token
  cursor corrected against commands whose words may hold substitutions;
- a list of regions for the transform;
- a position-by-position reference for the pre-escaper.

Tcl's parsers are foreign code. A token that the compiler parses again (the
inside of a command substitution, or a TEXT word of an `expr` command) carries
that parse's outcome as the token's `reparse` field.

Where the code does something other than what its own names, comments or
neighbouring branches suggest, the model follows the code:

- The C backend's operator dispatch has no branch for `<=` and `>=`. Both are
  in `INSTR`, but lowering them fails with "unsupported operator"
  (`CExprProps.LeGeRejected`).
- In the C backend, unary `! - +` and the ternary `?` write their operator
  text into the statement buffer, not into the expression.
- Any other one-character operator with one operand lowers to `()` and drops
  its operand.
- The C backend's `expr`/`eval`/`subst` test on a command's first word reads
  the word buffer after it was emptied, so it never fires. No command is
  rejected as `eval` or `subst`, and no word is compiled as an expression.
- The C backend joins a command's words with no separator: the first word's
  statements, then a statement that appends ` "`, the remaining words'
  statements back to back, then one that appends `"`
  (`CWords.CCommandOfWords`).
- The C backend emits no error-sentinel checks, garbage-collection lists or
  boolean type checks into the generated C, so the model has none.
- A code run after the last ETX is not copied (`CText.Scan`), and every
  dotted-path lookup reads from the first segment's variable
  (`CVariables.DictStepsReadFromFirst`).

## Model

| member | source | states |
|---|---|---|
| Common.AppendEscaped | src/common.c:3-18 | the buffer grows by exactly the escape of the range, and earlier contents are kept |
| Common.EscapedConcat | src/common.c:3-18 | escaping a concatenation is the concatenation of the escapes |
| Common.EscapedLength | src/common.c:4-17 | the escape is as long as the input plus its number of `\n` and `\r` characters |
| Common.EscapedHasNoBreaks | src/common.c:5-8 | no raw line feed or carriage return survives |
| Common.EscapedIdentity | src/common.c:9-15 | every other character, `"` and `\` included, is copied unchanged: input without line breaks is its own escape |
| Common.UnescapedEscaped | src/common.c:4-17 | for input without backslashes, reading `\n`/`\r` back recovers the input, order preserved |
| Common.EscapedCollision | src/common.c:9-15 | since quote and backslash escaping is disabled, a line feed and the two characters `\n` escape to the same text |
| Runtime.MemCmpZero | include/thtml.h:22-26 | memcmp over n bytes is zero exactly when the first n bytes agree |
| Runtime.StrEqIsEquality | include/thtml.h:15-27 | `__thtml_streq__` is 1 exactly for equal strings and 0 otherwise |
| Runtime.StrEqLengthsDiffer | include/thtml.h:22-24 | strings of different lengths compare unequal whatever their bytes |
| Runtime.StrNeqIsInequality | include/thtml.h:29-31 | `__thtml_strneq__` is 1 exactly for different strings, the negation of `__thtml_streq__` |
| Runtime.StrEqReflexiveSymmetric | include/thtml.h:22-26 | string equality is reflexive and symmetric |
| CText.TransformLoop | src/compiler_c.c:37-82 | the cursor loop of the transform returns exactly what the character-by-character scan `Transform` gives, error or text |
| CText.TextRegion | src/compiler_c.c:50-59 | the inner text loop stops at the first ETX or the end; only at an ETX does it append the region's statement |
| CText.CodeRegion | src/compiler_c.c:71-78 | the inner code loop stops at the first STX or the end; only at an STX does it append the code run |
| CText.TransformWellFormed | src/compiler_c.c:37-82 | the stream of any well-formed regions becomes each region's text statement followed by its code, in order |
| CText.TransformStream | src/compiler_c.c:37-82 | scanning regions from any position appends their text statements and code runs in order |
| CText.ScanRegion | src/compiler_c.c:47-81 | one region gives its text statement, and its code only when an STX follows |
| CText.ScanSegment | src/compiler_c.c:47-81 | one STX…ETX…code segment gives the text statement, and the code only when another STX follows; a trailing code run is dropped |
| CText.ScanText | src/compiler_c.c:51-59 | inside a text region the scan passes over every character but ETX |
| CText.ScanCode | src/compiler_c.c:72-78 | inside a code region the scan passes over every character but STX |
| CText.ScanFirst | src/compiler_c.c:37-82 | the first region of a stream is scanned, and the scan goes on at the next region |
| CText.TransformNoStart | src/compiler_c.c:39-44 | input that does not open with STX fails with "does not start with start-of-text marker" |
| CText.TransformNoEnd | src/compiler_c.c:61-65 | a final text region without its ETX fails with "does not end with end-of-text marker", whatever came before |
| CText.TransformNoEndFrom | src/compiler_c.c:61-65 | the same failure, from any scan position |
| CText.TransformEmpty | src/compiler_c.c:37-84 | empty input gives empty output |
| CText.PreEscapeLoop | src/compiler_c.c:186-213 | the pre-escape loop returns `PreEscape` of the text |
| CText.PreEscapeMatchesReference | src/compiler_c.c:186-213 | from every position it reaches, the depth-tracking loop appends the position-by-position reference reading of the rest, backslashes included |
| CText.PlainStep | src/compiler_c.c:187-195 | at a bracket, a quote or any character other than an interior backslash at depth 0, one loop step appends that position's reference text |
| CText.EscapedBackslashStep | src/compiler_c.c:195-208 | at an interior backslash at depth 0 the loop appends the reference text: dropped before a quote, kept otherwise |
| CText.EscapedBracketStep | src/compiler_c.c:196-203 | an interior `\[` or `\]` at depth 0 is passed over in one step, as the reference reads it |
| CText.PreEscapeIsReference | src/compiler_c.c:186-213 | for every text, the pre-escape equals the reference reading |
| CText.EscapedBracketKept | src/compiler_c.c:196-203 | in the reference, an interior `\[` or `\]` at depth 0 is kept as two characters and its bracket leaves the depth at 0 |
| CText.EscapedQuoteKept | src/compiler_c.c:204-205 | in the reference, an interior `\"` at depth 0 is written as `\"`: the backslash is dropped and the quote escaped |
| CText.EscDepthNoBackslash | src/compiler_c.c:187-192 | without backslashes, the depth the loop tracks is the plain bracket count |
| CText.EscapedFromNoBackslash | src/compiler_c.c:186-213 | without backslashes, the reference reading is the quote-only rule |
| CText.PreEscapeNoBackslash | src/compiler_c.c:186-213 | without backslashes, the whole pre-escape is the quote-only rule: an interior quote at depth 0 gains a backslash |
| CText.UnquoteQuoted | src/compiler_c.c:193-194 | reading `\"` back as `"` recovers the text from any position |
| CText.PreEscapeRoundTrip | src/compiler_c.c:186-213 | for text without backslashes, reading the pre-escaped text back recovers the original |
| CText.QuotedFromNoQuotes | src/compiler_c.c:186-213 | without double quotes the reference copies the text |
| CText.PreEscapeIdentity | src/compiler_c.c:186-213 | text with neither quotes nor backslashes is left unchanged |
| CText.EscapedFromEnds | src/compiler_c.c:193-195 | the reference reading of any suffix is non-empty and ends with the text's last character |
| CText.PreEscapeKeepsEnds | src/compiler_c.c:193-195 | for every text of two or more characters, backslashes included, the first and last characters are never escaped |
| CText.PreEscapeQuoteExample | src/compiler_c.c:193-194 | an interior double quote at depth 0 becomes `\"` |
| CText.PreEscapeBracketExample | src/compiler_c.c:187-192 | double quotes inside brackets are left alone |
| CText.PreEscapeEscapedQuoteExample | src/compiler_c.c:204-205 | a backslash before a double quote is dropped, and the quote is escaped |
| CText.PreEscapeEscapedBracketExample | src/compiler_c.c:196-199 | `\[` at depth 0 is kept as two characters, and its bracket is not counted |
| Scope.SplitPathLoop | src/compiler_c.c:447-460 | the cursor loop that splits a variable name returns `SplitPath` of it |
| Scope.NextDot | src/compiler_tcl.c:59-72 | the scan stops at the next dot or at the end, passing only non-dots |
| Scope.SplitPathAdvance | src/compiler_tcl.c:59-72 | one part ending at a dot or at the end keeps the splitting loop's invariant |
| Scope.SplitPathStep | src/compiler_c.c:447-460 | a name splits into its text up to the first dot, followed by the split of the rest |
| Scope.SplitPathAt | src/compiler_c.c:447-460 | the same, from any start position |
| Scope.SplitPathPartsHaveNoDots | src/compiler_c.c:447-460 | no part contains a dot |
| Scope.SplitPathRejoined | src/compiler_c.c:447-460 | joining the parts with dots gives the name without its trailing dot: empty parts are kept, and a trailing dot adds none |
| Scope.JoinSplitPath | src/compiler_tcl.c:59-72 | joining the parts with any character replaces the dots of the name (without a trailing dot) by that character |
| Scope.SplitPathOfJoin | src/compiler_c.c:447-460 | splitting dot-joined parts with no dots and a non-empty last part gives the parts back |
| Scope.ScanBlocks | src/compiler_c.c:479-557 | the block scan with its break/continue returns `Resolve` of the path |
| Scope.ResolveDeclaredIff | src/compiler_c.c:479-541 | a non-empty path is declared exactly when some block declares its first segment and no earlier block decides it; otherwise it goes to `__data__` |
| Scope.ResolveFromDeclared | src/compiler_c.c:479-557 | the same, from any block on |
| Scope.ResolveEmptyPath | src/compiler_c.c:494-521 | an empty path fails exactly when some block has `varnames`, since only then is its first segment read |
| Scope.ResolveFromEmpty | src/compiler_c.c:494-521 | the same, from any block on |
| Scope.BlockWithoutVarnamesIsSkipped | src/compiler_c.c:494-497 | a block without `varnames` is passed over even when it has `stop` |
| Scope.EarlierBlockWins | src/compiler_c.c:521-539 | a block declaring the first segment wins over every later block |
| Scope.StopHidesLaterBlocks | src/compiler_c.c:543-556 | a `stop` block that does not declare the segment ends the search and sends the path to `__data__` |
| CVariables.Decimal | src/compiler_c.c:373-375 | the counter's `%d` text is a non-empty string of digits |
| CVariables.DecimalInjective | src/compiler_c.c:373-375 | different counter values give different suffixes, so lookups of different variables never share a C name |
| CVariables.CVarRefCases | src/compiler_c.c:521-563 | a declared single segment is the bare variable; a declared dotted path is a lookup of the remaining segments in it; anything else is a lookup of the whole path in `__data__` |
| CVariables.CVarRefEmptyName | src/compiler_c.c:494-563 | an empty name fails exactly when a block has `varnames`; otherwise it is an empty `__data__` lookup that still takes a counter value |
| CVariables.DictStepsReadFromFirst | src/compiler_c.c:404-405 | every lookup step of a dotted path reads from the first segment's variable, never from the previous step's result |
| CVariables.CVarRefAppends | src/compiler_c.c:369-431 | a reference only appends to the buffers, advances the dict counter by at most one, and leaves the text counter alone |
| CVariables.DictEntries | src/compiler_c.c:377-428 | one statement group per remaining segment |
| CVariables.DictResults | src/compiler_c.c:425-428 | one result name per remaining segment |
| CGen.Counters.constructor | src/compiler_c.c:13-14 | both global counters start at zero |
| CGen.AppendSimple | src/compiler_c.c:309-366 | a declared single segment appends the statement form (in an eval, a script variable set from the C variable) or the bare name to the expression |
| CGen.AppendDict | src/compiler_c.c:369-431 | the dict counter is advanced once and the buffers grow by exactly the lookup statements and results `CDict` gives |
| CGen.DictSteps | src/compiler_c.c:377-429 | the loop over the remaining segments appends their statement groups joined by single spaces, and their result names to the expression |
| CGen.DictStep | src/compiler_c.c:377-428 | one segment appends its lookup group, after one space unless it is the first |
| CGen.AppendVariable | src/compiler_c.c:434-571 | the variable lowering ends as `CVariable` says, error exactly when it fails: an array variable is refused, and an empty path is refused when a block has `varnames` |
| CGen.CountOperands | src/compiler_c.c:647-661 | the arity loop counts the SUB_EXPR operands and fails with "not enough operands" on any other token |
| CGen.AppendExprToken | src/compiler_c.c:805-884 | the token lowering ends as `CExprToken` says |
| CGen.AppendExprWord | src/compiler_c.c:870-877 | a WORD's component loop ends as `CExprWord` says |
| CGen.AppendExprOperator | src/compiler_c.c:637-802 | operator dispatch ends as `CExprOperator` says |
| CGen.AppendTernary | src/compiler_c.c:712-733 | `?` writes ` ? ` and ` : ` into the statement buffer between its three operands |
| CGen.AppendOperands | src/compiler_c.c:686-790 | a two-operand helper call or infix `&&`/`\|\|` is written around the two operands |
| CGen.CompileExpr | src/compiler_c.c:886-919 | `int __<name>__ = <expr>;` after the operand statements, then one release per text temporary the call created |
| CGen.ReleaseLoop | src/compiler_c.c:908-916 | the release loop appends one `Tcl_DecrRefCount` per temporary, in increasing counter order |
| CGen.CompileQuotedString | src/compiler_c.c:922-944 | ends as `CCompileQuotedString` says |
| CGen.CompileTemplateText | src/compiler_c.c:947-984 | ends as `CCompileTemplateText` says |
| CGen.TemplateCommand | src/compiler_c.c:955-970 | a nested command leaves the text region and is lowered between `append ds [` and `]` |
| CGen.TemplateVariable | src/compiler_c.c:971-977 | a variable leaves the text region, is lowered to the `default` buffer, and the region reopens |
| CGen.AppendCommandToken | src/compiler_c.c:986-1072 | ends as `CCommandToken` says, including the index the caller continues at |
| CGen.AppendCommandWord | src/compiler_c.c:1054-1064 | a WORD's component loop ends as `CWordLoop` says |
| CGen.CompileCommand | src/compiler_c.c:1074-1130 | each word is lowered into an emptied word buffer and copied out; the first word is followed by the open-quote statement and a command of several tokens is closed |
| CGen.CompileForeachList | src/compiler_c.c:1133-1175 | ends as `CCompileForeachList` says |
| CGen.CompileQuotedArg | src/compiler_c.c:1221-1269 | ends as `CCompileQuotedArg` says |
| CCommands.CCommandToken | src/compiler_c.c:986-1072 | a lowered command token lets the caller continue beyond it |
| CCommands.CWordLoop | src/compiler_c.c:1058-1063 | the WORD loop never moves back |
| CExprProps.OperandTypeOfLaid | src/compiler_c.c:573-603 | `thtml_GetOperandType` names a laid-out literal "text", a variable "variable" and an operator node "subexpr" |
| CExprProps.Instr1Injective | src/compiler_c.c:605-635 | different one-character operators have different INSTR names |
| CExprProps.Instr2Injective | src/compiler_c.c:605-635 | different two-character operators have different INSTR names |
| CExprProps.InstrTablesDisjoint | src/compiler_c.c:605-635 | no one-character operator shares a name with a two-character one |
| CExprProps.DispatchedHaveHelpers | src/compiler_c.c:686-790 | every operator that is dispatched to a helper call has an INSTR entry |
| CExprProps.CExprLowering | src/compiler_c.c:637-884 | every supported tree laid out as `Tcl_ParseExpr` lays it out lowers to what `CTree` reads off the tree |
| CExprProps.CUnaryLowering | src/compiler_c.c:664-685 | the unary case of that theorem |
| CExprProps.CBinaryLowering | src/compiler_c.c:686-790 | the two-operand case |
| CExprProps.CTernaryLowering | src/compiler_c.c:712-733 | the `?` case |
| CExprProps.CTernaryTree | src/compiler_c.c:712-733 | `?` lowers as `CTree` says once its three operands do |
| CExprProps.CTreeTernary | src/compiler_c.c:712-733 | what `CTree` reads off a `?` node, from its operands |
| CExprProps.CUnaryCase | src/compiler_c.c:664-685 | `! - +` lowers to the operator in the statement buffer around its operand |
| CExprProps.CBinaryCase | src/compiler_c.c:686-790 | a two-operand node lowers to its helper call or infix form around its operands |
| CExprProps.CTernaryCase | src/compiler_c.c:712-733 | `?` lowers to its three operands with ` ? ` and ` : ` in the statement buffer |
| CExprProps.CLaidUnary | src/compiler_c.c:664-685 | the operand of a lowerable unary node is lowerable |
| CExprProps.CLaidBinary | src/compiler_c.c:686-790 | the operands of a lowerable two-operand node are lowerable, laid out back to back |
| CExprProps.CLaidTernary | src/compiler_c.c:712-733 | the same for `?` |
| CExprProps.CSubExprStep | src/compiler_c.c:808-828 | a SUB_EXPR not over an operator is parenthesised around its first component |
| CExprProps.COperatorStep | src/compiler_c.c:808-828 | a SUB_EXPR over an operator is parenthesised around the operator's lowering |
| CExprProps.COperandsStep | src/compiler_c.c:686-790 | the two operands are read at `i+2` and after the first operand's layout |
| CExprProps.BinaryDispatch | src/compiler_c.c:686-790 | a dispatched operator with two operands opens and separates them as its helper or infix form says |
| CExprProps.CLiteralStep | src/compiler_c.c:831-852 | a literal is lowered through a new text temporary |
| CExprProps.CVariableToken | src/compiler_c.c:829-830 | a variable token lowers to its reference in the expression |
| CExprProps.CVariableStep | src/compiler_c.c:829-830 | a variable operand lowers as `CTree` says |
| CExprProps.CVarFrame | src/compiler_c.c:434-571 | a variable reference appends the same text whatever was already in the buffers |
| CExprProps.VarDictFrame | src/compiler_c.c:369-431 | a dict lookup appends the same text whatever was already in the buffers |
| CExprProps.CTreeFrame | src/compiler_c.c:637-884 | lowering a tree appends the same text whatever was already in the buffers; only the counters carry over |
| CExprProps.CTreeCounts | src/compiler_c.c:805-884 | a tree takes one text temporary per literal and at most one dict number per variable |
| CExprProps.CCompileExprRenders | src/compiler_c.c:886-919 | a whole supported expression compiles to its operand statements, `int __<name>__ = <expr>;`, and exactly one release per literal, in increasing counter order |
| CExprProps.LoweredFromHeader | src/compiler_c.c:894-906 | lowering after the header gives the tree's text, and as many new temporaries as literals |
| CExprProps.CompileAssembled | src/compiler_c.c:894-916 | the compiled expression is the header, the lowered expression, `;`, and the releases |
| CExprProps.ReleasesSplit | src/compiler_c.c:908-916 | releases of consecutive counter ranges concatenate |
| CExprProps.ReleasesEach | src/compiler_c.c:908-916 | one more temporary adds exactly its own release at the end |
| CExprProps.TextTempsDistinct | src/compiler_c.c:831-846 | distinct literals of one expression get distinct temporaries |
| CExprProps.LiteralExpr | src/compiler_c.c:831-852 | `expr {<s>}` declares one temporary, references it in the expression, and releases it |
| CExprProps.LiteralExprAsWritten | src/compiler_c.c:852 | as written, the reference has a single trailing underscore and names no declared temporary |
| CExprProps.AsWrittenTextRefUndeclared | src/compiler_c.c:841-852 | a single-underscore reference differs from every declared temporary's name |
| CExprProps.LiteralExprCorrected | src/compiler_c.c:841-852 | with two underscores, the expression references the temporary just declared |
| CExprProps.CorrectedTextRefDeclared | src/compiler_c.c:841-852 | the two-underscore reference is the declared temporary's name |
| CExprProps.OtherUnaryDropsOperand | src/compiler_c.c:664-685 | any other one-character operator with one operand writes `()` and drops its operand |
| CExprProps.LeGeRejected | src/compiler_c.c:738-799 | `<=` and `>=` have INSTR entries, yet lowering them fails with "unsupported operator" |
| CExprProps.LeGeDispatch | src/compiler_c.c:738-799 | the same, at the dispatch step |
| CExprProps.CUnsupportedRejected | src/compiler_c.c:733-797 | a two-operand operator that has no helper, is not `&&` or `\|\|`, and is not `?` is refused with "unsupported operator" |
| CExprProps.CNotEnoughOperands | src/compiler_c.c:647-661 | an operator whose first operand slot holds no SUB_EXPR is refused with "not enough operands" |
| CWords.CQuotedLowering | src/compiler_c.c:922-944 | over laid-out pieces, a quoted string copies characters and backslash sequences, lowers each reference, and refuses command substitution |
| CWords.CArgLowering | src/compiler_c.c:1221-1269 | over laid-out pieces, a quoted argument makes each text piece an append statement and lowers each reference |
| CWords.CTemplateLowering | src/compiler_c.c:947-984 | template text copies its characters, and each reference is lowered to `default` between ETX and newline-STX |
| CWords.LiteralPiecesCopied | src/compiler_c.c:922-984 | with only literal pieces, a quoted string and template text append the text unchanged, and an argument appends one statement per piece |
| CWords.ForeachListOfLiterals | src/compiler_c.c:1133-1175 | a foreach list of literal pieces is the buffer declaration, the text, and the conversion to an object |
| CWords.QuotedArgOfLiterals | src/compiler_c.c:1221-1269 | a quoted argument of literal pieces is the buffer declaration, one append statement per piece, and the conversion to an object |
| CWords.CVarRefSucceeds | src/compiler_c.c:434-571 | a non-empty variable name always resolves |
| CWords.CPlainSucceeds | src/compiler_c.c:922-984 | without command substitutions and with non-empty names, quoted strings, arguments and template text never fail |
| CWords.CSubstRefused | src/compiler_c.c:929-931 | a command substitution after pieces that lower fails with "command substitution not supported" |
| CWords.CWordToken | src/compiler_c.c:1001-1037 | a simple word appends its literal statement, and out_i lands on the other token of the next word |
| CWords.CWordsFrom | src/compiler_c.c:1083-1120 | the word loop appends every remaining word's statement |
| CWords.CCommandOfWords | src/compiler_c.c:1074-1130 | a command of simple words is the first word's statement, the open-quote statement, the remaining words' statements with no separator, and the close-quote statement |
| TclGen.AppendDict | src/compiler_tcl.c:23-43 | appends `[dict get $v {k1 k2 …}]` with the keys separated by single spaces |
| TclGen.AppendVariable | src/compiler_tcl.c:46-183 | ends as `VariableToken` says, error exactly when it fails |
| TclGen.AppendExprToken | src/compiler_tcl.c:301-345 | ends as `ExprToken` says |
| TclGen.AppendExprOperator | src/compiler_tcl.c:186-298 | ends as `ExprOperator` says |
| TclGen.CompileExpr | src/compiler_tcl.c:347-356 | ends as `CompileExpr` says |
| TclGen.CompileQuotedString | src/compiler_tcl.c:359-381 | ends as `CompileQuotedString` says |
| TclGen.CompileTemplateText | src/compiler_tcl.c:384-407 | ends as `CompileTemplateText` says |
| TclGen.AppendCommandToken | src/compiler_tcl.c:409-485 | ends as `CommandToken` says, including out_i |
| TclGen.CompileCommand | src/compiler_tcl.c:487-524 | ends as `CompileCommand` says |
| TclBackend.CommandToken | src/compiler_tcl.c:409-485 | a lowered command token lets the caller continue beyond it |
| TclBackend.WordLoop | src/compiler_tcl.c:469-476 | the WORD loop never moves back |
| TclProps.VarRefOfName | src/compiler_tcl.c:46-183 | a name is declared exactly when a block declares its first segment before any block decides it; otherwise it is `[dict get $__data__ {…}]` over the whole path |
| TclProps.NameParts | src/compiler_tcl.c:59-72 | the first part is the first segment; there is one part exactly when no dot comes before the last character; the parts joined by spaces are the keys |
| TclProps.DataGetText | src/compiler_tcl.c:171-175 | a `__data__` lookup is `[dict get $__data__ {<keys>}]` |
| TclProps.DictGetText | src/compiler_tcl.c:22-43 | a dotted declared path is `[dict get $first {<keys>}]`, the first segment included in the keys |
| TclProps.VarRefOfEmptyName | src/compiler_tcl.c:91-175 | an empty name fails exactly when a block has `varnames`, and is otherwise an empty `__data__` lookup |
| TclProps.VarTextLowers | src/compiler_tcl.c:46-183 | a non-empty name always lowers, to its `VarText` |
| TclProps.VariableLowers | src/compiler_tcl.c:46-183 | a one-component variable token over its name lowers to `VarText` |
| TclProps.Size | src/compiler_tcl.c:196-210 | every subexpression's layout has at least two tokens |
| TclProps.OneOperand | src/compiler_tcl.c:196-210 | the arity loop counts one laid-out operand |
| TclProps.TwoOperands | src/compiler_tcl.c:196-210 | the arity loop counts two operands laid back to back |
| TclProps.ThreeOperands | src/compiler_tcl.c:196-210 | the arity loop counts three operands |
| TclProps.LiteralStep | src/compiler_tcl.c:310-315 | a SUB_EXPR over TEXT is wrapped in braces |
| TclProps.UnaryStep | src/compiler_tcl.c:215-222 | a unary operator is a bare prefix of its operand |
| TclProps.BinaryStep | src/compiler_tcl.c:223-287 | a listed two-operand operator is written `lhs op rhs` with single spaces |
| TclProps.TernaryStep | src/compiler_tcl.c:241-262 | `?` is written `c ? a : b` |
| TclProps.VariableStep | src/compiler_tcl.c:316-320 | a SUB_EXPR over a variable lowers the variable |
| TclProps.LaidHead | src/compiler_tcl.c:301-345 | a laid-out subexpression opens with a SUB_EXPR of its layout's size |
| TclProps.LaidPair | src/compiler_tcl.c:223-287 | a two-operand layout holds its operands back to back after the operator |
| TclProps.LaidTriple | src/compiler_tcl.c:241-262 | the same for `?` |
| TclProps.LaidBinary | src/compiler_tcl.c:223-287 | the operands of a lowerable two-operand node are lowerable |
| TclProps.LaidTernary | src/compiler_tcl.c:241-262 | the operands of a lowerable `?` node are lowerable |
| TclProps.ExprLowering | src/compiler_tcl.c:186-345 | every supported tree, laid out as `Tcl_ParseExpr` lays it out, lowers to its rendering |
| TclProps.UnaryLowering | src/compiler_tcl.c:215-222 | the unary case of that theorem |
| TclProps.BinaryLowering | src/compiler_tcl.c:223-287 | the two-operand case |
| TclProps.TernaryLowering | src/compiler_tcl.c:241-262 | the `?` case |
| TclProps.UnaryCase | src/compiler_tcl.c:215-222 | the unary case for any rendering of the operand |
| TclProps.BinaryCase | src/compiler_tcl.c:223-287 | the two-operand case for any renderings of the operands |
| TclProps.TernaryCase | src/compiler_tcl.c:241-262 | the `?` case for any renderings of the operands |
| TclProps.UnsupportedOperatorRejected | src/compiler_tcl.c:263-295 | an operator outside the list fails with "unsupported operator" |
| TclProps.NotEnoughOperandsRejected | src/compiler_tcl.c:196-210 | an operator whose first operand slot holds no SUB_EXPR is refused with "not enough operands" |
| TclProps.CompileExprRenders | src/compiler_tcl.c:347-356 | a whole supported expression compiles to its rendering |
| TclWords.QuotedLowering | src/compiler_tcl.c:359-381 | over laid-out pieces, a quoted string appends its characters, backslash sequences and variable lookups, or fails at the first substitution |
| TclWords.TemplateLowering | src/compiler_tcl.c:384-407 | template text likewise, each variable between ETX-newline-`append ds ` and newline-STX |
| TclWords.TemplateRefStep | src/compiler_tcl.c:394-402 | one variable reference in template text |
| TclWords.PlainQuotedSucceeds | src/compiler_tcl.c:359-407 | without substitutions and with non-empty names, quoted strings and template text never fail |
| TclWords.VarRefSucceeds | src/compiler_tcl.c:46-183 | a non-empty name always resolves |
| TclWords.SubstRefused | src/compiler_tcl.c:366-368 | a command substitution after lowerable pieces fails with "command substitution not supported" |
| TclWords.WordToken | src/compiler_tcl.c:420-452 | a simple word appends its text, and out_i lands on the other token of the next word |
| TclWords.WordsFrom | src/compiler_tcl.c:496-520 | the word loop appends every remaining word after one space |
| TclWords.CommandJoinsWords | src/compiler_tcl.c:487-524 | a command of simple words, not starting with `expr`, is its words joined by single spaces |
| TclWords.ExprWordBraced | src/compiler_tcl.c:427-452 | in an `expr` command a TEXT word is compiled as a quoted string and braced; elsewhere it is copied |
| TclWords.NestedCommandBracketed | src/compiler_tcl.c:453-465 | a nested command is compiled recursively and wrapped in `[...]` |
| TclCommandFix.PiecesLowering | src/compiler_tcl.c:469-476 | with the corrected cursor, a WORD's components are lowered once each, in order: the word's characters, backslash sequences and variable lookups, or the first lookup's error, and the cursor ends after the word |
| TclCommandFix.FixedWordToken | src/compiler_tcl.c:409-485 | with the corrected cursor, a laid-out simple word appends its text and a laid-out WORD appends its meaning as one double-quoted word; the cursor lands on the next word |
| TclCommandFix.FixedWordsFrom | src/compiler_tcl.c:496-520 | the corrected command loop appends every remaining word after one space, or fails with the first word's error |
| TclCommandFix.CompoundNotExpr | src/compiler_tcl.c:506-511 | a word with substitutions never turns on `expr` substitution, since its text opens with a double quote |
| TclCommandFix.FixedCommandJoinsWords | src/compiler_tcl.c:487-524 | the corrected compiler emits any laid-out command of simple words and words with substitutions as its words joined by single spaces, each word once |
| TclCommandFix.FixedAgreesOnSimpleWords | src/compiler_tcl.c:487-524 | on commands of simple words the corrected compiler gives the same result as the code as written |
| TclCommandFix.BaresLaid | src/compiler_tcl.c:420-426 | a command of simple words is laid out as bare words |
| TclCommandFix.BaresSpaced | src/compiler_tcl.c:496-520 | bare words after the first mean the words, each after one space |
| TclCommandFix.HelloWordAsWritten | src/compiler_tcl.c:469-476 | as written, the WORD of `"hello $name"` lowers `hello ` and the TEXT `name`, skips the VARIABLE token, and sets out_i one past the word |
| TclCommandFix.WordLoopSkipsComponents | src/compiler_tcl.c:420-476 | as written, `set x "hello $name"` compiles to `set x hello name` |
| TclCommandFix.HelloLaid | src/compiler_tcl.c:420-476 | the token array of `set x "hello $name"` is the layout of its three words |
| TclCommandFix.NameLookup | src/compiler_tcl.c:46-183 | at the top level, `name` is a lookup in `__data__` |
| TclCommandFix.HelloText | src/compiler_tcl.c:487-524 | `set x "hello $name"` means `set x` followed by the quoted word with the lookup in place of `$name` |
| TclCommandFix.WordLoopCorrected | src/compiler_tcl.c:420-476 | corrected, `set x "hello $name"` compiles to `set x "hello [dict get $__data__ {name}]"` |
| Draft.DraftToken | src/expr.c:102-127 | the draft only appends; on failure nothing is appended |
| Draft.DraftOperator | src/expr.c:27-100 | the same for an operator |
| Draft.DraftOperands | src/expr.c:58-88 | the same for the two operands |
| Draft.DraftLowering | src/expr.c:27-127 | every tree the draft lowers, laid out as `Tcl_ParseExpr` lays it out, lowers to `DraftRender`, with the second operand read after the first operand's layout |
| Draft.DraftUnaryCase | src/expr.c:54-56 | unary `! - +` is accepted and nothing is written |
| Draft.DraftTernaryCase | src/expr.c:69-71 | `?` is accepted and nothing is written |
| Draft.DraftOperatorStep | src/expr.c:58-67 | a listed two-operand operator lowers its two operands |
| Draft.DraftOperandsStep | src/expr.c:58-88 | the operands are written `lhs op rhs` with single spaces, whatever their lowering reported |
| Draft.DraftBinaryCase | src/expr.c:58-88 | the two-operand case for any renderings of the operands |
| Draft.OperandErrorIgnored | src/expr.c:63-88 | an operand's error is ignored: a listed two-operand operator always succeeds |
| Draft.DraftUnsupportedRejected | src/expr.c:72-97 | an operator outside the list fails with "unsupported operator" and writes nothing |
| Draft.DraftNotEnoughOperands | src/expr.c:35-49 | an operator whose first operand slot holds no SUB_EXPR fails with "not enough operands" and nothing written |
| Draft.OnePlusTwoLaid | src/expr.c:58-67 | the tokens of `1 + 2` are the layout of that tree |
| Draft.SecondOperandMisread | src/expr.c:62-67 | as written, `1 + 2` compiles to ` + 1`: the second operand is read at `i+2+numComponents`, the first operand's own TEXT token |
| Draft.CompileDraftRenders | src/expr.c:129-138 | with the second operand read after the first operand's layout, every supported tree compiles to its rendering |
| DraftGen.AppendDraftVariable | src/expr.c:12-25 | a one-component variable appends `$` and its raw text, with no splitting; any other variable fails with "array variables not supported" |
| DraftGen.AppendDraftToken | src/expr.c:102-127 | ends as `DraftToken` says, error exactly when it fails |
| DraftGen.AppendDraftOperator | src/expr.c:27-100 | ends as `DraftOperator` says |
| DraftGen.AppendDraftOperands | src/expr.c:58-88 | ends as `DraftOperands` says |
| DraftGen.CompileDraftExpr | src/expr.c:129-138 | ends as `CompileDraft` says |
| Gen.DString.constructor | src/compiler_c.c:33-34 | `Tcl_DStringInit` gives an empty buffer |
| Gen.DString.Append | src/common.c:5-15 | `Tcl_DStringAppend` adds its text at the end and changes nothing else |
| Gen.DString.Reset | src/compiler_c.c:1096 | `Tcl_DStringSetLength(…, 0)` empties the buffer |
| Gen.IndexOf | src/compiler_tcl.c:59-72 | the index of the first dot, or the length |
| Gen.IndexOfFirst | src/compiler_tcl.c:59-72 | a position before which there is no dot, and which holds a dot or is the end, is that index |

## Left out

- Tcl's parsers (`Tcl_ParseExpr`, `Tcl_ParseCommand`, `Tcl_ParseQuotedString`)
  are foreign code. The token array is an input, and a re-parsed token carries
  its parse's outcome. Tokens are assumed to be laid out as those parsers lay
  them out only where a lemma says so (`Laid`, `PiecesLaid`,
  `SimpleWordsLaid`).
- The `*Cmd` entry points' argument and interpreter glue is not modelled:
  argument checks, reading `blocks` from a variable, and setting the result.
  The blocks list, the token array and the name are inputs. An error is the
  `Gen.Error` value, whose `Message` is the text the source sets.
- Decoding errors of Tcl lists and dicts are not modelled. A block is an
  already-decoded record: its `varnames` list if present, and whether a
  `stop` key is present.
- Reading a token past the end of the array is undefined behaviour in the
  source. Here it is the error `TokenOutOfRange`. A variable path with no
  first segment is the error `EmptyPath`.
- A run of `Tcl_DStringAppend` calls that always occur together is one append
  of their concatenation. This leaves out only how buffers are resized.
- src/library.c (command registration, the thread exit handler, MD5) is not
  part of this model.
- `__thtml_gt__` and `__thtml_add__` are left out, because they work on
  doubles through `Tcl_GetDoubleFromObj`.
- The header files src/common.h, src/compiler_c.h, src/compiler_tcl.h and
  src/expr.h only declare the functions modelled here. Their `DBG` and
  `fprintf` tracing writes only to stderr and is left out.
- The C backend's `expr`/`eval`/`subst` test on the first word of a command
  is modelled as never firing, since it reads the emptied word buffer.
- CWords.CTemplateLowering: covers template text without command
  substitutions. A nested command in C template text is described only by
  `CCommands.CTemplateFrom` and `CGen.TemplateCommand`.
- CWords.CCommandOfWords: covers commands of simple words only. For words
  with variables, nested commands or WORD tokens there is no word-level
  description: `CGen.AppendCommandToken` only ties the method to
  `CCommands.CCommandToken`, whose own contract is about the index.
- TclWords.CommandJoinsWords: covers commands of simple words whose first
  word does not start with `expr`. The `expr` case is
  `TclWords.ExprWordBraced`.
- CCommands.CCommandToken: its own contract only says that the index moves
  forward. What it appends is stated by `CWords` for simple words and by
  `CGen.AppendCommandToken` for the method.
- TclBackend.CommandToken: its own contract only says that out_i moves
  forward. What it appends is stated for simple words
  (`TclWords.WordToken`), TEXT words under `expr`
  (`TclWords.ExprWordBraced`) and nested commands
  (`TclWords.NestedCommandBracketed`). For WORD tokens the code as written is
  shown only on one input (`TclCommandFix.WordLoopSkipsComponents`), because
  its loop skips components (see Findings). The corrected loop is described
  for all laid-out words (`TclCommandFix.FixedWordToken`).
- TclBackend.WordLoop: its contract only says that the cursor does not move
  back. As written it lowers every other component of a WORD, so it has no
  all-inputs description of what it appends. `TclCommandFix.PiecesLowering`
  describes the corrected loop.
- CCommands.CWordLoop: its contract only says that the cursor does not move
  back. The C backend's WORD loop (src/compiler_c.c:1054-1064) and its
  SIMPLE_WORD branch (src/compiler_c.c:1001-1006) have the same cursor
  defect as the Tcl backend's. That defect is recorded for the Tcl backend
  only, and the C loop is not corrected in this model, because its intended
  output cannot be read off the code: the WORD branch opens a
  `Tcl_DStringAppend(__ds_<name>__, "` literal, and each component then
  appends whole `Tcl_DStringAppend` statements inside that open literal.

## Findings

| source | as written | input that shows it | evidently intended | confidence | as-written member | corrected member |
|---|---|---|---|---|---|---|
| src/expr.c:62-67 | the second operand of a two-operand operator is read at `i+2+numComponents` of the first operand, which is the first operand's last token | `expr {1 + 2}` compiles to ` + 1` | read it at `i+2+numComponents+1`, after the first operand's layout, so that the second operand's own tokens are lowered; for `1 + 2` the draft writes each literal operand, a SUB_EXPR over TEXT, as nothing, so the result is ` + ` | not executed | Draft.SecondOperandMisread | Draft.CompileDraftRenders |
| src/compiler_c.c:852 | a literal's text temporary is referenced as `__<name>_text<k>_`, with one trailing underscore, but declared and released as `__<name>_text<k>__` | `expr {"a"}`: the generated expression names a variable that was never declared | reference the declared `__<name>_text<k>__` | not executed | CExprProps.LiteralExprAsWritten | CExprProps.LiteralExprCorrected |
| src/compiler_tcl.c:420-476 | the SIMPLE_WORD branch sets out_i one past the word, and the WORD loop lowers the token at out_i+1, so every other component of a word with substitutions is skipped and out_i ends past the word | `set x "hello $name"` (a WORD of TEXT `hello `, VARIABLE, TEXT `name`) compiles to `set x hello name` | lower each component once, in order, continue at the first token after the word, and keep the word whole; the model quotes it as the expression compiler quotes WORD tokens, giving `set x "hello [dict get $__data__ {name}]"` | not executed | TclCommandFix.WordLoopSkipsComponents | TclCommandFix.FixedCommandJoinsWords |
