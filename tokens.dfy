/** The parse structures the compiler consumes (Tcl_Parse and Tcl_Token),
    produced by Tcl's own parsers. */
module TclParse {

  /** TCL_TOKEN_WORD, TCL_TOKEN_SIMPLE_WORD, TCL_TOKEN_COMMAND, ... */
  datatype TokenType =
    | Word | SimpleWord | Command | Variable | SubExpr | Text | Bs | Operator | ExpandWord

  /** One token of the flat pre-order token array.  `text` is the source range
      the token covers (its start and size), `numComponents` the number of
      tokens that follow it and belong to it.

      `reparse` is what Tcl's parser returns when the compiler hands it this
      token's text again: for a COMMAND token, Tcl_ParseCommand of the text
      between the brackets; for a TEXT token that is a word of an `expr`
      command, Tcl_ParseQuotedString of the text wrapped in double quotes.
      The parser itself is foreign code; its answer is an input here, and
      for a token the compiler never re-parses it is not looked at. */
  datatype Token = Token(kind: TokenType, text: string, numComponents: nat, reparse: Reparse)

  datatype Reparse = ReparseFailed(message: string) | Reparsed(parse: Parse)

  /** A Tcl_Parse: tokenPtr[0 .. numTokens-1]. */
  datatype Parse = Parse(tokens: seq<Token>)

  /** A token whose re-parse is never looked at. */
  function Tok(kind: TokenType, text: string, numComponents: nat): Token
  {
    Token(kind, text, numComponents, Reparsed(Parse([])))
  }
}
