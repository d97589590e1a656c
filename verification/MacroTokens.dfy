/** The token representation of the attribute macros (nuclei-macros/src/parse.rs), spans left out. */
module MacroTokens {

  datatype Delimiter = Parenthesis | Brace | Bracket | NoDelimiter

  datatype Tok =
    /** An identifier or keyword. */
    | Ident(name: string)
    /** One punctuation character; `joint` if more punctuation follows with no space between. */
    | Punct(c: char, joint: bool)
    /** A string, character or number, kept as written. */
    | Literal(text: string)
    /** What stands between a matching pair of delimiters. */
    | Group(delimiter: Delimiter, inner: seq<Tok>)

  predicate IsPunct(t: Tok, c: char) {
    t.Punct? && t.c == c
  }

  predicate IsGroup(t: Tok, d: Delimiter) {
    t.Group? && t.delimiter == d
  }

  /** A parse's answer; an error says at which token the parser stood. */
  datatype Parsed<+T> = Parsed(value: T) | Refused(at: nat)
}
