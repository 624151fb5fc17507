# species: the WasmMeta grammar-notation parser, in Dafny

`species` reads the LaTeX notation of the `.. math::` blocks in the
WebAssembly specification sources:

```
\begin{array}{llll}
\production{number type} & \numtype &::=& \I32 ~|~ \I64 ~|~ \F32 ~|~ \F64 \\
\end{array}
```

It turns that notation into a tree: math block → productions → left-hand
side and right-hand side → alternatives → symbols → commands → arguments.
The parser is a recursive descent built from `nom` combinators. This
project models its three core files as pure Dafny functions. Each parser
maps an input string to a `Result` that is either a fault or a pair of a
value and the unconsumed remainder.

- `parse_result.dfy` (module `ParseResult`): the result type and the
  `nom` building blocks the parsers use. These are `tag`, `alt` (`OrElse`),
  `map` (`MapValue`) and a longest-run scanner (`TakeWhile`).
- `parser.dfy` (module `Parser`) models `species/src/parser.rs`:
  - the separator skipper `Token::ws` (`Ws`) and `Token::equal` (`Equal`);
  - the repetition suffixes `^?`, `^n`, `^+` and `^\ast` (`ParseSeqKind`);
  - command heads with their `[a,b]` parameter lists (`ParseCommandHead`,
    `Params`);
  - commands with `{…}` arguments (`ParseCommand`, `ParseArgs`,
    `ParseArgument`);
  - the literal scanner over the extended letters (`StrInner`) and
    `Argument::name` (`ArgumentName`).
- `symbol.dfy` (module `Symbols`) models `species/src/syntax/symbol.rs`:
  - terminal and nonterminal classification by the case of a command's
    name, with the `\K{…}` and `\X{…}` escapes (`IsTerminal`,
    `IsNonterminal`);
  - the six symbol shapes, tried in the source's order: record, arrow,
    braced vector, vector, nonterminal, terminal.
- `syntax.dfy` (module `Syntax`) models `species/src/syntax.rs`:
  - the `begin`, `end` and `or` tokens;
  - `production_name`;
  - the left-hand side, which is commands up to `::=` (`ParseLhs`);
  - the right-hand side, which is `|`-separated alternatives of one or more
    symbols (`ParseRhs`);
  - productions, `is_production` and math blocks.

`nom` distinguishes a recoverable `Err::Error` from everything else.
`alt`, `opt` and the repetition combinators catch only the recoverable
error. The model's `Fault` mirrors this split:
- `Error` is what `nom_err!` and every failing `nom` parser produce.
- `Panic(message)` stands for a Rust panic, which no combinator catches:
  - `expect` on `\K` or `\X` without an argument;
  - indexing the empty argument list of a bare `\production`.

Every combinator passes a `Panic` through unchanged.

Two kinds of property are proved:
- Each parser's contract states when it succeeds and that it leaves a suffix
  of its input. For the repeated parsers the suffix is strictly shorter,
  which also proves that `many0`/`many1` never hit `nom`'s no-progress
  error.
- Each layer has a rendering function: a canonical text for commands and
  symbols, and a written text, with its blanks, for alternatives, left-hand
  sides, productions and blocks. A round-trip lemma states that parsing the
  rendering gives back the value and the right remainder. The layers are
  command, symbol, alternative, right-hand side, left-hand side, production
  and math block. Failure lemmas state what each shape rejects.

The source's unit tests are proved as examples, using only the
parsing functions and literal strings. They cover `ws`, simple commands,
suffixes, terminals, nonterminals and records, `parse_rhs`, and three whole
blocks: the number-type block, the global-type block and the
nine-production index block.

## Model

| member | source | states |
|---|---|---|
| ParseResult.OrElse | species/src/parser.rs:25-33 | `alt`: the second parser is tried only when the first fails with a recoverable error; a success or a panic of the first is the result |
| ParseResult.MapValue | species/src/syntax/symbol.rs:62-69 | `map`: success and failure are preserved, a success's value is transformed and its remainder kept |
| ParseResult.Tag | species/src/parser.rs:26-31 | `tag` succeeds iff the input starts with the tag, returning the tag and exactly what follows it |
| ParseResult.TakeWhile | species/src/parser.rs:127 | the run and the rest concatenate to the input, every character of the run is accepted and the rest does not start with an accepted character |
| ParseResult.TakeWhileSplits | species/src/parser.rs:127 | an accepted run followed by a rejected character is split exactly there |
| Parser.Multispace1 | species/src/parser.rs:32 | `multispace1` succeeds iff the input starts with whitespace and consumes the whole whitespace run |
| Parser.TexSpace | species/src/parser.rs:25-33 | one separator is consumed iff the input starts with `\quad`, `\qquad`, `\\`, `\ `, `&`, `~` or whitespace |
| Parser.Ws | species/src/parser.rs:24-37 | `ws` never fails; its remainder is a suffix of the input that starts with no separator |
| Parser.WsIdempotent | species/src/parser.rs:24-37 | `ws` applied twice equals `ws` applied once |
| Parser.WsFixedPoints | species/src/parser.rs:24-37 | `ws` leaves its input unchanged iff the input starts with no separator |
| Parser.WsSkipsTag | species/src/parser.rs:25-31 | a TeX spacing tag in front of the input does not change where `ws` stops |
| Parser.QuadPrefixSwallowed | species/src/parser.rs:25-27 | because `\quad` is tried first, a command head whose name begins with `quad` followed by a letter or digit loses its first five characters to `ws` |
| Parser.WsSkipsSpace | species/src/parser.rs:32 | a whitespace character in front of the input does not change where `ws` stops |
| Parser.WsSkipsSeparators | species/src/parser.rs:24-37 | any sequence of separators in front of the input does not change where `ws` stops |
| Parser.WsSkipsBlank | species/src/parser.rs:24-37 | any run of whitespace, `&` and `~` in front of the input does not change where `ws` stops |
| Parser.WhitespaceExamples | species/src/parser.rs:150-159 | `ws` leaves `""` for `""`, for `  \n & &&` and for `  & \quad \qquad` |
| Parser.Equal | species/src/parser.rs:18-22 | `equal` succeeds iff the input starts with `::=`, and leaves `ws` of the text after it |
| Parser.ParseSeqKind | species/src/parser.rs:68-79 | the suffix parser never fails; it consumes exactly the tag of the kind it returns, or returns none and leaves the input unchanged when no suffix tag starts it |
| Parser.SeqKindRoundTrip | species/src/parser.rs:68-79 | each of `^?`, `^n`, `^+`, `^\ast` (or no suffix) reads back as its kind |
| Parser.UpnoteExample | species/src/parser.rs:174-181 | `\instr^\ast` is the command `instr` with the zero-or-more suffix and remainder `""` |
| Parser.Alphanumeric1 | species/src/parser.rs:95 | `alphanumeric1` succeeds iff an alphanumeric character comes first, and takes the maximal alphanumeric run |
| Parser.HeadName | species/src/parser.rs:95-96 | the name parser succeeds iff the input is `\` followed by an alphanumeric character; the name is the maximal alphanumeric run after the backslash |
| Parser.MoreParams | species/src/parser.rs:100 | the `,name` repetition of `separated_list1` returns names whose comma-prefixed text is exactly what it consumed, and stops where no `,name` follows |
| Parser.MoreParamsRoundTrip | species/src/parser.rs:100 | comma-prefixed names followed by a non-continuation read back as those names |
| Parser.ParamList | species/src/parser.rs:100 | `separated_list1(',', alphanumeric1)` succeeds iff a name comes first; it returns one or more names whose comma-joined text is what it consumed |
| Parser.Params | species/src/parser.rs:98-104 | a parameter list is one or more names whose `[a,b]` rendering is exactly the consumed text; failures are recoverable |
| Parser.ParamsRoundTrip | species/src/parser.rs:98-104 | any non-empty list of names, written `[a,b,…]`, reads back as itself |
| Parser.ParseCommandHead | species/src/parser.rs:94-112 | a head parses iff its name does; the parameters are empty exactly when no bracketed list follows the name; the head's rendering is the consumed text |
| Parser.HeadRoundTrip | species/src/parser.rs:94-112 | a well-formed head, followed by neither a letter nor `[`, reads back as itself |
| Parser.ParseCommand | species/src/parser.rs:83-90 | a command parses iff its head does; it consumes a non-empty prefix, and what it leaves starts with no separator |
| Parser.CommandRoundTrip | species/src/parser.rs:83-90 | every well-formed command (nested commands in arguments included) reads back as itself, followed by `ws` of what follows |
| Parser.BareCommandRoundTrip | species/src/parser.rs:83-90 | `\name` with an optional suffix reads back as a command without parameters or arguments |
| Parser.LiteralCommandRoundTrip | species/src/parser.rs:83-90 | `\name{text}` reads back as a command with one literal argument |
| Parser.SimpleCommandExamples | species/src/parser.rs:161-172 | `\externtype` and `\production{external types}` parse whole, with heads `externtype` and `production` |
| Parser.ParseArgs | species/src/parser.rs:85 | `many0(Argument::parser)` never fails, leaves a suffix, and returns only well-formed arguments |
| Parser.ArgsRoundTrip | species/src/parser.rs:85 | a rendered argument list followed by anything but `{` reads back as that list |
| Parser.ParseArgument | species/src/parser.rs:116-122 | an argument needs an opening `{`, consumes a non-empty prefix and fails only recoverably |
| Parser.ArgumentBody | species/src/parser.rs:117-120 | the body is a nested command exactly when a command parses there; otherwise it is a literal |
| Parser.StrInner | species/src/parser.rs:124-131 | the literal scanner never fails, leaves a suffix and returns only extended letters |
| Parser.StrInnerFallback | species/src/parser.rs:124-131 | without an opening brace the scanner returns the longest run of extended letters; after a brace that its nested literal leaves unclosed it returns nothing and consumes nothing |
| Parser.BracedLiteral | species/src/parser.rs:124-131 | a literal wrapped in one pair of braces comes back unwrapped, with exactly the text after the closing brace left over |
| Parser.LiteralRoundTrip | species/src/parser.rs:124-131 | a literal followed by `}` is not a command and is scanned back whole |
| Parser.ArgumentName | species/src/parser.rs:137-142 | the name of a well-formed argument is text over the extended letters, and a non-empty alphanumeric name when the argument is a nested command |
| Parser.ParsedArgumentName | species/src/parser.rs:115-121 | a parsed argument is a nested command exactly when a command follows the `{`; its name is then that command's head name, and otherwise a literal |
| Parser.ArgumentRoundTrip | species/src/parser.rs:116-135 | every well-formed argument, literal or nested command, reads back as itself |
| Parser.LiteralArgumentRoundTrip | species/src/parser.rs:124-135 | `{text}` reads back as the literal `text`, the empty literal included |
| Parser.ArgumentExamples | species/src/parser.rs:116-131 | `{{x}}` is the literal `x`, and `{}` is the empty literal |
| Symbols.IsTerminal | species/src/syntax/symbol.rs:76-97 | a command is a terminal iff every ASCII letter of its name is upper case; `K` yields its first argument's name, any other name itself |
| Symbols.IsNonterminal | species/src/syntax/symbol.rs:99-120 | a command is a nonterminal iff it is `X` or every ASCII letter of its name is lower case; `X` yields its first argument's name |
| Symbols.ClassifiersOverlap | species/src/syntax/symbol.rs:76-120 | both classifiers accept a command exactly when its name has no letters or is `X` |
| Symbols.ParseTerm | species/src/syntax/symbol.rs:124-131 | a terminal is a parsed command with an upper-case name; it keeps the command's remainder and panics exactly on a bare `\K` |
| Symbols.TermRoundTrip | species/src/syntax/symbol.rs:124-131 | an upper-case name `\NAME` reads back as that terminal |
| Symbols.TermDropsSuffix | species/src/syntax/symbol.rs:124-131 | a repetition suffix after a terminal is consumed and dropped |
| Symbols.TermEscape | species/src/syntax/symbol.rs:77-83 | `\K{text}` is the terminal `text`, whatever its case |
| Symbols.TermPanicsOn | species/src/syntax/symbol.rs:78-81 | `\K` without an argument panics with the `expect` message |
| Symbols.ParseNonterm | species/src/syntax/symbol.rs:135-151 | a nonterminal is a parsed command, not `end` or `production`, named `X` or in lower case; its repetition kind is the command's suffix; it panics exactly on a bare `\X` |
| Symbols.NontermRoundTrip | species/src/syntax/symbol.rs:135-151 | a lower-case name with its suffix reads back as that nonterminal |
| Symbols.NontermEscape | species/src/syntax/symbol.rs:100-106 | `\X{text}` is the nonterminal `text` |
| Symbols.NontermPanicsOn | species/src/syntax/symbol.rs:101-104 | `\X` without an argument panics with the `expect` message |
| Symbols.NontermRejects | species/src/syntax/symbol.rs:137-149 | `end`, `production` and names that are not lower case fail recoverably |
| Symbols.ParseVec | species/src/syntax/symbol.rs:188-196 | a vector needs a command named exactly `vec` followed by `(` |
| Symbols.VecRoundTrip | species/src/syntax/symbol.rs:188-196 | `\vec(nonterminal)` reads back as that vector |
| Symbols.VecNeedsVec | species/src/syntax/symbol.rs:189-193 | any other command, or `vec` without `(`, fails recoverably |
| Symbols.ParseBracedVec | species/src/syntax/symbol.rs:178-184 | a braced vector needs an opening `[` |
| Symbols.BracedVecRoundTrip | species/src/syntax/symbol.rs:178-184 | `[\vec(nonterminal)]` reads back as that vector |
| Symbols.BracedVecNeedsBracket | species/src/syntax/symbol.rs:179 | input not starting with `[` fails recoverably |
| Symbols.ParseArrow | species/src/syntax/symbol.rs:200-209 | an arrow needs a nonterminal followed by a command named exactly `to` |
| Symbols.ArrowRoundTrip | species/src/syntax/symbol.rs:200-209 | two nonterminals written around ` \to ` read back as that arrow |
| Symbols.ArrowNeedsNonterm | species/src/syntax/symbol.rs:201 | an arrow fails with the nonterminal's own fault when no nonterminal starts the input |
| Symbols.ArrowNeedsTo | species/src/syntax/symbol.rs:202-205 | any middle other than `\to` fails recoverably |
| Symbols.ParseValue | species/src/syntax/symbol.rs:168-170 | a record value is a vector or a nonterminal |
| Symbols.ValueRoundTrip | species/src/syntax/symbol.rs:168-170 | a written vector or nonterminal value reads back as itself, the vector tried first |
| Symbols.ParsePair | species/src/syntax/symbol.rs:164-174 | a pair's value is a vector or a nonterminal |
| Symbols.PairRoundTrip | species/src/syntax/symbol.rs:164-174 | ` \KEY~value` reads back as the pair, with separators skipped on both sides |
| Symbols.MorePairs | species/src/syntax/symbol.rs:158 | the `,pair` repetition leaves a suffix and fails only by panicking |
| Symbols.MorePairsRoundTrip | species/src/syntax/symbol.rs:158 | comma-separated pairs up to ` \}` read back as those pairs |
| Symbols.ParseRecord | species/src/syntax/symbol.rs:155-162 | a record needs `\{` and holds at least one pair |
| Symbols.RecordRoundTrip | species/src/syntax/symbol.rs:155-162 | `\{ pair, …, pair \}` reads back as those pairs |
| Symbols.RecordNeedsBrace | species/src/syntax/symbol.rs:157 | input not starting with `\{` fails recoverably |
| Symbols.ParseSymbol | species/src/syntax/symbol.rs:61-72 | a symbol consumes a non-empty prefix of its input |
| Symbols.SymbolOfRecord | species/src/syntax/symbol.rs:63 | a record that parses is the symbol |
| Symbols.SymbolOfArrow | species/src/syntax/symbol.rs:64 | when no record parses, a parsing arrow is the symbol |
| Symbols.SymbolOfBracedVec | species/src/syntax/symbol.rs:65 | when record and arrow fail, a parsing braced vector is the symbol |
| Symbols.SymbolOfVec | species/src/syntax/symbol.rs:66 | when the earlier shapes fail, a parsing vector is the symbol |
| Symbols.SymbolOfNonterm | species/src/syntax/symbol.rs:67 | when the earlier shapes fail, a parsing nonterminal is the symbol |
| Symbols.SymbolOfTerm | species/src/syntax/symbol.rs:68 | when all other shapes fail, the symbol is whatever the terminal parser gives |
| Symbols.SymbolOfArrowPanic | species/src/syntax/symbol.rs:62-69 | a panic in an earlier alternative is the symbol parser's result |
| Symbols.SymbolRoundTrip | species/src/syntax/symbol.rs:61-72 | every well-formed symbol of each of the six shapes reads back as itself |
| Symbols.RecordSymbolRoundTrip | species/src/syntax/symbol.rs:63 | a record reads back as a record symbol |
| Symbols.ArrowSymbolRoundTrip | species/src/syntax/symbol.rs:64 | an arrow reads back as an arrow symbol, before its first nonterminal can match alone |
| Symbols.BracedVecSymbolRoundTrip | species/src/syntax/symbol.rs:65 | a braced vector reads back as a braced-vector symbol |
| Symbols.VecSymbolRoundTrip | species/src/syntax/symbol.rs:66 | a vector reads back as a vector symbol, not as the nonterminal `vec` |
| Symbols.NontermSymbolRoundTrip | species/src/syntax/symbol.rs:67 | a nonterminal not followed by `\to` reads back as a nonterminal symbol |
| Symbols.TermSymbolRoundTrip | species/src/syntax/symbol.rs:68 | a terminal reads back as a terminal symbol |
| Symbols.TermEscapeSymbol | species/src/syntax/symbol.rs:77-83 | `\K{text}` is a terminal symbol |
| Symbols.NontermEscapeSymbol | species/src/syntax/symbol.rs:100-106 | `\X{text}` is a nonterminal symbol |
| Symbols.BareTermEscapePanics | species/src/syntax/symbol.rs:78-81 | the symbol parser panics on a bare `\K` |
| Symbols.BareNontermEscapePanics | species/src/syntax/symbol.rs:101-104 | the symbol parser panics on a bare `\X` |
| Symbols.StructuralCommandIsNoSymbol | species/src/syntax/symbol.rs:137-139 | `\end…` and `\production…` are no symbol |
| Symbols.TerminalExample | species/src/syntax/symbol.rs:246 | `\I32` is the terminal `I32` with remainder `""` |
| Symbols.NonterminalExample | species/src/syntax/symbol.rs:248-256 | `\numtype` is the nonterminal `numtype` without a suffix |
| Symbols.RecordExample | species/src/syntax/symbol.rs:258-280 | `\{ \LMIN~\u32, \LMAX~\u32^? \}` is exactly the two pairs, the second optional |
| Syntax.Marker | species/src/syntax.rs:120-136 | `begin` and `end` succeed iff a command with that head name parses, leave that command's remainder, and otherwise fail recoverably |
| Syntax.Or | species/src/syntax.rs:138-142 | `or` succeeds iff the input starts with the bar character, and leaves `ws` of the rest |
| Syntax.ProductionName | species/src/syntax.rs:63-70 | the name is the first argument's name of a command named `production`; a bare `\production` panics |
| Syntax.ParseLhs | species/src/syntax.rs:74-80 | the left-hand side consumes a non-empty prefix and fails only recoverably; it collects no names iff the input starts with `::=`, and otherwise its first name is the head name of the command the input starts with |
| Syntax.LhsEmpty | species/src/syntax.rs:76 | `::=` right away gives no names, and `ws` of what follows |
| Syntax.ParseLhsCons | species/src/syntax.rs:76-77 | any command, whatever its parameters and arguments, adds its head name in front of the names the rest of the left-hand side collects |
| Syntax.LhsRoundTrip | species/src/syntax.rs:74-80 | written names followed by `::=` read back as those names, with the `::=` consumed |
| Syntax.MoreSymbols | species/src/syntax.rs:109 | the symbol repetition leaves a suffix and fails only by panicking |
| Syntax.MoreSymbolsRoundTrip | species/src/syntax.rs:109 | written symbols read back as those symbols |
| Syntax.ParseRhsElem | species/src/syntax.rs:108-117 | an alternative has at least one symbol, starts with the first symbol parsed, never sets a condition, and fails as the first symbol does |
| Syntax.ElemRoundTrip | species/src/syntax.rs:108-117 | a written run of symbols reads back as one alternative |
| Syntax.Alternative | species/src/syntax.rs:102 | an alternative after the first needs the bar token, then parses after `ws` |
| Syntax.AlternativeRoundTrip | species/src/syntax.rs:102 | the bar and a written alternative read back as that alternative |
| Syntax.MoreElems | species/src/syntax.rs:102 | the repetition of bar-prefixed alternatives leaves a suffix and fails only by panicking |
| Syntax.MoreElemsRoundTrip | species/src/syntax.rs:102 | written bar-prefixed alternatives read back as those alternatives |
| Syntax.ParseRhs | species/src/syntax.rs:101-104 | a right-hand side has at least one alternative and consumes a non-empty prefix |
| Syntax.RhsRoundTrip | species/src/syntax.rs:101-104 | written alternatives separated by bars read back as that right-hand side |
| Syntax.RhsExample | species/src/syntax.rs:303-309 | the four number types separated by bars, ending in `\\`, are four one-terminal alternatives with remainder `""` |
| Syntax.ParseProduction | species/src/syntax.rs:47-55 | a production carries the name `production_name` returns, has a non-empty right-hand side, and leaves no separator in front |
| Syntax.BreakIsNoSymbol | species/src/syntax.rs:51 | the line-ending `\\` is neither a symbol nor a bar, so it ends the right-hand side |
| Syntax.BreakCloses | species/src/syntax.rs:51 | the line-ending `\\` and the blank after it are skipped by `ws` |
| Syntax.ProductionRoundTrip | species/src/syntax.rs:47-55 | a written production, followed by another production or `\end`, reads back as its name, left-hand names and alternatives |
| Syntax.IsProduction | species/src/syntax.rs:58-61 | the look-ahead succeeds iff a production parses, consumes nothing, and fails as the production does |
| Syntax.ProductionAhead | species/src/syntax.rs:58-61 | in front of a written production the look-ahead returns the input unchanged |
| Syntax.MoreProductions | species/src/syntax.rs:87 | the production repetition leaves a suffix and fails only by panicking |
| Syntax.MoreProductionsRoundTrip | species/src/syntax.rs:87 | written productions up to `\end` read back as those productions |
| Syntax.ParseProductions | species/src/syntax.rs:87 | `many1` yields at least one production and fails as the first production does |
| Syntax.ProductionsRoundTrip | species/src/syntax.rs:87 | written productions read back, and zero productions fail recoverably |
| Syntax.ParseMathBlock | species/src/syntax.rs:84-97 | a math block holds at least one production and leaves no separator in front |
| Syntax.MathBlockFromParts | species/src/syntax.rs:84-97 | leading `ws`, `begin`, the productions, `end` and trailing `ws` compose into the block |
| Syntax.MathBlockRoundTrip | species/src/syntax.rs:84-97 | a written `\begin{array}{…}` block of productions ending in `\end{array}` reads back as exactly those productions |
| Syntax.EmptyBlockFails | species/src/syntax.rs:84-97 | a block without productions fails recoverably |
| Syntax.NumberTypeBlockExample | species/src/syntax.rs:196-205 | the number-type block parses whole to one production with the four number types |
| Syntax.GlobalTypeBlockExample | species/src/syntax.rs:279-289 | the global-type block parses whole to exactly the two productions `globaltype` and `mut` |
| Syntax.IndexBlockRoundTrip | species/src/syntax.rs:329-343 | a block of index lines `\production{…} & \…idx &::=& \u32 \\` parses whole to one production per line |
| Syntax.IndicesBlockExample | species/src/syntax.rs:329-343 | the nine-line index block parses whole to nine productions |

## Left out

- `Debug` implementations and the `dbg!` in `MathBlock::parser`: output formatting only. The block's value is modelled.
- `test_all_math_blocks`: it reads an environment variable and a file through `read_math_blocks`, which is not part of this model.
- `nom`'s `ErrorKind` and error positions: every recoverable failure is the single value `Error`.
- Panics are modelled as a `Panic` fault that every combinator passes on, carrying the message Rust prints for `args[0]` on an empty argument list (`ProductionIndexMessage`). Unwinding itself is not modelled.
- The remaining block unit tests are not proved as examples:
  - vector, reference, value, function, memory, table and external are written within the round trips' layout restrictions below, so the round-trip lemmas cover them;
  - result (`[\vec(\valtype)] \\`) and limits (`\{ … \} \\`) put a blank after a braced vector or a record, which the round trips exclude;
  - module has `\\&&&&` inside a record, and table-instruction has `\\&&|&` in the middle of a production; the round trips allow `\\` only at the end of a production.
- Round trips are proved for text written the way the grammar sources write it:
  - symbols that end in a command are followed by a blank of whitespace, `&` or `~`;
  - other symbols are followed by nothing;
  - `\\` appears only at the end of a production;
  - no written name begins with `quad` or `qquad` (`NotSpacing`), because `ws` would swallow that part of the command (`QuadPrefixSwallowed`);
  - a production is followed by another production or by `\end`.
- After a record, vector or braced vector, a separator ends the alternative, because only commands skip separators. The round trips exclude that layout instead of stating this behaviour.
- Syntax.ParseLhs: its contract states the first name only. The whole list of names is stated by `ParseLhsCons` step by step, and by `LhsRoundTrip` for left-hand sides written as bare commands.
- Syntax.ParseRhs: its contract does not say that each alternative is non-empty. That is stated by `ParseRhsElem` and `RhsRoundTrip`.
- Symbols.ParseSymbol: its contract states only progress. Which shape wins is stated by the `SymbolOf…` lemmas.
- Symbols.IsTerminal, Symbols.IsNonterminal: they require an argument after `K` or `X`. The parsers that call them turn a missing argument into a `Panic` fault instead.
- `many0` and `many1` would fail on a parser that consumes nothing. That case is not modelled: the repeated parsers provably consume, so it cannot arise.
