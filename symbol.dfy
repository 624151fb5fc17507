/** Grammar symbols (species/src/syntax/symbol.rs): a command is classified
    as a terminal or a nonterminal by the case of its name, and a symbol is
    the first of six shapes that parses. */
module Symbols {
  import opened ParseResult
  import opened Parser

  datatype Nonterm = Nonterm(name: string, seqKind: Option<SeqKind>)

  datatype Vec = Vec(over: Nonterm)

  datatype Symbol =
    | STerm(name: string)
    | SNonterm(nt: Nonterm)
    | SRecord(pairs: seq<(string, Symbol)>)
    | SBracedVec(inner: Vec)
    | SVec(vec: Vec)
    | SArrow(from: Nonterm, to: Nonterm)

  // ---------------------------------------------------------------------------
  // Classification by case

  predicate IsAsciiUpper(c: char) { 'A' <= c <= 'Z' }
  predicate IsAsciiLower(c: char) { 'a' <= c <= 'z' }
  predicate IsAsciiAlphabetic(c: char) { IsAsciiUpper(c) || IsAsciiLower(c) }

  /** Every ASCII letter of the name is upper-case. */
  predicate UpperCaseName(name: string) {
    forall i :: 0 <= i < |name| ==> IsAsciiAlphabetic(name[i]) ==> IsAsciiUpper(name[i])
  }

  /** Every ASCII letter of the name is lower-case. */
  predicate LowerCaseName(name: string) {
    forall i :: 0 <= i < |name| ==> IsAsciiAlphabetic(name[i]) ==> IsAsciiLower(name[i])
  }

  predicate HasNoLetters(name: string) {
    forall i :: 0 <= i < |name| ==> !IsAsciiAlphabetic(name[i])
  }

  /** Command::is_terminal. `\K{name}` names a terminal explicitly; the
      escape without an argument is the caller's error (the source panics). */
  function IsTerminal(c: Command): (r: Option<string>)
    requires c.head.name == "K" ==> c.args != []
    ensures r.Some? <==> UpperCaseName(c.head.name)
    ensures r.Some? && c.head.name == "K" ==> r.value == ArgumentName(c.args[0])
    ensures r.Some? && c.head.name != "K" ==> r.value == c.head.name
  {
    if c.head.name == "K" then
      assert UpperCaseName(c.head.name) by { assert c.head.name[0] == 'K'; }
      Some(ArgumentName(c.args[0]))
    else if UpperCaseName(c.head.name) then Some(c.head.name)
    else None
  }

  /** Command::is_nonterminal: the escape is `\X{name}`, the rule lower case. */
  function IsNonterminal(c: Command): (r: Option<string>)
    requires c.head.name == "X" ==> c.args != []
    ensures r.Some? <==> c.head.name == "X" || LowerCaseName(c.head.name)
    ensures r.Some? && c.head.name == "X" ==> r.value == ArgumentName(c.args[0])
    ensures r.Some? && c.head.name != "X" ==> r.value == c.head.name
  {
    if c.head.name == "X" then Some(ArgumentName(c.args[0]))
    else if LowerCaseName(c.head.name) then Some(c.head.name)
    else None
  }

  const TermEscapeMessage := "command `K` must have a symbol name as an argument"
  const NontermEscapeMessage := "command `X` must have a symbol name as an argument"

  /** The command at the start of `s` is `\name` with no arguments. */
  predicate BareEscape(s: string, name: string) {
    ParseCommand(s).Ok? && ParseCommand(s).value.0.head.name == name && ParseCommand(s).value.0.args == []
  }

  // ---------------------------------------------------------------------------
  // The six shapes

  /** STerm::parser: a command whose name classifies as a terminal; any
      repetition suffix on it is dropped. */
  function ParseTerm(s: string): (r: PResult<string>)
    ensures Consumed(r, s, true)
    ensures r.Ok? ==> ParseCommand(s).Ok? && r.value.1 == ParseCommand(s).value.1
    ensures r.Ok? ==> UpperCaseName(ParseCommand(s).value.0.head.name)
    ensures r.Err? && r.fault.Panic? <==> BareEscape(s, "K")
  {
    var p :- ParseCommand(s);
    var (cmd, rest) := p;
    if cmd.head.name == "K" && cmd.args == [] then Err(Panic(TermEscapeMessage))
    else
      match IsTerminal(cmd)
      case Some(name) => Ok((name, rest))
      case None => Err(Error)
  }

  /** SNonterm::parser: a command whose name classifies as a nonterminal,
      except the structural commands `\end` and `\production`; its repetition
      suffix is kept. */
  function ParseNonterm(s: string): (r: PResult<Nonterm>)
    ensures Consumed(r, s, true)
    ensures r.Ok? ==> ParseCommand(s).Ok? && r.value.1 == ParseCommand(s).value.1
    ensures r.Ok? ==> r.value.0.seqKind == ParseCommand(s).value.0.upnote
    ensures r.Ok? ==> var name := ParseCommand(s).value.0.head.name;
      name != "end" && name != "production" && (name == "X" || LowerCaseName(name))
    ensures r.Err? && r.fault.Panic? <==> BareEscape(s, "X")
  {
    var p :- ParseCommand(s);
    var (cmd, rest) := p;
    if cmd.head.name == "end" || cmd.head.name == "production" then Err(Error)
    else if cmd.head.name == "X" && cmd.args == [] then Err(Panic(NontermEscapeMessage))
    else
      match IsNonterminal(cmd)
      case Some(name) => Ok((Nonterm(name, cmd.upnote), rest))
      case None => Err(Error)
  }

  /** SVec::parser: the command `\vec`, then `(`, a nonterminal and `)`. */
  function ParseVec(s: string): (r: PResult<Vec>)
    ensures Consumed(r, s, true)
    ensures r.Ok? || r.fault.Panic? ==>
      ParseCommand(s).Ok? && ParseCommand(s).value.0.head.name == "vec"
      && StartsWith(ParseCommand(s).value.1, "(")
  {
    var p :- ParseCommand(s);
    var (cmd, s1) := p;
    if cmd.head.name != "vec" then Err(Error)
    else
      var open :- Tag("(", s1);
      var n :- ParseNonterm(open.1);
      var (nt, s2) := n;
      var close :- Tag(")", s2);
      SuffixTransitive(close.1, s2, open.1);
      SuffixTransitive(close.1, open.1, s1);
      SuffixTransitive(close.1, s1, s);
      Ok((Vec(nt), close.1))
  }

  /** SBracedVec::parser: a vector shape between `[` and `]`. */
  function ParseBracedVec(s: string): (r: PResult<Vec>)
    ensures Consumed(r, s, true)
    ensures r.Ok? || r.fault.Panic? ==> StartsWith(s, "[")
  {
    var open :- Tag("[", s);
    var v :- ParseVec(open.1);
    var close :- Tag("]", v.1);
    SuffixTransitive(close.1, v.1, open.1);
    SuffixTransitive(close.1, open.1, s);
    Ok((v.0, close.1))
  }

  /** SArrow::parser: a nonterminal, the command `\to`, a nonterminal. */
  function ParseArrow(s: string): (r: PResult<(Nonterm, Nonterm)>)
    ensures Consumed(r, s, true)
    ensures r.Ok? ==> ParseNonterm(s).Ok?
    ensures r.Ok? ==> var to := ParseCommand(ParseNonterm(s).value.1);
      to.Ok? && to.value.0.head.name == "to"
  {
    var f :- ParseNonterm(s);
    var (from, s1) := f;
    var a :- ParseCommand(s1);
    var (arrow, s2) := a;
    if arrow.head.name != "to" then Err(Error)
    else
      var t :- ParseNonterm(s2);
      var (to, s3) := t;
      SuffixTransitive(s3, s2, s1);
      SuffixTransitive(s3, s1, s);
      Ok(((from, to), s3))
  }

  /** The value of a record field: `alt` of a vector and a nonterminal. */
  function ParseValue(s: string): (r: PResult<Symbol>)
    ensures Consumed(r, s, true)
    ensures r.Ok? ==> r.value.0.SVec? || r.value.0.SNonterm?
  {
    OrElse(MapValue(ParseVec(s), v => SVec(v)), MapValue(ParseNonterm(s), n => SNonterm(n)))
  }

  /** SRecord::pair: separators, a terminal key, a value that is a vector
      (tried first) or a nonterminal, separators. */
  function ParsePair(s: string): (r: PResult<(string, Symbol)>)
    ensures Consumed(r, s, true)
    ensures r.Ok? ==> r.value.0.1.SVec? || r.value.0.1.SNonterm?
  {
    var s1 := Ws(s);
    var k :- ParseTerm(s1);
    var (key, s2) := k;
    var v :- ParseValue(s2);
    var (value, s3) := v;
    var rest := Ws(s3);
    SuffixTransitive(rest, s3, s2);
    SuffixTransitive(rest, s2, s1);
    SuffixTransitive(rest, s1, s);
    Ok(((key, value), rest))
  }

  /** The loop of `separated_list1(tag(","), pair)` after its first item: it
      stops before a comma whose pair fails recoverably. */
  function MorePairs(s: string): (r: PResult<seq<(string, Symbol)>>)
    decreases |s|
    ensures Consumed(r, s, false)
    ensures r.Err? ==> r.fault.Panic?
  {
    match Tag(",", s)
    case Err(_) => Ok(([], s))
    case Ok((_, s1)) =>
      match ParsePair(s1)
      case Err(Error) => Ok(([], s))
      case Err(fault) => Err(fault)
      case Ok((p, s2)) =>
        var more :- MorePairs(s2);
        var (ps, rest) := more;
        SuffixTransitive(rest, s2, s1);
        SuffixTransitive(rest, s1, s);
        Ok(([p] + ps, rest))
  }

  /** SRecord::parser: `\{`, one or more comma-separated pairs, `\}`. */
  function ParseRecord(s: string): (r: PResult<seq<(string, Symbol)>>)
    ensures Consumed(r, s, true)
    ensures r.Ok? ==> r.value.0 != []
    ensures r.Ok? || r.fault.Panic? ==> StartsWith(s, "\\{")
  {
    var open :- Tag("\\{", s);
    var first :- ParsePair(open.1);
    var more :- MorePairs(first.1);
    var close :- Tag("\\}", more.1);
    SuffixTransitive(close.1, more.1, first.1);
    SuffixTransitive(close.1, first.1, open.1);
    SuffixTransitive(close.1, open.1, s);
    Ok(([first.0] + more.0, close.1))
  }

  /** Symbol::parser: the first shape, in the order record, arrow, braced
      vector, vector, nonterminal, terminal, that does not fail recoverably. */
  function ParseSymbol(s: string): (r: PResult<Symbol>)
    ensures Consumed(r, s, true)
  {
    OrElse(MapValue(ParseRecord(s), ps => SRecord(ps)),
    OrElse(MapValue(ParseArrow(s), (a: (Nonterm, Nonterm)) => SArrow(a.0, a.1)),
    OrElse(MapValue(ParseBracedVec(s), v => SBracedVec(v)),
    OrElse(MapValue(ParseVec(s), v => SVec(v)),
    OrElse(MapValue(ParseNonterm(s), n => SNonterm(n)),
           MapValue(ParseTerm(s), name => STerm(name)))))))
  }

  // ---------------------------------------------------------------------------
  // Classification

  /** Both rules accept a command exactly when its name has no letters at all
      (digits only), or it is the nonterminal escape `X`, which is also an
      upper-case name. */
  lemma ClassifiersOverlap(c: Command)
    requires c.head.name == "K" ==> c.args != []
    requires c.head.name == "X" ==> c.args != []
    ensures IsTerminal(c).Some? && IsNonterminal(c).Some?
        <==> HasNoLetters(c.head.name) || c.head.name == "X"
  {
    var name := c.head.name;
    if name == "K" || name == "X" {
      assert IsAsciiAlphabetic(name[0]) && !IsAsciiLower(name[0]);
    }
  }

  // ---------------------------------------------------------------------------
  // Canonical rendering of symbols

  function RenderNonterm(nt: Nonterm): string {
    "\\" + nt.name + RenderSeqKind(nt.seqKind)
  }

  function RenderVec(v: Vec): string {
    "\\vec(" + RenderNonterm(v.over) + ")"
  }

  /** A nonterminal written by its name: lower case, not a structural command,
      and not a word Ws would skip. */
  predicate WellFormedNonterm(nt: Nonterm) {
    IsName(nt.name) && LowerCaseName(nt.name) && NotSpacing(nt.name)
    && nt.name != "end" && nt.name != "production"
  }

  /** A terminal written by its name: upper case and not an escape. */
  predicate WellFormedTerm(name: string) {
    IsName(name) && UpperCaseName(name) && name != "K" && name != "X"
  }

  lemma LowerIsNotEscape(name: string)
    requires LowerCaseName(name)
    ensures name != "X" && name != "K"
  {
    if name == "X" || name == "K" {
      assert IsAsciiAlphabetic(name[0]);
    }
  }

  // ---------------------------------------------------------------------------
  // Round trips of the single shapes

  /** A well-formed nonterminal reads back, keeping its repetition suffix. */
  lemma NontermRoundTrip(nt: Nonterm, t: string)
    requires WellFormedNonterm(nt) && Delimits(t)
    ensures ParseNonterm(RenderNonterm(nt) + t) == Ok((nt, Ws(t)))
  {
    BareCommandRoundTrip(nt.name, nt.seqKind, t);
    LowerIsNotEscape(nt.name);
    NontermOfCommand(RenderNonterm(nt) + t, BareCommand(nt.name, nt.seqKind), Ws(t), nt.name);
  }

  /** ParseTerm is IsTerminal applied to the parsed command. */
  lemma TermOfCommand(s: string, c: Command, rest: string, name: string)
    requires ParseCommand(s) == Ok((c, rest))
    requires c.head.name != "K" || c.args != []
    requires IsTerminal(c) == Some(name)
    ensures ParseTerm(s) == Ok((name, rest))
  {
  }

  /** ParseNonterm is IsNonterminal applied to the parsed command, bar the
      structural names. */
  lemma NontermOfCommand(s: string, c: Command, rest: string, name: string)
    requires ParseCommand(s) == Ok((c, rest))
    requires c.head.name != "end" && c.head.name != "production"
    requires c.head.name != "X" || c.args != []
    requires IsNonterminal(c) == Some(name)
    ensures ParseNonterm(s) == Ok((Nonterm(name, c.upnote), rest))
  {
  }

  /** A well-formed terminal reads back as its name. */
  lemma TermRoundTrip(name: string, t: string)
    requires WellFormedTerm(name) && Delimits(t)
    ensures ParseTerm("\\" + name + t) == Ok((name, Ws(t)))
  {
    assert "\\" + name + RenderSeqKind(None) + t == "\\" + name + t;
    BareCommandRoundTrip(name, None, t);
    TermOfCommand("\\" + name + t, BareCommand(name, None), Ws(t), name);
  }

  /** A terminal keeps only its name: a repetition suffix after it is
      consumed and dropped. */
  lemma TermDropsSuffix(name: string, k: Option<SeqKind>, t: string)
    requires WellFormedTerm(name) && Delimits(t)
    ensures ParseTerm("\\" + name + RenderSeqKind(k) + t) == Ok((name, Ws(t)))
  {
    BareCommandRoundTrip(name, k, t);
    TermOfCommand("\\" + name + RenderSeqKind(k) + t, BareCommand(name, k), Ws(t), name);
  }

  /** `\K{text}` is the terminal `text`, whatever its case. */
  lemma TermEscape(text: string, t: string)
    requires IsLiteral(text) && Delimits(t)
    ensures ParseTerm("\\K{" + text + "}" + t) == Ok((text, Ws(t)))
  {
    assert IsName("K");
    assert "\\" + "K" + "{" + text + "}" + t == "\\K{" + text + "}" + t;
    assert IsTerminal(LiteralCommand("K", text)) == Some(text);
    LiteralCommandRoundTrip("K", text, t);
    TermOfCommand("\\K{" + text + "}" + t, LiteralCommand("K", text), Ws(t), text);
  }

  /** `\X{text}` is the nonterminal `text`, whatever its case. */
  lemma NontermEscape(text: string, t: string)
    requires IsLiteral(text) && Delimits(t)
    ensures ParseNonterm("\\X{" + text + "}" + t) == Ok((Nonterm(text, None), Ws(t)))
  {
    NontermEscapeCommand(text, t);
    NontermOfCommand("\\X{" + text + "}" + t, LiteralCommand("X", text), Ws(t), text);
  }

  lemma NontermEscapeCommand(text: string, t: string)
    requires IsLiteral(text) && Delimits(t)
    ensures ParseCommand("\\X{" + text + "}" + t) == Ok((LiteralCommand("X", text), Ws(t)))
    ensures IsNonterminal(LiteralCommand("X", text)) == Some(text)
  {
    assert IsName("X");
    assert "\\" + "X" + "{" + text + "}" + t == "\\X{" + text + "}" + t;
    assert |"X"| == 1;
    LiteralCommandRoundTrip("X", text, t);
  }

  // ---------------------------------------------------------------------------
  // Vectors and arrows

  /** `\vec(` is a command with no arguments, then the `(` of the vector. */
  lemma VecText(nt: Nonterm, t: string)
    ensures RenderVec(Vec(nt)) + t
         == "\\" + "vec" + RenderSeqKind(None) + ("(" + (RenderNonterm(nt) + (")" + t)))
  {
  }

  lemma VecFromParts(s: string, u: string, nt: Nonterm, t: string)
    requires ParseCommand(s) == Ok((BareCommand("vec", None), "(" + u))
    requires ParseNonterm(u) == Ok((nt, ")" + t))
    ensures ParseVec(s) == Ok((Vec(nt), t))
  {
    TagMatches("(", u);
    TagMatches(")", t);
  }

  /** A vector of a well-formed nonterminal reads back, and the closing
      parenthesis is the last character consumed. */
  lemma VecRoundTrip(v: Vec, t: string)
    requires WellFormedNonterm(v.over)
    ensures ParseVec(RenderVec(v) + t) == Ok((v, t))
  {
    var u := RenderNonterm(v.over) + (")" + t);
    VecText(v.over, t);
    assert IsName("vec");
    NoSeparatorAt("(" + u);
    NoSeparatorAt(")" + t);
    BareCommandRoundTrip("vec", None, "(" + u);
    NontermRoundTrip(v.over, ")" + t);
    VecFromParts(RenderVec(v) + t, u, v.over, t);
  }

  function RenderBracedVec(v: Vec): string {
    "[" + RenderVec(v) + "]"
  }

  lemma BracedVecFromParts(u: string, v: Vec, t: string)
    requires ParseVec(u) == Ok((v, "]" + t))
    ensures ParseBracedVec("[" + u) == Ok((v, t))
  {
    TagMatches("[", u);
    TagMatches("]", t);
  }

  /** A vector in square brackets reads back. */
  lemma BracedVecRoundTrip(v: Vec, t: string)
    requires WellFormedNonterm(v.over)
    ensures ParseBracedVec(RenderBracedVec(v) + t) == Ok((v, t))
  {
    assert RenderBracedVec(v) + t == "[" + (RenderVec(v) + ("]" + t));
    VecRoundTrip(v, "]" + t);
    BracedVecFromParts(RenderVec(v) + ("]" + t), v, t);
  }

  function RenderArrow(from: Nonterm, to: Nonterm): string {
    RenderNonterm(from) + " \\to " + RenderNonterm(to)
  }

  lemma ArrowText(from: Nonterm, to: Nonterm, t: string)
    ensures RenderArrow(from, to) + t
         == RenderNonterm(from) + (" " + ("\\" + "to" + RenderSeqKind(None) + (" " + (RenderNonterm(to) + t))))
  {
  }

  lemma ToIsNotSpacing()
    ensures IsName("to") && NotSpacing("to")
  {
    MismatchAt("to", "quad", 0);
    MismatchAt("to", "qquad", 0);
  }

  /** Ws stops in front of a rendered nonterminal. */
  lemma WsStopsAtNonterm(nt: Nonterm, t: string)
    requires WellFormedNonterm(nt) && Delimits(t)
    ensures Ws(RenderNonterm(nt) + t) == RenderNonterm(nt) + t
  {
    var x := RenderSeqKind(nt.seqKind) + t;
    RenderSeqKindFirst(nt.seqKind, t);
    assert RenderNonterm(nt) + t == "\\" + nt.name + x;
    WsStopsAtCommand(nt.name, x);
  }

  lemma ArrowFromParts(s: string, from: Nonterm, mid: string, to: Nonterm, tail: string, rest: string)
    requires ParseNonterm(s) == Ok((from, mid))
    requires ParseCommand(mid) == Ok((BareCommand("to", None), tail))
    requires ParseNonterm(tail) == Ok((to, rest))
    ensures ParseArrow(s) == Ok(((from, to), rest))
  {
  }

  /** `from \to to` reads back as the pair of its nonterminals. */
  lemma ArrowRoundTrip(from: Nonterm, to: Nonterm, t: string)
    requires WellFormedNonterm(from) && WellFormedNonterm(to) && Delimits(t)
    ensures ParseArrow(RenderArrow(from, to) + t) == Ok(((from, to), Ws(t)))
  {
    var tail := RenderNonterm(to) + t;
    var mid := "\\" + "to" + RenderSeqKind(None) + (" " + tail);
    ArrowFirst(from, to, t);
    ArrowMiddle(to, t);
    NontermRoundTrip(to, t);
    ArrowFromParts(RenderArrow(from, to) + t, from, mid, to, tail, Ws(t));
  }

  lemma ArrowFirst(from: Nonterm, to: Nonterm, t: string)
    requires WellFormedNonterm(from) && WellFormedNonterm(to) && Delimits(t)
    ensures ParseNonterm(RenderArrow(from, to) + t)
         == Ok((from, "\\" + "to" + RenderSeqKind(None) + (" " + (RenderNonterm(to) + t))))
  {
    var mid := "\\" + "to" + RenderSeqKind(None) + (" " + (RenderNonterm(to) + t));
    ArrowText(from, to, t);
    ArrowSpacing(to, t);
    SpaceDelimits(mid);
    NontermRoundTrip(from, " " + mid);
  }

  lemma ArrowMiddle(to: Nonterm, t: string)
    requires WellFormedNonterm(to) && Delimits(t)
    ensures var tail := RenderNonterm(to) + t;
      ParseCommand("\\" + "to" + RenderSeqKind(None) + (" " + tail)) == Ok((BareCommand("to", None), tail))
  {
    var tail := RenderNonterm(to) + t;
    ArrowSpacing(to, t);
    ToIsNotSpacing();
    SpaceDelimits(tail);
    BareCommandRoundTrip("to", None, " " + tail);
  }

  /** The separators around `\to` are skipped, and nothing more. */
  lemma ArrowSpacing(to: Nonterm, t: string)
    requires WellFormedNonterm(to) && Delimits(t)
    ensures var tail := RenderNonterm(to) + t;
      var mid := "\\" + "to" + RenderSeqKind(None) + (" " + tail);
      Ws(" " + mid) == mid && Ws(" " + tail) == tail
  {
    var tail := RenderNonterm(to) + t;
    var mid := "\\" + "to" + RenderSeqKind(None) + (" " + tail);
    ToIsNotSpacing();
    assert mid == "\\" + "to" + (" " + tail);
    WsStopsAtCommand("to", " " + tail);
    WsSkipsSpace(' ', mid);
    WsStopsAtNonterm(to, t);
    WsSkipsSpace(' ', tail);
  }

  // ---------------------------------------------------------------------------
  // Records

  /** A record value is a vector or a nonterminal; other shapes never occur
      there and render as nothing. */
  function RenderValue(v: Symbol): string {
    match v
    case SVec(vec) => RenderVec(vec)
    case SNonterm(nt) => RenderNonterm(nt)
    case _ => ""
  }

  predicate WellFormedValue(v: Symbol) {
    (v.SVec? && WellFormedNonterm(v.vec.over)) || (v.SNonterm? && WellFormedNonterm(v.nt))
  }

  predicate WellFormedPair(p: (string, Symbol)) {
    WellFormedTerm(p.0) && WellFormedValue(p.1)
  }

  /** `\KEY~value`, the way the grammar sources write a field. */
  function RenderPair(p: (string, Symbol)): string {
    "\\" + p.0 + "~" + RenderValue(p.1)
  }

  /** `, \KEY~value` for each further field. */
  function RenderMorePairs(ps: seq<(string, Symbol)>): string {
    if ps == [] then "" else ", " + RenderPair(ps[0]) + RenderMorePairs(ps[1..])
  }

  /** `\{ field, field \}`; a record has at least one field. */
  function RenderRecord(ps: seq<(string, Symbol)>): string {
    if ps == [] then "\\{ \\}"
    else "\\{ " + RenderPair(ps[0]) + RenderMorePairs(ps[1..]) + " \\}"
  }

  lemma UpperIsNotSpacing(name: string)
    requires IsName(name) && UpperCaseName(name)
    ensures NotSpacing(name)
  {
    assert !IsAsciiLower(name[0]) by {
      assert IsAsciiAlphabetic(name[0]) ==> IsAsciiUpper(name[0]);
    }
    MismatchAt(name, "quad", 0);
    MismatchAt(name, "qquad", 0);
  }

  /** A nonterminal is not taken for a vector unless `(` follows it. */
  lemma VecRejectsNonterm(nt: Nonterm, t: string)
    requires WellFormedNonterm(nt) && Delimits(t) && !StartsWith(Ws(t), "(")
    ensures ParseVec(RenderNonterm(nt) + t) == Err(Error)
  {
    BareCommandRoundTrip(nt.name, nt.seqKind, t);
  }

  /** Both kinds of record value read back; separators after them are left
      for the pair to skip. */
  lemma ValueRoundTrip(v: Symbol, t: string)
    requires WellFormedValue(v) && Delimits(t) && !StartsWith(Ws(t), "(")
    ensures ParseValue(RenderValue(v) + t).Ok?
    ensures ParseValue(RenderValue(v) + t).value.0 == v
    ensures Ws(ParseValue(RenderValue(v) + t).value.1) == Ws(t)
  {
    if v.SVec? {
      assert RenderValue(v) + t == RenderVec(v.vec) + t;
      VecValueRoundTrip(v.vec, t);
    } else {
      assert RenderValue(v) + t == RenderNonterm(v.nt) + t;
      NontermValueRoundTrip(v.nt, t);
    }
  }

  lemma VecValueRoundTrip(vec: Vec, t: string)
    requires WellFormedNonterm(vec.over)
    ensures ParseValue(RenderVec(vec) + t) == Ok((SVec(vec), t))
  {
    VecRoundTrip(vec, t);
    ValueOfVec(RenderVec(vec) + t, vec, t);
  }

  lemma NontermValueRoundTrip(nt: Nonterm, t: string)
    requires WellFormedNonterm(nt) && Delimits(t) && !StartsWith(Ws(t), "(")
    ensures ParseValue(RenderNonterm(nt) + t) == Ok((SNonterm(nt), Ws(t)))
    ensures Ws(Ws(t)) == Ws(t)
  {
    VecRejectsNonterm(nt, t);
    NontermRoundTrip(nt, t);
    ValueOfNonterm(RenderNonterm(nt) + t, nt, Ws(t));
    WsIdempotent(t);
  }

  lemma ValueOfVec(s: string, vec: Vec, rest: string)
    requires ParseVec(s) == Ok((vec, rest))
    ensures ParseValue(s) == Ok((SVec(vec), rest))
  {
  }

  lemma ValueOfNonterm(s: string, nt: Nonterm, rest: string)
    requires ParseVec(s) == Err(Error) && ParseNonterm(s) == Ok((nt, rest))
    ensures ParseValue(s) == Ok((SNonterm(nt), rest))
  {
  }

  /** The text between `\{` (or a comma) and a value: a space, the key and `~`. */
  lemma PairText(p: (string, Symbol), t: string)
    ensures " " + RenderPair(p) + t == [' '] + ("\\" + p.0 + ("~" + (RenderValue(p.1) + t)))
  {
    PairShape(p.0, RenderValue(p.1), t);
  }

  lemma PairShape(key: string, v: string, t: string)
    ensures " " + ("\\" + key + "~" + v) + t == [' '] + ("\\" + key + ("~" + (v + t)))
  {
    assert " " == [' '];
  }

  /** Ws stops in front of every rendered value. */
  lemma WsStopsAtValue(v: Symbol, t: string)
    requires WellFormedValue(v) && Delimits(t)
    ensures Ws(RenderValue(v) + t) == RenderValue(v) + t
  {
    if v.SVec? {
      assert RenderValue(v) + t == RenderVec(v.vec) + t;
      WsStopsAtVec(v.vec, t);
    } else {
      assert RenderValue(v) + t == RenderNonterm(v.nt) + t;
      WsStopsAtNonterm(v.nt, t);
    }
  }

  lemma WsStopsAtVec(vec: Vec, t: string)
    ensures Ws(RenderVec(vec) + t) == RenderVec(vec) + t
  {
    var x := "(" + (RenderNonterm(vec.over) + ")" + t);
    assert IsName("vec") && NotSpacing("vec") by {
      MismatchAt("vec", "quad", 0);
      MismatchAt("vec", "qquad", 0);
    }
    assert RenderVec(vec) + t == "\\" + "vec" + x;
    WsStopsAtCommand("vec", x);
  }

  lemma PairFromParts(s: string, u: string, key: string, v: Symbol, rest: string)
    requires ParseTerm(Ws(s)) == Ok((key, u))
    requires ParseValue(u).Ok? && ParseValue(u).value.0 == v && Ws(ParseValue(u).value.1) == rest
    ensures ParsePair(s) == Ok(((key, v), rest))
  {
  }

  /** One field, after its leading space, reads back; the separators after
      it are consumed. */
  lemma PairRoundTrip(p: (string, Symbol), t: string)
    requires WellFormedPair(p) && Delimits(t) && !StartsWith(Ws(t), "(")
    ensures ParsePair(" " + RenderPair(p) + t) == Ok((p, Ws(t)))
  {
    var u := "~" + (RenderValue(p.1) + t);
    var key := "\\" + p.0 + u;
    PairText(p, t);
    UpperIsNotSpacing(p.0);
    WsStopsAtCommand(p.0, u);
    WsSkipsSpace(' ', key);
    WsSkipsTag("~", RenderValue(p.1) + t);
    WsStopsAtValue(p.1, t);
    TermRoundTrip(p.0, u);
    ValueRoundTrip(p.1, t);
    PairFromParts(" " + RenderPair(p) + t, RenderValue(p.1) + t, p.0, p.1, Ws(t));
  }

  /** Ws after the last field stops at the closing `\}`. */
  lemma WsAtRecordEnd(t: string)
    ensures Ws(" \\}" + t) == "\\}" + t
  {
    var e := "\\}" + t;
    RecordEndStays(t);
    assert " \\}" + t == [' '] + e;
    WsSkipsSpace(' ', e);
  }

  lemma RecordEndStays(t: string)
    ensures Ws("\\}" + t) == "\\}" + t
  {
    var e := "\\}" + t;
    assert e[0] == '\\' && e[1] == '}';
    BackslashStays(e);
  }

  /** What follows a field inside a rendered record: a comma or the closing
      space, and Ws stops at the comma or the `\}`. */
  lemma FieldFollower(ps: seq<(string, Symbol)>, t: string)
    ensures var r := RenderMorePairs(ps) + (" \\}" + t);
      r != [] && (r[0] == ',' || r[0] == ' ')
      && Ws(r) == (if ps == [] then "\\}" + t else r)
  {
    var r := RenderMorePairs(ps) + (" \\}" + t);
    if ps == [] {
      assert r == " \\}" + t;
      WsAtRecordEnd(t);
    } else {
      assert r[0] == ',';
      NoSeparatorAt(r);
    }
  }

  /** A field followed by the rest of a rendered record reads back. */
  lemma FieldRoundTrip(p: (string, Symbol), ps: seq<(string, Symbol)>, t: string)
    requires WellFormedPair(p)
    ensures var r := RenderMorePairs(ps) + (" \\}" + t);
      ParsePair(" " + RenderPair(p) + r) == Ok((p, Ws(r)))
  {
    var r := RenderMorePairs(ps) + (" \\}" + t);
    FieldFollower(ps, t);
    MismatchAt(Ws(r), "(", 0);
    PairRoundTrip(p, r);
  }

  lemma MorePairsStop(s: string)
    requires !StartsWith(s, ",")
    ensures MorePairs(s) == Ok(([], s))
  {
  }

  lemma MorePairsCons(s1: string, p: (string, Symbol), rest: string, ps: seq<(string, Symbol)>, e: string)
    requires ParsePair(s1) == Ok((p, rest)) && MorePairs(rest) == Ok((ps, e))
    ensures MorePairs("," + s1) == Ok(([p] + ps, e))
  {
    TagMatches(",", s1);
  }

  /** A further field: its comma, then the field as it follows `\{`; Ws
      leaves the comma in place. */
  lemma MorePairsText(q: (string, Symbol), ps: seq<(string, Symbol)>, t: string)
    ensures var s := RenderMorePairs([q] + ps) + (" \\}" + t);
      s == "," + (" " + RenderPair(q) + (RenderMorePairs(ps) + (" \\}" + t))) && Ws(s) == s
  {
    var rp, m, e := RenderPair(q), RenderMorePairs(ps), " \\}" + t;
    assert ([q] + ps)[0] == q && ([q] + ps)[1..] == ps;
    assert RenderMorePairs([q] + ps) == ", " + rp + m;
    calc {
      (", " + rp + m) + e;
      { Associative(", " + rp, m, e); }
      (", " + rp) + (m + e);
      { assert ", " + rp == "," + (" " + rp); }
      ("," + (" " + rp)) + (m + e);
      { Associative(",", " " + rp, m + e); }
      "," + ((" " + rp) + (m + e));
    }
    CommaStaysPut("," + ((" " + rp) + (m + e)));
  }

  lemma CommaStaysPut(s: string)
    requires s != [] && s[0] == ','
    ensures Ws(s) == s
  {
    NoSeparatorAt(s);
  }

  /** The fields after the first read back, up to the closing `\}`. */
  lemma {:induction false} MorePairsRoundTrip(ps: seq<(string, Symbol)>, t: string)
    requires forall i :: 0 <= i < |ps| ==> WellFormedPair(ps[i])
    ensures MorePairs(Ws(RenderMorePairs(ps) + (" \\}" + t))) == Ok((ps, "\\}" + t))
  {
    if ps == [] {
      MorePairsEnd(t);
    } else {
      MorePairsRoundTrip(ps[1..], t);
      MorePairsStep(ps[0], ps[1..], t);
      HeadAndTail(ps);
    }
  }

  lemma MorePairsEnd(t: string)
    ensures MorePairs(Ws(RenderMorePairs([]) + (" \\}" + t))) == Ok(([], "\\}" + t))
  {
    FieldFollower([], t);
    MismatchAt("\\}" + t, ",", 0);
    MorePairsStop("\\}" + t);
  }

  lemma MorePairsStep(q: (string, Symbol), ps: seq<(string, Symbol)>, t: string)
    requires WellFormedPair(q)
    requires MorePairs(Ws(RenderMorePairs(ps) + (" \\}" + t))) == Ok((ps, "\\}" + t))
    ensures MorePairs(Ws(RenderMorePairs([q] + ps) + (" \\}" + t))) == Ok(([q] + ps, "\\}" + t))
  {
    var r := RenderMorePairs(ps) + (" \\}" + t);
    MorePairsText(q, ps, t);
    FieldRoundTrip(q, ps, t);
    MorePairsCons(" " + RenderPair(q) + r, q, Ws(r), ps, "\\}" + t);
  }

  lemma RecordFromParts(p: (string, Symbol), ps: seq<(string, Symbol)>, t: string)
    requires var r := RenderMorePairs(ps) + (" \\}" + t);
      ParsePair(" " + RenderPair(p) + r) == Ok((p, Ws(r)))
      && MorePairs(Ws(r)) == Ok((ps, "\\}" + t))
    ensures ParseRecord(RenderRecord([p] + ps) + t) == Ok(([p] + ps, t))
  {
    var u := " " + RenderPair(p) + (RenderMorePairs(ps) + (" \\}" + t));
    RecordText(p, ps, t);
    TagMatches("\\{", u);
    TagMatches("\\}", t);
  }

  lemma RecordText(p: (string, Symbol), ps: seq<(string, Symbol)>, t: string)
    ensures RenderRecord([p] + ps) + t
         == "\\{" + (" " + RenderPair(p) + (RenderMorePairs(ps) + (" \\}" + t)))
  {
    assert ([p] + ps)[0] == p && ([p] + ps)[1..] == ps;
    RecordShape(RenderPair(p), RenderMorePairs(ps), t);
  }

  lemma RecordShape(a: string, m: string, t: string)
    ensures "\\{ " + a + m + " \\}" + t == "\\{" + (" " + a + (m + (" \\}" + t)))
  {
    assert "\\{ " == "\\{" + " ";
  }

  /** A record of well-formed fields reads back, up to and including its
      closing `\}`. */
  lemma RecordRoundTrip(p: (string, Symbol), ps: seq<(string, Symbol)>, t: string)
    requires WellFormedPair(p) && forall i :: 0 <= i < |ps| ==> WellFormedPair(ps[i])
    ensures ParseRecord(RenderRecord([p] + ps) + t) == Ok(([p] + ps, t))
  {
    FieldRoundTrip(p, ps, t);
    MorePairsRoundTrip(ps, t);
    RecordFromParts(p, ps, t);
  }

  // ---------------------------------------------------------------------------
  // Symbol::parser: which alternative wins

  function RenderSymbol(sym: Symbol): string {
    match sym
    case STerm(name) => "\\" + name
    case SNonterm(nt) => RenderNonterm(nt)
    case SRecord(ps) => RenderRecord(ps)
    case SBracedVec(v) => RenderBracedVec(v)
    case SVec(v) => RenderVec(v)
    case SArrow(from, to) => RenderArrow(from, to)
  }

  /** A terminal that the nonterminal rule does not also accept (so it has a
      letter), and shapes built from well-formed nonterminals. */
  predicate WellFormedSymbol(sym: Symbol) {
    match sym
    case STerm(name) => WellFormedTerm(name) && !LowerCaseName(name)
    case SNonterm(nt) => WellFormedNonterm(nt)
    case SRecord(ps) => ps != [] && forall i :: 0 <= i < |ps| ==> WellFormedPair(ps[i])
    case SBracedVec(v) => WellFormedNonterm(v.over)
    case SVec(v) => WellFormedNonterm(v.over)
    case SArrow(from, to) => WellFormedNonterm(from) && WellFormedNonterm(to)
  }

  /** The text at `u` begins with the command `\to`. */
  predicate StartsWithTo(u: string) {
    ParseCommand(u).Ok? && ParseCommand(u).value.0.head.name == "to"
  }

  /** What may follow a symbol without changing how it reads: nothing that
      continues its last command, no `(` that would make `\vec` a vector, and
      no `\to` that would make a nonterminal the start of an arrow. */
  predicate Follows(t: string) {
    Delimits(t) && !StartsWith(Ws(t), "(") && !StartsWithTo(Ws(t))
  }

  /** The shapes that end in a command, whose trailing separators are consumed. */
  predicate EndsInCommand(sym: Symbol) {
    sym.STerm? || sym.SNonterm? || sym.SArrow?
  }

  lemma RecordNeedsBrace(s: string)
    requires !StartsWith(s, "\\{")
    ensures ParseRecord(s) == Err(Error)
  {
  }

  lemma BracedVecNeedsBracket(s: string)
    requires !StartsWith(s, "[")
    ensures ParseBracedVec(s) == Err(Error)
  {
  }

  lemma VecNeedsVec(s: string)
    requires ParseCommand(s).Ok? ==>
      ParseCommand(s).value.0.head.name != "vec" || !StartsWith(ParseCommand(s).value.1, "(")
    ensures ParseVec(s) == Err(Error)
  {
  }

  /** An arrow fails as its first nonterminal does. */
  lemma ArrowNeedsNonterm(s: string)
    requires ParseNonterm(s).Err?
    ensures ParseArrow(s) == Err(ParseNonterm(s).fault)
  {
  }

  lemma ArrowNeedsTo(s: string)
    requires ParseNonterm(s).Ok? && !StartsWithTo(ParseNonterm(s).value.1)
    ensures ParseArrow(s) == Err(Error)
  {
  }

  /** A command that is not lower case and not the escape is no nonterminal. */
  lemma NontermRejects(s: string)
    requires ParseCommand(s).Ok?
    requires var name := ParseCommand(s).value.0.head.name;
      name == "end" || name == "production" || (name != "X" && !LowerCaseName(name))
    ensures ParseNonterm(s) == Err(Error)
  {
  }

  lemma SymbolOfRecord(s: string)
    requires ParseRecord(s).Ok?
    ensures ParseSymbol(s) == Ok((SRecord(ParseRecord(s).value.0), ParseRecord(s).value.1))
  {
  }

  lemma SymbolOfArrow(s: string)
    requires ParseRecord(s) == Err(Error) && ParseArrow(s).Ok?
    ensures var a := ParseArrow(s).value;
      ParseSymbol(s) == Ok((SArrow(a.0.0, a.0.1), a.1))
  {
  }

  lemma SymbolOfBracedVec(s: string)
    requires ParseRecord(s) == Err(Error) && ParseArrow(s) == Err(Error)
    requires ParseBracedVec(s).Ok?
    ensures ParseSymbol(s) == Ok((SBracedVec(ParseBracedVec(s).value.0), ParseBracedVec(s).value.1))
  {
  }

  lemma SymbolOfVec(s: string)
    requires ParseRecord(s) == Err(Error) && ParseArrow(s) == Err(Error)
    requires ParseBracedVec(s) == Err(Error) && ParseVec(s).Ok?
    ensures ParseSymbol(s) == Ok((SVec(ParseVec(s).value.0), ParseVec(s).value.1))
  {
  }

  lemma SymbolOfNonterm(s: string)
    requires ParseRecord(s) == Err(Error) && ParseArrow(s) == Err(Error)
    requires ParseBracedVec(s) == Err(Error) && ParseVec(s) == Err(Error)
    requires ParseNonterm(s).Ok?
    ensures ParseSymbol(s) == Ok((SNonterm(ParseNonterm(s).value.0), ParseNonterm(s).value.1))
  {
  }

  /** When no other shape applies, the symbol is whatever the terminal rule
      makes of the input, its failures included. */
  lemma SymbolOfTerm(s: string)
    requires ParseRecord(s) == Err(Error) && ParseArrow(s) == Err(Error)
    requires ParseBracedVec(s) == Err(Error) && ParseVec(s) == Err(Error)
    requires ParseNonterm(s) == Err(Error)
    ensures ParseSymbol(s) == MapValue(ParseTerm(s), name => STerm(name))
  {
  }

  /** Input that opens with a command is neither a record nor a bracketed vector. */
  lemma OpensWithCommand(s: string)
    requires |s| >= 2 && s[0] == '\\' && IsAlphanumeric(s[1])
    ensures ParseRecord(s) == Err(Error) && ParseBracedVec(s) == Err(Error)
  {
    MismatchAt(s, "\\{", 1);
    MismatchAt(s, "[", 0);
    RecordNeedsBrace(s);
    BracedVecNeedsBracket(s);
  }

  lemma NontermOpens(nt: Nonterm, x: string)
    requires IsName(nt.name)
    ensures var s := RenderNonterm(nt) + x;
      |s| >= 2 && s[0] == '\\' && IsAlphanumeric(s[1])
  {
    var s := RenderNonterm(nt) + x;
    assert s[1] == nt.name[0];
  }

  lemma RecordSymbolRoundTrip(ps: seq<(string, Symbol)>, t: string)
    requires WellFormedSymbol(SRecord(ps))
    ensures ParseSymbol(RenderRecord(ps) + t) == Ok((SRecord(ps), t))
  {
    HeadAndTail(ps);
    RecordRoundTrip(ps[0], ps[1..], t);
    SymbolOfRecord(RenderRecord(ps) + t);
  }

  lemma ArrowSymbolRoundTrip(from: Nonterm, to: Nonterm, t: string)
    requires WellFormedSymbol(SArrow(from, to)) && Delimits(t)
    ensures ParseSymbol(RenderArrow(from, to) + t) == Ok((SArrow(from, to), Ws(t)))
  {
    var s := RenderArrow(from, to) + t;
    assert s == RenderNonterm(from) + (" \\to " + RenderNonterm(to) + t);
    NontermOpens(from, " \\to " + RenderNonterm(to) + t);
    OpensWithCommand(s);
    ArrowRoundTrip(from, to, t);
    SymbolOfArrow(s);
  }

  lemma BracedVecSymbolRoundTrip(v: Vec, t: string)
    requires WellFormedSymbol(SBracedVec(v))
    ensures ParseSymbol(RenderBracedVec(v) + t) == Ok((SBracedVec(v), t))
  {
    var s := RenderBracedVec(v) + t;
    assert s[0] == '[';
    MismatchAt(s, "\\{", 0);
    RecordNeedsBrace(s);
    ArrowNeedsNonterm(s);
    BracedVecRoundTrip(v, t);
    SymbolOfBracedVec(s);
  }

  /** `\vec` alone is a nonterminal, so the arrow alternative reads it and
      then fails at the `(`. */
  lemma VecIsNontermAlone(v: Vec, t: string)
    ensures var s := RenderVec(v) + t;
      ParseNonterm(s).Ok? && ParseNonterm(s).value.1 == "(" + (RenderNonterm(v.over) + ")" + t)
  {
    var u := "(" + (RenderNonterm(v.over) + ")" + t);
    var vec := Nonterm("vec", None);
    assert WellFormedNonterm(vec) by {
      MismatchAt("vec", "quad", 0);
      MismatchAt("vec", "qquad", 0);
    }
    assert RenderVec(v) + t == RenderNonterm(vec) + u;
    NoSeparatorAt(u);
    NontermRoundTrip(vec, u);
  }

  lemma VecSymbolRoundTrip(v: Vec, t: string)
    requires WellFormedSymbol(SVec(v))
    ensures ParseSymbol(RenderVec(v) + t) == Ok((SVec(v), t))
  {
    var s := RenderVec(v) + t;
    assert s[0] == '\\' && s[1] == 'v';
    OpensWithCommand(s);
    VecIsNontermAlone(v, t);
    ArrowNeedsTo(s);
    VecRoundTrip(v, t);
    SymbolOfVec(s);
  }

  lemma NontermSymbolRoundTrip(nt: Nonterm, t: string)
    requires WellFormedSymbol(SNonterm(nt)) && Follows(t)
    ensures ParseSymbol(RenderNonterm(nt) + t) == Ok((SNonterm(nt), Ws(t)))
  {
    var s := RenderNonterm(nt) + t;
    NontermOpens(nt, t);
    OpensWithCommand(s);
    NontermRoundTrip(nt, t);
    ArrowNeedsTo(s);
    VecRejectsNonterm(nt, t);
    SymbolOfNonterm(s);
  }

  /** A command whose name is neither lower case nor the escape `X` is no
      shape but a terminal. */
  lemma CommandIsNoOtherShape(s: string)
    requires ParseCommand(s).Ok?
    requires var name := ParseCommand(s).value.0.head.name; !LowerCaseName(name) && name != "X"
    ensures ParseRecord(s) == Err(Error) && ParseArrow(s) == Err(Error) && ParseBracedVec(s) == Err(Error)
      && ParseVec(s) == Err(Error) && ParseNonterm(s) == Err(Error)
  {
    OpensWithCommand(s);
    CommandIsNoNonterm(s);
  }

  lemma NotVec(name: string)
    requires !LowerCaseName(name)
    ensures name != "vec"
  {
    assert LowerCaseName("vec");
  }

  lemma CommandIsNoNonterm(s: string)
    requires ParseCommand(s).Ok?
    requires var name := ParseCommand(s).value.0.head.name; !LowerCaseName(name) && name != "X"
    ensures ParseArrow(s) == Err(Error) && ParseVec(s) == Err(Error) && ParseNonterm(s) == Err(Error)
  {
    NotVec(ParseCommand(s).value.0.head.name);
    NontermRejects(s);
    ArrowNeedsNonterm(s);
    VecNeedsVec(s);
  }

  /** A terminal that is not also a nonterminal is no other shape. */
  lemma TermIsNoOtherShape(name: string, t: string)
    requires IsName(name) && !LowerCaseName(name) && name != "X" && Delimits(t)
    ensures var s := "\\" + name + t;
      ParseRecord(s) == Err(Error) && ParseArrow(s) == Err(Error) && ParseBracedVec(s) == Err(Error)
      && ParseVec(s) == Err(Error) && ParseNonterm(s) == Err(Error)
  {
    var s := "\\" + name + t;
    assert s == "\\" + name + RenderSeqKind(None) + t;
    BareCommandRoundTrip(name, None, t);
    CommandIsNoOtherShape(s);
  }

  lemma TermSymbolRoundTrip(name: string, t: string)
    requires WellFormedSymbol(STerm(name)) && Delimits(t)
    ensures ParseSymbol("\\" + name + t) == Ok((STerm(name), Ws(t)))
  {
    TermIsNoOtherShape(name, t);
    TermRoundTrip(name, t);
    SymbolOfTerm("\\" + name + t);
  }

  /** Every well-formed symbol reads back as itself: the order in which
      Symbol::parser tries the shapes never lets an earlier one claim the
      rendering of a later one. */
  lemma SymbolRoundTrip(sym: Symbol, t: string)
    requires WellFormedSymbol(sym) && (EndsInCommand(sym) ==> Follows(t))
    ensures ParseSymbol(RenderSymbol(sym) + t) == Ok((sym, if EndsInCommand(sym) then Ws(t) else t))
  {
    match sym
    case STerm(name) => TermSymbolRoundTrip(name, t);
    case SNonterm(nt) => NontermSymbolRoundTrip(nt, t);
    case SRecord(ps) => RecordSymbolRoundTrip(ps, t);
    case SBracedVec(v) => BracedVecSymbolRoundTrip(v, t);
    case SVec(v) => VecSymbolRoundTrip(v, t);
    case SArrow(from, to) => ArrowSymbolRoundTrip(from, to, t);
  }

  // ---------------------------------------------------------------------------
  // Escapes, panics and the structural commands, at the level of symbols

  lemma EscapeNames()
    ensures IsName("K") && !LowerCaseName("K") && IsName("X")
  {
    assert "K"[0] == 'K' && "X"[0] == 'X';
  }

  /** `\K{text}` is the terminal `text`. */
  lemma TermEscapeSymbol(text: string, t: string)
    requires IsLiteral(text) && Delimits(t)
    ensures ParseSymbol("\\K{" + text + "}" + t) == Ok((STerm(text), Ws(t)))
  {
    var s := "\\K{" + text + "}" + t;
    EscapeNames();
    TermEscape(text, t);
    CommandIsNoOtherShape(s);
    SymbolOfTerm(s);
  }

  /** `\X{text}` is the nonterminal `text`. */
  lemma NontermEscapeSymbol(text: string, t: string)
    requires IsLiteral(text) && Follows(t)
    ensures ParseSymbol("\\X{" + text + "}" + t) == Ok((SNonterm(Nonterm(text, None)), Ws(t)))
  {
    var s := "\\X{" + text + "}" + t;
    assert s[0] == '\\' && s[1] == 'X';
    OpensWithCommand(s);
    NontermEscape(text, t);
    ArrowNeedsTo(s);
    VecNeedsVec(s);
    SymbolOfNonterm(s);
  }

  lemma BareTermEscapeCommand(t: string)
    requires Delimits(t)
    ensures ParseCommand("\\K" + t) == Ok((BareCommand("K", None), Ws(t)))
  {
    EscapeNames();
    assert "\\K" + t == "\\" + "K" + RenderSeqKind(None) + t;
    BareCommandRoundTrip("K", None, t);
  }

  lemma TermPanicsOn(s: string, rest: string)
    requires ParseCommand(s) == Ok((BareCommand("K", None), rest))
    ensures ParseTerm(s) == Err(Panic(TermEscapeMessage))
  {
  }

  /** `\K` without an argument: no other shape applies, and the terminal rule
      panics (the source's `expect`). */
  lemma BareTermEscapePanics(t: string)
    requires Delimits(t)
    ensures ParseSymbol("\\K" + t) == Err(Panic(TermEscapeMessage))
  {
    var s := "\\K" + t;
    EscapeNames();
    assert s == "\\" + "K" + t;
    TermIsNoOtherShape("K", t);
    BareTermEscapeCommand(t);
    TermPanicsOn(s, Ws(t));
    SymbolOfTerm(s);
  }

  lemma NontermPanicsOn(s: string, rest: string)
    requires ParseCommand(s) == Ok((BareCommand("X", None), rest))
    ensures ParseNonterm(s) == Err(Panic(NontermEscapeMessage))
  {
    var c := BareCommand("X", None);
    assert c.head.name != "end" && c.head.name != "production" by {
      assert |c.head.name| == 1;
    }
    assert c.head.name == "X" && c.args == [];
  }

  lemma SymbolOfArrowPanic(s: string)
    requires ParseRecord(s) == Err(Error) && ParseArrow(s).Err? && ParseArrow(s).fault.Panic?
    ensures ParseSymbol(s) == Err(ParseArrow(s).fault)
  {
  }

  /** `\X` without an argument panics already in the arrow alternative, which
      reads a nonterminal first. */
  lemma BareNontermEscapePanics(t: string)
    requires Delimits(t)
    ensures ParseSymbol("\\X" + t) == Err(Panic(NontermEscapeMessage))
  {
    var s := "\\X" + t;
    assert s[0] == '\\' && s[1] == 'X';
    OpensWithCommand(s);
    EscapeNames();
    assert s == "\\" + "X" + RenderSeqKind(None) + t;
    BareCommandRoundTrip("X", None, t);
    NontermPanicsOn(s, Ws(t));
    ArrowNeedsNonterm(s);
    SymbolOfArrowPanic(s);
  }

  lemma StructuralNameFacts(name: string)
    requires name == "end" || name == "production"
    ensures !UpperCaseName(name) && name != "K" && name != "X" && name != "vec"
  {
    assert name[0] == 'e' || name[0] == 'p';
  }

  /** `\end` and `\production` are no symbol at all: every alternative fails
      recoverably, which is what ends the symbols of a right-hand side. */
  lemma StructuralCommandIsNoSymbol(s: string)
    requires ParseCommand(s).Ok?
    requires ParseCommand(s).value.0.head.name == "end" || ParseCommand(s).value.0.head.name == "production"
    ensures ParseSymbol(s) == Err(Error)
  {
    StructuralNameFacts(ParseCommand(s).value.0.head.name);
    OpensWithCommand(s);
    NontermRejects(s);
    ArrowNeedsNonterm(s);
    VecNeedsVec(s);
    assert ParseTerm(s) == Err(Error);
    SymbolOfTerm(s);
  }

  // ---------------------------------------------------------------------------
  // The unit tests of symbol.rs

  lemma TerminalExample()
    ensures ParseTerm("\\I32") == Ok(("I32", ""))
    ensures ParseSymbol("\\I32") == Ok((STerm("I32"), ""))
  {
    I32Facts();
    TermRoundTrip("I32", "");
    TermSymbolRoundTrip("I32", "");
  }

  lemma I32Facts()
    ensures WellFormedSymbol(STerm("I32")) && Delimits("") && Ws("") == ""
    ensures "\\" + "I32" + "" == "\\I32"
  {
    var name := "I32";
    assert name[0] == 'I' && name[1] == '3' && name[2] == '2';
    assert !IsAsciiLower(name[0]);
    WsFixedPoints("");
  }

  lemma NonterminalExample()
    ensures ParseNonterm("\\numtype") == Ok((Nonterm("numtype", None), ""))
  {
    NumtypeFacts();
    NontermRoundTrip(Nonterm("numtype", None), "");
  }

  lemma NumtypeFacts()
    ensures WellFormedNonterm(Nonterm("numtype", None)) && Delimits("") && Ws("") == ""
    ensures RenderNonterm(Nonterm("numtype", None)) + "" == "\\numtype"
  {
    NumtypeName();
    WsFixedPoints("");
  }

  lemma NumtypeName()
    ensures WellFormedNonterm(Nonterm("numtype", None))
  {
    MismatchAt("numtype", "quad", 0);
    MismatchAt("numtype", "qquad", 0);
  }

  lemma RecordExample()
    ensures ParseRecord("\\{ \\LMIN~\\u32, \\LMAX~\\u32^? \\}")
         == Ok(([("LMIN", SNonterm(Nonterm("u32", None))),
                 ("LMAX", SNonterm(Nonterm("u32", Some(OptSeq))))], ""))
  {
    var lmin := ("LMIN", SNonterm(Nonterm("u32", None)));
    var lmax := ("LMAX", SNonterm(Nonterm("u32", Some(OptSeq))));
    RecordExampleFacts();
    RecordRoundTrip(lmin, [lmax], "");
  }

  lemma RecordExampleFacts()
    ensures var lmin := ("LMIN", SNonterm(Nonterm("u32", None)));
      var lmax := ("LMAX", SNonterm(Nonterm("u32", Some(OptSeq))));
      WellFormedPair(lmin) && WellFormedPair(lmax)
      && RenderRecord([lmin] + [lmax]) + "" == "\\{ \\LMIN~\\u32, \\LMAX~\\u32^? \\}"
      && [lmin] + [lmax] == [lmin, lmax]
  {
    RecordExamplePairs();
    RecordExampleText();
  }

  lemma RecordExamplePairs()
    ensures WellFormedPair(("LMIN", SNonterm(Nonterm("u32", None))))
    ensures WellFormedPair(("LMAX", SNonterm(Nonterm("u32", Some(OptSeq)))))
  {
    MismatchAt("u32", "quad", 0);
    MismatchAt("u32", "qquad", 0);
    assert "LMIN"[0] == 'L' && "LMAX"[0] == 'L';
  }

  lemma RecordExampleText()
    ensures var lmin := ("LMIN", SNonterm(Nonterm("u32", None)));
      var lmax := ("LMAX", SNonterm(Nonterm("u32", Some(OptSeq))));
      RenderRecord([lmin] + [lmax]) + "" == "\\{ \\LMIN~\\u32, \\LMAX~\\u32^? \\}"
      && [lmin] + [lmax] == [lmin, lmax]
  {
    var lmin := ("LMIN", SNonterm(Nonterm("u32", None)));
    var lmax := ("LMAX", SNonterm(Nonterm("u32", Some(OptSeq))));
    LminText();
    LmaxText();
    var ps := [lmin] + [lmax];
    assert ps[0] == lmin && ps[1..] == [lmax];
    RecordExampleLiteral();
  }

  lemma LminText()
    ensures RenderPair(("LMIN", SNonterm(Nonterm("u32", None)))) == "\\LMIN~\\u32"
  { }

  lemma LmaxText()
    ensures RenderMorePairs([("LMAX", SNonterm(Nonterm("u32", Some(OptSeq))))]) == ", \\LMAX~\\u32^?"
  {
    var lmax := ("LMAX", SNonterm(Nonterm("u32", Some(OptSeq))));
    assert RenderPair(lmax) == "\\LMAX~\\u32^?";
    assert [lmax][1..] == [];
  }

  lemma RecordExampleLiteral()
    ensures "\\{ " + "\\LMIN~\\u32" + ", \\LMAX~\\u32^?" + " \\}" + "" == "\\{ \\LMIN~\\u32, \\LMAX~\\u32^? \\}"
  { }
}
