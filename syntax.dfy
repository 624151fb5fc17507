/** The grammar layer (species/src/syntax.rs): a math block is `\begin`,
    one or more productions, `\end`; a production is `\production{name}`, the
    commands of its left-hand side up to `::=`, and a right-hand side of
    alternatives separated by `|`, each a run of symbols. */
module Syntax {
  import opened ParseResult
  import opened Parser
  import opened Symbols

  datatype Lhs = Lhs(names: seq<string>)

  /** One alternative of a right-hand side; the source never sets `cond`. */
  datatype RhsElem = RhsElem(symbols: seq<Symbol>, cond: Option<()>)

  datatype Rhs = Rhs(elems: seq<RhsElem>)

  datatype Production = Production(name: string, lhs: Lhs, rhs: Rhs)

  datatype MathBlock = MathBlock(productions: seq<Production>)

  /** What indexing the empty argument list of `\production` panics with. */
  const ProductionIndexMessage := "index out of bounds: the len is 0 but the index is 0"

  // ---------------------------------------------------------------------------
  // Markers

  /** A marker: a command with the given head name, whatever its arguments. */
  function Marker(name: string, s: string): (r: PResult<()>)
    ensures r.Ok? <==> ParseCommand(s).Ok? && ParseCommand(s).value.0.head.name == name
    ensures r.Err? ==> r.fault == Error
    ensures r.Ok? ==> r.value.1 == ParseCommand(s).value.1
  {
    var p :- ParseCommand(s);
    if p.0.head.name == name then Ok(((), p.1)) else Err(Error)
  }

  /** `begin`: the marker named `begin`. */
  function Begin(s: string): PResult<()> {
    Marker("begin", s)
  }

  /** `end`: the marker named `end`. */
  function End(s: string): PResult<()> {
    Marker("end", s)
  }

  /** `or`: a literal `|`, then separators. */
  function Or(s: string): (r: PResult<()>)
    ensures r.Ok? <==> StartsWith(s, "|")
    ensures r.Err? ==> r.fault == Error
    ensures r.Ok? ==> r.value.1 == Ws(s[1..])
    ensures Consumed(r, s, true)
  {
    var bar :- Tag("|", s);
    var rest := Ws(bar.1);
    SuffixTransitive(rest, bar.1, s);
    Ok(((), rest))
  }

  // ---------------------------------------------------------------------------
  // Productions

  /** Production::production_name: the first argument of a `\production`
      command; a `\production` without arguments indexes an empty list. */
  function ProductionName(s: string): (r: PResult<string>)
    ensures Consumed(r, s, true)
    ensures r.Ok? ==> ParseCommand(s).Ok? && r.value.1 == ParseCommand(s).value.1
    ensures r.Ok? ==> var c := ParseCommand(s).value.0;
      c.head.name == "production" && c.args != [] && r.value.0 == ArgumentName(c.args[0])
    ensures r.Err? && r.fault.Panic? <==> BareEscape(s, "production")
  {
    match ParseCommand(s)
    case Err(f) => Err(f)
    case Ok((cmd, rest)) =>
      if cmd.head.name != "production" then Err(Error)
      else if cmd.args == [] then Err(Panic(ProductionIndexMessage))
      else Ok((ArgumentName(cmd.args[0]), rest))
  }

  /** Lhs::parser: `many_till(Command::parser, equal)`, keeping the head name
      of each command. The terminator is tried first at every step. */
  function ParseLhs(s: string): (r: PResult<Lhs>)
    decreases |s|
    ensures Consumed(r, s, true)
    ensures r.Err? ==> r.fault == Error
    ensures r.Ok? ==> (r.value.0.names == [] <==> StartsWith(s, "::="))
    ensures r.Ok? && r.value.0.names != [] ==>
      ParseCommand(s).Ok? && r.value.0.names[0] == ParseCommand(s).value.0.head.name
  {
    if Equal(s).Ok? then
      EqualConsumes(s);
      Ok((Lhs([]), Equal(s).value.1))
    else
      var c :- ParseCommand(s);
      var more :- ParseLhs(c.1);
      SuffixTransitive(more.1, c.1, s);
      Ok((Lhs([c.0.head.name] + more.0.names), more.1))
  }

  lemma EqualConsumes(s: string)
    requires Equal(s).Ok?
    ensures IsSuffix(Equal(s).value.1, s) && |Equal(s).value.1| < |s|
  {
    assert s[3..] == s[|s| - |s[3..]|..];
    SuffixTransitive(Equal(s).value.1, s[3..], s);
  }

  /** The loop of `many1(Symbol::parser)` after its first item: it stops at
      the first input that is recoverably no symbol. */
  function MoreSymbols(s: string): (r: PResult<seq<Symbol>>)
    decreases |s|
    ensures Consumed(r, s, false)
    ensures r.Err? ==> r.fault.Panic?
  {
    match ParseSymbol(s)
    case Err(Error) => Ok(([], s))
    case Err(fault) => Err(fault)
    case Ok((sym, s1)) =>
      var more :- MoreSymbols(s1);
      var (syms, rest) := more;
      SuffixTransitive(rest, s1, s);
      Ok(([sym] + syms, rest))
  }

  /** RhsElem::parser: one or more symbols, with no condition. */
  function ParseRhsElem(s: string): (r: PResult<RhsElem>)
    ensures Consumed(r, s, true)
    ensures r.Ok? ==> r.value.0.symbols != [] && r.value.0.cond == None
    ensures r.Ok? ==> ParseSymbol(s).Ok? && r.value.0.symbols[0] == ParseSymbol(s).value.0
    ensures ParseSymbol(s).Err? ==> r == Err(ParseSymbol(s).fault)
  {
    var first :- ParseSymbol(s);
    var more :- MoreSymbols(first.1);
    SuffixTransitive(more.1, first.1, s);
    Ok((RhsElem([first.0] + more.0, None), more.1))
  }

  /** One round of `separated_list1(or, RhsElem::parser)`: a `|`, then an
      alternative. */
  function Alternative(s: string): (r: PResult<RhsElem>)
    ensures Consumed(r, s, true)
    ensures r.Ok? ==> r.value.0.symbols != []
    ensures !StartsWith(s, "|") ==> r == Err(Error)
    ensures StartsWith(s, "|") ==> r == ParseRhsElem(Ws(s[1..]))
  {
    var bar :- Or(s);
    var e :- ParseRhsElem(bar.1);
    SuffixTransitive(e.1, bar.1, s);
    Ok(e)
  }

  /** The loop of `separated_list1(or, RhsElem::parser)` after its first
      item: it stops before a `|` whose alternative fails recoverably. */
  function MoreElems(s: string): (r: PResult<seq<RhsElem>>)
    decreases |s|
    ensures Consumed(r, s, false)
    ensures r.Err? ==> r.fault.Panic?
  {
    match Alternative(s)
    case Err(Error) => Ok(([], s))
    case Err(fault) => Err(fault)
    case Ok((e, s1)) =>
      var more :- MoreElems(s1);
      SuffixTransitive(more.1, s1, s);
      Ok(([e] + more.0, more.1))
  }

  /** Rhs::parser: one or more alternatives separated by `|`. */
  function ParseRhs(s: string): (r: PResult<Rhs>)
    ensures Consumed(r, s, true)
    ensures r.Ok? ==> r.value.0.elems != []
  {
    var first :- ParseRhsElem(s);
    var more :- MoreElems(first.1);
    SuffixTransitive(more.1, first.1, s);
    Ok((Rhs([first.0] + more.0), more.1))
  }

  /** Production::parser: the name, the left-hand side up to `::=`, the
      right-hand side, then separators. */
  function ParseProduction(s: string): (r: PResult<Production>)
    ensures Consumed(r, s, true)
    ensures r.Ok? ==> ProductionName(s).Ok? && r.value.0.name == ProductionName(s).value.0
    ensures r.Ok? ==> r.value.0.rhs.elems != [] && !StartsWithSeparator(r.value.1)
  {
    var n :- ProductionName(s);
    var (name, s1) := n;
    var l :- ParseLhs(s1);
    var (lhs, s2) := l;
    var h :- ParseRhs(s2);
    var (rhs, s3) := h;
    var rest := Ws(s3);
    SuffixTransitive(rest, s3, s2);
    SuffixTransitive(rest, s2, s1);
    SuffixTransitive(rest, s1, s);
    Ok((Production(name, lhs, rhs), rest))
  }

  /** Production::is_production: whether a production starts here; it
      consumes nothing. */
  function IsProduction(s: string): (r: PResult<()>)
    ensures r.Ok? <==> ParseProduction(s).Ok?
    ensures r.Ok? ==> r.value.1 == s
    ensures r.Err? ==> r.fault == ParseProduction(s).fault
  {
    var _ :- ParseProduction(s);
    Ok(((), s))
  }

  /** The loop of `many1(Production::parser)` after its first item. */
  function MoreProductions(s: string): (r: PResult<seq<Production>>)
    decreases |s|
    ensures Consumed(r, s, false)
    ensures r.Err? ==> r.fault.Panic?
  {
    match ParseProduction(s)
    case Err(Error) => Ok(([], s))
    case Err(fault) => Err(fault)
    case Ok((p, s1)) =>
      var more :- MoreProductions(s1);
      var (ps, rest) := more;
      SuffixTransitive(rest, s1, s);
      Ok(([p] + ps, rest))
  }

  /** `many1(Production::parser)`. */
  function ParseProductions(s: string): (r: PResult<seq<Production>>)
    ensures Consumed(r, s, true)
    ensures r.Ok? ==> r.value.0 != []
    ensures ParseProduction(s).Err? ==> r == Err(ParseProduction(s).fault)
  {
    var first :- ParseProduction(s);
    var more :- MoreProductions(first.1);
    SuffixTransitive(more.1, first.1, s);
    Ok(([first.0] + more.0, more.1))
  }

  /** MathBlock::parser: separators, `\begin`, one or more productions,
      `\end`, separators. */
  function ParseMathBlock(s: string): (r: PResult<MathBlock>)
    ensures Consumed(r, s, true)
    ensures r.Ok? ==> r.value.0.productions != []
    ensures r.Ok? ==> !StartsWithSeparator(r.value.1)
  {
    var b :- Begin(Ws(s));
    var ps :- ParseProductions(b.1);
    var e :- End(ps.1);
    var rest := Ws(e.1);
    SuffixTransitive(ps.1, b.1, Ws(s));
    SuffixTransitive(ps.1, Ws(s), s);
    SuffixTransitive(rest, e.1, ps.1);
    SuffixTransitive(rest, ps.1, s);
    Ok((MathBlock(ps.0), rest))
  }

  // ---------------------------------------------------------------------------
  // Where symbols stop

  /** Text that opens with neither a command, nor `\{`, nor `[` is no symbol,
      recoverably: this is what ends the symbols of an alternative at a `|`
      or a `\\`. */
  lemma NoSymbolAt(s: string)
    requires !(|s| >= 2 && s[0] == '\\' && IsAlphanumeric(s[1]))
    requires !StartsWith(s, "\\{") && !StartsWith(s, "[")
    ensures ParseCommand(s) == Err(Error) && ParseSymbol(s) == Err(Error)
  {
    NoCommandAt(s);
    NoCommandNoSymbol(s);
  }

  lemma NoCommandAt(s: string)
    requires !(|s| >= 2 && s[0] == '\\' && IsAlphanumeric(s[1]))
    ensures ParseCommand(s) == Err(Error)
  {
    assert HeadName(s).Err?;
  }

  lemma NoCommandNoSymbol(s: string)
    requires ParseCommand(s) == Err(Error)
    requires !StartsWith(s, "\\{") && !StartsWith(s, "[")
    ensures ParseSymbol(s) == Err(Error)
  {
    RecordNeedsBrace(s);
    BracedVecNeedsBracket(s);
    ArrowNeedsNonterm(s);
  }

  /** Text that cannot extend the symbol before it: no `(` that would make a
      `\vec` a vector, and no `\to` that would make a nonterminal an arrow. */
  predicate Clear(u: string) {
    !StartsWith(u, "(") && !StartsWithTo(u)
  }

  /** The symbol begins with a nonterminal named `to`. */
  predicate OpensWithTo(sym: Symbol) {
    (sym.SNonterm? && sym.nt.name == "to") || (sym.SArrow? && sym.from.name == "to")
  }

  lemma NamesOfShapes()
    ensures LowerCaseName("to") && "vec" != "to"
    ensures IsName("production") && NotSpacing("production")
    ensures IsName("end") && NotSpacing("end")
    ensures IsName("begin") && NotSpacing("begin")
    ensures IsLiteral("array")
  {
    MismatchAt("production", "quad", 0);
    MismatchAt("production", "qquad", 0);
    MismatchAt("end", "quad", 0);
    MismatchAt("end", "qquad", 0);
    MismatchAt("begin", "quad", 0);
    MismatchAt("begin", "qquad", 0);
  }

  /** The rendering of a symbol begins with no separator and with nothing that
      would extend a symbol before it. */
  lemma SymbolStartsClear(sym: Symbol, rest: string)
    requires WellFormedSymbol(sym) && !OpensWithTo(sym)
    requires EndsInCommand(sym) ==> Delimits(rest)
    ensures var u := RenderSymbol(sym) + rest; Ws(u) == u && Clear(u)
  {
    match sym
    case STerm(name) => TermStartsClear(name, rest, RenderSymbol(sym) + rest);
    case SNonterm(nt) => NontermStartsClear(nt, rest, RenderSymbol(sym) + rest);
    case SArrow(from, to) => ArrowStartsClear(from, to, rest, RenderSymbol(sym) + rest);
    case SVec(v) => VecStartsClear(v, rest, RenderSymbol(sym) + rest);
    case SBracedVec(v) =>
      BracedVecSymbolText(v, rest);
      BracketStartsClear(RenderVec(v) + "]" + rest, RenderSymbol(sym) + rest);
    case SRecord(ps) =>
      RecordSymbolText(ps, rest);
      BraceStartsClear(RenderPair(ps[0]) + RenderMorePairs(ps[1..]) + " \\}" + rest, RenderSymbol(sym) + rest);
  }

  lemma TermStartsClear(name: string, rest: string, u: string)
    requires WellFormedSymbol(STerm(name)) && Delimits(rest)
    requires u == "\\" + name + rest
    ensures Ws(u) == u && Clear(u)
  {
    NamesOfShapes();
    UpperIsNotSpacing(name);
    assert u == "\\" + name + RenderSeqKind(None) + rest;
    CommandStartsClear(name, None, rest, u);
  }

  lemma NontermStartsClear(nt: Nonterm, rest: string, u: string)
    requires WellFormedNonterm(nt) && nt.name != "to" && Delimits(rest)
    requires u == RenderNonterm(nt) + rest
    ensures Ws(u) == u && Clear(u)
  {
    CommandStartsClear(nt.name, nt.seqKind, rest, u);
  }

  lemma ArrowStartsClear(from: Nonterm, to: Nonterm, rest: string, u: string)
    requires WellFormedNonterm(from) && from.name != "to"
    requires u == RenderArrow(from, to) + rest
    ensures Ws(u) == u && Clear(u)
  {
    var x := " \\to " + RenderNonterm(to) + rest;
    assert u == "\\" + from.name + RenderSeqKind(from.seqKind) + x;
    CommandStartsClear(from.name, from.seqKind, x, u);
  }

  lemma VecStartsClear(v: Vec, rest: string, u: string)
    requires u == RenderVec(v) + rest
    ensures Ws(u) == u && Clear(u)
  {
    var x := "(" + (RenderNonterm(v.over) + (")" + rest));
    VecText(v.over, rest);
    VecNameFacts();
    CommandStartsClear("vec", None, x, u);
  }

  lemma VecNameFacts()
    ensures IsName("vec") && NotSpacing("vec") && "vec" != "to"
  {
    MismatchAt("vec", "quad", 0);
    MismatchAt("vec", "qquad", 0);
  }

  /** A command written by its name and suffix, followed by text that does not
      continue it. */
  lemma CommandStartsClear(name: string, k: Option<SeqKind>, rest: string, u: string)
    requires IsName(name) && NotSpacing(name) && name != "to" && Delimits(rest)
    requires u == "\\" + name + RenderSeqKind(k) + rest
    ensures Ws(u) == u && Clear(u)
  {
    var x := RenderSeqKind(k) + rest;
    RenderSeqKindFirst(k, rest);
    assert u == "\\" + name + x;
    WsStopsAtCommand(name, x);
    BareCommandRoundTrip(name, k, rest);
  }

  lemma BracedVecSymbolText(v: Vec, rest: string)
    ensures RenderSymbol(SBracedVec(v)) + rest == "[" + (RenderVec(v) + "]" + rest)
  {
  }

  lemma RecordSymbolText(ps: seq<(string, Symbol)>, rest: string)
    requires ps != []
    ensures RenderSymbol(SRecord(ps)) + rest == "\\{ " + (RenderPair(ps[0]) + RenderMorePairs(ps[1..]) + " \\}" + rest)
  {
  }

  lemma BracketStartsClear(x: string, u: string)
    requires u == "[" + x
    ensures Ws(u) == u && Clear(u)
  {
    NoSeparatorAt(u);
    assert HeadName(u).Err?;
  }

  lemma BraceStartsClear(x: string, u: string)
    requires u == "\\{ " + x
    ensures Ws(u) == u && Clear(u)
  {
    BraceStays(u);
    assert u[0] == '\\' && u[1] == '{';
    assert HeadName(u).Err?;
  }

  lemma BraceStays(u: string)
    requires |u| >= 2 && u[0] == '\\' && u[1] == '{'
    ensures Ws(u) == u
  {
    BackslashStays(u);
  }

  // ---------------------------------------------------------------------------
  // Written alternatives: symbols with the blanks the grammar sources put
  // between them

  /** A symbol as written on a right-hand side, with the blank after it. */
  type Spaced = (Symbol, string)

  /** A symbol that ends in a command is followed by a non-empty blank (`~`
      or a space), any other symbol by nothing; no symbol starts with a
      nonterminal named `to`, which after another symbol would read as the
      middle of an arrow. */
  predicate WellSpaced(x: Spaced) {
    WellFormedSymbol(x.0) && !OpensWithTo(x.0) && IsBlank(x.1) && (EndsInCommand(x.0) <==> x.1 != [])
  }

  predicate AllSpaced(xs: seq<Spaced>) {
    forall i :: 0 <= i < |xs| ==> WellSpaced(xs[i])
  }

  function ElemText(xs: seq<Spaced>): string {
    if xs == [] then "" else RenderSymbol(xs[0].0) + xs[0].1 + ElemText(xs[1..])
  }

  function SymbolsOf(xs: seq<Spaced>): seq<Symbol> {
    if xs == [] then [] else [xs[0].0] + SymbolsOf(xs[1..])
  }

  /** Where reading stops after the symbols `xs` and the text `t`: the
      separators after a final command are consumed with it. */
  function AfterSymbols(xs: seq<Spaced>, t: string): string {
    if xs != [] && EndsInCommand(xs[|xs| - 1].0) then Ws(t) else t
  }

  /** What may follow the last symbol of an alternative: no symbol, with or
      without its leading separators, and nothing that extends that symbol. */
  predicate ClosesSymbols(t: string) {
    ParseSymbol(t) == Err(Error) && ParseSymbol(Ws(t)) == Err(Error) && Clear(Ws(t))
  }

  lemma BlankDelimits(w: string, u: string)
    requires IsBlank(w) && w != []
    ensures Delimits(w + u) && Ws(w + u) == Ws(u)
  {
    var c := w[0];
    assert (w + u)[0] == c;
    assert IsMultispace(c) || c == '&' || c == '~';
    assert !IsAlphanumeric(c) && c != '[' && c != '{' && c != '^';
    WsSkipsBlank(w, u);
  }

  /** One written symbol reads back as itself and leaves what follows its
      blank. */
  lemma SpacedRoundTrip(x: Spaced, u: string)
    requires WellSpaced(x) && (EndsInCommand(x.0) ==> Clear(Ws(u)))
    ensures ParseSymbol(RenderSymbol(x.0) + x.1 + u) == Ok((x.0, if EndsInCommand(x.0) then Ws(u) else u))
  {
    if EndsInCommand(x.0) {
      CommandThenBlank(x.0, x.1, u);
    } else {
      ShapeThenText(x.0, x.1, u);
    }
  }

  lemma FollowsAfterBlank(w: string, u: string)
    requires IsBlank(w) && w != [] && Clear(Ws(u))
    ensures Follows(w + u) && Ws(w + u) == Ws(u)
  {
    BlankDelimits(w, u);
  }

  lemma CommandThenBlank(sym: Symbol, w: string, u: string)
    requires WellFormedSymbol(sym) && EndsInCommand(sym)
    requires IsBlank(w) && w != [] && Clear(Ws(u))
    ensures ParseSymbol(RenderSymbol(sym) + w + u) == Ok((sym, Ws(u)))
  {
    Associative(RenderSymbol(sym), w, u);
    FollowsAfterBlank(w, u);
    SymbolRoundTrip(sym, w + u);
  }

  lemma ShapeThenText(sym: Symbol, w: string, u: string)
    requires WellFormedSymbol(sym) && !EndsInCommand(sym) && w == []
    ensures ParseSymbol(RenderSymbol(sym) + w + u) == Ok((sym, u))
  {
    assert RenderSymbol(sym) + w == RenderSymbol(sym);
    SymbolRoundTrip(sym, u);
  }

  lemma MoreSymbolsStop(s: string)
    requires ParseSymbol(s) == Err(Error)
    ensures MoreSymbols(s) == Ok(([], s))
  {
  }

  lemma MoreSymbolsCons(s: string, sym: Symbol, s1: string, syms: seq<Symbol>, rest: string)
    requires ParseSymbol(s) == Ok((sym, s1)) && MoreSymbols(s1) == Ok((syms, rest))
    ensures MoreSymbols(s) == Ok(([sym] + syms, rest))
  {
  }


  /** The text of an alternative begins with no separator and with nothing that
      would extend a symbol before it. */
  lemma ElemStartsClear(xs: seq<Spaced>, t: string)
    requires xs != [] && AllSpaced(xs)
    ensures var u := ElemText(xs) + t; Ws(u) == u && Clear(u)
  {
    ElemTextFirst(xs, t);
    SpacedStartsClear(xs[0], ElemText(xs[1..]) + t);
  }

  lemma ElemTextFirst(xs: seq<Spaced>, t: string)
    requires xs != []
    ensures ElemText(xs) + t == RenderSymbol(xs[0].0) + xs[0].1 + (ElemText(xs[1..]) + t)
  {
  }

  lemma SpacedStartsClear(y: Spaced, v: string)
    requires WellSpaced(y)
    ensures var u := RenderSymbol(y.0) + y.1 + v; Ws(u) == u && Clear(u)
  {
    var rest := y.1 + v;
    Associative(RenderSymbol(y.0), y.1, v);
    if EndsInCommand(y.0) {
      BlankDelimits(y.1, v);
    }
    SymbolStartsClear(y.0, rest);
  }

  /** The text, the symbols and the stopping point of a written alternative,
      in terms of its first symbol and the others. */
  lemma SpacedCons(xs: seq<Spaced>, t: string)
    requires xs != []
    ensures ElemText(xs) + t == RenderSymbol(xs[0].0) + xs[0].1 + (ElemText(xs[1..]) + t)
    ensures SymbolsOf(xs) == [xs[0].0] + SymbolsOf(xs[1..])
    ensures |xs| > 1 ==> AfterSymbols(xs, t) == AfterSymbols(xs[1..], t)
    ensures |xs| == 1 ==> AfterSymbols(xs, t) == if EndsInCommand(xs[0].0) then Ws(t) else t
    ensures |xs| == 1 ==> ElemText(xs[1..]) + t == t && SymbolsOf(xs) == [xs[0].0]
  {
    if |xs| > 1 {
      assert xs[1..][|xs[1..]| - 1] == xs[|xs| - 1];
    } else {
      assert xs[1..] == [];
      assert [xs[0].0] + [] == [xs[0].0];
    }
  }

  lemma LastSymbolStep(x: Spaced, t: string, r: string)
    requires WellSpaced(x) && ClosesSymbols(t)
    requires r == if EndsInCommand(x.0) then Ws(t) else t
    ensures MoreSymbols(RenderSymbol(x.0) + x.1 + t) == Ok(([x.0], r))
  {
    SpacedRoundTrip(x, t);
    MoreSymbolsOne(RenderSymbol(x.0) + x.1 + t, x.0, r);
  }

  lemma MoreSymbolsOne(s: string, sym: Symbol, r: string)
    requires ParseSymbol(s) == Ok((sym, r)) && ParseSymbol(r) == Err(Error)
    ensures MoreSymbols(s) == Ok(([sym], r))
  {
    MoreSymbolsStop(r);
    MoreSymbolsCons(s, sym, r, [], r);
    SingletonSeq(sym);
  }

  lemma InnerSymbolStep(x: Spaced, ys: seq<Spaced>, t: string, syms: seq<Symbol>, r: string)
    requires WellSpaced(x) && ys != [] && AllSpaced(ys)
    requires MoreSymbols(ElemText(ys) + t) == Ok((syms, r))
    ensures MoreSymbols(RenderSymbol(x.0) + x.1 + (ElemText(ys) + t)) == Ok(([x.0] + syms, r))
  {
    var u := ElemText(ys) + t;
    ElemStartsClear(ys, t);
    SpacedRoundTrip(x, u);
    MoreSymbolsCons(RenderSymbol(x.0) + x.1 + u, x.0, u, syms, r);
  }

  /** The symbols of a written alternative read back as themselves, up to the
      text that closes them. */
  lemma {:induction false} MoreSymbolsRoundTrip(xs: seq<Spaced>, t: string)
    requires AllSpaced(xs) && ClosesSymbols(t)
    ensures MoreSymbols(ElemText(xs) + t) == Ok((SymbolsOf(xs), AfterSymbols(xs, t)))
    decreases |xs|
  {
    if xs == [] {
      assert ElemText(xs) + t == t;
      MoreSymbolsStop(t);
    } else {
      SpacedCons(xs, t);
      if |xs| == 1 {
        LastSymbolStep(xs[0], t, AfterSymbols(xs, t));
      } else {
        MoreSymbolsRoundTrip(xs[1..], t);
        InnerSymbolStep(xs[0], xs[1..], t, SymbolsOf(xs[1..]), AfterSymbols(xs[1..], t));
      }
    }
  }

  lemma ElemFromSymbols(s: string, syms: seq<Symbol>, rest: string)
    requires MoreSymbols(s) == Ok((syms, rest)) && syms != []
    ensures ParseRhsElem(s) == Ok((RhsElem(syms, None), rest))
  {
    var first := ParseSymbol(s);
    assert first.Ok?;
    assert MoreSymbols(first.value.1) == Ok((syms[1..], rest));
    assert syms == [first.value.0] + syms[1..];
  }

  /** RhsElem::parser reads a written alternative back. */
  lemma ElemRoundTrip(xs: seq<Spaced>, t: string)
    requires xs != [] && AllSpaced(xs) && ClosesSymbols(t)
    ensures ParseRhsElem(ElemText(xs) + t) == Ok((RhsElem(SymbolsOf(xs), None), AfterSymbols(xs, t)))
  {
    MoreSymbolsRoundTrip(xs, t);
    ElemFromSymbols(ElemText(xs) + t, SymbolsOf(xs), AfterSymbols(xs, t));
  }

  // ---------------------------------------------------------------------------
  // Written right-hand sides: alternatives separated by `|`

  /** An alternative as written: the blank after the `::=` or `|` before it,
      then its symbols. */
  type Alt = (string, seq<Spaced>)

  predicate WellWrittenAlt(a: Alt) {
    IsBlank(a.0) && a.1 != [] && AllSpaced(a.1)
  }

  predicate AllAlts(alts: seq<Alt>) {
    forall i :: 0 <= i < |alts| ==> WellWrittenAlt(alts[i])
  }

  /** The alternatives after the first, each behind its `|`. */
  function MoreAltsText(alts: seq<Alt>): string {
    if alts == [] then "" else "|" + alts[0].0 + ElemText(alts[0].1) + MoreAltsText(alts[1..])
  }

  /** A right-hand side as written after `::=` and the blank that follows it. */
  function RhsText(alts: seq<Alt>): string
    requires alts != []
  {
    ElemText(alts[0].1) + MoreAltsText(alts[1..])
  }

  function ElemsOf(alts: seq<Alt>): seq<RhsElem> {
    if alts == [] then [] else [RhsElem(SymbolsOf(alts[0].1), None)] + ElemsOf(alts[1..])
  }

  /** Where reading stops after the alternatives and the text `t`. */
  function AfterAlts(alts: seq<Alt>, t: string): string
    requires alts != []
  {
    AfterSymbols(alts[|alts| - 1].1, t)
  }

  /** What may follow a right-hand side: it closes the last alternative and
      offers no further `|`. */
  predicate ClosesRhs(t: string) {
    ClosesSymbols(t) && !StartsWith(t, "|") && !StartsWith(Ws(t), "|")
  }

  /** A `|` ends the symbols before it and is no separator. */
  lemma BarCloses(u: string)
    ensures Ws("|" + u) == "|" + u && ClosesSymbols("|" + u)
  {
    var s := "|" + u;
    assert s[0] == '|';
    NoSeparatorAt(s);
    MismatchAt(s, "\\{", 0);
    MismatchAt(s, "[", 0);
    MismatchAt(s, "(", 0);
    NoSymbolAt(s);
  }

  lemma AltText(a: Alt, m: string)
    ensures var s := "|" + a.0 + ElemText(a.1) + m;
      StartsWith(s, "|") && s[1..] == a.0 + (ElemText(a.1) + m)
  {
    BarText(a.0, ElemText(a.1), m);
  }

  lemma BarText(b: string, e: string, m: string)
    ensures var s := "|" + b + e + m;
      StartsWith(s, "|") && s[1..] == b + (e + m)
  {
    var x := b + (e + m);
    assert "|" + b + e + m == "|" + x;
    assert ("|" + x)[1..] == x;
  }

  /** One round of the separated list reads a written alternative back. */
  lemma AlternativeRoundTrip(a: Alt, m: string)
    requires WellWrittenAlt(a) && ClosesSymbols(m)
    ensures Alternative("|" + a.0 + ElemText(a.1) + m) == Ok((RhsElem(SymbolsOf(a.1), None), AfterSymbols(a.1, m)))
  {
    AltText(a, m);
    WsSkipsBlank(a.0, ElemText(a.1) + m);
    ElemStartsClear(a.1, m);
    ElemRoundTrip(a.1, m);
  }

  lemma MoreElemsStop(s: string)
    requires !StartsWith(s, "|")
    ensures MoreElems(s) == Ok(([], s))
  {
  }

  lemma MoreElemsCons(s: string, e: RhsElem, s1: string, es: seq<RhsElem>, rest: string)
    requires Alternative(s) == Ok((e, s1)) && MoreElems(s1) == Ok((es, rest))
    ensures MoreElems(s) == Ok(([e] + es, rest))
  {
  }

  lemma MoreElemsOne(s: string, e: RhsElem, r: string)
    requires Alternative(s) == Ok((e, r)) && !StartsWith(r, "|")
    ensures MoreElems(s) == Ok(([e], r))
  {
    MoreElemsStop(r);
    MoreElemsCons(s, e, r, [], r);
    SingletonSeq(e);
  }

  /** The text, the elements and the stopping point of written alternatives,
      in terms of the first and the others. */
  lemma AltsCons(alts: seq<Alt>, t: string)
    requires alts != []
    ensures MoreAltsText(alts) + t == "|" + alts[0].0 + ElemText(alts[0].1) + (MoreAltsText(alts[1..]) + t)
    ensures ElemsOf(alts) == [RhsElem(SymbolsOf(alts[0].1), None)] + ElemsOf(alts[1..])
    ensures |alts| > 1 ==> AfterAlts(alts, t) == AfterAlts(alts[1..], t)
    ensures |alts| == 1 ==> MoreAltsText(alts[1..]) + t == t && AfterAlts(alts, t) == AfterSymbols(alts[0].1, t)
    ensures |alts| == 1 ==> ElemsOf(alts) == [RhsElem(SymbolsOf(alts[0].1), None)]
  {
    Associative("|" + alts[0].0 + ElemText(alts[0].1), MoreAltsText(alts[1..]), t);
    if |alts| > 1 {
      AltsLast(alts);
    } else {
      AltsSingle(alts, t);
    }
  }

  lemma AltsLast(alts: seq<Alt>)
    requires |alts| > 1
    ensures alts[1..][|alts[1..]| - 1] == alts[|alts| - 1]
  {
  }

  lemma AltsSingle(alts: seq<Alt>, t: string)
    requires |alts| == 1
    ensures MoreAltsText(alts[1..]) + t == t
    ensures ElemsOf(alts) == [RhsElem(SymbolsOf(alts[0].1), None)]
  {
    assert alts[1..] == [];
    assert [RhsElem(SymbolsOf(alts[0].1), None)] + [] == [RhsElem(SymbolsOf(alts[0].1), None)];
  }

  /** What follows an alternative: a `|` and the next, or the closing text. */
  lemma AltsFollow(alts: seq<Alt>, t: string)
    requires ClosesRhs(t)
    ensures ClosesSymbols(MoreAltsText(alts) + t)
    ensures alts != [] ==> var m := MoreAltsText(alts) + t; Ws(m) == m && StartsWith(m, "|")
  {
    var m := MoreAltsText(alts) + t;
    if alts == [] {
      assert m == t;
    } else {
      var x := alts[0].0 + ElemText(alts[0].1) + MoreAltsText(alts[1..]) + t;
      Regroup("|", alts[0].0, ElemText(alts[0].1), MoreAltsText(alts[1..]), t);
      assert m == "|" + x;
      BarCloses(x);
    }
  }

  /** Where the symbols of an alternative stop when a `|` follows them. */
  lemma StopsAtBar(xs: seq<Spaced>, m: string)
    requires Ws(m) == m
    ensures AfterSymbols(xs, m) == m
  {
  }

  /** Where the symbols of the last alternative stop: before no `|`. */
  lemma StopsBeforeNoBar(xs: seq<Spaced>, t: string)
    requires ClosesRhs(t)
    ensures !StartsWith(AfterSymbols(xs, t), "|")
  {
  }

  lemma LastAltStep(a: Alt, t: string, r: string)
    requires WellWrittenAlt(a) && ClosesRhs(t) && r == AfterSymbols(a.1, t)
    ensures MoreElems("|" + a.0 + ElemText(a.1) + t) == Ok(([RhsElem(SymbolsOf(a.1), None)], r))
  {
    AlternativeRoundTrip(a, t);
    StopsBeforeNoBar(a.1, t);
    MoreElemsOne("|" + a.0 + ElemText(a.1) + t, RhsElem(SymbolsOf(a.1), None), r);
  }

  lemma InnerAltStep(a: Alt, m: string, es: seq<RhsElem>, r: string)
    requires WellWrittenAlt(a) && ClosesSymbols(m) && Ws(m) == m
    requires MoreElems(m) == Ok((es, r))
    ensures MoreElems("|" + a.0 + ElemText(a.1) + m) == Ok(([RhsElem(SymbolsOf(a.1), None)] + es, r))
  {
    AlternativeRoundTrip(a, m);
    StopsAtBar(a.1, m);
    MoreElemsCons("|" + a.0 + ElemText(a.1) + m, RhsElem(SymbolsOf(a.1), None), m, es, r);
  }

  /** The loop of the separated list reads written alternatives back. */
  lemma {:induction false} MoreElemsRoundTrip(alts: seq<Alt>, t: string)
    requires alts != [] && AllAlts(alts) && ClosesRhs(t)
    ensures MoreElems(MoreAltsText(alts) + t) == Ok((ElemsOf(alts), AfterAlts(alts, t)))
    decreases |alts|
  {
    if |alts| == 1 {
      LastAlt(alts, t);
    } else {
      AllAltsSplit(alts);
      MoreElemsRoundTrip(alts[1..], t);
      NextAlt(alts, t);
    }
  }

  lemma LastAlt(alts: seq<Alt>, t: string)
    requires |alts| == 1 && AllAlts(alts) && ClosesRhs(t)
    ensures MoreElems(MoreAltsText(alts) + t) == Ok((ElemsOf(alts), AfterAlts(alts, t)))
  {
    AltsCons(alts, t);
    LastAltStep(alts[0], t, AfterAlts(alts, t));
  }

  lemma NextAlt(alts: seq<Alt>, t: string)
    requires |alts| > 1 && AllAlts(alts) && ClosesRhs(t)
    requires MoreElems(MoreAltsText(alts[1..]) + t) == Ok((ElemsOf(alts[1..]), AfterAlts(alts[1..], t)))
    ensures MoreElems(MoreAltsText(alts) + t) == Ok((ElemsOf(alts), AfterAlts(alts, t)))
  {
    AltsCons(alts, t);
    AltsFollow(alts[1..], t);
    InnerAltStep(alts[0], MoreAltsText(alts[1..]) + t, ElemsOf(alts[1..]), AfterAlts(alts[1..], t));
  }

  lemma RhsFromParts(s: string, e: RhsElem, s1: string, es: seq<RhsElem>, rest: string)
    requires ParseRhsElem(s) == Ok((e, s1)) && MoreElems(s1) == Ok((es, rest))
    ensures ParseRhs(s) == Ok((Rhs([e] + es), rest))
  {
  }

  lemma LastRhsStep(alts: seq<Alt>, t: string, m: string)
    requires |alts| == 1 && AllAlts(alts) && ClosesRhs(t) && m == MoreAltsText(alts[1..]) + t
    ensures ParseRhs(ElemText(alts[0].1) + m) == Ok((Rhs(ElemsOf(alts)), AfterAlts(alts, t)))
  {
    AltsCons(alts, t);
    ElemRoundTrip(alts[0].1, t);
    StopsBeforeNoBar(alts[0].1, t);
    MoreElemsStop(AfterAlts(alts, t));
    RhsFromParts(ElemText(alts[0].1) + t, RhsElem(SymbolsOf(alts[0].1), None), AfterAlts(alts, t), [], AfterAlts(alts, t));
  }

  lemma ElemBeforeBar(xs: seq<Spaced>, m: string)
    requires xs != [] && AllSpaced(xs) && ClosesSymbols(m) && Ws(m) == m
    ensures ParseRhsElem(ElemText(xs) + m) == Ok((RhsElem(SymbolsOf(xs), None), m))
  {
    ElemRoundTrip(xs, m);
    StopsAtBar(xs, m);
  }

  lemma RhsFromAlts(s: string, alts: seq<Alt>, t: string, m: string)
    requires |alts| > 1
    requires ParseRhsElem(s) == Ok((RhsElem(SymbolsOf(alts[0].1), None), m))
    requires MoreElems(m) == Ok((ElemsOf(alts[1..]), AfterAlts(alts[1..], t)))
    ensures ParseRhs(s) == Ok((Rhs(ElemsOf(alts)), AfterAlts(alts, t)))
  {
    AltsCons(alts, t);
    RhsFromParts(s, RhsElem(SymbolsOf(alts[0].1), None), m, ElemsOf(alts[1..]), AfterAlts(alts, t));
  }

  lemma AllAltsSplit(alts: seq<Alt>)
    requires alts != [] && AllAlts(alts)
    ensures WellWrittenAlt(alts[0]) && AllAlts(alts[1..])
  {
    assert forall i :: 0 <= i < |alts[1..]| ==> alts[1..][i] == alts[i + 1];
  }

  lemma InnerRhsStep(alts: seq<Alt>, t: string, m: string)
    requires |alts| > 1 && AllAlts(alts) && ClosesRhs(t) && m == MoreAltsText(alts[1..]) + t
    ensures ParseRhs(ElemText(alts[0].1) + m) == Ok((Rhs(ElemsOf(alts)), AfterAlts(alts, t)))
  {
    FirstAltBeforeBar(alts, t, m);
    OtherAltsAfterBar(alts, t, m);
    RhsFromAlts(ElemText(alts[0].1) + m, alts, t, m);
  }

  lemma FirstAltBeforeBar(alts: seq<Alt>, t: string, m: string)
    requires |alts| > 1 && AllAlts(alts) && ClosesRhs(t) && m == MoreAltsText(alts[1..]) + t
    ensures ParseRhsElem(ElemText(alts[0].1) + m) == Ok((RhsElem(SymbolsOf(alts[0].1), None), m))
  {
    AllAltsSplit(alts);
    AltsFollow(alts[1..], t);
    ElemBeforeBar(alts[0].1, m);
  }

  lemma OtherAltsAfterBar(alts: seq<Alt>, t: string, m: string)
    requires |alts| > 1 && AllAlts(alts) && ClosesRhs(t) && m == MoreAltsText(alts[1..]) + t
    ensures MoreElems(m) == Ok((ElemsOf(alts[1..]), AfterAlts(alts[1..], t)))
  {
    AllAltsSplit(alts);
    MoreElemsRoundTrip(alts[1..], t);
  }

  /** Rhs::parser reads a written right-hand side back, alternative by
      alternative, and stops where its last symbol stops. */
  lemma RhsRoundTrip(alts: seq<Alt>, t: string)
    requires alts != [] && AllAlts(alts) && ClosesRhs(t)
    ensures ParseRhs(RhsText(alts) + t) == Ok((Rhs(ElemsOf(alts)), AfterAlts(alts, t)))
  {
    var m := MoreAltsText(alts[1..]) + t;
    Associative(ElemText(alts[0].1), MoreAltsText(alts[1..]), t);
    if |alts| == 1 {
      LastRhsStep(alts, t, m);
    } else {
      InnerRhsStep(alts, t, m);
    }
  }

  // ---------------------------------------------------------------------------
  // Written left-hand sides: commands up to `::=`

  /** A name on the left-hand side as written: the command's name and the
      blank after it. */
  type WrittenName = (string, string)

  predicate WellWrittenName(x: WrittenName) {
    IsName(x.0) && NotSpacing(x.0) && IsBlank(x.1)
  }

  predicate AllNames(lhs: seq<WrittenName>) {
    forall i :: 0 <= i < |lhs| ==> WellWrittenName(lhs[i])
  }

  function LhsText(lhs: seq<WrittenName>): string {
    if lhs == [] then "" else "\\" + lhs[0].0 + lhs[0].1 + LhsText(lhs[1..])
  }

  function NamesOf(lhs: seq<WrittenName>): seq<string> {
    if lhs == [] then [] else [lhs[0].0] + NamesOf(lhs[1..])
  }

  lemma AllNamesSplit(lhs: seq<WrittenName>)
    requires lhs != [] && AllNames(lhs)
    ensures WellWrittenName(lhs[0]) && AllNames(lhs[1..])
  {
    assert forall i :: 0 <= i < |lhs[1..]| ==> lhs[1..][i] == lhs[i + 1];
  }

  lemma LhsTextCons(lhs: seq<WrittenName>, v: string)
    requires lhs != []
    ensures LhsText(lhs) + "::=" + v == "\\" + lhs[0].0 + (lhs[0].1 + (LhsText(lhs[1..]) + "::=" + v))
  {
    Regroup("\\" + lhs[0].0, lhs[0].1, LhsText(lhs[1..]), "::=", v);
  }

  /** A written left-hand side and its `::=` open with a backslash or a colon. */
  lemma LhsFirst(lhs: seq<WrittenName>, v: string)
    ensures var s := LhsText(lhs) + "::=" + v; s != [] && (s[0] == '\\' || s[0] == ':')
  {
    var s := LhsText(lhs) + "::=" + v;
    if lhs == [] {
      assert s == "::=" + v;
    } else {
      LhsTextCons(lhs, v);
    }
  }

  /** Nothing in front of a written left-hand side is skipped as a separator. */
  lemma LhsOpens(lhs: seq<WrittenName>, v: string)
    requires AllNames(lhs)
    ensures var s := LhsText(lhs) + "::=" + v; Ws(s) == s && Delimits(s)
  {
    var s := LhsText(lhs) + "::=" + v;
    LhsFirst(lhs, v);
    if lhs == [] {
      NoSeparatorAt(s);
    } else {
      AllNamesSplit(lhs);
      LhsTextCons(lhs, v);
      var rest := LhsText(lhs[1..]) + "::=" + v;
      LhsFirst(lhs[1..], v);
      AfterNameDelimits(lhs[0].1, rest);
      WsStopsAtCommand(lhs[0].0, lhs[0].1 + rest);
    }
  }

  lemma AfterNameDelimits(b: string, rest: string)
    requires IsBlank(b) && rest != [] && (rest[0] == '\\' || rest[0] == ':')
    ensures Delimits(b + rest) && Ws(b + rest) == Ws(rest)
  {
    if b != [] {
      BlankDelimits(b, rest);
    } else {
      assert b + rest == rest;
      OpeningDelimits(rest);
    }
  }

  lemma OpeningDelimits(rest: string)
    requires rest != [] && (rest[0] == '\\' || rest[0] == ':')
    ensures Delimits(rest)
  {
    var c := rest[0];
    assert !IsAlphanumeric(c) && c != '[' && c != '{' && c != '^';
  }

  /** The first name of a written left-hand side is read as a bare command,
      and the `::=` is not there yet. */
  lemma LhsStep(lhs: seq<WrittenName>, v: string)
    requires lhs != [] && AllNames(lhs)
    ensures var s := LhsText(lhs) + "::=" + v;
      !StartsWith(s, "::=") &&
      ParseCommand(s) == Ok((BareCommand(lhs[0].0, None), LhsText(lhs[1..]) + "::=" + v))
  {
    var s := LhsText(lhs) + "::=" + v;
    var rest := LhsText(lhs[1..]) + "::=" + v;
    AllNamesSplit(lhs);
    LhsTextCons(lhs, v);
    LhsOpens(lhs[1..], v);
    LhsFirst(lhs[1..], v);
    AfterNameDelimits(lhs[0].1, rest);
    LhsNameStep(lhs[0].0, lhs[0].1, rest, s);
  }

  lemma LhsNameStep(n: string, b: string, rest: string, s: string)
    requires IsName(n) && NotSpacing(n) && Delimits(b + rest) && Ws(b + rest) == rest
    requires s == "\\" + n + (b + rest)
    ensures !StartsWith(s, "::=") && ParseCommand(s) == Ok((BareCommand(n, None), rest))
  {
    BareNameCommand(n, b + rest);
    assert s[0] == '\\';
    MismatchAt(s, "::=", 0);
  }

  lemma BareNameCommand(n: string, u: string)
    requires IsName(n) && Delimits(u)
    ensures ParseCommand("\\" + n + u) == Ok((BareCommand(n, None), Ws(u)))
  {
    assert RenderSeqKind(None) == "";
    assert "\\" + n + RenderSeqKind(None) + u == "\\" + n + u;
    BareCommandRoundTrip(n, None, u);
  }

  lemma LhsEmpty(v: string)
    ensures ParseLhs(LhsText([]) + "::=" + v) == Ok((Lhs([]), Ws(v)))
  {
    var s := LhsText([]) + "::=" + v;
    assert s == "::=" + v && s[3..] == v;
  }

  lemma ParseLhsCons(s: string, c: Command, s1: string, names: seq<string>, rest: string)
    requires ParseCommand(s) == Ok((c, s1))
    requires ParseLhs(s1) == Ok((Lhs(names), rest))
    ensures ParseLhs(s) == Ok((Lhs([c.head.name] + names), rest))
  {
    assert s[0] == '\\';
    MismatchAt(s, "::=", 0);
  }

  /** `many_till(Command::parser, Equal)` reads a written left-hand side back
      name by name, and stops after the `::=` and the blank behind it. */
  lemma {:induction false} LhsRoundTrip(lhs: seq<WrittenName>, v: string)
    requires AllNames(lhs)
    ensures ParseLhs(LhsText(lhs) + "::=" + v) == Ok((Lhs(NamesOf(lhs)), Ws(v)))
    decreases |lhs|
  {
    if lhs == [] {
      LhsEmpty(v);
    } else {
      AllNamesSplit(lhs);
      LhsStep(lhs, v);
      LhsRoundTrip(lhs[1..], v);
      ParseLhsCons(LhsText(lhs) + "::=" + v, BareCommand(lhs[0].0, None), LhsText(lhs[1..]) + "::=" + v, NamesOf(lhs[1..]), Ws(v));
    }
  }

  // ---------------------------------------------------------------------------
  // Written productions

  /** A production as written: `\production{name}`, the blank after it, the
      left-hand side up to `::=`, the alternatives (the first one's blank is
      the one after `::=`), the closing `\\` and the blank after it. */
  datatype WrittenProduction = WrittenProduction(
    name: string, afterName: string, lhs: seq<WrittenName>, alts: seq<Alt>, afterBreak: string)

  predicate WellWrittenProduction(w: WrittenProduction) {
    IsLiteral(w.name) && IsBlank(w.afterName) && AllNames(w.lhs) &&
    w.alts != [] && AllAlts(w.alts) && IsBlank(w.afterBreak)
  }

  function ProductionText(w: WrittenProduction): string
    requires w.alts != []
  {
    "\\production{" + w.name + "}" +
      (w.afterName + (LhsText(w.lhs) + "::=" + (w.alts[0].0 + (RhsText(w.alts) + ("\\\\" + w.afterBreak)))))
  }

  function ProductionOf(w: WrittenProduction): Production {
    Production(w.name, Lhs(NamesOf(w.lhs)), Rhs(ElemsOf(w.alts)))
  }

  /** What follows a production inside a block: the next `\production` or the
      `\end`, with nothing to skip in front of it. */
  predicate OpensStructural(u: string) {
    ParseCommand(u).Ok? && Ws(u) == u &&
    (ParseCommand(u).value.0.head.name == "production" || ParseCommand(u).value.0.head.name == "end")
  }

  lemma ProductionTextSplit(w: WrittenProduction, u: string)
    requires w.alts != []
    ensures ProductionText(w) + u == "\\production{" + w.name + "}" +
      (w.afterName + (LhsText(w.lhs) + "::=" + (w.alts[0].0 + (RhsText(w.alts) + ("\\\\" + w.afterBreak + u)))))
  {
    var k := "\\\\" + w.afterBreak;
    var x3 := RhsText(w.alts) + k;
    var x2 := w.alts[0].0 + x3;
    var x1 := LhsText(w.lhs) + "::=" + x2;
    var x0 := w.afterName + x1;
    Associative("\\production{" + w.name + "}", x0, u);
    Associative(w.afterName, x1, u);
    Associative(LhsText(w.lhs) + "::=", x2, u);
    Associative(w.alts[0].0, x3, u);
    Associative(RhsText(w.alts), k, u);
  }

  /** A structural command is no symbol, no `(`, no `to` and no `|`. */
  lemma StructuralCloses(u: string)
    requires OpensStructural(u)
    ensures ClosesRhs(u)
  {
    StructuralCommandIsNoSymbol(u);
    assert u[0] == '\\';
    MismatchAt(u, "(", 0);
    MismatchAt(u, "|", 0);
  }

  /** The `\\` that ends a production, and its blank, end the last
      alternative and are skipped. */
  lemma BreakCloses(b: string, u: string)
    requires IsBlank(b) && OpensStructural(u)
    ensures ClosesRhs("\\\\" + b + u) && Ws("\\\\" + b + u) == u
  {
    BreakSkipped(b, u);
    StructuralCloses(u);
    BreakIsNoSymbol(b + u);
  }

  lemma BreakSkipped(b: string, u: string)
    requires IsBlank(b) && Ws(u) == u
    ensures Ws("\\\\" + b + u) == u && "\\\\" + b + u == "\\\\" + (b + u)
  {
    assert "\\\\" + b + u == "\\\\" + (b + u);
    WsSkipsTag("\\\\", b + u);
    WsSkipsBlank(b, u);
  }

  lemma BreakIsNoSymbol(x: string)
    ensures var t := "\\\\" + x; ParseSymbol(t) == Err(Error) && !StartsWith(t, "|")
  {
    var t := "\\\\" + x;
    MismatchAt(t, "\\{", 1);
    MismatchAt(t, "[", 0);
    MismatchAt(t, "|", 0);
    NoSymbolAt(t);
  }

  lemma ProductionNameStep(name: string, b: string, l: string)
    requires IsLiteral(name) && IsBlank(b) && l != [] && (l[0] == '\\' || l[0] == ':') && Ws(l) == l
    ensures ProductionName("\\production{" + name + "}" + (b + l)) == Ok((name, l))
  {
    var x := b + l;
    AfterNameDelimits(b, l);
    NamesOfShapes();
    ProductionCommandText(name, x);
    LiteralCommandRoundTrip("production", name, x);
  }

  lemma ProductionCommandText(name: string, x: string)
    ensures "\\production{" + name + "}" + x == "\\" + "production" + "{" + name + "}" + x
  {
  }

  /** The blank after `::=` is skipped up to the first symbol. */
  lemma BodyOpens(alts: seq<Alt>, t: string)
    requires alts != [] && AllAlts(alts)
    ensures Ws(alts[0].0 + (RhsText(alts) + t)) == RhsText(alts) + t
  {
    AllAltsSplit(alts);
    Associative(ElemText(alts[0].1), MoreAltsText(alts[1..]), t);
    ElemStartsClear(alts[0].1, MoreAltsText(alts[1..]) + t);
    WsSkipsBlank(alts[0].0, RhsText(alts) + t);
  }

  /** The name and the left-hand side of a written production read back. */
  lemma ProductionHead(w: WrittenProduction, t: string)
    requires WellWrittenProduction(w)
    ensures var v := w.alts[0].0 + (RhsText(w.alts) + t);
      var l := LhsText(w.lhs) + "::=" + v;
      ProductionName("\\production{" + w.name + "}" + (w.afterName + l)) == Ok((w.name, l)) &&
      ParseLhs(l) == Ok((Lhs(NamesOf(w.lhs)), RhsText(w.alts) + t))
  {
    var v := w.alts[0].0 + (RhsText(w.alts) + t);
    LhsOpens(w.lhs, v);
    LhsFirst(w.lhs, v);
    ProductionNameStep(w.name, w.afterName, LhsText(w.lhs) + "::=" + v);
    LhsRoundTrip(w.lhs, v);
    BodyOpens(w.alts, t);
  }

  /** The alternatives of a written production read back, up to the `\\`,
      and what follows it is reached by skipping separators. */
  lemma ProductionBody(w: WrittenProduction, u: string)
    requires WellWrittenProduction(w) && OpensStructural(u)
    ensures var t := "\\\\" + w.afterBreak + u;
      ParseRhs(RhsText(w.alts) + t) == Ok((Rhs(ElemsOf(w.alts)), AfterAlts(w.alts, t))) &&
      Ws(AfterAlts(w.alts, t)) == u
  {
    var t := "\\\\" + w.afterBreak + u;
    BreakCloses(w.afterBreak, u);
    RhsRoundTrip(w.alts, t);
    AfterAltsSkipped(w.alts, t, u);
  }

  lemma AfterAltsSkipped(alts: seq<Alt>, t: string, u: string)
    requires alts != [] && Ws(t) == u
    ensures Ws(AfterAlts(alts, t)) == u
  {
    WsIdempotent(t);
  }

  lemma ProductionFromParts(s: string, name: string, s1: string, lhs: Lhs, s2: string, rhs: Rhs, s3: string)
    requires ProductionName(s) == Ok((name, s1))
    requires ParseLhs(s1) == Ok((lhs, s2))
    requires ParseRhs(s2) == Ok((rhs, s3))
    ensures ParseProduction(s) == Ok((Production(name, lhs, rhs), Ws(s3)))
  {
  }

  /** Production::parser reads a written production back, name, left-hand
      side and alternatives, and stops in front of the next `\production`
      or `\end`; so Production::is_production holds there. */
  lemma ProductionRoundTrip(w: WrittenProduction, u: string)
    requires WellWrittenProduction(w) && OpensStructural(u)
    ensures ParseProduction(ProductionText(w) + u) == Ok((ProductionOf(w), u))
    ensures IsProduction(ProductionText(w) + u).Ok?
  {
    var t := "\\\\" + w.afterBreak + u;
    var v := w.alts[0].0 + (RhsText(w.alts) + t);
    var l := LhsText(w.lhs) + "::=" + v;
    ProductionTextSplit(w, u);
    ProductionHead(w, t);
    ProductionBody(w, u);
    ProductionFromParts(ProductionText(w) + u, w.name, l, Lhs(NamesOf(w.lhs)), RhsText(w.alts) + t,
      Rhs(ElemsOf(w.alts)), AfterAlts(w.alts, t));
  }

  /** Production::is_production holds in front of a written production and
      leaves the input where it is. */
  lemma ProductionAhead(w: WrittenProduction, u: string)
    requires WellWrittenProduction(w) && OpensStructural(u)
    ensures IsProduction(ProductionText(w) + u) == Ok(((), ProductionText(w) + u))
  {
    ProductionRoundTrip(w, u);
  }

  // ---------------------------------------------------------------------------
  // Written math blocks

  /** A math block as written: a blank, `\begin{array}{columns}`, the blank
      after it, the productions, and `\end{array}`. */
  datatype WrittenBlock = WrittenBlock(
    lead: string, columns: string, afterBegin: string, productions: seq<WrittenProduction>)

  predicate AllProductions(ps: seq<WrittenProduction>) {
    forall i :: 0 <= i < |ps| ==> WellWrittenProduction(ps[i])
  }

  predicate WellWrittenBlock(b: WrittenBlock) {
    IsBlank(b.lead) && IsLiteral(b.columns) && IsBlank(b.afterBegin) && AllProductions(b.productions)
  }

  function ProductionsText(ps: seq<WrittenProduction>): string
    requires AllProductions(ps)
  {
    if ps == [] then "" else ProductionText(ps[0]) + ProductionsText(ps[1..])
  }

  function ProductionsOf(ps: seq<WrittenProduction>): seq<Production> {
    if ps == [] then [] else [ProductionOf(ps[0])] + ProductionsOf(ps[1..])
  }

  function BeginArray(columns: string): Command {
    Command(CommandHead("begin", []), [Str("array"), Str(columns)], None)
  }

  const EndArray: Command := Command(CommandHead("end", []), [Str("array")], None)

  function BlockText(b: WrittenBlock): string
    requires AllProductions(b.productions)
  {
    b.lead + (RenderCommand(BeginArray(b.columns)) +
      (b.afterBegin + (ProductionsText(b.productions) + RenderCommand(EndArray))))
  }

  /** The delimiters of a block render as they are written in the grammar. */
  lemma ArrayText(columns: string)
    ensures RenderCommand(BeginArray(columns)) == "\\begin{array}{" + columns + "}"
    ensures RenderCommand(EndArray) == "\\end{array}"
  {
    BeginArgsText(columns);
    EndArgsText();
  }

  lemma BeginArgsText(columns: string)
    ensures RenderArgs(BeginArray(columns).args) == "{array}{" + columns + "}"
  {
    var rest := [Str(columns)];
    assert rest[1..] == [];
    assert RenderArgs(rest) == "{" + columns + "}" + "";
    assert BeginArray(columns).args[1..] == rest;
  }

  lemma EndArgsText()
    ensures RenderArgs(EndArray.args) == "{array}"
  {
    assert EndArray.args[1..] == [];
  }

  lemma AllProductionsSplit(ps: seq<WrittenProduction>)
    requires ps != [] && AllProductions(ps)
    ensures WellWrittenProduction(ps[0]) && AllProductions(ps[1..])
  {
    assert forall i :: 0 <= i < |ps[1..]| ==> ps[1..][i] == ps[i + 1];
  }

  /** What follows the productions: `\end`, with nothing to skip. */
  predicate OpensEnd(e: string) {
    ParseCommand(e).Ok? && ParseCommand(e).value.0.head.name == "end" && Ws(e) == e
  }

  /** Nothing in front of a command is skipped, unless it is a spacing command. */
  lemma CommandOpens(s: string)
    requires ParseCommand(s).Ok? && NotSpacing(ParseCommand(s).value.0.head.name)
    ensures Ws(s) == s
  {
    var h := HeadName(s).value;
    Associative("\\", h.0, h.1);
    CommandNotSeparator(h.0, h.1);
    WsFixedPoints(s);
  }

  /** `\end{array}` closes the productions: it is read as `end`, and no
      production starts there. */
  lemma EndOpens(t: string)
    requires Delimits(t)
    ensures var e := RenderCommand(EndArray) + t;
      OpensEnd(e) && End(e) == Ok(((), Ws(t))) && ParseProduction(e) == Err(Error)
  {
    var e := RenderCommand(EndArray) + t;
    NamesOfShapes();
    CommandRoundTrip(EndArray, t);
    CommandOpens(e);
  }

  /** A written production opens with `\production`, with nothing to skip. */
  lemma ProductionOpens(w: WrittenProduction, u: string)
    requires WellWrittenProduction(w)
    ensures OpensStructural(ProductionText(w) + u)
  {
    var t := "\\\\" + w.afterBreak + u;
    ProductionTextSplit(w, u);
    ProductionHead(w, t);
    NamesOfShapes();
    CommandOpens(ProductionText(w) + u);
  }

  lemma ProductionsTextCons(ps: seq<WrittenProduction>, e: string)
    requires ps != [] && AllProductions(ps)
    ensures AllProductions(ps[1..])
    ensures ProductionsText(ps) + e == ProductionText(ps[0]) + (ProductionsText(ps[1..]) + e)
    ensures ProductionsOf(ps) == [ProductionOf(ps[0])] + ProductionsOf(ps[1..])
  {
    AllProductionsSplit(ps);
    Associative(ProductionText(ps[0]), ProductionsText(ps[1..]), e);
  }

  /** Written productions, and the `\end` after them, open with a structural
      command. */
  lemma ProductionsOpen(ps: seq<WrittenProduction>, e: string)
    requires AllProductions(ps) && OpensEnd(e)
    ensures OpensStructural(ProductionsText(ps) + e)
  {
    if ps == [] {
      assert ProductionsText(ps) + e == e;
    } else {
      ProductionsTextCons(ps, e);
      AllProductionsSplit(ps);
      ProductionOpens(ps[0], ProductionsText(ps[1..]) + e);
    }
  }

  lemma MoreProductionsStop(e: string)
    requires ParseProduction(e) == Err(Error)
    ensures MoreProductions(e) == Ok(([], e))
  {
  }

  lemma MoreProductionsCons(s: string, p: Production, s1: string, ps: seq<Production>, rest: string)
    requires ParseProduction(s) == Ok((p, s1)) && MoreProductions(s1) == Ok((ps, rest))
    ensures MoreProductions(s) == Ok(([p] + ps, rest))
  {
  }

  lemma ProductionsStep(ps: seq<WrittenProduction>, e: string)
    requires ps != [] && AllProductions(ps) && OpensEnd(e)
    ensures AllProductions(ps[1..])
    ensures ParseProduction(ProductionText(ps[0]) + (ProductionsText(ps[1..]) + e)) ==
      Ok((ProductionOf(ps[0]), ProductionsText(ps[1..]) + e))
  {
    AllProductionsSplit(ps);
    ProductionsOpen(ps[1..], e);
    ProductionRoundTrip(ps[0], ProductionsText(ps[1..]) + e);
  }

  /** The loop of `many1(Production::parser)` reads written productions back
      and stops at the `\end`. */
  lemma {:induction false} MoreProductionsRoundTrip(ps: seq<WrittenProduction>, e: string)
    requires AllProductions(ps) && OpensEnd(e) && ParseProduction(e) == Err(Error)
    ensures MoreProductions(ProductionsText(ps) + e) == Ok((ProductionsOf(ps), e))
    decreases |ps|
  {
    if ps == [] {
      assert ProductionsText(ps) + e == e;
      MoreProductionsStop(e);
    } else {
      ProductionsTextCons(ps, e);
      ProductionsStep(ps, e);
      MoreProductionsRoundTrip(ps[1..], e);
      MoreProductionsCons(ProductionsText(ps) + e, ProductionOf(ps[0]), ProductionsText(ps[1..]) + e,
        ProductionsOf(ps[1..]), e);
    }
  }

  lemma ProductionsFromMore(s: string)
    requires ParseProduction(s).Ok?
    ensures ParseProductions(s) == MoreProductions(s)
  {
  }

  /** `many1(Production::parser)` reads one or more written productions back;
      with none it fails recoverably. */
  lemma ProductionsRoundTrip(ps: seq<WrittenProduction>, e: string)
    requires AllProductions(ps) && OpensEnd(e) && ParseProduction(e) == Err(Error)
    ensures ps != [] ==> ParseProductions(ProductionsText(ps) + e) == Ok((ProductionsOf(ps), e))
    ensures ps == [] ==> ParseProductions(ProductionsText(ps) + e) == Err(Error)
  {
    if ps == [] {
      assert ProductionsText(ps) + e == e;
    } else {
      ProductionsTextCons(ps, e);
      ProductionsStep(ps, e);
      ProductionsFromMore(ProductionsText(ps) + e);
      MoreProductionsRoundTrip(ps, e);
    }
  }

  lemma BlockTextSplit(b: WrittenBlock, t: string)
    requires AllProductions(b.productions)
    ensures BlockText(b) + t == b.lead + (RenderCommand(BeginArray(b.columns)) +
      (b.afterBegin + (ProductionsText(b.productions) + (RenderCommand(EndArray) + t))))
  {
    var p := ProductionsText(b.productions) + RenderCommand(EndArray);
    var x := b.afterBegin + p;
    var y := RenderCommand(BeginArray(b.columns)) + x;
    Associative(b.lead, y, t);
    Associative(RenderCommand(BeginArray(b.columns)), x, t);
    Associative(b.afterBegin, p, t);
    Associative(ProductionsText(b.productions), RenderCommand(EndArray), t);
  }

  /** `\begin{array}{columns}` and its blank are read as `begin`, up to the
      first production or the `\end`. */
  lemma BeginStep(columns: string, a: string, p: string, lead: string)
    requires IsLiteral(columns) && IsBlank(a) && OpensStructural(p) && IsBlank(lead)
    ensures var x := RenderCommand(BeginArray(columns)) + (a + p);
      Ws(lead + x) == x && Begin(x) == Ok(((), p))
  {
    var x := RenderCommand(BeginArray(columns)) + (a + p);
    BeginCommandStep(columns, a, p);
    NamesOfShapes();
    CommandOpens(x);
    WsSkipsBlank(lead, x);
  }

  lemma BeginCommandStep(columns: string, a: string, p: string)
    requires IsLiteral(columns) && IsBlank(a) && OpensStructural(p)
    ensures ParseCommand(RenderCommand(BeginArray(columns)) + (a + p)) == Ok((BeginArray(columns), p))
  {
    BeginWellFormed(columns);
    StructuralStart(p);
    AfterNameDelimits(a, p);
    CommandRoundTrip(BeginArray(columns), a + p);
  }

  lemma BeginWellFormed(columns: string)
    requires IsLiteral(columns)
    ensures WellFormedCommand(BeginArray(columns))
  {
    NamesOfShapes();
    var args := BeginArray(columns).args;
    assert forall i :: 0 <= i < |args| ==> WellFormedArgument(args[i]) by {
      assert WellFormedArgument(args[0]) && WellFormedArgument(args[1]);
    }
  }

  lemma StructuralStart(p: string)
    requires OpensStructural(p)
    ensures p != [] && p[0] == '\\' && Ws(p) == p
  {
  }

  lemma MathBlockFromParts(s: string, x: string, p: string, ps: seq<Production>, e: string, r: string)
    requires Ws(s) == x && Begin(x) == Ok(((), p))
    requires ParseProductions(p) == Ok((ps, e)) && End(e) == Ok(((), r))
    ensures ParseMathBlock(s) == Ok((MathBlock(ps), Ws(r)))
  {
  }

  /** MathBlock::parser reads a written block back, production by production,
      and skips the separators after `\end{array}`. */
  lemma MathBlockRoundTrip(b: WrittenBlock, t: string)
    requires WellWrittenBlock(b) && b.productions != [] && Delimits(t)
    ensures ParseMathBlock(BlockText(b) + t) == Ok((MathBlock(ProductionsOf(b.productions)), Ws(t)))
  {
    var e := RenderCommand(EndArray) + t;
    var p := ProductionsText(b.productions) + e;
    BlockTextSplit(b, t);
    EndOpens(t);
    ProductionsOpen(b.productions, e);
    BeginStep(b.columns, b.afterBegin, p, b.lead);
    ProductionsRoundTrip(b.productions, e);
    WsIdempotent(t);
    MathBlockFromParts(BlockText(b) + t, RenderCommand(BeginArray(b.columns)) + (b.afterBegin + p),
      p, ProductionsOf(b.productions), e, Ws(t));
  }

  /** `many1` needs a production: a block without one fails recoverably. */
  lemma EmptyBlockFails(b: WrittenBlock, t: string)
    requires WellWrittenBlock(b) && b.productions == [] && Delimits(t)
    ensures ParseMathBlock(BlockText(b) + t) == Err(Error)
  {
    var e := RenderCommand(EndArray) + t;
    var p := ProductionsText(b.productions) + e;
    BlockTextSplit(b, t);
    EndOpens(t);
    ProductionsOpen(b.productions, e);
    BeginStep(b.columns, b.afterBegin, p, b.lead);
    ProductionsRoundTrip(b.productions, e);
  }

  // ---------------------------------------------------------------------------
  // Text of short written pieces

  lemma TermText(name: string, after: string)
    ensures ElemText([(STerm(name), after)]) == "\\" + name + after
  {
    assert [(STerm(name), after)][1..] == [];
  }

  lemma NontermText(name: string, after: string)
    ensures ElemText([(SNonterm(Nonterm(name, None)), after)]) == "\\" + name + after
    ensures SymbolsOf([(SNonterm(Nonterm(name, None)), after)]) == [SNonterm(Nonterm(name, None))]
  {
    assert [(SNonterm(Nonterm(name, None)), after)][1..] == [];
    assert RenderNonterm(Nonterm(name, None)) == "\\" + name;
  }

  lemma TermSymbols(name: string, after: string)
    ensures SymbolsOf([(STerm(name), after)]) == [STerm(name)]
  {
    assert [(STerm(name), after)][1..] == [];
  }

  lemma SpacedPair(x: Spaced, y: Spaced)
    ensures ElemText([x, y]) == RenderSymbol(x.0) + x.1 + ElemText([y])
    ensures SymbolsOf([x, y]) == [x.0] + SymbolsOf([y])
  {
    assert [x, y][1..] == [y];
  }

  lemma ElemsOfFour(a: Alt, b: Alt, c: Alt, d: Alt)
    ensures ElemsOf([a, b, c, d]) == [RhsElem(SymbolsOf(a.1), None), RhsElem(SymbolsOf(b.1), None),
      RhsElem(SymbolsOf(c.1), None), RhsElem(SymbolsOf(d.1), None)]
  {
    var e := (x: Alt) => RhsElem(SymbolsOf(x.1), None);
    assert [a, b, c, d][1..] == [b, c, d] && [b, c, d][1..] == [c, d];
    assert [c, d][1..] == [d] && [d][1..] == [];
    assert ElemsOf([d]) == [e(d)];
    assert ElemsOf([c, d]) == [e(c)] + [e(d)];
    assert ElemsOf([b, c, d]) == [e(b)] + [e(c), e(d)];
    assert ElemsOf([a, b, c, d]) == [e(a)] + [e(b), e(c), e(d)];
  }

  lemma MoreAltsOne(a: Alt)
    ensures MoreAltsText([a]) == "|" + a.0 + ElemText(a.1)
  {
    assert [a][1..] == [];
  }

  lemma MoreAltsThree(a: Alt, b: Alt, c: Alt)
    ensures MoreAltsText([a, b, c]) ==
      "|" + a.0 + ElemText(a.1) + ("|" + b.0 + ElemText(b.1) + ("|" + c.0 + ElemText(c.1)))
  {
    assert [a, b, c][1..] == [b, c] && [b, c][1..] == [c];
    MoreAltsOne(c);
  }

  lemma SingleLhsText(name: string, blank: string)
    ensures LhsText([(name, blank)]) == "\\" + name + blank
    ensures NamesOf([(name, blank)]) == [name]
  {
    assert [(name, blank)][1..] == [];
  }

  // ---------------------------------------------------------------------------
  // The unit tests of syntax.rs

  /** An alternative that is one terminal. */
  function TermElem(name: string): RhsElem {
    RhsElem([STerm(name)], None)
  }

  /** `\I32 ~|~ \I64 ~|~ \F32 ~|~ \F64 `, after the blank `first`. */
  function NumberAlts(first: string): seq<Alt> {
    [(first, [(STerm("I32"), " ~")]), ("~ ", [(STerm("I64"), " ~")]),
     ("~ ", [(STerm("F32"), " ~")]), ("~ ", [(STerm("F64"), " ")])]
  }

  lemma NumberTermFacts()
    ensures WellFormedSymbol(STerm("I32")) && WellFormedSymbol(STerm("I64"))
    ensures WellFormedSymbol(STerm("F32")) && WellFormedSymbol(STerm("F64"))
  {
    IntegerTermFacts();
    FloatTermFacts();
  }

  lemma IntegerTermFacts()
    ensures WellFormedSymbol(STerm("I32")) && WellFormedSymbol(STerm("I64"))
  {
    assert !IsAsciiLower("I32"[0]) && !IsAsciiLower("I64"[0]);
  }

  lemma FloatTermFacts()
    ensures WellFormedSymbol(STerm("F32")) && WellFormedSymbol(STerm("F64"))
  {
    assert !IsAsciiLower("F32"[0]) && !IsAsciiLower("F64"[0]);
  }

  lemma NumberAltsWellWritten(first: string)
    requires IsBlank(first)
    ensures AllAlts(NumberAlts(first))
  {
    NumberTermFacts();
    assert IsBlank(" ~") && IsBlank("~ ") && IsBlank(" ");
    var alts := NumberAlts(first);
    assert forall i :: 0 <= i < |alts| ==> AllSpaced(alts[i].1);
  }

  lemma NumberAltsText(first: string)
    ensures RhsText(NumberAlts(first)) == "\\I32 ~|~ \\I64 ~|~ \\F32 ~|~ \\F64 "
  {
    var alts := NumberAlts(first);
    assert alts[1..] == [alts[1], alts[2], alts[3]];
    TermText("I32", " ~");
    TermText("I64", " ~");
    TermText("F32", " ~");
    TermText("F64", " ");
    MoreAltsThree(alts[1], alts[2], alts[3]);
    NumberAltsLiteral();
  }

  lemma NumberAltsLiteral()
    ensures "\\I32 ~|~ \\I64 ~|~ \\F32 ~|~ \\F64 " ==
      "\\" + "I32" + " ~" +
      ("|" + "~ " + ("\\" + "I64" + " ~") + ("|" + "~ " + ("\\" + "F32" + " ~") + ("|" + "~ " + ("\\" + "F64" + " "))))
  {
  }

  lemma NumberAltsElems(first: string, t: string)
    ensures ElemsOf(NumberAlts(first)) == [TermElem("I32"), TermElem("I64"), TermElem("F32"), TermElem("F64")]
    ensures AfterAlts(NumberAlts(first), t) == Ws(t)
  {
    var alts := NumberAlts(first);
    ElemsOfFour(alts[0], alts[1], alts[2], alts[3]);
    TermSymbols("I32", " ~");
    TermSymbols("I64", " ~");
    TermSymbols("F32", " ~");
    TermSymbols("F64", " ");
  }

  /** The `\\` that closes the right-hand side in the test is skipped by
      the last terminal, and nothing is left. */
  lemma LineBreakCloses()
    ensures ClosesRhs("\\\\") && Ws("\\\\") == ""
  {
    WsFixedPoints("");
    WsSkipsTag("\\\\", "");
    assert "\\\\" + "" == "\\\\";
    NoSymbolAt("");
    BreakIsNoSymbol("");
  }

  /** parse_rhs: four alternatives, and the input is used up. */
  lemma RhsExample()
    ensures ParseRhs("\\I32 ~|~ \\I64 ~|~ \\F32 ~|~ \\F64 \\\\")
         == Ok((Rhs([TermElem("I32"), TermElem("I64"), TermElem("F32"), TermElem("F64")]), ""))
  {
    RhsExampleText();
    RhsExampleParts();
  }

  lemma RhsExampleText()
    ensures RhsText(NumberAlts("")) + "\\\\" == "\\I32 ~|~ \\I64 ~|~ \\F32 ~|~ \\F64 \\\\"
  {
    NumberAltsText("");
  }

  lemma RhsExampleParts()
    ensures ParseRhs(RhsText(NumberAlts("")) + "\\\\")
         == Ok((Rhs([TermElem("I32"), TermElem("I64"), TermElem("F32"), TermElem("F64")]), ""))
  {
    NumberAltsWellWritten("");
    NumberAltsElems("", "\\\\");
    LineBreakCloses();
    RhsRoundTrip(NumberAlts(""), "\\\\");
  }

  /** The head line of a production with one name on its left-hand side:
      `\production{name} & \lhs &::=` and the blank after it. */
  function HeadLine(name: string, lhs: string, blank: string): string {
    "\\production{" + name + "} & \\" + lhs + " &::=" + blank
  }

  /** A production written with one name and aligned by `&` is its head line,
      its right-hand side and the line break. */
  lemma ProductionLines(w: WrittenProduction, x: string)
    requires w.afterName == " & " && w.lhs == [(x, " &")] && w.alts != []
    ensures ProductionText(w) == HeadLine(w.name, x, w.alts[0].0) + (RhsText(w.alts) + "\\\\" + w.afterBreak)
  {
    SingleLhsText(x, " &");
    HeadLinePieces(w.name, x, w.alts[0].0, RhsText(w.alts) + ("\\\\" + w.afterBreak));
  }

  lemma HeadLinePieces(name: string, x: string, blank: string, body: string)
    ensures "\\production{" + name + "}" + (" & " + ("\\" + x + " &" + "::=" + (blank + body)))
      == HeadLine(name, x, blank) + body
  {
    assert "}" + " & " + "\\" == "} & \\";
    assert " &" + "::=" == " &::=";
  }

  /** One line of the index block: `\production{name} & \idx &::=& \u32 \\`. */
  function IndexProduction(name: string, idx: string): WrittenProduction {
    WrittenProduction(name, " & ", [(idx, " &")], [("& ", [(SNonterm(Nonterm("u32", None)), " ")])], "\n        ")
  }

  function IndexLine(name: string, idx: string): string {
    HeadLine(name, idx, "& ") + "\\u32 \\\\\n        "
  }

  lemma IndexProductionText(name: string, idx: string)
    ensures ProductionText(IndexProduction(name, idx)) == IndexLine(name, idx)
  {
    ProductionLines(IndexProduction(name, idx), idx);
    U32RhsText();
    assert "\\u32 " + "\\\\" + "\n        " == "\\u32 \\\\\n        ";
  }

  lemma U32RhsText()
    ensures RhsText([("& ", [(SNonterm(Nonterm("u32", None)), " ")])]) == "\\u32 "
  {
    NontermText("u32", " ");
    assert [("& ", [(SNonterm(Nonterm("u32", None)), " ")])][1..] == [];
  }

  lemma U32Facts()
    ensures WellFormedSymbol(SNonterm(Nonterm("u32", None)))
    ensures AllAlts([("& ", [(SNonterm(Nonterm("u32", None)), " ")])])
  {
    MismatchAt("u32", "quad", 0);
    MismatchAt("u32", "qquad", 0);
    assert IsBlank("& ") && IsBlank(" ");
  }

  lemma IndexProductionWellWritten(name: string, idx: string)
    requires IsLiteral(name) && IsName(idx) && NotSpacing(idx)
    ensures WellWrittenProduction(IndexProduction(name, idx))
  {
    U32Facts();
    assert IsBlank(" & ") && IsBlank(" &") && IsBlank("\n        ");
    assert AllNames([(idx, " &")]);
  }

  predicate IndexName(e: (string, string)) {
    IsLiteral(e.0) && IsName(e.1) && NotSpacing(e.1)
  }

  function IndexEntries(es: seq<(string, string)>): seq<WrittenProduction> {
    if es == [] then [] else [IndexProduction(es[0].0, es[0].1)] + IndexEntries(es[1..])
  }

  function IndexLines(es: seq<(string, string)>): string {
    if es == [] then "" else IndexLine(es[0].0, es[0].1) + IndexLines(es[1..])
  }

  /** Lines of well-named indices are the text of their productions. */
  lemma {:induction false} IndexEntriesText(es: seq<(string, string)>)
    requires forall i :: 0 <= i < |es| ==> IndexName(es[i])
    ensures AllProductions(IndexEntries(es))
    ensures ProductionsText(IndexEntries(es)) == IndexLines(es)
    ensures |ProductionsOf(IndexEntries(es))| == |es|
  {
    if es != [] {
      var ps := IndexEntries(es);
      IndexEntriesText(es[1..]);
      assert IndexName(es[0]);
      IndexProductionWellWritten(es[0].0, es[0].1);
      IndexProductionText(es[0].0, es[0].1);
      assert ps[1..] == IndexEntries(es[1..]);
      assert AllProductions(ps) by {
        forall i | 0 <= i < |ps| ensures WellWrittenProduction(ps[i]) {
          if i > 0 { assert ps[i] == ps[1..][i - 1]; }
        }
      }
    }
  }

  /** The nine index spaces of the grammar, as the block names them. */
  const IndexNames: seq<(string, string)> := [
    ("type index", "typeidx"), ("function index", "funcidx"), ("table index", "tableidx"),
    ("memory index", "memidx"), ("global index", "globalidx"), ("element index", "elemidx"),
    ("data index", "dataidx"), ("local index", "localidx"), ("label index", "labelidx")]

  lemma IndexName0()
    ensures IndexName(IndexNames[0])
  {
    MismatchAt("typeidx", "quad", 0);
    MismatchAt("typeidx", "qquad", 0);
  }

  lemma IndexName1()
    ensures IndexName(IndexNames[1])
  {
    MismatchAt("funcidx", "quad", 0);
    MismatchAt("funcidx", "qquad", 0);
  }

  lemma IndexName2()
    ensures IndexName(IndexNames[2])
  {
    MismatchAt("tableidx", "quad", 0);
    MismatchAt("tableidx", "qquad", 0);
  }

  lemma IndexName3()
    ensures IndexName(IndexNames[3])
  {
    MismatchAt("memidx", "quad", 0);
    MismatchAt("memidx", "qquad", 0);
  }

  lemma IndexName4()
    ensures IndexName(IndexNames[4])
  {
    MismatchAt("globalidx", "quad", 0);
    MismatchAt("globalidx", "qquad", 0);
  }

  lemma IndexName5()
    ensures IndexName(IndexNames[5])
  {
    MismatchAt("elemidx", "quad", 0);
    MismatchAt("elemidx", "qquad", 0);
  }

  lemma IndexName6()
    ensures IndexName(IndexNames[6])
  {
    MismatchAt("dataidx", "quad", 0);
    MismatchAt("dataidx", "qquad", 0);
  }

  lemma IndexName7()
    ensures IndexName(IndexNames[7])
  {
    MismatchAt("localidx", "quad", 0);
    MismatchAt("localidx", "qquad", 0);
  }

  lemma IndexName8()
    ensures IndexName(IndexNames[8])
  {
    MismatchAt("labelidx", "quad", 0);
    MismatchAt("labelidx", "qquad", 0);
  }

  lemma IndexNamesWellFormed()
    ensures forall i :: 0 <= i < |IndexNames| ==> IndexName(IndexNames[i])
  {
    IndexName0(); IndexName1(); IndexName2(); IndexName3(); IndexName4();
    IndexName5(); IndexName6(); IndexName7(); IndexName8();
  }

  /** The written block of a list of index spaces. */
  function IndexBlock(es: seq<(string, string)>): WrittenBlock {
    WrittenBlock("   ", "llll", "\n        ", IndexEntries(es))
  }

  /**
   * The index block of the grammar parses, whole, into its nine productions
   * and leaves nothing behind.
   */
  lemma IndicesBlockExample()
    ensures ParseMathBlock("   \\begin{array}{llll}\n        " + IndexLines(IndexNames) + "\\end{array}")
      == Ok((MathBlock(ProductionsOf(IndexEntries(IndexNames))), ""))
    ensures |ProductionsOf(IndexEntries(IndexNames))| == 9
  {
    IndexNamesWellFormed();
    IndexBlockRoundTrip(IndexNames);
  }

  /** Any nonempty block of well-named index lines parses into one production per line. */
  lemma IndexBlockRoundTrip(es: seq<(string, string)>)
    requires es != [] && forall i :: 0 <= i < |es| ==> IndexName(es[i])
    ensures ParseMathBlock("   \\begin{array}{llll}\n        " + IndexLines(es) + "\\end{array}")
      == Ok((MathBlock(ProductionsOf(IndexEntries(es))), ""))
    ensures |ProductionsOf(IndexEntries(es))| == |es|
  {
    IndexEntriesText(es);
    IndexBlockParses(es);
    IndexBlockText(es);
  }

  lemma IndexBlockParses(es: seq<(string, string)>)
    requires es != [] && AllProductions(IndexEntries(es))
    ensures ParseMathBlock(BlockText(IndexBlock(es)) + "") == Ok((MathBlock(ProductionsOf(IndexEntries(es))), ""))
  {
    var b := IndexBlock(es);
    IndexBlockShape();
    assert WellWrittenBlock(b);
    MathBlockRoundTrip(b, "");
  }

  lemma IndexBlockShape()
    ensures IsBlank("   ") && IsLiteral("llll") && IsBlank("\n        ")
  { }

  lemma IndexBlockText(es: seq<(string, string)>)
    requires AllProductions(IndexEntries(es))
    requires ProductionsText(IndexEntries(es)) == IndexLines(es)
    ensures BlockText(IndexBlock(es)) + "" ==
      "   \\begin{array}{llll}\n        " + IndexLines(es) + "\\end{array}"
  {
    BlockTextOpen(IndexBlock(es));
    IndexBlockOpening();
  }

  lemma IndexBlockOpening()
    ensures "   " + "\\begin{array}{" + "llll" + "}" + "\n        " == "   \\begin{array}{llll}\n        "
  { }

  /** A block is its opening, its productions and `\end{array}`. */
  lemma BlockTextOpen(b: WrittenBlock)
    requires AllProductions(b.productions)
    ensures BlockText(b) + "" ==
      b.lead + "\\begin{array}{" + b.columns + "}" + b.afterBegin + ProductionsText(b.productions) + "\\end{array}"
  {
    ArrayText(b.columns);
  }

  // The global type block: two productions, the second with two alternatives
  // split over two lines.

  function GlobalTypeProduction(): WrittenProduction {
    WrittenProduction("global type", " & ", [("globaltype", " &")],
      [("&\n      ", [(SNonterm(Nonterm("mut", None)), "~"), (SNonterm(Nonterm("valtype", None)), " ")])],
      "\n    ")
  }

  function MutabilityProduction(): WrittenProduction {
    WrittenProduction("mutability", " & ", [("mut", " &")],
      [("&\n      ", [(STerm("MCONST"), " ~")]), ("~\n      ", [(STerm("MVAR"), " ")])],
      "\n    ")
  }

  function GlobalTypeBlock(): WrittenBlock {
    WrittenBlock("", "llll", "\n    ", [GlobalTypeProduction(), MutabilityProduction()])
  }

  lemma GlobalTypeText()
    ensures ProductionText(GlobalTypeProduction()) ==
      HeadLine("global type", "globaltype", "&\n      ") + "\\mut~\\valtype \\\\\n    "
  {
    var w := GlobalTypeProduction();
    ProductionLines(w, "globaltype");
    GlobalTypeRhs();
    GlobalTypeLiteral();
  }

  lemma GlobalTypeRhs()
    ensures RhsText(GlobalTypeProduction().alts) == "\\" + "mut" + "~" + ("\\" + "valtype" + " ")
  {
    var w := GlobalTypeProduction();
    var x, y := w.alts[0].1[0], w.alts[0].1[1];
    SpacedPair(x, y);
    NontermText("valtype", " ");
    assert RenderNonterm(Nonterm("mut", None)) == "\\" + "mut";
    assert w.alts[1..] == [];
  }

  lemma GlobalTypeLiteral()
    ensures "\\" + "mut" + "~" + ("\\" + "valtype" + " ") + "\\\\" + "\n    " == "\\mut~\\valtype \\\\\n    "
  { }

  lemma MutabilityText()
    ensures ProductionText(MutabilityProduction()) ==
      HeadLine("mutability", "mut", "&\n      ") + ("\\MCONST ~|~\n      " + "\\MVAR \\\\\n    ")
  {
    ProductionLines(MutabilityProduction(), "mut");
    MutabilityRhs();
    MutabilityLiteral();
  }

  lemma MutabilityRhs()
    ensures RhsText(MutabilityProduction().alts) ==
      "\\" + "MCONST" + " ~" + ("|" + "~\n      " + ("\\" + "MVAR" + " "))
  {
    var w := MutabilityProduction();
    TermText("MCONST", " ~");
    MoreAltsOne(w.alts[1]);
    TermText("MVAR", " ");
    assert w.alts[1..] == [w.alts[1]];
  }

  lemma MutabilityLiteral()
    ensures "\\" + "MCONST" + " ~" + ("|" + "~\n      " + ("\\" + "MVAR" + " ")) + "\\\\" + "\n    " ==
      "\\MCONST ~|~\n      " + "\\MVAR \\\\\n    "
  { }

  /** A production aligned by `&` with one name on the left is well written
      when its parts are. */
  lemma OneNameWellWritten(w: WrittenProduction, x: string)
    requires w.afterName == " & " && w.lhs == [(x, " &")]
    requires IsLiteral(w.name) && IsName(x) && NotSpacing(x)
    requires w.alts != [] && AllAlts(w.alts) && IsBlank(w.afterBreak)
    ensures WellWrittenProduction(w)
  {
    assert IsBlank(" & ") && IsBlank(" &");
  }

  lemma NontermSpaced(name: string, blank: string)
    requires WellFormedNonterm(Nonterm(name, None)) && name != "to"
    requires IsBlank(blank) && blank != []
    ensures WellSpaced((SNonterm(Nonterm(name, None)), blank))
  { }

  lemma TermSpaced(name: string, blank: string)
    requires WellFormedTerm(name) && !LowerCaseName(name)
    requires IsBlank(blank) && blank != []
    ensures WellSpaced((STerm(name), blank))
  { }

  lemma MutFacts()
    ensures WellFormedNonterm(Nonterm("mut", None)) && "mut" != "to"
  {
    MismatchAt("mut", "quad", 0);
    MismatchAt("mut", "qquad", 0);
  }

  lemma ValtypeFacts()
    ensures WellFormedNonterm(Nonterm("valtype", None)) && "valtype" != "to"
  {
    MismatchAt("valtype", "quad", 0);
    MismatchAt("valtype", "qquad", 0);
  }

  lemma GlobaltypeFacts()
    ensures IsLiteral("global type") && IsName("globaltype") && NotSpacing("globaltype")
  {
    MismatchAt("globaltype", "quad", 0);
    MismatchAt("globaltype", "qquad", 0);
  }

  lemma MutabilityTermFacts()
    ensures WellFormedTerm("MCONST") && !LowerCaseName("MCONST")
    ensures WellFormedTerm("MVAR") && !LowerCaseName("MVAR")
  {
    assert !IsAsciiLower("MCONST"[0]) && !IsAsciiLower("MVAR"[0]);
  }

  lemma GlobalTypeAlts()
    ensures AllAlts(GlobalTypeProduction().alts)
  {
    var w := GlobalTypeProduction();
    MutFacts();
    ValtypeFacts();
    NontermSpaced("mut", "~");
    NontermSpaced("valtype", " ");
    assert AllSpaced(w.alts[0].1);
  }

  lemma GlobalTypeWellWritten()
    ensures WellWrittenProduction(GlobalTypeProduction())
  {
    GlobaltypeFacts();
    GlobalTypeAlts();
    OneNameWellWritten(GlobalTypeProduction(), "globaltype");
  }

  lemma MutabilityAlts()
    ensures AllAlts(MutabilityProduction().alts)
  {
    var w := MutabilityProduction();
    MutabilityTermFacts();
    TermSpaced("MCONST", " ~");
    TermSpaced("MVAR", " ");
    assert AllSpaced(w.alts[0].1) && AllSpaced(w.alts[1].1);
  }

  lemma MutabilityWellWritten()
    ensures WellWrittenProduction(MutabilityProduction())
  {
    MutFacts();
    MutabilityAlts();
    assert IsLiteral("mutability");
    OneNameWellWritten(MutabilityProduction(), "mut");
  }

  /** Two productions in a row. */
  lemma TwoProductions(p: WrittenProduction, q: WrittenProduction)
    requires WellWrittenProduction(p) && WellWrittenProduction(q)
    ensures AllProductions([p, q])
    ensures ProductionsText([p, q]) == ProductionText(p) + ProductionText(q)
    ensures ProductionsOf([p, q]) == [ProductionOf(p), ProductionOf(q)]
  {
    assert [p, q][1..] == [q] && [q][1..] == [];
    assert AllProductions([q]);
    assert ProductionsText([q]) == ProductionText(q) + "";
    assert ProductionText(q) + "" == ProductionText(q);
    assert ProductionsOf([q]) == [ProductionOf(q)] + [];
  }

  lemma GlobalTypeRules()
    ensures ProductionOf(GlobalTypeProduction()) ==
      Production("global type", Lhs(["globaltype"]),
        Rhs([RhsElem([SNonterm(Nonterm("mut", None)), SNonterm(Nonterm("valtype", None))], None)]))
    ensures ProductionOf(MutabilityProduction()) ==
      Production("mutability", Lhs(["mut"]), Rhs([TermElem("MCONST"), TermElem("MVAR")]))
  {
    GlobalTypeRule();
    MutabilityRule();
  }

  lemma GlobalTypeRule()
    ensures ProductionOf(GlobalTypeProduction()) ==
      Production("global type", Lhs(["globaltype"]),
        Rhs([RhsElem([SNonterm(Nonterm("mut", None)), SNonterm(Nonterm("valtype", None))], None)]))
  {
    var g := GlobalTypeProduction();
    SingleLhsText("globaltype", " &");
    SpacedPair(g.alts[0].1[0], g.alts[0].1[1]);
    NontermText("valtype", " ");
    assert g.alts[1..] == [];
    var syms := [SNonterm(Nonterm("mut", None))] + [SNonterm(Nonterm("valtype", None))];
    assert SymbolsOf(g.alts[0].1) == syms;
    assert syms == [SNonterm(Nonterm("mut", None)), SNonterm(Nonterm("valtype", None))];
    assert ElemsOf(g.alts) == [RhsElem(SymbolsOf(g.alts[0].1), None)] + [];
  }

  lemma MutabilityRule()
    ensures ProductionOf(MutabilityProduction()) ==
      Production("mutability", Lhs(["mut"]), Rhs([TermElem("MCONST"), TermElem("MVAR")]))
  {
    var m := MutabilityProduction();
    SingleLhsText("mut", " &");
    assert m.alts[1..] == [m.alts[1]] && m.alts[1..][1..] == [];
    TermSymbols("MCONST", " ~");
    TermSymbols("MVAR", " ");
    assert ElemsOf(m.alts[1..]) == [TermElem("MVAR")] + [];
    assert ElemsOf(m.alts) == [TermElem("MCONST")] + ElemsOf(m.alts[1..]);
  }

  lemma GlobalBlockParses(b: WrittenBlock)
    requires b == GlobalTypeBlock() && AllProductions(b.productions)
    ensures ParseMathBlock(BlockText(b) + "") == Ok((MathBlock(ProductionsOf(b.productions)), ""))
  {
    assert IsBlank("") && IsLiteral("llll") && IsBlank("\n    ");
    MathBlockRoundTrip(b, "");
  }

  lemma GlobalBlockOpening()
    ensures "" + "\\begin{array}{" + "llll" + "}" + "\n    " == "\\begin{array}{llll}\n    "
  { }

  lemma FiveLines(o: string, a: string, b: string, c: string, d: string, e: string, z: string)
    ensures o + (a + b + (c + (d + e))) + z == o + a + b + c + d + e + z
  { }

  lemma GlobalBlockText(b: WrittenBlock)
    requires b == GlobalTypeBlock() && AllProductions(b.productions)
    ensures BlockText(b) + "" ==
      "\\begin{array}{llll}\n    " +
      HeadLine("global type", "globaltype", "&\n      ") + "\\mut~\\valtype \\\\\n    " +
      HeadLine("mutability", "mut", "&\n      ") + "\\MCONST ~|~\n      " + "\\MVAR \\\\\n    " +
      "\\end{array}"
  {
    BlockTextOpen(b);
    GlobalBlockOpening();
    GlobalProductionsText();
    FiveLines("\\begin{array}{llll}\n    ",
      HeadLine("global type", "globaltype", "&\n      "), "\\mut~\\valtype \\\\\n    ",
      HeadLine("mutability", "mut", "&\n      "), "\\MCONST ~|~\n      ", "\\MVAR \\\\\n    ",
      "\\end{array}");
  }

  lemma GlobalProductionsText()
    ensures AllProductions(GlobalTypeBlock().productions)
    ensures ProductionsText(GlobalTypeBlock().productions) ==
      HeadLine("global type", "globaltype", "&\n      ") + "\\mut~\\valtype \\\\\n    " +
      (HeadLine("mutability", "mut", "&\n      ") + ("\\MCONST ~|~\n      " + "\\MVAR \\\\\n    "))
  {
    GlobalTypeWellWritten();
    MutabilityWellWritten();
    TwoProductions(GlobalTypeProduction(), MutabilityProduction());
    GlobalTypeText();
    MutabilityText();
  }

  /**
   * The global type block of the grammar parses into its two productions, the
   * second with one alternative per line, and leaves nothing behind.
   */
  lemma GlobalTypeBlockExample()
    ensures ParseMathBlock(
      "\\begin{array}{llll}\n    " +
      HeadLine("global type", "globaltype", "&\n      ") + "\\mut~\\valtype \\\\\n    " +
      HeadLine("mutability", "mut", "&\n      ") + "\\MCONST ~|~\n      " + "\\MVAR \\\\\n    " +
      "\\end{array}")
      == Ok((MathBlock([
        Production("global type", Lhs(["globaltype"]),
          Rhs([RhsElem([SNonterm(Nonterm("mut", None)), SNonterm(Nonterm("valtype", None))], None)])),
        Production("mutability", Lhs(["mut"]), Rhs([TermElem("MCONST"), TermElem("MVAR")]))]), ""))
  {
    var b := GlobalTypeBlock();
    GlobalBlockWellWritten();
    GlobalBlockParses(b);
    GlobalBlockText(b);
    GlobalTypeWellWritten();
    MutabilityWellWritten();
    TwoProductions(GlobalTypeProduction(), MutabilityProduction());
    GlobalTypeRules();
  }

  lemma GlobalBlockWellWritten()
    ensures AllProductions(GlobalTypeBlock().productions)
  {
    GlobalTypeWellWritten();
    MutabilityWellWritten();
    TwoProductions(GlobalTypeProduction(), MutabilityProduction());
  }

  // The number type block: one production whose head is spread over three
  // lines.

  function NumberTypeProduction(): WrittenProduction {
    WrittenProduction("number type", " &\n        ", [("numtype", "\n        &")],
      NumberAlts("&\n        "), "\n        ")
  }

  function NumberTypeBlock(): WrittenBlock {
    WrittenBlock("", "llll", "\n        ", [NumberTypeProduction()])
  }

  lemma NumberTypeWellWritten()
    ensures WellWrittenProduction(NumberTypeProduction())
    ensures AllProductions(NumberTypeBlock().productions)
  {
    var w := NumberTypeProduction();
    NumberTypeNames();
    NumberAltsWellWritten("&\n        ");
    assert AllProductions([w]);
  }

  lemma NumberTypeNames()
    ensures IsLiteral("number type") && IsBlank(" &\n        ") && IsBlank("\n        ")
    ensures IsBlank("&\n        ") && AllNames([("numtype", "\n        &")])
  {
    MismatchAt("numtype", "quad", 0);
    MismatchAt("numtype", "qquad", 0);
    assert IsBlank("\n        &");
  }

  lemma ProductionGroups(p: string, n: string, c: string, an: string, l: string, eq: string,
                         b0: string, r: string, br: string, ab: string)
    ensures p + n + c + (an + (l + eq + (b0 + (r + (br + ab))))) ==
      (p + n + c + an) + ((l + eq + b0) + (r + br + ab))
  { }

  lemma NumberTypeText()
    ensures ProductionText(NumberTypeProduction()) ==
      "\\production{number type} &\n        " +
      (("\\numtype\n        " + "&::=&\n        ") + "\\I32 ~|~ \\I64 ~|~ \\F32 ~|~ \\F64 \\\\\n        ")
  {
    var w := NumberTypeProduction();
    SingleLhsText("numtype", "\n        &");
    NumberAltsText("&\n        ");
    ProductionGroups("\\production{", "number type", "}", " &\n        ", "\\" + "numtype" + "\n        &", "::=",
      "&\n        ", "\\I32 ~|~ \\I64 ~|~ \\F32 ~|~ \\F64 ", "\\\\", "\n        ");
    NumberTypeLiterals();
  }

  lemma NumberTypeLiterals()
    ensures "\\production{" + "number type" + "}" + " &\n        " == "\\production{number type} &\n        "
    ensures "\\" + "numtype" + "\n        &" + "::=" + "&\n        " == "\\numtype\n        " + "&::=&\n        "
    ensures "\\I32 ~|~ \\I64 ~|~ \\F32 ~|~ \\F64 " + "\\\\" + "\n        " ==
      "\\I32 ~|~ \\I64 ~|~ \\F32 ~|~ \\F64 \\\\\n        "
  {
    NumberHeadLiteral();
    NumberLhsLiteral();
    NumberBodyLiteral();
  }

  lemma NumberHeadLiteral()
    ensures "\\production{" + "number type" + "}" + " &\n        " == "\\production{number type} &\n        "
  { }

  lemma NumberLhsLiteral()
    ensures "\\" + "numtype" + "\n        &" + "::=" + "&\n        " == "\\numtype\n        " + "&::=&\n        "
  { }

  lemma NumberBodyLiteral()
    ensures "\\I32 ~|~ \\I64 ~|~ \\F32 ~|~ \\F64 " + "\\\\" + "\n        " ==
      "\\I32 ~|~ \\I64 ~|~ \\F32 ~|~ \\F64 \\\\\n        "
  { }

  /** A single production. */
  lemma OneProduction(w: WrittenProduction)
    requires WellWrittenProduction(w)
    ensures AllProductions([w])
    ensures ProductionsText([w]) == ProductionText(w)
    ensures ProductionsOf([w]) == [ProductionOf(w)]
  {
    assert [w][1..] == [];
    assert ProductionsText([w]) == ProductionText(w) + "";
    assert ProductionsOf([w]) == [ProductionOf(w)] + [];
  }

  lemma NumberTypeRule()
    ensures ProductionOf(NumberTypeProduction()) ==
      Production("number type", Lhs(["numtype"]),
        Rhs([TermElem("I32"), TermElem("I64"), TermElem("F32"), TermElem("F64")]))
  {
    SingleLhsText("numtype", "\n        &");
    NumberAltsElems("&\n        ", "");
  }

  lemma NumberBlockParses(b: WrittenBlock)
    requires b == NumberTypeBlock() && AllProductions(b.productions)
    ensures ParseMathBlock(BlockText(b) + "") == Ok((MathBlock(ProductionsOf(b.productions)), ""))
  {
    assert IsBlank("") && IsLiteral("llll") && IsBlank("\n        ");
    MathBlockRoundTrip(b, "");
  }

  lemma NumberBlockOpening()
    ensures "" + "\\begin{array}{" + "llll" + "}" + "\n        " == "\\begin{array}{llll}\n        "
  { }

  lemma FourLines(o: string, a: string, b: string, c: string, d: string, z: string)
    ensures o + (a + ((b + c) + d)) + z == o + a + b + c + d + z
  { }

  lemma NumberBlockText(b: WrittenBlock)
    requires b == NumberTypeBlock() && AllProductions(b.productions)
    ensures BlockText(b) + "" ==
      "\\begin{array}{llll}\n        " + "\\production{number type} &\n        " + "\\numtype\n        " +
      "&::=&\n        " + "\\I32 ~|~ \\I64 ~|~ \\F32 ~|~ \\F64 \\\\\n        " + "\\end{array}"
  {
    BlockTextOpen(b);
    NumberBlockOpening();
    NumberTypeWellWritten();
    OneProduction(NumberTypeProduction());
    NumberTypeText();
    FourLines("\\begin{array}{llll}\n        ", "\\production{number type} &\n        ", "\\numtype\n        ",
      "&::=&\n        ", "\\I32 ~|~ \\I64 ~|~ \\F32 ~|~ \\F64 \\\\\n        ", "\\end{array}");
  }

  /**
   * The number type block of the grammar, whose head is spread over three
   * lines, parses into one production with four terminal alternatives.
   */
  lemma NumberTypeBlockExample()
    ensures ParseMathBlock(
      "\\begin{array}{llll}\n        " + "\\production{number type} &\n        " + "\\numtype\n        " +
      "&::=&\n        " + "\\I32 ~|~ \\I64 ~|~ \\F32 ~|~ \\F64 \\\\\n        " + "\\end{array}")
      == Ok((MathBlock([Production("number type", Lhs(["numtype"]),
        Rhs([TermElem("I32"), TermElem("I64"), TermElem("F32"), TermElem("F64")]))]), ""))
  {
    var b := NumberTypeBlock();
    NumberTypeWellWritten();
    NumberBlockParses(b);
    NumberBlockText(b);
    OneProduction(NumberTypeProduction());
    NumberTypeRule();
  }
}
