/** The lexical layer of the grammar reader (species/src/parser.rs): separator
    skipping, the `::=` token, repetition suffixes, and the backslash command
    with its optional `[params]`, braced arguments and suffix. */
module Parser {
  import opened ParseResult

  // ---------------------------------------------------------------------------
  // Character classes

  /** What nom's `alphanumeric1` accepts: ASCII letters and digits. */
  predicate IsAlphanumeric(c: char) {
    'a' <= c <= 'z' || 'A' <= c <= 'Z' || '0' <= c <= '9'
  }

  /** What nom's `multispace1` accepts: space, tab, carriage return, line feed. */
  predicate IsMultispace(c: char) {
    c == ' ' || c == '\t' || c == '\r' || c == '\n'
  }

  /** The alphabet of a literal argument (EXTENDED_LETTERS): ASCII letters,
      digits, `.`, `/`, `-`, `#` and space. */
  predicate IsExtendedLetter(c: char) {
    IsAlphanumeric(c) || c == '.' || c == '/' || c == '-' || c == '#' || c == ' '
  }

  predicate IsName(w: string) {
    w != [] && forall i :: 0 <= i < |w| ==> IsAlphanumeric(w[i])
  }

  predicate IsLiteral(w: string) {
    forall i :: 0 <= i < |w| ==> IsExtendedLetter(w[i])
  }

  predicate StartsWithAlphanumeric(s: string) {
    s != [] && IsAlphanumeric(s[0])
  }

  // ---------------------------------------------------------------------------
  // Token::ws and Token::equal

  /** The TeX spacing tags Token::ws skips, in the order its `alt` tries them. */
  const TexSpaceTags: seq<string> := ["\\quad", "\\qquad", "\\\\", "\\ ", "&", "~"]

  /** The input begins with something Token::ws would skip. */
  predicate StartsWithSeparator(s: string) {
    || StartsWith(s, TexSpaceTags[0]) || StartsWith(s, TexSpaceTags[1])
    || StartsWith(s, TexSpaceTags[2]) || StartsWith(s, TexSpaceTags[3])
    || StartsWith(s, TexSpaceTags[4]) || StartsWith(s, TexSpaceTags[5])
    || (s != [] && IsMultispace(s[0]))
  }

  /** nom's `multispace1`: the longest non-empty run of whitespace. */
  function Multispace1(s: string): (r: PResult<string>)
    ensures r.Ok? <==> s != [] && IsMultispace(s[0])
    ensures r.Err? ==> r.fault == Error
    ensures r.Ok? ==> s == r.value.0 + r.value.1 && r.value.0 != []
    ensures r.Ok? ==> r.value.1 == [] || !IsMultispace(r.value.1[0])
  {
    if s != [] && IsMultispace(s[0]) then Ok(TakeWhile(s, IsMultispace)) else Err(Error)
  }

  /** One separator: the `alt` inside Token::ws. */
  function TexSpace(s: string): (r: PResult<string>)
    ensures r.Ok? <==> StartsWithSeparator(s)
    ensures r.Err? ==> r.fault == Error
    ensures Consumed(r, s, true)
  {
    OrElse(Tag("\\quad", s),
    OrElse(Tag("\\qquad", s),
    OrElse(Tag("\\\\", s),
    OrElse(Tag("\\ ", s),
    OrElse(Tag("&", s),
    OrElse(Tag("~", s),
           Multispace1(s)))))))
  }

  /** Token::ws: `many0` of separators. It never fails, so the model returns
      the remainder directly; what is left never begins with a separator. */
  function Ws(s: string): (r: string)
    decreases |s|
    ensures IsSuffix(r, s)
    ensures !StartsWithSeparator(r)
  {
    match TexSpace(s)
    case Ok((_, rest)) =>
      var r := Ws(rest);
      SuffixTransitive(r, rest, s);
      r
    case Err(_) => s
  }

  /** Input whose first character begins no separator is a fixed point of Ws. */
  /** A backslash that starts no spacing command is not skipped. */
  lemma BackslashStays(s: string)
    requires |s| >= 2 && s[0] == '\\' && s[1] != 'q' && s[1] != '\\' && s[1] != ' '
    ensures !StartsWithSeparator(s) && Ws(s) == s
  {
    BackslashNoTag(s);
    assert !StartsWithSeparator(s);
    WsFixedPoints(s);
  }

  lemma BackslashNoTag(s: string)
    requires |s| >= 2 && s[0] == '\\' && s[1] != 'q' && s[1] != '\\' && s[1] != ' '
    ensures forall i :: 0 <= i < |TexSpaceTags| ==> !StartsWith(s, TexSpaceTags[i])
  {
    MismatchAt(s, "\\quad", 1);
    MismatchAt(s, "\\qquad", 1);
    MismatchAt(s, "\\\\", 1);
    MismatchAt(s, "\\ ", 1);
    MismatchAt(s, "&", 0);
    MismatchAt(s, "~", 0);
  }

  lemma NoSeparatorAt(s: string)
    requires s != [] && s[0] != '\\' && s[0] != '&' && s[0] != '~' && !IsMultispace(s[0])
    ensures !StartsWithSeparator(s) && Ws(s) == s
  {
    MismatchAt(s, TexSpaceTags[0], 0);
    MismatchAt(s, TexSpaceTags[1], 0);
    MismatchAt(s, TexSpaceTags[2], 0);
    MismatchAt(s, TexSpaceTags[3], 0);
    MismatchAt(s, TexSpaceTags[4], 0);
    MismatchAt(s, TexSpaceTags[5], 0);
    assert TexSpace(s).Err?;
  }

  /** Token::equal: the `::=` token followed by separators. */
  function Equal(s: string): (r: PResult<()>)
    ensures r.Ok? <==> StartsWith(s, "::=")
    ensures r.Err? ==> r.fault == Error
    ensures r.Ok? ==> r.value.1 == Ws(s[3..])
  {
    match Tag("::=", s)
    case Err(f) => Err(f)
    case Ok((_, tail)) => Ok(((), Ws(tail)))
  }

  // ---------------------------------------------------------------------------
  // SeqKind

  /** A repetition suffix on a command. */
  datatype SeqKind = OptSeq | ManyPossibleEmpty | ManyN | ManyNonEmpty

  /** The suffix text that denotes each kind. */
  function SeqKindTag(k: SeqKind): string {
    match k
    case OptSeq => "^?"
    case ManyN => "^n"
    case ManyNonEmpty => "^+"
    case ManyPossibleEmpty => "^\\ast"
  }

  /** SeqKind::parser: an optional suffix. It never fails; when no suffix is
      there it yields None and consumes nothing. */
  function ParseSeqKind(s: string): (r: (Option<SeqKind>, string))
    ensures r.0.Some? ==> s == SeqKindTag(r.0.value) + r.1
    ensures r.0.None? ==> r.1 == s && forall k :: !StartsWith(s, SeqKindTag(k))
    ensures IsSuffix(r.1, s)
  {
    match OrElse(Tag("^?", s), OrElse(Tag("^n", s), OrElse(Tag("^+", s), Tag("^\\ast", s))))
    case Ok((t, tail)) =>
      var k :=
        if t == "^?" then OptSeq
        else if t == "^n" then ManyN
        else if t == "^+" then ManyNonEmpty
        else ManyPossibleEmpty;
      (Some(k), tail)
    case Err(_) => (None, s)
  }

  // ---------------------------------------------------------------------------
  // Command, CommandHead, Argument

  datatype CommandHead = CommandHead(name: string, params: seq<string>)

  datatype Command = Command(head: CommandHead, args: seq<Argument>, upnote: Option<SeqKind>)

  datatype Argument = Str(text: string) | Cmd(cmd: Command)

  predicate WellFormedHead(h: CommandHead) {
    IsName(h.name) && forall i :: 0 <= i < |h.params| ==> IsName(h.params[i])
  }

  /** The shape every parsed command has: alphanumeric names and literal
      arguments over the extended alphabet, all the way down. */
  predicate WellFormedCommand(c: Command)
    decreases c
  {
    WellFormedHead(c.head) && forall i :: 0 <= i < |c.args| ==> WellFormedArgument(c.args[i])
  }

  predicate WellFormedArgument(a: Argument)
    decreases a
  {
    match a
    case Str(text) => IsLiteral(text)
    case Cmd(c) => WellFormedCommand(c)
  }

  /** nom's `alphanumeric1`: the longest non-empty run of letters and digits. */
  function Alphanumeric1(s: string): (r: PResult<string>)
    ensures r.Ok? <==> StartsWithAlphanumeric(s)
    ensures r.Err? ==> r.fault == Error
    ensures r.Ok? ==> IsName(r.value.0) && s == r.value.0 + r.value.1
    ensures r.Ok? ==> !StartsWithAlphanumeric(r.value.1)
  {
    if StartsWithAlphanumeric(s) then Ok(TakeWhile(s, IsAlphanumeric)) else Err(Error)
  }

  /** `,name,name...`: the text `separated_list1` consumes after its first item. */
  function CommaPrefixed(ps: seq<string>): string {
    if ps == [] then "" else "," + ps[0] + CommaPrefixed(ps[1..])
  }

  function JoinComma(ps: seq<string>): string
    requires ps != []
  {
    ps[0] + CommaPrefixed(ps[1..])
  }

  predicate StartsWithCommaName(s: string) {
    |s| >= 2 && s[0] == ',' && IsAlphanumeric(s[1])
  }

  /** The loop of `separated_list1(char(','), alphanumeric1)` after its first
      item: it stops before a comma that no name follows. */
  function MoreParams(s: string): (r: (seq<string>, string))
    decreases |s|
    ensures forall i :: 0 <= i < |r.0| ==> IsName(r.0[i])
    ensures s == CommaPrefixed(r.0) + r.1
    ensures !StartsWithCommaName(r.1)
  {
    match Tag(",", s)
    case Err(_) => ([], s)
    case Ok((_, tail)) =>
      match Alphanumeric1(tail)
      case Err(_) => ([], s)
      case Ok((p, tail')) =>
        var (ps, rest) := MoreParams(tail');
        var all := [p] + ps;
        CommaPrefixedCons(p, ps, rest);
        (all, rest)
  }

  /** One more name in front of a comma-prefixed list. */
  lemma CommaPrefixedCons(p: string, ps: seq<string>, rest: string)
    requires IsName(p) && forall i :: 0 <= i < |ps| ==> IsName(ps[i])
    ensures "," + (p + (CommaPrefixed(ps) + rest)) == CommaPrefixed([p] + ps) + rest
    ensures forall i :: 0 <= i < |[p] + ps| ==> IsName(([p] + ps)[i])
  {
    var all := [p] + ps;
    assert all[0] == p && all[1..] == ps;
    calc {
      "," + (p + (CommaPrefixed(ps) + rest));
      { Associative(p, CommaPrefixed(ps), rest); }
      "," + ((p + CommaPrefixed(ps)) + rest);
      { Associative(",", p + CommaPrefixed(ps), rest); }
      ("," + (p + CommaPrefixed(ps))) + rest;
      { Associative(",", p, CommaPrefixed(ps)); }
      CommaPrefixed(all) + rest;
    }
    forall i | 0 <= i < |all| ensures IsName(all[i]) {
      if i > 0 { assert all[i] == ps[i - 1]; }
    }
  }

  /** `separated_list1(char(','), alphanumeric1)`. */
  function ParamList(s: string): (r: PResult<seq<string>>)
    ensures r.Ok? <==> StartsWithAlphanumeric(s)
    ensures r.Err? ==> r.fault == Error
    ensures r.Ok? ==> r.value.0 != [] && forall i :: 0 <= i < |r.value.0| ==> IsName(r.value.0[i])
    ensures r.Ok? ==> s == JoinComma(r.value.0) + r.value.1 && !StartsWithCommaName(r.value.1)
  {
    match Alphanumeric1(s)
    case Err(f) => Err(f)
    case Ok((p, tail)) =>
      var (ps, rest) := MoreParams(tail);
      Ok(([p] + ps, rest))
  }

  /** The bracketed parameter list, `delimited('[', ParamList, ']')`. */
  function Params(s: string): (r: PResult<seq<string>>)
    ensures r.Err? ==> r.fault == Error
    ensures r.Ok? ==> r.value.0 != [] && forall i :: 0 <= i < |r.value.0| ==> IsName(r.value.0[i])
    ensures r.Ok? ==> s == RenderParams(r.value.0) + r.value.1
  {
    match Tag("[", s)
    case Err(f) => Err(f)
    case Ok((_, s1)) =>
      match ParamList(s1)
      case Err(f) => Err(f)
      case Ok((ps, s2)) =>
        match Tag("]", s2)
        case Err(f) => Err(f)
        case Ok((_, s3)) =>
          BracketedText(JoinComma(ps), s1, s2, s3);
          Ok((ps, s3))
  }

  lemma BracketedText(j: string, s1: string, s2: string, s3: string)
    requires s1 == j + s2 && s2 == "]" + s3
    ensures "[" + s1 == "[" + j + "]" + s3
  {
  }

  /** The command name, `preceded(tag("\\"), alphanumeric1)`: a backslash and
      the longest run of letters and digits after it. */
  function HeadName(s: string): (r: PResult<string>)
    ensures r.Ok? <==> |s| >= 2 && s[0] == '\\' && IsAlphanumeric(s[1])
    ensures r.Err? ==> r.fault == Error
    ensures r.Ok? ==> IsName(r.value.0) && s == "\\" + (r.value.0 + r.value.1)
    ensures r.Ok? ==> !StartsWithAlphanumeric(r.value.1)
  {
    match Tag("\\", s)
    case Err(f) => Err(f)
    case Ok((_, s1)) => Alphanumeric1(s1)
  }

  /** CommandHead::parser: a backslash, the name, then an optional parameter
      list (absent or malformed both give no parameters). */
  function ParseCommandHead(s: string): (r: PResult<CommandHead>)
    ensures r.Ok? <==> HeadName(s).Ok?
    ensures r.Err? ==> r.fault == Error
    ensures r.Ok? ==> r.value.0.name == HeadName(s).value.0
    ensures r.Ok? ==> WellFormedHead(r.value.0) && s == RenderHead(r.value.0) + r.value.1
    ensures r.Ok? && r.value.0.params == [] ==> Params(HeadName(s).value.1).Err?
    ensures Consumed(r, s, true)
  {
    match HeadName(s)
    case Err(f) => Err(f)
    case Ok((name, s2)) =>
      match Params(s2)
      case Ok((ps, s3)) =>
        Associative("\\", name, RenderParams(ps) + s3);
        Associative("\\" + name, RenderParams(ps), s3);
        Ok((CommandHead(name, ps), s3))
      case Err(_) =>
        Associative("\\", name, s2);
        Ok((CommandHead(name, []), s2))
  }

  /** Command::parser: head, `many0` braced arguments, optional suffix, then
      separators. */
  function ParseCommand(s: string): (r: PResult<Command>)
    decreases |s|, 2
    ensures r.Ok? <==> HeadName(s).Ok?
    ensures r.Err? ==> r.fault == Error
    ensures Consumed(r, s, true)
    ensures r.Ok? ==> r.value.0.head == ParseCommandHead(s).value.0
    ensures r.Ok? ==> WellFormedCommand(r.value.0) && !StartsWithSeparator(r.value.1)
  {
    match ParseCommandHead(s)
    case Err(f) => Err(f)
    case Ok((head, s1)) =>
      var (args, s2) := ParseArgs(s1);
      var (upnote, s3) := ParseSeqKind(s2);
      var rest := Ws(s3);
      SuffixTransitive(rest, s3, s2);
      SuffixTransitive(rest, s2, s1);
      SuffixTransitive(rest, s1, s);
      Ok((Command(head, args, upnote), rest))
  }

  /** `many0(Argument::parser)`. Arguments cannot panic, so the loop stops at
      the first argument that does not parse and never fails. */
  function ParseArgs(s: string): (r: (seq<Argument>, string))
    decreases |s|, 1
    ensures IsSuffix(r.1, s)
    ensures forall i :: 0 <= i < |r.0| ==> WellFormedArgument(r.0[i])
  {
    match ParseArgument(s)
    case Err(_) => ([], s)
    case Ok((a, s1)) =>
      var (more, rest) := ParseArgs(s1);
      SuffixTransitive(rest, s1, s);
      ([a] + more, rest)
  }

  /** Argument::parser: `{`, then a nested command (tried first) or a literal,
      then `}`. */
  function ParseArgument(s: string): (r: PResult<Argument>)
    decreases |s|, 0
    ensures r.Err? ==> r.fault == Error
    ensures Consumed(r, s, true)
    ensures r.Ok? ==> StartsWith(s, "{") && WellFormedArgument(r.value.0)
  {
    match Tag("{", s)
    case Err(f) => Err(f)
    case Ok((_, s1)) =>
      var (arg, s2) := ArgumentBody(s1);
      match Tag("}", s2)
      case Err(f) => Err(f)
      case Ok((_, s3)) =>
        SuffixTransitive(s3, s2, s1);
        SuffixTransitive(s3, s1, s);
        Ok((arg, s3))
  }

  /** What lies between the braces of an argument: `alt` of a nested command
      and a literal. The literal never fails, so neither does the `alt`. */
  function ArgumentBody(s: string): (r: (Argument, string))
    decreases |s|, 3
    ensures IsSuffix(r.1, s) && WellFormedArgument(r.0)
    ensures r.0.Cmd? <==> ParseCommand(s).Ok?
  {
    match ParseCommand(s)
    case Ok((c, rest)) => (Cmd(c), rest)
    case Err(_) =>
      var (text, rest) := StrInner(s);
      (Str(text), rest)
  }

  /** Argument::str_parser_inner: a brace-wrapped literal is unwrapped
      (recursively); otherwise the longest run of extended letters, possibly
      empty. It never fails. */
  function StrInner(s: string): (r: (string, string))
    decreases |s|
    ensures IsSuffix(r.1, s) && IsLiteral(r.0)
  {
    if !StartsWith(s, "{") then TakeWhile(s, IsExtendedLetter)
    else
      var (text, s1) := StrInner(s[1..]);
      if StartsWith(s1, "}") then (text, s1[1..]) else TakeWhile(s, IsExtendedLetter)
  }

  /** Argument::name: the text of a literal, the head name of a nested command. */
  function ArgumentName(a: Argument): (r: string)
    ensures WellFormedArgument(a) ==> IsLiteral(r)
    ensures WellFormedArgument(a) && a.Cmd? ==> IsName(r)
  {
    match a
    case Str(text) => text
    case Cmd(c) =>
      assert WellFormedArgument(a) ==> WellFormedCommand(c);
      assert WellFormedCommand(c) ==> IsName(c.head.name);
      c.head.name
  }

  // ---------------------------------------------------------------------------
  // Canonical rendering, the inverse the round-trip lemmas are stated against

  function RenderParams(ps: seq<string>): string {
    if ps == [] then "" else "[" + JoinComma(ps) + "]"
  }

  function RenderHead(h: CommandHead): string {
    "\\" + h.name + RenderParams(h.params)
  }

  function RenderSeqKind(k: Option<SeqKind>): string {
    match k
    case None => ""
    case Some(kind) => SeqKindTag(kind)
  }

  function RenderCommand(c: Command): string
    decreases c
  {
    RenderHead(c.head) + RenderArgs(c.args) + RenderSeqKind(c.upnote)
  }

  function RenderArgs(args: seq<Argument>): string
    decreases args
  {
    if args == [] then "" else RenderArgument(args[0]) + RenderArgs(args[1..])
  }

  function RenderArgument(a: Argument): string
    decreases a
  {
    match a
    case Str(text) => "{" + text + "}"
    case Cmd(c) => "{" + RenderCommand(c) + "}"
  }

  /** Text that can follow a rendered command without being read as part of
      it: not a name character, nor the start of parameters, an argument or a
      suffix. */
  predicate Delimits(t: string) {
    t == [] || !(IsAlphanumeric(t[0]) || t[0] == '[' || t[0] == '{' || t[0] == '^')
  }

  lemma SpaceDelimits(x: string)
    ensures Delimits(" " + x)
  {
    assert (" " + x)[0] == ' ';
  }

  // ---------------------------------------------------------------------------
  // Properties of Token::ws

  /** Skipping separators a second time consumes nothing. */
  lemma WsIdempotent(s: string)
    ensures Ws(Ws(s)) == Ws(s)
  {
  }

  /** Ws leaves its input unchanged exactly when the input begins with no separator. */
  lemma WsFixedPoints(s: string)
    ensures Ws(s) == s <==> !StartsWithSeparator(s)
  {
  }

  /** A single separator: one of the TeX tags or one whitespace character. */
  predicate IsSeparatorToken(t: string) {
    t in TexSpaceTags || (|t| == 1 && IsMultispace(t[0]))
  }

  function Concat(ts: seq<string>): string {
    if ts == [] then "" else ts[0] + Concat(ts[1..])
  }

  /** One separator tag in front of the input does not change where Ws stops. */
  lemma WsSkipsTag(t: string, s: string)
    requires t in TexSpaceTags
    ensures Ws(t + s) == Ws(s)
  {
    var u := t + s;
    TagMatches(t, s);
    if t == "\\qquad" {
      MismatchAt(u, "\\quad", 2);
    } else if t == "\\\\" || t == "\\ " {
      MismatchAt(u, "\\quad", 1);
      MismatchAt(u, "\\qquad", 1);
    } else if t == "&" || t == "~" {
      MismatchAt(u, "\\quad", 0);
      MismatchAt(u, "\\qquad", 0);
      MismatchAt(u, "\\\\", 0);
      MismatchAt(u, "\\ ", 0);
      if t == "~" {
        MismatchAt(u, "&", 0);
      }
    }
    assert TexSpace(u) == Ok((t, s));
  }

  /** Input that begins with whitespace matches none of the TeX tags, so the
      `alt` falls through to `multispace1`. */
  lemma TexSpaceOnWhitespace(u: string)
    requires u != [] && IsMultispace(u[0])
    ensures TexSpace(u) == Multispace1(u)
  {
    assert u[0] != '\\' && u[0] != '&' && u[0] != '~';
    assert Tag("\\quad", u) == Err(Error);
    assert Tag("\\qquad", u) == Err(Error);
    assert Tag("\\\\", u) == Err(Error);
    assert Tag("\\ ", u) == Err(Error);
    assert Tag("&", u) == Err(Error);
    assert Tag("~", u) == Err(Error);
  }

  /** One whitespace character in front of the input does not change where Ws stops. */
  lemma WsSkipsSpace(c: char, s: string)
    requires IsMultispace(c)
    ensures Ws([c] + s) == Ws(s)
  {
    var u := [c] + s;
    assert u[0] == c && u[1..] == s;
    TexSpaceOnWhitespace(u);
    var rest := TakeWhile(s, IsMultispace).1;
    assert TakeWhile(u, IsMultispace).1 == rest;
    assert Ws(u) == Ws(rest);
    if s != [] && IsMultispace(s[0]) {
      TexSpaceOnWhitespace(s);
    } else {
      assert rest == s;
    }
  }

  /** Ws skips any run of separators: whatever they are, it stops where it
      would have stopped without them. */
  lemma {:induction false} WsSkipsSeparators(ts: seq<string>, s: string)
    requires forall i :: 0 <= i < |ts| ==> IsSeparatorToken(ts[i])
    ensures Ws(Concat(ts) + s) == Ws(s)
  {
    if ts != [] {
      var t, rest := ts[0], Concat(ts[1..]) + s;
      assert IsSeparatorToken(t);
      assert Concat(ts) + s == t + rest;
      WsSkipsSeparators(ts[1..], s);
      assert Ws(rest) == Ws(s);
      if t in TexSpaceTags {
        WsSkipsTag(t, rest);
      } else {
        assert t == [t[0]];
        WsSkipsSpace(t[0], rest);
      }
    } else {
      assert Concat(ts) + s == s;
    }
  }

  /** Layout made of single-character separators: whitespace, `&` and `~`,
      the way the grammar sources align their columns. */
  predicate IsBlank(w: string) {
    forall i :: 0 <= i < |w| ==> IsMultispace(w[i]) || w[i] == '&' || w[i] == '~'
  }

  /** Ws skips any blank. */
  lemma {:induction false} WsSkipsBlank(w: string, s: string)
    requires IsBlank(w)
    ensures Ws(w + s) == Ws(s)
    decreases |w|
  {
    if w != [] {
      var rest := w[1..] + s;
      assert w + s == [w[0]] + rest;
      WsSkipsBlank(w[1..], s);
      if IsMultispace(w[0]) {
        WsSkipsSpace(w[0], rest);
      } else if w[0] == '&' {
        WsSkipsTag("&", rest);
      } else {
        WsSkipsTag("~", rest);
      }
    } else {
      assert w + s == s;
    }
  }

  // ---------------------------------------------------------------------------
  // Round trips: parsing the canonical rendering gives back the value

  lemma SeqKindRoundTrip(k: Option<SeqKind>, t: string)
    requires t == [] || t[0] != '^'
    ensures ParseSeqKind(RenderSeqKind(k) + t) == (k, t)
  {
    var u := RenderSeqKind(k) + t;
    match k
    case None =>
      assert u == t;
    case Some(kind) =>
      assert u[..|SeqKindTag(kind)|] == SeqKindTag(kind);
      assert u[1] == SeqKindTag(kind)[1];
  }

  lemma Alphanumeric1Splits(w: string, u: string)
    requires IsName(w) && !StartsWithAlphanumeric(u)
    ensures Alphanumeric1(w + u) == Ok((w, u))
  {
    TakeWhileSplits(w, u, IsAlphanumeric);
  }

  /** The parameter loop stops, consuming nothing, before text that is not a
      comma followed by a name. */
  lemma MoreParamsStops(u: string)
    requires !StartsWithCommaName(u)
    ensures MoreParams(u) == ([], u)
  {
    if StartsWith(u, ",") {
      assert !StartsWithAlphanumeric(u[1..]);
    }
  }

  /** One turn of the parameter loop: a comma and a whole name. */
  lemma MoreParamsStep(p: string, after: string)
    requires IsName(p) && !StartsWithAlphanumeric(after)
    ensures MoreParams("," + (p + after)) == ([p] + MoreParams(after).0, MoreParams(after).1)
  {
    var v := "," + (p + after);
    assert v[1..] == p + after;
    Alphanumeric1Splits(p, after);
  }

  lemma {:induction false} MoreParamsRoundTrip(ps: seq<string>, u: string)
    requires forall i :: 0 <= i < |ps| ==> IsName(ps[i])
    requires !StartsWithAlphanumeric(u) && !StartsWithCommaName(u)
    ensures MoreParams(CommaPrefixed(ps) + u) == (ps, u)
  {
    if ps == [] {
      assert CommaPrefixed(ps) + u == u;
      MoreParamsStops(u);
    } else {
      var after := CommaPrefixed(ps[1..]) + u;
      MoreParamsRoundTrip(ps[1..], u);
      assert CommaPrefixed(ps) + u == "," + (ps[0] + after) by {
        assert CommaPrefixed(ps) == ("," + ps[0]) + CommaPrefixed(ps[1..]);
        Associative("," + ps[0], CommaPrefixed(ps[1..]), u);
        Associative(",", ps[0], after);
      }
      assert !StartsWithAlphanumeric(after) by {
        if ps[1..] != [] { assert after[0] == ','; } else { assert after == u; }
      }
      MoreParamsStep(ps[0], after);
      HeadAndTail(ps);
    }
  }

  /** A non-empty list of names inside brackets parses back to itself. */
  lemma ParamsRoundTrip(ps: seq<string>, t: string)
    requires ps != [] && forall i :: 0 <= i < |ps| ==> IsName(ps[i])
    ensures Params(RenderParams(ps) + t) == Ok((ps, t))
  {
    var u := "]" + t;
    var after := CommaPrefixed(ps[1..]) + u;
    RenderParamsSplit(ps, t);
    MoreParamsRoundTrip(ps[1..], u);
    CommaPrefixedFirst(ps[1..], u);
    Alphanumeric1Splits(ps[0], after);
    ParamListCons(ps, after, u);
    ParamsFromList(ps[0] + after, ps, t);
  }

  lemma RenderParamsSplit(ps: seq<string>, t: string)
    requires ps != []
    ensures RenderParams(ps) + t == "[" + (ps[0] + (CommaPrefixed(ps[1..]) + ("]" + t)))
  {
    var tail := CommaPrefixed(ps[1..]);
    calc {
      RenderParams(ps) + t;
      ("[" + (ps[0] + tail) + "]") + t;
      { Associative("[" + (ps[0] + tail), "]", t); }
      ("[" + (ps[0] + tail)) + ("]" + t);
      { Associative("[", ps[0] + tail, "]" + t); }
      "[" + ((ps[0] + tail) + ("]" + t));
      { Associative(ps[0], tail, "]" + t); }
      "[" + (ps[0] + (tail + ("]" + t)));
    }
  }

  /** A comma-prefixed list begins with a comma, or is empty. */
  lemma CommaPrefixedFirst(ps: seq<string>, u: string)
    requires !StartsWithAlphanumeric(u)
    ensures !StartsWithAlphanumeric(CommaPrefixed(ps) + u)
  {
    var after := CommaPrefixed(ps) + u;
    if ps != [] {
      assert CommaPrefixed(ps) == "," + (ps[0] + CommaPrefixed(ps[1..]));
      assert after[0] == ',';
    } else {
      assert after == u;
    }
  }

  /** `separated_list1` is its first item followed by the loop. */
  lemma ParamListCons(ps: seq<string>, after: string, u: string)
    requires ps != []
    requires Alphanumeric1(ps[0] + after) == Ok((ps[0], after))
    requires MoreParams(after) == (ps[1..], u)
    ensures ParamList(ps[0] + after) == Ok((ps, u))
  {
    HeadAndTail(ps);
  }

  /** `delimited('[', .., ']')` around a parameter list. */
  lemma ParamsFromList(x: string, ps: seq<string>, t: string)
    requires ParamList(x) == Ok((ps, "]" + t))
    ensures Params("[" + x) == Ok((ps, t))
  {
    TagMatches("[", x);
    TagMatches("]", t);
  }

  lemma HeadRoundTrip(h: CommandHead, u: string)
    requires WellFormedHead(h)
    requires u == [] || !(IsAlphanumeric(u[0]) || u[0] == '[')
    ensures ParseCommandHead(RenderHead(h) + u) == Ok((h, u))
  {
    var after := RenderParams(h.params) + u;
    HeadText(h, u);
    Alphanumeric1Splits(h.name, after);
    if h.params == [] {
      assert after == u;
    } else {
      ParamsRoundTrip(h.params, u);
    }
  }

  lemma HeadText(h: CommandHead, u: string)
    requires u == [] || !(IsAlphanumeric(u[0]) || u[0] == '[')
    ensures RenderHead(h) + u == "\\" + (h.name + (RenderParams(h.params) + u))
    ensures !StartsWithAlphanumeric(RenderParams(h.params) + u)
  {
    var after := RenderParams(h.params) + u;
    assert RenderHead(h) + u == "\\" + (h.name + after);
    if h.params != [] { assert after[0] == '['; } else { assert after == u; }
  }

  lemma RenderArgsStartsWithBrace(args: seq<Argument>)
    requires args != []
    ensures |RenderArgs(args)| > 0 && RenderArgs(args)[0] == '{'
  {
    var first := RenderArgument(args[0]);
    assert first[0] == '{';
    assert RenderArgs(args) == first + RenderArgs(args[1..]);
  }

  /** A rendered suffix begins with a caret; an absent one renders as nothing. */
  lemma RenderSeqKindFirst(k: Option<SeqKind>, t: string)
    ensures k.Some? ==> |RenderSeqKind(k) + t| > 0 && (RenderSeqKind(k) + t)[0] == '^'
    ensures k.None? ==> RenderSeqKind(k) + t == t
  {
    if k.Some? {
      var tag := SeqKindTag(k.value);
      assert tag[0] == '^';
      assert (tag + t)[0] == tag[0];
    }
  }

  /** Every well-formed command, rendered and followed by text that does not
      continue it, parses back to itself; the parser then skips the
      separators that follow. */
  lemma {:induction false} CommandRoundTrip(c: Command, t: string)
    requires WellFormedCommand(c) && Delimits(t)
    ensures ParseCommand(RenderCommand(c) + t) == Ok((c, Ws(t)))
    decreases c, 1
  {
    var afterArgs := RenderSeqKind(c.upnote) + t;
    var afterHead := RenderArgs(c.args) + afterArgs;
    assert RenderCommand(c) + t == RenderHead(c.head) + afterHead by {
      Associative(RenderHead(c.head) + RenderArgs(c.args), RenderSeqKind(c.upnote), t);
      Associative(RenderHead(c.head), RenderArgs(c.args), afterArgs);
    }
    RenderSeqKindFirst(c.upnote, t);
    assert afterHead == [] || !(IsAlphanumeric(afterHead[0]) || afterHead[0] == '[') by {
      if c.args != [] {
        RenderArgsStartsWithBrace(c.args);
      } else {
        assert afterHead == afterArgs;
      }
    }
    HeadRoundTrip(c.head, afterHead);
    ArgsRoundTrip(c.args, afterArgs);
    SeqKindRoundTrip(c.upnote, t);
    CommandFromParts(RenderHead(c.head) + afterHead, c, afterHead, afterArgs, t);
  }

  /** Command::parser is the sequence of its three parts. */
  lemma CommandFromParts(s: string, c: Command, afterHead: string, afterArgs: string, t: string)
    requires ParseCommandHead(s) == Ok((c.head, afterHead))
    requires ParseArgs(afterHead) == (c.args, afterArgs)
    requires ParseSeqKind(afterArgs) == (c.upnote, t)
    ensures ParseCommand(s) == Ok((c, Ws(t)))
  {
  }

  lemma {:induction false} ArgsRoundTrip(args: seq<Argument>, u: string)
    requires forall i :: 0 <= i < |args| ==> WellFormedArgument(args[i])
    requires u == [] || u[0] != '{'
    ensures ParseArgs(RenderArgs(args) + u) == (args, u)
    decreases args
  {
    if args == [] {
      ArgsStop(u);
    } else {
      var more := RenderArgs(args[1..]) + u;
      RenderArgsCons(args, u);
      ArgumentRoundTrip(args[0], more);
      ArgsRoundTrip(args[1..], u);
      ArgsCons(RenderArgs(args) + u, args, more, u);
    }
  }

  lemma RenderArgsCons(args: seq<Argument>, u: string)
    requires args != []
    ensures RenderArgs(args) + u == RenderArgument(args[0]) + (RenderArgs(args[1..]) + u)
  {
    Associative(RenderArgument(args[0]), RenderArgs(args[1..]), u);
  }

  /** `many0(Argument::parser)` stops, consuming nothing, before anything but a brace. */
  lemma ArgsStop(u: string)
    requires u == [] || u[0] != '{'
    ensures ParseArgs(u) == ([], u)
    ensures ParseArgs(RenderArgs([]) + u) == ([], u)
  {
    assert ParseArgument(u).Err?;
    assert RenderArgs([]) + u == u;
  }

  /** One turn of `many0(Argument::parser)`. */
  lemma ArgsCons(s: string, args: seq<Argument>, s1: string, rest: string)
    requires args != []
    requires ParseArgument(s) == Ok((args[0], s1)) && ParseArgs(s1) == (args[1..], rest)
    ensures ParseArgs(s) == (args, rest)
  {
    ArgsStep(s, args[0], s1, args[1..], rest);
    HeadAndTail(args);
  }

  lemma ArgsStep(s: string, a: Argument, s1: string, more: seq<Argument>, rest: string)
    requires ParseArgument(s) == Ok((a, s1)) && ParseArgs(s1) == (more, rest)
    ensures ParseArgs(s) == ([a] + more, rest)
  {
  }

  /** A literal over the extended alphabet is read back whole: no nested
      command can start it and the run of letters stops at the closing brace. */
  lemma LiteralRoundTrip(text: string, t: string)
    requires IsLiteral(text)
    ensures ParseCommand(text + ("}" + t)).Err?
    ensures StrInner(text + ("}" + t)) == (text, "}" + t)
  {
    var inner := text + ("}" + t);
    if text != [] {
      assert inner[0] == text[0];
    } else {
      assert inner == "}" + t;
    }
    TakeWhileSplits(text, "}" + t, IsExtendedLetter);
  }

  /** Without a brace, or with a brace that the nested literal leaves
      unclosed, the literal scanner falls back to the longest run of extended
      letters; after an opening brace that run is empty. */
  lemma StrInnerFallback(s: string)
    ensures !StartsWith(s, "{") ==> StrInner(s) == TakeWhile(s, IsExtendedLetter)
    ensures StartsWith(s, "{") && !StartsWith(StrInner(s[1..]).1, "}") ==> StrInner(s) == ([], s)
  {
    if StartsWith(s, "{") {
      assert s[0] == '{';
    }
  }

  /** A literal wrapped in one pair of braces is unwrapped by the literal
      scanner: the text comes back without its braces. */
  lemma BracedLiteral(text: string, t: string)
    requires IsLiteral(text)
    ensures StrInner("{" + text + "}" + t) == (text, t)
  {
    var x := text + ("}" + t);
    BracedText(text, t);
    TagMatches("{", x);
    TagMatches("}", t);
    LiteralRoundTrip(text, t);
  }

  lemma BracedText(text: string, t: string)
    ensures "{" + text + "}" + t == "{" + (text + ("}" + t))
  { }

  /** The name of a parsed argument: the head name of the nested command when
      one opens the argument, otherwise a literal over the extended letters. */
  lemma ParsedArgumentName(s: string)
    requires ParseArgument(s).Ok?
    ensures IsLiteral(ArgumentName(ParseArgument(s).value.0))
    ensures ParseArgument(s).value.0.Cmd? <==> ParseCommand(s[1..]).Ok?
    ensures ParseArgument(s).value.0.Cmd? ==>
      ArgumentName(ParseArgument(s).value.0) == HeadName(s[1..]).value.0
  {
  }

  /** Argument::parser is a brace, its body, and a brace. */
  lemma ArgumentFromBody(x: string, a: Argument, t: string)
    requires ArgumentBody(x) == (a, "}" + t)
    ensures ParseArgument("{" + x) == Ok((a, t))
  {
    TagMatches("{", x);
    TagMatches("}", t);
  }

  lemma {:induction false} ArgumentRoundTrip(a: Argument, t: string)
    requires WellFormedArgument(a)
    ensures ParseArgument(RenderArgument(a) + t) == Ok((a, t))
    decreases a
  {
    match a
    case Str(text) =>
      LiteralArgumentRoundTrip(text, t);
    case Cmd(c) =>
      CommandRoundTrip(c, "}" + t);
      RenderCommandArgument(c, t);
      CommandArgumentFrom(RenderCommand(c) + ("}" + t), c, t);
  }

  lemma RenderCommandArgument(c: Command, t: string)
    ensures RenderArgument(Cmd(c)) + t == "{" + (RenderCommand(c) + ("}" + t))
  {
    assert RenderArgument(Cmd(c)) == "{" + RenderCommand(c) + "}";
    BracedSplit(RenderCommand(c), t);
  }

  /** A nested command followed by the closing brace is read as an argument. */
  lemma CommandArgumentFrom(x: string, c: Command, t: string)
    requires ParseCommand(x) == Ok((c, Ws("}" + t)))
    ensures ParseArgument("{" + x) == Ok((Cmd(c), t))
  {
    ClosingBraceStaysPut(t);
    BodyFromCommand(x, c, "}" + t);
    ArgumentFromBody(x, Cmd(c), t);
  }

  lemma ClosingBraceStaysPut(t: string)
    ensures Ws("}" + t) == "}" + t
  {
    NoSeparatorAt("}" + t);
  }

  lemma BracedSplit(x: string, t: string)
    ensures "{" + x + "}" + t == "{" + (x + ("}" + t))
  {
    Associative("{" + x, "}", t);
    Associative("{", x, "}" + t);
  }

  /** The `alt` inside an argument takes the nested command when there is one. */
  lemma BodyFromCommand(x: string, c: Command, rest: string)
    requires ParseCommand(x) == Ok((c, rest))
    ensures ArgumentBody(x) == (Cmd(c), rest)
  {
  }

  lemma LiteralArgumentRoundTrip(text: string, t: string)
    requires IsLiteral(text)
    ensures ParseArgument(RenderArgument(Str(text)) + t) == Ok((Str(text), t))
  {
    var x := text + ("}" + t);
    BracedSplit(text, t);
    LiteralRoundTrip(text, t);
    ArgumentFromBody(x, Str(text), t);
  }

  // ---------------------------------------------------------------------------
  // Commands with a bare head: the shape grammar symbols are written in

  /** `\name` with no parameters or arguments, and an optional suffix. */
  function BareCommand(name: string, k: Option<SeqKind>): Command {
    Command(CommandHead(name, []), [], k)
  }

  lemma {:induction false} BareCommandRoundTrip(name: string, k: Option<SeqKind>, t: string)
    requires IsName(name) && Delimits(t)
    ensures ParseCommand("\\" + name + RenderSeqKind(k) + t) == Ok((BareCommand(name, k), Ws(t)))
  {
    var c := BareCommand(name, k);
    assert RenderCommand(c) == "\\" + name + RenderSeqKind(k) by {
      assert RenderParams([]) == [] && RenderArgs([]) == [];
    }
    CommandRoundTrip(c, t);
  }

  /** `\name{text}`: one literal argument and no suffix, the shape of the
      `\K` and `\X` escapes and of `\production{...}`. */
  function LiteralCommand(name: string, text: string): Command {
    Command(CommandHead(name, []), [Str(text)], None)
  }

  lemma {:induction false} LiteralCommandRoundTrip(name: string, text: string, t: string)
    requires IsName(name) && IsLiteral(text) && Delimits(t)
    ensures ParseCommand("\\" + name + "{" + text + "}" + t) == Ok((LiteralCommand(name, text), Ws(t)))
  {
    var c := LiteralCommand(name, text);
    assert RenderCommand(c) == "\\" + name + "{" + text + "}" by {
      assert RenderParams([]) == [] && RenderSeqKind(None) == [];
      assert RenderArgs([Str(text)]) == RenderArgument(Str(text)) + RenderArgs([]);
    }
    CommandRoundTrip(c, t);
  }

  /** Ws tries the tag `\quad` before anything else, so a command whose name
      merely begins with `quad` (`\quadratic`, say) loses that part: the
      text is a command head, yet Ws leaves only the letters after `quad`. */
  lemma QuadPrefixSwallowed(rest: string)
    requires rest != [] && IsAlphanumeric(rest[0])
    ensures HeadName("\\quad" + rest).Ok?
    ensures Ws("\\quad" + rest) == rest
  {
    QuadHead(rest);
    QuadSkipped(rest);
  }

  lemma QuadSkipped(rest: string)
    requires rest != [] && IsAlphanumeric(rest[0])
    ensures Ws("\\quad" + rest) == rest
  {
    WsSkipsTag("\\quad", rest);
    NoSeparatorAt(rest);
  }

  lemma QuadHead(rest: string)
    ensures HeadName("\\quad" + rest).Ok?
  {
    var s := "\\quad" + rest;
    assert s[0] == '\\' && s[1] == 'q';
  }

  /** A name Ws would not partly swallow as `\quad` or `\qquad`. */
  predicate NotSpacing(name: string) {
    !StartsWith(name, "quad") && !StartsWith(name, "qquad")
  }

  /** A command name, cut off by a character that cannot continue it, is not
      the start of a separator unless it begins with a spacing word. */
  lemma CommandNotSeparator(name: string, x: string)
    requires IsName(name) && NotSpacing(name) && (x == [] || !IsAlphanumeric(x[0]))
    ensures !StartsWithSeparator("\\" + name + x)
  {
    var s := "\\" + name + x;
    assert s[0] == '\\' && s[1] == name[0];
    MismatchAt(s, "&", 0);
    MismatchAt(s, "~", 0);
    MismatchAt(s, "\\\\", 1);
    MismatchAt(s, "\\ ", 1);
    SpacingMismatch(name, x, "quad");
    SpacingMismatch(name, x, "qquad");
  }

  lemma SpacingMismatch(name: string, x: string, word: string)
    requires IsName(name) && IsName(word) && !StartsWith(name, word)
    requires x == [] || !IsAlphanumeric(x[0])
    ensures !StartsWith("\\" + name + x, "\\" + word)
  {
    var s, tag := "\\" + name + x, "\\" + word;
    if |name| >= |word| {
      assert name[..|word|] != word;
      var i :| 0 <= i < |word| && name[i] != word[i];
      assert s[i + 1] == name[i] && tag[i + 1] == word[i];
      MismatchAt(s, tag, i + 1);
    } else if |name| + 1 < |s| {
      var j := |name| + 1;
      assert s[j] == x[0] && tag[j] == word[|name|];
      MismatchAt(s, tag, j);
    }
  }

  /** Ws stops in front of such a command. */
  lemma WsStopsAtCommand(name: string, x: string)
    requires IsName(name) && NotSpacing(name) && (x == [] || !IsAlphanumeric(x[0]))
    ensures Ws("\\" + name + x) == "\\" + name + x
  {
    CommandNotSeparator(name, x);
    WsFixedPoints("\\" + name + x);
  }

  /** `\instr^\ast` is the command `instr` with a zero-or-more suffix (the
      `upnote` unit test). */
  lemma UpnoteExample()
    ensures ParseCommand("\\instr^\\ast")
         == Ok((Command(CommandHead("instr", []), [], Some(ManyPossibleEmpty)), ""))
  {
    var c := Command(CommandHead("instr", []), [], Some(ManyPossibleEmpty));
    assert RenderCommand(c) + "" == "\\instr^\\ast";
    CommandRoundTrip(c, "");
  }

  /** Ws leaves nothing of inputs made only of separators (the `whitespaces`
      unit test). */
  lemma WhitespaceExamples()
    ensures Ws("") == ""
    ensures Ws("  \n & &&") == ""
    ensures Ws("  & \\quad \\qquad") == ""
  {
    assert IsBlank("  \n & &&");
    BlankOnly("  \n & &&");
    QuadsSkipped();
  }

  lemma BlankOnly(w: string)
    requires IsBlank(w)
    ensures Ws(w) == ""
  {
    WsSkipsBlank(w, "");
    assert w + "" == w;
  }

  lemma QuadsSkipped()
    ensures Ws("  & \\quad \\qquad") == ""
  {
    QuadsText();
    QuadTail();
    AmpersandBlank();
    BlankThenQuad("  & ", " \\qquad");
  }

  lemma AmpersandBlank()
    ensures IsBlank("  & ")
  { }

  lemma BlankThenQuad(w: string, s: string)
    requires IsBlank(w) && Ws(s) == ""
    ensures Ws(w + ("\\quad" + s)) == ""
  {
    WsSkipsTag("\\quad", s);
    WsSkipsBlank(w, "\\quad" + s);
  }

  lemma QuadTail()
    ensures Ws(" \\qquad") == ""
  {
    QuadsText();
    QquadOnly();
    assert IsBlank(" ");
    WsSkipsBlank(" ", "\\qquad");
  }

  lemma QquadOnly()
    ensures Ws("\\qquad") == ""
  {
    assert "\\qquad" + "" == "\\qquad";
    WsSkipsTag("\\qquad", "");
  }

  lemma QuadsText()
    ensures "  & \\quad \\qquad" == "  & " + ("\\quad" + " \\qquad")
    ensures " \\qquad" == " " + "\\qquad"
  { }

  /** `\externtype` and `\production{external types}` each parse whole, with
      the expected head names (the `simple_command` unit test). */
  lemma SimpleCommandExamples()
    ensures ParseCommand("\\externtype") == Ok((BareCommand("externtype", None), ""))
    ensures ParseCommand("\\production{external types}")
         == Ok((LiteralCommand("production", "external types"), ""))
  {
    ExterntypeCommand();
    ProductionCommand();
  }

  lemma ExterntypeCommand()
    ensures ParseCommand("\\externtype") == Ok((BareCommand("externtype", None), ""))
  {
    assert "\\" + "externtype" + RenderSeqKind(None) + "" == "\\externtype";
    BareCommandRoundTrip("externtype", None, "");
  }

  lemma ProductionCommand()
    ensures ParseCommand("\\production{external types}")
         == Ok((LiteralCommand("production", "external types"), ""))
  {
    ProductionCommandText();
    assert IsName("production") && IsLiteral("external types");
    LiteralCommandRoundTrip("production", "external types", "");
  }

  lemma ProductionCommandText()
    ensures "\\" + "production" + "{" + "external types" + "}" + "" == "\\production{external types}"
  { }

  /** Doubled braces are unwrapped to the literal inside, and an argument may
      be empty. */
  lemma ArgumentExamples()
    ensures ParseArgument("{{x}}") == Ok((Str("x"), ""))
    ensures ParseArgument("{}") == Ok((Str(""), ""))
  {
    NestedBraces();
    assert RenderArgument(Str("")) + "" == "{}";
    LiteralArgumentRoundTrip("", "");
  }

  lemma NestedBraces()
    ensures ParseArgument("{{x}}") == Ok((Str("x"), ""))
  {
    BracesBody();
    assert "}" + "" == "}" && "{" + "{x}}" == "{{x}}";
    ArgumentFromBody("{x}}", Str("x"), "");
  }

  lemma BracesBody()
    ensures ArgumentBody("{x}}") == (Str("x"), "}")
  {
    BracesLiteral();
    assert HeadName("{x}}").Err?;
  }

  lemma BracesLiteral()
    ensures StrInner("{x}}") == ("x", "}")
  {
    InnerLiteral();
    assert "{x}}"[1..] == "x}}";
  }

  lemma InnerLiteral()
    ensures StrInner("x}}") == ("x", "}}")
  {
    assert "x}}" == "x" + "}}";
    TakeWhileSplits("x", "}}", IsExtendedLetter);
  }
}
