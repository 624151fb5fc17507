/** Results of the parsers and the little string vocabulary they share.

    A parser maps an input to either a failure or a pair (value, remainder),
    as nom's `IResult<&str, T>` does. nom distinguishes a recoverable
    `Err::Error` (which `alt`, `opt` and the repetition combinators catch) from
    anything else; the only non-recoverable outcome these parsers can reach is
    a Rust panic, which unwinds through every combinator. */
module ParseResult {

  datatype Option<+T> = None | Some(value: T)

  /** Why a parser did not produce a value. */
  datatype Fault =
    | Error                   // nom's recoverable `Err::Error`
    | Panic(message: string)  // an `expect` or an out-of-bounds index in the source

  datatype Result<+T> = Ok(value: T) | Err(fault: Fault) {
    predicate IsFailure() { Err? }

    function PropagateFailure<U>(): Result<U>
      requires Err?
    {
      Err(fault)
    }

    function Extract(): T
      requires Ok?
    {
      value
    }
  }

  /** What every parser returns: a value and the unconsumed remainder. */
  type PResult<T> = Result<(T, string)>

  predicate StartsWith(s: string, p: string) {
    |p| <= |s| && s[..|p|] == p
  }

  /** `r` is what is left of `s` once some prefix has been consumed. */
  predicate IsSuffix(r: string, s: string) {
    |r| <= |s| && s[|s| - |r|..] == r
  }

  /** A successful result left a suffix of `s` (and, when `strict`, consumed something). */
  predicate Consumed<T>(r: PResult<T>, s: string, strict: bool) {
    r.Ok? ==> IsSuffix(r.value.1, s) && (strict ==> |r.value.1| < |s|)
  }

  /** nom's `alt` for two alternatives: the second is tried only on a recoverable error. */
  function OrElse<T>(first: PResult<T>, second: PResult<T>): (r: PResult<T>)
    ensures first.Ok? ==> r == first
    ensures first.Err? && first.fault.Panic? ==> r == first
    ensures first == Err(Error) ==> r == second
  {
    if first == Err(Error) then second else first
  }

  /** nom's `map`: apply `f` to the value of a success, pass failures through. */
  function MapValue<T, U>(r: PResult<T>, f: T -> U): (m: PResult<U>)
    ensures m.Ok? <==> r.Ok?
    ensures m.Err? ==> m.fault == r.fault
    ensures m.Ok? ==> m.value == (f(r.value.0), r.value.1)
  {
    match r
    case Ok((v, rest)) => Ok((f(v), rest))
    case Err(fault) => Err(fault)
  }

  /** nom's `tag`: succeeds, returning the tag, iff the input starts with it. */
  function Tag(t: string, s: string): (r: PResult<string>)
    ensures r.Ok? <==> StartsWith(s, t)
    ensures r.Ok? ==> r.value.0 == t && s == t + r.value.1
    ensures r.Err? ==> r.fault == Error
    ensures Consumed(r, s, t != [])
  {
    if StartsWith(s, t) then Ok((t, s[|t|..])) else Err(Error)
  }

  /** The longest prefix of `s` whose characters all satisfy `p`, and what follows it. */
  function TakeWhile(s: string, p: char -> bool): (r: (string, string))
    ensures r.0 + r.1 == s
    ensures forall i :: 0 <= i < |r.0| ==> p(r.0[i])
    ensures r.1 == [] || !p(r.1[0])
  {
    if s == [] || !p(s[0]) then ([], s)
    else
      var (run, rest) := TakeWhile(s[1..], p);
      var longer := [s[0]] + run;
      assert longer + rest == s by {
        Associative([s[0]], run, rest);
        assert s == [s[0]] + s[1..];
      }
      assert forall i :: 0 <= i < |longer| ==> p(longer[i]) by {
        forall i | 0 <= i < |longer| ensures p(longer[i]) {
          if i > 0 { assert longer[i] == run[i - 1]; }
        }
      }
      (longer, rest)
  }

  /** A run that `p` accepts throughout, followed by a character it rejects, splits there. */
  lemma {:induction false} TakeWhileSplits(run: string, rest: string, p: char -> bool)
    requires forall i :: 0 <= i < |run| ==> p(run[i])
    requires rest == [] || !p(rest[0])
    ensures TakeWhile(run + rest, p) == (run, rest)
  {
    if run != [] {
      var s := run + rest;
      assert s[0] == run[0] && p(run[0]);
      assert s[1..] == run[1..] + rest;
      TakeWhileSplits(run[1..], rest, p);
      assert [run[0]] + run[1..] == run;
    } else {
      assert run + rest == rest;
    }
  }

  /** Input cannot start with a string it differs from at some position. */
  lemma MismatchAt(s: string, p: string, i: nat)
    requires i < |s| && i < |p| && s[i] != p[i]
    ensures !StartsWith(s, p)
  {
    if |p| <= |s| {
      assert s[..|p|][i] == s[i];
    }
  }

  /** A tag matches itself in front of anything. */
  lemma TagMatches(t: string, s: string)
    ensures Tag(t, t + s) == Ok((t, s))
  {
    assert (t + s)[..|t|] == t && (t + s)[|t|..] == s;
  }

  lemma Associative(a: string, b: string, c: string)
    ensures (a + b) + c == a + (b + c)
  {
  }

  lemma SingletonSeq<T>(x: T)
    ensures [x] + [] == [x]
  { }

  lemma HeadAndTail<T>(xs: seq<T>)
    requires xs != []
    ensures [xs[0]] + xs[1..] == xs
  { }

  lemma Regroup(a: string, b: string, c: string, d: string, e: string)
    ensures a + b + c + d + e == a + (b + c + d + e)
    ensures a + b + c + d + e == a + (b + (c + d + e))
  {
  }

  lemma SuffixTransitive(r: string, m: string, s: string)
    requires IsSuffix(r, m) && IsSuffix(m, s)
    ensures IsSuffix(r, s)
  {
    assert s[|s| - |r|..] == s[|s| - |m|..][|m| - |r|..];
  }
}
