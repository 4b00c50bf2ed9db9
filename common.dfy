/** Failure-compatible wrappers and the string helpers (join, case folding,
    substring search, decimal rendering) that the TypeScript code gets from
    its standard library. */
module Common {

  datatype Option<+T> = None | Some(value: T)

  /** A thrown `Error` becomes `Failure` carrying its message. */
  datatype Result<+T> = Success(value: T) | Failure(error: string)

  /** Success or a thrown error, for operations that return nothing. */
  datatype Outcome = Pass | Fail(error: string)

  /** The value or the default, as JavaScript's `x || d` for a value whose
      only falsy form is absence. */
  function GetOr<T>(o: Option<T>, d: T): T {
    match o
    case Some(v) => v
    case None => d
  }

  /** `parts.join(sep)`. */
  function Join(parts: seq<string>, sep: string): string {
    if |parts| == 0 then ""
    else if |parts| == 1 then parts[0]
    else parts[0] + sep + Join(parts[1..], sep)
  }

  predicate StartsWith(s: string, prefix: string) {
    |prefix| <= |s| && s[..|prefix|] == prefix
  }

  /** `hay.includes(needle)`: the empty needle occurs in every string. */
  predicate Contains(hay: string, needle: string) {
    exists i :: 0 <= i <= |hay| && StartsWith(hay[i..], needle)
  }

  /** `toLowerCase` restricted to the ASCII letters. */
  function LowerChar(c: char): char {
    if 'A' <= c <= 'Z' then (c as int + 32) as char else c
  }

  function ToLower(s: string): (r: string)
    ensures |r| == |s|
    ensures forall i :: 0 <= i < |s| ==> r[i] == LowerChar(s[i])
  {
    if s == [] then [] else [LowerChar(s[0])] + ToLower(s[1..])
  }

  function DigitChar(d: nat): char
    requires d < 10
  {
    ('0' as int + d) as char
  }

  /** Decimal rendering of a natural number, as a template literal prints it. */
  function NatToString(n: nat): (r: string)
    ensures |r| > 0
    ensures forall i :: 0 <= i < |r| ==> '0' <= r[i] <= '9'
  {
    if n < 10 then [DigitChar(n)] else NatToString(n / 10) + [DigitChar(n % 10)]
  }

  function IntToString(n: int): (r: string)
    ensures |r| > 0
    ensures forall i :: 0 <= i < |r| ==> r[i] == '-' || '0' <= r[i] <= '9'
  {
    if n < 0 then "-" + NatToString(-n) else NatToString(n)
  }

  /** Two strings that each start with a slash-free segment followed by a
      slash are equal only if the segments and the remainders are. */
  lemma FirstSegmentUnique(p: string, x: string, q: string, y: string)
    requires '/' !in p && '/' !in q
    requires p + "/" + x == q + "/" + y
    ensures p == q && x == y
  {
    var lhs := p + "/" + x;
    var rhs := q + "/" + y;
    SlashPosition(p, x);
    SlashPosition(q, y);
    if |p| != |q| {
      assert false;
    }
    assert p == lhs[..|p|] && q == rhs[..|q|];
    assert x == lhs[|p| + 1..] && y == rhs[|q| + 1..];
  }

  /** In `p + "/" + x` with `p` slash-free, the first slash is at `|p|`. */
  lemma SlashPosition(p: string, x: string)
    requires '/' !in p
    ensures (p + "/" + x)[|p|] == '/'
    ensures forall i :: 0 <= i < |p| ==> (p + "/" + x)[i] == p[i] != '/'
  {
  }

  /** `s.split(c)[0]`: the text before the first `c`, or all of `s`. */
  function PrefixBefore(s: string, c: char): (r: string)
    ensures |r| <= |s| && r == s[..|r|]
    ensures c !in r
    ensures |r| < |s| ==> s[|r|] == c
  {
    if s == [] then ""
    else if s[0] == c then ""
    else [s[0]] + PrefixBefore(s[1..], c)
  }

  /** `xs` is `ys` with some elements removed and the rest kept in order. */
  predicate IsSubsequence<T(==)>(xs: seq<T>, ys: seq<T>) {
    if xs == [] then true
    else if ys == [] then false
    else if xs[0] == ys[0] then IsSubsequence(xs[1..], ys[1..])
    else IsSubsequence(xs, ys[1..])
  }

  lemma {:induction false} SubsequenceOfTail<T>(xs: seq<T>, ys: seq<T>)
    requires |ys| > 0 && IsSubsequence(xs, ys[1..])
    ensures IsSubsequence(xs, ys)
  {
    if xs != [] && xs[0] == ys[0] {
      if |ys| > 1 && xs[0] != ys[1] {
        SubsequenceOfTail(xs, ys[1..]);
      }
      SubsequenceDropHead(xs, ys[1..]);
    }
  }

  lemma {:induction false} SubsequenceDropHead<T>(xs: seq<T>, ys: seq<T>)
    requires xs != [] && IsSubsequence(xs, ys)
    ensures IsSubsequence(xs[1..], ys)
  {
    if xs[1..] != [] && ys != [] {
      if xs[0] == ys[0] {
        SubsequenceOfTail(xs[1..], ys);
      } else {
        SubsequenceDropHead(xs, ys[1..]);
        SubsequenceOfTail(xs[1..], ys);
      }
    }
  }

  /** `xs.filter(keep)`: the elements satisfying `keep`, in order, each with
      its multiplicity. */
  function FilterBy<T(==,!new)>(xs: seq<T>, keep: T -> bool): (r: seq<T>)
    ensures forall x :: multiset(r)[x] == if keep(x) then multiset(xs)[x] else 0
    ensures forall x :: x in r <==> x in xs && keep(x)
    ensures IsSubsequence(r, xs)
    ensures |r| <= |xs|
  {
    if xs == [] then []
    else
      var rest := FilterBy(xs[1..], keep);
      assert xs == [xs[0]] + xs[1..];
      if keep(xs[0]) then [xs[0]] + rest
      else
        SubsequenceOfTail(rest, xs);
        rest
  }

  /** A filter whose predicate holds everywhere keeps the whole sequence. */
  lemma {:induction false} FilterByKeepsAll<T(!new)>(xs: seq<T>, keep: T -> bool)
    requires forall x :: x in xs ==> keep(x)
    ensures FilterBy(xs, keep) == xs
  {
    if xs != [] {
      FilterByKeepsAll(xs[1..], keep);
    }
  }
}
