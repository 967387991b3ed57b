/** The few java.lang.String and Integer operations the modelled code relies on,
 *  written out so that their edge cases (trailing empty pieces of `split`,
 *  the 32-bit range of `parseInt`) are part of the model. */
module JavaText {
  import opened Wrappers

  /** Concatenation regroups freely. */
  lemma Associative<T>(a: seq<T>, b: seq<T>, c: seq<T>)
    ensures a + b + c == a + (b + c)
  {
  }

  // ---------------------------------------------------------------- case

  /** `Character.toLowerCase`, restricted to the ASCII letters. */
  function LowerChar(c: char): char {
    if 'A' <= c <= 'Z' then (c as int + 32) as char else c
  }

  function ToLower(s: string): (r: string)
    ensures |r| == |s|
    ensures forall i :: 0 <= i < |s| ==> r[i] == LowerChar(s[i])
  {
    if |s| == 0 then "" else [LowerChar(s[0])] + ToLower(s[1..])
  }

  /** `String.equalsIgnoreCase` on ASCII text. */
  predicate EqualsIgnoreCase(a: string, b: string) {
    ToLower(a) == ToLower(b)
  }

  lemma ToLowerIdempotent(s: string)
    ensures ToLower(ToLower(s)) == ToLower(s)
  {
  }

  // ------------------------------------------------------ search, affixes

  predicate StartsWith(s: string, prefix: string) {
    |prefix| <= |s| && s[..|prefix|] == prefix
  }

  predicate EndsWith(s: string, suffix: string) {
    |suffix| <= |s| && s[|s| - |suffix|..] == suffix
  }

  /** `sep` occurs in `s` starting at index `j`. */
  predicate OccursAt(s: string, sep: string, j: int) {
    0 <= j && j + |sep| <= |s| && s[j..j + |sep|] == sep
  }

  /** `s.indexOf(sep, from)`: the first occurrence at or after `from`. */
  function FindFrom(s: string, sep: string, from: nat): (r: Option<nat>)
    decreases |s| - from
    ensures r.Some? ==> from <= r.value && OccursAt(s, sep, r.value)
    ensures r.Some? ==> forall j :: from <= j < r.value ==> !OccursAt(s, sep, j)
    ensures r.None? ==> forall j :: from <= j ==> !OccursAt(s, sep, j)
  {
    if from + |sep| > |s| then None
    else if s[from..from + |sep|] == sep then Some(from)
    else FindFrom(s, sep, from + 1)
  }

  predicate Contains(s: string, sep: string) {
    FindFrom(s, sep, 0).Some?
  }

  /** `s.lastIndexOf(c)`, or -1 when `c` does not occur. */
  function LastIndexOf(s: string, c: char): (r: int)
    ensures -1 <= r < |s|
    ensures r >= 0 ==> s[r] == c
    ensures forall j :: r < j < |s| ==> s[j] != c
  {
    if |s| == 0 then -1
    else if s[|s| - 1] == c then |s| - 1
    else LastIndexOf(s[..|s| - 1], c)
  }

  // -------------------------------------------------------------- split

  /** The pieces between the successive left-most occurrences of `sep`,
   *  empty ones included. */
  function Pieces(s: string, sep: string): (r: seq<string>)
    requires |sep| > 0
    decreases |s|
    ensures |r| >= 1
  {
    match FindFrom(s, sep, 0)
    case None => [s]
    case Some(i) => [s[..i]] + Pieces(s[i + |sep|..], sep)
  }

  function DropTrailingEmpty(xs: seq<string>): (r: seq<string>)
    ensures |r| <= |xs| && r == xs[..|r|]
    ensures |r| > 0 ==> r[|r| - 1] != ""
    ensures forall k :: |r| <= k < |xs| ==> xs[k] == ""
  {
    if |xs| > 0 && xs[|xs| - 1] == "" then DropTrailingEmpty(xs[..|xs| - 1]) else xs
  }

  /** `s.split(sep)` with a literal separator and Java's default limit 0:
   *  when `sep` never occurs the answer is `[s]` (so `"".split(",")` is
   *  `[""]`); otherwise trailing empty pieces are removed, which can leave
   *  no piece at all (`",".split(",")` is empty). */
  function Split(s: string, sep: string): seq<string>
    requires |sep| > 0
  {
    var p := Pieces(s, sep);
    if |p| == 1 then p else DropTrailingEmpty(p)
  }

  /** What `split` promises: the leading pieces of the text, none holding
   *  the separator, with only empty pieces dropped at the end; the whole
   *  text when the separator does not occur, and otherwise no empty last
   *  piece. */
  lemma SplitPieces(s: string, sep: string)
    requires |sep| > 0
    ensures |Split(s, sep)| <= |Pieces(s, sep)| && Split(s, sep) == Pieces(s, sep)[..|Split(s, sep)|]
    ensures forall k :: |Split(s, sep)| <= k < |Pieces(s, sep)| ==> Pieces(s, sep)[k] == ""
    ensures forall k :: 0 <= k < |Split(s, sep)| ==> !Contains(Split(s, sep)[k], sep)
    ensures !Contains(s, sep) ==> Split(s, sep) == [s]
    ensures Contains(s, sep) && |Split(s, sep)| > 0 ==> Split(s, sep)[|Split(s, sep)| - 1] != ""
  {
    PiecesAvoidSeparator(s, sep);
    var p := Pieces(s, sep);
    if |p| > 1 {
      assert forall k :: 0 <= k < |Split(s, sep)| ==> Split(s, sep)[k] == p[k];
    }
  }

  /** `String.join(sep, xs)`. */
  function Join(xs: seq<string>, sep: string): string
    requires |xs| >= 1
  {
    if |xs| == 1 then xs[0] else xs[0] + sep + Join(xs[1..], sep)
  }

  /** Joining the pieces with the separator gives the text back. */
  lemma {:induction false} JoinPieces(s: string, sep: string)
    requires |sep| > 0
    ensures Join(Pieces(s, sep), sep) == s
    decreases |s|
  {
    match FindFrom(s, sep, 0)
    case None =>
    case Some(i) =>
      var rest := s[i + |sep|..];
      var p := Pieces(s, sep);
      assert p == [s[..i]] + Pieces(rest, sep);
      assert p[1..] == Pieces(rest, sep);
      calc {
        Join(p, sep);
        s[..i] + sep + Join(Pieces(rest, sep), sep);
        { JoinPieces(rest, sep); }
        s[..i] + sep + rest;
        { assert s[i..i + |sep|] == sep; }
        s;
      }
  }

  /** No piece contains the separator. */
  lemma {:induction false} PiecesAvoidSeparator(s: string, sep: string)
    requires |sep| > 0
    ensures forall k :: 0 <= k < |Pieces(s, sep)| ==> !Contains(Pieces(s, sep)[k], sep)
    decreases |s|
  {
    match FindFrom(s, sep, 0)
    case None =>
    case Some(i) =>
      var rest := s[i + |sep|..];
      PiecesAvoidSeparator(rest, sep);
      var head := s[..i];
      assert !Contains(head, sep) by {
        forall j | 0 <= j
          ensures !OccursAt(head, sep, j)
        {
          if OccursAt(head, sep, j) {
            assert head[j..j + |sep|] == s[j..j + |sep|];
            assert OccursAt(s, sep, j);
          }
        }
      }
  }

  lemma {:induction false} JoinSnoc(xs: seq<string>, y: string, sep: string)
    requires |xs| >= 1
    ensures Join(xs + [y], sep) == Join(xs, sep) + sep + y
    decreases |xs|
  {
    if |xs| > 1 {
      assert (xs + [y])[1..] == xs[1..] + [y];
      JoinSnoc(xs[1..], y, sep);
    }
  }

  /** The first occurrence is the one with no occurrence before it. */
  lemma FindFromFirst(s: string, sep: string, i: nat)
    requires OccursAt(s, sep, i)
    requires forall j :: 0 <= j < i ==> !OccursAt(s, sep, j)
    ensures FindFrom(s, sep, 0) == Some(i)
  {
  }

  /** In a join whose first text is separator-free, the first separator
   *  is the one right after that text. */
  lemma JoinHead(xs: seq<string>, sep: string)
    requires |sep| == 1 && |xs| > 1 && !Contains(xs[0], sep)
    ensures FindFrom(Join(xs, sep), sep, 0) == Some(|xs[0]|)
    ensures Join(xs, sep)[..|xs[0]|] == xs[0]
    ensures Join(xs, sep)[|xs[0]| + |sep|..] == Join(xs[1..], sep)
  {
    var x := xs[0];
    var s := Join(xs, sep);
    assert s == x + sep + Join(xs[1..], sep);
    forall j | 0 <= j < |x|
      ensures !OccursAt(s, sep, j)
    {
      if OccursAt(s, sep, j) {
        assert x[j..j + 1] == s[j..j + 1];
        assert OccursAt(x, sep, j);
      }
    }
    assert s[|x|..|x| + 1] == sep;
    FindFromFirst(s, sep, |x|);
  }

  /** Splitting a join of separator-free texts at a one-character separator
   *  gives the texts back: `Pieces` inverts `Join`. */
  lemma {:induction false} PiecesOfJoin(xs: seq<string>, sep: string)
    requires |sep| == 1 && |xs| >= 1
    requires forall k :: 0 <= k < |xs| ==> !Contains(xs[k], sep)
    ensures Pieces(Join(xs, sep), sep) == xs
    decreases |xs|
  {
    if |xs| > 1 {
      JoinHead(xs, sep);
      var s := Join(xs, sep);
      assert Pieces(s, sep) == [xs[0]] + Pieces(Join(xs[1..], sep), sep);
      PiecesOfJoin(xs[1..], sep);
      assert xs == [xs[0]] + xs[1..];
    }
  }

  // ------------------------------------------------------------ integers

  const INT_MIN: int := -0x8000_0000
  const INT_MAX: int := 0x7fff_ffff

  predicate IsDigit(c: char) {
    '0' <= c <= '9'
  }

  predicate AllDigits(s: string) {
    forall i :: 0 <= i < |s| ==> IsDigit(s[i])
  }

  function DigitValue(c: char): nat
    requires IsDigit(c)
  {
    c as int - '0' as int
  }

  function DigitChar(d: nat): (c: char)
    requires d < 10
    ensures IsDigit(c) && DigitValue(c) == d
  {
    (d + '0' as int) as char
  }

  /** The decimal value of a string of digits. */
  function DigitsValue(s: string): nat
    requires AllDigits(s)
  {
    if |s| == 0 then 0 else DigitsValue(s[..|s| - 1]) * 10 + DigitValue(s[|s| - 1])
  }

  /** An optional sign, at least one ASCII digit, and a value in [lo, hi];
   *  anything else is a NumberFormatException. */
  function ParseIntegral(s: string, lo: int, hi: int): (r: Option<int>)
    ensures r.Some? ==> lo <= r.value <= hi
  {
    var signed := |s| > 0 && (s[0] == '-' || s[0] == '+');
    var digits := if signed then s[1..] else s;
    if |digits| == 0 || !AllDigits(digits) then None
    else
      var v: int := if signed && s[0] == '-' then 0 - (DigitsValue(digits) as int) else DigitsValue(digits);
      if lo <= v <= hi then Some(v) else None
  }

  const LONG_MIN: int := -0x8000_0000_0000_0000
  const LONG_MAX: int := 0x7fff_ffff_ffff_ffff

  /** `Integer.parseInt`. */
  function ParseInt(s: string): (r: Option<int>)
    ensures r.Some? ==> INT_MIN <= r.value <= INT_MAX
  {
    ParseIntegral(s, INT_MIN, INT_MAX)
  }

  /** `Long.parseLong`. */
  function ParseLong(s: string): (r: Option<int>)
    ensures r.Some? ==> LONG_MIN <= r.value <= LONG_MAX
  {
    ParseIntegral(s, LONG_MIN, LONG_MAX)
  }

  /** Java's narrowing of an integer to 32 bits (`Number.intValue`,
   *  `int` multiplication): two's-complement wrap-around. */
  function Wrap32(n: int): (r: int)
    ensures INT_MIN <= r <= INT_MAX
    ensures (r - n) % 0x1_0000_0000 == 0
    ensures INT_MIN <= n <= INT_MAX ==> r == n
  {
    (n - INT_MIN) % 0x1_0000_0000 + INT_MIN
  }

  /** The same narrowing to 64 bits (`Number.longValue`). */
  function Wrap64(n: int): (r: int)
    ensures LONG_MIN <= r <= LONG_MAX
    ensures (r - n) % 0x1_0000_0000_0000_0000 == 0
    ensures LONG_MIN <= n <= LONG_MAX ==> r == n
  {
    (n - LONG_MIN) % 0x1_0000_0000_0000_0000 + LONG_MIN
  }

  /** Java's narrowing of a double to `int` or `long` (`Number.intValue`
   *  and `longValue` of a `Double`): rounding toward zero, then clamping
   *  to the target range `lo..hi` instead of wrapping. */
  function NarrowReal(d: real, lo: int, hi: int): (r: int)
    requires lo <= hi
    ensures lo <= r <= hi
    ensures lo as real <= d <= hi as real && 0.0 <= d ==> r as real <= d < r as real + 1.0
    ensures lo as real <= d <= hi as real && d < 0.0 ==> r as real - 1.0 < d <= r as real
    ensures d < lo as real ==> r == lo
    ensures d > hi as real ==> r == hi
  {
    var t := if 0.0 <= d then d.Floor else -((-d).Floor);
    if t < lo then lo else if t > hi then hi else t
  }

  /** `Integer.toString` of a non-negative number. */
  function NatToString(n: nat): (r: string)
    ensures |r| > 0 && AllDigits(r)
  {
    if n < 10 then [DigitChar(n)] else NatToString(n / 10) + [DigitChar(n % 10)]
  }

  lemma {:induction false} DigitsValueOfNatToString(n: nat)
    ensures DigitsValue(NatToString(n)) == n
  {
    if n >= 10 {
      DigitsValueOfNatToString(n / 10);
      var r := NatToString(n);
      assert r[..|r| - 1] == NatToString(n / 10);
    }
  }

  /** `Integer.parseInt(Integer.toString(n)) == n` for every non-negative int. */
  lemma ParseIntOfNatToString(n: nat)
    requires n <= INT_MAX
    ensures ParseInt(NatToString(n)) == Some(n)
  {
    DigitsValueOfNatToString(n);
    var s := NatToString(n);
    assert !(s[0] == '-' || s[0] == '+') by { assert IsDigit(s[0]); }
  }

  /** Different numbers print differently, so the column names
   *  `str(1)`, `str(2)`, ... never collide. */
  lemma NatToStringInjective(m: nat, n: nat)
    requires NatToString(m) == NatToString(n)
    ensures m == n
  {
    DigitsValueOfNatToString(m);
    DigitsValueOfNatToString(n);
  }

  // ------------------------------------------------------------- doubles

  /** A Java double: a finite value or NaN (infinities are not modelled). */
  datatype Double = Num(x: real) | NaN

  /** Rounding toward zero, as Java's narrowing casts do. */
  function Truncate(x: real): (r: int)
    ensures 0.0 <= x ==> 0 <= r && r as real <= x < r as real + 1.0
    ensures x < 0.0 ==> r <= 0 && r as real - 1.0 < x <= r as real
  {
    if x >= 0.0 then x.Floor else -((-x).Floor)
  }

  /** `Double.longValue()`: NaN becomes 0, out-of-range values saturate,
   *  everything else is truncated toward zero. */
  function LongValue(d: Double): (r: int)
    ensures LONG_MIN <= r <= LONG_MAX
    ensures d.NaN? ==> r == 0
    ensures d.Num? && LONG_MIN <= Truncate(d.x) <= LONG_MAX ==> r == Truncate(d.x)
  {
    match d
    case NaN => 0
    case Num(x) =>
      var t := Truncate(x);
      if t < LONG_MIN then LONG_MIN else if t > LONG_MAX then LONG_MAX else t
  }

  /** Java `*` on doubles, exact on the finite values. */
  function Times(a: Double, b: Double): (r: Double)
    ensures r.NaN? <==> a.NaN? || b.NaN?
  {
    if a.NaN? || b.NaN? then NaN else Num(a.x * b.x)
  }
}
