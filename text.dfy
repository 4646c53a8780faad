/**
  Text building blocks of the Flickr URLs: the decimal rendering Swift's string
  interpolation gives an `Int`, and joining or splitting text on a separator
  character. Each rendering comes with its inverse and a round-trip lemma.
 */
module Text {
  import opened Wrappers

  predicate IsDigit(c: char) {
    '0' <= c <= '9'
  }

  predicate AllDigits(s: string) {
    forall k :: 0 <= k < |s| ==> IsDigit(s[k])
  }

  function DigitChar(d: int): (c: char)
    requires 0 <= d < 10
    ensures IsDigit(c)
  {
    ('0' as int + d) as char
  }

  function DigitValue(c: char): (d: int)
    requires IsDigit(c)
    ensures 0 <= d < 10
  {
    c as int - '0' as int
  }

  /** The decimal digits of `n`, most significant first, without leading zeros. */
  function NatToString(n: nat): (s: string)
    decreases n
  {
    if n < 10 then [DigitChar(n)] else NatToString(n / 10) + [DigitChar(n % 10)]
  }

  /** The text of `\(i)` for a Swift `Int`: a '-' in front of the digits of a negative number. */
  function IntToString(i: int): (s: string) {
    if i < 0 then "-" + NatToString(-i) else NatToString(i)
  }

  /** The number a non-empty string of decimal digits denotes. */
  function ParseNat(s: string): (n: nat)
    requires |s| > 0 && AllDigits(s)
    decreases |s|
  {
    if |s| == 1 then DigitValue(s[0])
    else ParseNat(s[..|s| - 1]) * 10 + DigitValue(s[|s| - 1])
  }

  /** Decimal text with an optional leading '-', read back as an integer; None for any other text. */
  function ParseInt(s: string): (r: Option<int>) {
    if |s| > 0 && s[0] == '-' then
      if |s| > 1 && AllDigits(s[1..]) then
        var magnitude: int := ParseNat(s[1..]);
        Some(-magnitude)
      else None
    else if |s| > 0 && AllDigits(s) then Some(ParseNat(s))
    else None
  }

  /** The rendering of a natural number is non-empty, all digits, and starts with '0' only for zero. */
  lemma {:induction false} NatToStringShape(n: nat)
    ensures |NatToString(n)| > 0 && AllDigits(NatToString(n))
    ensures NatToString(n)[0] == '0' <==> n == 0
    decreases n
  {
    if n >= 10 {
      NatToStringShape(n / 10);
      assert NatToString(n)[0] == NatToString(n / 10)[0];
    }
  }

  lemma {:induction false} ParseNatToString(n: nat)
    ensures |NatToString(n)| > 0 && AllDigits(NatToString(n))
    ensures ParseNat(NatToString(n)) == n
    decreases n
  {
    NatToStringShape(n);
    if n >= 10 {
      ParseNatToString(n / 10);
      var s := NatToString(n);
      assert s[..|s| - 1] == NatToString(n / 10);
    }
  }

  /** An integer's rendering reads back as that integer. */
  lemma IntToStringRoundTrip(i: int)
    ensures ParseInt(IntToString(i)) == Some(i)
  {
    if i < 0 {
      ParseNatToString(-i);
      assert IntToString(i)[1..] == NatToString(-i);
    } else {
      ParseNatToString(i);
      NatToStringShape(i);
    }
  }

  /** Rendering is one-to-one: two integers with the same text are equal. */
  lemma IntToStringInjective(i: int, j: int)
    requires IntToString(i) == IntToString(j)
    ensures i == j
  {
    IntToStringRoundTrip(i);
    IntToStringRoundTrip(j);
  }

  /** A rendered integer holds only digits and possibly a leading '-'. */
  lemma IntToStringAlphabet(i: int)
    ensures forall k :: 0 <= k < |IntToString(i)| ==> IsDigit(IntToString(i)[k]) || (k == 0 && i < 0)
  {
    if i < 0 {
      NatToStringShape(-i);
    } else {
      NatToStringShape(i);
    }
  }

  /** The position of the first occurrence of `c` in `s`. */
  function IndexOf(s: string, c: char): (i: nat)
    requires c in s
    ensures i < |s| && s[i] == c && c !in s[..i]
  {
    if s[0] == c then 0 else 1 + IndexOf(s[1..], c)
  }

  /** The parts, with `sep` between each two consecutive ones. */
  function Join(parts: seq<string>, sep: char): (s: string) {
    if |parts| == 0 then ""
    else if |parts| == 1 then parts[0]
    else parts[0] + [sep] + Join(parts[1..], sep)
  }

  /** The maximal pieces of `s` that do not contain `sep`, in order; at least one, possibly empty. */
  function Split(s: string, sep: char): (parts: seq<string>)
    ensures |parts| > 0
    ensures forall k :: 0 <= k < |parts| ==> sep !in parts[k]
    decreases |s|
  {
    if sep !in s then [s]
    else
      var i := IndexOf(s, sep);
      [s[..i]] + Split(s[i + 1..], sep)
  }

  /** The first occurrence of `sep` in `a + [sep] + b` is the one after `a` when `a` has none. */
  lemma IndexOfAfter(a: string, sep: char, b: string)
    requires sep !in a
    ensures sep in a + [sep] + b && IndexOf(a + [sep] + b, sep) == |a|
  {
    var s := a + [sep] + b;
    assert s[|a|] == sep;
  }

  /** Splitting undoes joining, when no part contains the separator. */
  lemma {:induction false} SplitJoin(parts: seq<string>, sep: char)
    requires |parts| > 0
    requires forall k :: 0 <= k < |parts| ==> sep !in parts[k]
    ensures Split(Join(parts, sep), sep) == parts
    decreases |parts|
  {
    if |parts| > 1 {
      var rest := Join(parts[1..], sep);
      var s := parts[0] + [sep] + rest;
      IndexOfAfter(parts[0], sep, rest);
      assert s[..|parts[0]|] == parts[0];
      assert s[|parts[0]| + 1..] == rest;
      SplitJoin(parts[1..], sep);
      assert Split(s, sep) == [parts[0]] + parts[1..];
    }
  }
}
