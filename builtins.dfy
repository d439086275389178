/** The few JavaScript built-ins the conversation driver relies on:
    printing a non-negative integer inside a template literal,
    `Array.prototype.slice` and `Array.prototype.join`. */
module Builtins {

  // ---------------------------------------------------------------------
  // Decimal rendering of non-negative integers (`${n}` for an integer n >= 0)
  // ---------------------------------------------------------------------

  predicate IsDigit(c: char) { '0' <= c <= '9' }

  predicate IsDigits(s: string) { forall k :: 0 <= k < |s| ==> IsDigit(s[k]) }

  function DigitChar(d: nat): (c: char)
    requires d < 10
    ensures IsDigit(c)
    ensures (c == '0') == (d == 0)
  {
    ('0' as int + d) as char
  }

  function DigitValue(c: char): (d: nat)
    requires IsDigit(c)
    ensures d < 10
  {
    c as int - '0' as int
  }

  /** The text JavaScript produces for a non-negative integer: its decimal
      digits, most significant first, with no sign and no leading zero. */
  function NatToString(n: nat): (s: string)
    ensures |s| >= 1 && IsDigits(s)
    ensures (s[0] == '0') == (n == 0)
    ensures n < 10 <==> |s| == 1
    decreases n
  {
    if n < 10 then [DigitChar(n)] else NatToString(n / 10) + [DigitChar(n % 10)]
  }

  /** The number a string of decimal digits denotes. */
  function DigitsValue(s: string): nat
    requires IsDigits(s)
  {
    if s == [] then 0 else DigitsValue(s[..|s| - 1]) * 10 + DigitValue(s[|s| - 1])
  }

  /** Reading back the rendered digits gives the number that was rendered. */
  lemma {:induction false} NatToStringRoundTrip(n: nat)
    ensures DigitsValue(NatToString(n)) == n
    decreases n
  {
    var s := NatToString(n);
    if n >= 10 {
      NatToStringRoundTrip(n / 10);
      assert s[..|s| - 1] == NatToString(n / 10);
      assert DigitValue(s[|s| - 1]) == n % 10;
    } else {
      assert s[..|s| - 1] == [];
    }
  }

  /** Distinct numbers are rendered as distinct strings. */
  lemma NatToStringInjective(a: nat, b: nat)
    requires a != b
    ensures NatToString(a) != NatToString(b)
  {
    NatToStringRoundTrip(a);
    NatToStringRoundTrip(b);
  }

  // ---------------------------------------------------------------------
  // Array.prototype.slice
  // ---------------------------------------------------------------------

  /** Where `slice` places a relative index `x` in a sequence of length
      `len`: a negative index counts back from the end, and the result is
      clamped to 0 .. len. */
  function RelativeIndex(x: int, len: nat): (p: nat)
    ensures p <= len
  {
    if x < 0 then (if len + x < 0 then 0 else len + x)
    else if x < len then x else len
  }

  /** `s.slice(start, end)`: the elements from the resolved start up to, not
      including, the resolved end; empty when the end does not lie past the
      start. */
  function Slice<T>(s: seq<T>, start: int, end: int): (r: seq<T>)
    ensures |r| == if RelativeIndex(start, |s|) < RelativeIndex(end, |s|)
                   then RelativeIndex(end, |s|) - RelativeIndex(start, |s|) else 0
    ensures forall k :: 0 <= k < |r| ==> r[k] == s[RelativeIndex(start, |s|) + k]
  {
    var from, to := RelativeIndex(start, |s|), RelativeIndex(end, |s|);
    if from < to then s[from..to] else []
  }

  // ---------------------------------------------------------------------
  // Array.prototype.join
  // ---------------------------------------------------------------------

  /** `parts.join(sep)`: the parts in order, with `sep` between each two
      neighbours and nowhere else. */
  function Join(parts: seq<string>, sep: string): string
  {
    if parts == [] then ""
    else if |parts| == 1 then parts[0]
    else parts[0] + sep + Join(parts[1..], sep)
  }

  /** Joining two non-empty lists is joining each and putting one separator
      between the two results. */
  lemma {:induction false} JoinAppend(a: seq<string>, b: seq<string>, sep: string)
    requires a != [] && b != []
    ensures Join(a + b, sep) == Join(a, sep) + sep + Join(b, sep)
    decreases |a|
  {
    assert (a + b)[0] == a[0];
    assert (a + b)[1..] == a[1..] + b;
    if |a| > 1 {
      JoinAppend(a[1..], b, sep);
      var x, y, z := Join(a[1..], sep), sep, Join(b, sep);
      calc {
        Join(a + b, sep);
        a[0] + sep + (x + y + z);
        { assert (x + y) + z == x + (y + z); }
        (a[0] + sep + x) + y + z;
        Join(a, sep) + sep + Join(b, sep);
      }
    }
  }

  /** Joining four parts. */
  lemma JoinFour(w: string, x: string, y: string, z: string, sep: string)
    ensures Join([w, x, y, z], sep) == w + sep + x + sep + y + sep + z
  {
    assert [w, x, y, z][1..] == [x, y, z];
    assert [x, y, z][1..] == [y, z];
    assert [y, z][1..] == [z];
    var yz := y + sep + z;
    assert Join([z], sep) == z;
    assert Join([y, z], sep) == yz;
    assert Join([x, y, z], sep) == x + sep + yz;
    calc {
      (w + sep) + (x + sep + yz);
      == { assert x + sep + yz == (x + sep) + yz; }
      (w + sep) + ((x + sep) + yz);
      ==
      ((w + sep) + (x + sep)) + yz;
      == { assert (w + sep) + (x + sep) == w + sep + x + sep; }
      (w + sep + x + sep) + yz;
      ==
      w + sep + x + sep + y + sep + z;
    }
  }
}
