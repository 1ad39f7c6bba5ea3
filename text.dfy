/**
 * The string operations the pages use to render a song's lists:
 * `Array.prototype.join` with the separator ", ", and the decimal rendering
 * of the unsigned integers in a split list. Each comes with its inverse, so
 * that a rendered list is shown to determine the list it came from.
 */
module Text {

  /** The separator both list columns are joined with. */
  const Separator: string := ", "

  /** `xs.join(sep)`: the elements with `sep` between neighbours. */
  function Join(xs: seq<string>, sep: string): string
    decreases |xs|
  {
    if |xs| == 0 then ""
    else if |xs| == 1 then xs[0]
    else xs[0] + sep + Join(xs[1..], sep)
  }

  /** The summed length of the strings of `xs`. */
  function TotalLength(xs: seq<string>): nat
    decreases |xs|
  {
    if |xs| == 0 then 0 else |xs[0]| + TotalLength(xs[1..])
  }

  /**
   * The shape of `xs.join(sep)`: empty for an empty list; otherwise it starts
   * with the first element, ends with the last, and is as long as all
   * elements plus one separator between each two neighbours.
   */
  lemma {:induction false} JoinShape(xs: seq<string>, sep: string)
    ensures |xs| == 0 ==> Join(xs, sep) == ""
    ensures |xs| > 0 ==> |xs[0]| <= |Join(xs, sep)| && Join(xs, sep)[..|xs[0]|] == xs[0]
    ensures |xs| > 0 ==>
      |xs[|xs| - 1]| <= |Join(xs, sep)| && Join(xs, sep)[|Join(xs, sep)| - |xs[|xs| - 1]|..] == xs[|xs| - 1]
    ensures |xs| > 0 ==> |Join(xs, sep)| == TotalLength(xs) + (|xs| - 1) * |sep|
    decreases |xs|
  {
    if |xs| > 1 {
      var rest := Join(xs[1..], sep);
      JoinShape(xs[1..], sep);
      assert xs[1..][|xs[1..]| - 1] == xs[|xs| - 1];
      assert Join(xs, sep) == xs[0] + sep + rest;
    }
  }

  /** Position of the first `c` in `s`, or `|s|` when there is none. */
  function IndexOf(s: string, c: char): (p: nat)
    ensures p <= |s|
    ensures p < |s| ==> s[p] == c
    ensures forall k :: 0 <= k < p ==> s[k] != c
  {
    if |s| == 0 then 0
    else if s[0] == c then 0
    else 1 + IndexOf(s[1..], c)
  }

  /**
   * Cuts `s` at every occurrence of the separator's first character, skipping
   * the separator's length after each cut. On strings whose pieces do not
   * contain that character it undoes `Join` (lemma SplitJoin).
   */
  function Split(s: string, sep: string): (r: seq<string>)
    requires |sep| > 0
    ensures |r| > 0
    decreases |s|
  {
    var p := IndexOf(s, sep[0]);
    if p == |s| then [s]
    else [s[..p]] + Split(s[if p + |sep| <= |s| then p + |sep| else |s|..], sep)
  }

  /** No element of `xs` contains the character `c`. */
  predicate FreeOf(xs: seq<string>, c: char)
  {
    forall k :: 0 <= k < |xs| ==> c !in xs[k]
  }

  lemma {:induction false} SplitJoin(xs: seq<string>, sep: string)
    requires |sep| > 0 && |xs| > 0
    requires FreeOf(xs, sep[0])
    ensures Split(Join(xs, sep), sep) == xs
    decreases |xs|
  {
    var s := Join(xs, sep);
    var p := IndexOf(s, sep[0]);
    if |xs| == 1 {
      assert s == xs[0];
    } else {
      var x, rest := xs[0], Join(xs[1..], sep);
      assert s == x + sep + rest;
      assert s[|x|] == sep[0];
      assert p == |x|;
      assert s[..p] == x;
      assert s[p + |sep|..] == rest;
      assert FreeOf(xs[1..], sep[0]) by {
        forall k | 0 <= k < |xs[1..]| ensures sep[0] !in xs[1..][k] {
          assert xs[1..][k] == xs[k + 1];
        }
      }
      SplitJoin(xs[1..], sep);
      assert Split(s, sep) == [x] + xs[1..];
    }
  }

  /** An empty list and a list holding one empty string render alike. */
  lemma JoinEmptyAmbiguous(sep: string)
    ensures Join([], sep) == Join([""], sep) == ""
  {
  }

  /** The decimal digit for `d`. */
  function Digit(d: nat): char
    requires d < 10
  {
    "0123456789"[d]
  }

  /** The value of a decimal digit (0 for any other character). */
  function DigitValue(c: char): nat
  {
    if '0' <= c <= '9' then (c as int - '0' as int) as nat else 0
  }

  /** `String(n)` for an unsigned integer: its decimal digits, no leading zero. */
  function NatToDecimal(n: nat): (s: string)
    ensures |s| > 0
    ensures forall k :: 0 <= k < |s| ==> '0' <= s[k] <= '9'
    ensures |s| > 1 ==> s[0] != '0'
  {
    if n < 10 then [Digit(n)] else NatToDecimal(n / 10) + [Digit(n % 10)]
  }

  /** The value of a string of decimal digits. */
  function DecimalToNat(s: string): nat
  {
    if |s| == 0 then 0 else 10 * DecimalToNat(s[..|s| - 1]) + DigitValue(s[|s| - 1])
  }

  lemma {:induction false} DecimalRoundTrip(n: nat)
    ensures DecimalToNat(NatToDecimal(n)) == n
  {
    var s := NatToDecimal(n);
    if n < 10 {
      assert s[..|s| - 1] == [];
      assert DigitValue(Digit(n)) == n;
    } else {
      assert s[..|s| - 1] == NatToDecimal(n / 10);
      assert DigitValue(Digit(n % 10)) == n % 10;
      DecimalRoundTrip(n / 10);
    }
  }

  /** Each number of `ns` rendered in decimal, in order. */
  function Decimals(ns: seq<nat>): (r: seq<string>)
    ensures |r| == |ns|
    ensures forall k :: 0 <= k < |r| ==> r[k] == NatToDecimal(ns[k])
  {
    seq(|ns|, k requires 0 <= k < |ns| => NatToDecimal(ns[k]))
  }

  /** Each string of `ss` read as a decimal number, in order. */
  function Values(ss: seq<string>): (r: seq<nat>)
    ensures |r| == |ss|
    ensures forall k :: 0 <= k < |r| ==> r[k] == DecimalToNat(ss[k])
  {
    seq(|ss|, k requires 0 <= k < |ss| => DecimalToNat(ss[k]))
  }

  /** A list of addresses rendered by `join(', ')`; it gives back the list. */
  lemma JoinedListRecoverable(xs: seq<string>)
    requires |xs| > 0 && FreeOf(xs, ',')
    ensures Split(Join(xs, Separator), Separator) == xs
  {
    SplitJoin(xs, Separator);
  }

  /** A split list rendered by `join(', ')`; it gives back the numbers. */
  lemma JoinedNumbersRecoverable(ns: seq<nat>)
    requires |ns| > 0
    ensures Values(Split(Join(Decimals(ns), Separator), Separator)) == ns
  {
    var ds := Decimals(ns);
    assert FreeOf(ds, ',');
    SplitJoin(ds, Separator);
    forall k | 0 <= k < |ns| ensures Values(ds)[k] == ns[k] {
      DecimalRoundTrip(ns[k]);
    }
  }
}
