/** String helpers shared by both statement builders: the slice `join` both
    builders call, and the decimal rendering used by `format!("${}", n)`. */
module Text {

  /** The items of `xs` with `sep` between neighbours, as a slice `join` gives. */
  function Join(sep: string, xs: seq<string>): string
    decreases |xs|
  {
    if |xs| == 0 then ""
    else if |xs| == 1 then xs[0]
    else xs[0] + sep + Join(sep, xs[1..])
  }

  /** Where item `k` of `xs` starts inside `Join(sep, xs)`. */
  function ItemOffset(sep: string, xs: seq<string>, k: nat): nat
    requires k <= |xs|
    decreases k
  {
    if k == 0 then 0 else |xs[0]| + |sep| + ItemOffset(sep, xs[1..], k - 1)
  }

  /** A slice of the part after `head` is a slice of the whole, shifted by
      the length of `head`. */
  lemma SliceAfter(head: string, t: string, lo: nat, hi: nat)
    requires lo <= hi <= |t|
    ensures (head + t)[|head| + lo..|head| + hi] == t[lo..hi]
  {
  }

  /** The first item and the separator after it open the joined text. */
  lemma JoinHead(x: string, sep: string, tail: string)
    ensures (x + sep + tail)[..|x|] == x
    ensures (x + sep + tail)[|x|..|x| + |sep|] == sep
  {
    assert (x + sep + tail)[..|x|] == x;
    assert (x + sep + tail)[|x|..|x| + |sep|] == sep;
  }

  /** Every item occurs, unchanged and in order, at its offset in the joined
      text, and is followed by the separator unless it is the last one. */
  lemma {:induction false} JoinItemAt(sep: string, xs: seq<string>, k: nat)
    requires k < |xs|
    ensures ItemOffset(sep, xs, k) + |xs[k]| <= |Join(sep, xs)|
    ensures Join(sep, xs)[ItemOffset(sep, xs, k)..ItemOffset(sep, xs, k) + |xs[k]|] == xs[k]
    ensures k + 1 < |xs| ==>
      ItemOffset(sep, xs, k) + |xs[k]| + |sep| <= |Join(sep, xs)| &&
      Join(sep, xs)[ItemOffset(sep, xs, k) + |xs[k]|..ItemOffset(sep, xs, k) + |xs[k]| + |sep|] == sep
    decreases k
  {
    if |xs| == 1 {
    } else {
      var rest := xs[1..];
      var head := xs[0] + sep;
      var tail := Join(sep, rest);
      assert Join(sep, xs) == head + tail;
      if k == 0 {
        JoinHead(xs[0], sep, tail);
      } else {
        JoinItemAt(sep, rest, k - 1);
        var o := ItemOffset(sep, rest, k - 1);
        assert ItemOffset(sep, xs, k) == |head| + o;
        assert rest[k - 1] == xs[k];
        SliceAfter(head, tail, o, o + |xs[k]|);
        if k + 1 < |xs| {
          SliceAfter(head, tail, o + |xs[k]|, o + |xs[k]| + |sep|);
        }
      }
    }
  }

  /** The same with text before and after the joined items. */
  lemma JoinItemWithin(pre: string, sep: string, xs: seq<string>, post: string, k: nat)
    requires k < |xs|
    ensures |pre| + ItemOffset(sep, xs, k) + |xs[k]| <= |pre + Join(sep, xs) + post|
    ensures (pre + Join(sep, xs) + post)[|pre| + ItemOffset(sep, xs, k)..|pre| + ItemOffset(sep, xs, k) + |xs[k]|]
         == xs[k]
  {
    JoinItemAt(sep, xs, k);
    var j := Join(sep, xs);
    var o := ItemOffset(sep, xs, k);
    assert (pre + j + post)[|pre|..|pre| + |j|] == j;
    assert (pre + j + post)[|pre| + o..|pre| + o + |xs[k]|] == j[o..o + |xs[k]|];
  }

  /** The length of a joined text: all item lengths plus one separator
      between each pair of neighbours. */
  function TotalLength(xs: seq<string>): nat
    decreases |xs|
  {
    if |xs| == 0 then 0 else |xs[0]| + TotalLength(xs[1..])
  }

  lemma {:induction false} JoinLength(sep: string, xs: seq<string>)
    requires |xs| > 0
    ensures |Join(sep, xs)| == TotalLength(xs) + (|xs| - 1) * |sep|
    decreases |xs|
  {
    if |xs| > 1 {
      JoinLength(sep, xs[1..]);
    }
  }

  /** The ASCII digit for `d`. */
  function DigitChar(d: nat): (c: char)
    requires d < 10
  {
    ('0' as int + d) as char
  }

  predicate IsDigits(s: string)
  {
    forall i :: 0 <= i < |s| ==> '0' <= s[i] <= '9'
  }

  /** Decimal text of `n`, the way `format!("{}", n)` prints a non-negative
      integer: at least one digit and no leading zero. */
  function NatToString(n: nat): (r: string)
    ensures |r| >= 1 && IsDigits(r)
    ensures n > 0 ==> r[0] != '0'
    decreases n
  {
    if n < 10 then [DigitChar(n)] else NatToString(n / 10) + [DigitChar(n % 10)]
  }

  /** The number a string of decimal digits denotes. */
  function DecimalValue(s: string): nat
    requires IsDigits(s)
    decreases |s|
  {
    if |s| == 0 then 0
    else DecimalValue(s[..|s| - 1]) * 10 + (s[|s| - 1] as int - '0' as int)
  }

  /** Reading back the decimal text gives the number. */
  lemma {:induction false} DecimalRoundTrip(n: nat)
    ensures DecimalValue(NatToString(n)) == n
    decreases n
  {
    if n >= 10 {
      DecimalRoundTrip(n / 10);
      var r := NatToString(n);
      assert r[..|r| - 1] == NatToString(n / 10);
    }
  }

  /** Different numbers never print the same. */
  lemma NatToStringInjective(a: nat, b: nat)
    requires NatToString(a) == NatToString(b)
    ensures a == b
  {
    DecimalRoundTrip(a);
    DecimalRoundTrip(b);
  }
}
