/**
 * The two pieces of JavaScript string behaviour the pipeline relies on:
 * `String.prototype.split` on a one-character separator, and
 * `Number.prototype.toString` on an integer.
 */
module Strings {

  /** How many times `ch` occurs in `s`. */
  function Count(s: string, ch: char): (n: nat)
    ensures n == 0 <==> ch !in s
    decreases |s|
  {
    if s == [] then 0
    else (if s[0] == ch then 1 else 0) + Count(s[1..], ch)
  }

  /**
   * `s.split(sep)`: the pieces between occurrences of `sep`, in order, with
   * empty pieces kept (so `"".split(sep)` is `[""]` and `"a::b"` gives three).
   */
  function Split(s: string, sep: char): (parts: seq<string>)
    ensures |parts| >= 1
    ensures forall i :: 0 <= i < |parts| ==> sep !in parts[i]
    decreases |s|
  {
    if s == [] then [""]
    else
      var rest := Split(s[1..], sep);
      if s[0] == sep then [""] + rest
      else [[s[0]] + rest[0]] + rest[1..]
  }

  /** `parts.join(sep)`: the pieces with one `sep` between neighbours. */
  function Join(parts: seq<string>, sep: char): string
    requires |parts| >= 1
    decreases |parts|
  {
    if |parts| == 1 then parts[0] else parts[0] + [sep] + Join(parts[1..], sep)
  }

  /** The separators in all the pieces together. */
  function CountAll(parts: seq<string>, sep: char): (n: nat)
    ensures n == 0 <==> forall i :: 0 <= i < |parts| ==> sep !in parts[i]
    decreases |parts|
  {
    if parts == [] then 0 else Count(parts[0], sep) + CountAll(parts[1..], sep)
  }

  lemma {:induction false} CountAppend(a: string, b: string, ch: char)
    ensures Count(a + b, ch) == Count(a, ch) + Count(b, ch)
    decreases |a|
  {
    if a == [] {
      assert a + b == b;
    } else {
      assert (a + b)[1..] == a[1..] + b;
      CountAppend(a[1..], b, ch);
    }
  }

  /** Splitting yields one piece more than there are separators. */
  lemma {:induction false} SplitLength(s: string, sep: char)
    ensures |Split(s, sep)| == Count(s, sep) + 1
    decreases |s|
  {
    if s != [] {
      SplitLength(s[1..], sep);
    }
  }

  /** Joining puts exactly `|parts| - 1` separators between the pieces. */
  lemma {:induction false} JoinCount(parts: seq<string>, sep: char)
    requires |parts| >= 1
    ensures Count(Join(parts, sep), sep) == CountAll(parts, sep) + |parts| - 1
    decreases |parts|
  {
    if |parts| == 1 {
      assert parts[1..] == [];
    } else {
      JoinCount(parts[1..], sep);
      CountAppend(parts[0], [sep], sep);
      CountAppend(parts[0] + [sep], Join(parts[1..], sep), sep);
      assert Count([sep], sep) == 1 by {
        assert [sep][1..] == [];
      }
    }
  }

  /** A piece free of the separator glues onto the front of the first piece. */
  lemma {:induction false} SplitPrefix(w: string, t: string, sep: char)
    requires sep !in w
    ensures Split(w + t, sep) == [w + Split(t, sep)[0]] + Split(t, sep)[1..]
    decreases |w|
  {
    if w == [] {
      assert w + t == t;
      assert w + Split(t, sep)[0] == Split(t, sep)[0];
      assert [Split(t, sep)[0]] + Split(t, sep)[1..] == Split(t, sep);
    } else {
      assert (w + t)[1..] == w[1..] + t;
      SplitPrefix(w[1..], t, sep);
      assert [w[0]] + (w[1..] + Split(t, sep)[0]) == w + Split(t, sep)[0];
    }
  }

  /** Splitting undoes joining when no piece contains the separator. */
  lemma {:induction false} SplitJoin(parts: seq<string>, sep: char)
    requires |parts| >= 1
    requires forall i :: 0 <= i < |parts| ==> sep !in parts[i]
    ensures Split(Join(parts, sep), sep) == parts
    decreases |parts|
  {
    if |parts| == 1 {
      SplitPrefix(parts[0], [], sep);
      assert parts[0] + [] == parts[0];
    } else {
      var rest := Join(parts[1..], sep);
      SplitJoin(parts[1..], sep);
      assert parts[0] + [sep] + rest == parts[0] + ([sep] + rest);
      SplitPrefix(parts[0], [sep] + rest, sep);
      assert ([sep] + rest)[1..] == rest;
      assert Split([sep] + rest, sep) == [""] + parts[1..];
      assert parts[0] + "" == parts[0];
    }
  }

  /** A joined string splits back into as many pieces as were joined exactly when no piece held the separator. */
  lemma SplitJoinLength(parts: seq<string>, sep: char)
    requires |parts| >= 1
    ensures |Split(Join(parts, sep), sep)| == |parts| <==> forall i :: 0 <= i < |parts| ==> sep !in parts[i]
  {
    SplitLength(Join(parts, sep), sep);
    JoinCount(parts, sep);
  }

  function DigitChar(d: nat): (c: char)
    requires d < 10
  {
    "0123456789"[d]
  }

  /** The decimal digits of `n`, most significant first, without leading zeros. */
  function NatToDecimal(n: nat): (s: string)
    ensures |s| >= 1
    ensures forall k :: 0 <= k < |s| ==> '0' <= s[k] <= '9'
    ensures n > 0 ==> s[0] != '0'
    ensures |s| > 1 ==> s[0] != '0'
    decreases n
  {
    if n < 10 then [DigitChar(n)] else NatToDecimal(n / 10) + [DigitChar(n % 10)]
  }

  /**
   * `Number.prototype.toString()` of an integer, written out exactly. It
   * agrees with JavaScript only for integers below 2^53 in magnitude, where
   * every digit of the number is significant.
   */
  function IntToDecimal(i: int): (s: string)
  {
    if i < 0 then "-" + NatToDecimal(-i) else NatToDecimal(i)
  }

  /** The number a string of decimal digits denotes. */
  function DecimalValue(s: string): int
    decreases |s|
  {
    if s == [] then 0 else 10 * DecimalValue(s[..|s| - 1]) + (s[|s| - 1] as int - '0' as int)
  }

  /** A digit character stands for its digit. */
  lemma DigitCharValue(d: nat)
    requires d < 10
    ensures DigitChar(d) as int - '0' as int == d
  {
  }

  /** Rendering a natural number in decimal loses nothing. */
  lemma {:induction false} NatToDecimalValue(n: nat)
    ensures DecimalValue(NatToDecimal(n)) == n
    decreases n
  {
    var s := NatToDecimal(n);
    if n < 10 {
      DigitCharValue(n);
      assert s[..|s| - 1] == [];
    } else {
      NatToDecimalValue(n / 10);
      DigitCharValue(n % 10);
      assert s[..|s| - 1] == NatToDecimal(n / 10);
      assert s[|s| - 1] == DigitChar(n % 10);
      assert DecimalValue(s) == 10 * (n / 10) + n % 10;
    }
  }

  /** A rendered integer never contains a key separator, whatever its sign. */
  lemma IntToDecimalHasNoColon(i: int)
    ensures ':' !in IntToDecimal(i)
  {
    var s := IntToDecimal(i);
    if i < 0 {
      assert forall k :: 1 <= k < |s| ==> s[k] == NatToDecimal(-i)[k - 1];
    }
  }
}
