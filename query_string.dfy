/**
 * The string pieces shared by every request builder: joining a list of
 * parts with a separator (the `&` loop of the builders and Rust's
 * `join(" ")`), its inverse `Split`, and the decimal rendering that
 * `format!("{}", n)` gives a positive integer.
 */
module QueryString {

  /** `parts` joined with `sep` between consecutive parts, and nowhere else. */
  function Joined(parts: seq<string>, sep: char): (joined: string)
    ensures |parts| > 0 ==> parts[0] <= joined
    ensures |parts| == 0 ==> joined == ""
  {
    if |parts| == 0 then ""
    else if |parts| == 1 then parts[0]
    else Joined(parts[..|parts| - 1], sep) + [sep] + parts[|parts| - 1]
  }

  /** The value of the builders' shared loop: push `&` before every argument but the first. */
  method JoinQuery(args: seq<string>) returns (query: string)
    ensures query == Joined(args, '&')
  {
    query := "";
    for i := 0 to |args|
      invariant query == Joined(args[..i], '&')
    {
      if i > 0 {
        query := query + "&";
      }
      query := query + args[i];
      assert args[..i + 1][..i] == args[..i];
    }
    assert args[..|args|] == args;
  }

  /** The fields of `s` between occurrences of `sep`; a string always has at least one field. */
  function Split(s: string, sep: char): (fields: seq<string>)
    ensures |fields| >= 1
  {
    if |s| == 0 then [""]
    else
      var rest := Split(s[1..], sep);
      if s[0] == sep then [""] + rest
      else [[s[0]] + rest[0]] + rest[1..]
  }

  /** How often `c` occurs in all of `parts` together. */
  function CountIn(parts: seq<string>, c: char): nat
  {
    if |parts| == 0 then 0
    else CountIn(parts[..|parts| - 1], c) + multiset(parts[|parts| - 1])[c]
  }

  /** No part contains the separator. */
  predicate Free(parts: seq<string>, sep: char)
  {
    forall i :: 0 <= i < |parts| ==> sep !in parts[i]
  }

  /** Splitting at one separator splits the two sides independently. */
  lemma {:induction false} SplitAround(x: string, y: string, sep: char)
    ensures Split(x + [sep] + y, sep) == Split(x, sep) + Split(y, sep)
  {
    if |x| == 0 {
      assert x + [sep] + y == [sep] + y;
      assert ([sep] + y)[1..] == y;
    } else {
      assert (x + [sep] + y)[1..] == x[1..] + [sep] + y;
      SplitAround(x[1..], y, sep);
    }
  }

  /** A string without the separator is one field. */
  lemma {:induction false} SplitFree(y: string, sep: char)
    requires sep !in y
    ensures Split(y, sep) == [y]
  {
    if |y| > 0 {
      assert sep !in y[1..];
      SplitFree(y[1..], sep);
      assert [y[0]] + y[1..] == y;
    }
  }

  /** Round trip: splitting a join of separator-free parts gives the parts back. */
  lemma {:induction false} SplitJoined(parts: seq<string>, sep: char)
    requires |parts| > 0
    requires Free(parts, sep)
    ensures Split(Joined(parts, sep), sep) == parts
  {
    var n := |parts|;
    if n == 1 {
      SplitFree(parts[0], sep);
    } else {
      var init := parts[..n - 1];
      assert Free(init, sep);
      SplitJoined(init, sep);
      SplitAround(Joined(init, sep), parts[n - 1], sep);
      SplitFree(parts[n - 1], sep);
      assert init + [parts[n - 1]] == parts;
    }
  }

  /** The join holds the separators of the parts plus exactly one between each consecutive pair. */
  lemma {:induction false} SeparatorCount(parts: seq<string>, sep: char)
    ensures |parts| > 0 ==> multiset(Joined(parts, sep))[sep] == CountIn(parts, sep) + |parts| - 1
    ensures |parts| == 0 ==> Joined(parts, sep) == ""
  {
    var n := |parts|;
    if n == 1 {
      assert parts[..0] == [];
    } else if n > 1 {
      SeparatorCount(parts[..n - 1], sep);
    }
  }

  /** The join starts with the first part and ends with the last: no leading or trailing separator is added. */
  lemma {:induction false} JoinedEnds(parts: seq<string>, sep: char)
    requires |parts| > 0
    ensures parts[0] <= Joined(parts, sep)
    ensures |parts[|parts| - 1]| <= |Joined(parts, sep)|
    ensures Joined(parts, sep)[|Joined(parts, sep)| - |parts[|parts| - 1]|..] == parts[|parts| - 1]
  {
    var n := |parts|;
    if n > 1 {
      JoinedEnds(parts[..n - 1], sep);
      assert parts[..n - 1][0] == parts[0];
      var j := Joined(parts[..n - 1], sep);
      assert Joined(parts, sep) == j + [sep] + parts[n - 1];
      assert (j + [sep] + parts[n - 1])[..|parts[0]|] == j[..|parts[0]|];
    }
  }

  /** A join of two parts, written out. */
  lemma JoinedPair(a: string, b: string, sep: char)
    ensures Joined([a, b], sep) == a + [sep] + b
  {
  }

  // -------------------------------------------------------- decimal numbers

  predicate IsDigit(c: char) {
    '0' <= c <= '9'
  }

  function DigitChar(d: nat): (c: char)
    requires d < 10
    ensures IsDigit(c)
  {
    ['0', '1', '2', '3', '4', '5', '6', '7', '8', '9'][d]
  }

  function DigitValue(c: char): (d: nat)
    requires IsDigit(c)
    ensures d < 10
  {
    (c as int - '0' as int) as nat
  }

  /** `format!("{}", n)` for a non-negative integer: its decimal digits, most significant first. */
  function Decimal(n: nat): (s: string)
    ensures |s| > 0
    ensures forall i :: 0 <= i < |s| ==> IsDigit(s[i])
    decreases n
  {
    if n < 10 then [DigitChar(n)]
    else Decimal(n / 10) + [DigitChar(n % 10)]
  }

  /** Reads back a string of decimal digits. */
  function ParseDecimal(s: string): nat
    requires forall i :: 0 <= i < |s| ==> IsDigit(s[i])
  {
    if |s| == 0 then 0
    else ParseDecimal(s[..|s| - 1]) * 10 + DigitValue(s[|s| - 1])
  }

  /** The rendering is non-empty, all digits, without a leading zero, and reads back as `n`. */
  lemma {:induction false} DecimalRoundTrip(n: nat)
    ensures |Decimal(n)| > 0
    ensures forall i :: 0 <= i < |Decimal(n)| ==> IsDigit(Decimal(n)[i])
    ensures n > 0 ==> Decimal(n)[0] != '0'
    ensures ParseDecimal(Decimal(n)) == n
  {
    if n >= 10 {
      DecimalRoundTrip(n / 10);
      var s := Decimal(n / 10);
      assert (s + [DigitChar(n % 10)])[..|s|] == s;
    }
  }
}
