/** JavaScript's conversions between numbers and strings, as the prompt,
    the error messages and the clock-time parser use them: decimal printing
    of integers, Number() on a string of digits, Array.prototype.join and
    String.prototype.indexOf/lastIndexOf for one character. */
module Text {
  import opened Wrappers

  function DigitChar(d: nat): char
    requires d < 10
  {
    "0123456789"[d]
  }

  /** Decimal notation of a natural number, as template literals print it. */
  function NatToString(n: nat): (s: string)
    ensures |s| >= 1 && forall k | 0 <= k < |s| :: '0' <= s[k] <= '9'
    ensures |s| > 1 ==> s[0] != '0'
  {
    if n < 10 then [DigitChar(n)] else NatToString(n / 10) + [DigitChar(n % 10)]
  }

  function IntToString(n: int): string {
    if n < 0 then "-" + NatToString(-n) else NatToString(n)
  }

  /** Reads decimal digits back. */
  function ParseDigits(s: string): int {
    if s == [] then 0 else 10 * ParseDigits(s[..|s| - 1]) + (s[|s| - 1] as int - '0' as int)
  }

  function ParseInt(s: string): int {
    if s != [] && s[0] == '-' then -ParseDigits(s[1..]) else ParseDigits(s)
  }

  /** The printed number reads back as itself. */
  lemma {:induction false} NatToStringRoundTrip(n: nat)
    ensures ParseDigits(NatToString(n)) == n
  {
    if n >= 10 {
      NatToStringRoundTrip(n / 10);
      var s := NatToString(n);
      assert s[..|s| - 1] == NatToString(n / 10);
    }
  }

  lemma IntToStringRoundTrip(n: int)
    ensures ParseInt(IntToString(n)) == n
  {
    if n < 0 {
      NatToStringRoundTrip(-n);
      assert ("-" + NatToString(-n))[1..] == NatToString(-n);
    } else {
      NatToStringRoundTrip(n);
    }
  }

  /** Array.prototype.join. */
  function Join(items: seq<string>, separator: string): (s: string)
    ensures items == [] ==> s == ""
    ensures |items| == 1 ==> s == items[0]
  {
    if items == [] then ""
    else if |items| == 1 then items[0]
    else Join(items[..|items| - 1], separator) + separator + items[|items| - 1]
  }

  /** `a.b.c` joined by `sep` is as long as its parts and separators. */
  function TotalLength(items: seq<string>): nat {
    if items == [] then 0 else TotalLength(items[..|items| - 1]) + |items[|items| - 1]|
  }

  lemma {:induction false} JoinLength(items: seq<string>, separator: string)
    requires items != []
    ensures |Join(items, separator)| == TotalLength(items) + (|items| - 1) * |separator|
  {
    if |items| > 1 {
      JoinLength(items[..|items| - 1], separator);
      assert items[..|items| - 1] != [];
    } else {
      assert items[..0] == [];
    }
  }

  /** Joining puts the first part in front of the join of the rest. */
  lemma {:induction false} JoinCons(head: string, rest: seq<string>, separator: string)
    requires rest != []
    ensures Join([head] + rest, separator) == head + separator + Join(rest, separator)
    decreases |rest|
  {
    var all := [head] + rest;
    if |rest| == 1 {
      assert all[..|all| - 1] == [head];
    } else {
      var n := |rest| - 1;
      assert all[..|all| - 1] == [head] + rest[..n];
      JoinCons(head, rest[..n], separator);
      assert all[|all| - 1] == rest[n];
    }
  }

  function IsDigit(c: char): bool {
    '0' <= c <= '9'
  }

  /** Number() on a clock-time component: a string of decimal digits reads
      as its value (the empty string as zero); anything else is NaN, which
      None stands for. */
  function NumberOf(s: string): (r: Option<nat>)
    ensures r.Some? <==> forall k | 0 <= k < |s| :: IsDigit(s[k])
    ensures r.Some? ==> r.value == ParseDigits(s)
  {
    if forall k | 0 <= k < |s| :: IsDigit(s[k]) then
      DigitsNonNegative(s);
      Some(ParseDigits(s) as nat)
    else None
  }

  lemma {:induction false} DigitsNonNegative(s: string)
    requires forall k | 0 <= k < |s| :: IsDigit(s[k])
    ensures ParseDigits(s) >= 0
  {
    if s != [] {
      DigitsNonNegative(s[..|s| - 1]);
    }
  }

  /** Number() reads the decimal notation of a natural number back. */
  lemma NumberOfNatToString(n: nat)
    ensures NumberOf(NatToString(n)) == Some(n)
  {
    NatToStringRoundTrip(n);
  }

  function FirstIndexOf(s: string, c: char): (r: Option<nat>)
    ensures r.Some? ==> r.value < |s| && s[r.value] == c && forall k | 0 <= k < r.value :: s[k] != c
    ensures r.None? ==> forall k | 0 <= k < |s| :: s[k] != c
  {
    if s == [] then None
    else if s[0] == c then Some(0)
    else
      var rest := FirstIndexOf(s[1..], c);
      if rest.Some? then Some(rest.value + 1) else None
  }

  function LastIndexOf(s: string, c: char): (r: Option<nat>)
    ensures r.Some? ==> r.value < |s| && s[r.value] == c && forall k | r.value < k < |s| :: s[k] != c
    ensures r.None? ==> forall k | 0 <= k < |s| :: s[k] != c
  {
    if s == [] then None
    else if s[|s| - 1] == c then Some(|s| - 1)
    else LastIndexOf(s[..|s| - 1], c)
  }

  /** String.prototype.split on one character: the pieces between the
      occurrences of `c`, none of which contains it. */
  function Split(s: string, c: char): (parts: seq<string>)
    ensures |parts| >= 1
    ensures forall i, k | 0 <= i < |parts| && 0 <= k < |parts[i]| :: parts[i][k] != c
    decreases |s|
  {
    match FirstIndexOf(s, c)
    case None => [s]
    case Some(i) => [s[..i]] + Split(s[i + 1..], c)
  }

  /** Joining the pieces with the separator gives the string back. */
  lemma {:induction false} SplitJoin(s: string, c: char)
    ensures Join(Split(s, c), [c]) == s
    decreases |s|
  {
    match FirstIndexOf(s, c)
    case None =>
    case Some(i) =>
      SplitJoin(s[i + 1..], c);
      JoinCons(s[..i], Split(s[i + 1..], c), [c]);
      assert s == s[..i] + [c] + s[i + 1..];
  }
}
