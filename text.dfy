/** The string primitives the client relies on: the two null-or-blank tests
    of `System.String`, the decimal rendering of an `int` used by string
    interpolation, and `string.Join` with its inverse, a split on one
    separator character.

    A C# `string` that may be null is written as a Dafny `string` in which ""
    stands for null: every test the client applies to such a string
    (`IsNullOrEmpty`, `IsNullOrWhiteSpace`) treats null and "" alike. */
module Text {
  import opened Outcomes

  /** `string.IsNullOrEmpty`. */
  predicate IsNullOrEmpty(s: string) {
    |s| == 0
  }

  /** `char.IsWhiteSpace`: the Unicode space, line and paragraph separators,
      the controls U+0009 to U+000D, and U+0085. */
  predicate IsWhiteSpace(c: char) {
    var n := c as int;
    (0x09 <= n <= 0x0D) || n == 0x20 || n == 0x85 || n == 0xA0 || n == 0x1680 ||
    (0x2000 <= n <= 0x200A) || n == 0x2028 || n == 0x2029 || n == 0x202F ||
    n == 0x205F || n == 0x3000
  }

  /** `string.IsNullOrWhiteSpace`. */
  predicate IsNullOrWhiteSpace(s: string) {
    forall i | 0 <= i < |s| :: IsWhiteSpace(s[i])
  }

  /** The two tests differ exactly on blank, non-empty strings. */
  lemma NullOrEmptyVersusWhiteSpace(s: string)
    ensures IsNullOrEmpty(s) ==> IsNullOrWhiteSpace(s)
    ensures IsNullOrWhiteSpace(s) && !IsNullOrEmpty(s) <==> |s| > 0 && forall i | 0 <= i < |s| :: IsWhiteSpace(s[i])
    ensures IsNullOrWhiteSpace(" ") && !IsNullOrEmpty(" ")
  {
    assert IsWhiteSpace(" "[0]);
  }

  // ---------------------------------------------------------------------
  // Decimal rendering of integers (`{n}` inside an interpolated string and
  // `int.ToString()`, with "-" as the negative sign).

  predicate IsDigit(c: char) {
    '0' <= c <= '9'
  }

  predicate AllDigits(s: string) {
    forall i | 0 <= i < |s| :: IsDigit(s[i])
  }

  function DigitChar(d: nat): (c: char)
    requires d < 10
    ensures IsDigit(c) && c as int - '0' as int == d
  {
    ('0' as int + d) as char
  }

  function DigitValue(c: char): (d: nat)
    requires IsDigit(c)
    ensures d < 10
  {
    c as int - '0' as int
  }

  function NatToString(n: nat): (s: string)
    ensures |s| > 0 && AllDigits(s)
    decreases n
  {
    if n < 10 then [DigitChar(n)] else NatToString(n / 10) + [DigitChar(n % 10)]
  }

  /** The text of `n` as C# interpolation renders an `int`. */
  function IntToString(n: int): (s: string)
    ensures |s| > 0
    ensures forall i | 0 <= i < |s| :: IsDigit(s[i]) || (i == 0 && s[i] == '-')
  {
    if n < 0 then "-" + NatToString(-n) else NatToString(n)
  }

  /** The value of a string of decimal digits, most significant first. */
  function DigitsValue(s: string): nat
    requires AllDigits(s)
    decreases |s|
  {
    if |s| == 0 then 0 else DigitsValue(s[..|s| - 1]) * 10 + DigitValue(s[|s| - 1])
  }

  /** How a receiver reads an optionally signed decimal integer. */
  function ParseInt(s: string): Option<int> {
    if |s| > 1 && s[0] == '-' && AllDigits(s[1..]) then
      var magnitude: int := DigitsValue(s[1..]); Some(-magnitude)
    else if |s| > 0 && AllDigits(s) then Some(DigitsValue(s))
    else None
  }

  lemma {:induction false} NatToStringValue(n: nat)
    ensures DigitsValue(NatToString(n)) == n
    decreases n
  {
    if n >= 10 {
      var s := NatToString(n);
      NatToStringValue(n / 10);
      assert s[..|s| - 1] == NatToString(n / 10);
      assert DigitValue(s[|s| - 1]) == n % 10;
    }
  }

  /** Rendering an integer loses nothing: it reads back as the same integer. */
  lemma {:induction false} IntToStringRoundTrip(n: int)
    ensures ParseInt(IntToString(n)) == Some(n)
  {
    if n < 0 {
      NatToStringValue(-n);
      assert IntToString(n)[1..] == NatToString(-n);
    } else {
      NatToStringValue(n);
      if |NatToString(n)| > 1 {
        assert IsDigit(NatToString(n)[0]);
      }
    }
  }

  /** A rendered integer holds none of the separators of a URI query or of
      a comma-joined list. */
  lemma IntToStringChars(n: int)
    ensures '&' !in IntToString(n) && '=' !in IntToString(n)
    ensures ',' !in IntToString(n) && '?' !in IntToString(n)
  {
  }

  /** Two integers render alike only when they are equal. */
  lemma IntToStringInjective(m: int, n: int)
    ensures IntToString(m) == IntToString(n) ==> m == n
  {
    IntToStringRoundTrip(m);
    IntToStringRoundTrip(n);
  }

  // ---------------------------------------------------------------------
  // `string.Join` with a one-character separator, and its inverse.

  /** `string.Join(sep, parts)`. */
  function Join(parts: seq<string>, sep: char): string
    decreases |parts|
  {
    if |parts| == 0 then ""
    else if |parts| == 1 then parts[0]
    else parts[0] + [sep] + Join(parts[1..], sep)
  }

  /** The pieces of `s` between occurrences of `sep`; the empty string
      splits into one empty piece. */
  function Split(s: string, sep: char): (r: seq<string>)
    ensures |r| > 0
    decreases |s|
  {
    if |s| == 0 then [""]
    else
      var rest := Split(s[1..], sep);
      if s[0] == sep then [""] + rest else [[s[0]] + rest[0]] + rest[1..]
  }

  /** `s` cut at its first `sep`, or `s` and "" when it has none. */
  function SplitFirst(s: string, sep: char): (r: (string, string))
    decreases |s|
  {
    if |s| == 0 then ("", "")
    else if s[0] == sep then ("", s[1..])
    else var rest := SplitFirst(s[1..], sep); ([s[0]] + rest.0, rest.1)
  }

  lemma {:induction false} SplitWithout(p: string, sep: char)
    requires sep !in p
    ensures Split(p, sep) == [p]
    decreases |p|
  {
    if |p| > 0 {
      SplitWithout(p[1..], sep);
      assert [p[0]] + p[1..] == p;
    }
  }

  lemma {:induction false} SplitAfter(p: string, sep: char, t: string)
    requires sep !in p
    ensures Split(p + [sep] + t, sep) == [p] + Split(t, sep)
    decreases |p|
  {
    var s := p + [sep] + t;
    if |p| == 0 {
      assert s[1..] == t;
    } else {
      assert s[1..] == p[1..] + [sep] + t;
      SplitAfter(p[1..], sep, t);
      assert [p[0]] + p[1..] == p;
    }
  }

  /** Splitting undoes joining, provided no part holds the separator. */
  lemma {:induction false} SplitJoin(parts: seq<string>, sep: char)
    requires |parts| > 0
    requires forall i | 0 <= i < |parts| :: sep !in parts[i]
    ensures Split(Join(parts, sep), sep) == parts
    decreases |parts|
  {
    if |parts| == 1 {
      SplitWithout(parts[0], sep);
    } else {
      SplitJoin(parts[1..], sep);
      SplitAfter(parts[0], sep, Join(parts[1..], sep));
      assert [parts[0]] + parts[1..] == parts;
    }
  }

  /** Cutting `k + [sep] + v` at its first separator gives back `k` and `v`. */
  lemma {:induction false} SplitFirstPair(k: string, sep: char, v: string)
    requires sep !in k
    ensures SplitFirst(k + [sep] + v, sep) == (k, v)
    decreases |k|
  {
    var s := k + [sep] + v;
    if |k| == 0 {
      assert s[1..] == v;
    } else {
      assert s[1..] == k[1..] + [sep] + v;
      SplitFirstPair(k[1..], sep, v);
      assert [k[0]] + k[1..] == k;
    }
  }

  /** Joining one more part appends the separator and the part. */
  lemma {:induction false} JoinAppend(parts: seq<string>, last: string, sep: char)
    requires |parts| > 0
    ensures Join(parts + [last], sep) == Join(parts, sep) + [sep] + last
    decreases |parts|
  {
    if |parts| > 1 {
      JoinAppend(parts[1..], last, sep);
      assert (parts + [last])[1..] == parts[1..] + [last];
    }
  }

  /** A character other than the separator is in a join only if some part holds it. */
  lemma {:induction false} JoinWithout(parts: seq<string>, sep: char, c: char)
    requires c != sep
    requires forall i | 0 <= i < |parts| :: c !in parts[i]
    ensures c !in Join(parts, sep)
    decreases |parts|
  {
    if |parts| > 1 {
      JoinWithout(parts[1..], sep, c);
    }
  }

  /** `string.Join(",", ids)` over integers. */
  function JoinInts(ids: seq<int>): string {
    Join(seq(|ids|, i requires 0 <= i < |ids| => IntToString(ids[i])), ',')
  }

  /** How a receiver reads a comma-separated list of integers. */
  function ParseInts(s: string): seq<Option<int>> {
    var pieces := Split(s, ',');
    seq(|pieces|, i requires 0 <= i < |pieces| => ParseInt(pieces[i]))
  }

  /** A non-empty list joined by commas reads back as the same list, in order. */
  lemma JoinIntsRoundTrip(ids: seq<int>)
    requires |ids| > 0
    ensures |ParseInts(JoinInts(ids))| == |ids|
    ensures forall i | 0 <= i < |ids| :: ParseInts(JoinInts(ids))[i] == Some(ids[i])
  {
    var parts := seq(|ids|, i requires 0 <= i < |ids| => IntToString(ids[i]));
    assert forall i | 0 <= i < |parts| :: ',' !in parts[i];
    SplitJoin(parts, ',');
    forall i | 0 <= i < |ids| ensures ParseInt(parts[i]) == Some(ids[i]) {
      IntToStringRoundTrip(ids[i]);
    }
  }

  /** A joined list of integers holds no query-string delimiter. */
  lemma JoinIntsChars(ids: seq<int>)
    ensures '&' !in JoinInts(ids) && '=' !in JoinInts(ids) && '?' !in JoinInts(ids)
  {
    var parts := seq(|ids|, i requires 0 <= i < |ids| => IntToString(ids[i]));
    forall i | 0 <= i < |ids| ensures '&' !in parts[i] && '=' !in parts[i] && '?' !in parts[i] {
      IntToStringChars(ids[i]);
    }
    JoinWithout(parts, ',', '&');
    JoinWithout(parts, ',', '=');
    JoinWithout(parts, ',', '?');
  }
}
