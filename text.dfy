/** String helpers the integration relies on: decimal formatting of bus ids
    (Python's f-string `{bus_id}`), its inverse, and `entry_id.split('-')[0]`. */
module Text {
  import opened Wrappers

  predicate IsDigit(c: char) { '0' <= c <= '9' }

  predicate AllDigits(s: string) { forall i :: 0 <= i < |s| ==> IsDigit(s[i]) }

  function DigitChar(d: nat): (c: char)
    requires d < 10
    ensures IsDigit(c)
  {
    ['0', '1', '2', '3', '4', '5', '6', '7', '8', '9'][d]
  }

  function DigitValue(c: char): (d: nat)
    requires IsDigit(c)
    ensures d < 10
  {
    (c as int - '0' as int) as nat
  }

  /** Decimal rendering of a natural number, most significant digit first. */
  function NatToString(n: nat): (s: string)
    ensures |s| >= 1 && AllDigits(s)
  {
    if n < 10 then [DigitChar(n)] else NatToString(n / 10) + [DigitChar(n % 10)]
  }

  /** Python's `str(i)` for an int: a minus sign before the digits when negative. */
  function IntToString(i: int): (s: string)
    ensures |s| >= 1 && forall k :: 0 <= k < |s| ==> s[k] == '-' || IsDigit(s[k])
  {
    if i < 0 then "-" + NatToString(-i) else NatToString(i)
  }

  /** The value of a non-empty string of decimal digits. */
  function DigitsValue(s: string): nat
    requires AllDigits(s)
  {
    if s == [] then 0 else DigitsValue(s[..|s| - 1]) * 10 + DigitValue(s[|s| - 1])
  }

  /** Parses an optionally signed decimal integer; None for anything else. */
  function ParseInt(s: string): Option<int> {
    if |s| >= 2 && s[0] == '-' && AllDigits(s[1..]) then Some(-(DigitsValue(s[1..]) as int))
    else if |s| >= 1 && AllDigits(s) then Some(DigitsValue(s))
    else None
  }

  lemma {:induction false} DigitsValueOfNatToString(n: nat)
    ensures DigitsValue(NatToString(n)) == n
  {
    var s := NatToString(n);
    if n < 10 {
      assert s[..|s| - 1] == [];
    } else {
      var prefix := NatToString(n / 10);
      assert s == prefix + [DigitChar(n % 10)];
      assert s[..|s| - 1] == prefix;
      DigitsValueOfNatToString(n / 10);
    }
  }

  /** ParseInt is the inverse of IntToString: the bus id in a URL can be read back. */
  lemma ParseIntToString(i: int)
    ensures ParseInt(IntToString(i)) == Some(i)
  {
    var s := IntToString(i);
    if i < 0 {
      var digits := NatToString(-i);
      assert s[1..] == digits;
      assert |s| >= 2 && s[0] == '-' && AllDigits(s[1..]);
      DigitsValueOfNatToString(-i);
    } else {
      assert IsDigit(s[0]);
      DigitsValueOfNatToString(i);
    }
  }

  /** Formatting distinct ids gives distinct strings. */
  lemma IntToStringInjective(i: int, j: int)
    requires i != j
    ensures IntToString(i) != IntToString(j)
  {
    ParseIntToString(i);
    ParseIntToString(j);
  }

  /** `s.split('-')[0]`: the part of the entry id before its first '-',
      or all of it when it has none. */
  function EntryShort(s: string): (r: string)
    ensures '-' !in r
    ensures |r| <= |s| && r == s[..|r|]
    ensures |r| < |s| ==> s[|r|] == '-'
  {
    if s == [] || s[0] == '-' then [] else [s[0]] + EntryShort(s[1..])
  }

  /** The three properties in EntryShort's contract pin the result down: any
      prefix free of '-' that stops at a '-' or at the end is that result. */
  lemma {:induction false} EntryShortUnique(s: string, r: string)
    requires '-' !in r && |r| <= |s| && r == s[..|r|]
    requires |r| < |s| ==> s[|r|] == '-'
    ensures r == EntryShort(s)
  {
  }

  /** Appending different tails to the same head keeps strings apart. */
  lemma AppendDistinct(head: string, a: string, b: string)
    requires a != b
    ensures head + a != head + b
  {
    assert (head + a)[|head|..] == a;
    assert (head + b)[|head|..] == b;
  }

  /** A number written out never contains the separator `_`. */
  lemma NoUnderscoreInInt(i: int)
    ensures '_' !in IntToString(i)
  {
  }

  /** In `head + x + tail`, with `x` free of `sep` and `tail` starting with
      `sep`, the first `sep` after `head` is right after `x`. */
  lemma FirstSeparator(head: string, x: string, tail: string, sep: char)
    requires sep !in x && |tail| > 0 && tail[0] == sep
    ensures (head + x + tail)[|head| + |x|] == sep
    ensures forall k :: |head| <= k < |head| + |x| ==> (head + x + tail)[k] != sep
  {
    forall k | |head| <= k < |head| + |x|
      ensures (head + x + tail)[k] != sep
    {
      assert (head + x + tail)[k] == x[k - |head|];
    }
  }

  /** Two strings `head + x + tail` whose middle part is free of `sep` and
      whose tail starts with `sep` split the same way: middles and tails agree. */
  lemma SplitAtSeparator(head: string, x: string, tail1: string, y: string, tail2: string, sep: char)
    requires sep !in x && sep !in y
    requires |tail1| > 0 && tail1[0] == sep && |tail2| > 0 && tail2[0] == sep
    requires head + x + tail1 == head + y + tail2
    ensures x == y && tail1 == tail2
  {
    var s := head + x + tail1;
    FirstSeparator(head, x, tail1, sep);
    FirstSeparator(head, y, tail2, sep);
    assert |x| == |y|;
    assert x == s[|head|..|head| + |x|];
  }
}
