/**
 The bits of Python string handling the modelled code relies on: `sep.join(items)` and
 `str(n)` for an integer, each with an inverse that recovers what was rendered.
 */
module Text {

  /** Python's `sep.join(items)`: every character of the result comes from an item or from `sep`. */
  function Join(items: seq<string>, sep: string): (r: string)
    decreases |items|
    ensures forall c :: c in r ==> c in sep || exists k :: 0 <= k < |items| && c in items[k]
  {
    if |items| == 0 then ""
    else if |items| == 1 then items[0]
    else items[0] + sep + Join(items[1..], sep)
  }

  /** The position of the first `c` in `s`, or `|s|` when `s` has none. */
  function IndexOf(s: string, c: char): (i: nat)
    decreases |s|
    ensures i <= |s|
    ensures i < |s| ==> s[i] == c
    ensures forall k :: 0 <= k < i ==> s[k] != c
    ensures i == |s| <==> c !in s
  {
    if |s| == 0 then 0
    else if s[0] == c then 0
    else 1 + IndexOf(s[1..], c)
  }

  lemma {:induction false} IndexOfAfter(a: string, b: string, c: char)
    requires c !in a
    ensures IndexOf(a + b, c) == |a| + IndexOf(b, c)
    decreases |a|
  {
    if |a| > 0 {
      assert (a + b)[0] == a[0];
      assert (a + b)[1..] == a[1..] + b;
      IndexOfAfter(a[1..], b, c);
    } else {
      assert a + b == b;
    }
  }

  /** Splits a string at every ", ": the inverse of `Join(_, ", ")` for items without commas. */
  function SplitJoined(s: string): (r: seq<string>)
    decreases |s|
    ensures |r| > 0
  {
    var i := IndexOf(s, ',');
    if i == |s| then [s]
    else [s[..i]] + SplitJoined(s[if i + 2 <= |s| then i + 2 else |s|..])
  }

  /** True when no item contains a comma, so that joining with ", " can be undone. */
  predicate CommaFree(items: seq<string>)
  {
    forall k :: 0 <= k < |items| ==> ',' !in items[k]
  }

  lemma SplitAfterFirst(first: string, rest: string)
    requires ',' !in first
    ensures SplitJoined(first + ", " + rest) == [first] + SplitJoined(rest)
  {
    var s := first + ", " + rest;
    assert s == first + (", " + rest);
    IndexOfAfter(first, ", " + rest, ',');
    assert IndexOf(s, ',') == |first|;
    assert s[..|first|] == first;
    assert s[|first| + 2..] == rest;
  }

  lemma {:induction false} SplitJoinRoundTrip(items: seq<string>)
    requires |items| > 0 && CommaFree(items)
    ensures SplitJoined(Join(items, ", ")) == items
    decreases |items|
  {
    if |items| == 1 {
      assert IndexOf(items[0], ',') == |items[0]|;
    } else {
      var tail := items[1..];
      assert CommaFree(tail) by {
        forall k | 0 <= k < |tail| ensures ',' !in tail[k] {
          assert tail[k] == items[k + 1];
        }
      }
      assert Join(items, ", ") == items[0] + ", " + Join(tail, ", ");
      calc {
        SplitJoined(Join(items, ", "));
        { SplitAfterFirst(items[0], Join(tail, ", ")); }
        [items[0]] + SplitJoined(Join(tail, ", "));
        { SplitJoinRoundTrip(tail); }
        [items[0]] + tail;
      }
      assert items == [items[0]] + tail;
    }
  }

  /** The decimal digit character for `d`. */
  function DigitChar(d: nat): (c: char)
    requires d < 10
    ensures '0' <= c <= '9'
  {
    (('0' as int) + d) as char
  }

  /** The value of a decimal digit character; 0 for any other character. */
  function DigitValue(c: char): nat
  {
    if '0' <= c <= '9' then (c as int) - ('0' as int) else 0
  }

  /** A non-empty string of decimal digits with no leading zero ("0" itself excepted). */
  predicate DecimalDigits(s: string)
  {
    && |s| > 0
    && (forall k :: 0 <= k < |s| ==> '0' <= s[k] <= '9')
    && (|s| > 1 ==> s[0] != '0')
  }

  /** Python's `str(n)` for a non-negative integer: its decimal digits, no leading zeros. */
  function NatToString(n: nat): (s: string)
    decreases n
    ensures |s| > 0
    ensures forall k :: 0 <= k < |s| ==> '0' <= s[k] <= '9'
    ensures |s| > 1 ==> s[0] != '0'
    ensures n > 0 ==> s[0] != '0'
  {
    if n < 10 then [DigitChar(n)]
    else NatToString(n / 10) + [DigitChar(n % 10)]
  }

  /** Reads a sequence of decimal digits. */
  function StringToNat(s: string): nat
    decreases |s|
  {
    if |s| == 0 then 0
    else StringToNat(s[..|s| - 1]) * 10 + DigitValue(s[|s| - 1])
  }

  lemma {:induction false} NatToStringRoundTrip(n: nat)
    ensures StringToNat(NatToString(n)) == n
    decreases n
  {
    if n >= 10 {
      var s := NatToString(n);
      var d := DigitChar(n % 10);
      assert s == NatToString(n / 10) + [d];
      assert s[..|s| - 1] == NatToString(n / 10);
      assert DigitValue(d) == n % 10;
      NatToStringRoundTrip(n / 10);
    }
  }

  /** The text `str` gives for some integer: an optional minus sign, then digits that are not "0" when signed. */
  predicate IntText(s: string)
  {
    if |s| > 0 && s[0] == '-' then DecimalDigits(s[1..]) && s[1..] != "0" else DecimalDigits(s)
  }

  /** Python's `str(i)` for an integer: a minus sign before the digits of a negative one. */
  function IntToString(i: int): (s: string)
    ensures IntText(s)
    ensures s[0] == '-' <==> i < 0
  {
    if i < 0 then
      var d := NatToString(-i);
      assert ("-" + d)[1..] == d;
      "-" + d
    else NatToString(i)
  }

  /** Reads an optional minus sign followed by decimal digits. */
  function ParseInt(s: string): int
  {
    if |s| > 0 && s[0] == '-' then -(StringToNat(s[1..]) as int) else StringToNat(s)
  }

  /** A digit string that does not start with '0' denotes a positive number. */
  lemma {:induction false} StringToNatPositive(s: string)
    requires |s| > 0 && s[0] != '0' && forall k :: 0 <= k < |s| ==> '0' <= s[k] <= '9'
    ensures StringToNat(s) > 0
    decreases |s|
  {
    if |s| > 1 {
      StringToNatPositive(s[..|s| - 1]);
    }
  }

  /** Every canonical digit string is `str` of the number it denotes. */
  lemma {:induction false} DecimalDigitsRoundTrip(s: string)
    requires DecimalDigits(s)
    ensures NatToString(StringToNat(s)) == s
    decreases |s|
  {
    var c := s[|s| - 1];
    if |s| > 1 {
      var init := s[..|s| - 1];
      assert DecimalDigits(init);
      StringToNatPositive(init);
      DecimalDigitsRoundTrip(init);
      var n := StringToNat(s);
      assert n / 10 == StringToNat(init) && n % 10 == DigitValue(c);
      assert DigitChar(DigitValue(c)) == c;
      assert s == init + [c];
    } else {
      assert DigitChar(DigitValue(c)) == c;
      assert s == [c];
    }
  }

  /** The converse of IntToStringRoundTrip: every text of `str`'s form is `str` of its value. */
  lemma IntTextRoundTrip(s: string)
    requires IntText(s)
    ensures IntToString(ParseInt(s)) == s
  {
    if |s| > 0 && s[0] == '-' {
      var d := s[1..];
      assert DecimalDigits(d) && d != "0";
      var n: int := StringToNat(d);
      assert n > 0 by {
        StringToNatPositive(d);
      }
      assert ParseInt(s) == -n;
      assert IntToString(-n) == "-" + NatToString(n as nat);
      DecimalDigitsRoundTrip(d);
      assert s == "-" + d;
    } else {
      DecimalDigitsRoundTrip(s);
    }
  }

  lemma IntToStringRoundTrip(i: int)
    ensures ParseInt(IntToString(i)) == i
  {
    if i < 0 {
      var s := IntToString(i);
      assert s[1..] == NatToString(-i);
      NatToStringRoundTrip(-i);
    } else {
      NatToStringRoundTrip(i);
    }
  }
}
