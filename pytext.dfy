/**
 * The few Python `str` operations the statistics pipeline relies on, over Dafny strings
 * (a `char` is one Unicode code point, as a Python `str` is indexed):
 * the `in` substring test, `str.split` / `str.join` on one separator character,
 * `str.isdigit` and `int()` restricted to ASCII decimal digits.
 */
module PyText {
  import opened Wrappers

  // ---------------------------------------------------------------------------
  // `needle in hay`
  // ---------------------------------------------------------------------------

  /** Python's `needle in hay` for strings, scanning `hay` from the left. */
  predicate Contains(hay: string, needle: string)
    decreases |hay|
  {
    if |needle| == 0 then true
    else if |hay| < |needle| then false
    else hay[..|needle|] == needle || Contains(hay[1..], needle)
  }

  /** `needle` occurs in `hay` at offset `i`. */
  predicate OccursAt(hay: string, needle: string, i: int) {
    0 <= i <= |hay| - |needle| && hay[i..i + |needle|] == needle
  }

  /** The scan finds `needle` exactly when it occurs at some offset of `hay`. */
  lemma {:induction false} ContainsIff(hay: string, needle: string)
    ensures Contains(hay, needle) <==> exists i :: OccursAt(hay, needle, i)
    decreases |hay|
  {
    if |needle| == 0 {
      assert OccursAt(hay, needle, 0);
    } else if |hay| < |needle| {
    } else if hay[..|needle|] == needle {
      assert OccursAt(hay, needle, 0);
    } else {
      ContainsIff(hay[1..], needle);
      if Contains(hay[1..], needle) {
        var i :| OccursAt(hay[1..], needle, i);
        assert hay[1..][i..i + |needle|] == hay[i + 1..i + 1 + |needle|];
        assert OccursAt(hay, needle, i + 1);
      } else {
        forall i | OccursAt(hay, needle, i)
          ensures false
        {
          assert i != 0;
          assert hay[1..][i - 1..i - 1 + |needle|] == hay[i..i + |needle|];
          assert OccursAt(hay[1..], needle, i - 1);
        }
      }
    }
  }

  // ---------------------------------------------------------------------------
  // `s.split(sep)` and `sep.join(parts)`
  // ---------------------------------------------------------------------------

  /** Python's `s.split(sep)` for a one-character separator: every occurrence splits,
      so the result is never empty (`"".split(sep) == [""]`) and no part holds `sep`. */
  function Split(s: string, sep: char): (parts: seq<string>)
    ensures |parts| >= 1
    ensures forall i :: 0 <= i < |parts| ==> sep !in parts[i]
    decreases |s|
  {
    if |s| == 0 then [""]
    else
      var rest := Split(s[1..], sep);
      if s[0] == sep then [""] + rest
      else [[s[0]] + rest[0]] + rest[1..]
  }

  /** Python's `sep.join(parts)`. */
  function Join(parts: seq<string>, sep: char): string
  {
    if |parts| == 0 then ""
    else if |parts| == 1 then parts[0]
    else parts[0] + [sep] + Join(parts[1..], sep)
  }

  /** Joining the parts of a split with the same separator gives back the string. */
  lemma {:induction false} JoinSplit(s: string, sep: char)
    ensures Join(Split(s, sep), sep) == s
    decreases |s|
  {
    if |s| > 0 {
      JoinSplit(s[1..], sep);
      var rest := Split(s[1..], sep);
      if s[0] == sep {
        assert ([""] + rest)[1..] == rest;
        assert s == [sep] + s[1..];
      } else {
        var parts := [[s[0]] + rest[0]] + rest[1..];
        if |rest| == 1 {
          assert s == [s[0]] + s[1..];
        } else {
          assert parts[1..] == rest[1..];
          assert Join(rest, sep) == rest[0] + [sep] + Join(rest[1..], sep);
          assert s == [s[0]] + s[1..];
        }
      }
    }
  }

  /** A string without the separator splits into itself alone. */
  lemma {:induction false} SplitWithoutSeparator(s: string, sep: char)
    requires sep !in s
    ensures Split(s, sep) == [s]
    decreases |s|
  {
    if |s| > 0 {
      SplitWithoutSeparator(s[1..], sep);
      assert s == [s[0]] + s[1..];
    }
  }

  /** Splitting `a + [sep] + b`, where `a` holds no separator, yields `a` and then the parts of `b`. */
  lemma {:induction false} SplitAtFirstSeparator(a: string, b: string, sep: char)
    requires sep !in a
    ensures Split(a + [sep] + b, sep) == [a] + Split(b, sep)
    decreases |a|
  {
    if |a| == 0 {
      assert a + [sep] + b == [sep] + b;
      assert ([sep] + b)[1..] == b;
    } else {
      SplitAtFirstSeparator(a[1..], b, sep);
      var s := a + [sep] + b;
      assert s[0] == a[0];
      assert s[1..] == a[1..] + [sep] + b;
      assert [a[0]] + a[1..] == a;
    }
  }

  /** Splitting a join of separator-free parts gives the parts back. */
  lemma {:induction false} SplitJoin(parts: seq<string>, sep: char)
    requires |parts| >= 1
    requires forall i :: 0 <= i < |parts| ==> sep !in parts[i]
    ensures Split(Join(parts, sep), sep) == parts
    decreases |parts|
  {
    if |parts| == 1 {
      SplitWithoutSeparator(parts[0], sep);
    } else {
      SplitJoin(parts[1..], sep);
      SplitAtFirstSeparator(parts[0], Join(parts[1..], sep), sep);
      assert [parts[0]] + parts[1..] == parts;
    }
  }

  // ---------------------------------------------------------------------------
  // `s.isdigit()` and `int(s)`, ASCII digits only
  // ---------------------------------------------------------------------------

  predicate IsAsciiDigit(c: char) {
    '0' <= c <= '9'
  }

  predicate AllDigits(s: string) {
    forall i :: 0 <= i < |s| ==> IsAsciiDigit(s[i])
  }

  /** Python's `s.isdigit()` for ASCII text: non-empty and made of digits only. */
  predicate IsDigitString(s: string) {
    |s| > 0 && AllDigits(s)
  }

  /** The value of a string of decimal digits, leading zeros allowed (`int("007") == 7`). */
  function DigitsValue(s: string): (n: nat)
    requires AllDigits(s)
    decreases |s|
  {
    if |s| == 0 then 0
    else DigitsValue(s[..|s| - 1]) * 10 + (s[|s| - 1] as int - '0' as int)
  }

  /** The decimal rendering of `n` (Python's `str(n)`). */
  function DecimalString(n: nat): (s: string)
    ensures IsDigitString(s)
    decreases n
  {
    if n < 10 then [('0' as int + n) as char]
    else DecimalString(n / 10) + [('0' as int + n % 10) as char]
  }

  /** Reading back the decimal rendering of `n` gives `n`. */
  lemma {:induction false} DigitsValueOfDecimal(n: nat)
    ensures DigitsValue(DecimalString(n)) == n
    decreases n
  {
    if n >= 10 {
      DigitsValueOfDecimal(n / 10);
      var s := DecimalString(n);
      assert s[..|s| - 1] == DecimalString(n / 10);
    }
  }

  /** Python's `int(s)` for a sign and ASCII digits; `None` where `int` raises `ValueError`.
      It reads back every decimal rendering, with or without a minus sign. */
  function ParseInt(s: string): (r: Option<int>)
    ensures forall n: nat :: s == DecimalString(n) ==> r == Some(n)
    ensures forall n: nat :: s == "-" + DecimalString(n) ==> r == Some(-(n as int))
    ensures r.Some? ==> |s| > 0
    ensures r.Some? <==> IsDigitString(s) || (|s| > 1 && (s[0] == '+' || s[0] == '-') && IsDigitString(s[1..]))
    ensures r.Some? && IsDigitString(s) ==> r.value == DigitsValue(s)
    ensures r.Some? && !IsDigitString(s) ==> r.value == if s[0] == '-' then -(DigitsValue(s[1..]) as int) else DigitsValue(s[1..])
  {
    DecimalStringsParse();
    if |s| > 0 && (s[0] == '+' || s[0] == '-') then
      if IsDigitString(s[1..]) then
        var v: int := DigitsValue(s[1..]);
        Some(if s[0] == '-' then -v else v)
      else None
    else if IsDigitString(s) then Some(DigitsValue(s))
    else None
  }

  /** Every decimal rendering reads back as its number, and none starts with a sign. */
  lemma DecimalStringsParse()
    ensures forall n: nat :: DigitsValue(DecimalString(n)) == n
    ensures forall n: nat :: IsAsciiDigit(DecimalString(n)[0])
  {
    forall n: nat ensures DigitsValue(DecimalString(n)) == n {
      DigitsValueOfDecimal(n);
    }
  }
}
