/**
 * Detection of Chinese ideographs (Hanzi) in note text.
 *
 * A character is picked up when its code point lies in U+3400..U+9FFF (CJK Unified
 * Ideographs and Extension A) or U+F900..U+FAFF (CJK Compatibility Ideographs).
 * Every picked-up character is put through Unicode NFC normalisation before it is
 * collected; the normaliser is the Unicode database's and is a parameter here
 * (`nfc`), about which nothing is assumed beyond what a lemma states in its own `requires`:
 * compatibility ideographs do change under it.
 */
module HanziDetector {
  import opened Wrappers
  import opened PyText

  /** Unicode NFC normalisation of a one-character string. */
  type Normalizer = char -> string

  /** The Unicode character-name database: `None` where a code point has no name. */
  type NameOracle = char -> Option<string>

  /** The range test of the detector's character class: U+3400..U+9FFF or U+F900..U+FAFF. */
  predicate InCjkRange(c: char) {
    0x3400 <= c as int <= 0x9FFF || 0xF900 <= c as int <= 0xFAFF
  }

  /** Bopomofo and Bopomofo Extended, which the name-based test accepts but the range test does not. */
  predicate IsBopomofo(c: char) {
    0x3100 <= c as int <= 0x312F || 0x31A0 <= c as int <= 0x31BF
  }

  // ---------------------------------------------------------------------------
  // is_hanzi
  // ---------------------------------------------------------------------------

  /** Name fragments that make a character a Hanzi for the name-based test. */
  const HANZI_NAME_MARKERS: seq<string> := ["CJK UNIFIED IDEOGRAPH", "CJK COMPATIBILITY IDEOGRAPH", "BOPOMOFO"]

  /**
   * The name-based test: the empty string is not a Hanzi, a character without a name is
   * not one, and a named character is one when its name mentions one of the markers.
   * A string of two or more characters makes the name lookup raise `TypeError`,
   * which the test does not catch.
   */
  function IsHanzi(s: string, name: NameOracle): (r: Result<bool>)
    ensures |s| == 0 ==> r == Success(false)
    ensures |s| > 1 ==> r.Raised?
    ensures |s| <= 1 ==> r.Success?
    ensures r == Success(true) <==>
      |s| == 1 && name(s[0]).Some? &&
      exists k :: 0 <= k < |HANZI_NAME_MARKERS| && Contains(name(s[0]).value, HANZI_NAME_MARKERS[k])
  {
    if |s| == 0 then Success(false)
    else if |s| > 1 then Raised("TypeError")
    else
      match name(s[0])
      case None => Success(false)
      case Some(n) =>
        Success(Contains(n, HANZI_NAME_MARKERS[0]) || Contains(n, HANZI_NAME_MARKERS[1]) || Contains(n, HANZI_NAME_MARKERS[2]))
  }

  // ---------------------------------------------------------------------------
  // extract_hanzi and count_hanzi_in_text: specification
  // ---------------------------------------------------------------------------

  /** The positions of `text` whose character is in the ideograph ranges. */
  function CjkPositions(text: string): set<int> {
    set i | 0 <= i < |text| && InCjkRange(text[i])
  }

  /** The normalised ideographs of `text`, each once. */
  function HanziSet(text: string, nfc: Normalizer): set<string> {
    set i | 0 <= i < |text| && InCjkRange(text[i]) :: nfc(text[i])
  }

  /** The number of ideograph positions in `text`, repeats included, counted from the left. */
  function HanziCount(text: string): nat
    decreases |text|
  {
    if |text| == 0 then 0
    else HanziCount(text[..|text| - 1]) + (if InCjkRange(text[|text| - 1]) then 1 else 0)
  }

  /** Extending the text by one character adds its normal form exactly when it is an ideograph. */
  lemma HanziSetSnoc(text: string, c: char, nfc: Normalizer)
    ensures HanziSet(text + [c], nfc) == HanziSet(text, nfc) + (if InCjkRange(c) then {nfc(c)} else {})
  {
    var t := text + [c];
    forall x | x in HanziSet(t, nfc)
      ensures x in HanziSet(text, nfc) + (if InCjkRange(c) then {nfc(c)} else {})
    {
      var i :| 0 <= i < |t| && InCjkRange(t[i]) && nfc(t[i]) == x;
      if i < |text| {
        assert t[i] == text[i];
      }
    }
    forall x | x in HanziSet(text, nfc)
      ensures x in HanziSet(t, nfc)
    {
      var i :| 0 <= i < |text| && InCjkRange(text[i]) && nfc(text[i]) == x;
      assert t[i] == text[i];
    }
    if InCjkRange(c) {
      assert t[|text|] == c;
    }
  }

  /** The ideographs of a concatenation are those of its two halves. */
  lemma {:induction false} HanziSetAppend(a: string, b: string, nfc: Normalizer)
    ensures HanziSet(a + b, nfc) == HanziSet(a, nfc) + HanziSet(b, nfc)
    decreases |b|
  {
    if |b| == 0 {
      assert a + b == a;
      assert HanziSet(b, nfc) == {};
    } else {
      var b' := b[..|b| - 1];
      var c := b[|b| - 1];
      HanziSetAppend(a, b', nfc);
      assert a + b == (a + b') + [c];
      assert b == b' + [c];
      HanziSetSnoc(a + b', c, nfc);
      HanziSetSnoc(b', c, nfc);
    }
  }

  /** Empty text has no ideographs. */
  lemma EmptyTextHasNoHanzi(nfc: Normalizer)
    ensures HanziSet("", nfc) == {} && HanziCount("") == 0
  {
  }

  /** A character outside the ideograph ranges, such as a Bopomofo letter, changes neither
      the ideographs nor their count wherever it stands in the text. */
  lemma {:induction false} NonCjkCharacterIgnored(before: string, c: char, after: string, nfc: Normalizer)
    requires !InCjkRange(c)
    ensures HanziSet(before + [c] + after, nfc) == HanziSet(before + after, nfc)
    ensures HanziCount(before + [c] + after) == HanziCount(before + after)
  {
    HanziSetAppend(before + [c], after, nfc);
    HanziSetAppend(before, after, nfc);
    HanziSetSnoc(before, c, nfc);
    HanziCountAppend(before + [c], after);
    HanziCountAppend(before, after);
    assert (before + [c])[..|before|] == before;
  }

  /** No Bopomofo character lies in the ideograph ranges. */
  lemma BopomofoNeverExtracted(c: char, nfc: Normalizer)
    requires IsBopomofo(c)
    ensures !InCjkRange(c) && HanziSet([c], nfc) == {} && HanziCount([c]) == 0
  {
    assert [c][..0] == [];
  }

  /** The count of a concatenation is the sum of the counts of its halves. */
  lemma {:induction false} HanziCountAppend(a: string, b: string)
    ensures HanziCount(a + b) == HanziCount(a) + HanziCount(b)
    decreases |b|
  {
    if |b| == 0 {
      assert a + b == a;
    } else {
      var b' := b[..|b| - 1];
      HanziCountAppend(a, b');
      assert (a + b)[..|a + b| - 1] == a + b';
      assert (a + b)[|a + b| - 1] == b[|b| - 1];
    }
  }

  /** The count is the number of ideograph positions. */
  lemma {:induction false} HanziCountIsPositions(text: string)
    ensures HanziCount(text) == |CjkPositions(text)|
    decreases |text|
  {
    if |text| > 0 {
      var t' := text[..|text| - 1];
      HanziCountIsPositions(t');
      var extra := if InCjkRange(text[|text| - 1]) then {|text| - 1} else {};
      assert CjkPositions(text) == CjkPositions(t') + extra;
      assert CjkPositions(t') !! extra;
    }
  }

  /** There are never more distinct normalised ideographs than ideograph positions. */
  lemma {:induction false} HanziSetAtMostCount(text: string, nfc: Normalizer)
    ensures |HanziSet(text, nfc)| <= HanziCount(text)
    decreases |text|
  {
    if |text| == 0 {
      assert HanziSet(text, nfc) == {};
    } else {
      var t' := text[..|text| - 1];
      var c := text[|text| - 1];
      HanziSetAtMostCount(t', nfc);
      assert text == t' + [c];
      HanziSetSnoc(t', c, nfc);
    }
  }

  /** Extracting again from a string made of the extracted ideographs (in any order, with
      repeats) gives the same set, provided normalisation turns each ideograph of `text`
      into one ideograph inside the ranges and leaves that one as it is. Unicode NFC does so
      for every ideograph except seven compatibility ideographs, which it maps to
      Extension B, outside the ranges (see `ReExtractionNotStable`). */
  lemma ReExtractionStable(text: string, joined: string, nfc: Normalizer)
    requires forall i :: 0 <= i < |text| && InCjkRange(text[i]) ==>
      |nfc(text[i])| == 1 && InCjkRange(nfc(text[i])[0]) && nfc(nfc(text[i])[0]) == nfc(text[i])
    requires forall k :: 0 <= k < |joined| ==> [joined[k]] in HanziSet(text, nfc)
    requires forall s :: s in HanziSet(text, nfc) ==> exists k :: 0 <= k < |joined| && [joined[k]] == s
    ensures HanziSet(joined, nfc) == HanziSet(text, nfc)
  {
    forall s | s in HanziSet(joined, nfc)
      ensures s in HanziSet(text, nfc)
    {
      var k :| 0 <= k < |joined| && InCjkRange(joined[k]) && nfc(joined[k]) == s;
      assert [joined[k]] in HanziSet(text, nfc);
      var i :| 0 <= i < |text| && InCjkRange(text[i]) && nfc(text[i]) == [joined[k]];
      assert joined[k] == nfc(text[i])[0];
    }
    forall s | s in HanziSet(text, nfc)
      ensures s in HanziSet(joined, nfc)
    {
      var i :| 0 <= i < |text| && InCjkRange(text[i]) && nfc(text[i]) == s;
      var k :| 0 <= k < |joined| && [joined[k]] == s;
      assert joined[k] == nfc(text[i])[0];
      assert nfc(joined[k]) == s;
    }
  }

  /** Extraction as written is not idempotent: NFC maps the compatibility ideograph
      U+FA6C to U+242EE in Extension B, so U+FA6C extracts to U+242EE, and extracting
      again from U+242EE finds nothing, since it lies outside the ranges. */
  lemma ReExtractionNotStable(nfc: Normalizer)
    requires nfc('\U{FA6C}') == "\U{242EE}"
    ensures HanziSet("\U{FA6C}", nfc) == {"\U{242EE}"}
    ensures HanziSet("\U{242EE}", nfc) == {}
  {
    var first := "\U{FA6C}";
    assert InCjkRange(first[0]);
    assert nfc(first[0]) in HanziSet(first, nfc);
  }

  /** Extraction that keeps a normal form only when it is itself one ideograph inside the
      ranges: the same as `HanziSet` on every text whose ideographs all normalise into the
      ranges, and a subset of it on every text. */
  function NormalisedHanziSet(text: string, nfc: Normalizer): (r: set<string>)
    ensures r <= HanziSet(text, nfc)
    ensures forall s :: s in r ==> |s| == 1 && InCjkRange(s[0])
    ensures (forall i :: 0 <= i < |text| && InCjkRange(text[i]) ==> |nfc(text[i])| == 1 && InCjkRange(nfc(text[i])[0])) ==>
      r == HanziSet(text, nfc)
  {
    set i | 0 <= i < |text| && InCjkRange(text[i]) && |nfc(text[i])| == 1 && InCjkRange(nfc(text[i])[0]) :: nfc(text[i])
  }

  /** The corrected extraction is idempotent whenever normalisation is stable on its own
      one-character results, as Unicode NFC is: extracting again from a string made of the
      extracted ideographs gives the same set. */
  lemma NormalisedReExtractionStable(text: string, joined: string, nfc: Normalizer)
    requires forall i :: 0 <= i < |text| && InCjkRange(text[i]) && |nfc(text[i])| == 1 ==>
      nfc(nfc(text[i])[0]) == nfc(text[i])
    requires forall k :: 0 <= k < |joined| ==> [joined[k]] in NormalisedHanziSet(text, nfc)
    requires forall s :: s in NormalisedHanziSet(text, nfc) ==> exists k :: 0 <= k < |joined| && [joined[k]] == s
    ensures NormalisedHanziSet(joined, nfc) == NormalisedHanziSet(text, nfc)
  {
    forall s | s in NormalisedHanziSet(joined, nfc)
      ensures s in NormalisedHanziSet(text, nfc)
    {
      var k :| 0 <= k < |joined| && InCjkRange(joined[k]) && |nfc(joined[k])| == 1 && InCjkRange(nfc(joined[k])[0]) && nfc(joined[k]) == s;
      assert [joined[k]] in NormalisedHanziSet(text, nfc);
      var i :| 0 <= i < |text| && InCjkRange(text[i]) && |nfc(text[i])| == 1 && InCjkRange(nfc(text[i])[0]) && nfc(text[i]) == [joined[k]];
      assert joined[k] == nfc(text[i])[0];
    }
    forall s | s in NormalisedHanziSet(text, nfc)
      ensures s in NormalisedHanziSet(joined, nfc)
    {
      var i :| 0 <= i < |text| && InCjkRange(text[i]) && |nfc(text[i])| == 1 && InCjkRange(nfc(text[i])[0]) && nfc(text[i]) == s;
      var k :| 0 <= k < |joined| && [joined[k]] == s;
      assert joined[k] == nfc(text[i])[0];
      assert nfc(joined[k]) == s;
    }
  }

  // ---------------------------------------------------------------------------
  // extract_hanzi and count_hanzi_in_text: the loops
  // ---------------------------------------------------------------------------

  /** Collects the normalised ideographs of `text` in one left-to-right pass. */
  method ExtractHanzi(text: string, nfc: Normalizer) returns (chars: set<string>)
    ensures chars == HanziSet(text, nfc)
  {
    if |text| == 0 {
      return {};
    }
    chars := {};
    var i := 0;
    while i < |text|
      invariant 0 <= i <= |text|
      invariant chars == HanziSet(text[..i], nfc)
    {
      var c := text[i];
      HanziSetSnoc(text[..i], c, nfc);
      assert text[..i + 1] == text[..i] + [c];
      if InCjkRange(c) {
        chars := chars + {nfc(c)};
      }
      i := i + 1;
    }
    assert text[..i] == text;
  }

  /** Counts the ideograph positions of `text` in one left-to-right pass. */
  method CountHanziInText(text: string) returns (count: nat)
    ensures count == HanziCount(text)
  {
    if |text| == 0 {
      return 0;
    }
    count := 0;
    var i := 0;
    while i < |text|
      invariant 0 <= i <= |text|
      invariant count == HanziCount(text[..i])
    {
      assert text[..i + 1][..i] == text[..i];
      if InCjkRange(text[i]) {
        count := count + 1;
      }
      i := i + 1;
    }
    assert text[..i] == text;
  }

  // ---------------------------------------------------------------------------
  // extract_from_fields
  // ---------------------------------------------------------------------------

  /** The ideographs of every field, merged. */
  function AllFieldsHanzi(fields: seq<string>, nfc: Normalizer): set<string> {
    set j, x | 0 <= j < |fields| && x in HanziSet(fields[j], nfc) :: x
  }

  /**
   * The ideographs of the fields a selection string picks: every field for `"all"`,
   * the first (sort) field for `"sortField"`, field `n` (counting from 1) for a string
   * of decimal digits with value `n`, and nothing for an empty field list, an out-of-range
   * number or any other string.
   */
  function FieldsHanzi(fields: seq<string>, selection: string, nfc: Normalizer): (r: set<string>)
    ensures r <= AllFieldsHanzi(fields, nfc)
    ensures |fields| > 0 && selection == "all" ==> r == AllFieldsHanzi(fields, nfc)
    ensures selection != "all" && selection != "sortField" && !IsDigitString(selection) ==> r == {}
  {
    if |fields| == 0 then {}
    else if selection == "all" then AllFieldsHanzi(fields, nfc)
    else if selection == "sortField" then HanziSet(fields[0], nfc)
    else if IsDigitString(selection) then
      var index := DigitsValue(selection) - 1;
      if 0 <= index < |fields| then HanziSet(fields[index], nfc) else {}
    else {}
  }

  /** Extending the field list by one field adds that field's ideographs to the merge. */
  lemma AllFieldsHanziSnoc(fields: seq<string>, field: string, nfc: Normalizer)
    ensures AllFieldsHanzi(fields + [field], nfc) == AllFieldsHanzi(fields, nfc) + HanziSet(field, nfc)
  {
    var fs := fields + [field];
    forall x | x in AllFieldsHanzi(fs, nfc)
      ensures x in AllFieldsHanzi(fields, nfc) + HanziSet(field, nfc)
    {
      var j :| 0 <= j < |fs| && x in HanziSet(fs[j], nfc);
      if j < |fields| {
        assert fs[j] == fields[j];
      }
    }
    forall x | x in AllFieldsHanzi(fields, nfc)
      ensures x in AllFieldsHanzi(fs, nfc)
    {
      var j :| 0 <= j < |fields| && x in HanziSet(fields[j], nfc);
      assert fs[j] == fields[j];
    }
    assert fs[|fields|] == field;
  }

  /** The merge over a non-empty field list is the first field's ideographs and the rest's. */
  lemma AllFieldsHanziCons(fields: seq<string>, nfc: Normalizer)
    requires |fields| > 0
    ensures AllFieldsHanzi(fields, nfc) == HanziSet(fields[0], nfc) + AllFieldsHanzi(fields[1..], nfc)
  {
    var rest := fields[1..];
    forall x | x in AllFieldsHanzi(fields, nfc)
      ensures x in HanziSet(fields[0], nfc) + AllFieldsHanzi(rest, nfc)
    {
      var j :| 0 <= j < |fields| && x in HanziSet(fields[j], nfc);
      if j > 0 {
        assert rest[j - 1] == fields[j];
      }
    }
    forall x | x in AllFieldsHanzi(rest, nfc)
      ensures x in AllFieldsHanzi(fields, nfc)
    {
      var j :| 0 <= j < |rest| && x in HanziSet(rest[j], nfc);
      assert fields[j + 1] == rest[j];
    }
  }

  /** Joining fields with a separator that is not an ideograph neither adds nor loses
      ideographs: the joined text has exactly the ideographs of the fields. */
  lemma {:induction false} HanziSetJoin(fields: seq<string>, sep: char, nfc: Normalizer)
    requires !InCjkRange(sep)
    ensures HanziSet(Join(fields, sep), nfc) == AllFieldsHanzi(fields, nfc)
    decreases |fields|
  {
    if |fields| == 0 {
      assert AllFieldsHanzi(fields, nfc) == {};
    } else if |fields| == 1 {
      AllFieldsHanziCons(fields, nfc);
      assert AllFieldsHanzi(fields[1..], nfc) == {};
    } else {
      var rest := fields[1..];
      HanziSetJoin(rest, sep, nfc);
      AllFieldsHanziCons(fields, nfc);
      HanziSetAppend(fields[0] + [sep], Join(rest, sep), nfc);
      HanziSetSnoc(fields[0], sep, nfc);
    }
  }

  /** An empty field list yields nothing, whatever the selection. */
  lemma NoFieldsNoHanzi(selection: string, nfc: Normalizer)
    ensures FieldsHanzi([], selection, nfc) == {}
  {
  }

  /** The sort-field selection reads only the first field. */
  lemma SortFieldSelectsFirst(fields: seq<string>, nfc: Normalizer)
    requires |fields| > 0
    ensures FieldsHanzi(fields, "sortField", nfc) == HanziSet(fields[0], nfc)
  {
  }

  /** The decimal rendering of `n` selects field `n` when `1 <= n <= |fields|`, and nothing
      otherwise; in particular `"0"` selects nothing. */
  lemma FieldNumberSelects(fields: seq<string>, n: nat, nfc: Normalizer)
    ensures FieldsHanzi(fields, DecimalString(n), nfc) ==
      if 1 <= n <= |fields| then HanziSet(fields[n - 1], nfc) else {}
  {
    DigitsValueOfDecimal(n);
    var s := DecimalString(n);
    assert s != "all" by {
      assert IsAsciiDigit(s[0]);
    }
    assert s != "sortField" by {
      assert IsAsciiDigit(s[0]);
    }
  }

  /** Leading zeros do not change which field a number selects: `"02"` selects field 2. */
  lemma LeadingZeroIgnored(fields: seq<string>, digits: string, nfc: Normalizer)
    requires IsDigitString(digits)
    ensures FieldsHanzi(fields, "0" + digits, nfc) == FieldsHanzi(fields, digits, nfc)
  {
    LeadingZeroValue(digits);
    assert ("0" + digits)[0] == '0';
  }

  lemma {:induction false} LeadingZeroValue(digits: string)
    requires AllDigits(digits)
    ensures AllDigits("0" + digits) && DigitsValue("0" + digits) == DigitsValue(digits)
    decreases |digits|
  {
    var s := "0" + digits;
    assert AllDigits(s) by {
      forall i | 0 <= i < |s| ensures IsAsciiDigit(s[i]) {
        if i > 0 { assert s[i] == digits[i - 1]; }
      }
    }
    if |digits| > 0 {
      var d' := digits[..|digits| - 1];
      LeadingZeroValue(d');
      assert s[..|s| - 1] == "0" + d';
    }
  }

  /** Whatever the selection, only ideographs of the fields themselves are returned, and
      the `"all"` selection returns a superset of every other selection's result. */
  lemma AnySelectionWithinAll(fields: seq<string>, selection: string, nfc: Normalizer)
    requires |fields| > 0
    ensures FieldsHanzi(fields, selection, nfc) <= FieldsHanzi(fields, "all", nfc)
  {
  }

  /** Collects the ideographs of the selected fields. */
  method ExtractFromFields(fields: seq<string>, selection: string, nfc: Normalizer) returns (chars: set<string>)
    ensures chars == FieldsHanzi(fields, selection, nfc)
  {
    if |fields| == 0 {
      return {};
    }
    chars := {};
    if selection == "all" {
      var i := 0;
      while i < |fields|
        invariant 0 <= i <= |fields|
        invariant chars == AllFieldsHanzi(fields[..i], nfc)
      {
        var found := ExtractHanzi(fields[i], nfc);
        AllFieldsHanziSnoc(fields[..i], fields[i], nfc);
        assert fields[..i + 1] == fields[..i] + [fields[i]];
        chars := chars + found;
        i := i + 1;
      }
      assert fields[..i] == fields;
    } else if selection == "sortField" {
      if |fields| > 0 {
        var found := ExtractHanzi(fields[0], nfc);
        chars := chars + found;
      }
    } else if IsDigitString(selection) {
      var index := DigitsValue(selection) - 1;
      if 0 <= index < |fields| {
        var found := ExtractHanzi(fields[index], nfc);
        chars := chars + found;
      }
    }
  }
}
