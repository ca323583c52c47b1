/**
 * The two reference tables the statistics are joined against, and the categorisation
 * of a character set by them.
 *
 * `hsk2021Map` maps a character to its HSK 3.0 (2021) band, 1 to 7, where 7 stands for the
 * combined bands 7-9; `frequencyRankMap` maps a character to its Jun Da frequency rank.
 * Both are filled row by row from already-parsed table rows. A table that cannot be read
 * is an empty row sequence, and a read that fails part-way is the sequence of rows read
 * before the failure: the rows loaded so far stay loaded and nothing is raised.
 */
module CharacterData {
  import opened Wrappers
  import opened PyText

  /** A row of the HSK 3.0 character table (columns `Hanzi`, `Level`, `Traditional`;
      an absent `Traditional` cell reads as the empty string). */
  datatype HskRow = HskRow(hanzi: string, level: string, traditional: string)

  /** A row of the character compilation table (columns `simplified`, `traditional`,
      `frequency_junda`; absent cells read as the empty string). */
  datatype FrequencyRow = FrequencyRow(simplified: string, traditional: string, frequencyJunda: string)

  /** `dict.get(c)` */
  function Get(m: map<string, int>, c: string): Option<int> {
    if c in m then Some(m[c]) else None
  }

  // ---------------------------------------------------------------------------
  // Loading the HSK 3.0 table
  // ---------------------------------------------------------------------------

  /** The band of a `Level` cell: the range marker `"7-9"` is band 7, an integer is itself,
      anything else does not parse. */
  function ParseHskLevel(level: string): (r: Option<int>)
    ensures level == "7-9" ==> r == Some(7)
    ensures forall n: nat :: level == DecimalString(n) ==> r == Some(n)
    ensures r.Some? <==> level == "7-9" || ParseInt(level).Some?
    ensures level != "7-9" ==> r == ParseInt(level)
  {
    assert !IsDigitString("7-9") by {
      assert !IsAsciiDigit("7-9"[1]);
    }
    if level == "7-9" then Some(7) else ParseInt(level)
  }

  /** The traditional form a row also stores: only a non-empty one that differs from the simplified form. */
  predicate StoresHskTraditional(row: HskRow) {
    row.traditional != "" && row.traditional != row.hanzi
  }

  /** The effect of one HSK row on the level map. */
  function ApplyHskRow(m: map<string, int>, row: HskRow): (r: map<string, int>)
    ensures ParseHskLevel(row.level).None? ==> r == m
    ensures ParseHskLevel(row.level).Some? ==>
      && r.Keys == m.Keys + {row.hanzi} + (if StoresHskTraditional(row) then {row.traditional} else {})
      && r[row.hanzi] == ParseHskLevel(row.level).value
      && (StoresHskTraditional(row) ==> r[row.traditional] == ParseHskLevel(row.level).value)
      && forall c :: c in m && c != row.hanzi && !(StoresHskTraditional(row) && c == row.traditional) ==> r[c] == m[c]
  {
    match ParseHskLevel(row.level)
    case None => m
    case Some(level) =>
      var withSimplified := m[row.hanzi := level];
      if StoresHskTraditional(row) then withSimplified[row.traditional := level] else withSimplified
  }

  /** The level map after loading `rows` in order into `m`. */
  function LoadHskRows(m: map<string, int>, rows: seq<HskRow>): map<string, int>
    decreases |rows|
  {
    if |rows| == 0 then m
    else ApplyHskRow(LoadHskRows(m, rows[..|rows| - 1]), rows[|rows| - 1])
  }

  /** A row names `c` when `c` is its character or its non-empty traditional form. */
  predicate HskRowNames(row: HskRow, c: string) {
    row.hanzi == c || (row.traditional != "" && row.traditional == c)
  }

  /** Reference definition: the level of the last row that names `c` and whose level parses. */
  function LastHskLevel(rows: seq<HskRow>, c: string): Option<int>
    decreases |rows|
  {
    if |rows| == 0 then None
    else
      var row := rows[|rows| - 1];
      if HskRowNames(row, c) && ParseHskLevel(row.level).Some? then ParseHskLevel(row.level)
      else LastHskLevel(rows[..|rows| - 1], c)
  }

  /** After loading, a character's level is that of the last parseable row naming it; a
      character no such row names keeps what it had before (nothing, for a fresh map). */
  lemma {:induction false} HskLevelIsLastRow(m: map<string, int>, rows: seq<HskRow>, c: string)
    ensures Get(LoadHskRows(m, rows), c) == if LastHskLevel(rows, c).Some? then LastHskLevel(rows, c) else Get(m, c)
    decreases |rows|
  {
    if |rows| > 0 {
      HskLevelIsLastRow(m, rows[..|rows| - 1], c);
    }
  }

  /** Loading a concatenation is loading its halves one after the other, so rows loaded
      before a failed read are exactly what the map holds. */
  lemma {:induction false} LoadHskRowsAppend(m: map<string, int>, a: seq<HskRow>, b: seq<HskRow>)
    ensures LoadHskRows(m, a + b) == LoadHskRows(LoadHskRows(m, a), b)
    decreases |b|
  {
    if |b| == 0 {
      assert a + b == a;
    } else {
      LoadHskRowsAppend(m, a, b[..|b| - 1]);
      assert (a + b)[..|a + b| - 1] == a + b[..|b| - 1];
      assert (a + b)[|a + b| - 1] == b[|b| - 1];
    }
  }

  /** A row whose level is `"7-9"` stores band 7 for its character and for a distinct traditional form. */
  lemma BandsSevenToNineStoredAsSeven(m: map<string, int>, rows: seq<HskRow>, row: HskRow)
    requires row.level == "7-9"
    ensures LoadHskRows(m, rows + [row])[row.hanzi] == 7
    ensures StoresHskTraditional(row) ==> LoadHskRows(m, rows + [row])[row.traditional] == 7
  {
    assert (rows + [row])[..|rows|] == rows;
  }

  /** A row whose level does not parse leaves the map as it was. */
  lemma UnparseableLevelSkipped(m: map<string, int>, rows: seq<HskRow>, row: HskRow)
    requires ParseHskLevel(row.level).None?
    ensures LoadHskRows(m, rows + [row]) == LoadHskRows(m, rows)
  {
    assert (rows + [row])[..|rows|] == rows;
  }

  // ---------------------------------------------------------------------------
  // Loading the frequency table
  // ---------------------------------------------------------------------------

  /** A rank is read only from a non-empty string of decimal digits. */
  function ParseFrequencyRank(s: string): (r: Option<nat>)
    ensures r.Some? <==> IsDigitString(s)
    ensures forall n: nat :: s == DecimalString(n) ==> r == Some(n)
    ensures r.Some? ==> ParseInt(s) == Some(r.value as int)
  {
    DecimalStringsParse();
    if |s| > 0 && IsDigitString(s) then Some(DigitsValue(s)) else None
  }

  /** The effect of one compilation row on the rank map: the rank goes under a non-empty
      simplified form, and under a non-empty traditional form that differs from it. */
  function ApplyFrequencyRow(m: map<string, int>, row: FrequencyRow): (r: map<string, int>)
    ensures ParseFrequencyRank(row.frequencyJunda).None? ==> r == m
    ensures forall c :: c in r ==> c in m || (c != "" && (c == row.simplified || c == row.traditional))
    ensures forall c :: c != "" && (c == row.simplified || c == row.traditional) && ParseFrequencyRank(row.frequencyJunda).Some? ==>
      c in r && r[c] == ParseFrequencyRank(row.frequencyJunda).value
    ensures forall c :: c in m && !FrequencyRowNames(row, c) ==> c in r && r[c] == m[c]
  {
    match ParseFrequencyRank(row.frequencyJunda)
    case None => m
    case Some(rank) =>
      var withSimplified := if row.simplified != "" then m[row.simplified := rank] else m;
      if row.traditional != "" && row.traditional != row.simplified then withSimplified[row.traditional := rank]
      else withSimplified
  }

  /** The rank map after loading `rows` in order into `m`. */
  function LoadFrequencyRows(m: map<string, int>, rows: seq<FrequencyRow>): map<string, int>
    decreases |rows|
  {
    if |rows| == 0 then m
    else ApplyFrequencyRow(LoadFrequencyRows(m, rows[..|rows| - 1]), rows[|rows| - 1])
  }

  /** A row names `c` when `c` is its non-empty simplified or traditional form. */
  predicate FrequencyRowNames(row: FrequencyRow, c: string) {
    c != "" && (row.simplified == c || row.traditional == c)
  }

  /** Reference definition: the rank of the last row that names `c` and has a digit-string rank. */
  function LastFrequencyRank(rows: seq<FrequencyRow>, c: string): Option<int>
    decreases |rows|
  {
    if |rows| == 0 then None
    else
      var row := rows[|rows| - 1];
      if FrequencyRowNames(row, c) && ParseFrequencyRank(row.frequencyJunda).Some? then
        Some(ParseFrequencyRank(row.frequencyJunda).value)
      else LastFrequencyRank(rows[..|rows| - 1], c)
  }

  /** After loading, a character's rank is that of the last row naming it with a digit-string
      rank; the empty string is never given a rank by a row. */
  lemma {:induction false} FrequencyRankIsLastRow(m: map<string, int>, rows: seq<FrequencyRow>, c: string)
    ensures Get(LoadFrequencyRows(m, rows), c) ==
      if LastFrequencyRank(rows, c).Some? then LastFrequencyRank(rows, c) else Get(m, c)
    decreases |rows|
  {
    if |rows| > 0 {
      FrequencyRankIsLastRow(m, rows[..|rows| - 1], c);
    }
  }

  /** Loading a concatenation is loading its halves one after the other. */
  lemma {:induction false} LoadFrequencyRowsAppend(m: map<string, int>, a: seq<FrequencyRow>, b: seq<FrequencyRow>)
    ensures LoadFrequencyRows(m, a + b) == LoadFrequencyRows(LoadFrequencyRows(m, a), b)
    decreases |b|
  {
    if |b| == 0 {
      assert a + b == a;
    } else {
      LoadFrequencyRowsAppend(m, a, b[..|b| - 1]);
      assert (a + b)[..|a + b| - 1] == a + b[..|b| - 1];
      assert (a + b)[|a + b| - 1] == b[|b| - 1];
    }
  }

  /** Every rank loaded into a map without negative ranks is non-negative. */
  lemma {:induction false} FrequencyRanksNonNegative(m: map<string, int>, rows: seq<FrequencyRow>)
    requires forall c :: c in m ==> m[c] >= 0
    ensures forall c :: c in LoadFrequencyRows(m, rows) ==> LoadFrequencyRows(m, rows)[c] >= 0
    decreases |rows|
  {
    if |rows| > 0 {
      FrequencyRanksNonNegative(m, rows[..|rows| - 1]);
    }
  }

  // ---------------------------------------------------------------------------
  // Tiers and labels
  // ---------------------------------------------------------------------------

  const HSK_2021: string := "hsk_2021"
  const FREQUENCY: string := "frequency"

  const HSK_2021_LABELS: set<string> := {"Band 1", "Band 2", "Band 3", "Band 4", "Band 5", "Band 6", "Bands 7-9"}
  const FREQUENCY_LABELS: set<string> := {"Top 500", "Top 1000", "Top 1500", "Top 2000"}

  /** The HSK bucket of a level: none (`""`) for a level of 0 or less, `"Bands 7-9"` from 7 up,
      and `"Band n"` for the levels 1 to 6. */
  function HskBandLabel(level: int): (bucket: string)
    ensures bucket == "" <==> level <= 0
    ensures bucket == "Bands 7-9" <==> level >= 7
    ensures bucket != "" ==> bucket in HSK_2021_LABELS
    ensures 1 <= level <= 6 ==> bucket[..5] == "Band " && ParseInt(bucket[5..]) == Some(level)
  {
    if level <= 0 then ""
    else if level >= 7 then "Bands 7-9"
    else
      BandLabelListed(level);
      assert ("Band " + DecimalString(level))[5..] == DecimalString(level);
      "Band " + DecimalString(level)
  }

  lemma BandLabelListed(level: int)
    requires 1 <= level <= 6
    ensures "Band " + DecimalString(level) in HSK_2021_LABELS
  {
    var d := DecimalString(level);
    assert d == [('0' as int + level) as char];
    if level == 1 { assert d == "1"; assert "Band " + d == "Band 1"; }
    else if level == 2 { assert d == "2"; assert "Band " + d == "Band 2"; }
    else if level == 3 { assert d == "3"; assert "Band " + d == "Band 3"; }
    else if level == 4 { assert d == "4"; assert "Band " + d == "Band 4"; }
    else if level == 5 { assert d == "5"; assert "Band " + d == "Band 5"; }
    else { assert d == "6"; assert "Band " + d == "Band 6"; }
  }

  /** The frequency tier of a rank, first match wins: none (`""`) for rank 0, then the
      upper bounds 500, 1000, 1500 and 2000, each inclusive, and none above 2000. */
  function FrequencyTier(rank: int): (tier: string)
    ensures tier == "Top 500" <==> rank != 0 && rank <= 500
    ensures tier == "Top 1000" <==> 500 < rank <= 1000
    ensures tier == "Top 1500" <==> 1000 < rank <= 1500
    ensures tier == "Top 2000" <==> 1500 < rank <= 2000
    ensures tier == "" <==> rank == 0 || rank > 2000
    ensures tier == "" || tier in FREQUENCY_LABELS
  {
    if rank == 0 then ""
    else if rank <= 500 then "Top 500"
    else if rank <= 1000 then "Top 1000"
    else if rank <= 1500 then "Top 1500"
    else if rank <= 2000 then "Top 2000"
    else ""
  }

  // ---------------------------------------------------------------------------
  // Categorisation by the two maps
  // ---------------------------------------------------------------------------

  /** `m.get(c, 0)` */
  function GetOrZero(m: map<string, int>, c: string): int {
    Get(m, c).GetOr(0)
  }

  /** The characters of `chars` whose band in `hsk` has bucket `bucket`. */
  function HskBucket(hsk: map<string, int>, chars: set<string>, bucket: string): set<string> {
    set c | c in chars && HskBandLabel(GetOrZero(hsk, c)) == bucket
  }

  /** The characters of `chars` whose rank in `frequency` has tier `bucket`. */
  function FrequencyBucket(frequency: map<string, int>, chars: set<string>, bucket: string): set<string> {
    set c | c in chars && FrequencyTier(GetOrZero(frequency, c)) == bucket
  }

  /**
   * The categorisation of `chars` by a level map and a rank map: always the two schemes
   * `"hsk_2021"` (seven bands) and `"frequency"` (four tiers), every bucket present even
   * when empty, each bucket a subset of `chars`.
   */
  function Categorize(hsk: map<string, int>, frequency: map<string, int>, chars: set<string>): (r: map<string, map<string, set<string>>>)
    ensures r.Keys == {HSK_2021, FREQUENCY}
    ensures r[HSK_2021].Keys == HSK_2021_LABELS
    ensures r[FREQUENCY].Keys == FREQUENCY_LABELS
    ensures forall bucket :: bucket in r[HSK_2021] ==> r[HSK_2021][bucket] <= chars
    ensures forall bucket :: bucket in r[FREQUENCY] ==> r[FREQUENCY][bucket] <= chars
  {
    map[HSK_2021 := map bucket | bucket in HSK_2021_LABELS :: HskBucket(hsk, chars, bucket),
        FREQUENCY := map bucket | bucket in FREQUENCY_LABELS :: FrequencyBucket(frequency, chars, bucket)]
  }

  // ---------------------------------------------------------------------------
  // The index
  // ---------------------------------------------------------------------------

  class CharacterData {
    var hsk2021Map: map<string, int>
    var frequencyRankMap: map<string, int>

    /** Builds the index from the rows of the two tables. */
    constructor (hskRows: seq<HskRow>, frequencyRows: seq<FrequencyRow>)
      ensures hsk2021Map == LoadHskRows(map[], hskRows)
      ensures frequencyRankMap == LoadFrequencyRows(map[], frequencyRows)
    {
      hsk2021Map := map[];
      frequencyRankMap := map[];
      new;
      LoadHsk2021(hskRows);
      LoadFrequency(frequencyRows);
    }

    /** Stores the band of every row, in order. */
    method LoadHsk2021(rows: seq<HskRow>)
      modifies this`hsk2021Map
      ensures hsk2021Map == LoadHskRows(old(hsk2021Map), rows)
    {
      var i := 0;
      while i < |rows|
        invariant 0 <= i <= |rows|
        invariant hsk2021Map == LoadHskRows(old(hsk2021Map), rows[..i])
      {
        assert rows[..i + 1][..i] == rows[..i];
        var row := rows[i];
        var level: int;
        if row.level == "7-9" {
          level := 7;
        } else {
          var parsed := ParseInt(row.level);
          if parsed.None? {
            i := i + 1;
            continue;
          }
          level := parsed.value;
        }
        hsk2021Map := hsk2021Map[row.hanzi := level];
        if row.traditional != "" && row.traditional != row.hanzi {
          hsk2021Map := hsk2021Map[row.traditional := level];
        }
        i := i + 1;
      }
      assert rows[..i] == rows;
    }

    /** Stores the rank of every row that has a digit-string rank, in order. */
    method LoadFrequency(rows: seq<FrequencyRow>)
      modifies this`frequencyRankMap
      ensures frequencyRankMap == LoadFrequencyRows(old(frequencyRankMap), rows)
    {
      var i := 0;
      while i < |rows|
        invariant 0 <= i <= |rows|
        invariant frequencyRankMap == LoadFrequencyRows(old(frequencyRankMap), rows[..i])
      {
        assert rows[..i + 1][..i] == rows[..i];
        var row := rows[i];
        if row.frequencyJunda != "" && IsDigitString(row.frequencyJunda) {
          var rank := DigitsValue(row.frequencyJunda);
          if row.simplified != "" {
            frequencyRankMap := frequencyRankMap[row.simplified := rank];
          }
          if row.traditional != "" && row.traditional != row.simplified {
            frequencyRankMap := frequencyRankMap[row.traditional := rank];
          }
        }
        i := i + 1;
      }
      assert rows[..i] == rows;
    }

    /** The band of `c`, 0 when the table does not list it. */
    function GetHsk2021Level(c: string): (level: int)
      reads this
      ensures c !in hsk2021Map ==> level == 0
      ensures c in hsk2021Map ==> level == hsk2021Map[c]
    {
      GetOrZero(hsk2021Map, c)
    }

    /** The frequency rank of `c`, 0 when the table does not rank it. */
    function GetFrequencyRank(c: string): (rank: int)
      reads this
      ensures c !in frequencyRankMap ==> rank == 0
      ensures c in frequencyRankMap ==> rank == frequencyRankMap[c]
    {
      GetOrZero(frequencyRankMap, c)
    }

    /** The frequency tier of `c`, `""` for none. */
    function GetFrequencyCategory(c: string): (category: string)
      reads this
      ensures category == "" || category in FREQUENCY_LABELS
      ensures c !in frequencyRankMap ==> category == ""
      ensures category == FrequencyTier(GetFrequencyRank(c))
    {
      FrequencyTier(GetFrequencyRank(c))
    }

    /** The categorisation of `chars` by this index. */
    function Categorization(chars: set<string>): map<string, map<string, set<string>>>
      reads this
    {
      Categorize(hsk2021Map, frequencyRankMap, chars)
    }

    /** Fills the pre-built buckets one character at a time. The inner maps `hsk` and
        `frequency` are the two dictionaries the result holds. */
    method CategorizeCharacters(characters: set<string>) returns (result: map<string, map<string, set<string>>>)
      ensures result == Categorization(characters)
    {
      var hsk: map<string, set<string>> := map["Band 1" := {}, "Band 2" := {}, "Band 3" := {}, "Band 4" := {},
                                               "Band 5" := {}, "Band 6" := {}, "Bands 7-9" := {}];
      var frequency: map<string, set<string>> := map["Top 500" := {}, "Top 1000" := {}, "Top 1500" := {}, "Top 2000" := {}];
      EmptyBuckets(hsk2021Map, frequencyRankMap, hsk, frequency);
      var remaining := characters;
      ghost var done: set<string> := {};
      while remaining != {}
        invariant remaining <= characters && done == characters - remaining
        invariant hsk.Keys == HSK_2021_LABELS && frequency.Keys == FREQUENCY_LABELS
        invariant forall bucket :: bucket in HSK_2021_LABELS ==> hsk[bucket] == HskBucket(hsk2021Map, done, bucket)
        invariant forall bucket :: bucket in FREQUENCY_LABELS ==> frequency[bucket] == FrequencyBucket(frequencyRankMap, done, bucket)
        decreases remaining
      {
        var c :| c in remaining;
        ghost var hskBefore, frequencyBefore := hsk, frequency;
        var level := GetHsk2021Level(c);
        if level > 0 {
          var bucket := if level >= 7 then "Bands 7-9" else "Band " + DecimalString(level);
          assert bucket == HskBandLabel(level);
          hsk := hsk[bucket := hsk[bucket] + {c}];
        }
        HskBucketsGrowByOne(hsk2021Map, done, c, hskBefore, hsk);
        var category := GetFrequencyCategory(c);
        if category != "" {
          frequency := frequency[category := frequency[category] + {c}];
        }
        FrequencyBucketsGrowByOne(frequencyRankMap, done, c, frequencyBefore, frequency);
        remaining := remaining - {c};
        done := done + {c};
      }
      result := map[HSK_2021 := hsk, FREQUENCY := frequency];
      BucketsMakeCategorization(hsk2021Map, frequencyRankMap, characters, result);
    }
  }

  /** The pre-built buckets are the buckets of the empty set. */
  lemma EmptyBuckets(hsk: map<string, int>, frequency: map<string, int>,
                     hskBuckets: map<string, set<string>>, frequencyBuckets: map<string, set<string>>)
    requires hskBuckets == map["Band 1" := {}, "Band 2" := {}, "Band 3" := {}, "Band 4" := {},
                               "Band 5" := {}, "Band 6" := {}, "Bands 7-9" := {}]
    requires frequencyBuckets == map["Top 500" := {}, "Top 1000" := {}, "Top 1500" := {}, "Top 2000" := {}]
    ensures hskBuckets.Keys == HSK_2021_LABELS && frequencyBuckets.Keys == FREQUENCY_LABELS
    ensures forall bucket :: bucket in HSK_2021_LABELS ==> hskBuckets[bucket] == HskBucket(hsk, {}, bucket)
    ensures forall bucket :: bucket in FREQUENCY_LABELS ==> frequencyBuckets[bucket] == FrequencyBucket(frequency, {}, bucket)
  {
  }

  /** Buckets that agree with every bucket of the categorisation make up the categorisation. */
  lemma BucketsMakeCategorization(hsk: map<string, int>, frequency: map<string, int>, chars: set<string>, result: map<string, map<string, set<string>>>)
    requires result.Keys == {HSK_2021, FREQUENCY}
    requires result[HSK_2021].Keys == HSK_2021_LABELS && result[FREQUENCY].Keys == FREQUENCY_LABELS
    requires forall bucket :: bucket in HSK_2021_LABELS ==> result[HSK_2021][bucket] == HskBucket(hsk, chars, bucket)
    requires forall bucket :: bucket in FREQUENCY_LABELS ==> result[FREQUENCY][bucket] == FrequencyBucket(frequency, chars, bucket)
    ensures result == Categorize(hsk, frequency, chars)
  {
    var expected := Categorize(hsk, frequency, chars);
    assert result[HSK_2021] == expected[HSK_2021];
    assert result[FREQUENCY] == expected[FREQUENCY];
  }

  /** Adding a character to a set adds it to the HSK bucket of its band and to no other. */
  lemma HskBucketsGrowByOne(hsk: map<string, int>, done: set<string>, c: string,
                            buckets: map<string, set<string>>, buckets': map<string, set<string>>)
    requires buckets.Keys == HSK_2021_LABELS
    requires forall bucket :: bucket in HSK_2021_LABELS ==> buckets[bucket] == HskBucket(hsk, done, bucket)
    requires var b := HskBandLabel(GetOrZero(hsk, c));
      buckets' == if b == "" then buckets else buckets[b := buckets[b] + {c}]
    ensures buckets'.Keys == HSK_2021_LABELS
    ensures forall bucket :: bucket in HSK_2021_LABELS ==> buckets'[bucket] == HskBucket(hsk, done + {c}, bucket)
  {
  }

  /** Adding a character to a set adds it to the frequency bucket of its tier and to no other. */
  lemma FrequencyBucketsGrowByOne(frequency: map<string, int>, done: set<string>, c: string,
                                  buckets: map<string, set<string>>, buckets': map<string, set<string>>)
    requires buckets.Keys == FREQUENCY_LABELS
    requires forall bucket :: bucket in FREQUENCY_LABELS ==> buckets[bucket] == FrequencyBucket(frequency, done, bucket)
    requires var t := FrequencyTier(GetOrZero(frequency, c));
      buckets' == if t == "" then buckets else buckets[t := buckets[t] + {c}]
    ensures buckets'.Keys == FREQUENCY_LABELS
    ensures forall bucket :: bucket in FREQUENCY_LABELS ==> buckets'[bucket] == FrequencyBucket(frequency, done + {c}, bucket)
  {
  }

  // ---------------------------------------------------------------------------
  // Properties of the categorisation
  // ---------------------------------------------------------------------------

  /** A character is placed by its band: from 7 up in `"Bands 7-9"`, at `n` in 1..6 in
      `"Band n"` (see `HskBandLabel`), and at 0 or below in no HSK bucket; it sits in the bucket of its
      frequency tier when it has one, and in no frequency bucket otherwise. */
  lemma CategorizationPlacement(data: CharacterData, chars: set<string>, c: string)
    requires c in chars
    ensures var r := data.Categorization(chars); var level := data.GetHsk2021Level(c);
      && (level >= 7 ==> c in r[HSK_2021]["Bands 7-9"])
      && (level > 0 ==> c in r[HSK_2021][HskBandLabel(level)])
      && (level <= 0 ==> forall bucket :: bucket in r[HSK_2021] ==> c !in r[HSK_2021][bucket])
      && (data.GetFrequencyCategory(c) != "" ==> c in r[FREQUENCY][data.GetFrequencyCategory(c)])
      && (data.GetFrequencyCategory(c) == "" ==> forall bucket :: bucket in r[FREQUENCY] ==> c !in r[FREQUENCY][bucket])
  {
  }

  /** Within one scheme no character is in two buckets. */
  lemma CategorizationDisjoint(data: CharacterData, chars: set<string>, scheme: string, l1: string, l2: string)
    requires scheme in data.Categorization(chars)
    requires l1 in data.Categorization(chars)[scheme] && l2 in data.Categorization(chars)[scheme] && l1 != l2
    ensures data.Categorization(chars)[scheme][l1] !! data.Categorization(chars)[scheme][l2]
  {
  }

  /** Categorising a larger set never shrinks a bucket. */
  lemma CategorizationMonotone(data: CharacterData, a: set<string>, b: set<string>)
    requires a <= b
    ensures forall scheme, bucket :: scheme in data.Categorization(a) && bucket in data.Categorization(a)[scheme] ==>
      data.Categorization(a)[scheme][bucket] <= data.Categorization(b)[scheme][bucket]
  {
  }

  /** The lookups of an index built from rows: the band and the rank of a character are
      those of the last row naming it, and 0 when no row does. */
  lemma LookupsAfterLoading(data: CharacterData, hskRows: seq<HskRow>, frequencyRows: seq<FrequencyRow>, c: string)
    requires data.hsk2021Map == LoadHskRows(map[], hskRows)
    requires data.frequencyRankMap == LoadFrequencyRows(map[], frequencyRows)
    ensures data.GetHsk2021Level(c) == match LastHskLevel(hskRows, c) case Some(level) => level case None => 0
    ensures data.GetFrequencyRank(c) == match LastFrequencyRank(frequencyRows, c) case Some(rank) => rank case None => 0
    ensures data.GetFrequencyRank(c) >= 0
  {
    HskLevelIsLastRow(map[], hskRows, c);
    FrequencyRankIsLastRow(map[], frequencyRows, c);
    FrequencyRanksNonNegative(map[], frequencyRows);
  }
}
