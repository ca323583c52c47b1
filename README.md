# Hanzi Deck Statistics: the character pipeline, in Dafny

This project models the character pipeline of the Hanzi Deck Statistics add-on for Anki.
The add-on finds the Chinese ideographs (Hanzi) on the cards of a deck. It looks them up
in two reference tables, the HSK 3.0 (2021) character list and the Jun Da frequency ranking,
and groups them into HSK bands and frequency tiers, separately for all cards and for reviewed cards.

The model has five modules, one per file:

- `Wrappers` (`wrappers.dfy`): `Option` and `Result`.
- `PyText` (`pytext.dfy`): the Python `str` built-ins the pipeline depends on.
  These are the substring test `in`, `split` and `join` on one separator character,
  `isdigit`, `int()` and `str()` of a natural number.
- `HanziDetector` (`hanzi_detector.dfy`): the range test for ideographs and the name-based `is_hanzi` test.
  It also has `extract_hanzi`, `count_hanzi_in_text` and `extract_from_fields`.
  Each loop is a method proved against a set-comprehension or recursive specification.
- `CharacterData` (`character_data.dfy`): the class `CharacterData` and the categorisation.
  - The class holds the two maps and the loops that fill them row by row.
  - The lookups have defaults.
  - The categorisation fills pre-built buckets in a loop.
  - Row loading is specified by a fold over the rows, `LoadHskRows` and `LoadFrequencyRows`.
    The fold is related to an independent "last row wins" definition.
  - Categorisation is specified by `Categorize`. It builds every bucket as a set comprehension.
- `StatsCalculator` (`stats_calculator.dfy`): the classes `DeckStatistics` and `StatsCalculator`.
  - The collection is a card table of `Card(did, queue, hasRevlog, flds)` records.
    The two SQL queries are predicates on that table.
  - The host's deck functions (name, deck and children, enumeration) are inputs.
  - A query that raises part-way is described by the number of rows it delivers first.

Text is a Dafny `string`, and a `char` is one Unicode scalar value, as a Python `str` is indexed.
Two functions from the Unicode character database are parameters:

- NFC normalisation of one character (`Normalizer`);
- the character-name lookup (`NameOracle`).

The model assumes nothing about them, except where a lemma states a property of NFC as a precondition.

Three points where parts of the source disagree with each other, or where the code promises less than its comments suggest:

- The marker list of `is_hanzi` includes `'BOPOMOFO'` (hanzi_detector.py:34), so the name-based test accepts Bopomofo.
  The range test the extraction uses, U+3400–U+9FFF and U+F900–U+FAFF (hanzi_detector.py:14), rejects it (`BopomofoNeverExtracted`).
  `is_hanzi` catches only `ValueError`, so a string of two or more characters makes it raise `TypeError` (`IsHanzi`).
- The module docstring of character_data.py (line 3) mentions HSK 2012 data. The code loads no such table, so the model has only the two schemes `hsk_2021` and `frequency`.
- `reviewed ⊆ total` holds whenever the query for all cards completes (`ReviewedWithinTotal`).
  A query that raises part-way keeps the rows merged so far (stats_calculator.py:169-180), so the inclusion can fail then.

## Model

| member | source | states |
|---|---|---|
| PyText.ContainsIff | stats_calculator.py:104 | the left-to-right scan for `"::"` succeeds exactly when the needle occurs at some offset |
| PyText.Split | stats_calculator.py:173 | `split` on one character always yields at least one part, and no part contains the separator |
| PyText.JoinSplit | stats_calculator.py:173 | joining the parts of a split with the same separator reproduces the note's field string |
| PyText.SplitWithoutSeparator | stats_calculator.py:173 | a string without the separator is a single field |
| PyText.SplitAtFirstSeparator | stats_calculator.py:173 | splitting stops the first field at the first separator and continues on the rest |
| PyText.SplitJoin | stats_calculator.py:173 | splitting a join of separator-free fields gives back exactly those fields |
| PyText.DecimalString | character_data.py:142 | the rendering of a band number in a bucket label is a non-empty string of decimal digits |
| PyText.DigitsValueOfDecimal | hanzi_detector.py:94 | `int` reads the decimal rendering of any natural number back as that number |
| PyText.DecimalStringsParse | hanzi_detector.py:92-94 | every decimal rendering passes `isdigit` and reads back as its number |
| PyText.ParseInt | character_data.py:43-46 | `int()` succeeds exactly on a digit string with an optional `+`/`-` sign, reading leading zeros and the sign as Python does, and raises (`None`) on every other string |
| HanziDetector.InCjkRange | hanzi_detector.py:14 | the character class of the detector: U+3400–U+9FFF or U+F900–U+FAFF |
| HanziDetector.IsHanzi | hanzi_detector.py:17-37 | empty string: not a Hanzi; two or more characters: the name lookup raises; at most one character never raises; a Hanzi exactly when the character has a name containing one of the three markers |
| HanziDetector.HanziSetSnoc | hanzi_detector.py:54-58 | one more character adds its normal form to the extracted set exactly when it is in the ideograph ranges |
| HanziDetector.HanziSetAppend | hanzi_detector.py:54-58 | the ideographs of a concatenation are the union of those of its halves |
| HanziDetector.EmptyTextHasNoHanzi | hanzi_detector.py:50-51 | empty text gives the empty set and the count 0 |
| HanziDetector.NonCjkCharacterIgnored | hanzi_detector.py:14 | a character outside the ranges, inserted anywhere, changes neither the extracted set nor the count |
| HanziDetector.BopomofoNeverExtracted | hanzi_detector.py:14 | Bopomofo characters are outside the ranges and are never extracted or counted |
| HanziDetector.HanziCountAppend | hanzi_detector.py:115-117 | the count is additive over concatenation |
| HanziDetector.HanziCountIsPositions | hanzi_detector.py:115-117 | the count equals the number of positions holding an ideograph, repeats included |
| HanziDetector.HanziSetAtMostCount | hanzi_detector.py:54-58 | there are never more distinct extracted ideographs than counted positions |
| HanziDetector.ReExtractionStable | hanzi_detector.py:54-58 | extracting from a string made of the extracted ideographs gives the same set, when NFC maps each ideograph of the text to one stable ideograph in the ranges |
| HanziDetector.ReExtractionNotStable | hanzi_detector.py:54-58 | with NFC sending U+FA6C to U+242EE, extraction gives `{U+242EE}` and extracting again gives the empty set |
| HanziDetector.NormalisedHanziSet | hanzi_detector.py:54-58 | the corrected extraction yields only one-character ideographs in the ranges, is a subset of the as-written extraction, and equals it whenever every ideograph normalises into the ranges |
| HanziDetector.NormalisedReExtractionStable | hanzi_detector.py:54-58 | the corrected extraction is idempotent whenever NFC is stable on its own one-character results |
| HanziDetector.ExtractHanzi | hanzi_detector.py:40-60 | the loop returns exactly the set of normal forms of the characters in the ideograph ranges |
| HanziDetector.CountHanziInText | hanzi_detector.py:101-119 | the loop returns exactly the number of ideograph positions |
| HanziDetector.FieldsHanzi | hanzi_detector.py:63-98 | a selection never yields more than the union over all fields; `"all"` yields that union for a non-empty field list; any mode other than `"all"`, `"sortField"` or a digit string yields nothing |
| HanziDetector.AllFieldsHanziSnoc | hanzi_detector.py:82-85 | one more field adds exactly its ideographs to the `"all"` union |
| HanziDetector.AllFieldsHanziCons | hanzi_detector.py:82-85 | the `"all"` union is the first field's ideographs plus the rest's |
| HanziDetector.HanziSetJoin | hanzi_detector.py:82-85 | joining fields with a separator that is not an ideograph preserves exactly the union of their ideographs |
| HanziDetector.NoFieldsNoHanzi | hanzi_detector.py:77-78 | an empty field list yields the empty set for every mode |
| HanziDetector.SortFieldSelectsFirst | hanzi_detector.py:87-90 | `"sortField"` yields exactly the ideographs of the first field |
| HanziDetector.FieldNumberSelects | hanzi_detector.py:92-96 | the digit string of `n` yields field `n` (1-based) when `1 <= n <= |fields|`, and nothing otherwise, including for `"0"` |
| HanziDetector.LeadingZeroIgnored | hanzi_detector.py:92-96 | `"0"` prefixed to a digit string selects the same field |
| HanziDetector.LeadingZeroValue | hanzi_detector.py:94 | a leading zero keeps a digit string all-digit and does not change its value |
| HanziDetector.AnySelectionWithinAll | hanzi_detector.py:80-98 | every mode yields a subset of what `"all"` yields |
| HanziDetector.ExtractFromFields | hanzi_detector.py:63-98 | the method returns exactly the ideographs of the selected fields, as `FieldsHanzi` defines them |
| CharacterData.ParseHskLevel | character_data.py:38-46 | `"7-9"` reads as band 7 and any other cell as `int()` reads it, so the decimal rendering of `n` reads as `n`; a level parses exactly when the cell is `"7-9"` or `int()` accepts it |
| CharacterData.ApplyHskRow | character_data.py:38-54 | an unparseable level leaves the map unchanged; otherwise the row's level is stored under the character, and under a non-empty, different traditional form, with every other entry kept (the entry under `""` included when the traditional cell is empty) |
| CharacterData.HskLevelIsLastRow | character_data.py:34-54 | after loading, a character's level is that of the last parseable row naming it, or what the map had before |
| CharacterData.LoadHskRowsAppend | character_data.py:55-58 | loading a concatenation is loading its halves in turn, so a read that fails part-way keeps the rows loaded before it |
| CharacterData.BandsSevenToNineStoredAsSeven | character_data.py:39-41 | a `"7-9"` row stores 7 for its character and for a stored traditional form |
| CharacterData.UnparseableLevelSkipped | character_data.py:43-46 | a row whose level does not parse leaves the map unchanged |
| CharacterData.ParseFrequencyRank | character_data.py:73-75 | a rank is read exactly when the cell is a non-empty digit string, and its value is what `int()` reads, leading zeros included |
| CharacterData.ApplyFrequencyRow | character_data.py:73-79 | no rank: map unchanged; otherwise the rank goes under the non-empty simplified and traditional forms, no other key is added, and every entry the row does not name keeps its value |
| CharacterData.FrequencyRankIsLastRow | character_data.py:67-79 | after loading, a character's rank is that of the last row naming it with a digit-string rank, or what the map had before |
| CharacterData.LoadFrequencyRowsAppend | character_data.py:80-83 | loading a concatenation is loading its halves in turn, so a read that fails part-way keeps the rows loaded before it |
| CharacterData.FrequencyRanksNonNegative | character_data.py:74-75 | every loaded rank is non-negative |
| CharacterData.HskBandLabel | character_data.py:137-142 | level <= 0: no bucket; level >= 7: `"Bands 7-9"`; 1..6: `"Band "` followed by the level's digits; every bucket is one of the seven |
| CharacterData.BandLabelListed | character_data.py:142 | `"Band n"` for n in 1..6 is one of the seven pre-built HSK buckets |
| CharacterData.FrequencyTier | character_data.py:93-107 | each of the four tiers holds exactly its rank interval (500, 1000, 1500 and 2000 inclusive); rank 0 and ranks above 2000 have no tier |
| CharacterData.Categorize | character_data.py:117-133 | always exactly the two schemes with their seven and four buckets, even for empty input; every bucket is a subset of the input |
| CharacterData.CharacterData.constructor | character_data.py:14-20 | the two maps are the folds of their table rows over an empty map |
| CharacterData.CharacterData.LoadHsk2021 | character_data.py:27-58 | the loop leaves the level map as the fold of the rows over the map it started with |
| CharacterData.CharacterData.LoadFrequency | character_data.py:60-83 | the loop leaves the rank map as the fold of the rows over the map it started with |
| CharacterData.CharacterData.GetHsk2021Level | character_data.py:85-87 | the stored level, or 0 for a character not in the map |
| CharacterData.CharacterData.GetFrequencyRank | character_data.py:89-91 | the stored rank, or 0 for a character not in the map |
| CharacterData.CharacterData.GetFrequencyCategory | character_data.py:93-107 | the tier of the character's rank (see `FrequencyTier`): one of the four tiers or `""`, and `""` for a character without a rank |
| CharacterData.CharacterData.CategorizeCharacters | character_data.py:109-149 | the bucket-filling loop returns exactly the categorisation of the input by the current maps |
| CharacterData.EmptyBuckets | character_data.py:117-133 | the pre-built dictionaries have exactly the scheme's bucket names and are the categorisation of the empty set |
| CharacterData.BucketsMakeCategorization | character_data.py:135-149 | buckets that agree with each bucket of the categorisation form the categorisation |
| CharacterData.HskBucketsGrowByOne | character_data.py:137-142 | adding one character adds it to the bucket of its band and to no other |
| CharacterData.FrequencyBucketsGrowByOne | character_data.py:145-147 | adding one character adds it to the bucket of its tier and to no other |
| CharacterData.CategorizationPlacement | character_data.py:137-147 | a character is in `"Bands 7-9"` from level 7 up, in `"Band n"` for 1..6, in no HSK bucket at level <= 0; it is in its frequency tier's bucket, or in none |
| CharacterData.CategorizationDisjoint | character_data.py:135-147 | the buckets of one scheme are pairwise disjoint |
| CharacterData.CategorizationMonotone | character_data.py:135-147 | a larger input never shrinks a bucket |
| CharacterData.LookupsAfterLoading | character_data.py:85-91 | after loading, lookups return the last matching row's level or rank, 0 when no row names the character, and ranks are never negative |
| StatsCalculator.Selects | stats_calculator.py:125-166 | the `WHERE` clauses: the card is in the listed decks (any deck for no list), with queue >= 0 for all cards, and queue > 0 with a review-log entry for reviewed cards |
| StatsCalculator.QueryRows | stats_calculator.py:125-166 | a query returns no more rows than the card table has |
| StatsCalculator.QueryRowsMembers | stats_calculator.py:125-166 | a query returns exactly the field strings of the cards its filter selects |
| StatsCalculator.DeliveredRows | stats_calculator.py:169-180 | a query that raises delivers a prefix of its rows; one that does not delivers all of them |
| StatsCalculator.ReviewedCardsAreActive | stats_calculator.py:145-166 | a card the reviewed-cards filter selects (queue > 0, logged review) is selected by the all-cards filter (queue >= 0) on the same decks |
| StatsCalculator.CardsHanziSnoc | stats_calculator.py:170-176 | one more row adds exactly the ideographs of its selected fields |
| StatsCalculator.CardsHanziMonotone | stats_calculator.py:170-176 | a row set containing every row of another yields at least its ideographs |
| StatsCalculator.RowOrderAndDuplicatesIrrelevant | stats_calculator.py:128-133 | row order and duplicate rows (`SELECT DISTINCT`) do not change the merged set |
| StatsCalculator.AllFieldsOfRow | stats_calculator.py:173-175 | with `"all"`, a row's ideographs are those of the whole unsplit row |
| StatsCalculator.ResolveDeckIds | stats_calculator.py:65-71 | deck 0: no restriction; with subdecks: the deck and its children; without: exactly the cards of that deck |
| StatsCalculator.FieldMode | stats_calculator.py:74 | the configured field mode, or `"sortField"` when absent |
| StatsCalculator.ShowCategories | stats_calculator.py:83 | the configured flag, or true when absent |
| StatsCalculator.TopLevelDecks | stats_calculator.py:102-106 | the filtered list is never longer than the enumeration |
| StatsCalculator.TopLevelDecksMembers | stats_calculator.py:102-106 | a deck is kept exactly when it is enumerated and its name has no `"::"` |
| StatsCalculator.WiderQueryWithin | stats_calculator.py:125-166 | a query whose filter admits every card another admits yields at least its ideographs, if it completes |
| StatsCalculator.ReviewedWithinTotal | stats_calculator.py:125-166 | the reviewed ideographs are among the total ideographs whenever the all-cards query completes |
| StatsCalculator.SubdecksWiden | stats_calculator.py:65-71 | including subdecks never loses ideographs when the deck is among its own children and the query completes |
| StatsCalculator.AllDecksWiden | stats_calculator.py:65-71 | the unrestricted selection has every deck selection's ideographs when its query completes |
| StatsCalculator.PartialFetchWithin | stats_calculator.py:169-180 | a query that raises part-way yields a subset of what the full query would |
| StatsCalculator.DeckStatistics.constructor | stats_calculator.py:23-29 | id and name as given, empty sets and empty categorisations |
| StatsCalculator.StatsCalculator.constructor | stats_calculator.py:35-45 | the calculator keeps the collection, the configuration and the character index it is given |
| StatsCalculator.StatsCalculator.GetHanziFromCards | stats_calculator.py:110-180 | the row loop returns the union, over the rows delivered before any failure, of the ideographs of each row's selected fields |
| StatsCalculator.StatsCalculator.CalculateDeckStats | stats_calculator.py:47-87 | with subdecks included by default, a new object holding the deck name ("All Decks" for 0), the total and reviewed sets of the resolved decks, and their categorisations when shown or empty maps otherwise; reviewed ⊆ total when the all-cards query completes |
| StatsCalculator.StatsCalculator.CalculateAllDecksStats | stats_calculator.py:89-108 | with subdecks included by default, one entry per deck without `"::"` in enumeration order, each holding that deck's statistics |
| StatsCalculator.StatsCalculator.GetDeckList | stats_calculator.py:182-194 | `(0, "All Decks")` followed by every enumerated deck in order, one more entry than there are decks |

## Left out

- `stats_dialog.py` (Qt widgets, HTML generation, percentages and missing-set reporting) and `__init__.py` (menu registration) are not part of this model. They are presentation and host wiring.
- SQL text and `col.db.execute` are replaced by the card table and the two filter predicates. `col.decks.name`, `deck_and_child_ids` and `all_names_and_ids` are inputs, not modelled.
- File opening, `os.path` joining and `csv.DictReader` are not modelled. The loaders take already-parsed rows, and an unreadable file is an empty row sequence.
  Rows with missing columns (`None` cells, `KeyError` on `Hanzi` or `Level`) are not modelled.
- `unicodedata.normalize('NFC', …)` and `unicodedata.name` need the Unicode database. They are uninterpreted parameters.
- `int()` is modelled for an optional sign and ASCII digits only. Surrounding whitespace and underscores, which `int()` accepts, are not modelled.
- `isdigit` and `int()` are modelled for ASCII digits only. Decimal digits of other scripts are not modelled.
  Python accepts them in both: `"２".isdigit()` holds and `int("２") == 2`.
  So the source selects field 2 for the field mode `"２"`, and the model selects nothing.
  The source stores a fullwidth rank `"１２"` as 12, and the model skips the row.
  Characters such as `"²"` and `"①"` pass `isdigit` but make `int()` raise. They are not modelled either.
- Python's limit on converting strings of more than 4300 digits (`int()` then raises `ValueError`) is not modelled. The model reads digit strings of any length.
  For such a string, the source skips an HSK level, but the model stores it.
  For a frequency rank, the source ends the load through the outer `except`, but the model stores the rank and goes on.
  For a field mode, the source raises out of `extract_from_fields` and ends the row loop, but the model selects a field.
- Configuration values of the wrong type (a non-boolean `showCategories`, whose truthiness decides) are not modelled. The configuration holds an optional string and an optional boolean.
- `print` diagnostics are I/O and are left out.
- The lazy global instance behind `get_character_data` is left out. The calculator is given a `CharacterData` explicitly.
- Lone surrogate code points, which a Python `str` may hold, are not Dafny `char`s.
- HanziDetector.ReExtractionStable: proves idempotence only for texts whose ideographs NFC maps to one ideograph in the ranges that NFC leaves unchanged. The Unicode database is not part of this model, so this is a hypothesis, not a fact proved here. Texts with the seven compatibility ideographs NFC sends to Extension B are not covered (see "## Findings").
- StatsCalculator.StatsCalculator.CalculateAllDecksStats: does not state that the returned objects are newly allocated and distinct from each other. `CalculateDeckStats` states freshness for each object.
- StatsCalculator.StatsCalculator.GetHanziFromCards: the failure of a query is a property of the collection input (`failAfter`), not an exception raised by a modelled database.

## Findings

| source | as written | input that shows it | evidently intended | confidence | as-written member | corrected member |
|---|---|---|---|---|---|---|
| hanzi_detector.py:54-58 | the range test runs on the character before NFC, so a normal form outside the ranges is still collected | `"\uFA6C"`: NFC gives U+242EE (Extension B), so extraction gives `{"\U000242EE"}`, and extracting again from that gives the empty set. U+FACF, U+FAD0, U+FAD1, U+FAD5, U+FAD6 and U+FAD7 behave the same way | extraction is idempotent: the collected normal forms are themselves ideographs the range test accepts | medium, not executed | HanziDetector.ReExtractionNotStable | HanziDetector.NormalisedReExtractionStable |

The per-deck statistics keep the as-written extraction (`HanziSet`, `ExtractHanzi`), since they model what the add-on reports.
`NormalisedHanziSet` differs from it only on texts that contain one of the seven code points above.
