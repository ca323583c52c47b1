/**
 * Per-deck aggregation: the set of ideographs on a deck's cards and the subset on cards
 * that have been reviewed, with their categorisation.
 *
 * The collection is abstract. Its card table is a sequence of cards, each joined with the
 * field text of its note; the two card queries are predicates over that table; the deck
 * functions of the host (name lookup, a deck and its children, the deck enumeration) are
 * inputs; and a query that raises part-way is described by how many rows it delivers first.
 */
module StatsCalculator {
  import opened Wrappers
  import opened PyText
  import opened HanziDetector
  import opened CharacterData

  /** The separator between the fields of a note (U+001F). */
  const FIELD_SEPARATOR: char := 0x1F as char

  const ALL_DECKS_NAME: string := "All Decks"

  /** A card of the collection, joined with the fields of its note: its deck, its queue
      (negative for suspended and buried cards), whether the review log has an entry for
      it, and the note's fields joined by the separator. */
  datatype Card = Card(did: int, queue: int, hasRevlog: bool, flds: string)

  /** An entry of the deck enumeration. */
  datatype DeckNameId = DeckNameId(name: string, id: int)

  /** A card query: restricted to a list of decks or not, and either every active card
      (`includeNew`) or only reviewed ones. */
  datatype Query = Query(deckIds: Option<seq<int>>, includeNew: bool)

  /** The host collection as the calculator sees it. */
  datatype Collection = Collection(
    cards: seq<Card>,
    decks: seq<DeckNameId>,
    deckName: int -> string,
    deckAndChildIds: int -> seq<int>,
    // `Some(k)`: executing the query delivers `k` rows (or all, if fewer) and then raises
    failAfter: Query -> Option<nat>)

  /** The two configuration entries the calculator reads; `None` when absent. */
  datatype Config = Config(fieldToUseForStats: Option<string>, showCategories: Option<bool>)

  // ---------------------------------------------------------------------------
  // The card queries
  // ---------------------------------------------------------------------------

  predicate InDecks(card: Card, deckIds: Option<seq<int>>) {
    deckIds.None? || card.did in deckIds.value
  }

  /** The `WHERE` clauses: every query keeps cards of the listed decks; the query for all
      cards keeps queue 0 and up, the query for reviewed cards keeps queue 1 and up and
      only cards with a review-log entry. */
  predicate Selects(q: Query, card: Card) {
    && InDecks(card, q.deckIds)
    && if q.includeNew then card.queue >= 0 else card.queue > 0 && card.hasRevlog
  }

  /** The field strings of the cards a query selects, in table order. */
  function QueryRows(cards: seq<Card>, q: Query): (rows: seq<string>)
    ensures |rows| <= |cards|
    decreases |cards|
  {
    if |cards| == 0 then []
    else
      var last := cards[|cards| - 1];
      QueryRows(cards[..|cards| - 1], q) + if Selects(q, last) then [last.flds] else []
  }

  /** A query yields exactly the field strings of the cards it selects. */
  lemma {:induction false} QueryRowsMembers(cards: seq<Card>, q: Query)
    ensures forall r :: r in QueryRows(cards, q) <==> exists i :: 0 <= i < |cards| && Selects(q, cards[i]) && cards[i].flds == r
    decreases |cards|
  {
    if |cards| > 0 {
      var init, last := cards[..|cards| - 1], cards[|cards| - 1];
      QueryRowsMembers(init, q);
      forall r
        ensures r in QueryRows(cards, q) <==> exists i :: 0 <= i < |cards| && Selects(q, cards[i]) && cards[i].flds == r
      {
        if r in QueryRows(init, q) {
          var i :| 0 <= i < |init| && Selects(q, init[i]) && init[i].flds == r;
          assert cards[i] == init[i];
        }
        if exists i :: 0 <= i < |cards| && Selects(q, cards[i]) && cards[i].flds == r {
          var i :| 0 <= i < |cards| && Selects(q, cards[i]) && cards[i].flds == r;
          if i < |init| {
            assert init[i] == cards[i];
          }
        }
      }
    }
  }

  /** The rows a query delivers before it raises, or all of them if it does not. */
  function DeliveredRows(col: Collection, q: Query): (rows: seq<string>)
    ensures |rows| <= |QueryRows(col.cards, q)| && rows == QueryRows(col.cards, q)[..|rows|]
    ensures col.failAfter(q).None? ==> rows == QueryRows(col.cards, q)
  {
    var all := QueryRows(col.cards, q);
    match col.failAfter(q)
    case None => all
    case Some(k) => if k < |all| then all[..k] else all
  }

  /** Every card the reviewed-cards query selects is selected by the all-cards query on the same decks. */
  lemma ReviewedCardsAreActive(deckIds: Option<seq<int>>, card: Card)
    requires Selects(Query(deckIds, false), card)
    ensures Selects(Query(deckIds, true), card)
  {
  }

  // ---------------------------------------------------------------------------
  // The ideographs of a row set
  // ---------------------------------------------------------------------------

  /** The ideographs of the selected fields of every row, merged. */
  function CardsHanzi(rows: seq<string>, fieldMode: string, nfc: Normalizer): set<string> {
    set i, x | 0 <= i < |rows| && x in FieldsHanzi(Split(rows[i], FIELD_SEPARATOR), fieldMode, nfc) :: x
  }

  /** One more row adds the ideographs of its selected fields. */
  lemma CardsHanziSnoc(rows: seq<string>, row: string, fieldMode: string, nfc: Normalizer)
    ensures CardsHanzi(rows + [row], fieldMode, nfc) ==
      CardsHanzi(rows, fieldMode, nfc) + FieldsHanzi(Split(row, FIELD_SEPARATOR), fieldMode, nfc)
  {
    var rs := rows + [row];
    forall x | x in CardsHanzi(rs, fieldMode, nfc)
      ensures x in CardsHanzi(rows, fieldMode, nfc) + FieldsHanzi(Split(row, FIELD_SEPARATOR), fieldMode, nfc)
    {
      var i :| 0 <= i < |rs| && x in FieldsHanzi(Split(rs[i], FIELD_SEPARATOR), fieldMode, nfc);
      if i < |rows| {
        assert rs[i] == rows[i];
      }
    }
    forall x | x in CardsHanzi(rows, fieldMode, nfc)
      ensures x in CardsHanzi(rs, fieldMode, nfc)
    {
      var i :| 0 <= i < |rows| && x in FieldsHanzi(Split(rows[i], FIELD_SEPARATOR), fieldMode, nfc);
      assert rs[i] == rows[i];
    }
    assert rs[|rows|] == row;
  }

  /** The merge depends only on which rows occur: every row of `a` also in `b` makes the
      ideographs of `a` a subset of those of `b`. */
  lemma CardsHanziMonotone(a: seq<string>, b: seq<string>, fieldMode: string, nfc: Normalizer)
    requires forall r :: r in a ==> r in b
    ensures CardsHanzi(a, fieldMode, nfc) <= CardsHanzi(b, fieldMode, nfc)
  {
    forall x | x in CardsHanzi(a, fieldMode, nfc)
      ensures x in CardsHanzi(b, fieldMode, nfc)
    {
      var i :| 0 <= i < |a| && x in FieldsHanzi(Split(a[i], FIELD_SEPARATOR), fieldMode, nfc);
      assert a[i] in b;
      var j :| 0 <= j < |b| && b[j] == a[i];
    }
  }

  /** Neither the order of the rows nor duplicate rows (`SELECT DISTINCT`) change the result. */
  lemma RowOrderAndDuplicatesIrrelevant(a: seq<string>, b: seq<string>, fieldMode: string, nfc: Normalizer)
    requires forall r :: r in a <==> r in b
    ensures CardsHanzi(a, fieldMode, nfc) == CardsHanzi(b, fieldMode, nfc)
  {
    CardsHanziMonotone(a, b, fieldMode, nfc);
    CardsHanziMonotone(b, a, fieldMode, nfc);
  }

  /** With every field selected, a row's ideographs are those of the whole row: the
      separator is not an ideograph. */
  lemma AllFieldsOfRow(row: string, nfc: Normalizer)
    ensures FieldsHanzi(Split(row, FIELD_SEPARATOR), "all", nfc) == HanziSet(row, nfc)
  {
    JoinSplit(row, FIELD_SEPARATOR);
    HanziSetJoin(Split(row, FIELD_SEPARATOR), FIELD_SEPARATOR, nfc);
  }

  // ---------------------------------------------------------------------------
  // Deck selection and configuration
  // ---------------------------------------------------------------------------

  /** The deck restriction of a deck id: none for 0 (all decks), the deck and its
      children with subdecks, the deck alone without. */
  function ResolveDeckIds(deckId: int, includeSubdecks: bool, deckAndChildIds: int -> seq<int>): (ids: Option<seq<int>>)
    ensures ids.None? <==> deckId == 0
    ensures deckId != 0 && includeSubdecks ==> ids == Some(deckAndChildIds(deckId))
    ensures deckId != 0 && !includeSubdecks ==> forall card :: InDecks(card, ids) <==> card.did == deckId
  {
    if deckId == 0 then None
    else if includeSubdecks then Some(deckAndChildIds(deckId))
    else Some([deckId])
  }

  /** The field selection, `"sortField"` when the configuration has none. */
  function FieldMode(config: Config): (mode: string)
    ensures config.fieldToUseForStats.None? ==> mode == "sortField"
    ensures config.fieldToUseForStats.Some? ==> mode == config.fieldToUseForStats.value
  {
    config.fieldToUseForStats.GetOr("sortField")
  }

  /** Whether to categorise, yes when the configuration does not say. */
  function ShowCategories(config: Config): (show: bool)
    ensures config.showCategories.None? ==> show
    ensures config.showCategories.Some? ==> show == config.showCategories.value
  {
    config.showCategories.GetOr(true)
  }

  /** The decks of the enumeration that are not sub-decks (their name has no `"::"`), in order. */
  function TopLevelDecks(decks: seq<DeckNameId>): (top: seq<DeckNameId>)
    ensures |top| <= |decks|
    decreases |decks|
  {
    if |decks| == 0 then []
    else
      var last := decks[|decks| - 1];
      TopLevelDecks(decks[..|decks| - 1]) + if Contains(last.name, "::") then [] else [last]
  }

  /** The top-level decks are exactly the enumerated decks whose name has no `"::"`. */
  lemma {:induction false} TopLevelDecksMembers(decks: seq<DeckNameId>)
    ensures forall d :: d in TopLevelDecks(decks) <==> d in decks && !Contains(d.name, "::")
    decreases |decks|
  {
    if |decks| > 0 {
      var init := decks[..|decks| - 1];
      TopLevelDecksMembers(init);
      assert decks == init + [decks[|decks| - 1]];
    }
  }

  /** The top-level decks of one more deck of the enumeration. */
  lemma TopLevelDecksSnoc(decks: seq<DeckNameId>, i: int)
    requires 0 <= i < |decks|
    ensures TopLevelDecks(decks[..i + 1]) ==
      TopLevelDecks(decks[..i]) + if Contains(decks[i].name, "::") then [] else [decks[i]]
  {
    assert decks[..i + 1][..i] == decks[..i];
  }

  // ---------------------------------------------------------------------------
  // Properties of the per-deck sets
  // ---------------------------------------------------------------------------

  /** A query that selects at least the cards another selects yields at least its
      ideographs, as long as it delivers all its rows. */
  lemma WiderQueryWithin(col: Collection, q1: Query, q2: Query, fieldMode: string, nfc: Normalizer)
    requires forall card :: Selects(q1, card) ==> Selects(q2, card)
    requires col.failAfter(q2).None?
    ensures CardsHanzi(DeliveredRows(col, q1), fieldMode, nfc) <= CardsHanzi(DeliveredRows(col, q2), fieldMode, nfc)
  {
    var rows1, rows2 := DeliveredRows(col, q1), DeliveredRows(col, q2);
    QueryRowsMembers(col.cards, q1);
    QueryRowsMembers(col.cards, q2);
    forall r | r in rows1
      ensures r in rows2
    {
      var all1 := QueryRows(col.cards, q1);
      assert r in all1 by {
        var k :| 0 <= k < |rows1| && rows1[k] == r;
        assert all1[k] == r;
      }
    }
    CardsHanziMonotone(rows1, rows2, fieldMode, nfc);
  }

  /** The reviewed ideographs of a deck selection are among its total ideographs whenever
      the query for all cards completes. */
  lemma ReviewedWithinTotal(col: Collection, deckIds: Option<seq<int>>, fieldMode: string, nfc: Normalizer)
    requires col.failAfter(Query(deckIds, true)).None?
    ensures CardsHanzi(DeliveredRows(col, Query(deckIds, false)), fieldMode, nfc) <=
            CardsHanzi(DeliveredRows(col, Query(deckIds, true)), fieldMode, nfc)
  {
    forall card | Selects(Query(deckIds, false), card)
      ensures Selects(Query(deckIds, true), card)
    {
      ReviewedCardsAreActive(deckIds, card);
    }
    WiderQueryWithin(col, Query(deckIds, false), Query(deckIds, true), fieldMode, nfc);
  }

  /** Including subdecks never loses ideographs, since a deck is among its own children
      and their ids, provided that query completes. */
  lemma SubdecksWiden(col: Collection, deckId: int, includeNew: bool, fieldMode: string, nfc: Normalizer)
    requires deckId != 0 && deckId in col.deckAndChildIds(deckId)
    requires col.failAfter(Query(ResolveDeckIds(deckId, true, col.deckAndChildIds), includeNew)).None?
    ensures CardsHanzi(DeliveredRows(col, Query(ResolveDeckIds(deckId, false, col.deckAndChildIds), includeNew)), fieldMode, nfc) <=
            CardsHanzi(DeliveredRows(col, Query(ResolveDeckIds(deckId, true, col.deckAndChildIds), includeNew)), fieldMode, nfc)
  {
    WiderQueryWithin(col, Query(ResolveDeckIds(deckId, false, col.deckAndChildIds), includeNew),
                     Query(ResolveDeckIds(deckId, true, col.deckAndChildIds), includeNew), fieldMode, nfc);
  }

  /** The "All Decks" selection has every deck's ideographs, provided its query completes. */
  lemma AllDecksWiden(col: Collection, deckIds: Option<seq<int>>, includeNew: bool, fieldMode: string, nfc: Normalizer)
    requires col.failAfter(Query(None, includeNew)).None?
    ensures CardsHanzi(DeliveredRows(col, Query(deckIds, includeNew)), fieldMode, nfc) <=
            CardsHanzi(DeliveredRows(col, Query(None, includeNew)), fieldMode, nfc)
  {
    WiderQueryWithin(col, Query(deckIds, includeNew), Query(None, includeNew), fieldMode, nfc);
  }

  /** A query that raises part-way leaves a subset of what it would have found. */
  lemma PartialFetchWithin(col: Collection, q: Query, fieldMode: string, nfc: Normalizer)
    ensures CardsHanzi(DeliveredRows(col, q), fieldMode, nfc) <= CardsHanzi(QueryRows(col.cards, q), fieldMode, nfc)
  {
    var rows, all := DeliveredRows(col, q), QueryRows(col.cards, q);
    forall r | r in rows
      ensures r in all
    {
      var k :| 0 <= k < |rows| && rows[k] == r;
      assert all[k] == r;
    }
    CardsHanziMonotone(rows, all, fieldMode, nfc);
  }

  // ---------------------------------------------------------------------------
  // The statistics of one deck
  // ---------------------------------------------------------------------------

  /** The attributes of a `DeckStatistics`, compared field by field as the dataclass compares. */
  datatype StatsValue = StatsValue(
    deckId: int,
    deckName: string,
    totalHanzi: set<string>,
    reviewedHanzi: set<string>,
    totalCategorized: map<string, map<string, set<string>>>,
    reviewedCategorized: map<string, map<string, set<string>>>)

  class DeckStatistics {
    var deckId: int
    var deckName: string
    var totalHanzi: set<string>
    var reviewedHanzi: set<string>
    var totalCategorized: map<string, map<string, set<string>>>
    var reviewedCategorized: map<string, map<string, set<string>>>

    constructor (deckId: int, deckName: string)
      ensures this.deckId == deckId && this.deckName == deckName
      ensures totalHanzi == {} && reviewedHanzi == {}
      ensures totalCategorized == map[] && reviewedCategorized == map[]
    {
      this.deckId := deckId;
      this.deckName := deckName;
      totalHanzi := {};
      reviewedHanzi := {};
      totalCategorized := map[];
      reviewedCategorized := map[];
    }

    /** The current attribute values. */
    function Value(): StatsValue
      reads this
    {
      StatsValue(deckId, deckName, totalHanzi, reviewedHanzi, totalCategorized, reviewedCategorized)
    }
  }

  // ---------------------------------------------------------------------------
  // The calculator
  // ---------------------------------------------------------------------------

  class StatsCalculator {
    const col: Collection
    const config: Config
    const characterData: CharacterData
    const nfc: Normalizer

    constructor (col: Collection, config: Config, characterData: CharacterData, nfc: Normalizer)
      ensures this.col == col && this.config == config
      ensures this.characterData == characterData && this.nfc == nfc
    {
      this.col := col;
      this.config := config;
      this.characterData := characterData;
      this.nfc := nfc;
    }

    /** The ideographs of the rows a query delivers. */
    function QueryHanzi(deckIds: Option<seq<int>>, includeNew: bool, fieldMode: string): set<string> {
      CardsHanzi(DeliveredRows(col, Query(deckIds, includeNew)), fieldMode, nfc)
    }

    /** The statistics of `deckId`: its name ("All Decks" for 0), the ideographs of all and
        of reviewed cards of the resolved decks in the configured fields, and their
        categorisations when categories are shown (empty maps otherwise). */
    ghost function ExpectedStats(hsk: map<string, int>, frequency: map<string, int>, deckId: int, includeSubdecks: bool): StatsValue
    {
      var ids := ResolveDeckIds(deckId, includeSubdecks, col.deckAndChildIds);
      var mode := FieldMode(config);
      var total := QueryHanzi(ids, true, mode);
      var reviewed := QueryHanzi(ids, false, mode);
      StatsValue(
        deckId,
        if deckId == 0 then ALL_DECKS_NAME else col.deckName(deckId),
        total,
        reviewed,
        if ShowCategories(config) then Categorize(hsk, frequency, total) else map[],
        if ShowCategories(config) then Categorize(hsk, frequency, reviewed) else map[])
    }

    /** `stats` holds the statistics of `deckId`. */
    ghost predicate DeckStatsAre(stats: DeckStatistics, deckId: int, includeSubdecks: bool)
      reads stats, characterData
    {
      stats.Value() == ExpectedStats(characterData.hsk2021Map, characterData.frequencyRankMap, deckId, includeSubdecks)
    }

    /** Merges the ideographs of the selected fields of every delivered row; a query that
        raises leaves what was merged before it raised. */
    method GetHanziFromCards(deckIds: Option<seq<int>>, includeNew: bool, fieldMode: string) returns (hanziSet: set<string>)
      ensures hanziSet == CardsHanzi(DeliveredRows(col, Query(deckIds, includeNew)), fieldMode, nfc)
    {
      hanziSet := {};
      var rows := DeliveredRows(col, Query(deckIds, includeNew));
      var i := 0;
      while i < |rows|
        invariant 0 <= i <= |rows|
        invariant hanziSet == CardsHanzi(rows[..i], fieldMode, nfc)
      {
        var fields := Split(rows[i], FIELD_SEPARATOR);
        var chars := ExtractFromFields(fields, fieldMode, nfc);
        CardsHanziSnoc(rows[..i], rows[i], fieldMode, nfc);
        assert rows[..i + 1] == rows[..i] + [rows[i]];
        hanziSet := hanziSet + chars;
        i := i + 1;
      }
      assert rows[..i] == rows;
    }

    /** The statistics of one deck (0 for all decks). The reviewed ideographs are among the
        total ones whenever the query for all cards completes. */
    method CalculateDeckStats(deckId: int, includeSubdecks: bool := true) returns (stats: DeckStatistics)
      ensures fresh(stats)
      ensures DeckStatsAre(stats, deckId, includeSubdecks)
      ensures col.failAfter(Query(ResolveDeckIds(deckId, includeSubdecks, col.deckAndChildIds), true)).None? ==>
        stats.reviewedHanzi <= stats.totalHanzi
    {
      var deckName := if deckId != 0 then col.deckName(deckId) else ALL_DECKS_NAME;
      stats := new DeckStatistics(deckId, deckName);
      var deckIds := ResolveDeckIds(deckId, includeSubdecks, col.deckAndChildIds);
      var fieldMode := FieldMode(config);
      var total := GetHanziFromCards(deckIds, true, fieldMode);
      stats.totalHanzi := total;
      var reviewed := GetHanziFromCards(deckIds, false, fieldMode);
      stats.reviewedHanzi := reviewed;
      if ShowCategories(config) {
        var totalCategorized := characterData.CategorizeCharacters(total);
        stats.totalCategorized := totalCategorized;
        var reviewedCategorized := characterData.CategorizeCharacters(reviewed);
        stats.reviewedCategorized := reviewedCategorized;
      }
      if col.failAfter(Query(deckIds, true)).None? {
        ReviewedWithinTotal(col, deckIds, fieldMode, nfc);
      }
    }

    /** The statistics of every top-level deck, in enumeration order. */
    method CalculateAllDecksStats(includeSubdecks: bool := true) returns (allStats: seq<DeckStatistics>)
      ensures |allStats| == |TopLevelDecks(col.decks)|
      ensures forall i :: 0 <= i < |allStats| ==>
        DeckStatsAre(allStats[i], TopLevelDecks(col.decks)[i].id, includeSubdecks)
    {
      allStats := [];
      ghost var hsk, frequency := characterData.hsk2021Map, characterData.frequencyRankMap;
      ghost var top: seq<DeckNameId> := [];
      for i := 0 to |col.decks|
        invariant top == TopLevelDecks(col.decks[..i])
        invariant |allStats| == |top|
        invariant forall k :: 0 <= k < |allStats| ==> allStats[k].Value() == ExpectedStats(hsk, frequency, top[k].id, includeSubdecks)
      {
        var deck := col.decks[i];
        TopLevelDecksSnoc(col.decks, i);
        if !Contains(deck.name, "::") {
          var stats := CalculateDeckStats(deck.id, includeSubdecks);
          allStats := allStats + [stats];
          top := top + [deck];
        }
      }
      assert col.decks[..|col.decks|] == col.decks;
    }

    /** The deck choices: "All Decks" (id 0) first, then every deck of the enumeration in order. */
    method GetDeckList() returns (decks: seq<(int, string)>)
      ensures |decks| == |col.decks| + 1
      ensures decks[0] == (0, ALL_DECKS_NAME)
      ensures forall i :: 0 <= i < |col.decks| ==> decks[i + 1] == (col.decks[i].id, col.decks[i].name)
    {
      decks := [(0, ALL_DECKS_NAME)];
      var i := 0;
      while i < |col.decks|
        invariant 0 <= i <= |col.decks|
        invariant |decks| == i + 1 && decks[0] == (0, ALL_DECKS_NAME)
        invariant forall k :: 0 <= k < i ==> decks[k + 1] == (col.decks[k].id, col.decks[k].name)
      {
        decks := decks + [(col.decks[i].id, col.decks[i].name)];
        i := i + 1;
      }
    }
  }
}
