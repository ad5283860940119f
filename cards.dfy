/**
 * The card-naming part of send_daily_card (vestnik.py:139-155): a card
 * index 0..77 in a deck becomes a display name, and, with the deck's
 * name and the card's meaning, the three values put into the caption
 * template. The card and deck draws are parameters here.
 */
module Cards {

  /** The card data file, decoded afresh on every call. */
  datatype CardData = CardData(
    decks: map<string, string>,             // deck id -> deck display name
    meanings: map<string, seq<string>>,     // deck id (or "normal") -> meaning per card
    ranks: seq<string>,                     // base rank names of a suit card
    altRanks: map<string, seq<string>>,     // deck id -> names of ranks 10 and up
    suits: seq<string>,                     // base suit names
    altSuits: map<string, seq<string>>,     // deck id -> suit names
    roman: seq<string>,                     // numerals of the major arcana
    major: seq<string>)                     // names of the major arcana

  const CardCount: nat := 78
  const MajorCount: nat := 22
  const RanksPerSuit: nat := 14
  const SuitCount: nat := 4
  /** Ranks below this index are numerals and never overridden. */
  const FirstFaceRank: nat := 10

  /** The fallback meanings table. */
  const NormalDeck: string := "normal"

  /**
   * What the data file must hold for naming never to index out of range
   * or miss a key. An empty alt-suit or meanings table is allowed: Python's
   * `or` falls back to the base table for it. An empty alt-rank table is
   * not: it is tested with `in` and would cut the rank names down to ten.
   * The "normal" meanings are needed only by a deck that falls back to
   * them (HasMeanings).
   */
  predicate ValidData(data: CardData)
  {
    |data.ranks| >= RanksPerSuit &&
    |data.suits| >= SuitCount &&
    |data.roman| >= MajorCount && |data.major| >= MajorCount &&
    (forall d :: d in data.meanings ==> data.meanings[d] == [] || |data.meanings[d]| >= CardCount) &&
    (forall d :: d in data.altRanks ==> |data.altRanks[d]| >= RanksPerSuit - FirstFaceRank) &&
    (forall d :: d in data.altSuits ==> data.altSuits[d] == [] || |data.altSuits[d]| >= SuitCount)
  }

  /** The deck has meanings of its own, or the "normal" table it falls back to is there. */
  predicate HasMeanings(data: CardData, deckId: string)
  {
    (deckId in data.meanings && data.meanings[deckId] != []) ||
    (NormalDeck in data.meanings && |data.meanings[NormalDeck]| >= CardCount)
  }

  /** A suit card (index above 21) as (rank, suit). */
  function SuitCard(cardId: nat): (rankSuit: (nat, nat))
    requires MajorCount <= cardId < CardCount
    ensures rankSuit.0 < RanksPerSuit && rankSuit.1 < SuitCount
    ensures MajorCount + RanksPerSuit * rankSuit.1 + rankSuit.0 == cardId
  {
    ((cardId - MajorCount) % RanksPerSuit, (cardId - MajorCount) / RanksPerSuit)
  }

  /** Every (rank, suit) pair is the rank and suit of exactly one suit card. */
  lemma SuitCardUnique(rank: nat, suit: nat)
    requires rank < RanksPerSuit && suit < SuitCount
    ensures MajorCount <= MajorCount + RanksPerSuit * suit + rank < CardCount
    ensures SuitCard(MajorCount + RanksPerSuit * suit + rank) == (rank, suit)
  {
  }

  /**
   * `rank_names` after `rank_names[10:] = altRanks[deck_id]`: the base
   * names, with the face ranks replaced when the deck has an override.
   */
  function RankNames(data: CardData, deckId: string): (names: seq<string>)
    requires ValidData(data)
    ensures |names| >= RanksPerSuit
    ensures names[..FirstFaceRank] == data.ranks[..FirstFaceRank]
    ensures deckId in data.altRanks ==> names[FirstFaceRank..] == data.altRanks[deckId]
    ensures deckId !in data.altRanks ==> names == data.ranks
  {
    if deckId in data.altRanks then data.ranks[..FirstFaceRank] + data.altRanks[deckId]
    else data.ranks
  }

  /** `altSuits.get(deck_id) or suits`. */
  function SuitNames(data: CardData, deckId: string): (names: seq<string>)
    requires ValidData(data)
    ensures |names| >= SuitCount
    ensures deckId in data.altSuits && data.altSuits[deckId] != [] ==> names == data.altSuits[deckId]
    ensures deckId !in data.altSuits || data.altSuits[deckId] == [] ==> names == data.suits
  {
    if deckId in data.altSuits && data.altSuits[deckId] != [] then data.altSuits[deckId]
    else data.suits
  }

  /** `meanings.get(deck_id) or meanings['normal']`. */
  function Meanings(data: CardData, deckId: string): (table: seq<string>)
    requires ValidData(data) && HasMeanings(data, deckId)
    ensures |table| >= CardCount
    ensures deckId in data.meanings && data.meanings[deckId] != [] ==> table == data.meanings[deckId]
    ensures deckId !in data.meanings || data.meanings[deckId] == [] ==> table == data.meanings[NormalDeck]
  {
    if deckId in data.meanings && data.meanings[deckId] != [] then data.meanings[deckId]
    else data.meanings[NormalDeck]
  }

  /** card_name: "<rank> <suit>" for a suit card, "<numeral> <name>" for a major card. */
  function CardName(data: CardData, cardId: nat, deckId: string): (name: string)
    requires ValidData(data) && cardId < CardCount
    ensures cardId < MajorCount ==> name == data.roman[cardId] + " " + data.major[cardId]
  {
    if cardId >= MajorCount then
      var (rank, suit) := SuitCard(cardId);
      RankNames(data, deckId)[rank] + " " + SuitNames(data, deckId)[suit]
    else
      data.roman[cardId] + " " + data.major[cardId]
  }

  /** The values substituted into the caption template, in order. */
  datatype CaptionFields = CaptionFields(cardName: string, deckName: string, meaning: string)

  /** The caption arguments of the card `cardId` drawn from deck `deckId`. */
  function Caption(data: CardData, cardId: nat, deckId: string): (fields: CaptionFields)
    requires ValidData(data) && cardId < CardCount && deckId in data.decks && HasMeanings(data, deckId)
    ensures fields.cardName == CardName(data, cardId, deckId)
    ensures fields.deckName == data.decks[deckId]
    ensures deckId in data.meanings && data.meanings[deckId] != [] ==> fields.meaning == data.meanings[deckId][cardId]
    ensures deckId !in data.meanings || data.meanings[deckId] == [] ==>
              fields.meaning == data.meanings[NormalDeck][cardId]
  {
    CaptionFields(CardName(data, cardId, deckId), data.decks[deckId], Meanings(data, deckId)[cardId])
  }

  /** A major card's name comes from the two fixed tables and not from the deck. */
  lemma MajorNameIgnoresDeck(data: CardData, cardId: nat, deckId: string, otherDeck: string)
    requires ValidData(data) && cardId < MajorCount
    ensures CardName(data, cardId, deckId) == data.roman[cardId] + " " + data.major[cardId]
    ensures CardName(data, cardId, deckId) == CardName(data, cardId, otherDeck)
  {
  }

  /** A suit card's name uses a deck's override only for face ranks (10 and up). */
  lemma NumeralRanksIgnoreOverrides(data: CardData, cardId: nat, deckId: string)
    requires ValidData(data) && MajorCount <= cardId < CardCount
    requires SuitCard(cardId).0 < FirstFaceRank
    ensures CardName(data, cardId, deckId)
            == data.ranks[SuitCard(cardId).0] + " " + SuitNames(data, deckId)[SuitCard(cardId).1]
  {
    var names := RankNames(data, deckId);
    assert names[SuitCard(cardId).0] == names[..FirstFaceRank][SuitCard(cardId).0];
  }

  /** A suit card is named by its rank in the deck's rank names and its suit in the deck's suit names. */
  lemma SuitCardName(data: CardData, cardId: nat, deckId: string)
    requires ValidData(data) && MajorCount <= cardId < CardCount
    ensures CardName(data, cardId, deckId)
            == RankNames(data, deckId)[SuitCard(cardId).0] + " " + SuitNames(data, deckId)[SuitCard(cardId).1]
  {
  }

  /** A face card (rank 10 and up) of a deck with a rank override takes its rank name from the override. */
  lemma FaceRankUsesOverride(data: CardData, cardId: nat, deckId: string)
    requires ValidData(data) && MajorCount <= cardId < CardCount
    requires deckId in data.altRanks && SuitCard(cardId).0 >= FirstFaceRank
    ensures CardName(data, cardId, deckId)
            == data.altRanks[deckId][SuitCard(cardId).0 - FirstFaceRank] + " " + SuitNames(data, deckId)[SuitCard(cardId).1]
  {
    var names := RankNames(data, deckId);
    assert names[SuitCard(cardId).0] == names[FirstFaceRank..][SuitCard(cardId).0 - FirstFaceRank];
  }

  /** A face card of a deck without a rank override keeps the base rank name. */
  lemma FaceRankWithoutOverride(data: CardData, cardId: nat, deckId: string)
    requires ValidData(data) && MajorCount <= cardId < CardCount
    requires deckId !in data.altRanks
    ensures CardName(data, cardId, deckId)
            == data.ranks[SuitCard(cardId).0] + " " + SuitNames(data, deckId)[SuitCard(cardId).1]
  {
  }

  /** A suit card of a deck without overrides is named by the base rank and suit tables. */
  lemma PlainDeckSuitCardName(data: CardData, cardId: nat, deckId: string)
    requires ValidData(data) && MajorCount <= cardId < CardCount
    requires deckId !in data.altRanks && deckId !in data.altSuits
    ensures CardName(data, cardId, deckId)
            == data.ranks[(cardId - MajorCount) % RanksPerSuit] + " " + data.suits[(cardId - MajorCount) / RanksPerSuit]
  {
  }

  /** Card 25 of a deck without overrides is rank 3 of suit 0. */
  lemma Card25(data: CardData)
    requires ValidData(data)
    requires NormalDeck !in data.altRanks && NormalDeck !in data.altSuits
    ensures SuitCard(25) == (3, 0)
    ensures CardName(data, 25, NormalDeck) == data.ranks[3] + " " + data.suits[0]
  {
  }
}
