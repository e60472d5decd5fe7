/**
 * Suits, ranks and the value carried by every card (Assets/Scripts/Card.cs).
 *
 * Both enums are backed by a byte, so a `Suit` or `Rank` can hold any value
 * 0..255; the named members and the `COUNT` sentinels are constants of that
 * type. This keeps the range check of `GetCardSprite` meaningful.
 */
module Cards {
  import opened Options

  newtype Suit = x: int | 0 <= x < 256
  newtype Rank = x: int | 0 <= x < 256

  const Club: Suit := 0
  const Diamond: Suit := 1
  const Heart: Suit := 2
  const Spade: Suit := 3
  /** Sentinel: the number of suits, not a suit. */
  const SuitCount: Suit := 4

  const Ace: Rank := 0
  const Two: Rank := 1
  const Three: Rank := 2
  const Four: Rank := 3
  const Five: Rank := 4
  const Six: Rank := 5
  const Seven: Rank := 6
  const Eight: Rank := 7
  const Nine: Rank := 8
  const Ten: Rank := 9
  const Jack: Rank := 10
  const Queen: Rank := 11
  const King: Rank := 12
  /** Sentinel: the number of ranks, not a rank. */
  const RankCount: Rank := 13

  /** The named suits and ranks, in declaration order. */
  const Suits: seq<Suit> := [Club, Diamond, Heart, Spade]
  const Ranks: seq<Rank> := [Ace, Two, Three, Four, Five, Six, Seven, Eight, Nine, Ten, Jack, Queen, King]

  /** The card struct; its constructor stores the three fields unchanged. */
  datatype CardData = CardData(suit: Suit, rank: Rank, isHidden: bool)

  /** The number of (suit, rank) pairs: the size of one deck. */
  const CardsPerDeck: nat := 52

  predicate IsSuit(s: Suit) { s < SuitCount }
  predicate IsRank(r: Rank) { r < RankCount }

  /** A card with a sprite: its suit and rank are named members. */
  predicate HasFace(c: CardData) { IsSuit(c.suit) && IsRank(c.rank) }

  /**
   * The range check and index arithmetic of GetCardSprite: an index into the
   * suit-major sheet of 52 sprites, or None for an out-of-range suit or rank.
   */
  function SpriteIndex(suit: Suit, rank: Rank): (r: Option<nat>)
    ensures r.Some? <==> IsSuit(suit) && IsRank(rank)
    ensures r.Some? ==> r.value < CardsPerDeck
    ensures r.Some? ==> r.value / 13 == suit as int && r.value % 13 == rank as int
  {
    if suit < 0 || suit >= SuitCount || rank < 0 || rank >= RankCount then None
    else Some(suit as int * RankCount as int + rank as int)
  }

  /** The face-up card whose sprite sits at index `i` of the sheet. */
  function SlotCard(i: nat): (c: CardData)
    requires i < CardsPerDeck
    ensures HasFace(c) && !c.isHidden
    ensures SpriteIndex(c.suit, c.rank) == Some(i)
  {
    CardData((i / 13) as Suit, (i % 13) as Rank, false)
  }

  /** The named members are exactly the in-range values of each enum. */
  lemma {:induction false} NamedMembers()
    ensures forall s: Suit :: IsSuit(s) <==> s in Suits
    ensures forall r: Rank :: IsRank(r) <==> r in Ranks
    ensures forall i :: 0 <= i < |Suits| ==> Suits[i] as int == i
    ensures forall i :: 0 <= i < |Ranks| ==> Ranks[i] as int == i
  {
  }

  /**
   * The sheet index is a bijection between the 4 x 13 (suit, rank) pairs and
   * 0..51: there are exactly 52 distinct face-up cards.
   */
  lemma {:induction false} FacesAreSlots(c: CardData)
    requires HasFace(c) && !c.isHidden
    ensures SpriteIndex(c.suit, c.rank).Some?
    ensures SlotCard(SpriteIndex(c.suit, c.rank).value) == c
  {
  }

  lemma {:induction false} SlotsAreDistinct(i: nat, j: nat)
    requires i < CardsPerDeck && j < CardsPerDeck && i != j
    ensures SlotCard(i) != SlotCard(j)
  {
    assert SpriteIndex(SlotCard(i).suit, SlotCard(i).rank) == Some(i);
  }
}
