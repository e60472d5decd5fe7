/**
 * The draw pile (Assets/Scripts/Deck.cs): `decks` copies of the 52 cards are
 * laid out in canonical suit/rank order, permuted by a seeded shuffle, and
 * pushed onto a stack whose top is drawn by GetTopCard.
 */
module Decks {
  import opened Options
  import opened Cards

  /**
   * The seeded in-place shuffle (`Utils.Shuffle(new Random(seed), allCards)`).
   * Its body is not part of this model, so it is a parameter: a function of
   * the seed and the array's contents.
   */
  type Permuter = (int, seq<CardData>) -> seq<CardData>

  /** The shuffle's contract: it only rearranges the cards. */
  ghost predicate IsPermutation(permute: Permuter) {
    forall seed: int, s: seq<CardData> :: multiset(permute(seed, s)) == multiset(s)
  }

  /** One deck in canonical order: slot `j*13 + k` holds suit j, rank k, face up. */
  function OneDeck(): (d: seq<CardData>)
    ensures |d| == CardsPerDeck
    ensures forall i :: 0 <= i < CardsPerDeck ==> d[i] == SlotCard(i)
  {
    seq(CardsPerDeck, i requires 0 <= i < CardsPerDeck => SlotCard(i))
  }

  /** The contents of `allCards` before the shuffle: `decks` canonical decks in a row. */
  function CanonicalDeck(decks: nat): (d: seq<CardData>)
    ensures |d| == decks * CardsPerDeck
    ensures forall c :: c in d ==> HasFace(c) && !c.isHidden
  {
    if decks == 0 then [] else CanonicalDeck(decks - 1) + OneDeck()
  }

  /** The pile left by Shuffle(seed, decks), bottom first: the shuffled canonical cards. */
  function ShuffledPile(permute: Permuter, seed: int, decks: nat): seq<CardData>
  {
    permute(seed, CanonicalDeck(decks))
  }

  /** Every card of the pile has a face and is not hidden. */
  predicate FacePile(pile: seq<CardData>) {
    forall c :: c in pile ==> HasFace(c) && !c.isHidden
  }

  lemma {:induction false} CanonicalAt(decks: nat, t: nat)
    requires t < decks * CardsPerDeck
    ensures CanonicalDeck(decks)[t] == SlotCard(t % CardsPerDeck)
  {
    var prev := CanonicalDeck(decks - 1);
    if t < (decks - 1) * CardsPerDeck {
      CanonicalAt(decks - 1, t);
      assert CanonicalDeck(decks)[t] == prev[t];
    } else {
      var r := t - (decks - 1) * CardsPerDeck;
      assert CanonicalDeck(decks)[t] == OneDeck()[r];
      assert t == (decks - 1) * CardsPerDeck + r;
      ModOfBlock(decks - 1, r);
    }
  }

  lemma {:induction false} ModOfBlock(q: nat, r: nat)
    requires r < CardsPerDeck
    ensures (q * CardsPerDeck + r) % CardsPerDeck == r
  {
  }

  /** Before permuting, slot `i*52 + j*13 + k` holds (suit j, rank k, face up). */
  lemma {:induction false} CanonicalSlot(decks: nat, i: nat, j: nat, k: nat)
    requires i < decks && j < SuitCount as nat && k < RankCount as nat
    ensures i * 52 + j * 13 + k < |CanonicalDeck(decks)|
    ensures CanonicalDeck(decks)[i * 52 + j * 13 + k] == CardData(j as Suit, k as Rank, false)
  {
    CanonicalAt(decks, i * 52 + j * 13 + k);
    ModOfBlock(i, j * 13 + k);
    assert SpriteIndex(j as Suit, k as Rank) == Some(j * 13 + k);
  }

  /** A sequence without repeated elements holds each of its elements once. */
  lemma {:induction false} DistinctCount(s: seq<CardData>, x: CardData)
    requires forall i, j :: 0 <= i < j < |s| ==> s[i] != s[j]
    ensures multiset(s)[x] == if x in s then 1 else 0
  {
    if s != [] {
      var init := s[..|s| - 1];
      assert s == init + [s[|s| - 1]];
      DistinctCount(init, x);
      assert x == s[|s| - 1] ==> x !in init;
    }
  }

  /** One deck holds every face-up card exactly once and nothing else. */
  lemma {:induction false} OneDeckCount(c: CardData)
    ensures multiset(OneDeck())[c] == if HasFace(c) && !c.isHidden then 1 else 0
  {
    var d := OneDeck();
    forall i, j | 0 <= i < j < |d| ensures d[i] != d[j] {
      SlotsAreDistinct(i, j);
    }
    DistinctCount(d, c);
    if HasFace(c) && !c.isHidden {
      FacesAreSlots(c);
      assert d[SpriteIndex(c.suit, c.rank).value] == c;
    }
  }

  /** `decks` canonical decks hold each face-up card exactly `decks` times. */
  lemma {:induction false} CanonicalCount(decks: nat, c: CardData)
    ensures multiset(CanonicalDeck(decks))[c] == if HasFace(c) && !c.isHidden then decks else 0
  {
    if decks > 0 {
      CanonicalCount(decks - 1, c);
      OneDeckCount(c);
      assert CanonicalDeck(decks) == CanonicalDeck(decks - 1) + OneDeck();
    }
  }

  /**
   * After Shuffle(seed, decks) the pile holds `decks * 52` cards, each face-up
   * card exactly `decks` times and nothing else; it depends on (seed, decks) only.
   */
  lemma {:induction false} ShuffledPileContents(permute: Permuter, seed: int, decks: nat, c: CardData)
    requires IsPermutation(permute)
    ensures |ShuffledPile(permute, seed, decks)| == decks * CardsPerDeck
    ensures multiset(ShuffledPile(permute, seed, decks))[c] == if HasFace(c) && !c.isHidden then decks else 0
    ensures FacePile(ShuffledPile(permute, seed, decks))
  {
    var canon := CanonicalDeck(decks);
    var pile := ShuffledPile(permute, seed, decks);
    assert multiset(pile) == multiset(canon);
    assert |pile| == |multiset(pile)| == |multiset(canon)| == |canon|;
    CanonicalCount(decks, c);
    forall x | x in pile ensures HasFace(x) && !x.isHidden {
      assert x in multiset(pile);
      assert x in multiset(canon);
    }
  }

  /** The triple loop of Shuffle that lays out the canonical order in `allCards`. */
  method BuildCanonical(decks: nat) returns (allCards: array<CardData>)
    ensures fresh(allCards)
    ensures allCards[..] == CanonicalDeck(decks)
  {
    allCards := new CardData[decks * 52];
    ghost var canon := CanonicalDeck(decks);
    var iter := 0;
    for i := 0 to decks
      invariant iter == i * 52
      invariant forall m :: 0 <= m < iter ==> allCards[m] == canon[m]
    {
      for j := 0 to SuitCount as int
        invariant iter == i * 52 + j * 13
        invariant forall m :: 0 <= m < iter ==> allCards[m] == canon[m]
      {
        for k := 0 to RankCount as int
          invariant iter == i * 52 + j * 13 + k
          invariant forall m :: 0 <= m < iter ==> allCards[m] == canon[m]
        {
          CanonicalSlot(decks, i, j, k);
          allCards[iter] := CardData(j as Suit, k as Rank, false);
          iter := iter + 1;
        }
      }
    }
    assert allCards[..] == canon;
  }

  /** The shuffle applied in place to the array. */
  method ShuffleInPlace(permute: Permuter, seed: int, a: array<CardData>)
    requires IsPermutation(permute)
    modifies a
    ensures a[..] == permute(seed, old(a[..]))
  {
    var shuffled := permute(seed, a[..]);
    assert |shuffled| == |multiset(shuffled)| == |multiset(a[..])| == a.Length;
    forall i | 0 <= i < a.Length {
      a[i] := shuffled[i];
    }
  }

  class Deck {
    /** The Stack<CardData>; its top is the last element. A missing stack is the empty one. */
    var cards: seq<CardData>

    constructor ()
      ensures cards == []
    {
      cards := [];
    }

    /** The pile size read by the round manager. */
    function GetCardCount(): (n: nat)
      reads this
      ensures n == |cards|
    {
      |cards|
    }

    /** Shuffle(seed, decks): discard the old pile and push the shuffled cards in array order. */
    method Shuffle(permute: Permuter, seed: int, decks: nat)
      requires IsPermutation(permute)
      modifies this
      ensures cards == ShuffledPile(permute, seed, decks)
      ensures FacePile(cards) && |cards| == decks * CardsPerDeck
    {
      var allCards := BuildCanonical(decks);
      ShuffleInPlace(permute, seed, allCards);
      assert allCards[..] == ShuffledPile(permute, seed, decks);
      cards := [];
      for i := 0 to allCards.Length
        invariant allCards[..] == ShuffledPile(permute, seed, decks)
        invariant cards == allCards[..i]
      {
        cards := cards + [allCards[i]];
      }
      assert allCards[..] == cards;
      ShuffledPileContents(permute, seed, decks, CardData(Club, Ace, false));
    }

    /**
     * GetTopCard: on a non-empty pile, pop and return the top card with true;
     * on an empty pile, return false with `default(CardData)` and leave it alone.
     */
    method GetTopCard() returns (ok: bool, card: CardData)
      modifies this
      ensures ok == (old(cards) != [])
      ensures ok ==> card == old(cards)[|old(cards)| - 1] && cards == old(cards)[..|old(cards)| - 1]
      ensures !ok ==> card == CardData(Club, Ace, false) && cards == old(cards)
    {
      if |cards| > 0 {
        card := cards[|cards| - 1];
        cards := cards[..|cards| - 1];
        return true, card;
      }
      card := CardData(Club, Ace, false);
      return false, card;
    }
  }
}
