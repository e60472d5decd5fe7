/**
 * Hands and the per-participant scorer data (Assets/Scripts/Scorer.cs), with
 * the scorer operations the round manager calls.
 *
 * The bodies of the scorer operations (UpdateScore, AddCard, SetHandState,
 * Initialize, ClearHand, AddBet, Payout, SetCash) are not part of this model's
 * source; each is given the smallest definition the manager's use of it needs.
 * The scoring rule itself stays a parameter: a function of the visible cards
 * giving a score and whether the hand is bust.
 */
module Scoring {
  import opened Cards

  datatype HandState = Invalid | Playing | Stand | Bust | Blackjack | Win | Lose

  /** The enum's default value (Invalid = 0). */
  const DefaultHandState: HandState := Invalid

  /**
   * One hand. The source keeps card objects; only the card value each one
   * carries matters to the rules, so a hand keeps the values.
   */
  datatype Hand = Hand(handState: HandState, bet: int, score: int, cards: seq<CardData>)

  /** `new Hand()`: an empty card list, every other field at its default. */
  function NewHand(): (h: Hand)
    ensures h.cards == [] && h.bet == 0 && h.score == 0 && h.handState == DefaultHandState
  {
    Hand(DefaultHandState, 0, 0, [])
  }

  /**
   * A participant's cash and hands. A null hand list and an empty one are
   * treated alike by every check in the manager, so both are the empty
   * sequence here.
   */
  datatype ScorerData = ScorerData(cash: int, hands: seq<Hand>)

  /** `default(ScorerData)`: a seat nobody has joined. */
  const Unjoined: ScorerData := ScorerData(0, [])

  /** The manager's "initialised" test: the hand list is neither null nor empty. */
  predicate Joined(p: ScorerData) { |p.hands| > 0 }

  /** Taking part in this round: joined, and the first hand carries a bet. */
  predicate InRound(p: ScorerData) { Joined(p) && p.hands[0].bet != 0 }

  function FirstHand(p: ScorerData): Hand
    requires Joined(p)
  {
    p.hands[0]
  }

  function WithFirstHand(p: ScorerData, h: Hand): (r: ScorerData)
    requires Joined(p)
    ensures Joined(r) && FirstHand(r) == h && r.cash == p.cash
    ensures |r.hands| == |p.hands| && r.hands[1..] == p.hands[1..]
  {
    p.(hands := p.hands[0 := h])
  }

  /** The cards that count for scoring and display: those not hidden, in order. */
  function Visible(cards: seq<CardData>): (v: seq<CardData>)
    ensures |v| <= |cards|
  {
    if cards == [] then []
    else if cards[0].isHidden then Visible(cards[1..])
    else [cards[0]] + Visible(cards[1..])
  }

  /** `Visible` keeps exactly the cards that are not hidden. */
  lemma {:induction false} VisibleContents(cards: seq<CardData>)
    ensures forall c :: c in Visible(cards) <==> c in cards && !c.isHidden
  {
    if cards != [] {
      VisibleContents(cards[1..]);
      assert cards == [cards[0]] + cards[1..];
    }
  }

  /** The hand-scoring rule, left uninterpreted: any score and bust test of the visible cards. */
  datatype ScoringRule = ScoringRule(score: seq<CardData> -> int, busts: seq<CardData> -> bool)

  /** UpdateScore: rescore the first hand from its visible cards; the rule may set Bust. */
  function UpdateScore(rule: ScoringRule, p: ScorerData): (r: ScorerData)
    requires Joined(p)
    ensures Joined(r) && r.cash == p.cash && |r.hands| == |p.hands| && r.hands[1..] == p.hands[1..]
    ensures FirstHand(r).cards == FirstHand(p).cards && FirstHand(r).bet == FirstHand(p).bet
    ensures FirstHand(r).score == rule.score(Visible(FirstHand(p).cards))
    ensures FirstHand(r).handState == if rule.busts(Visible(FirstHand(p).cards)) then Bust else FirstHand(p).handState
  {
    var h := FirstHand(p);
    var visible := Visible(h.cards);
    WithFirstHand(p, h.(score := rule.score(visible), handState := if rule.busts(visible) then Bust else h.handState))
  }

  /** AddCard: append a card to the first hand; nothing is rescored. */
  function AddCard(p: ScorerData, c: CardData): (r: ScorerData)
    requires Joined(p)
    ensures Joined(r) && r.cash == p.cash && |r.hands| == |p.hands| && r.hands[1..] == p.hands[1..]
    ensures FirstHand(r).cards == FirstHand(p).cards + [c]
    ensures FirstHand(r) == FirstHand(p).(cards := FirstHand(r).cards)
  {
    WithFirstHand(p, FirstHand(p).(cards := FirstHand(p).cards + [c]))
  }

  /** SetHandState: assign the first hand's state. */
  function SetHandState(p: ScorerData, s: HandState): (r: ScorerData)
    requires Joined(p)
    ensures Joined(r) && r.cash == p.cash && |r.hands| == |p.hands| && r.hands[1..] == p.hands[1..]
    ensures FirstHand(r).handState == s && FirstHand(r) == FirstHand(p).(handState := s)
  {
    WithFirstHand(p, FirstHand(p).(handState := s))
  }

  /** Initialize: seed the cash and start one empty, unbet hand in play. */
  function Initialize(cash: int): (r: ScorerData)
    ensures Joined(r) && !InRound(r) && r.cash == cash && |r.hands| == 1
    ensures FirstHand(r).cards == [] && FirstHand(r).handState == Playing
  {
    ScorerData(cash, [NewHand().(handState := Playing)])
  }

  /** ClearHand: drop every hand; the cash is kept. */
  function ClearHand(p: ScorerData): (r: ScorerData)
    ensures !Joined(r) && r.cash == p.cash
  {
    p.(hands := [])
  }

  /** AddBet: move `amount` from cash to the first hand's bet, unless it exceeds the cash. */
  function AddBet(p: ScorerData, amount: int): (r: ScorerData)
    requires Joined(p)
    ensures amount > p.cash ==> r == p
    ensures amount <= p.cash ==>
      && Joined(r) && r.cash == p.cash - amount && |r.hands| == |p.hands| && r.hands[1..] == p.hands[1..]
      && FirstHand(r) == FirstHand(p).(bet := FirstHand(p).bet + amount)
  {
    if amount > p.cash then p
    else WithFirstHand(p.(cash := p.cash - amount), FirstHand(p).(bet := FirstHand(p).bet + amount))
  }

  /** Payout: credit the cash by `amount`. */
  function Payout(p: ScorerData, amount: int): (r: ScorerData)
    ensures r.cash == p.cash + amount && r.hands == p.hands
  {
    p.(cash := p.cash + amount)
  }

  /** SetCash: overwrite the cash. */
  function SetCash(p: ScorerData, cash: int): (r: ScorerData)
    ensures r.cash == cash && r.hands == p.hands
  {
    p.(cash := cash)
  }
}
