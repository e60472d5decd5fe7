/**
 * The round rules of the Blackjack manager (Assets/Scripts/BlackjackManager.cs)
 * as functions on a value of the table: the players, the dealer, the draw
 * pile and the turn index. The manager class in
 * manager.dfy is proved to change its state exactly as these functions say.
 */
module Round {
  import opened Options
  import opened Cards
  import opened Scoring
  import opened Decks

  datatype GameState = Shuffle | Betting | Dealing | Playing | Result

  /**
   * What the manager is configured with: the scoring rule and the seeded
   * shuffle (both left abstract), the three integer settings, and
   * GameConstants.MAXIMUM_PLAYER_COUNT.
   */
  datatype Config = Config(
    rule: ScoringRule,
    shuffle: Permuter,
    minimumBetAmount: int,
    startingPlayerCash: int,
    numberOfDecks: nat,
    maximumPlayerCount: int)

  /** A seat: a player's index into `players`, or the dealer. */
  datatype Seat = Player(index: nat) | Dealer

  /** The manager's round state; the pile's top card is its last element. */
  datatype Table = Table(
    players: seq<ScorerData>,
    dealer: ScorerData,
    pile: seq<CardData>,
    turn: int)

  predicate HasSeat(t: Table, s: Seat) {
    s.Player? ==> s.index < |t.players|
  }

  function At(t: Table, s: Seat): ScorerData
    requires HasSeat(t, s)
  {
    if s.Dealer? then t.dealer else t.players[s.index]
  }

  function Put(t: Table, s: Seat, p: ScorerData): (r: Table)
    requires HasSeat(t, s)
    ensures r.pile == t.pile && r.turn == t.turn
    ensures s.Dealer? ==> r.players == t.players && r.dealer == p
    ensures s.Player? ==> r.players == t.players[s.index := p] && r.dealer == t.dealer
  {
    if s.Dealer? then t.(dealer := p) else t.(players := t.players[s.index := p])
  }

  /** Every seat other than `s` is the same in `r` as in `t`. */
  predicate OthersUnchanged(t: Table, r: Table, s: Seat)
    requires HasSeat(t, s) && HasSeat(r, s)
  {
    if s.Dealer? then r.players == t.players
    else r.dealer == t.dealer && r.players == t.players[s.index := r.players[s.index]]
  }

  function Top(pile: seq<CardData>): CardData
    requires pile != []
  {
    pile[|pile| - 1]
  }

  function Pop(pile: seq<CardData>): seq<CardData>
    requires pile != []
  {
    pile[..|pile| - 1]
  }

  /** The card as DealCard hands it out: its hidden flag overwritten. */
  function Marked(c: CardData, hidden: bool): CardData {
    c.(isHidden := hidden)
  }

  /**
   * DealCard keeps a drawn card when it is hidden or GetCardSprite accepts its
   * suit and rank, which is when both are in range (see `KeptIsSprite`).
   */
  predicate Kept(c: CardData) {
    c.isHidden || HasFace(c)
  }

  /** `Kept` is DealCard's own test: hidden, or GetCardSprite finds a sprite. */
  lemma {:induction false} KeptIsSprite(c: CardData)
    ensures Kept(c) <==> c.isHidden || SpriteIndex(c.suit, c.rank).Some?
  {
  }

  /** Whether DealCard on `t` gives the seat a card. */
  predicate Gives(t: Table, hidden: bool) {
    t.pile != [] && Kept(Marked(Top(t.pile), hidden))
  }

  /**
   * DealCard: pop the top card if there is one; mark it hidden or not; if it is
   * hidden or has a sprite, add it to the seat's first hand (and, in the
   * manager, to the list of dealt cards: see `DealtBy`).
   */
  function DealCard(t: Table, s: Seat, hidden: bool): (r: Table)
    requires HasSeat(t, s) && Joined(At(t, s))
    ensures |r.players| == |t.players| && r.turn == t.turn && HasSeat(r, s) && Joined(At(r, s))
    ensures InRound(At(r, s)) == InRound(At(t, s)) && At(r, s).cash == At(t, s).cash
    ensures OthersUnchanged(t, r, s)
    ensures r.pile == if t.pile == [] then [] else Pop(t.pile)
    ensures Gives(t, hidden) ==>
      At(r, s) == AddCard(At(t, s), Marked(Top(t.pile), hidden))
    ensures !Gives(t, hidden) ==> At(r, s) == At(t, s)
  {
    if t.pile == [] then t
    else
      var card := Marked(Top(t.pile), hidden);
      var popped := t.(pile := Pop(t.pile));
      if Kept(card) then
        Put(popped, s, AddCard(At(t, s), card))
      else
        popped
  }

  /** What DealCard appends to the manager's list of dealt cards: the card it gives, if any. */
  function DealtBy(t: Table, hidden: bool): (r: seq<CardData>)
    ensures |r| <= 1 && (r != [] <==> Gives(t, hidden))
  {
    if Gives(t, hidden) then [Marked(Top(t.pile), hidden)] else []
  }

  /** `UpdateScore` on one seat. */
  function Rescore(rule: ScoringRule, t: Table, s: Seat): (r: Table)
    requires HasSeat(t, s) && Joined(At(t, s))
    ensures |r.players| == |t.players| && HasSeat(r, s) && Joined(At(r, s))
    ensures InRound(At(r, s)) == InRound(At(t, s)) && At(r, s).cash == At(t, s).cash
    ensures r.pile == t.pile && r.turn == t.turn && OthersUnchanged(t, r, s)
    ensures FirstHand(At(r, s)).cards == FirstHand(At(t, s)).cards
    ensures FirstHand(At(r, s)).bet == FirstHand(At(t, s)).bet
    ensures FirstHand(At(r, s)).score == rule.score(Visible(FirstHand(At(t, s)).cards))
    ensures FirstHand(At(r, s)).handState ==
      if rule.busts(Visible(FirstHand(At(t, s)).cards)) then Bust else FirstHand(At(t, s)).handState
    ensures At(r, s).hands[1..] == At(t, s).hands[1..]
  {
    Put(t, s, UpdateScore(rule, At(t, s)))
  }

  // ---------------------------------------------------------------- turns

  /**
   * The seat StartNextPlayerTurn stops at when it starts looking at `from`:
   * the least index from there on whose player is in this round, or
   * |players| when there is none.
   */
  function NextActive(players: seq<ScorerData>, from: nat): (k: nat)
    requires from <= |players|
    ensures from <= k <= |players|
    ensures k < |players| ==> InRound(players[k])
    ensures forall j :: from <= j < k ==> !InRound(players[j])
    decreases |players| - from
  {
    if from == |players| then from
    else if InRound(players[from]) then from
    else NextActive(players, from + 1)
  }

  lemma {:induction false} NextActiveSame(a: seq<ScorerData>, b: seq<ScorerData>, from: nat)
    requires from <= |a| == |b|
    requires forall i :: 0 <= i < |a| ==> InRound(a[i]) == InRound(b[i])
    ensures NextActive(a, from) == NextActive(b, from)
    decreases |a| - from
  {
    if from < |a| {
      NextActiveSame(a, b, from + 1);
    }
  }

  /** `cards` extends `before`; every card added is face up. */
  predicate ExtendsFaceUp(before: seq<CardData>, cards: seq<CardData>) {
    |before| <= |cards| && cards[..|before|] == before &&
    forall i :: |before| <= i < |cards| ==> !cards[i].isHidden
  }

  lemma {:induction false} ExtendsFaceUpTrans(a: seq<CardData>, b: seq<CardData>, c: seq<CardData>)
    requires ExtendsFaceUp(a, b) && ExtendsFaceUp(b, c)
    ensures ExtendsFaceUp(a, c)
  {
    assert c[..|a|] == c[..|b|][..|a|];
  }

  /** One pass of the dealer's loop: draw a face-up card, then rescore. */
  function DealerDraw(rule: ScoringRule, t: Table): (r: Table)
    requires Joined(t.dealer)
    ensures Joined(r.dealer) && r.players == t.players && r.turn == t.turn && r.dealer.cash == t.dealer.cash
    ensures r.pile == if t.pile == [] then [] else Pop(t.pile)
    ensures ExtendsFaceUp(FirstHand(t.dealer).cards, FirstHand(r.dealer).cards)
    ensures FirstHand(r.dealer).handState == FirstHand(t.dealer).handState || FirstHand(r.dealer).handState == Bust
  {
    var drawn := DealCard(t, Dealer, false);
    assert FirstHand(drawn.dealer).cards[..|FirstHand(t.dealer).cards|] == FirstHand(t.dealer).cards;
    Rescore(rule, drawn, Dealer)
  }

  /**
   * The dealer's loop ends: the dealer reaches 17 before the pile runs out.
   * (On an empty pile DealCard does nothing and the source loops for ever.)
   */
  predicate DealerStops(rule: ScoringRule, t: Table)
    requires Joined(t.dealer)
    decreases |t.pile|
  {
    FirstHand(t.dealer).score >= 17 || (t.pile != [] && DealerStops(rule, DealerDraw(rule, t)))
  }

  /** The dealer's loop: draw while the first hand's score is under 17. */
  function DealerDraws(rule: ScoringRule, t: Table): (r: Table)
    requires Joined(t.dealer) && DealerStops(rule, t)
    ensures Joined(r.dealer) && FirstHand(r.dealer).score >= 17
    ensures r.players == t.players && r.turn == t.turn && r.dealer.cash == t.dealer.cash
    ensures ExtendsFaceUp(FirstHand(t.dealer).cards, FirstHand(r.dealer).cards)
    ensures FirstHand(r.dealer).handState == FirstHand(t.dealer).handState || FirstHand(r.dealer).handState == Bust
    ensures |r.pile| <= |t.pile| && r.pile == t.pile[..|r.pile|]
    decreases |t.pile|
  {
    if FirstHand(t.dealer).score >= 17 then t
    else
      var next := DealerDraw(rule, t);
      var r := DealerDraws(rule, next);
      ExtendsFaceUpTrans(FirstHand(t.dealer).cards, FirstHand(next.dealer).cards, FirstHand(r.dealer).cards);
      r
  }

  /** One round of the dealer's loop: a dealer under 17 who stops has a card left to draw. */
  lemma {:induction false} DealerDrawStep(rule: ScoringRule, t: Table)
    requires Joined(t.dealer) && DealerStops(rule, t) && FirstHand(t.dealer).score < 17
    ensures t.pile != [] && DealerStops(rule, DealerDraw(rule, t))
    ensures DealerDraws(rule, DealerDraw(rule, t)) == DealerDraws(rule, t)
  {
  }

  /** Turn the dealer's first card face up. */
  function Reveal(t: Table): (r: Table)
    requires Joined(t.dealer) && |FirstHand(t.dealer).cards| > 0
    ensures Joined(r.dealer) && r.players == t.players && r.pile == t.pile && r.turn == t.turn
    ensures var before := FirstHand(t.dealer).cards; var after := FirstHand(r.dealer).cards;
      && |after| == |before| && !after[0].isHidden && after[0] == before[0].(isHidden := false)
      && after[1..] == before[1..]
    ensures FirstHand(r.dealer) == FirstHand(t.dealer).(cards := FirstHand(r.dealer).cards)
    ensures r.dealer.cash == t.dealer.cash && |r.dealer.hands| == |t.dealer.hands| && r.dealer.hands[1..] == t.dealer.hands[1..]
  {
    var h := FirstHand(t.dealer);
    t.(dealer := WithFirstHand(t.dealer, h.(cards := h.cards[0 := Marked(h.cards[0], false)])))
  }

  /**
   * Cards that extend the revealed hand with face-up cards keep the revealed
   * first card, and extend the rest of the original hand with face-up cards.
   */
  lemma {:induction false} RevealedExtends(before: seq<CardData>, revealed: seq<CardData>, after: seq<CardData>)
    requires |before| > 0 && revealed == before[0 := Marked(before[0], false)]
    requires ExtendsFaceUp(revealed, after)
    ensures |after| >= |before| && after[0] == Marked(before[0], false)
    ensures ExtendsFaceUp(before[1..], after[1..])
  {
    assert after[0] == after[..|revealed|][0];
    assert after[1..][..|before| - 1] == after[..|revealed|][1..];
    assert revealed[1..] == before[1..];
    forall i | |before| - 1 <= i < |after| - 1 ensures !after[1..][i].isHidden {
      assert after[1..][i] == after[i + 1];
    }
  }

  /** StartDealerTurn can run to its end: the dealer has a first card and its loop ends. */
  predicate DealerTurnReady(rule: ScoringRule, t: Table) {
    Joined(t.dealer) && |FirstHand(t.dealer).cards| > 0 &&
    DealerStops(rule, Rescore(rule, Reveal(t), Dealer))
  }

  /**
   * StartDealerTurn: reveal the hole card, rescore, draw while under 17, and
   * stand when the final score is at most 21.
   */
  function DealerTurn(rule: ScoringRule, t: Table): (r: Table)
    requires DealerTurnReady(rule, t)
    ensures r.players == t.players && r.turn == t.turn && r.dealer.cash == t.dealer.cash
    ensures |r.pile| <= |t.pile| && r.pile == t.pile[..|r.pile|]
    ensures Joined(r.dealer) && FirstHand(r.dealer).score >= 17
    ensures var before := FirstHand(t.dealer).cards; var after := FirstHand(r.dealer).cards;
      && |after| >= |before| && after[0] == Marked(before[0], false)
      && ExtendsFaceUp(before[1..], after[1..])
    ensures FirstHand(r.dealer).score <= 21 ==> FirstHand(r.dealer).handState == Stand
    ensures FirstHand(r.dealer).score > 21 ==>
      FirstHand(r.dealer).handState == FirstHand(t.dealer).handState || FirstHand(r.dealer).handState == Bust
  {
    var revealed := Rescore(rule, Reveal(t), Dealer);
    var drawn := DealerDraws(rule, revealed);
    var before := FirstHand(t.dealer).cards;
    assert FirstHand(revealed.dealer).cards == before[0 := Marked(before[0], false)];
    RevealedExtends(before, FirstHand(revealed.dealer).cards, FirstHand(drawn.dealer).cards);
    if FirstHand(drawn.dealer).score <= 21 then Put(drawn, Dealer, SetHandState(drawn.dealer, Stand))
    else drawn
  }

  /** StartNextPlayerTurn can run: the index is -1 or a seat, and a dealer turn it reaches can end. */
  predicate NextTurnReady(rule: ScoringRule, t: Table) {
    -1 <= t.turn < |t.players| &&
    (NextActive(t.players, t.turn + 1) == |t.players| ==> DealerTurnReady(rule, t.(turn := |t.players|)))
  }

  /**
   * StartNextPlayerTurn: move the index to the next player in this round,
   * skipping the others; past the last seat, the dealer plays.
   */
  function NextTurn(rule: ScoringRule, t: Table): (r: Table)
    requires NextTurnReady(rule, t)
    ensures r.turn == NextActive(t.players, t.turn + 1)
    ensures r.players == t.players
    ensures r.turn < |t.players| ==> r == t.(turn := r.turn)
  {
    var k := NextActive(t.players, t.turn + 1);
    if k < |t.players| then t.(turn := k) else DealerTurn(rule, t.(turn := |t.players|))
  }

  /** StartNextPlayerTurn past the last seat is the dealer's turn. */
  lemma {:induction false} NextTurnToDealer(rule: ScoringRule, t: Table)
    requires NextTurnReady(rule, t) && NextActive(t.players, t.turn + 1) == |t.players|
    ensures DealerTurnReady(rule, t.(turn := |t.players|))
    ensures NextTurn(rule, t) == DealerTurn(rule, t.(turn := |t.players|))
  {
  }

  // ------------------------------------------------------- player actions

  /** The turn index names a joined player (the source indexes it unchecked). */
  predicate OnTurn(t: Table) {
    0 <= t.turn < |t.players| && Joined(t.players[t.turn])
  }

  function StandMarked(t: Table): (r: Table)
    requires OnTurn(t)
  {
    Put(t, Player(t.turn), SetHandState(t.players[t.turn], Stand))
  }

  predicate CanStand(rule: ScoringRule, t: Table) {
    OnTurn(t) && NextTurnReady(rule, StandMarked(t))
  }

  /** PlayerStand: the current hand stands and the turn moves on. */
  function PlayerStand(rule: ScoringRule, t: Table): (r: Table)
    requires CanStand(rule, t)
    ensures |r.players| == |t.players| && Joined(r.players[t.turn])
    ensures FirstHand(r.players[t.turn]).handState == Stand
    ensures r.players[t.turn] == SetHandState(t.players[t.turn], Stand)
    ensures r.turn == NextActive(t.players, t.turn + 1)
    ensures forall i :: 0 <= i < |t.players| && i != t.turn ==> r.players[i] == t.players[i]
  {
    var marked := StandMarked(t);
    NextActiveSame(t.players, marked.players, t.turn + 1);
    NextTurn(rule, marked)
  }

  /** One draw for the current player, then a rescore. */
  function HitDraw(rule: ScoringRule, t: Table): (r: Table)
    requires OnTurn(t)
    ensures OnTurn(r) && r.turn == t.turn && |r.players| == |t.players|
    ensures forall i :: 0 <= i < |t.players| ==> InRound(r.players[i]) == InRound(t.players[i])
    ensures r.pile == (if t.pile == [] then [] else Pop(t.pile)) && r.dealer == t.dealer
    ensures forall i :: 0 <= i < |t.players| && i != t.turn ==> r.players[i] == t.players[i]
    ensures var p := t.players[t.turn]; var q := r.players[t.turn];
      && q.cash == p.cash && FirstHand(q).bet == FirstHand(p).bet
      && FirstHand(q).cards == FirstHand(p).cards + DealtBy(t, false)
      && FirstHand(q).score == rule.score(Visible(FirstHand(q).cards))
      && FirstHand(q).handState == (if rule.busts(Visible(FirstHand(q).cards)) then Bust else FirstHand(p).handState)
      && q.hands[1..] == p.hands[1..]
  {
    Rescore(rule, DealCard(t, Player(t.turn), false), Player(t.turn))
  }

  predicate IsBust(t: Table)
    requires OnTurn(t)
  {
    FirstHand(t.players[t.turn]).handState == Bust
  }

  predicate CanHit(rule: ScoringRule, t: Table) {
    OnTurn(t) && (IsBust(HitDraw(rule, t)) ==> NextTurnReady(rule, HitDraw(rule, t)))
  }

  /** PlayerHit: one draw attempt; the turn moves on only if the hand is then bust. */
  function PlayerHit(rule: ScoringRule, t: Table): (r: Table)
    requires CanHit(rule, t)
    ensures r.turn == if IsBust(HitDraw(rule, t)) then NextActive(t.players, t.turn + 1) else t.turn
    ensures !IsBust(HitDraw(rule, t)) ==> r == HitDraw(rule, t)
    ensures IsBust(HitDraw(rule, t)) ==> r == NextTurn(rule, HitDraw(rule, t))
  {
    var drawn := HitDraw(rule, t);
    NextActiveSame(t.players, drawn.players, t.turn + 1);
    if IsBust(drawn) then NextTurn(rule, drawn) else drawn
  }

  /**
   * Whether PlayerDouble's bet goes through: AddBet's id guard lets only
   * indexes up to MAXIMUM_PLAYER_COUNT through, and the scorer's AddBet takes
   * the minimum only from enough cash.
   */
  predicate DoubleAllowed(cfg: Config, t: Table)
    requires OnTurn(t)
  {
    t.turn <= cfg.maximumPlayerCount && cfg.minimumBetAmount <= t.players[t.turn].cash
  }

  /**
   * PlayerDouble's bet: the manager's AddBet(currentPlayerTurnIndex), whose id
   * guard lets only indexes up to MAXIMUM_PLAYER_COUNT through.
   */
  function DoubleBet(cfg: Config, t: Table): (r: Table)
    requires OnTurn(t)
    ensures OnTurn(r) && r.turn == t.turn && r.pile == t.pile && r.dealer == t.dealer
    ensures |r.players| == |t.players| && forall i :: 0 <= i < |t.players| && i != t.turn ==> r.players[i] == t.players[i]
    ensures !DoubleAllowed(cfg, t) ==> r == t
    ensures DoubleAllowed(cfg, t) ==>
      var p := t.players[t.turn]; var q := r.players[t.turn];
      && q.cash == p.cash - cfg.minimumBetAmount
      && FirstHand(q) == FirstHand(p).(bet := FirstHand(p).bet + cfg.minimumBetAmount)
  {
    if t.turn < 0 || t.turn > cfg.maximumPlayerCount then t
    else Put(t, Player(t.turn), AddBet(t.players[t.turn], cfg.minimumBetAmount))
  }

  /** PlayerDouble's draw: the bet, then one card and a rescore. */
  function DoubleDraw(cfg: Config, t: Table): (r: Table)
    requires OnTurn(t)
    ensures OnTurn(r) && r.turn == t.turn && |r.players| == |t.players|
    ensures r.pile == (if t.pile == [] then [] else Pop(t.pile)) && r.dealer == t.dealer
    ensures forall i :: 0 <= i < |t.players| && i != t.turn ==> r.players[i] == t.players[i]
    ensures var p := t.players[t.turn]; var q := r.players[t.turn]; var stake := if DoubleAllowed(cfg, t) then cfg.minimumBetAmount else 0;
      && q.cash == p.cash - stake && FirstHand(q).bet == FirstHand(p).bet + stake
      && FirstHand(q).cards == FirstHand(p).cards + DealtBy(t, false)
      && FirstHand(q).score == cfg.rule.score(Visible(FirstHand(q).cards))
      && FirstHand(q).handState == (if cfg.rule.busts(Visible(FirstHand(q).cards)) then Bust else FirstHand(p).handState)
      && q.hands[1..] == p.hands[1..]
  {
    HitDraw(cfg.rule, DoubleBet(cfg, t))
  }

  /** The source's step after a double: a bust hand is overwritten with Stand. */
  function BustToStand(t: Table): (r: Table)
    requires OnTurn(t)
    ensures OnTurn(r) && r.turn == t.turn && |r.players| == |t.players|
    ensures forall i :: 0 <= i < |t.players| ==> InRound(r.players[i]) == InRound(t.players[i])
    ensures !IsBust(r)
    ensures r.pile == t.pile && r.dealer == t.dealer
    ensures IsBust(t) ==> r.players[t.turn] == SetHandState(t.players[t.turn], Stand)
    ensures forall i :: 0 <= i < |t.players| && i != t.turn ==> r.players[i] == t.players[i]
    ensures !IsBust(t) ==> r == t
  {
    if IsBust(t) then Put(t, Player(t.turn), SetHandState(t.players[t.turn], Stand)) else t
  }

  predicate CanDoubleAsWritten(cfg: Config, t: Table) {
    OnTurn(t) && NextTurnReady(cfg.rule, BustToStand(DoubleDraw(cfg, t)))
  }

  /** PlayerDouble as written: bet, draw once, turn Bust into Stand, always move on. */
  function PlayerDoubleAsWritten(cfg: Config, t: Table): (r: Table)
    requires CanDoubleAsWritten(cfg, t)
    ensures r.turn == NextActive(DoubleDraw(cfg, t).players, t.turn + 1)
    ensures |r.players| == |t.players| && Joined(r.players[t.turn])
    ensures FirstHand(r.players[t.turn]).handState != Bust
    ensures r.players == BustToStand(DoubleDraw(cfg, t)).players
  {
    var drawn := DoubleDraw(cfg, t);
    var marked := BustToStand(drawn);
    NextActiveSame(drawn.players, marked.players, t.turn + 1);
    NextTurn(cfg.rule, marked)
  }

  predicate CanDouble(cfg: Config, t: Table) {
    OnTurn(t) && NextTurnReady(cfg.rule, DoubleDraw(cfg, t))
  }

  /** PlayerDouble as evidently intended: bet, draw once, keep a Bust, always move on. */
  function PlayerDouble(cfg: Config, t: Table): (r: Table)
    requires CanDouble(cfg, t)
    ensures r.turn == NextActive(DoubleDraw(cfg, t).players, t.turn + 1)
    ensures r.players == DoubleDraw(cfg, t).players
  {
    NextTurn(cfg.rule, DoubleDraw(cfg, t))
  }

  /**
   * The as-written double lets a bust hand into the settlement: once the draw
   * busts the hand, it reaches EnterResultState as Stand, so it is settled as
   * Win or Lose, and a bust score above the dealer's is paid 2 x bet.
   */
  lemma {:induction false} DoubleBustSettledAsWritten(cfg: Config, t: Table)
    requires CanDoubleAsWritten(cfg, t) && Joined(t.dealer)
    requires IsBust(DoubleDraw(cfg, t)) && InRound(DoubleDraw(cfg, t).players[t.turn])
    ensures var r := PlayerDoubleAsWritten(cfg, t); var p := r.players[t.turn];
      && Joined(r.dealer) && InRound(p) && FirstHand(p).handState == Stand
      && FirstHand(p).score == FirstHand(DoubleDraw(cfg, t).players[t.turn]).score
      && (FirstHand(Settle(p, r.dealer)).handState == Win || FirstHand(Settle(p, r.dealer)).handState == Lose)
      && (FirstHand(p).score > FirstHand(r.dealer).score ==>
            Settle(p, r.dealer).cash == p.cash + 2 * FirstHand(p).bet)
  {
    var drawn := DoubleDraw(cfg, t);
    var marked := BustToStand(drawn);
    assert marked.players[t.turn] == SetHandState(drawn.players[t.turn], Stand);
    var r := PlayerDoubleAsWritten(cfg, t);
    assert r.players == marked.players;
  }

  /**
   * The corrected double keeps a bust hand Bust, so EnterResultState leaves it
   * alone: no payout, and the doubled bet stays lost.
   */
  lemma {:induction false} DoubleBustLoses(cfg: Config, t: Table)
    requires CanDouble(cfg, t) && Joined(t.dealer) && IsBust(DoubleDraw(cfg, t))
    ensures var r := PlayerDouble(cfg, t); var p := r.players[t.turn];
      && Joined(r.dealer) && FirstHand(p).handState == Bust && Settle(p, r.dealer) == p
  {
    var drawn := DoubleDraw(cfg, t);
    var r := PlayerDouble(cfg, t);
    assert r.players[t.turn] == drawn.players[t.turn];
  }

  // ------------------------------------------------------------- dealing

  /** The number of players in this round among the seats [0, n). */
  function CountInRound(players: seq<ScorerData>, n: nat): (k: nat)
    requires n <= |players|
    ensures k <= n
  {
    if n == 0 then 0 else CountInRound(players, n - 1) + (if InRound(players[n - 1]) then 1 else 0)
  }

  lemma {:induction false} CountInRoundBelow(players: seq<ScorerData>, i: nat, n: nat)
    requires i < n <= |players| && InRound(players[i])
    ensures CountInRound(players, i) < CountInRound(players, n)
  {
    if i < n - 1 {
      CountInRoundBelow(players, i, n - 1);
    }
  }

  /** One deal of UpdateDealingState: a card to a seat, face up or hidden, and whether UpdateScore follows. */
  datatype Deal = Deal(seat: Seat, hidden: bool, rescore: bool)

  /**
   * The deals one pass of UpdateDealingState's player loop makes over the
   * seats [0, n): a face-up card and a rescore for each player in this round,
   * in ascending seat order.
   */
  function Pass(players: seq<ScorerData>, n: nat): (ds: seq<Deal>)
    requires n <= |players|
    ensures |ds| == CountInRound(players, n)
  {
    if n == 0 then []
    else Pass(players, n - 1) + (if InRound(players[n - 1]) then [Deal(Player(n - 1), false, true)] else [])
  }

  /** Every deal of a pass is a face-up card and a rescore for a player below n in this round. */
  lemma {:induction false} PassDeals(players: seq<ScorerData>, n: nat)
    requires n <= |players|
    ensures forall m :: 0 <= m < |Pass(players, n)| ==> PassDeal(players, n, Pass(players, n)[m])
  {
    if n > 0 {
      PassDeals(players, n - 1);
      var ds := Pass(players, n);
      var before := Pass(players, n - 1);
      var extra := if InRound(players[n - 1]) then [Deal(Player(n - 1), false, true)] else [];
      assert ds == before + extra;
      forall m | 0 <= m < |ds|
        ensures PassDeal(players, n, ds[m])
      {
        if m < |before| {
          assert ds[m] == before[m];
          assert PassDeal(players, n - 1, before[m]);
        } else {
          assert ds[m] == extra[m - |before|];
        }
      }
    }
  }

  /** A deal a pass over seats [0, n) makes: a face-up card and a rescore for a player below n in this round. */
  predicate PassDeal(players: seq<ScorerData>, n: nat, d: Deal) {
    && d.seat.Player? && d.seat.index < n && d.seat.index < |players| && InRound(players[d.seat.index])
    && !d.hidden && d.rescore
  }

  /** Every player in this round below n is visited by the pass, at the place their count gives. */
  lemma {:induction false} PassVisits(players: seq<ScorerData>, n: nat, i: nat)
    requires i < n <= |players| && InRound(players[i])
    ensures CountInRound(players, i) < |Pass(players, n)|
    ensures Pass(players, n)[CountInRound(players, i)] == Deal(Player(i), false, true)
  {
    CountInRoundBelow(players, i, n);
    if i < n - 1 {
      PassVisits(players, n - 1, i);
    }
  }

  const HoleDeal := Deal(Dealer, true, false)
  const UpDeal := Deal(Dealer, false, true)

  /**
   * UpdateDealingState's dealing order for k players in this round: the first
   * pass, the dealer's hidden card, the second pass, then the dealer's
   * face-up card and rescore.
   */
  function DealingOrder(players: seq<ScorerData>): (ds: seq<Deal>)
    ensures var k := CountInRound(players, |players|);
      && |ds| == 2 * k + 2
      && (forall m :: 0 <= m < |ds| ==> (ds[m].hidden <==> m == k))
      && (forall m :: 0 <= m < |ds| ==> (ds[m].seat.Dealer? <==> m == k || m == 2 * k + 1))
      && (forall m :: 0 <= m < |ds| && ds[m].seat.Player? ==>
            ds[m].seat.index < |players| && InRound(players[ds[m].seat.index]))
  {
    var pass := Pass(players, |players|);
    PassDeals(players, |players|);
    pass + [HoleDeal] + pass + [UpDeal]
  }

  /** The seat exists and is joined. */
  predicate Seated(t: Table, s: Seat) {
    HasSeat(t, s) && Joined(At(t, s))
  }

  /** What a seat's state becomes after a card: rescored or not. */
  function AfterCard(rule: ScoringRule, rescore: bool, p: ScorerData): (r: ScorerData)
    requires Joined(p)
    ensures Joined(r) && InRound(r) == InRound(p)
  {
    if rescore then UpdateScore(rule, p) else p
  }

  /** One deal: DealCard to the seat, then UpdateScore if the deal says so. */
  function DealStep(rule: ScoringRule, t: Table, d: Deal): (r: Table)
    requires Seated(t, d.seat)
    ensures |r.players| == |t.players| && r.turn == t.turn && Seated(r, d.seat)
    ensures InRound(At(r, d.seat)) == InRound(At(t, d.seat))
    ensures OthersUnchanged(t, r, d.seat)
    ensures r.pile == if t.pile == [] then [] else Pop(t.pile)
    ensures At(r, d.seat) == AfterCard(rule, d.rescore,
      if Gives(t, d.hidden) then AddCard(At(t, d.seat), Marked(Top(t.pile), d.hidden)) else At(t, d.seat))
  {
    var dealt := DealCard(t, d.seat, d.hidden);
    if d.rescore then Rescore(rule, dealt, d.seat) else dealt
  }

  /** Every deal is to the dealer or to a player in this round, and the dealer is joined. */
  predicate Dealable(t: Table, ds: seq<Deal>) {
    Joined(t.dealer) &&
    forall m :: 0 <= m < |ds| && ds[m].seat.Player? ==>
      ds[m].seat.index < |t.players| && InRound(t.players[ds[m].seat.index])
  }

  /** The deals of `ds`, in order. */
  function Dealt(rule: ScoringRule, t: Table, ds: seq<Deal>): (r: Table)
    requires Dealable(t, ds)
    ensures |r.players| == |t.players| && r.turn == t.turn && Joined(r.dealer)
    ensures forall i :: 0 <= i < |t.players| ==> InRound(r.players[i]) == InRound(t.players[i])
    ensures |t.pile| - |ds| <= |r.pile| <= |t.pile| && r.pile == t.pile[..|r.pile|]
    decreases |ds|
  {
    if ds == [] then t
    else
      var d := ds[|ds| - 1];
      var before := Dealt(rule, t, ds[..|ds| - 1]);
      assert d.seat.Player? ==> InRound(before.players[d.seat.index]);
      DealStep(rule, before, d)
  }

  /**
   * UpdateDealingState's dealing: a face-up card to each player in this round
   * in seat order, a hidden card to the dealer, a second face-up card to each
   * of those players, a face-up card to the dealer and a rescore of the dealer.
   */
  function InitialDeal(rule: ScoringRule, t: Table): (r: Table)
    requires Joined(t.dealer)
    ensures |r.players| == |t.players| && r.turn == t.turn && Joined(r.dealer)
    ensures forall i :: 0 <= i < |t.players| ==> InRound(r.players[i]) == InRound(t.players[i])
    ensures |t.pile| - 2 * CountInRound(t.players, |t.players|) - 2 <= |r.pile| <= |t.pile|
    ensures r.pile == t.pile[..|r.pile|]
  {
    Dealt(rule, t, DealingOrder(t.players))
  }

  // The card each deal takes.

  /** With enough face-up cards, every deal takes exactly one card. */
  lemma {:induction false} DealtPile(rule: ScoringRule, t: Table, ds: seq<Deal>)
    requires Dealable(t, ds) && FacePile(t.pile) && |ds| <= |t.pile|
    ensures Dealt(rule, t, ds).pile == t.pile[..|t.pile| - |ds|]
    decreases |ds|
  {
    if ds != [] {
      DealtPile(rule, t, ds[..|ds| - 1]);
    }
  }

  /** Dealing one more card after `ds` is one more DealStep. */
  lemma {:induction false} DealtAppend(rule: ScoringRule, t: Table, ds: seq<Deal>, d: Deal)
    requires Dealable(t, ds + [d])
    ensures Dealable(t, ds) && Seated(Dealt(rule, t, ds), d.seat)
    ensures Dealt(rule, t, ds + [d]) == DealStep(rule, Dealt(rule, t, ds), d)
  {
    assert (ds + [d])[..|ds|] == ds;
    assert forall m :: 0 <= m < |ds| ==> (ds + [d])[m] == ds[m];
    assert (ds + [d])[|ds|] == d;
  }

  /** One seat of a player pass: dealing to seat i in this round is one more DealStep. */
  lemma {:induction false} DealPassStep(rule: ScoringRule, t: Table, done: seq<Deal>, i: nat)
    requires i < |t.players| && InRound(t.players[i]) && Dealable(t, done + Pass(t.players, i))
    ensures Dealable(t, done + Pass(t.players, i + 1)) && Seated(Dealt(rule, t, done + Pass(t.players, i)), Player(i))
    ensures var before := Dealt(rule, t, done + Pass(t.players, i));
      Dealt(rule, t, done + Pass(t.players, i + 1)) == Rescore(rule, DealCard(before, Player(i), false), Player(i))
  {
    var d := Deal(Player(i), false, true);
    assert done + Pass(t.players, i + 1) == (done + Pass(t.players, i)) + [d];
    DealtAppend(rule, t, done + Pass(t.players, i), d);
  }

  /** A seat not in this round adds nothing to a player pass. */
  lemma {:induction false} DealPassSkip(t: Table, done: seq<Deal>, i: nat)
    requires i < |t.players| && !InRound(t.players[i])
    ensures done + Pass(t.players, i + 1) == done + Pass(t.players, i)
  {
  }

  /**
   * One of UpdateDealingState's player loops after seats [0, i): a face-up
   * card and a rescore for each of those seats in this round, in seat order.
   */
  function PassTo(rule: ScoringRule, t: Table, i: nat): (r: Table)
    requires i <= |t.players| && Joined(t.dealer)
    ensures |r.players| == |t.players| && r.turn == t.turn && Joined(r.dealer)
    ensures forall j :: 0 <= j < |t.players| ==> InRound(r.players[j]) == InRound(t.players[j])
  {
    if i == 0 then t
    else
      var before := PassTo(rule, t, i - 1);
      if InRound(t.players[i - 1]) then Rescore(rule, DealCard(before, Player(i - 1), false), Player(i - 1))
      else before
  }

  /** The loop over seats [0, i) makes the deals of the pass up to i, after any deals already done. */
  lemma {:induction false} PassToDealt(rule: ScoringRule, t: Table, done: seq<Deal>, i: nat)
    requires Dealable(t, done) && i <= |t.players|
    ensures Dealable(t, done + Pass(t.players, i))
    ensures Dealt(rule, t, done + Pass(t.players, i)) == PassTo(rule, Dealt(rule, t, done), i)
  {
    if i == 0 {
      assert done + Pass(t.players, 0) == done;
    } else {
      PassToDealt(rule, t, done, i - 1);
      PassToDealtStep(rule, t, done, i - 1);
    }
  }

  /** One seat more of the loop is one seat more of the pass. */
  lemma {:induction false} PassToDealtStep(rule: ScoringRule, t: Table, done: seq<Deal>, i: nat)
    requires i < |t.players| && Dealable(t, done) && Dealable(t, done + Pass(t.players, i))
    requires Dealt(rule, t, done + Pass(t.players, i)) == PassTo(rule, Dealt(rule, t, done), i)
    ensures Dealable(t, done + Pass(t.players, i + 1))
    ensures Dealt(rule, t, done + Pass(t.players, i + 1)) == PassTo(rule, Dealt(rule, t, done), i + 1)
  {
    var d0 := Dealt(rule, t, done);
    assert InRound(d0.players[i]) == InRound(t.players[i]);
    if InRound(t.players[i]) {
      DealPassStep(rule, t, done, i);
    } else {
      DealPassSkip(t, done, i);
    }
  }

  /**
   * UpdateDealingState's dealing, step by step as it runs: a player pass, the
   * dealer's hidden card, a second pass, the dealer's face-up card and rescore,
   * is the whole of InitialDeal.
   */
  lemma {:induction false} InitialDealByPasses(rule: ScoringRule, t: Table)
    requires Joined(t.dealer)
    ensures var first := DealCard(PassTo(rule, t, |t.players|), Dealer, true);
      && Joined(first.dealer) && |first.players| == |t.players|
      && InitialDeal(rule, t) == Rescore(rule, DealCard(PassTo(rule, first, |t.players|), Dealer, false), Dealer)
  {
    var n := |t.players|;
    var pass := Pass(t.players, n);
    var hole := pass + [HoleDeal];
    var both := hole + pass;
    DealableOrder(t);
    assert DealingOrder(t.players) == both + [UpDeal];
    assert Dealt(rule, t, []) == t;
    assert PassTo(rule, t, n) == Dealt(rule, t, pass) by {
      PassToDealt(rule, t, [], n);
      assert [] + pass == pass;
    }
    DealtAppend(rule, t, pass, HoleDeal);
    PassToDealt(rule, t, hole, n);
    DealtAppend(rule, t, both, UpDeal);
  }

  /** Every stage of the dealing order deals only to the dealer and to players in this round. */
  lemma {:induction false} DealableOrder(t: Table)
    requires Joined(t.dealer)
    ensures var pass := Pass(t.players, |t.players|);
      && Dealable(t, pass + [HoleDeal])
      && Dealable(t, pass + [HoleDeal] + pass + [UpDeal])
  {
    var pass := Pass(t.players, |t.players|);
    PassDeals(t.players, |t.players|);
    DealableAppend(t, [], pass);
    assert [] + pass == pass;
    DealableAppend(t, pass, [HoleDeal]);
    DealableAppend(t, pass + [HoleDeal], pass);
    DealableAppend(t, pass + [HoleDeal] + pass, [UpDeal]);
  }

  lemma {:induction false} DealableAppend(t: Table, a: seq<Deal>, b: seq<Deal>)
    requires Dealable(t, a) && Dealable(t, b)
    ensures Dealable(t, a + b)
  {
    forall m | 0 <= m < |a + b| && (a + b)[m].seat.Player?
      ensures (a + b)[m].seat.index < |t.players| && InRound(t.players[(a + b)[m].seat.index])
    {
      if m >= |a| {
        assert (a + b)[m] == b[m - |a|];
      }
    }
  }

  /** The top of a pile with its n top cards taken is the card n deep in the pile. */
  lemma {:induction false} TopAtDepth(q: seq<CardData>, p: seq<CardData>, n: nat)
    requires FacePile(p) && n < |p| && q == p[..|p| - n]
    ensures q != [] && Top(q) == p[|p| - 1 - n] && HasFace(Top(q))
  {
    assert p[|p| - 1 - n] in p;
  }

  /** A card a seat receives in a deal, already marked hidden or face up, and whether UpdateScore follows. */
  datatype Receipt = Receipt(card: CardData, rescore: bool)

  /**
   * What a seat receives from a list of deals: the m-th deal, when it is to
   * seat `s`, hands it the m-th card from the top of `pile`.
   */
  function Receipts(ds: seq<Deal>, s: Seat, pile: seq<CardData>): (rs: seq<Receipt>)
    requires |ds| <= |pile|
    ensures |rs| <= |ds|
    decreases |ds|
  {
    if ds == [] then []
    else
      var m := |ds| - 1;
      Receipts(ds[..m], s, pile) +
        if ds[m].seat == s then [Receipt(Marked(pile[|pile| - 1 - m], ds[m].hidden), ds[m].rescore)] else []
  }

  /** A seat's state after it receives `rs` in order: AddCard, then UpdateScore where the deal says so. */
  function Apply(rule: ScoringRule, x: ScorerData, rs: seq<Receipt>): (r: ScorerData)
    requires Joined(x)
    ensures Joined(r) && InRound(r) == InRound(x)
    decreases |rs|
  {
    if rs == [] then x
    else
      var m := |rs| - 1;
      AfterCard(rule, rs[m].rescore, AddCard(Apply(rule, x, rs[..m]), rs[m].card))
  }

  lemma {:induction false} ApplySnoc(rule: ScoringRule, x: ScorerData, rs: seq<Receipt>, r: Receipt)
    requires Joined(x)
    ensures Apply(rule, x, rs + [r]) == AfterCard(rule, r.rescore, AddCard(Apply(rule, x, rs), r.card))
  {
    assert (rs + [r])[..|rs|] == rs;
  }

  /** The last deal, with a face-up card on top, adds that card to its seat. */
  lemma {:induction false} DealtStepCard(rule: ScoringRule, u: Table, d: Deal, s: Seat, c: CardData)
    requires Seated(u, d.seat) && HasSeat(u, s) && u.pile != [] && Top(u.pile) == c && HasFace(c)
    ensures At(DealStep(rule, u, d), s) ==
      if d.seat == s then AfterCard(rule, d.rescore, AddCard(At(u, s), Marked(c, d.hidden))) else At(u, s)
  {
    assert Gives(u, d.hidden);
  }

  /** A deal from a pile whose top m cards are gone hands out the card m deep. */
  lemma {:induction false} StepAtDepth(rule: ScoringRule, u: Table, d: Deal, s: Seat, p: seq<CardData>, m: nat)
    requires Seated(u, d.seat) && Seated(u, s) && FacePile(p) && m < |p| && u.pile == p[..|p| - m]
    ensures Seated(DealStep(rule, u, d), s)
    ensures At(DealStep(rule, u, d), s) ==
      if d.seat == s then AfterCard(rule, d.rescore, AddCard(At(u, s), Marked(p[|p| - 1 - m], d.hidden))) else At(u, s)
  {
    TopAtDepth(u.pile, p, m);
    DealtStepCard(rule, u, d, s, Top(u.pile));
  }

  /** With enough face-up cards, the last deal adds the card at its depth to its seat. */
  lemma {:induction false} DealtLast(rule: ScoringRule, t: Table, ds: seq<Deal>, s: Seat)
    requires Dealable(t, ds) && FacePile(t.pile) && |ds| <= |t.pile| && ds != []
    requires Seated(Dealt(rule, t, ds[..|ds| - 1]), s)
    ensures var m := |ds| - 1; var p := t.pile; var u := Dealt(rule, t, ds[..m]);
      && Seated(Dealt(rule, t, ds), s)
      && At(Dealt(rule, t, ds), s) ==
        if ds[m].seat == s then AfterCard(rule, ds[m].rescore, AddCard(At(u, s), Marked(p[|p| - 1 - m], ds[m].hidden)))
        else At(u, s)
  {
    var m := |ds| - 1;
    DealtSnoc(rule, t, ds);
    var u := Dealt(rule, t, ds[..m]);
    StepAtDepth(rule, u, ds[m], s, t.pile, m);
  }

  /** The deals of `ds` are those of all but the last, then the last, which goes to a seated seat. */
  lemma {:induction false} DealtSnoc(rule: ScoringRule, t: Table, ds: seq<Deal>)
    requires Dealable(t, ds) && FacePile(t.pile) && |ds| <= |t.pile| && ds != []
    ensures var m := |ds| - 1;
      && Dealable(t, ds[..m])
      && Seated(Dealt(rule, t, ds[..m]), ds[m].seat)
      && Dealt(rule, t, ds[..m]).pile == t.pile[..|t.pile| - m]
      && Dealt(rule, t, ds) == DealStep(rule, Dealt(rule, t, ds[..m]), ds[m])
  {
    var m := |ds| - 1;
    var before := ds[..m];
    DealtPile(rule, t, before);
    var u := Dealt(rule, t, before);
    if ds[m].seat.Player? {
      assert InRound(u.players[ds[m].seat.index]);
    }
  }

  /** The last deal's receipt, if it is to the seat, comes last. */
  lemma {:induction false} ApplyReceiptsLast(rule: ScoringRule, x: ScorerData, ds: seq<Deal>, s: Seat, p: seq<CardData>)
    requires Joined(x) && |ds| <= |p| && ds != []
    ensures var m := |ds| - 1; var y := Apply(rule, x, Receipts(ds[..m], s, p));
      Apply(rule, x, Receipts(ds, s, p)) ==
        if ds[m].seat == s then AfterCard(rule, ds[m].rescore, AddCard(y, Marked(p[|p| - 1 - m], ds[m].hidden)))
        else y
  {
    var m := |ds| - 1;
    if ds[m].seat == s {
      ApplySnoc(rule, x, Receipts(ds[..m], s, p), Receipt(Marked(p[|p| - 1 - m], ds[m].hidden), ds[m].rescore));
    } else {
      assert Receipts(ds, s, p) == Receipts(ds[..m], s, p);
    }
  }

  /** With enough face-up cards, each seat ends as what it receives makes it. */
  lemma {:induction false} DealtSeat(rule: ScoringRule, t: Table, ds: seq<Deal>, s: Seat)
    requires Dealable(t, ds) && FacePile(t.pile) && |ds| <= |t.pile| && Seated(t, s)
    ensures Seated(Dealt(rule, t, ds), s)
    ensures At(Dealt(rule, t, ds), s) == Apply(rule, At(t, s), Receipts(ds, s, t.pile))
    decreases |ds|
  {
    if ds != [] {
      var before := ds[..|ds| - 1];
      assert Dealable(t, before) && |before| <= |t.pile|;
      DealtSeat(rule, t, before, s);
      DealtSeatStep(rule, t, ds, s);
    }
  }

  /** One deal more: the seat's state follows its receipts one step further. */
  lemma {:induction false} DealtSeatStep(rule: ScoringRule, t: Table, ds: seq<Deal>, s: Seat)
    requires Dealable(t, ds) && FacePile(t.pile) && |ds| <= |t.pile| && Seated(t, s) && ds != []
    requires Seated(Dealt(rule, t, ds[..|ds| - 1]), s)
    requires At(Dealt(rule, t, ds[..|ds| - 1]), s) == Apply(rule, At(t, s), Receipts(ds[..|ds| - 1], s, t.pile))
    ensures Seated(Dealt(rule, t, ds), s)
    ensures At(Dealt(rule, t, ds), s) == Apply(rule, At(t, s), Receipts(ds, s, t.pile))
  {
    DealtLast(rule, t, ds, s);
    ApplyReceiptsLast(rule, At(t, s), ds, s, t.pile);
  }

  /** Each seat ends the dealing as what the dealing order hands it makes it. */
  lemma {:induction false} InitialDealReceipts(rule: ScoringRule, t: Table, s: Seat)
    requires Joined(t.dealer) && FacePile(t.pile) && 2 * CountInRound(t.players, |t.players|) + 2 <= |t.pile|
    requires Seated(t, s)
    ensures At(InitialDeal(rule, t), s) == Apply(rule, At(t, s), Receipts(DealingOrder(t.players), s, t.pile))
  {
    DealtSeat(rule, t, DealingOrder(t.players), s);
  }

  /** Deals to other seats hand a seat nothing. */
  lemma {:induction false} ReceiptsNone(ds: seq<Deal>, s: Seat, pile: seq<CardData>)
    requires |ds| <= |pile|
    requires forall m :: 0 <= m < |ds| ==> ds[m].seat != s
    ensures Receipts(ds, s, pile) == []
    decreases |ds|
  {
    if ds != [] {
      ReceiptsNone(ds[..|ds| - 1], s, pile);
    }
  }

  /** Two lists of deals in a row: the second reads the pile below the first's cards. */
  lemma {:induction false} ReceiptsAppend(a: seq<Deal>, b: seq<Deal>, s: Seat, pile: seq<CardData>)
    requires |a| + |b| <= |pile|
    ensures Receipts(a + b, s, pile) == Receipts(a, s, pile) + Receipts(b, s, pile[..|pile| - |a|])
    decreases |b|
  {
    if b == [] {
      assert a + b == a;
    } else {
      var m := |b| - 1;
      assert (a + b)[..|a| + m] == a + b[..m];
      ReceiptsAppend(a, b[..m], s, pile);
      var q := pile[..|pile| - |a|];
      assert q[|q| - 1 - m] == pile[|pile| - 1 - (|a| + m)];
    }
  }

  /** Seat n-1's place in the pass over [0, n) hands it nothing another seat would get. */
  lemma {:induction false} ReceiptsPassOther(players: seq<ScorerData>, n: nat, s: Seat, pile: seq<CardData>)
    requires 0 < n <= |players| && CountInRound(players, n) <= |pile| && s != Player(n - 1)
    ensures Receipts(Pass(players, n), s, pile) == Receipts(Pass(players, n - 1), s, pile)
  {
    var before := Pass(players, n - 1);
    var extra := if InRound(players[n - 1]) then [Deal(Player(n - 1), false, true)] else [];
    ReceiptsAppend(before, extra, s, pile);
    ReceiptsNone(extra, s, pile[..|pile| - |before|]);
  }

  /** The last seat of a pass, when in this round, gets the card below the pass's earlier cards. */
  lemma {:induction false} ReceiptsPassLast(players: seq<ScorerData>, n: nat, pile: seq<CardData>)
    requires 0 < n <= |players| && InRound(players[n - 1]) && CountInRound(players, n) <= |pile|
    ensures CountInRound(players, n - 1) < |pile|
    ensures Receipts(Pass(players, n), Player(n - 1), pile) ==
      [Receipt(Marked(pile[|pile| - 1 - CountInRound(players, n - 1)], false), true)]
  {
    var before := Pass(players, n - 1);
    var extra := [Deal(Player(n - 1), false, true)];
    var q := pile[..|pile| - |before|];
    assert Pass(players, n) == before + extra;
    ReceiptsAppend(before, extra, Player(n - 1), pile);
    PassDeals(players, n - 1);
    ReceiptsNone(before, Player(n - 1), pile);
    assert extra[..0] == [];
    assert Receipts(extra, Player(n - 1), q) == [Receipt(Marked(q[|q| - 1], false), true)];
    assert q[|q| - 1] == pile[|pile| - 1 - |before|];
  }

  /** A pass hands a player in this round one face-up card to rescore: the one their count picks. */
  lemma {:induction false} ReceiptsPass(players: seq<ScorerData>, n: nat, i: nat, pile: seq<CardData>)
    requires i < n <= |players| && InRound(players[i]) && CountInRound(players, n) <= |pile|
    ensures CountInRound(players, i) < |pile|
    ensures Receipts(Pass(players, n), Player(i), pile) ==
      [Receipt(Marked(pile[|pile| - 1 - CountInRound(players, i)], false), true)]
  {
    if i < n - 1 {
      ReceiptsPass(players, n - 1, i, pile);
      ReceiptsPassOther(players, n, Player(i), pile);
    } else {
      ReceiptsPassLast(players, n, pile);
    }
  }

  /** Deals to other seats leave a player's seat as it was, whatever the pile holds. */
  lemma {:induction false} DealtElsewhere(rule: ScoringRule, t: Table, ds: seq<Deal>, i: nat)
    requires Dealable(t, ds) && i < |t.players|
    requires forall m :: 0 <= m < |ds| ==> ds[m].seat != Player(i)
    ensures Dealt(rule, t, ds).players[i] == t.players[i]
    decreases |ds|
  {
    if ds != [] {
      DealtElsewhere(rule, t, ds[..|ds| - 1], i);
    }
  }

  /** A single deal hands its seat the top card, and any other seat nothing. */
  lemma {:induction false} ReceiptsOne(d: Deal, s: Seat, q: seq<CardData>)
    requires 1 <= |q|
    ensures Receipts([d], s, q) == if d.seat == s then [Receipt(Marked(q[|q| - 1], d.hidden), d.rescore)] else []
  {
    assert [d][..0] == [];
  }

  /** What a seat receives from the four parts of the dealing order, part by part. */
  lemma {:induction false} DealingOrderParts(pass: seq<Deal>, s: Seat, p: seq<CardData>)
    requires 2 * |pass| + 2 <= |p|
    ensures Receipts(pass + [HoleDeal] + pass + [UpDeal], s, p) ==
      Receipts(pass, s, p) + Receipts([HoleDeal], s, p[..|p| - |pass|]) +
      Receipts(pass, s, p[..|p| - |pass| - 1]) + Receipts([UpDeal], s, p[..|p| - 2 * |pass| - 1])
  {
    var a := pass + [HoleDeal];
    ReceiptsAppend(pass, [HoleDeal], s, p);
    ReceiptsAppend(a, pass, s, p);
    ReceiptsAppend(a + pass, [UpDeal], s, p);
  }

  /** What a player receives from the four parts, given what each pass hands them. */
  lemma {:induction false} SeatPartsReceipts(pass: seq<Deal>, s: Seat, p: seq<CardData>, k: nat, j: nat)
    requires s.Player? && k == |pass| && j < k && 2 * k + 2 <= |p|
    requires Receipts(pass, s, p) == [Receipt(Marked(p[|p| - 1 - j], false), true)]
    requires Receipts(pass, s, p[..|p| - k - 1]) == [Receipt(Marked(p[|p| - 2 - k - j], false), true)]
    ensures Receipts(pass + [HoleDeal] + pass + [UpDeal], s, p) ==
      [Receipt(Marked(p[|p| - 1 - j], false), true), Receipt(Marked(p[|p| - 2 - k - j], false), true)]
  {
    DealingOrderParts(pass, s, p);
    ReceiptsOne(HoleDeal, s, p[..|p| - k]);
    ReceiptsOne(UpDeal, s, p[..|p| - 2 * k - 1]);
  }

  /** What the dealer receives from the four parts, when neither pass hands the dealer anything. */
  lemma {:induction false} DealerPartsReceipts(pass: seq<Deal>, p: seq<CardData>)
    requires 2 * |pass| + 2 <= |p|
    requires Receipts(pass, Dealer, p) == [] && Receipts(pass, Dealer, p[..|p| - |pass| - 1]) == []
    ensures Receipts(pass + [HoleDeal] + pass + [UpDeal], Dealer, p) ==
      [Receipt(Marked(p[|p| - 1 - |pass|], true), false), Receipt(Marked(p[|p| - 2 - 2 * |pass|], false), true)]
  {
    var k := |pass|;
    var p1 := p[..|p| - k];
    var p3 := p[..|p| - 2 * k - 1];
    var x := Receipt(Marked(p[|p| - 1 - k], true), false);
    var y := Receipt(Marked(p[|p| - 2 - 2 * k], false), true);
    DealingOrderParts(pass, Dealer, p);
    assert Receipts([HoleDeal], Dealer, p1) == [x] by {
      ReceiptsOne(HoleDeal, Dealer, p1);
      TakeLast(p, |p| - k);
    }
    assert Receipts([UpDeal], Dealer, p3) == [y] by {
      ReceiptsOne(UpDeal, Dealer, p3);
      TakeLast(p, |p| - 2 * k - 1);
    }
    assert [] + [x] + [] + [y] == [x, y];
  }

  /** The last card of a pile's bottom n cards. */
  lemma {:induction false} TakeLast(p: seq<CardData>, n: nat)
    requires 0 < n <= |p|
    ensures |p[..n]| == n && p[..n][n - 1] == p[n - 1]
  {
  }

  /** Both passes hand the j-th of k players in this round one face-up card each. */
  lemma {:induction false} PassesSeat(players: seq<ScorerData>, i: nat, pile: seq<CardData>)
    requires i < |players| && InRound(players[i])
    requires 2 * CountInRound(players, |players|) + 2 <= |pile|
    ensures CountInRound(players, i) < CountInRound(players, |players|)
    ensures var pass := Pass(players, |players|); var k := CountInRound(players, |players|);
      var j := CountInRound(players, i); var p := pile;
      var rs := Receipts(pass + [HoleDeal] + pass + [UpDeal], Player(i), pile);
      && |rs| == 2
      && rs[0] == Receipt(Marked(p[|p| - 1 - j], false), true)
      && rs[1] == Receipt(Marked(p[|p| - 2 - k - j], false), true)
  {
    var n := |players|;
    var k := CountInRound(players, n);
    var j := CountInRound(players, i);
    var p := pile;
    var p2 := p[..|p| - k - 1];
    CountInRoundBelow(players, i, n);
    ReceiptsPass(players, n, i, p);
    ReceiptsPass(players, n, i, p2);
    assert p2[|p2| - 1 - j] == p[|p| - 2 - k - j];
    SeatPartsReceipts(Pass(players, n), Player(i), p, k, j);
  }

  /**
   * What the dealing order hands a player in this round: the j-th of k such
   * players gets the j-th and the (k+2+j)-th cards from the top, both face up,
   * each followed by a rescore.
   */
  lemma {:induction false} DealingOrderSeat(players: seq<ScorerData>, i: nat, pile: seq<CardData>)
    requires i < |players| && InRound(players[i])
    requires 2 * CountInRound(players, |players|) + 2 <= |pile|
    ensures CountInRound(players, i) < CountInRound(players, |players|)
    ensures var k := CountInRound(players, |players|); var j := CountInRound(players, i); var p := pile;
      var rs := Receipts(DealingOrder(players), Player(i), pile);
      && |rs| == 2
      && rs[0] == Receipt(Marked(p[|p| - 1 - j], false), true)
      && rs[1] == Receipt(Marked(p[|p| - 2 - k - j], false), true)
  {
    PassesSeat(players, i, pile);
  }

  /**
   * What the dealing order hands the dealer: card k+1 from the top, hidden and
   * not rescored, then card 2k+2, face up and rescored.
   */
  lemma {:induction false} DealingOrderDealer(players: seq<ScorerData>, pile: seq<CardData>)
    requires 2 * CountInRound(players, |players|) + 2 <= |pile|
    ensures var k := CountInRound(players, |players|); var p := pile; var rs := Receipts(DealingOrder(players), Dealer, pile);
      && |rs| == 2
      && rs[0] == Receipt(Marked(p[|p| - 1 - k], true), false)
      && rs[1] == Receipt(Marked(p[|p| - 2 - 2 * k], false), true)
  {
    var pass := Pass(players, |players|);
    PassDeals(players, |players|);
    ReceiptsNone(pass, Dealer, pile);
    ReceiptsNone(pass, Dealer, pile[..|pile| - |pass| - 1]);
    DealerPartsReceipts(pass, pile);
    assert DealingOrder(players) == pass + [HoleDeal] + pass + [UpDeal];
  }

  /** A player's two receipts: face-up cards, each followed by a rescore. */
  lemma {:induction false} ApplyPlayerCards(rule: ScoringRule, x: ScorerData, rs: seq<Receipt>, c1: CardData, c2: CardData)
    requires Joined(x) && |rs| == 2 && rs[0] == Receipt(c1, true) && rs[1] == Receipt(c2, true)
    ensures Apply(rule, x, rs) == UpdateScore(rule, AddCard(UpdateScore(rule, AddCard(x, c1)), c2))
  {
    assert rs == [rs[0]] + [rs[1]];
    ApplySnoc(rule, x, [], rs[0]);
    ApplySnoc(rule, x, [rs[0]], rs[1]);
  }

  /** The dealer's two receipts: the first not rescored, the second rescored. */
  lemma {:induction false} ApplyDealerCards(rule: ScoringRule, x: ScorerData, rs: seq<Receipt>, c1: CardData, c2: CardData)
    requires Joined(x) && |rs| == 2 && rs[0] == Receipt(c1, false) && rs[1] == Receipt(c2, true)
    ensures Apply(rule, x, rs) == UpdateScore(rule, AddCard(AddCard(x, c1), c2))
  {
    assert rs == [rs[0]] + [rs[1]];
    ApplySnoc(rule, x, [], rs[0]);
    ApplySnoc(rule, x, [rs[0]], rs[1]);
  }

  /** A player in this round, after the dealing order's two cards to them. */
  lemma {:induction false} DealingOrderSeatState(rule: ScoringRule, x: ScorerData, players: seq<ScorerData>, i: nat,
                                                 pile: seq<CardData>)
    requires Joined(x) && i < |players| && InRound(players[i])
    requires 2 * CountInRound(players, |players|) + 2 <= |pile|
    ensures CountInRound(players, i) < CountInRound(players, |players|)
    ensures var k := CountInRound(players, |players|); var j := CountInRound(players, i); var p := pile;
      Apply(rule, x, Receipts(DealingOrder(players), Player(i), pile)) ==
        UpdateScore(rule, AddCard(UpdateScore(rule, AddCard(x, Marked(p[|p| - 1 - j], false))),
          Marked(p[|p| - 2 - k - j], false)))
  {
    var k := CountInRound(players, |players|);
    var j := CountInRound(players, i);
    DealingOrderSeat(players, i, pile);
    ApplyPlayerCards(rule, x, Receipts(DealingOrder(players), Player(i), pile),
      Marked(pile[|pile| - 1 - j], false), Marked(pile[|pile| - 2 - k - j], false));
  }

  /** The dealer, after the dealing order's two cards to them. */
  lemma {:induction false} DealingOrderDealerState(rule: ScoringRule, x: ScorerData, players: seq<ScorerData>,
                                                   pile: seq<CardData>)
    requires Joined(x) && 2 * CountInRound(players, |players|) + 2 <= |pile|
    ensures var k := CountInRound(players, |players|); var p := pile;
      Apply(rule, x, Receipts(DealingOrder(players), Dealer, pile)) ==
        UpdateScore(rule, AddCard(AddCard(x, Marked(p[|p| - 1 - k], true)), Marked(p[|p| - 2 - 2 * k], false)))
  {
    var k := CountInRound(players, |players|);
    DealingOrderDealer(players, pile);
    ApplyDealerCards(rule, x, Receipts(DealingOrder(players), Dealer, pile),
      Marked(pile[|pile| - 1 - k], true), Marked(pile[|pile| - 2 - 2 * k], false));
  }

  /**
   * The dealing order, for a player in this round: with at least 2k + 2
   * face-up cards for k players in this round, the j-th of them (in seat
   * order) gets the j-th and the (k+2+j)-th cards from the top, both face up,
   * each followed by a rescore.
   */
  lemma {:induction false} InitialDealSeat(rule: ScoringRule, players: seq<ScorerData>, dealer: ScorerData,
                                           pile: seq<CardData>, turn: int, i: nat)
    requires Joined(dealer) && FacePile(pile)
    requires 2 * CountInRound(players, |players|) + 2 <= |pile|
    requires i < |players| && InRound(players[i])
    ensures var k := CountInRound(players, |players|); var p := pile; var j := CountInRound(players, i);
      && j < k
      && InitialDeal(rule, Table(players, dealer, pile, turn)).players[i] ==
           UpdateScore(rule, AddCard(UpdateScore(rule, AddCard(players[i], Marked(p[|p| - 1 - j], false))),
             Marked(p[|p| - 2 - k - j], false)))
  {
    var t := Table(players, dealer, pile, turn);
    InitialDealReceipts(rule, t, Player(i));
    DealingOrderSeatState(rule, players[i], players, i, pile);
  }

  /** The dealing leaves every player not in this round as they were. */
  lemma {:induction false} InitialDealOthers(rule: ScoringRule, t: Table, i: nat)
    requires Joined(t.dealer) && i < |t.players| && !InRound(t.players[i])
    ensures InitialDeal(rule, t).players[i] == t.players[i]
  {
    DealtElsewhere(rule, t, DealingOrder(t.players), i);
  }

  /** With at least 2k + 2 face-up cards for k players in this round, exactly 2k + 2 cards leave the pile, from the top. */
  lemma {:induction false} InitialDealPile(rule: ScoringRule, t: Table)
    requires Joined(t.dealer) && FacePile(t.pile)
    requires 2 * CountInRound(t.players, |t.players|) + 2 <= |t.pile|
    ensures var k := CountInRound(t.players, |t.players|);
      InitialDeal(rule, t).pile == t.pile[..|t.pile| - 2 * k - 2]
  {
    DealtPile(rule, t, DealingOrder(t.players));
  }

  /**
   * The dealing order, for the dealer: with at least 2k + 2 face-up cards for
   * k players in this round, the dealer gets card k+1 from the top hidden and
   * card 2k+2 face up, and is rescored once, after the second.
   */
  lemma {:induction false} InitialDealDealer(rule: ScoringRule, players: seq<ScorerData>, dealer: ScorerData,
                                             pile: seq<CardData>, turn: int)
    requires Joined(dealer) && FacePile(pile)
    requires 2 * CountInRound(players, |players|) + 2 <= |pile|
    ensures var k := CountInRound(players, |players|); var p := pile;
      InitialDeal(rule, Table(players, dealer, pile, turn)).dealer ==
        UpdateScore(rule, AddCard(AddCard(dealer, Marked(p[|p| - 1 - k], true)), Marked(p[|p| - 2 - 2 * k], false)))
  {
    var t := Table(players, dealer, pile, turn);
    InitialDealReceipts(rule, t, Dealer);
    DealingOrderDealerState(rule, dealer, players, pile);
  }

  // ------------------------------------------------------------ results

  /**
   * EnterResultState for one player: a hand in this round that is not bust wins
   * 2 x bet when it beats the dealer's score or the dealer is bust, and loses
   * otherwise; any other seat is left alone.
   */
  function Settle(p: ScorerData, dealer: ScorerData): (r: ScorerData)
    requires Joined(dealer)
    ensures !InRound(p) || FirstHand(p).handState == Bust ==> r == p
    ensures InRound(p) && FirstHand(p).handState != Bust ==>
      && Joined(r) && |r.hands| == |p.hands| && r.hands[1..] == p.hands[1..]
      && FirstHand(r) == FirstHand(p).(handState := FirstHand(r).handState)
      && (FirstHand(r).handState == Win || FirstHand(r).handState == Lose)
      && (FirstHand(r).handState == Win <==>
            FirstHand(p).score > FirstHand(dealer).score || FirstHand(dealer).handState == Bust)
      && r.cash == p.cash + (if FirstHand(r).handState == Win then 2 * FirstHand(p).bet else 0)
  {
    if !InRound(p) then p
    else if FirstHand(p).handState == Bust then p
    else if FirstHand(p).score > FirstHand(dealer).score || FirstHand(dealer).handState == Bust then
      Payout(SetHandState(p, Win), 2 * FirstHand(p).bet)
    else
      SetHandState(p, Lose)
  }

  function SettleAll(players: seq<ScorerData>, dealer: ScorerData): (r: seq<ScorerData>)
    requires Joined(dealer)
    ensures |r| == |players| && forall i :: 0 <= i < |players| ==> r[i] == Settle(players[i], dealer)
  {
    seq(|players|, i requires 0 <= i < |players| => Settle(players[i], dealer))
  }

  // ------------------------------------------------- betting, rebet, new game

  /** UpdateBettingState's test for the deal button: some joined player has a positive bet. */
  predicate DealEnabled(players: seq<ScorerData>) {
    exists i :: 0 <= i < |players| && Joined(players[i]) && FirstHand(players[i]).bet > 0
  }

  /** Rebet for one seat: a joined player starts a fresh unbet hand with the cash they have. */
  function RebetSeat(p: ScorerData): (r: ScorerData)
    ensures !Joined(p) ==> r == p
    ensures Joined(p) ==> Joined(r) && !InRound(r) && r.cash == p.cash && FirstHand(r).cards == []
  {
    if !Joined(p) then p else Initialize(ClearHand(p).cash)
  }

  /** NewGame for one seat: a joined player loses their hands and their cash. */
  function NewGameSeat(p: ScorerData): (r: ScorerData)
    ensures !Joined(r)
    ensures r.cash == if Joined(p) then 0 else p.cash
  {
    if !Joined(p) then p else SetCash(ClearHand(p), 0)
  }

  /** Rebet's next phase: reshuffle only when fewer than 52 cards remain. */
  function RebetTarget(remaining: nat): (s: GameState)
    ensures s == Shuffle <==> remaining < CardsPerDeck
    ensures s == Shuffle || s == Betting
  {
    if remaining < 52 then Shuffle else Betting
  }

  /** Rebet before its switch: cards returned, a fresh dealer, every joined player re-initialized. */
  function RebetTable(cfg: Config, t: Table): (r: Table)
    ensures r.pile == t.pile && r.turn == t.turn && r.dealer == Initialize(cfg.startingPlayerCash)
    ensures |r.players| == |t.players| && forall i :: 0 <= i < |t.players| ==> r.players[i] == RebetSeat(t.players[i])
  {
    t.(players := seq(|t.players|, i requires 0 <= i < |t.players| => RebetSeat(t.players[i])),
       dealer := Initialize(cfg.startingPlayerCash))
  }

  /** NewGame before its switch: cards returned, the dealer's hands cleared, every joined player out. */
  function NewGameTable(t: Table): (r: Table)
    ensures r.pile == t.pile && r.turn == t.turn && r.dealer == ClearHand(t.dealer)
    ensures |r.players| == |t.players| && forall i :: 0 <= i < |t.players| ==> r.players[i] == NewGameSeat(t.players[i])
  {
    t.(players := seq(|t.players|, i requires 0 <= i < |t.players| => NewGameSeat(t.players[i])),
       dealer := ClearHand(t.dealer))
  }

  // ------------------------------------------------------ phase changes

  /** ExitBettingState: the dealer gets a fresh hand and the starting cash. */
  function LeaveEffect(cfg: Config, from: GameState, t: Table): (r: Table)
    ensures r.players == t.players && r.pile == t.pile && r.turn == t.turn
    ensures from == Betting ==>
      && Joined(r.dealer) && !InRound(r.dealer) && r.dealer.cash == cfg.startingPlayerCash
      && |r.dealer.hands| == 1 && FirstHand(r.dealer).cards == [] && FirstHand(r.dealer).handState == HandState.Playing
    ensures from != Betting ==> r == t
  {
    if from == Betting then t.(dealer := Initialize(cfg.startingPlayerCash)) else t
  }

  /** What an Enter handler needs to run; Dealing also needs the dealer seated. */
  predicate EnterReady(cfg: Config, target: GameState, t: Table) {
    match target
    case Shuffle => true
    case Betting => true
    case Dealing => Joined(t.dealer)
    case Playing => Joined(t.dealer) && NextTurnReady(cfg.rule, t.(turn := -1))
    case Result => Joined(t.dealer)
  }

  /**
   * The Enter handlers: Shuffle lays a new shuffled pile, Playing starts the
   * turns from index -1, Result settles every hand; the others only show or
   * hide buttons.
   */
  function EnterEffect(cfg: Config, target: GameState, now: int, t: Table): (r: Table)
    requires EnterReady(cfg, target, t)
    ensures target != GameState.Playing ==> r.turn == t.turn && r.dealer == t.dealer
    ensures target == Shuffle ==>
      r.pile == ShuffledPile(cfg.shuffle, now, cfg.numberOfDecks) && r.players == t.players
    ensures target == Betting || target == Dealing ==> r == t
    ensures target == GameState.Playing ==>
      && r.turn == NextActive(t.players, 0) && r.players == t.players
      && |r.pile| <= |t.pile| && r.pile == t.pile[..|r.pile|]
      && (r.turn < |t.players| ==> r == t.(turn := r.turn))
    ensures target == Result ==>
      && r.pile == t.pile && |r.players| == |t.players|
      && forall i :: 0 <= i < |t.players| ==> r.players[i] == Settle(t.players[i], t.dealer)
  {
    match target
    case Shuffle => t.(pile := ShuffledPile(cfg.shuffle, now, cfg.numberOfDecks))
    case Betting => t
    case Dealing => t
    case Playing => NextTurn(cfg.rule, t.(turn := -1))
    case Result => t.(players := SettleAll(t.players, t.dealer))
  }

  /** A switch from `from` to `target`: the old Leave effect, then the new Enter effect. */
  function Switched(cfg: Config, from: GameState, target: GameState, now: int, t: Table): (r: Table)
    requires EnterReady(cfg, target, LeaveEffect(cfg, from, t))
    ensures target == Shuffle ==> r.pile == ShuffledPile(cfg.shuffle, now, cfg.numberOfDecks)
    ensures target != Shuffle ==> |r.pile| <= |t.pile| && r.pile == t.pile[..|r.pile|]
    ensures target != GameState.Playing ==> r.turn == t.turn
    ensures target != Result ==> r.players == t.players
  {
    EnterEffect(cfg, target, now, LeaveEffect(cfg, from, t))
  }

  /** UpdatePlayingState's test: the dealer's first hand stands or is bust. */
  predicate DealerDone(t: Table) {
    Joined(t.dealer) && (FirstHand(t.dealer).handState == Stand || FirstHand(t.dealer).handState == Bust)
  }
}
