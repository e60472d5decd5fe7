/**
 * The Blackjack manager (Assets/Scripts/BlackjackManager.cs) as a class whose
 * fields the game's phases update in place: the phase machine, the deck, the
 * players' and the dealer's scorer data, the dealt-card list, the turn index
 * and the deal button's interactable flag. Every method is proved to change
 * that state exactly as the functions of module Round say, so what is proved
 * about those functions holds of the manager.
 */
module Blackjack {
  import opened Options
  import opened Cards
  import opened Scoring
  import opened Decks
  import opened StateMachines
  import opened Round

  /** The five phases as Start registers them: which of their delegates are non-null. */
  const Registry: map<GameState, Callbacks> := map[
    Shuffle := Callbacks(true, true, false),
    Betting := Callbacks(true, true, true),
    Dealing := Callbacks(true, true, false),
    GameState.Playing := Callbacks(true, true, false),
    Result := Callbacks(true, false, true)]

  /** Start's five stateMachine.Add calls: each phase with the delegates the manager defines for it. */
  method AddStates(machine: StateMachine<GameState>)
    requires machine.Valid() && machine.states == map[] && machine.current == None && machine.trace == []
    modifies machine
    ensures machine.Valid() && machine.states == Registry && machine.current == None && machine.trace == []
  {
    var added := machine.Add(Shuffle, Callbacks(true, true, false));
    added := machine.Add(Betting, Callbacks(true, true, true));
    added := machine.Add(Dealing, Callbacks(true, true, false));
    added := machine.Add(GameState.Playing, Callbacks(true, true, false));
    added := machine.Add(Result, Callbacks(true, false, true));
  }

  /**
   * The dealt-card list `c` only grew from `c0`, and by no more entries than
   * cards were taken from the pile (from `n0` cards down to `n`).
   */
  predicate DealtFrom(c0: seq<CardData>, n0: nat, c: seq<CardData>, n: nat) {
    |c0| <= |c| && c[..|c0|] == c0 && |c| - |c0| <= n0 - n
  }

  /** One DealCard keeps the dealt-card list within what the pile gave up. */
  lemma {:induction false} DealtFromDeal(c0: seq<CardData>, n0: nat, c: seq<CardData>, t: Table, s: Seat, hidden: bool)
    requires Seated(t, s) && DealtFrom(c0, n0, c, |t.pile|)
    ensures DealtFrom(c0, n0, c + DealtBy(t, hidden), |Round.DealCard(t, s, hidden).pile|)
  {
    assert (c + DealtBy(t, hidden))[..|c0|] == c[..|c0|];
  }

  /** Two stretches of dealing in a row are one stretch. */
  lemma {:induction false} DealtFromTrans(c0: seq<CardData>, n0: nat, c1: seq<CardData>, n1: nat, c2: seq<CardData>, n2: nat)
    requires DealtFrom(c0, n0, c1, n1) && DealtFrom(c1, n1, c2, n2)
    ensures DealtFrom(c0, n0, c2, n2)
  {
    assert c2[..|c0|] == c2[..|c1|][..|c0|];
  }

  /** What the Update delegate of `phase` needs to run to its end. */
  predicate TickReady(cfg: Config, phase: GameState, t: Table) {
    match phase
    case Dealing => Joined(t.dealer) && NextTurnReady(cfg.rule, InitialDeal(cfg.rule, t).(turn := -1))
    case Playing => Joined(t.dealer)
    case _ => true
  }

  class BlackjackManager {
    /** The rule, the shuffle and the settings the manager reads. */
    const cfg: Config
    /** stateMachine: the phase machine Start fills in. */
    const machine: StateMachine<GameState>
    var deck: Deck
    /** The shuffle seed EnterShuffleState last took from the clock. */
    var seed: int
    /** players[i].scorerData */
    var players: seq<ScorerData>
    /** dealer.scorerData */
    var dealer: ScorerData
    /** cardsDealt: every card put into a hand since the cards were last returned. */
    var cardsDealt: seq<CardData>
    var currentPlayerTurnIndex: int
    /** dealButton.interactable */
    var dealButtonInteractable: bool

    /** The machine holds exactly the five registered phases, and one is current. */
    ghost predicate Valid()
      reads this, machine
    {
      && machine.Valid() && machine.states == Registry && machine.current.Some?
      && IsPermutation(cfg.shuffle)
    }

    function Phase(): GameState
      reads this, machine
      requires Valid()
    {
      machine.current.value
    }

    /** The round state the functions of module Round work on. */
    function View(): Table
      reads this, deck
    {
      Table(players, dealer, deck.cards, currentPlayerTurnIndex)
    }

    /**
     * Awake and Start: `playerCount` unjoined seats, a fresh machine with the
     * five phases registered, then the switch into Shuffle at clock `now`.
     */
    constructor (cfg: Config, playerCount: nat, now: int)
      requires IsPermutation(cfg.shuffle)
      ensures Valid() && Phase() == Shuffle && fresh(machine) && fresh(deck)
      ensures View() == Table(seq(playerCount, _ => Unjoined), Unjoined,
                              ShuffledPile(cfg.shuffle, now, cfg.numberOfDecks), -1)
      ensures cardsDealt == [] && seed == now && dealButtonInteractable
      ensures machine.trace == [Call(Enter, Shuffle, None)]
    {
      this.cfg := cfg;
      machine := new StateMachine<GameState>();
      deck := new Deck();
      seed := now;
      players := seq(playerCount, _ => Unjoined);
      dealer := Unjoined;
      cardsDealt := [];
      currentPlayerTurnIndex := -1;
      dealButtonInteractable := true;
      new;
      AddStates(machine);
      var switched := machine.SwitchTo(Shuffle);
      EnterShuffleState(now);
    }

    /** AddPlayer: an id outside [0, MAXIMUM_PLAYER_COUNT] is ignored; otherwise that seat joins. */
    method AddPlayer(playerId: int)
      requires 0 <= playerId <= cfg.maximumPlayerCount ==> playerId < |players|
      modifies this`players
      ensures players == if playerId < 0 || playerId > cfg.maximumPlayerCount then old(players)
                         else old(players)[playerId := Initialize(cfg.startingPlayerCash)]
    {
      if playerId < 0 || playerId > cfg.maximumPlayerCount {
        return;
      }
      players := players[playerId := Initialize(cfg.startingPlayerCash)];
    }

    /** AddBet: an id outside [0, MAXIMUM_PLAYER_COUNT] is ignored; otherwise that seat bets the minimum. */
    method AddBet(playerId: int)
      requires 0 <= playerId <= cfg.maximumPlayerCount ==> playerId < |players| && Joined(players[playerId])
      modifies this`players
      ensures players == if playerId < 0 || playerId > cfg.maximumPlayerCount then old(players)
                         else old(players)[playerId := Scoring.AddBet(old(players)[playerId], cfg.minimumBetAmount)]
    {
      if playerId < 0 || playerId > cfg.maximumPlayerCount {
        return;
      }
      players := players[playerId := Scoring.AddBet(players[playerId], cfg.minimumBetAmount)];
    }

    /**
     * DealCard: take the top card, if any, mark it, and when it is hidden or
     * GetCardSprite finds its sprite, add it to the seat's hand and to cardsDealt.
     */
    method DealCard(s: Seat, hidden: bool)
      requires Seated(View(), s)
      modifies this`players, this`dealer, this`cardsDealt, deck
      ensures View() == Round.DealCard(old(View()), s, hidden)
      ensures cardsDealt == old(cardsDealt) + DealtBy(old(View()), hidden)
      ensures DealtFrom(old(cardsDealt), old(|deck.cards|), cardsDealt, |deck.cards|)
    {
      assert cardsDealt[..|cardsDealt|] == cardsDealt;
      DealtFromDeal(cardsDealt, |deck.cards|, cardsDealt, View(), s, hidden);
      var ok, card := deck.GetTopCard();
      if ok {
        card := card.(isHidden := hidden);
        var sprite := SpriteIndex(card.suit, card.rank);
        KeptIsSprite(card);
        if hidden || sprite.Some? {
          if s.Dealer? {
            dealer := Scoring.AddCard(dealer, card);
          } else {
            players := players[s.index := Scoring.AddCard(players[s.index], card)];
          }
          cardsDealt := cardsDealt + [card];
        }
      }
    }

    /** scorer.UpdateScore() on one seat. */
    method UpdateSeatScore(s: Seat)
      requires Seated(View(), s)
      modifies this`players, this`dealer
      ensures View() == Rescore(cfg.rule, old(View()), s)
    {
      if s.Dealer? {
        dealer := UpdateScore(cfg.rule, dealer);
      } else {
        players := players[s.index := UpdateScore(cfg.rule, players[s.index])];
      }
    }

    /**
     * StartNextPlayerTurn: advance the index past every seat not in this
     * round; past the last seat, the dealer plays.
     */
    method StartNextPlayerTurn()
      requires NextTurnReady(cfg.rule, View())
      modifies this`players, this`dealer, this`cardsDealt, this`currentPlayerTurnIndex, deck
      ensures View() == NextTurn(cfg.rule, old(View()))
      ensures DealtFrom(old(cardsDealt), old(|deck.cards|), cardsDealt, |deck.cards|)
    {
      currentPlayerTurnIndex := currentPlayerTurnIndex + 1;
      while currentPlayerTurnIndex < |players|
        modifies this`currentPlayerTurnIndex
        invariant old(currentPlayerTurnIndex) + 1 <= currentPlayerTurnIndex <= |players|
        invariant NextActive(players, currentPlayerTurnIndex) == NextActive(players, old(currentPlayerTurnIndex) + 1)
        decreases |players| - currentPlayerTurnIndex
      {
        if !InRound(players[currentPlayerTurnIndex]) {
          currentPlayerTurnIndex := currentPlayerTurnIndex + 1;
        } else {
          return;
        }
      }
      assert deck == old(deck) && players == old(players);
      NextTurnToDealer(cfg.rule, old(View()));
      StartDealerTurn();
    }

    /**
     * StartDealerTurn: turn the hole card face up, rescore, draw while the
     * score is under 17, and stand on a final score of at most 21.
     */
    method StartDealerTurn()
      requires DealerTurnReady(cfg.rule, View())
      modifies this`players, this`dealer, this`cardsDealt, deck
      ensures View() == DealerTurn(cfg.rule, old(View()))
      ensures DealtFrom(old(cardsDealt), old(|deck.cards|), cardsDealt, |deck.cards|)
    {
      var h := FirstHand(dealer);
      dealer := WithFirstHand(dealer, h.(cards := h.cards[0 := Marked(h.cards[0], false)]));
      UpdateSeatScore(Dealer);
      DealerDrawLoop();
      if FirstHand(dealer).score <= 21 {
        dealer := SetHandState(dealer, Stand);
      }
    }

    /** StartDealerTurn's loop: draw and rescore while the dealer's score is under 17. */
    method DealerDrawLoop()
      requires Joined(dealer) && DealerStops(cfg.rule, View())
      modifies this`players, this`dealer, this`cardsDealt, deck
      ensures View() == DealerDraws(cfg.rule, old(View()))
      ensures DealtFrom(old(cardsDealt), old(|deck.cards|), cardsDealt, |deck.cards|)
    {
      while FirstHand(dealer).score < 17
        invariant Joined(dealer) && DealerStops(cfg.rule, View())
        invariant DealerDraws(cfg.rule, View()) == DealerDraws(cfg.rule, old(View()))
        invariant DealtFrom(old(cardsDealt), old(|deck.cards|), cardsDealt, |deck.cards|)
        decreases |deck.cards|
      {
        DealerDrawStep(cfg.rule, View());
        ghost var c1, n1 := cardsDealt, |deck.cards|;
        DealCard(Dealer, false);
        DealtFromTrans(old(cardsDealt), old(|deck.cards|), c1, n1, cardsDealt, |deck.cards|);
        UpdateSeatScore(Dealer);
      }
    }

    /** EnterShuffleState: a new deck, shuffled with the clock reading `now` as its seed. */
    method EnterShuffleState(now: int)
      requires IsPermutation(cfg.shuffle)
      modifies this`deck, this`seed
      ensures fresh(deck) && deck.cards == ShuffledPile(cfg.shuffle, now, cfg.numberOfDecks) && seed == now
    {
      deck := new Deck();
      seed := now;
      deck.Shuffle(cfg.shuffle, seed, cfg.numberOfDecks);
    }
  
    // ------------------------------------------------------ player actions

    /** PlayerStand: the current hand stands and the turn moves on. */
    method PlayerStand()
      requires CanStand(cfg.rule, View())
      modifies this`players, this`dealer, this`cardsDealt, this`currentPlayerTurnIndex, deck
      ensures View() == Round.PlayerStand(cfg.rule, old(View()))
      ensures DealtFrom(old(cardsDealt), old(|deck.cards|), cardsDealt, |deck.cards|)
    {
      players := players[currentPlayerTurnIndex := SetHandState(players[currentPlayerTurnIndex], Stand)];
      StartNextPlayerTurn();
    }

    /** PlayerHit: one card and a rescore; the turn moves on only once the hand is bust. */
    method PlayerHit()
      requires CanHit(cfg.rule, View())
      modifies this`players, this`dealer, this`cardsDealt, this`currentPlayerTurnIndex, deck
      ensures View() == Round.PlayerHit(cfg.rule, old(View()))
      ensures DealtFrom(old(cardsDealt), old(|deck.cards|), cardsDealt, |deck.cards|)
    {
      var i := currentPlayerTurnIndex;
      DealCard(Player(i), false);
      UpdateSeatScore(Player(i));
      if FirstHand(players[i]).handState == Bust {
        ghost var c1, n1 := cardsDealt, |deck.cards|;
        StartNextPlayerTurn();
        DealtFromTrans(old(cardsDealt), old(|deck.cards|), c1, n1, cardsDealt, |deck.cards|);
      }
    }

    /**
     * PlayerDouble, corrected: the minimum bet again through AddBet, one card
     * and a rescore, and the turn moves on. The source then overwrites a Bust
     * with Stand (see `Round.PlayerDoubleAsWritten`); here a bust hand stays Bust.
     */
    method PlayerDouble()
      requires CanDouble(cfg, View())
      modifies this`players, this`dealer, this`cardsDealt, this`currentPlayerTurnIndex, deck
      ensures View() == Round.PlayerDouble(cfg, old(View()))
      ensures DealtFrom(old(cardsDealt), old(|deck.cards|), cardsDealt, |deck.cards|)
    {
      var i := currentPlayerTurnIndex;
      ghost var t0 := View();
      AddBet(i);
      assert View() == DoubleBet(cfg, t0);
      DealCard(Player(i), false);
      UpdateSeatScore(Player(i));
      assert View() == DoubleDraw(cfg, t0);
      ghost var c1, n1 := cardsDealt, |deck.cards|;
      StartNextPlayerTurn();
      DealtFromTrans(old(cardsDealt), old(|deck.cards|), c1, n1, cardsDealt, |deck.cards|);
    }

    // ------------------------------------------------------ phase changes

    /**
     * stateMachine.SwitchTo(target): the machine records the old phase's Leave
     * and the new phase's Enter and makes `target` current; the manager's
     * handlers for the two then run in that order. `now` is the clock reading
     * EnterShuffleState takes as its seed.
     */
    method SwitchTo(target: GameState, now: int)
      requires Valid() && EnterReady(cfg, target, LeaveEffect(cfg, Phase(), View()))
      modifies this`players, this`dealer, this`cardsDealt, this`currentPlayerTurnIndex, this`deck, this`seed
      modifies deck, machine
      ensures Valid() && Phase() == target
      ensures machine.trace == old(machine.trace) + SwitchCalls(Registry, old(machine.current), target)
      ensures View() == Switched(cfg, old(Phase()), target, now, old(View()))
      ensures target == Shuffle ==> fresh(deck) && seed == now && cardsDealt == old(cardsDealt)
      ensures target != Shuffle ==> deck == old(deck) && seed == old(seed)
      ensures target != Shuffle ==> DealtFrom(old(cardsDealt), old(|deck.cards|), cardsDealt, |deck.cards|)
    {
      var from := machine.CurrentState();
      var switched := machine.SwitchTo(target);
      if from == Betting {
        ExitBettingState();
      }
      match target {
        case Shuffle => EnterShuffleState(now);
        case Betting =>
        case Dealing =>
        case Playing => EnterPlayingState();
        case Result => EnterResultState();
      }
    }

    /** ExitBettingState: the dealer takes a seat with a fresh hand and the starting cash. */
    method ExitBettingState()
      modifies this`dealer
      ensures dealer == Initialize(cfg.startingPlayerCash)
    {
      dealer := Initialize(cfg.startingPlayerCash);
    }

    /** EnterPlayingState: start the turns from index -1. */
    method EnterPlayingState()
      requires NextTurnReady(cfg.rule, View().(turn := -1))
      modifies this`players, this`dealer, this`cardsDealt, this`currentPlayerTurnIndex, deck
      ensures View() == NextTurn(cfg.rule, old(View()).(turn := -1))
      ensures DealtFrom(old(cardsDealt), old(|deck.cards|), cardsDealt, |deck.cards|)
    {
      currentPlayerTurnIndex := -1;
      StartNextPlayerTurn();
    }

    /**
     * EnterResultState: every hand in this round that is not bust wins 2 x bet
     * if it beats the dealer or the dealer is bust, and loses otherwise.
     */
    method EnterResultState()
      requires Joined(dealer)
      modifies this`players
      ensures players == SettleAll(old(players), dealer)
    {
      for i := 0 to |players|
        modifies this`players
        invariant |players| == |old(players)|
        invariant forall j :: 0 <= j < i ==> players[j] == Settle(old(players)[j], dealer)
        invariant forall j :: i <= j < |players| ==> players[j] == old(players)[j]
      {
        if !InRound(players[i]) {
          continue;
        }
        if FirstHand(players[i]).handState == Bust {
          continue;
        }
        if FirstHand(players[i]).score > FirstHand(dealer).score || FirstHand(dealer).handState == Bust {
          players := players[i := SetHandState(players[i], Win)];
          var winnings := 2 * FirstHand(players[i]).bet;
          players := players[i := Payout(players[i], winnings)];
        } else {
          players := players[i := SetHandState(players[i], Lose)];
        }
      }
    }

    /** DealCards (the deal button): switch to Dealing. */
    method DealCards(now: int)
      requires Valid() && EnterReady(cfg, Dealing, LeaveEffect(cfg, Phase(), View()))
      modifies this`players, this`dealer, this`cardsDealt, this`currentPlayerTurnIndex, this`deck, this`seed
      modifies deck, machine
      ensures Valid() && Phase() == Dealing
      ensures machine.trace == old(machine.trace) + SwitchCalls(Registry, old(machine.current), Dealing)
      ensures View() == LeaveEffect(cfg, old(Phase()), old(View()))
      ensures deck == old(deck) && cardsDealt == old(cardsDealt) && seed == old(seed)
    {
      SwitchTo(Dealing, now);
    }

    // ------------------------------------------------------ the Update delegates

    /** UpdateShuffleState: move straight on to Betting. */
    method UpdateShuffleState(now: int)
      requires Valid() && Phase() == Shuffle
      modifies this`players, this`dealer, this`cardsDealt, this`currentPlayerTurnIndex, this`deck, this`seed
      modifies deck, machine
      ensures Valid() && Phase() == Betting && View() == old(View())
      ensures machine.trace == old(machine.trace) + SwitchCalls(Registry, Some(Shuffle), Betting)
      ensures deck == old(deck) && cardsDealt == old(cardsDealt) && seed == old(seed)
    {
      SwitchTo(Betting, now);
    }

    /** UpdateBettingState: the deal button is interactable exactly when some joined player has bet. */
    method UpdateBettingState()
      modifies this`dealButtonInteractable
      ensures dealButtonInteractable == DealEnabled(players)
    {
      for i := 0 to |players|
        invariant forall j :: 0 <= j < i ==> !(Joined(players[j]) && FirstHand(players[j]).bet > 0)
      {
        if !Joined(players[i]) {
          continue;
        }
        if FirstHand(players[i]).bet > 0 {
          dealButtonInteractable := true;
          return;
        }
      }
      dealButtonInteractable := false;
    }

    /**
     * One of UpdateDealingState's two player loops: a face-up card and a
     * rescore for each player in this round, in seat order.
     */
    method DealPass()
      requires Joined(dealer)
      modifies this`players, this`dealer, this`cardsDealt, deck
      ensures View() == PassTo(cfg.rule, old(View()), |old(players)|)
      ensures DealtFrom(old(cardsDealt), old(|deck.cards|), cardsDealt, |deck.cards|)
    {
      for i := 0 to |players|
        invariant |players| == |old(players)| && Joined(dealer)
        invariant View() == PassTo(cfg.rule, old(View()), i)
        invariant DealtFrom(old(cardsDealt), old(|deck.cards|), cardsDealt, |deck.cards|)
      {
        if !InRound(players[i]) {
          continue;
        }
        ghost var c1, n1 := cardsDealt, |deck.cards|;
        DealCard(Player(i), false);
        DealtFromTrans(old(cardsDealt), old(|deck.cards|), c1, n1, cardsDealt, |deck.cards|);
        UpdateSeatScore(Player(i));
      }
    }

    /**
     * UpdateDealingState: two cards to every player in this round and two to
     * the dealer, the first of them hidden, then on to Playing.
     */
    method UpdateDealingState(now: int)
      requires Valid() && Phase() == Dealing && TickReady(cfg, Dealing, View())
      modifies this`players, this`dealer, this`cardsDealt, this`currentPlayerTurnIndex, this`deck, this`seed
      modifies deck, machine
      ensures Valid() && Phase() == GameState.Playing
      ensures machine.trace == old(machine.trace) + SwitchCalls(Registry, Some(Dealing), GameState.Playing)
      ensures View() == NextTurn(cfg.rule, InitialDeal(cfg.rule, old(View())).(turn := -1))
      ensures deck == old(deck) && seed == old(seed)
      ensures DealtFrom(old(cardsDealt), old(|deck.cards|), cardsDealt, |deck.cards|)
    {
      DealInitialHands();
      SwitchTo(GameState.Playing, now);
    }

    /**
     * The dealing of UpdateDealingState: a pass over the players, the
     * dealer's hidden card, a second pass, the dealer's face-up card and a
     * rescore of the dealer.
     */
    method DealInitialHands()
      requires Joined(dealer)
      modifies this`players, this`dealer, this`cardsDealt, deck
      ensures View() == InitialDeal(cfg.rule, old(View()))
      ensures DealtFrom(old(cardsDealt), old(|deck.cards|), cardsDealt, |deck.cards|)
    {
      InitialDealByPasses(cfg.rule, View());
      DealPass();
      ghost var c1, n1 := cardsDealt, |deck.cards|;
      DealCard(Dealer, true);
      DealtFromTrans(old(cardsDealt), old(|deck.cards|), c1, n1, cardsDealt, |deck.cards|);
      ghost var c2, n2 := cardsDealt, |deck.cards|;
      DealPass();
      DealtFromTrans(old(cardsDealt), old(|deck.cards|), c2, n2, cardsDealt, |deck.cards|);
      ghost var c3, n3 := cardsDealt, |deck.cards|;
      DealCard(Dealer, false);
      DealtFromTrans(old(cardsDealt), old(|deck.cards|), c3, n3, cardsDealt, |deck.cards|);
      UpdateSeatScore(Dealer);
    }

    /** UpdatePlayingState: once the dealer stands or is bust, on to Result. */
    method UpdatePlayingState(now: int)
      requires Valid() && Phase() == GameState.Playing && Joined(dealer)
      modifies this`players, this`dealer, this`cardsDealt, this`currentPlayerTurnIndex, this`deck, this`seed
      modifies deck, machine
      ensures Valid() && (Phase() == Result <==> DealerDone(old(View())))
      ensures Phase() == Result || Phase() == GameState.Playing
      ensures machine.trace == old(machine.trace) +
        (if DealerDone(old(View())) then SwitchCalls(Registry, Some(GameState.Playing), Result) else [])
      ensures View() == if DealerDone(old(View())) then old(View()).(players := SettleAll(old(players), old(dealer)))
                        else old(View())
      ensures deck == old(deck) && cardsDealt == old(cardsDealt) && seed == old(seed)
    {
      if FirstHand(dealer).handState == Stand || FirstHand(dealer).handState == Bust {
        SwitchTo(Result, now);
      }
    }

    /**
     * Update: the machine runs the current phase's Update delegate, if it has
     * one; Result has none.
     */
    method Tick(now: int)
      requires Valid() && TickReady(cfg, Phase(), View())
      modifies this`players, this`dealer, this`cardsDealt, this`currentPlayerTurnIndex, this`deck, this`seed
      modifies this`dealButtonInteractable, deck, machine
      ensures Valid()
      ensures machine.trace == old(machine.trace) + UpdateCalls(Registry, old(Phase())) +
        (if Phase() == old(Phase()) then [] else SwitchCalls(Registry, Some(old(Phase())), Phase()))
      ensures old(Phase()) == Shuffle ==> Phase() == Betting && View() == old(View())
      ensures old(Phase()) == Betting ==>
        Phase() == Betting && View() == old(View()) && dealButtonInteractable == DealEnabled(old(players))
      ensures old(Phase()) == Dealing ==>
        Phase() == GameState.Playing && View() == NextTurn(cfg.rule, InitialDeal(cfg.rule, old(View())).(turn := -1))
      ensures old(Phase()) == GameState.Playing ==>
        && (Phase() == Result <==> DealerDone(old(View())))
        && (Phase() == Result || Phase() == GameState.Playing)
        && View() == if DealerDone(old(View())) then old(View()).(players := SettleAll(old(players), old(dealer)))
                     else old(View())
      ensures old(Phase()) == Result ==> Phase() == Result && View() == old(View())
    {
      var phase := machine.CurrentState();
      machine.Update();
      match phase {
        case Shuffle => UpdateShuffleState(now);
        case Betting => UpdateBettingState();
        case Dealing => UpdateDealingState(now);
        case Playing => UpdatePlayingState(now);
        case Result =>
      }
    }

    // ------------------------------------------------------ rebet and new game

    /**
     * Rebet: return the cards, give the dealer a fresh hand and the starting
     * cash, re-initialize every joined player with the cash they have, then
     * reshuffle if fewer than 52 cards remain and bet again otherwise.
     */
    method Rebet(now: int)
      requires Valid()
      modifies this`players, this`dealer, this`cardsDealt, this`currentPlayerTurnIndex, this`deck, this`seed
      modifies deck, machine
      ensures Valid() && Phase() == RebetTarget(old(|deck.cards|)) && cardsDealt == []
      ensures machine.trace == old(machine.trace) + SwitchCalls(Registry, old(machine.current), Phase())
      ensures View() == Switched(cfg, old(Phase()), Phase(), now, RebetTable(cfg, old(View())))
    {
      cardsDealt := [];
      dealer := ClearHand(dealer);
      dealer := Initialize(cfg.startingPlayerCash);
      for i := 0 to |players|
        modifies this`players
        invariant |players| == |old(players)|
        invariant forall j :: 0 <= j < i ==> players[j] == RebetSeat(old(players)[j])
        invariant forall j :: i <= j < |players| ==> players[j] == old(players)[j]
      {
        if !Joined(players[i]) {
          continue;
        }
        players := players[i := ClearHand(players[i])];
        players := players[i := Initialize(players[i].cash)];
      }
      assert View() == RebetTable(cfg, old(View()));
      if deck.GetCardCount() < 52 {
        SwitchTo(Shuffle, now);
      } else {
        SwitchTo(Betting, now);
      }
    }

    /**
     * NewGame: return the cards, clear the dealer's hands, take every joined
     * player out with no cash, and reshuffle.
     */
    method NewGame(now: int)
      requires Valid()
      modifies this`players, this`dealer, this`cardsDealt, this`currentPlayerTurnIndex, this`deck, this`seed
      modifies deck, machine
      ensures Valid() && Phase() == Shuffle && cardsDealt == []
      ensures machine.trace == old(machine.trace) + SwitchCalls(Registry, old(machine.current), Shuffle)
      ensures View() == Switched(cfg, old(Phase()), Shuffle, now, NewGameTable(old(View())))
    {
      cardsDealt := [];
      dealer := ClearHand(dealer);
      for i := 0 to |players|
        modifies this`players
        invariant |players| == |old(players)|
        invariant forall j :: 0 <= j < i ==> players[j] == NewGameSeat(old(players)[j])
        invariant forall j :: i <= j < |players| ==> players[j] == old(players)[j]
      {
        if !Joined(players[i]) {
          continue;
        }
        players := players[i := ClearHand(players[i])];
        players := players[i := SetCash(players[i], 0)];
      }
      assert View() == NewGameTable(old(View()));
      SwitchTo(Shuffle, now);
    }
  }
}
