# Blackjack round engine, modelled in Dafny

This project models the game logic of a single-table Blackjack game for Unity:

- the card values;
- the multi-deck draw pile and its seeded shuffle;
- the small callback-table state machine that drives the game's phases;
- the round manager.

The manager moves through five phases: Shuffle, Betting, Dealing, Playing and Result.

- **Shuffle** lays a new shuffled pile and moves straight on to Betting.
- **Betting**: seats join and bet the minimum. The deal button is enabled while some joined seat has a bet.
- **Dealing** hands two cards to every player in the round and two to the dealer. The dealer's first card is hidden.
- **Playing** runs the players' turns in seat order (stand, hit or double), then the dealer's turn. The dealer reveals the hole card, draws while under 17, and stands on 21 or less.
- **Result** settles every hand that is not bust. Such a hand wins twice its bet when it beats the dealer or the dealer is bust, and loses otherwise.
- **Rebet and New game** return the dealt cards and start over.

The files:

- `cards.dfy`: suits, ranks, `CardData`, and the sprite index of a card.
- `scoring.dfy`: hands and `ScorerData`, with the scorer operations the manager calls. The scoring rule itself is a parameter.
- `deck.dfy`: the canonical layout of the cards, the shuffle, and the `Deck` class with its stack as a sequence. The top of the stack is the last element.
- `state_machine.dfy`: the `StateMachine` class. It records every delegate it runs in a trace.
- `round.dfy`: the round rules as functions on a value of the table. A table is the players, the dealer, the pile and the turn index. This file also holds the lemmas about those functions: how the dealing order hands out cards, the dealer's loop, turn order and settlement.
- `manager.dfy`: the `BlackjackManager` class. Its fields are updated in place by methods that mirror the source's methods. Each method is proved to change the state exactly as the matching `Round` function says.

## Model

| member | source | states |
|---|---|---|
| Cards.SpriteIndex | Assets/Scripts/BlackjackManager.cs:140-154 | a sprite is found exactly when suit and rank are named members; the index is below 52, with the suit as its quotient by 13 and the rank as its remainder |
| Cards.SlotCard | Assets/Scripts/Deck.cs:15-21 | the card laid at slot i of a deck is face up, has a sprite, and its sprite index is i |
| Cards.NamedMembers | Assets/Scripts/Card.cs:6-31 | a suit or rank value is in range exactly when it is one of the named members, and each member's value is its position in declaration order |
| Cards.FacesAreSlots | Assets/Scripts/Card.cs:38-52 | every face-up card with an in-range suit and rank is the card of its own sprite index |
| Cards.SlotsAreDistinct | Assets/Scripts/BlackjackManager.cs:150 | different sprite indexes belong to different cards, so the sprite sheet index is one-to-one |
| Scoring.NewHand | Assets/Scripts/Scorer.cs:46-49 | a new hand has no cards, no bet, score 0 and the enum's default state |
| Scoring.VisibleContents | Assets/Scripts/Card.cs:44 | the cards that are scored are exactly the hand's cards whose hidden flag is clear |
| Scoring.UpdateScore | Assets/Scripts/BlackjackManager.cs:431 | only the first hand's score and state change: the score is the rule applied to the visible cards, and the state becomes Bust when the rule says so and is otherwise kept |
| Scoring.AddCard | Assets/Scripts/BlackjackManager.cs:133 | the card is appended to the first hand, and nothing else about the seat changes |
| Scoring.SetHandState | Assets/Scripts/BlackjackManager.cs:261 | only the first hand's state changes |
| Scoring.Initialize | Assets/Scripts/BlackjackManager.cs:105 | a seat that has joined but is not in the round: the given cash, one empty hand in play |
| Scoring.ClearHand | Assets/Scripts/BlackjackManager.cs:298 | the seat has no hands, so it no longer counts as joined, and keeps its cash |
| Scoring.AddBet | Assets/Scripts/BlackjackManager.cs:118 | an amount above the cash changes nothing; otherwise it moves from the cash to the first hand's bet |
| Scoring.Payout | Assets/Scripts/BlackjackManager.cs:494-495 | the cash grows by the amount and the hands are untouched |
| Scoring.SetCash | Assets/Scripts/BlackjackManager.cs:337 | the cash is overwritten and the hands are untouched |
| Decks.OneDeck | Assets/Scripts/Deck.cs:15-22 | one deck is 52 cards, with slot i holding the card of sprite index i |
| Decks.CanonicalDeck | Assets/Scripts/Deck.cs:11-23 | the unshuffled cards number decks × 52, all face up with a sprite |
| Decks.CanonicalAt | Assets/Scripts/Deck.cs:11-23 | position t of the layout holds the card of slot t mod 52 |
| Decks.CanonicalSlot | Assets/Scripts/Deck.cs:19-20 | the triple loop's write position i·52 + j·13 + k holds suit j, rank k, face up |
| Decks.OneDeckCount | Assets/Scripts/Deck.cs:15-22 | one deck holds every face-up card with a sprite exactly once, and no other card |
| Decks.CanonicalCount | Assets/Scripts/Deck.cs:11-23 | the layout holds every face-up card with a sprite exactly `decks` times, and no other card |
| Decks.ShuffledPileContents | Assets/Scripts/Deck.cs:9-41 | the shuffled pile has decks × 52 cards, each face-up card exactly `decks` times, and every card has a sprite and is face up |
| Decks.BuildCanonical | Assets/Scripts/Deck.cs:11-23 | the triple loop fills a fresh array with exactly the canonical layout |
| Decks.ShuffleInPlace | Assets/Scripts/Deck.cs:25-26 | the array afterwards holds the seeded permutation of its old contents |
| Decks.Deck.constructor | Assets/Scripts/BlackjackManager.cs:349 | a new deck has an empty pile |
| Decks.Deck.GetCardCount | Assets/Scripts/BlackjackManager.cs:313 | the count is the number of cards left in the pile |
| Decks.Deck.Shuffle | Assets/Scripts/Deck.cs:9-41 | the pile is replaced by the shuffled layout, pushed in array order; every card in it is face up with a sprite, and it has decks × 52 cards |
| Decks.Deck.GetTopCard | Assets/Scripts/Deck.cs:43-53 | on a non-empty pile, returns true with the top card and removes exactly that card; on an empty pile, returns false with the default card and leaves the pile alone |
| StateMachines.LeaveCalls | Assets/Scripts/Utils/StateMachine.cs:59-62 | at most one call: the current state's Leave, made exactly when there is a current state whose Leave is not null |
| StateMachines.UpdateCalls | Assets/Scripts/Utils/StateMachine.cs:28-31 | at most one call: the current state's Update, made exactly when that delegate is not null, while the state is current |
| StateMachines.SwitchCalls | Assets/Scripts/Utils/StateMachine.cs:43-68 | a switch's calls are the old state's Leave calls followed by one Enter call for the target exactly when its Enter is not null, made while the old state is current |
| StateMachines.SwitchOrder | Assets/Scripts/Utils/StateMachine.cs:43-68 | a switch runs the old state's Leave strictly before the new state's Enter; it runs only delegates that are not null; both run while the old state is still current |
| StateMachines.ReenterRunsBoth | Assets/Scripts/Utils/StateMachine.cs:51-54 | switching to the current state still leaves it and re-enters it |
| StateMachines.StateMachine.constructor | Assets/Scripts/Utils/StateMachine.cs:86-87 | no states, no current state, nothing run |
| StateMachines.StateMachine.Add | Assets/Scripts/Utils/StateMachine.cs:15-18 | a new id is registered with its delegates; a duplicate registers nothing; neither the current state nor the trace changes |
| StateMachines.StateMachine.CurrentState | Assets/Scripts/Utils/StateMachine.cs:20-23 | returns the id of the current state |
| StateMachines.StateMachine.Update | Assets/Scripts/Utils/StateMachine.cs:25-32 | runs exactly the current state's Update delegate, or nothing when it is null; the states and the current state stay |
| StateMachines.StateMachine.Shutdown | Assets/Scripts/Utils/StateMachine.cs:34-41 | runs the current Leave delegate, if there is one, and leaves no current state |
| StateMachines.StateMachine.SwitchTo | Assets/Scripts/Utils/StateMachine.cs:43-68 | an unknown target changes nothing; otherwise the old Leave and the new Enter run in that order, and the target becomes current |
| Round.DealCard | Assets/Scripts/BlackjackManager.cs:121-138 | one card leaves a non-empty pile, from the top; the seat gets it, marked, exactly when it is hidden or has a sprite; every other seat is unchanged and the seat's cash and round membership are kept |
| Round.KeptIsSprite | Assets/Scripts/BlackjackManager.cs:128 | the model's keep test is DealCard's own test: hidden, or GetCardSprite succeeds |
| Round.DealtBy | Assets/Scripts/BlackjackManager.cs:135 | cardsDealt grows by at most one card, and by one exactly when the seat receives a card |
| Round.Rescore | Assets/Scripts/BlackjackManager.cs:431 | only the seat rescored changes: its first hand's score becomes the rule applied to its visible cards, and its state becomes Bust exactly when the rule says the visible cards bust, otherwise kept; its cards, bet, cash and later hands are kept; the pile and the turn stay |
| Round.NextActive | Assets/Scripts/BlackjackManager.cs:163-178 | the turn stops at the least seat from the start that is in the round, having skipped only seats that are not; it is past the last seat when there is none |
| Round.NextActiveSame | Assets/Scripts/BlackjackManager.cs:164-172 | turn order depends only on which seats are in the round |
| Round.DealerDraw | Assets/Scripts/BlackjackManager.cs:200-202 | one draw extends the dealer's hand with face-up cards only; the players and the dealer's cash stay; the state is kept or becomes Bust |
| Round.DealerDraws | Assets/Scripts/BlackjackManager.cs:199-203 | the loop ends with the dealer at 17 or more, having added only face-up cards and taken cards only from the top of the pile; the players stay |
| Round.DealerDrawStep | Assets/Scripts/BlackjackManager.cs:199-203 | a dealer under 17 whose loop ends has a card left to draw, and one draw leaves the loop's outcome unchanged |
| Round.Reveal | Assets/Scripts/BlackjackManager.cs:189-190 | the dealer's first card becomes face up with its suit and rank kept; the other cards, the bet, score and state, the cash and the other hands stay, as do the players, the pile and the turn |
| Round.DealerTurn | Assets/Scripts/BlackjackManager.cs:186-209 | the hole card is face up, the other cards are extended only with face-up cards, and the score ends at 17 or more; a final score of at most 21 stands; the players stay; cards come only from the top of the pile |
| Round.NextTurn | Assets/Scripts/BlackjackManager.cs:156-184 | the turn index moves to the next seat in the round; the players stay; while a player is found, nothing but the index changes |
| Round.NextTurnToDealer | Assets/Scripts/BlackjackManager.cs:180-183 | with no player left, the next turn is the dealer's turn |
| Round.PlayerStand | Assets/Scripts/BlackjackManager.cs:259-264 | the current hand stands with its cards, bet and cash kept; the other players are unchanged; the turn moves to the next seat in the round |
| Round.HitDraw | Assets/Scripts/BlackjackManager.cs:268-271 | one draw attempt: one card leaves a non-empty pile, and the hand on turn gains exactly the card DealCard gives; it is rescored from its visible cards and becomes Bust exactly when the rule says so, otherwise keeping its state; bet, cash and later hands are kept; the dealer and every other seat are unchanged; the turn and round membership stay |
| Round.PlayerHit | Assets/Scripts/BlackjackManager.cs:266-277 | the turn moves on exactly when the draw busts the hand, as the next turn after the draw; otherwise the result is the draw alone |
| Round.DoubleBet | Assets/Scripts/BlackjackManager.cs:281 | when the id guard admits the turn index and the cash covers the minimum bet, the minimum moves from the cash to the first hand's bet and nothing else about the hand changes; otherwise nothing changes; the dealer, the pile and the other seats stay |
| Round.DoubleDraw | Assets/Scripts/BlackjackManager.cs:281-285 | the double's stake (the minimum bet, when allowed) moves from the cash to the bet, and the hand gains exactly the card DealCard gives, taken from the top; it is rescored and becomes Bust exactly when the rule says so, otherwise keeping its state; later hands, the dealer and the other seats stay |
| Round.BustToStand | Assets/Scripts/BlackjackManager.cs:287-290 | a bust hand on turn is set to Stand and nothing else changes; a hand that is not bust leaves the table untouched; so afterwards the hand is never bust |
| Round.PlayerDoubleAsWritten | Assets/Scripts/BlackjackManager.cs:279-293 | the seats end as the double's stake and draw left them, with a Bust overwritten by Stand; the turn always moves on, and the doubled hand is never left Bust |
| Round.PlayerDouble | Assets/Scripts/BlackjackManager.cs:279-293 | the corrected double: the turn always moves on, and the hand keeps its drawn state, Bust included |
| Round.DoubleBustSettledAsWritten | Assets/Scripts/BlackjackManager.cs:279-293 | as written, a double that busts reaches the result phase as Stand with its bust score; it is settled as Win or Lose, and above the dealer's score it is paid twice its bet |
| Round.DoubleBustLoses | Assets/Scripts/BlackjackManager.cs:279-293 | with the correction, a bust double stays Bust and the result phase leaves it alone, paying nothing |
| Round.Pass | Assets/Scripts/BlackjackManager.cs:422-432 | one player loop makes one deal for each seat in the round |
| Round.PassDeals | Assets/Scripts/BlackjackManager.cs:422-432 | every deal of a player loop is a face-up card and a rescore, for a seat in the round |
| Round.PassVisits | Assets/Scripts/BlackjackManager.cs:422-432 | every seat in the round is dealt to by a player loop, at the place its count among the seats in the round gives |
| Round.DealingOrder | Assets/Scripts/BlackjackManager.cs:418-448 | 2k + 2 deals for k seats in the round; only the (k+1)-th is hidden; the dealer gets the (k+1)-th and the last; every other deal goes to a seat in the round |
| Round.DealStep | Assets/Scripts/BlackjackManager.cs:430-431 | one deal changes only its seat, which gets DealCard's card and then a rescore if the deal asks for one |
| Round.Dealt | Assets/Scripts/BlackjackManager.cs:418-448 | dealing keeps the seats, the turn and round membership, and takes at most one card per deal, from the top of the pile |
| Round.InitialDeal | Assets/Scripts/BlackjackManager.cs:418-448 | the dealing keeps the seats and round membership, and takes at most 2k + 2 cards, from the top of the pile |
| Round.DealtPile | Assets/Scripts/BlackjackManager.cs:124 | on a pile of face-up cards with sprites, each deal takes exactly one card |
| Round.PassTo | Assets/Scripts/BlackjackManager.cs:422-432 | the loop over the first i seats keeps the seats, the turn and round membership |
| Round.PassToDealt | Assets/Scripts/BlackjackManager.cs:422-445 | the player loop as it runs, seat by seat, makes exactly the deals of a pass |
| Round.InitialDealByPasses | Assets/Scripts/BlackjackManager.cs:418-448 | UpdateDealingState's steps, each in turn, make exactly the dealing order: the first loop, the hidden dealer card, the second loop, the face-up dealer card and the dealer's rescore |
| Round.DealingOrderSeat | Assets/Scripts/BlackjackManager.cs:422-445 | the j-th of k seats in the round gets the j-th and the (k+2+j)-th cards from the top, both face up and each followed by a rescore |
| Round.DealingOrderDealer | Assets/Scripts/BlackjackManager.cs:433-448 | the dealer gets card k+1 from the top hidden without a rescore, then card 2k+2 face up with one |
| Round.InitialDealSeat | Assets/Scripts/BlackjackManager.cs:418-448 | with at least 2k + 2 cards in the pile, a seat in the round ends the dealing with the j-th and the (k+2+j)-th cards from the top, each followed by a rescore |
| Round.InitialDealOthers | Assets/Scripts/BlackjackManager.cs:424-429 | the dealing leaves every seat not in the round as it was |
| Round.InitialDealPile | Assets/Scripts/BlackjackManager.cs:418-448 | with at least 2k + 2 cards, exactly 2k + 2 cards leave the pile, from the top |
| Round.InitialDealDealer | Assets/Scripts/BlackjackManager.cs:433-448 | the dealer ends the dealing with card k+1 from the top hidden and card 2k+2 face up, scored once, after the second card |
| Round.Settle | Assets/Scripts/BlackjackManager.cs:474-501 | a seat not in the round, or a bust hand, is left alone; any other hand becomes Win or Lose and nothing else about it changes; it wins exactly when its score beats the dealer's or the dealer is bust; a win pays twice the bet and a loss pays nothing |
| Round.SettleAll | Assets/Scripts/BlackjackManager.cs:471-505 | every seat is settled against the same dealer |
| Round.RebetSeat | Assets/Scripts/BlackjackManager.cs:301-311 | a seat that has not joined is left alone; a joined seat keeps its cash and gets one fresh hand with no bet and no cards |
| Round.NewGameSeat | Assets/Scripts/BlackjackManager.cs:328-338 | afterwards no seat counts as joined; a joined seat's cash becomes 0 |
| Round.RebetTarget | Assets/Scripts/BlackjackManager.cs:313-320 | the game reshuffles exactly when fewer than 52 cards remain, and otherwise goes to Betting |
| Round.RebetTable | Assets/Scripts/BlackjackManager.cs:295-311 | the dealer gets a fresh hand and the starting cash; each seat is re-seated as above; the pile and the turn are kept |
| Round.NewGameTable | Assets/Scripts/BlackjackManager.cs:323-338 | the dealer's hands are cleared and every seat is taken out as above; the pile and the turn are kept |
| Round.LeaveEffect | Assets/Scripts/BlackjackManager.cs:397-402 | leaving Betting seats the dealer with the starting cash and one empty, unbet hand in play; leaving any other phase changes nothing; the players, pile and turn always stay |
| Round.EnterEffect | Assets/Scripts/BlackjackManager.cs:347-505 | entering Shuffle lays the shuffled pile with the clock reading as seed; Betting and Dealing change nothing; Playing moves the turn to the first seat in the round, keeps the players, changes nothing else when such a seat exists, and takes cards only from the top of the pile; Result settles every seat against the dealer and keeps the pile |
| Round.Switched | Assets/Scripts/BlackjackManager.cs:81-85 | entering Shuffle lays a new shuffled pile; every other phase only takes cards from the top of the pile; only Playing moves the turn; only Result changes the players |
| Blackjack.AddStates | Assets/Scripts/BlackjackManager.cs:80-85 | the machine holds exactly the five phases, each with the delegates the manager gives it, and nothing has run |
| Blackjack.BlackjackManager.constructor | Assets/Scripts/BlackjackManager.cs:77-88 | the phases are registered and Shuffle is current; only Shuffle's Enter has run; the pile is shuffled with the clock reading as seed; no seat has joined; the turn index is -1 |
| Blackjack.BlackjackManager.AddPlayer | Assets/Scripts/BlackjackManager.cs:97-106 | an id outside 0..MAXIMUM_PLAYER_COUNT changes nothing; otherwise exactly that seat is initialized with the starting cash |
| Blackjack.BlackjackManager.AddBet | Assets/Scripts/BlackjackManager.cs:110-119 | an id outside 0..MAXIMUM_PLAYER_COUNT changes nothing; otherwise exactly that seat bets the minimum |
| Blackjack.BlackjackManager.DealCard | Assets/Scripts/BlackjackManager.cs:121-138 | the table changes as Round.DealCard says; cardsDealt grows by exactly the card given, if any |
| Blackjack.BlackjackManager.UpdateSeatScore | Assets/Scripts/BlackjackManager.cs:197 | one seat is rescored, and nothing else changes |
| Blackjack.BlackjackManager.StartNextPlayerTurn | Assets/Scripts/BlackjackManager.cs:156-184 | the table changes as Round.NextTurn says; cardsDealt only gains cards taken from the pile |
| Blackjack.BlackjackManager.StartDealerTurn | Assets/Scripts/BlackjackManager.cs:186-209 | the table changes as Round.DealerTurn says; cardsDealt only gains cards taken from the pile |
| Blackjack.BlackjackManager.DealerDrawLoop | Assets/Scripts/BlackjackManager.cs:199-203 | the loop changes the table as Round.DealerDraws says; cardsDealt only gains cards taken from the pile |
| Blackjack.BlackjackManager.EnterShuffleState | Assets/Scripts/BlackjackManager.cs:347-352 | a new deck holds the pile shuffled with the clock reading as seed |
| Blackjack.BlackjackManager.PlayerStand | Assets/Scripts/BlackjackManager.cs:259-264 | the table changes as Round.PlayerStand says |
| Blackjack.BlackjackManager.PlayerHit | Assets/Scripts/BlackjackManager.cs:266-277 | the table changes as Round.PlayerHit says |
| Blackjack.BlackjackManager.PlayerDouble | Assets/Scripts/BlackjackManager.cs:279-293 | the table changes as the corrected Round.PlayerDouble says (see Findings) |
| Blackjack.BlackjackManager.SwitchTo | Assets/Scripts/Utils/StateMachine.cs:43-68 | the target becomes current; the trace gains the old Leave and the new Enter; the table changes as Round.Switched says; only Shuffle replaces the deck and the seed |
| Blackjack.BlackjackManager.ExitBettingState | Assets/Scripts/BlackjackManager.cs:397-402 | the dealer gets a fresh hand and the starting cash |
| Blackjack.BlackjackManager.EnterPlayingState | Assets/Scripts/BlackjackManager.cs:453-459 | the turns start from index -1, as Round.NextTurn says |
| Blackjack.BlackjackManager.EnterResultState | Assets/Scripts/BlackjackManager.cs:471-505 | every seat is settled against the dealer, as Round.Settle says |
| Blackjack.BlackjackManager.DealCards | Assets/Scripts/BlackjackManager.cs:254-257 | Dealing becomes current, and the table changes only by the Leave of the old phase |
| Blackjack.BlackjackManager.UpdateShuffleState | Assets/Scripts/BlackjackManager.cs:354-357 | Betting becomes current and the table is unchanged |
| Blackjack.BlackjackManager.UpdateBettingState | Assets/Scripts/BlackjackManager.cs:377-395 | the deal button is interactable exactly when some joined seat has a positive bet |
| Blackjack.BlackjackManager.DealPass | Assets/Scripts/BlackjackManager.cs:422-432 | the loop changes the table as Round.PassTo over every seat says |
| Blackjack.BlackjackManager.DealInitialHands | Assets/Scripts/BlackjackManager.cs:422-448 | the table changes as Round.InitialDeal says, so every fact proved about the dealing order holds of the manager |
| Blackjack.BlackjackManager.UpdateDealingState | Assets/Scripts/BlackjackManager.cs:418-451 | the initial deal is made, then Playing becomes current and the turns start |
| Blackjack.BlackjackManager.UpdatePlayingState | Assets/Scripts/BlackjackManager.cs:461-469 | Result becomes current, and every seat is settled, exactly when the dealer stands or is bust; otherwise nothing changes |
| Blackjack.BlackjackManager.Tick | Assets/Scripts/BlackjackManager.cs:90-93 | the current phase's Update delegate runs, if it has one, with the effect of that phase's handler for each of the five phases |
| Blackjack.BlackjackManager.Rebet | Assets/Scripts/BlackjackManager.cs:295-321 | the dealt cards are returned and the table is re-seated; Shuffle becomes current exactly when fewer than 52 cards remain, and Betting otherwise |
| Blackjack.BlackjackManager.NewGame | Assets/Scripts/BlackjackManager.cs:323-341 | the dealt cards are returned, every seat is taken out with no cash, and the game reshuffles |

## Left out

- The user interface is not modelled. This covers buttons and their visibility, sprites and card rendering, the settings screen and its sliders (EnableSettingsScreen, MinimumBetChanged, StartingCashChanged), and ShowPlayerActionButtons. EnterBettingState, EnterDealingState and ExitResultState only show or hide buttons. They are registered delegates with no effect on the modelled state. The bodies of Player.StartTurn and Player.EndTurn are not part of this model: Player.cs declares only UI fields. They are assumed not to touch the modelled state.
- The Awake listeners are left out. Button presses are the manager's methods, called directly.
- The card pool is not modelled; CardPool and Utils.Pool are not part of this model. Card objects become card values, and ReturnCards becomes emptying `cardsDealt`.
- Aliasing of card objects is not modelled. A hand and `cardsDealt` share the same Card objects. In the source, turning the dealer's hole card face up also turns over its entry in `cardsDealt`. The model keeps values, so that entry stays hidden. The ScorerData copy constructor, which shares the hand list, is not used by the core.
- The bodies of the scorer operations are not part of this model. These are Initialize, AddBet, AddCard, UpdateScore, SetHandState, ClearHand, Payout and SetCash, which Scorer.cs declares nowhere. Each gets the smallest definition the manager's use of it needs.
- Scoring.UpdateScore: the hand-scoring rule (card values, aces, the bust threshold) is a parameter, because the source that scores a hand is not part of this model. Only the first hand is ever scored.
- Utils.Shuffle and System.Random are not part of this model. The shuffle is a parameter, and the only thing assumed of it is that it permutes the cards.
- The clock is a parameter `now`. The truncating cast `(int)DateTime.Now.Ticks` is not modelled.
- Integers are unbounded. Overflow of 32-bit cash, bets and winnings is not modelled.
- The settings are constants of the manager's configuration. They can change between rounds only through the settings screen, which is left out. GameConstants.MAXIMUM_PLAYER_COUNT is such a constant; GameConstants is not part of this model.
- Debug.Log and Debug.LogWarning output is left out.
- Only the first hand of a seat is used; the source has no hand splitting.
- Decks.Deck.constructor: Deck.cs has no constructor, so the stack is null until the first Shuffle. Here it starts empty. The manager always shuffles a new deck before drawing from it.
- Decks.Deck.Shuffle: a negative deck count makes the array allocation throw in the source, and the count is an editable setting. Here the count is a nat, so that error is not modelled; the same holds for Decks.CanonicalDeck, Decks.ShuffledPile and the configuration's numberOfDecks.
- Decks.Deck.GetCardCount: no such method is in Deck.cs, although the manager calls it. It is modelled as the pile size.
- StateMachines.StateMachine.Add: `Dictionary.Add` throws on a duplicate id. Here a duplicate returns false and registers nothing.
- StateMachines.StateMachine.CurrentState: calling it with no current state dereferences null in the source. Here that is excluded by a precondition; StateMachines.StateMachine.Update has the same precondition.
- Blackjack.BlackjackManager.SwitchTo: the manager's Leave and Enter handlers run after the machine has made the target current. In the source they run before. No handler reads the current state, so the model reaches the same state, and the machine's trace records the source's order.
- Round.DealerDraws: the dealer's loop never ends on an empty pile, because DealCard then does nothing. The precondition DealerStops excludes that case, and DealerTurnReady, NextTurnReady, CanStand, CanHit and CanDoubleAsWritten carry it forward.
- Round.PlayerStand: the turn index is used unchecked in the source. The OnTurn precondition excludes out-of-range indexes and seats that have not joined. The same goes for PlayerHit, PlayerDouble and the manager's player actions. These are exceptions in the source, not modelled behaviours.
- Round.DealerTurn: reading the dealer's first card requires a joined dealer holding a card, which the source does not check.
- Blackjack.BlackjackManager.AddPlayer: the id guard lets MAXIMUM_PLAYER_COUNT itself through. The precondition requires any id the guard admits to be a seat. An id past the last seat would throw in the source. The UI only passes indexes of existing seats. Blackjack.BlackjackManager.AddBet has the same precondition.
- Blackjack.BlackjackManager.StartNextPlayerTurn: of `cardsDealt`, it says only that the list grew by at most the cards drawn from the pile, not which cards were added.
- Blackjack.BlackjackManager.StartDealerTurn: of `cardsDealt`, it says only that the list grew by at most the cards drawn from the pile.
- Blackjack.BlackjackManager.DealerDrawLoop: of `cardsDealt`, it says only that the list grew by at most the cards drawn from the pile.
- Blackjack.BlackjackManager.PlayerStand: of `cardsDealt`, it says only that the list grew by at most the cards drawn from the pile.
- Blackjack.BlackjackManager.PlayerHit: of `cardsDealt`, it says only that the list grew by at most the cards drawn from the pile.
- Blackjack.BlackjackManager.PlayerDouble: it follows the corrected double of the Findings section, so it leaves out the source's step that turns Bust into Stand; that step is modelled in Round.PlayerDoubleAsWritten. Of `cardsDealt`, it says only that the list grew by at most the cards drawn from the pile.
- Blackjack.BlackjackManager.EnterPlayingState: of `cardsDealt`, it says only that the list grew by at most the cards drawn from the pile.
- Blackjack.BlackjackManager.DealPass: of `cardsDealt`, it says only that the list grew by at most the cards drawn from the pile.
- Blackjack.BlackjackManager.DealInitialHands: of `cardsDealt`, it says only that the list grew by at most the cards drawn from the pile.
- Blackjack.BlackjackManager.UpdateDealingState: of `cardsDealt`, it says only that the list grew by at most the cards drawn from the pile.
- Blackjack.BlackjackManager.SwitchTo: of `cardsDealt`, it says only that the list grew by at most the cards drawn from the pile. This applies to every target except Shuffle.
- Blackjack.BlackjackManager.Tick: it says nothing of `cardsDealt` after Dealing or Playing. It states the deal button only for Betting.
- Blackjack.BlackjackManager.Rebet: the card count it tests is the pile before the switch, the same as in the source.

## Findings

| source | as written | input that shows it | evidently intended | confidence | as-written member | corrected member |
|---|---|---|---|---|---|---|
| Assets/Scripts/BlackjackManager.cs:279-293 | after a double, a hand the draw busts is set to Stand, so the result phase settles it like any standing hand | a double whose drawn card takes the score over 21 and above the dealer's score: the hand is marked Win and paid twice its bet | a bust double stays Bust and loses its doubled bet | not executed | Round.DoubleBustSettledAsWritten | Round.DoubleBustLoses |

Round.PlayerDoubleAsWritten models the double as the source has it. The manager's PlayerDouble follows the corrected Round.PlayerDouble, and Round.DoubleBustLoses is proved about it.
