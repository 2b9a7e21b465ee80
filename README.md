# Blackjack rule engine in Dafny

This project models the rule engine of a terminal blackjack game played against an automated dealer (`blackjack.py`). It covers:

- the cards and their point values;
- the soft-ace hand total and the natural-blackjack test;
- a six-deck shoe that reshuffles when fewer than 10 cards remain;
- the round steps of the game object: the deal, a hit, the dealer's stand-on-17 policy and the ordered showdown rules;
- the money and counter bookkeeping of the main loop: the bet, the two natural short-circuits before the player acts, the double down and the payout.

The files follow the source's classes:

- `cards.dfy` (module `Cards`): `Suit`, `Card`, `CardValue`.
- `hands.dfy` (module `Hands`): the hand total as a specification function `HandValue` with its lemmas, and `class Hand` with a `GetValue` method written as the source's two loops.
- `shoe.dfy` (module `Shoe`):
  - `class Deck`, whose `Reset` builds the shoe with the source's three nested loops and whose `Draw` pops the last card;
  - `Dealt`, which describes a run of draws;
  - the lemmas that a reset holds every card exactly once per deck.
- `rules.dfy` (module `Rules`): the showdown rules, the payout multipliers, the counters and the money movements, as pure functions on values (`Resolve`, `Record`, `AfterBet`, `AfterDoubleDown`, `AfterPayout`, `AfterNaturals`).
- `game.dfy` (module `Play`):
  - `class BlackjackGame`, with the source's fields and one method per round step;
  - `Continued` and `EndedAt` (with `TurnPlayed`, which says some action ended the turn), which describe the player's turn: which actions were played, which cards they drew, and whether the turn ended bust or doubled;
  - `DealerStood`, which describes the dealer's stopping rule: two cards dealt, then draws until the first total of 17 or more;
  - `RoundPlayed`, which ties a round's report to the cards dealt from the shoe and to the actions: a natural, a bust or a showdown, each with its turn, dealer play and outcome;
  - `PlayRound`, one pass through the main loop for a given bet and a given sequence of player actions;
  - `RoundMoney` and `RoundTally`, which state the effect of a whole round on the money and on the counters.

Three behaviours of the code are easy to miss, and the model follows the code in each:

- A showdown loss adds `int(bet * -1)` after the bet was already taken when it was placed, so the bet is charged twice. `RoundNet` and `ShowdownNet` state that loss as twice the stake.
- A player who busts during the turn never reaches `determine_winner`. Such a round changes no counter (`RoundTally`, `Busted`), although the statistics take wins + losses + pushes as the number of rounds played (blackjack.py:174).
- A double natural settled before the turn returns the bet without adding to the total won. A tie settled at the showdown adds the bet to the total won because the multiplier 1 is positive (`NaturalsVersusShowdown`).

## Model

| member | source | states |
|---|---|---|
| Cards.CardValue | blackjack.py:18-25 | a card is worth 2..11: exactly the ace is 11, exactly ten and the faces are 10, a numeral is its own number |
| Cards.SuitIndex | blackjack.py:4-8 | each suit has a position in the enumeration order the deck is built in |
| Cards.RankIndex | blackjack.py:36 | each rank has a position in the rank list a reset walks through |
| Hands.ReduceClosedForm | blackjack.py:68-70 | the ace-reduction loop subtracts 10 once per reduction, with no reductions at 21 or below and otherwise the fewest that reach 21, capped by the number of aces |
| Hands.HandValueReduction | blackjack.py:57-72 | the hand value is the all-aces-as-11 sum minus 10·k for some k no larger than the number of aces; above 21 only when every ace is reduced; below the soft sum only when at least 12 |
| Hands.HandValueBetween | blackjack.py:57-72 | the hand value lies between the total with aces as 1 and the total with aces as 11 |
| Hands.BustIffHardBust | blackjack.py:57-72 | a hand is over 21 exactly when its total with aces as 1 is over 21 |
| Hands.HardTotalBounds | blackjack.py:57-72 | the total with aces as 1 lies between the number of cards and ten times it |
| Hands.HardTotalGrows | blackjack.py:113-116 | each added card raises the total with aces as 1 by 1 to 10, which is why the dealer loop ends |
| Hands.TwoCardsNeverBust | blackjack.py:57-72 | a two-card hand is never over 21 |
| Hands.TwoCardTotals | blackjack.py:62-65 | the sum and ace count of a two-card hand are those of its two cards |
| Hands.ThreeCardTotals | blackjack.py:62-65 | the sum and ace count of a three-card hand are those of its three cards |
| Hands.NaturalIffAceAndTen | blackjack.py:74-76 | a natural is exactly an ace and a ten-valued card, in either order, as the only two cards |
| Hands.HandValueExamples | blackjack.py:57-76 | A+A+9 is 21, A+A+A is 13, 7+7+7 is 21 but not a natural, A+K is a natural |
| Hands.Hand.constructor | blackjack.py:50-51 | a new hand is empty |
| Hands.Hand.AddCard | blackjack.py:53-55 | the card is appended and nothing else changes |
| Hands.Hand.GetValue | blackjack.py:57-72 | the two loops compute the hand value |
| Hands.Hand.IsBlackjack | blackjack.py:74-76 | true exactly when the hand has two cards worth 21 |
| Shoe.OneDeck | blackjack.py:36-40 | one deck lists 52 cards (its order is stated by OneDeckAt) |
| Shoe.OneDeckAt | blackjack.py:36-40 | the card at position 13·s + r of one deck has the s-th suit and the r-th rank, the order of the nested loops |
| Shoe.FreshShoe | blackjack.py:33-40 | the list built for d decks has 52·d cards |
| Shoe.OneDeckOnce | blackjack.py:36-40 | every card occurs exactly once in one deck |
| Shoe.FreshShoeCount | blackjack.py:33-40 | every card occurs exactly d times in the list built for d decks |
| Shoe.ShuffledIffPermutation | blackjack.py:41 | a shoe having 52 cards per deck and each card once per deck is the same as being a permutation of the freshly built list |
| Shoe.DrawStepSize | blackjack.py:43-47 | a draw leaves one card fewer than the shoe held after any reshuffle |
| Shoe.DealtExtend | blackjack.py:43-47 | one more draw extends a run of draws |
| Shoe.DealtFromTop | blackjack.py:43-47 | draws from a shoe too deep to reshuffle take its last cards in order and leave the rest in place |
| Shoe.DealtConcat | blackjack.py:43-47 | two runs of draws, one after the other, form one run |
| Shoe.FourDraws | blackjack.py:103-106 | four successive draws form one run and, from a deep enough shoe, take its last four cards |
| Shoe.Deck.constructor | blackjack.py:28-31 | a new shoe is a freshly shuffled set of the given number of decks |
| Shoe.Deck.Reset | blackjack.py:33-41 | the shoe holds 52·d cards with every card exactly d times, in some order |
| Shoe.Deck.Draw | blackjack.py:43-47 | below 10 cards the shoe is rebuilt first; the last card is removed and returned; the size is one less than after any reset; no card ever exceeds d copies |
| Rules.Resolve | blackjack.py:118-157 | the outcome is a rule that applies and no earlier rule applies |
| Rules.FirstApplicableIsResolved | blackjack.py:118-157 | conversely, the first applicable rule is the outcome picked |
| Rules.PlayerBustFirst | blackjack.py:123-127 | a player over 21 loses even when the dealer is over 21 too |
| Rules.MultiplierOf | blackjack.py:118-157 | which outcomes lose (-1), push (1), win (2) or pay a blackjack (2.5) |
| Rules.TruncHalf | blackjack.py:339 | halving rounds towards zero, as the integer conversion does |
| Rules.Payout | blackjack.py:339 | int(bet·m): -bet, bet, 2·bet, or 2.5·bet rounded towards zero |
| Rules.PayoutExamples | blackjack.py:339 | a blackjack on 100 pays 250 and on 5 pays 12; lose, push and win on 100 give -100, 100 and 200 |
| Rules.Record | blackjack.py:118-157 | each showdown raises exactly one of wins, losses and pushes, as the multiplier says; blackjacks only on a player blackjack; busts only on a player bust |
| Rules.RecordKeepsConsistent | blackjack.py:118-157 | the counters never show more blackjacks than wins or more busts than losses |
| Rules.NaturalsOf | blackjack.py:273-293 | the four ways the dealer-first naturals check can end |
| Rules.RecordNaturals | blackjack.py:273-293 | a natural short-circuit counts one game and no bust; no naturals changes nothing |
| Rules.NaturalsAgreeWithResolve | blackjack.py:273-293 | the short-circuit reaches the same outcome and the same counters as the showdown rules would on the two-card hands |
| Rules.AfterBet | blackjack.py:258-263 | a bet is taken exactly when 0 < bet ≤ balance; the balance drops by the bet and the total wagered grows by it |
| Rules.AfterDoubleDown | blackjack.py:313-321 | refused when the balance does not cover the bet; otherwise the balance drops by the bet, the bet doubles and the total wagered grows by the original bet |
| Rules.BetAndDoubleExample | blackjack.py:258-321 | 1000 with a bet of 100 leaves 900; doubling leaves 800, a bet of 200 and 200 wagered; a bet the balance cannot cover is not doubled |
| Rules.AfterPayout | blackjack.py:339-342 | the payout goes to the balance, and to the total won only for a positive multiplier |
| Rules.AfterNaturals | blackjack.py:273-293 | double natural returns the bet; dealer natural changes nothing more; player natural pays int(2.5·bet) to balance and total won |
| Rules.ShowdownNet | blackjack.py:258-342 | from before the bet: a showdown loss costs twice the bet, a push nets nothing and adds the bet to the total won, a win nets the bet, a blackjack nets int(1.5·bet) |
| Rules.NaturalsVersusShowdown | blackjack.py:276-278 | a short-circuit push adds nothing to the total won while a showdown push adds the bet; a short-circuit dealer natural costs the bet once less than a showdown loss |
| Play.NaturalRoundPlayed | blackjack.py:273-293 | a deal with a natural on either side is a RoundPlayed ending in that natural with no further cards |
| Play.TurnsRoundPlayed | blackjack.py:296-342 | a deal without naturals followed by a turn and a dealer draw is a RoundPlayed ending in a bust or a showdown |
| Play.RoundTally | blackjack.py:273-342 | a refused bet or a busted turn changes no counter; the games counted (wins + losses + pushes, blackjack.py:174) grow by one exactly for a natural or a showdown; wins, losses and pushes each grow exactly for the naturals and showdown outcomes that pay 2 or 2.5, -1 and 1; blackjacks grow exactly for a player natural or a showdown blackjack; busts exactly for a showdown player bust |
| Play.Settle | blackjack.py:273-342 | after the bet: no result exactly when a double down is claimed the balance cannot cover; otherwise the stake is the bet, doubled after a double down, and the wagered total grows by the extra; a bust leaves the stake lost; a showdown loss, push or win takes, returns or doubles the stake in the balance, and a push or win adds it to the total won; a double natural returns the bet; a dealer natural changes nothing; a player natural pays int(2.5·bet) to balance and total won |
| Play.RoundMoney | blackjack.py:258-342 | a refused bet changes nothing; any other round took a valid bet |
| Play.RoundNet | blackjack.py:258-342 | net balance and wagered change of a whole round for each way it can end, with the doubled stake after a double down |
| Play.RoundTallyKeepsConsistent | blackjack.py:273-342 | a round keeps blackjacks ≤ wins and busts ≤ losses |
| Play.BlackjackGame.constructor | blackjack.py:82-95 | a six-deck shuffled shoe, empty hands, balance and starting balance 1000, everything else zero |
| Play.BlackjackGame.StartRound | blackjack.py:97-106 | two fresh hands of two cards each, drawn player, dealer, player, dealer; from a deep enough shoe they are its last four cards in that order |
| Play.BlackjackGame.PlayerHit | blackjack.py:108-111 | exactly one drawn card is appended to the player's hand; the result is whether the hand is at 21 or below |
| Play.BlackjackGame.DealerPlay | blackjack.py:113-116 | the dealer ends at 17 or more, only cards are appended, every earlier prefix was below 17, the player's hand is untouched |
| Play.BlackjackGame.DetermineWinner | blackjack.py:118-157 | the outcome of the ordered rules, its multiplier and its counter update |
| Play.BlackjackGame.PlaceBet | blackjack.py:258-263 | accepted exactly for 0 < bet ≤ balance, with the bet placed; otherwise nothing changes |
| Play.BlackjackGame.SettleNaturals | blackjack.py:273-293 | the dealer-first naturals check with its counter and money updates |
| Play.BlackjackGame.DoubleDown | blackjack.py:313-329 | refused without any change when the bet is not covered; otherwise the double-down bookkeeping and exactly one card drawn |
| Play.BlackjackGame.PlayerTurn | blackjack.py:296-331 | the actions are played until a stand, a bust or a double down; the turn is the one the actions describe, and bust means the hand is over 21 |
| Play.BlackjackGame.ApplyPayout | blackjack.py:339-342 | balance and total won change as AfterPayout says |
| Play.BlackjackGame.FinishRound | blackjack.py:333-342 | the dealer keeps its two cards and draws until the first prefix at 17 or more, as one run of draws from the shoe; the player's hand is untouched; the outcome is the ordered rules on the two totals and can only be a dealer bust or a comparison; counters as Record and money as AfterPayout say |
| Play.BlackjackGame.PlayTurns | blackjack.py:296-342 | the player's turn is the one the actions describe on the cards drawn, and the dealer then stands as in FinishRound, all as one run of draws; a bust means the player is over 21 and the dealer draws nothing; a showdown is the ordered rules on the final totals; money and counters as Settle and RoundTally say |
| Play.BlackjackGame.PlayPlacedRound | blackjack.py:268-342 | deal, naturals check, then turns: the report is RoundPlayed on the dealt hands, the actions and whether the bet could be doubled; money and counters as Settle and RoundTally say |
| Play.BlackjackGame.PlayRound | blackjack.py:254-342 | one pass of the main loop: refused exactly for an invalid bet, and then nothing but the purse is looked at; otherwise the round is RoundPlayed on fresh hands drawn from the shoe; money and counters as RoundMoney and RoundTally say |

## Left out

- Printing: `display_state`, `display_statistics` (blackjack.py:159-244), every `print` in `play`, `Card.__str__`, `Hand.__str__` and the suit symbols. Their floating-point percentages, ROI and house edge are also left out.
- Input: reading the bet with `input()` and `int()`, and the `ValueError` retry. The bet is a parameter, so a non-number cannot occur. The source re-prompts after an invalid bet (blackjack.py:258-260, `continue` in the inner bet loop). `PlayRound` instead ends the pass with a `BetRefused` report and changes nothing. A caller retries by calling it again.
- Action letters: the letters are replaced by a sequence of `Hit`, `Stand` and `Double` actions. An unknown letter re-prompts without changing state, so it has no action of its own. A `Double` that the source refuses (more than two cards, or a bet the balance does not cover) continues the turn unchanged, as the re-prompt does.
- End of input: an action sequence that runs out ends the turn like a stand, because a finite sequence stands in for the keyboard.
- The outer loop: the session loop, "play again" and game over (blackjack.py:252, 344-352). `PlayRound` models one pass through it.
- The naturals short-circuit: both natural branches end with `continue` (blackjack.py:282, 293), so such a round also skips the play-again prompt and the game-over statistics (blackjack.py:344-352). The model has no outer loop and so does not show that skip.
- Shuffling: `random.shuffle` is modelled as an arbitrary permutation of the freshly built list, with no randomness or fairness.
- Floating point: the multipliers -1, 1, 2 and 2.5 are kept as halves, and `int(bet * m)` is computed exactly with truncation towards zero. The multipliers -1, 1 and 2 are integers in the source, so those payouts are exact there too. Only `int(bet * 2.5)` (blackjack.py:287, 339) is a float computation. It differs from the model's exact truncation once 5·bet ≥ 2^53: for a bet of 2^51 + 3 the float product is a tie that rounds to even and gives one more than the model. Such bets are not modelled.
- Shoe.Deck.constructor: requires at least one deck. The source's default of one deck holds; with zero decks the source's `pop` would raise.
- Play.BlackjackGame.FinishRound: requires a two-card dealer hand with no natural and a player at 21 or below, which is how the main loop reaches it.
