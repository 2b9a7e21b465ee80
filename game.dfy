/** The game object: the shoe, the two hands, the money and the counters, and
    the steps of a round that update them (blackjack.py, class BlackjackGame). */
module Play {
  import opened Cards
  import opened Hands
  import opened Shoe
  import opened Rules

  /** A player decision in the turn loop. */
  datatype Action = Hit | Stand | Double

  /** The actions in `actions` were all played and none ended the turn; from
      the starting hand `start` they drew the cards `drawn`, in order. `covers`
      says whether the balance covers a second bet. A hit continues the turn
      when it leaves the hand at 21 or below; a double down continues it when
      it is refused, because the hand no longer has two cards or the balance
      does not cover it. */
  predicate Continued(actions: seq<Action>, start: seq<Card>, drawn: seq<Card>, covers: bool)
    decreases |actions|
  {
    if actions == [] then drawn == []
    else
      var rest := actions[..|actions| - 1];
      match actions[|actions| - 1]
      case Stand => false
      case Hit =>
        drawn != [] && HandValue(start + drawn) <= 21 &&
        Continued(rest, start, drawn[..|drawn| - 1], covers)
      case Double => !(|start + drawn| == 2 && covers) && Continued(rest, start, drawn, covers)
  }

  /** The turn ended with action j, or with j == |actions| when the actions
      ran out: a stand, a hit that busted, or an accepted double down followed
      by its one card. */
  predicate EndedAt(actions: seq<Action>, j: nat, start: seq<Card>, drawn: seq<Card>, covers: bool, bust: bool, doubled: bool)
  {
    j <= |actions| &&
    if j == |actions| then Continued(actions, start, drawn, covers) && !bust && !doubled
    else
      match actions[j]
      case Stand => Continued(actions[..j], start, drawn, covers) && !bust && !doubled
      case Hit =>
        drawn != [] && Continued(actions[..j], start, drawn[..|drawn| - 1], covers) &&
        HandValue(start + drawn) > 21 && bust && !doubled
      case Double =>
        drawn != [] && Continued(actions[..j], start, drawn[..|drawn| - 1], covers) &&
        |start| + |drawn| == 3 && covers && doubled && (bust <==> HandValue(start + drawn) > 21)
  }

  /** The actions, played from the starting hand `start`, drew `drawn` and
      ended the turn with the given bust and doubled flags. */
  ghost predicate TurnPlayed(actions: seq<Action>, start: seq<Card>, drawn: seq<Card>, covers: bool, bust: bool, doubled: bool)
  {
    exists j: nat :: EndedAt(actions, j, start, drawn, covers, bust, doubled)
  }

  /** A hit that leaves the hand at 21 or below continues the turn. */
  lemma ContinueHit(actions: seq<Action>, i: nat, start: seq<Card>, drawn: seq<Card>, covers: bool)
    requires i < |actions| && actions[i] == Hit && drawn != []
    requires Continued(actions[..i], start, drawn[..|drawn| - 1], covers)
    requires HandValue(start + drawn) <= 21
    ensures Continued(actions[..i + 1], start, drawn, covers)
  {
    assert actions[..i + 1][..i] == actions[..i];
  }

  /** A refused double down continues the turn. */
  lemma ContinueDouble(actions: seq<Action>, i: nat, start: seq<Card>, drawn: seq<Card>, covers: bool)
    requires i < |actions| && actions[i] == Double
    requires Continued(actions[..i], start, drawn, covers)
    requires !(|start + drawn| == 2 && covers)
    ensures Continued(actions[..i + 1], start, drawn, covers)
  {
    assert actions[..i + 1][..i] == actions[..i];
  }

  /** A stand ends the turn where it stands. */
  lemma EndStand(actions: seq<Action>, i: nat, start: seq<Card>, drawn: seq<Card>, covers: bool)
    requires i < |actions| && actions[i] == Stand
    requires Continued(actions[..i], start, drawn, covers)
    ensures EndedAt(actions, i, start, drawn, covers, false, false)
  {
  }

  /** A hit that takes the hand over 21 ends the turn bust. */
  lemma EndHit(actions: seq<Action>, i: nat, start: seq<Card>, drawn: seq<Card>, covers: bool)
    requires i < |actions| && actions[i] == Hit && drawn != []
    requires Continued(actions[..i], start, drawn[..|drawn| - 1], covers)
    requires HandValue(start + drawn) > 21
    ensures EndedAt(actions, i, start, drawn, covers, true, false)
  {
  }

  /** An accepted double down ends the turn after its one card. */
  lemma EndDouble(actions: seq<Action>, i: nat, start: seq<Card>, drawn: seq<Card>, covers: bool, bust: bool)
    requires i < |actions| && actions[i] == Double && drawn != []
    requires Continued(actions[..i], start, drawn[..|drawn| - 1], covers)
    requires |start| + |drawn| == 3 && covers
    requires bust <==> HandValue(start + drawn) > 21
    ensures EndedAt(actions, i, start, drawn, covers, bust, true)
  {
  }

  /** How a round played with a given bet and actions ended. */
  datatype Report =
    | BetRefused
    | Natural(n: Naturals)
    | Busted(doubled: bool)
    | Showdown(o: Outcome, doubled: bool)

  /** The dealer's hand as dealer_play leaves it when dealt two cards: it
      ends at 17 or more and every shorter hand it passed through after the
      deal was below 17, so it stood at the first total of 17 or more. */
  ghost predicate DealerStood(dealer: seq<Card>)
  {
    |dealer| >= 2 && HandValue(dealer) >= 17 &&
    forall k :: 2 <= k < |dealer| ==> HandValue(dealer[..k]) < 17
  }

  /** A round after its bet, as the main loop plays it: from the shoe
      `before`, the four deal cards then the player's and the dealer's draws
      leave the shoe `after`; the naturals of the dealt hands decide whether
      the round short-circuits; otherwise the actions decide the turn, with
      `covers` saying whether the balance covers a second bet, and the
      dealer's policy and the showdown rules decide the rest. */
  ghost predicate RoundPlayed(numDecks: nat, before: seq<Card>, player: seq<Card>, dealer: seq<Card>,
                              after: seq<Card>, actions: seq<Action>, covers: bool, r: Report)
  {
    |player| >= 2 && |dealer| >= 2 &&
    Dealt(numDecks, before, [player[0], dealer[0], player[1], dealer[1]] + player[2..] + dealer[2..], after) &&
    var n := NaturalsOf(IsNatural(player[..2]), IsNatural(dealer[..2]));
    match r
    case BetRefused => false
    case Natural(m) => m == n && n != NoNatural && |player| == 2 && |dealer| == 2
    case Busted(doubled) =>
      n == NoNatural && |dealer| == 2 && HandValue(player) > 21 &&
      TurnPlayed(actions, player[..2], player[2..], covers, true, doubled)
    case Showdown(o, doubled) =>
      n == NoNatural && HandValue(player) <= 21 && DealerStood(dealer) &&
      TurnPlayed(actions, player[..2], player[2..], covers, false, doubled) &&
      o == Resolve(HandValue(player), HandValue(dealer), false, false)
  }

  /** A round that a natural short-circuits right after the deal. */
  lemma NaturalRoundPlayed(numDecks: nat, before: seq<Card>, player: seq<Card>, dealer: seq<Card>,
                           after: seq<Card>, actions: seq<Action>, covers: bool, n: Naturals)
    requires |player| == 2 && |dealer| == 2
    requires Dealt(numDecks, before, [player[0], dealer[0], player[1], dealer[1]], after)
    requires n == NaturalsOf(IsNatural(player), IsNatural(dealer)) && n != NoNatural
    ensures RoundPlayed(numDecks, before, player, dealer, after, actions, covers, Natural(n))
  {
    assert player[..2] == player && dealer[..2] == dealer;
    assert [player[0], dealer[0], player[1], dealer[1]] + player[2..] + dealer[2..] ==
           [player[0], dealer[0], player[1], dealer[1]];
  }

  /** A round whose deal has no natural, so that the turns decide it. */
  lemma TurnsRoundPlayed(numDecks: nat, before: seq<Card>, dealt: seq<Card>, mid: seq<Card>,
                         player: seq<Card>, dealer: seq<Card>, after: seq<Card>,
                         actions: seq<Action>, covers: bool, r: Report)
    requires |player| >= 2 && |dealer| >= 2
    requires dealt == [player[0], dealer[0], player[1], dealer[1]]
    requires Dealt(numDecks, before, dealt, mid)
    requires Dealt(numDecks, mid, player[2..] + dealer[2..], after)
    requires !IsNatural(player[..2]) && !IsNatural(dealer[..2])
    requires r.Busted? || r.Showdown?
    requires TurnPlayed(actions, player[..2], player[2..], covers, r.Busted?, r.doubled)
    requires r.Busted? ==> HandValue(player) > 21 && |dealer| == 2
    requires r.Showdown? ==>
      r.o == Resolve(HandValue(player), HandValue(dealer), false, false) &&
      HandValue(player) <= 21 && DealerStood(dealer)
    ensures RoundPlayed(numDecks, before, player, dealer, after, actions, covers, r)
  {
    DealtConcat(numDecks, before, dealt, mid, player[2..] + dealer[2..], after);
    assert dealt + (player[2..] + dealer[2..]) == dealt + player[2..] + dealer[2..];
  }

  /** The counters after a round that ended as `r`: a busted turn never
      reaches determine_winner, so it records nothing. */
  function RoundTally(t: Tally, r: Report): (u: Tally)
    ensures r.BetRefused? || r.Busted? ==> u == t
    ensures Games(u) == Games(t) + (if (r.Natural? && r.n != NoNatural) || r.Showdown? then 1 else 0)
    ensures u.wins > t.wins <==>
      r == Natural(PlayerNatural) || (r.Showdown? && (MultiplierOf(r.o) == Win || MultiplierOf(r.o) == BlackjackWin))
    ensures u.losses > t.losses <==> r == Natural(DealerNatural) || (r.Showdown? && MultiplierOf(r.o) == Lose)
    ensures u.pushes > t.pushes <==> r == Natural(BothNatural) || (r.Showdown? && MultiplierOf(r.o) == Push)
    ensures u.blackjacks == t.blackjacks +
      (if r == Natural(PlayerNatural) || (r.Showdown? && r.o == PlayerBlackjack) then 1 else 0)
    ensures u.busts == t.busts + (if r.Showdown? && r.o == PlayerBust then 1 else 0)
  {
    match r
    case BetRefused => t
    case Natural(n) => RecordNaturals(t, n)
    case Busted(_) => t
    case Showdown(o, _) => Record(t, o)
  }

  /** The part of the stake a double down added: the bet once more. */
  function Extra(placed: Purse, r: Report): int
  {
    if (r.Busted? || r.Showdown?) && r.doubled then placed.bet else 0
  }

  /** The money after a round whose bet was placed, leaving `placed`, and
      that ended as `r`. There is none when the report claims a double down
      the balance could not cover. Otherwise the stake on the table is the
      bet plus the extra of a double down, and the balance minus that extra
      is what the payout is applied to. */
  function Settle(placed: Purse, r: Report): (q: Option<Purse>)
    ensures q.None? <==> (r.Busted? || r.Showdown?) && r.doubled && placed.bet > placed.balance
    ensures q.Some? ==>
      q.value.bet == placed.bet + Extra(placed, r) && q.value.wagered == placed.wagered + Extra(placed, r)
    ensures q.Some? && r.Busted? ==>
      q.value.balance == placed.balance - Extra(placed, r) && q.value.won == placed.won
    ensures q.Some? && r.Showdown? && MultiplierOf(r.o) == Lose ==>
      q.value.balance == placed.balance - Extra(placed, r) - q.value.bet && q.value.won == placed.won
    ensures q.Some? && r.Showdown? && MultiplierOf(r.o) == Push ==>
      q.value.balance == placed.balance - Extra(placed, r) + q.value.bet && q.value.won == placed.won + q.value.bet
    ensures q.Some? && r.Showdown? && MultiplierOf(r.o) == Win ==>
      q.value.balance == placed.balance - Extra(placed, r) + 2 * q.value.bet &&
      q.value.won == placed.won + 2 * q.value.bet
    ensures r == Natural(BothNatural) ==>
      q == Some(placed.(balance := placed.balance + placed.bet))
    ensures r == Natural(DealerNatural) || r == Natural(NoNatural) || r.BetRefused? ==> q == Some(placed)
    ensures r == Natural(PlayerNatural) && placed.bet >= 0 ==>
      q.Some? && 0 <= 5 * placed.bet - 2 * (q.value.balance - placed.balance) <= 1 &&
      q.value.won - placed.won == q.value.balance - placed.balance
  {
    match r
    case BetRefused => Some(placed)
    case Natural(n) => Some(AfterNaturals(placed, n))
    case Busted(doubled) => Stake(placed, doubled)
    case Showdown(o, doubled) =>
      match Stake(placed, doubled)
      case None => None
      case Some(staked) => Some(AfterPayout(staked, MultiplierOf(o)))
  }

  /** The money after a round started from `p` with the given bet that
      ended as `r`: unchanged when the bet is refused, otherwise the bet is
      placed and the round settled. */
  function RoundMoney(p: Purse, bet: int, r: Report): (q: Option<Purse>)
    ensures r.BetRefused? ==> q == Some(p)
    ensures !r.BetRefused? && q.Some? ==> ValidBet(p.balance, bet)
  {
    if r.BetRefused? then Some(p)
    else
      match AfterBet(p, bet)
      case None => None
      case Some(placed) => Settle(placed, r)
  }

  /** What a round does to the balance and the total wagered, from before
      the bet to the end. The stake is the bet, or twice the bet after a
      double down. The total wagered grows by the stake. A bust loses the
      stake. A showdown loss costs the stake twice: once when it is taken
      and once more through the -1 multiplier. A showdown win nets the stake
      and a push nets nothing. A dealer natural loses the bet once, a double
      natural nets nothing, and a player natural nets int(1.5 * bet). */
  lemma RoundNet(p: Purse, bet: int, r: Report)
    requires !r.BetRefused? && RoundMoney(p, bet, r).Some?
    ensures var q := RoundMoney(p, bet, r).value;
      var stake := if (r.Busted? || r.Showdown?) && r.doubled then 2 * bet else bet;
      q.wagered == p.wagered + stake &&
      (r == Natural(BothNatural) ==> q.balance == p.balance) &&
      (r == Natural(DealerNatural) ==> q.balance == p.balance - bet) &&
      (r == Natural(PlayerNatural) ==> 0 <= 3 * bet - 2 * (q.balance - p.balance) <= 1) &&
      (r.Busted? ==> q.balance == p.balance - stake) &&
      (r.Showdown? && MultiplierOf(r.o) == Lose ==> q.balance == p.balance - 2 * stake) &&
      (r.Showdown? && MultiplierOf(r.o) == Push ==> q.balance == p.balance) &&
      (r.Showdown? && MultiplierOf(r.o) == Win ==> q.balance == p.balance + stake)
  {
  }


  /** A round keeps the counters consistent: never more blackjacks than
      wins, never more busts than losses. */
  lemma RoundTallyKeepsConsistent(t: Tally, r: Report)
    requires TallyConsistent(t)
    ensures TallyConsistent(RoundTally(t, r))
  {
  }

  class BlackjackGame {
    var deck: Deck
    var playerHand: Hand
    var dealerHand: Hand
    var playerBalance: int
    const startingBalance: int
    var currentBet: nat
    var wins: nat
    var losses: nat
    var pushes: nat
    var blackjacks: nat
    var busts: nat
    var totalWagered: nat
    var totalWon: nat

    function Money(): Purse
      reads this
    {
      Purse(playerBalance, currentBet, totalWagered, totalWon)
    }

    function Tallies(): Tally
      reads this
    {
      Tally(wins, losses, pushes, blackjacks, busts)
    }

    /** The shoe is valid and the two hands are separate objects. */
    ghost predicate Valid()
      reads this, deck
    {
      deck.Valid() && playerHand != dealerHand
    }

    /** A six-deck shoe, two empty hands, 1000 in the balance and every
        counter at zero. */
    constructor ()
      ensures Valid() && fresh(deck) && deck.numDecks == 6
      ensures IsShuffledShoe(6, deck.cards)
      ensures playerHand.cards == [] && dealerHand.cards == []
      ensures Money() == Purse(1000, 0, 0, 0) && startingBalance == 1000
      ensures Tallies() == Tally(0, 0, 0, 0, 0)
    {
      deck := new Deck(6);
      playerHand := new Hand();
      dealerHand := new Hand();
      playerBalance := 1000;
      startingBalance := 1000;
      currentBet := 0;
      wins, losses, pushes, blackjacks, busts := 0, 0, 0, 0, 0;
      totalWagered := 0;
      totalWon := 0;
    }

    /** Fresh hands, then two cards each, drawn for the player, the dealer,
        the player and the dealer in turn. */
    method StartRound()
      requires Valid()
      modifies this`playerHand, this`dealerHand, deck
      ensures Valid() && fresh(playerHand) && fresh(dealerHand)
      ensures |playerHand.cards| == 2 && |dealerHand.cards| == 2
      ensures Dealt(deck.numDecks, old(deck.cards),
                    [playerHand.cards[0], dealerHand.cards[0], playerHand.cards[1], dealerHand.cards[1]],
                    deck.cards)
      ensures |old(deck.cards)| >= 13 ==>
        var top := old(deck.cards);
        var n := |top|;
        playerHand.cards == [top[n - 1], top[n - 3]] &&
        dealerHand.cards == [top[n - 2], top[n - 4]] &&
        deck.cards == top[..n - 4]
    {
      playerHand := new Hand();
      dealerHand := new Hand();
      ghost var s0 := deck.cards;
      var c0 := deck.Draw();
      playerHand.AddCard(c0);
      ghost var s1 := deck.cards;
      var c1 := deck.Draw();
      dealerHand.AddCard(c1);
      ghost var s2 := deck.cards;
      var c2 := deck.Draw();
      playerHand.AddCard(c2);
      ghost var s3 := deck.cards;
      var c3 := deck.Draw();
      dealerHand.AddCard(c3);
      FourDraws(deck.numDecks, s0, c0, s1, c1, s2, c2, s3, c3, deck.cards);
    }

    /** Draws one card onto the player's hand and tells whether the hand is
        still at 21 or below. */
    method PlayerHit() returns (ok: bool)
      requires Valid()
      modifies deck, playerHand
      ensures Valid()
      ensures |playerHand.cards| == |old(playerHand.cards)| + 1
      ensures playerHand.cards[..|old(playerHand.cards)|] == old(playerHand.cards)
      ensures DrawStep(deck.numDecks, old(deck.cards), playerHand.cards[|playerHand.cards| - 1], deck.cards)
      ensures ok <==> HandValue(playerHand.cards) <= 21
    {
      var card := deck.Draw();
      playerHand.AddCard(card);
      assert playerHand.cards[..|old(playerHand.cards)|] == old(playerHand.cards);
      var value := playerHand.GetValue();
      ok := value <= 21;
    }

    /** The dealer draws while the hand is below 17. */
    method DealerPlay()
      requires Valid()
      modifies deck, dealerHand
      ensures Valid()
      ensures HandValue(dealerHand.cards) >= 17
      ensures playerHand.cards == old(playerHand.cards)
      ensures |dealerHand.cards| >= |old(dealerHand.cards)|
      ensures dealerHand.cards[..|old(dealerHand.cards)|] == old(dealerHand.cards)
      ensures forall k :: |old(dealerHand.cards)| <= k < |dealerHand.cards| ==>
        HandValue(dealerHand.cards[..k]) < 17
      ensures Dealt(deck.numDecks, old(deck.cards), dealerHand.cards[|old(dealerHand.cards)|..], deck.cards)
    {
      ghost var start := dealerHand.cards;
      ghost var s0 := deck.cards;
      assert dealerHand.cards[|start|..] == [];
      var value := dealerHand.GetValue();
      while value < 17
        invariant Valid()
        invariant value == HandValue(dealerHand.cards)
        invariant |dealerHand.cards| >= |start| && dealerHand.cards[..|start|] == start
        invariant forall k :: |start| <= k < |dealerHand.cards| ==> HandValue(dealerHand.cards[..k]) < 17
        invariant Dealt(deck.numDecks, s0, dealerHand.cards[|start|..], deck.cards)
        decreases 17 - HardTotal(dealerHand.cards)
      {
        HandValueBetween(dealerHand.cards);
        ghost var before := dealerHand.cards;
        ghost var mid := deck.cards;
        var card := deck.Draw();
        dealerHand.AddCard(card);
        HardTotalGrows(before, card);
        assert dealerHand.cards[..|before|] == before;
        forall k | |start| <= k < |dealerHand.cards|
          ensures HandValue(dealerHand.cards[..k]) < 17
        {
          if k < |before| {
            assert dealerHand.cards[..k] == before[..k];
          }
        }
        assert dealerHand.cards[..|start|] == before[..|start|];
        assert dealerHand.cards[|start|..] == before[|start|..] + [card];
        DealtExtend(deck.numDecks, s0, before[|start|..], mid, card, deck.cards);
        value := dealerHand.GetValue();
      }
    }

    /** Compares the hands with the rules in their fixed order, counts the
        result and returns the payout multiplier. */
    method DetermineWinner() returns (m: Multiplier, o: Outcome)
      modifies this`wins, this`losses, this`pushes, this`blackjacks, this`busts
      ensures o == Resolve(HandValue(playerHand.cards), HandValue(dealerHand.cards),
                           IsNatural(playerHand.cards), IsNatural(dealerHand.cards))
      ensures m == MultiplierOf(o)
      ensures Tallies() == Record(old(Tallies()), o)
    {
      var pv := playerHand.GetValue();
      var dv := dealerHand.GetValue();
      if pv > 21 {
        busts := busts + 1;
        losses := losses + 1;
        return Lose, PlayerBust;
      }
      if dv > 21 {
        wins := wins + 1;
        return Win, DealerBust;
      }
      var pn := playerHand.IsBlackjack();
      var dn := dealerHand.IsBlackjack();
      if pn && !dn {
        wins := wins + 1;
        blackjacks := blackjacks + 1;
        return BlackjackWin, PlayerBlackjack;
      }
      if dn && !pn {
        losses := losses + 1;
        return Lose, DealerBlackjack;
      }
      if pn && dn {
        pushes := pushes + 1;
        return Push, BothBlackjack;
      }
      if pv > dv {
        wins := wins + 1;
        return Win, PlayerHigher;
      } else if dv > pv {
        losses := losses + 1;
        return Lose, DealerHigher;
      } else {
        pushes := pushes + 1;
        return Push, Tie;
      }
    }

    /** Takes the bet when it is positive and covered by the balance. */
    method PlaceBet(bet: int) returns (accepted: bool)
      modifies this`playerBalance, this`currentBet, this`totalWagered
      ensures accepted <==> ValidBet(old(playerBalance), bet)
      ensures AfterBet(old(Money()), bet) == (if accepted then Some(Money()) else None)
      ensures !accepted ==> Money() == old(Money())
    {
      if bet <= 0 || bet > playerBalance {
        return false;
      }
      currentBet := bet;
      totalWagered := totalWagered + bet;
      playerBalance := playerBalance - bet;
      return true;
    }

    /** The check for naturals right after the deal: the dealer's hand
        first, then the player's. */
    method SettleNaturals() returns (n: Naturals)
      modifies this`playerBalance, this`totalWon, this`wins, this`losses, this`pushes, this`blackjacks
      ensures n == NaturalsOf(IsNatural(playerHand.cards), IsNatural(dealerHand.cards))
      ensures Tallies() == RecordNaturals(old(Tallies()), n)
      ensures Money() == AfterNaturals(old(Money()), n)
    {
      var dn := dealerHand.IsBlackjack();
      if dn {
        var pn := playerHand.IsBlackjack();
        if pn {
          pushes := pushes + 1;
          playerBalance := playerBalance + currentBet;
          return BothNatural;
        } else {
          losses := losses + 1;
          return DealerNatural;
        }
      }
      var pn := playerHand.IsBlackjack();
      if pn {
        var winAmount := Payout(currentBet, BlackjackWin);
        wins := wins + 1;
        blackjacks := blackjacks + 1;
        totalWon := totalWon + winAmount;
        playerBalance := playerBalance + winAmount;
        return PlayerNatural;
      }
      return NoNatural;
    }

    /** Doubling down: refused without a change when the balance does not
        cover the bet again; otherwise the bet is doubled and exactly one card
        is drawn. */
    method DoubleDown() returns (accepted: bool, ok: bool)
      requires Valid()
      modifies this`playerBalance, this`currentBet, this`totalWagered, deck, playerHand
      ensures Valid()
      ensures accepted <==> old(currentBet) <= old(playerBalance)
      ensures AfterDoubleDown(old(Money())) == (if accepted then Some(Money()) else None)
      ensures !accepted ==>
        Money() == old(Money()) && !ok &&
        playerHand.cards == old(playerHand.cards) && deck.cards == old(deck.cards)
      ensures accepted ==>
        |playerHand.cards| == |old(playerHand.cards)| + 1 &&
        playerHand.cards[..|old(playerHand.cards)|] == old(playerHand.cards) &&
        DrawStep(deck.numDecks, old(deck.cards), playerHand.cards[|playerHand.cards| - 1], deck.cards) &&
        (ok <==> HandValue(playerHand.cards) <= 21)
    {
      if currentBet > playerBalance {
        return false, false;
      }
      playerBalance := playerBalance - currentBet;
      currentBet := currentBet * 2;
      totalWagered := totalWagered + currentBet / 2;
      accepted := true;
      ok := PlayerHit();
    }

    /** The player's turn, reading the actions in order until a stand, a bust
        or a double down, or until they run out, which stands. */
    method PlayerTurn(actions: seq<Action>) returns (bust: bool, doubled: bool)
      requires Valid() && |playerHand.cards| == 2
      modifies this`playerBalance, this`currentBet, this`totalWagered, deck, playerHand
      ensures Valid()
      ensures |playerHand.cards| >= 2 && playerHand.cards[..2] == old(playerHand.cards)
      ensures TurnPlayed(actions, old(playerHand.cards), playerHand.cards[2..],
                         old(currentBet) <= old(playerBalance), bust, doubled)
      ensures Dealt(deck.numDecks, old(deck.cards), playerHand.cards[2..], deck.cards)
      ensures bust <==> HandValue(playerHand.cards) > 21
      ensures doubled ==> AfterDoubleDown(old(Money())) == Some(Money())
      ensures !doubled ==> Money() == old(Money())
    {
      ghost var start := playerHand.cards;
      ghost var s0 := deck.cards;
      ghost var covers := currentBet <= playerBalance;
      ghost var drawn: seq<Card> := [];
      ghost var j: nat := 0;
      TwoCardsNeverBust(start);
      assert start + drawn == start;
      bust, doubled := false, false;
      var done := false;
      var i := 0;
      while i < |actions| && !done
        invariant Valid() && 0 <= i <= |actions|
        decreases |actions| - i
        invariant playerHand.cards == start + drawn
        invariant Dealt(deck.numDecks, s0, drawn, deck.cards)
        invariant !done ==>
          Continued(actions[..i], start, drawn, covers) && !bust && !doubled && HandValue(playerHand.cards) <= 21
        invariant done ==> j < |actions| && EndedAt(actions, j, start, drawn, covers, bust, doubled)
        invariant doubled ==> AfterDoubleDown(old(Money())) == Some(Money())
        invariant !doubled ==> Money() == old(Money())
        invariant bust <==> HandValue(playerHand.cards) > 21
      {
        match actions[i] {
          case Hit =>
            ghost var mid := deck.cards;
            ghost var before := drawn;
            var ok := PlayerHit();
            var card := playerHand.cards[|playerHand.cards| - 1];
            drawn := drawn + [card];
            assert playerHand.cards == start + drawn;
            assert drawn[..|drawn| - 1] == before;
            DealtExtend(deck.numDecks, s0, before, mid, card, deck.cards);
            if ok {
              ContinueHit(actions, i, start, drawn, covers);
            } else {
              EndHit(actions, i, start, drawn, covers);
              bust := true;
              done := true;
              j := i;
            }
          case Stand =>
            EndStand(actions, i, start, drawn, covers);
            done := true;
            j := i;
          case Double =>
            if |playerHand.cards| == 2 && !doubled {
              ghost var mid := deck.cards;
              ghost var before := drawn;
              var accepted, ok := DoubleDown();
              if accepted {
                var card := playerHand.cards[|playerHand.cards| - 1];
                drawn := drawn + [card];
                assert playerHand.cards == start + drawn;
                assert drawn[..|drawn| - 1] == before;
                DealtExtend(deck.numDecks, s0, before, mid, card, deck.cards);
                EndDouble(actions, i, start, drawn, covers, !ok);
                doubled := true;
                bust := !ok;
                done := true;
                j := i;
              } else {
                ContinueDouble(actions, i, start, drawn, covers);
              }
            } else {
              ContinueDouble(actions, i, start, drawn, covers);
            }
        }
        i := i + 1;
      }
      if !done {
        j := |actions|;
        assert actions[..|actions|] == actions;
      }
      assert playerHand.cards[..2] == start;
      assert playerHand.cards[2..] == drawn;
      assert EndedAt(actions, j, start, drawn, covers, bust, doubled);
    }

    /** Applies the multiplier: balance += int(bet * multiplier), and the
        payout counts as won when the multiplier is positive. */
    method ApplyPayout(m: Multiplier)
      modifies this`playerBalance, this`totalWon
      ensures Money() == AfterPayout(old(Money()), m)
    {
      var payout := Payout(currentBet, m);
      playerBalance := playerBalance + payout;
      if Halves(m) > 0 {
        totalWon := totalWon + payout;
      }
    }

    /** After a turn that did not bust: the dealer plays, the hands are
        compared and the payout is applied. With neither hand a natural and
        the player at 21 or below, only the dealer-bust and the comparison
        rules can decide. */
    method FinishRound() returns (o: Outcome)
      requires Valid()
      requires HandValue(playerHand.cards) <= 21
      requires |dealerHand.cards| == 2
      requires !IsNatural(playerHand.cards) && !IsNatural(dealerHand.cards)
      modifies deck, dealerHand, this`playerBalance, this`totalWon,
               this`wins, this`losses, this`pushes, this`blackjacks, this`busts
      ensures Valid()
      ensures o == DealerBust || o == PlayerHigher || o == DealerHigher || o == Tie
      ensures o == Resolve(HandValue(playerHand.cards), HandValue(dealerHand.cards), false, false)
      ensures playerHand.cards == old(playerHand.cards)
      ensures DealerStood(dealerHand.cards) && dealerHand.cards[..2] == old(dealerHand.cards)
      ensures Dealt(deck.numDecks, old(deck.cards), dealerHand.cards[2..], deck.cards)
      ensures Tallies() == Record(old(Tallies()), o)
      ensures Money() == AfterPayout(old(Money()), MultiplierOf(o))
    {
      ghost var dealt := dealerHand.cards;
      DealerPlay();
      if |dealerHand.cards| == |dealt| {
        assert dealerHand.cards == dealt;
      }
      var m;
      m, o := DetermineWinner();
      ApplyPayout(m);
    }

    /** The player's turn on a dealt hand with no natural, then, unless the
        player busted, the dealer's turn, the showdown and the payout. */
    method PlayTurns(actions: seq<Action>) returns (report: Report)
      requires Valid() && |playerHand.cards| == 2 && |dealerHand.cards| == 2
      requires !IsNatural(playerHand.cards) && !IsNatural(dealerHand.cards)
      modifies this`playerBalance, this`currentBet, this`totalWagered, this`totalWon,
               this`wins, this`losses, this`pushes, this`blackjacks, this`busts,
               deck, playerHand, dealerHand
      ensures Valid()
      ensures report.Busted? || report.Showdown?
      ensures Some(Money()) == Settle(old(Money()), report)
      ensures Tallies() == RoundTally(old(Tallies()), report)
      ensures |playerHand.cards| >= 2 && playerHand.cards[..2] == old(playerHand.cards)
      ensures |dealerHand.cards| >= 2 && dealerHand.cards[..2] == old(dealerHand.cards)
      ensures TurnPlayed(actions, old(playerHand.cards), playerHand.cards[2..],
                         old(currentBet) <= old(playerBalance), report.Busted?, report.doubled)
      ensures Dealt(deck.numDecks, old(deck.cards), playerHand.cards[2..] + dealerHand.cards[2..], deck.cards)
      ensures report.Busted? ==> HandValue(playerHand.cards) > 21 && |dealerHand.cards| == 2
      ensures report.Showdown? ==>
        report.o == Resolve(HandValue(playerHand.cards), HandValue(dealerHand.cards), false, false) &&
        HandValue(playerHand.cards) <= 21 && DealerStood(dealerHand.cards)
    {
      ghost var dealt := playerHand.cards;
      ghost var placed := Money();
      ghost var s0 := deck.cards;
      var bust, doubled := PlayerTurn(actions);
      assert Stake(placed, doubled) == Some(Money());
      if bust {
        assert dealerHand.cards[2..] == [];
        assert playerHand.cards[2..] + dealerHand.cards[2..] == playerHand.cards[2..];
        return Busted(doubled);
      }
      if |playerHand.cards| == 2 {
        assert playerHand.cards == dealt;
      }
      ghost var s1 := deck.cards;
      var o := FinishRound();
      DealtConcat(deck.numDecks, s0, playerHand.cards[2..], s1, dealerHand.cards[2..], deck.cards);
      report := Showdown(o, doubled);
    }

    /** The part of a round after the bet was placed: the deal, the check
        for naturals, and the turns unless a natural settled the round. */
    method PlayPlacedRound(actions: seq<Action>) returns (report: Report)
      requires Valid()
      modifies this`playerHand, this`dealerHand, this`playerBalance, this`currentBet,
               this`totalWagered, this`totalWon, this`wins, this`losses, this`pushes,
               this`blackjacks, this`busts, deck
      ensures Valid() && fresh(playerHand) && fresh(dealerHand)
      ensures RoundPlayed(deck.numDecks, old(deck.cards), playerHand.cards, dealerHand.cards, deck.cards,
                          actions, old(currentBet) <= old(playerBalance), report)
      ensures Some(Money()) == Settle(old(Money()), report)
      ensures Tallies() == RoundTally(old(Tallies()), report)
    {
      StartRound();
      ghost var s1 := deck.cards;
      ghost var player0, dealer0 := playerHand.cards, dealerHand.cards;
      var n := SettleNaturals();
      if n != NoNatural {
        NaturalRoundPlayed(deck.numDecks, old(deck.cards), playerHand.cards, dealerHand.cards, deck.cards,
                           actions, old(currentBet) <= old(playerBalance), n);
        return Natural(n);
      }
      report := PlayTurns(actions);
      TurnsRoundPlayed(deck.numDecks, old(deck.cards), [player0[0], dealer0[0], player0[1], dealer0[1]], s1,
                       playerHand.cards, dealerHand.cards, deck.cards,
                       actions, old(currentBet) <= old(playerBalance), report);
    }

    /** One round of the game loop for a given bet and a given sequence of
        actions: a refused bet changes nothing, an accepted one is placed and
        the round played. */
    method PlayRound(bet: int, actions: seq<Action>) returns (report: Report)
      requires Valid()
      modifies this`playerHand, this`dealerHand, this`playerBalance, this`currentBet,
               this`totalWagered, this`totalWon, this`wins, this`losses, this`pushes,
               this`blackjacks, this`busts, deck
      ensures Valid()
      ensures report == BetRefused <==> !ValidBet(old(playerBalance), bet)
      ensures report == BetRefused ==>
        deck.cards == old(deck.cards) && playerHand == old(playerHand) && dealerHand == old(dealerHand)
      ensures report != BetRefused ==>
        fresh(playerHand) && fresh(dealerHand) &&
        RoundPlayed(deck.numDecks, old(deck.cards), playerHand.cards, dealerHand.cards, deck.cards,
                    actions, 2 * bet <= old(playerBalance), report)
      ensures Some(Money()) == RoundMoney(old(Money()), bet, report)
      ensures Tallies() == RoundTally(old(Tallies()), report)
    {
      var accepted := PlaceBet(bet);
      if !accepted {
        return BetRefused;
      }
      report := PlayPlacedRound(actions);
    }
  }
}
