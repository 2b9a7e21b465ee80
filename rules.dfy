/** The round's rules on values: the ordered outcome rules of a showdown, the
    payout multipliers, the win/loss/push counters and the money movements of
    a round (blackjack.py, BlackjackGame.determine_winner and play). */
module Rules {

  datatype Option<T> = None | Some(value: T)

  /** How a round that reaches determine_winner ends, one constructor per
      rule, in the order the rules are tried. */
  datatype Outcome =
    | PlayerBust
    | DealerBust
    | PlayerBlackjack
    | DealerBlackjack
    | BothBlackjack
    | PlayerHigher
    | DealerHigher
    | Tie

  /** Position of a rule in the order determine_winner tries them. */
  function Priority(o: Outcome): nat
  {
    match o
    case PlayerBust => 0
    case DealerBust => 1
    case PlayerBlackjack => 2
    case DealerBlackjack => 3
    case BothBlackjack => 4
    case PlayerHigher => 5
    case DealerHigher => 6
    case Tie => 7
  }

  /** The condition of each rule on its own, for player value pv, dealer
      value dv and whether each hand is a natural. */
  predicate Applies(o: Outcome, pv: int, dv: int, pn: bool, dn: bool)
  {
    match o
    case PlayerBust => pv > 21
    case DealerBust => dv > 21
    case PlayerBlackjack => pn && !dn
    case DealerBlackjack => dn && !pn
    case BothBlackjack => pn && dn
    case PlayerHigher => pv > dv
    case DealerHigher => dv > pv
    case Tie => pv == dv
  }

  /** The outcome determine_winner picks: a rule that applies, and no rule
      tried before it applies. */
  function Resolve(pv: int, dv: int, pn: bool, dn: bool): (o: Outcome)
    ensures Applies(o, pv, dv, pn, dn)
    ensures forall e :: Priority(e) < Priority(o) ==> !Applies(e, pv, dv, pn, dn)
  {
    if pv > 21 then PlayerBust
    else if dv > 21 then DealerBust
    else if pn && !dn then PlayerBlackjack
    else if dn && !pn then DealerBlackjack
    else if pn && dn then BothBlackjack
    else if pv > dv then PlayerHigher
    else if dv > pv then DealerHigher
    else Tie
  }

  /** Conversely, the first applicable rule is the one Resolve picks. */
  lemma FirstApplicableIsResolved(o: Outcome, pv: int, dv: int, pn: bool, dn: bool)
    requires Applies(o, pv, dv, pn, dn)
    requires forall e :: Priority(e) < Priority(o) ==> !Applies(e, pv, dv, pn, dn)
    ensures Resolve(pv, dv, pn, dn) == o
  {
  }


  /** A player bust loses even when the dealer has busted too. */
  lemma PlayerBustFirst(pv: int, dv: int, pn: bool, dn: bool)
    requires pv > 21
    ensures Resolve(pv, dv, pn, dn) == PlayerBust
  {
  }

  /** The four multipliers determine_winner returns: -1, 1, 2 and 2.5. */
  datatype Multiplier = Lose | Push | Win | BlackjackWin

  /** A multiplier in halves, so that 2.5 is the integer 5. */
  function Halves(m: Multiplier): int
  {
    match m
    case Lose => -2
    case Push => 2
    case Win => 4
    case BlackjackWin => 5
  }

  /** The multiplier each rule returns. */
  function MultiplierOf(o: Outcome): (m: Multiplier)
    ensures m == Lose <==> o == PlayerBust || o == DealerBlackjack || o == DealerHigher
    ensures m == Push <==> o == BothBlackjack || o == Tie
    ensures m == Win <==> o == DealerBust || o == PlayerHigher
    ensures m == BlackjackWin <==> o == PlayerBlackjack
  {
    match o
    case PlayerBust => Lose
    case DealerBust => Win
    case PlayerBlackjack => BlackjackWin
    case DealerBlackjack => Lose
    case BothBlackjack => Push
    case PlayerHigher => Win
    case DealerHigher => Lose
    case Tie => Push
  }

  /** Conversion of x/2 to an integer the way int() does: towards zero. */
  function TruncHalf(x: int): (r: int)
    ensures x >= 0 ==> 0 <= x - 2 * r <= 1
    ensures x < 0 ==> -1 <= x - 2 * r <= 0
  {
    if x >= 0 then x / 2 else -((-x) / 2)
  }

  /** int(bet * multiplier). */
  function Payout(bet: int, m: Multiplier): (r: int)
    ensures m == Lose ==> r == -bet
    ensures m == Push ==> r == bet
    ensures m == Win ==> r == 2 * bet
    ensures m == BlackjackWin && bet >= 0 ==> 0 <= 5 * bet - 2 * r <= 1
    ensures m == BlackjackWin && bet < 0 ==> -1 <= 5 * bet - 2 * r <= 0
  {
    TruncHalf(bet * Halves(m))
  }

  /** A blackjack on a bet of 100 pays 250, on a bet of 5 it pays 12. */
  lemma PayoutExamples()
    ensures Payout(100, BlackjackWin) == 250
    ensures Payout(5, BlackjackWin) == 12
    ensures Payout(100, Lose) == -100
    ensures Payout(100, Push) == 100
    ensures Payout(100, Win) == 200
  {
  }

  /** The game's counters. */
  datatype Tally = Tally(wins: nat, losses: nat, pushes: nat, blackjacks: nat, busts: nat)

  /** The rounds the statistics count: wins, losses and pushes. */
  function Games(t: Tally): nat
  {
    t.wins + t.losses + t.pushes
  }

  /** The counters after determine_winner resolved outcome o. */
  function Record(t: Tally, o: Outcome): (r: Tally)
    ensures r.wins + r.losses + r.pushes == t.wins + t.losses + t.pushes + 1
    ensures r.wins >= t.wins && r.losses >= t.losses && r.pushes >= t.pushes
    ensures r.wins > t.wins <==> MultiplierOf(o) == Win || MultiplierOf(o) == BlackjackWin
    ensures r.losses > t.losses <==> MultiplierOf(o) == Lose
    ensures r.pushes > t.pushes <==> MultiplierOf(o) == Push
    ensures r.blackjacks == t.blackjacks + (if o == PlayerBlackjack then 1 else 0)
    ensures r.busts == t.busts + (if o == PlayerBust then 1 else 0)
  {
    match o
    case PlayerBust => t.(losses := t.losses + 1, busts := t.busts + 1)
    case DealerBust => t.(wins := t.wins + 1)
    case PlayerBlackjack => t.(wins := t.wins + 1, blackjacks := t.blackjacks + 1)
    case DealerBlackjack => t.(losses := t.losses + 1)
    case BothBlackjack => t.(pushes := t.pushes + 1)
    case PlayerHigher => t.(wins := t.wins + 1)
    case DealerHigher => t.(losses := t.losses + 1)
    case Tie => t.(pushes := t.pushes + 1)
  }

  /** The counters never claim more blackjacks than wins or more busts than
      losses. */
  predicate TallyConsistent(t: Tally)
  {
    t.blackjacks <= t.wins && t.busts <= t.losses
  }

  lemma RecordKeepsConsistent(t: Tally, o: Outcome)
    requires TallyConsistent(t)
    ensures TallyConsistent(Record(t, o))
  {
  }

  /** Which of the two hands is a natural right after the deal, as the
      dealer-first check before the player's turn reads it. */
  datatype Naturals = NoNatural | BothNatural | DealerNatural | PlayerNatural

  function NaturalsOf(pn: bool, dn: bool): (n: Naturals)
    ensures n == NoNatural <==> !pn && !dn
    ensures n == BothNatural <==> pn && dn
    ensures n == DealerNatural <==> dn && !pn
    ensures n == PlayerNatural <==> pn && !dn
  {
    if dn then (if pn then BothNatural else DealerNatural)
    else if pn then PlayerNatural
    else NoNatural
  }

  /** The counters after the pre-turn short-circuit. */
  function RecordNaturals(t: Tally, n: Naturals): (r: Tally)
    ensures n == NoNatural ==> r == t
    ensures n != NoNatural ==> r.wins + r.losses + r.pushes == t.wins + t.losses + t.pushes + 1
    ensures r.busts == t.busts
  {
    match n
    case NoNatural => t
    case BothNatural => t.(pushes := t.pushes + 1)
    case DealerNatural => t.(losses := t.losses + 1)
    case PlayerNatural => t.(wins := t.wins + 1, blackjacks := t.blackjacks + 1)
  }

  /** The short-circuit reaches the outcome determine_winner would reach on
      the same two-card hands, and counts it the same way. */
  lemma NaturalsAgreeWithResolve(pv: int, dv: int, pn: bool, dn: bool, t: Tally)
    requires pv <= 21 && dv <= 21
    requires pn || dn
    ensures var o := Resolve(pv, dv, pn, dn);
      RecordNaturals(t, NaturalsOf(pn, dn)) == Record(t, o) &&
      o == (match NaturalsOf(pn, dn)
            case BothNatural => BothBlackjack
            case DealerNatural => DealerBlackjack
            case _ => PlayerBlackjack)
  {
  }


  /** The player's money as play tracks it: balance, the bet on the table, the
      total wagered and the total won. */
  datatype Purse = Purse(balance: int, bet: int, wagered: int, won: int)

  /** A bet is accepted only when positive and covered by the balance. */
  predicate ValidBet(balance: int, bet: int)
  {
    0 < bet <= balance
  }

  /** Placing a bet: taken from the balance and added to the total wagered. */
  function AfterBet(p: Purse, bet: int): (r: Option<Purse>)
    ensures r.Some? <==> ValidBet(p.balance, bet)
    ensures r.Some? ==> r.value.bet == bet && r.value.balance >= 0 && r.value.won == p.won
    ensures r.Some? ==> r.value.balance + r.value.wagered == p.balance + p.wagered
    ensures r.Some? ==> r.value.balance == p.balance - bet
  {
    if bet <= 0 || bet > p.balance then None
    else Some(Purse(p.balance - bet, bet, p.wagered + bet, p.won))
  }

  /** Doubling down: refused when the balance cannot cover the bet a second
      time; otherwise the bet is taken again and doubled, and the total
      wagered grows by half of the doubled bet. */
  function AfterDoubleDown(p: Purse): (r: Option<Purse>)
    ensures r.Some? <==> p.bet <= p.balance
    ensures r.Some? ==> r.value.bet == 2 * p.bet && r.value.wagered == p.wagered + p.bet
    ensures r.Some? ==> r.value.balance == p.balance - p.bet && r.value.won == p.won
    ensures r.Some? ==> r.value.balance + r.value.wagered == p.balance + p.wagered
  {
    if p.bet > p.balance then None
    else
      var bet := p.bet * 2;
      Some(Purse(p.balance - p.bet, bet, p.wagered + bet / 2, p.won))
  }

  /** A bet of 100 from a balance of 1000 leaves 900; doubling it leaves
      800 with 200 on the table and 200 wagered in total. */
  lemma BetAndDoubleExample()
    ensures AfterBet(Purse(1000, 0, 0, 0), 100) == Some(Purse(900, 100, 100, 0))
    ensures AfterDoubleDown(Purse(900, 100, 100, 0)) == Some(Purse(800, 200, 200, 0))
    ensures AfterDoubleDown(Purse(50, 100, 100, 0)) == None
  {
  }

  /** The bet as it stands when the dealer plays: as placed, or doubled. */
  function Stake(p: Purse, doubled: bool): Option<Purse>
  {
    if doubled then AfterDoubleDown(p) else Some(p)
  }

  /** Applying determine_winner's multiplier: the payout goes to the balance,
      and to the total won when the multiplier is positive. */
  function AfterPayout(p: Purse, m: Multiplier): (r: Purse)
    ensures r.bet == p.bet && r.wagered == p.wagered
    ensures m == Lose ==> r.balance == p.balance - p.bet && r.won == p.won
    ensures m != Lose ==> r.balance - p.balance == Payout(p.bet, m) == r.won - p.won
    ensures p.bet >= 0 ==> r.won >= p.won
  {
    var payout := Payout(p.bet, m);
    Purse(p.balance + payout, p.bet, p.wagered,
          if Halves(m) > 0 then p.won + payout else p.won)
  }

  /** The money side of the pre-turn short-circuit: a double natural returns
      the bet, a dealer natural leaves the bet lost, a player natural pays
      int(bet * 2.5) to the balance and the total won. */
  function AfterNaturals(p: Purse, n: Naturals): (r: Purse)
    ensures r.bet == p.bet && r.wagered == p.wagered
    ensures n == NoNatural || n == DealerNatural ==> r == p
    ensures n == BothNatural ==> r.balance == p.balance + p.bet && r.won == p.won
    ensures n == PlayerNatural ==> r == AfterPayout(p, BlackjackWin)
  {
    match n
    case NoNatural => p
    case BothNatural => p.(balance := p.balance + p.bet)
    case DealerNatural => p
    case PlayerNatural =>
      var win := Payout(p.bet, BlackjackWin);
      p.(balance := p.balance + win, won := p.won + win)
  }

  /** What a whole round does to the balance, from before the bet to after
      the payout: a showdown loss costs the bet twice (it was taken when
      placed and int(bet * -1) is added again), a win nets the bet, a push
      nets nothing, a blackjack nets int(1.5 * bet). */
  lemma ShowdownNet(p: Purse, bet: int, m: Multiplier)
    requires AfterBet(p, bet).Some?
    ensures var q := AfterPayout(AfterBet(p, bet).value, m);
      (m == Lose ==> q.balance == p.balance - 2 * bet) &&
      (m == Push ==> q.balance == p.balance && q.won == p.won + bet) &&
      (m == Win ==> q.balance == p.balance + bet) &&
      (m == BlackjackWin ==> 0 <= 3 * bet - 2 * (q.balance - p.balance) <= 1)
  {
  }


  /** The same two-natural push and dealer natural cost differently when the
      short-circuit settles them than when a showdown would: the
      short-circuit push books nothing as won, and the short-circuit dealer
      natural does not charge the bet a second time. */
  lemma NaturalsVersusShowdown(p: Purse)
    requires p.bet > 0
    ensures AfterNaturals(p, BothNatural).balance == AfterPayout(p, Push).balance
    ensures AfterNaturals(p, BothNatural).won == AfterPayout(p, Push).won - p.bet
    ensures AfterNaturals(p, DealerNatural).balance == AfterPayout(p, Lose).balance + p.bet
    ensures AfterNaturals(p, PlayerNatural) == AfterPayout(p, BlackjackWin)
  {
  }
}
