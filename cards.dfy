/** Playing cards: the four suits, the thirteen ranks and the blackjack point
    value of a card (blackjack.py, classes Suit and Card). */
module Cards {

  datatype Suit = Hearts | Diamonds | Clubs | Spades

  /** The suits in the order the enumeration declares them, which is the
      order a fresh deck is built in. */
  const Suits: seq<Suit> := [Hearts, Diamonds, Clubs, Spades]

  function SuitIndex(s: Suit): (i: nat)
    ensures i < |Suits| && Suits[i] == s
  {
    match s
    case Hearts => 0
    case Diamonds => 1
    case Clubs => 2
    case Spades => 3
  }


  datatype RankName = Num(n: int) | Jack | Queen | King | Ace

  /** A rank is a numeral 2..10 or a face or an ace. */
  type Rank = r: RankName | r.Num? ==> 2 <= r.n <= 10 witness Ace

  /** The ranks in the order a fresh deck lists them within a suit: the
      numerals 2 to 10, then jack, queen, king and ace. */
  const Ranks: seq<Rank> :=
    [Num(2), Num(3), Num(4), Num(5), Num(6), Num(7), Num(8), Num(9), Num(10),
     Jack, Queen, King, Ace]

  function RankIndex(r: Rank): (i: nat)
    ensures i < |Ranks| && Ranks[i] == r
  {
    match r
    case Num(n) => n - 2
    case Jack => 9
    case Queen => 10
    case King => 11
    case Ace => 12
  }

  datatype Card = Card(suit: Suit, rank: Rank)

  /** Points of a card: a face counts 10, an ace 11 (its soft value) and a
      numeral its own number. */
  function CardValue(c: Card): (v: int)
    ensures 2 <= v <= 11
    ensures v == 11 <==> c.rank == Ace
    ensures v == 10 <==> c.rank == Num(10) || c.rank == Jack || c.rank == Queen || c.rank == King
    ensures c.rank.Num? ==> v == c.rank.n
  {
    match c.rank
    case Jack | Queen | King => 10
    case Ace => 11
    case Num(n) => n
  }

  /** A card worth ten points: the 10 or a face. */
  predicate TenValued(c: Card)
  {
    CardValue(c) == 10
  }
}
