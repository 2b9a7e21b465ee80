/** A participant's hand and its soft-ace totalling (blackjack.py, class Hand). */
module Hands {
  import opened Cards

  /** Sum of the card values with every ace counted as 11. */
  function SoftTotal(cards: seq<Card>): int
  {
    if cards == [] then 0
    else SoftTotal(cards[..|cards| - 1]) + CardValue(cards[|cards| - 1])
  }

  /** Number of aces in the hand. */
  function AceCount(cards: seq<Card>): (k: nat)
    ensures k <= |cards|
  {
    if cards == [] then 0
    else AceCount(cards[..|cards| - 1]) + (if cards[|cards| - 1].rank == Ace then 1 else 0)
  }

  /** The total with every ace counted as 1. */
  function HardTotal(cards: seq<Card>): int
  {
    SoftTotal(cards) - 10 * AceCount(cards)
  }

  /** The ace-reduction loop: turn one soft ace into a hard one while the
      total is over 21 and a soft ace is left. */
  function Reduce(value: int, aces: nat): int
    decreases aces
  {
    if value > 21 && aces > 0 then Reduce(value - 10, aces - 1) else value
  }

  /** The hand value: every ace as 11, then as many aces reduced as the
      reduction loop takes. */
  function HandValue(cards: seq<Card>): int
  {
    Reduce(SoftTotal(cards), AceCount(cards))
  }

  /** A natural: exactly two cards worth 21. */
  predicate IsNatural(cards: seq<Card>)
  {
    |cards| == 2 && HandValue(cards) == 21
  }

  /** The number of reductions the loop performs, in closed form: none when the
      total is at most 21, else the fewest that bring it to 21 or below, capped
      by the number of aces. */
  function Reductions(value: int, aces: nat): (k: nat)
    ensures k <= aces
  {
    if value <= 21 then 0
    else if (value - 12) / 10 <= aces then (value - 12) / 10
    else aces
  }

  lemma {:induction false} ReduceClosedForm(value: int, aces: nat)
    ensures Reduce(value, aces) == value - 10 * Reductions(value, aces)
    decreases aces
  {
    if value > 21 && aces > 0 {
      ReduceClosedForm(value - 10, aces - 1);
    }
  }

  lemma SoftTotalAppend(cards: seq<Card>, c: Card)
    ensures SoftTotal(cards + [c]) == SoftTotal(cards) + CardValue(c)
    ensures AceCount(cards + [c]) == AceCount(cards) + (if c.rank == Ace then 1 else 0)
  {
  }


  /** The soft total is never below the hard total, and each card adds 1..10 to
      the hard total. */
  lemma {:induction false} HardTotalBounds(cards: seq<Card>)
    ensures |cards| <= HardTotal(cards) <= 10 * |cards|
    ensures AceCount(cards) <= SoftTotal(cards)
    decreases |cards|
  {
    if cards != [] {
      var init := cards[..|cards| - 1];
      HardTotalBounds(init);
      assert init + [cards[|cards| - 1]] == cards;
      SoftTotalAppend(init, cards[|cards| - 1]);
    }
  }

  /** The hand value is the soft total less ten per reduced ace; it reduces
      only aces that the hand holds, it stops at 21 or below unless all aces
      are used up, and it never reduces once the total is already 21 or below. */
  lemma HandValueReduction(cards: seq<Card>)
    ensures (SoftTotal(cards) - HandValue(cards)) % 10 == 0
    ensures 0 <= SoftTotal(cards) - HandValue(cards) <= 10 * AceCount(cards)
    ensures HandValue(cards) <= 21 || HandValue(cards) == HardTotal(cards)
    ensures HandValue(cards) < SoftTotal(cards) ==> HandValue(cards) >= 12
  {
    ReduceClosedForm(SoftTotal(cards), AceCount(cards));
  }

  /** The hand value lies between the hard and the soft total. */
  lemma HandValueBetween(cards: seq<Card>)
    ensures HardTotal(cards) <= HandValue(cards) <= SoftTotal(cards)
  {
    HandValueReduction(cards);
  }

  /** A hand is bust exactly when its hard total is over 21. */
  lemma BustIffHardBust(cards: seq<Card>)
    ensures HandValue(cards) > 21 <==> HardTotal(cards) > 21
  {
    HandValueReduction(cards);
  }

  /** Adding a card strictly raises the hard total, by 1 (an ace) to 10. */
  lemma HardTotalGrows(cards: seq<Card>, c: Card)
    ensures HardTotal(cards) + 1 <= HardTotal(cards + [c]) <= HardTotal(cards) + 10
  {
  }


  /** Two cards never bust: two aces give 12 and anything else at most 21. */
  lemma TwoCardsNeverBust(cards: seq<Card>)
    requires |cards| == 2
    ensures HandValue(cards) <= 21
  {
    TwoCardTotals(cards);
  }

  lemma TwoCardTotals(cards: seq<Card>)
    requires |cards| == 2
    ensures SoftTotal(cards) == CardValue(cards[0]) + CardValue(cards[1])
    ensures AceCount(cards) == (if cards[0].rank == Ace then 1 else 0) + (if cards[1].rank == Ace then 1 else 0)
  {
    SoftTotalAppend([], cards[0]);
    SoftTotalAppend([cards[0]], cards[1]);
    assert [cards[0]] + [cards[1]] == cards;
  }

  /** A natural is exactly an ace with a ten-valued card, in either order. */
  lemma NaturalIffAceAndTen(cards: seq<Card>)
    ensures IsNatural(cards) <==>
      |cards| == 2 &&
      ((cards[0].rank == Ace && TenValued(cards[1])) || (TenValued(cards[0]) && cards[1].rank == Ace))
  {
    if |cards| == 2 {
      TwoCardTotals(cards);
    }
  }

  lemma ThreeCardTotals(c0: Card, c1: Card, c2: Card)
    ensures SoftTotal([c0, c1, c2]) == CardValue(c0) + CardValue(c1) + CardValue(c2)
    ensures AceCount([c0, c1, c2]) ==
      (if c0.rank == Ace then 1 else 0) + (if c1.rank == Ace then 1 else 0) + (if c2.rank == Ace then 1 else 0)
  {
    TwoCardTotals([c0, c1]);
    SoftTotalAppend([c0, c1], c2);
    assert [c0, c1] + [c2] == [c0, c1, c2];
  }

  /** Soft aces in practice: two aces and a nine make 21 with one ace
      reduced, three aces make 13 with two reduced, and three sevens make 21
      without being a natural; an ace and a king are a natural. */
  lemma HandValueExamples()
    ensures HandValue([Card(Spades, Ace), Card(Hearts, Ace), Card(Clubs, Num(9))]) == 21
    ensures HandValue([Card(Spades, Ace), Card(Hearts, Ace), Card(Clubs, Ace)]) == 13
    ensures HandValue([Card(Spades, Num(7)), Card(Hearts, Num(7)), Card(Clubs, Num(7))]) == 21
    ensures !IsNatural([Card(Spades, Num(7)), Card(Hearts, Num(7)), Card(Clubs, Num(7))])
    ensures IsNatural([Card(Spades, Ace), Card(Hearts, King)])
  {
    ThreeCardTotals(Card(Spades, Ace), Card(Hearts, Ace), Card(Clubs, Num(9)));
    ThreeCardTotals(Card(Spades, Ace), Card(Hearts, Ace), Card(Clubs, Ace));
    ThreeCardTotals(Card(Spades, Num(7)), Card(Hearts, Num(7)), Card(Clubs, Num(7)));
    TwoCardTotals([Card(Spades, Ace), Card(Hearts, King)]);
  }

  /** A participant's cards, in the order they were received. */
  class Hand {
    var cards: seq<Card>

    constructor ()
      ensures cards == []
    {
      cards := [];
    }

    method AddCard(card: Card)
      modifies this
      ensures cards == old(cards) + [card]
    {
      cards := cards + [card];
    }

    /** Sums the cards with aces as 11, then reduces aces while over 21. */
    method GetValue() returns (value: int)
      ensures value == HandValue(cards)
    {
      value := 0;
      var aces: nat := 0;
      for i := 0 to |cards|
        invariant value == SoftTotal(cards[..i])
        invariant aces == AceCount(cards[..i])
      {
        SoftTotalAppend(cards[..i], cards[i]);
        assert cards[..i + 1] == cards[..i] + [cards[i]];
        value := value + CardValue(cards[i]);
        if cards[i].rank == Ace {
          aces := aces + 1;
        }
      }
      assert cards[..|cards|] == cards;
      while value > 21 && aces > 0
        invariant Reduce(value, aces) == HandValue(cards)
        decreases aces
      {
        value := value - 10;
        aces := aces - 1;
      }
    }

    method IsBlackjack() returns (b: bool)
      ensures b <==> IsNatural(cards)
    {
      var v := GetValue();
      b := |cards| == 2 && v == 21;
    }
  }
}
