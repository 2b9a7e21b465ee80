/** The shoe of several 52-card decks that both hands draw from
    (blackjack.py, class Deck). */
module Shoe {
  import opened Cards

  /** One deck as a reset lays it out: suit by suit, and within a suit rank
      by rank. */
  function OneDeck(): (r: seq<Card>)
    ensures |r| == 52
  {
    seq(52, k requires 0 <= k < 52 => Card(Suits[k / 13], Ranks[k % 13]))
  }

  /** The unshuffled list a reset builds: d decks one after the other. */
  function FreshShoe(d: nat): (r: seq<Card>)
    ensures |r| == 52 * d
  {
    if d == 0 then [] else FreshShoe(d - 1) + OneDeck()
  }

  /** The card a reset appends for suit position i and rank position j. */
  lemma OneDeckAt(i: nat, j: nat)
    requires i < |Suits| && j < |Ranks|
    ensures 13 * i + j < |OneDeck()| && OneDeck()[13 * i + j] == Card(Suits[i], Ranks[j])
  {
  }


  /** Taking one more element of a sequence appends that element. */
  lemma TakeOneMore<T>(s: seq<T>, k: nat)
    requires k < |s|
    ensures s[..k + 1] == s[..k] + [s[k]]
  {
  }

  /** Taking all of a sequence gives the sequence. */
  lemma TakeAll<T>(s: seq<T>)
    ensures s[..|s|] == s
  {
  }

  /** An element that a duplicate-free sequence holds occurs in it once. */
  lemma {:induction false} OnceIfDistinct<T>(s: seq<T>, k: nat)
    requires k < |s|
    requires forall i, j :: 0 <= i < j < |s| ==> s[i] != s[j]
    ensures multiset(s)[s[k]] == 1
  {
    var init := s[..|s| - 1];
    assert s == init + [s[|s| - 1]];
    if k < |s| - 1 {
      OnceIfDistinct(init, k);
    } else {
      assert s[k] !in init;
    }
  }

  /** A card's suit and rank determine its position in one deck. */
  lemma OneDeckPosition(k: nat)
    requires k < |OneDeck()|
    ensures 13 * SuitIndex(OneDeck()[k].suit) + RankIndex(OneDeck()[k].rank) == k
  {
  }


  /** Every card occurs in one deck exactly once. */
  lemma OneDeckOnce(c: Card)
    ensures multiset(OneDeck())[c] == 1
  {
    forall k1, k2 | 0 <= k1 < k2 < |OneDeck()|
      ensures OneDeck()[k1] != OneDeck()[k2]
    {
      OneDeckPosition(k1);
      OneDeckPosition(k2);
    }
    OneDeckAt(SuitIndex(c.suit), RankIndex(c.rank));
    OnceIfDistinct(OneDeck(), 13 * SuitIndex(c.suit) + RankIndex(c.rank));
  }

  /** A fresh shoe holds every (suit, rank) exactly d times, and nothing else. */
  lemma {:induction false} FreshShoeCount(d: nat, c: Card)
    ensures multiset(FreshShoe(d))[c] == d
  {
    if d > 0 {
      FreshShoeCount(d - 1, c);
      OneDeckOnce(c);
    }
  }

  /** How often card c occurs in s. */
  function CardCount(s: seq<Card>, c: Card): nat
  {
    multiset(s)[c]
  }

  /** A shoe as a reset leaves it: 52 cards per deck, each (suit, rank) once
      per deck, in any order. */
  ghost predicate IsShuffledShoe(numDecks: nat, s: seq<Card>)
  {
    |s| == 52 * numDecks && forall c: Card :: CardCount(s, c) == numDecks
  }

  /** Being a shuffled shoe is the same as being a permutation of the list a
      reset builds. */
  lemma ShuffledIffPermutation(numDecks: nat, s: seq<Card>)
    ensures IsShuffledShoe(numDecks, s) <==> multiset(s) == multiset(FreshShoe(numDecks))
  {
    forall c: Card
      ensures multiset(FreshShoe(numDecks))[c] == numDecks
    {
      FreshShoeCount(numDecks, c);
    }
    if IsShuffledShoe(numDecks, s) {
      forall c: Card
        ensures multiset(s)[c] == multiset(FreshShoe(numDecks))[c]
      {
        assert CardCount(s, c) == numDecks;
      }
      assert multiset(s) == multiset(FreshShoe(numDecks));
    }
    if multiset(s) == multiset(FreshShoe(numDecks)) {
      assert |multiset(s)| == |multiset(FreshShoe(numDecks))|;
      forall c: Card
        ensures CardCount(s, c) == numDecks
      {
      }
    }
  }

  /** One draw from a shoe holding `before` leaves `after` and hands out
      `card`. With fewer than 10 cards the shoe is first rebuilt and shuffled,
      so `after` plus `card` is then some arrangement of a fresh shoe;
      otherwise `card` is the last card of `before`. */
  ghost predicate DrawStep(numDecks: nat, before: seq<Card>, card: Card, after: seq<Card>)
  {
    if |before| < 10 then IsShuffledShoe(numDecks, after + [card])
    else after == before[..|before| - 1] && card == before[|before| - 1]
  }

  /** Every draw takes exactly one card from the shoe as it stands after any
      reshuffle. */
  lemma DrawStepSize(numDecks: nat, before: seq<Card>, card: Card, after: seq<Card>)
    requires DrawStep(numDecks, before, card, after)
    ensures |after| == (if |before| < 10 then 52 * numDecks else |before|) - 1
  {
  }

  /** Successive draws handing out the cards of drawn in order, starting
      from a shoe holding before and ending with one holding after. */
  ghost predicate Dealt(numDecks: nat, before: seq<Card>, drawn: seq<Card>, after: seq<Card>)
    decreases |drawn|
  {
    if drawn == [] then after == before
    else exists mid :: DrawStep(numDecks, before, drawn[0], mid) && Dealt(numDecks, mid, drawn[1..], after)
  }

  /** One more draw extends a run of draws. */
  lemma {:induction false} DealtExtend(numDecks: nat, before: seq<Card>, drawn: seq<Card>, mid: seq<Card>, card: Card, after: seq<Card>)
    requires Dealt(numDecks, before, drawn, mid)
    requires DrawStep(numDecks, mid, card, after)
    ensures Dealt(numDecks, before, drawn + [card], after)
    decreases |drawn|
  {
    if drawn == [] {
      assert [card][1..] == [];
      assert Dealt(numDecks, after, [card][1..], after);
    } else {
      var next :| DrawStep(numDecks, before, drawn[0], next) && Dealt(numDecks, next, drawn[1..], mid);
      DealtExtend(numDecks, next, drawn[1..], mid, card, after);
      assert (drawn + [card])[1..] == drawn[1..] + [card];
    }
  }

  /** Two runs of draws, the second starting where the first ended, form
      one run. */
  lemma {:induction false} DealtConcat(numDecks: nat, before: seq<Card>, xs: seq<Card>, mid: seq<Card>,
                                       ys: seq<Card>, after: seq<Card>)
    requires Dealt(numDecks, before, xs, mid) && Dealt(numDecks, mid, ys, after)
    ensures Dealt(numDecks, before, xs + ys, after)
    decreases |xs|
  {
    if xs == [] {
      assert xs + ys == ys;
    } else {
      var next :| DrawStep(numDecks, before, xs[0], next) && Dealt(numDecks, next, xs[1..], mid);
      DealtConcat(numDecks, next, xs[1..], mid, ys, after);
      assert (xs + ys)[1..] == xs[1..] + ys;
    }
  }

  /** Draws from a shoe deep enough never to reshuffle take its cards from
      the end, one by one, and leave the rest in place. */
  lemma {:induction false} DealtFromTop(numDecks: nat, before: seq<Card>, drawn: seq<Card>, after: seq<Card>)
    requires Dealt(numDecks, before, drawn, after)
    requires |before| >= |drawn| + 9
    ensures |after| == |before| - |drawn| && after == before[..|after|]
    ensures forall k :: 0 <= k < |drawn| ==> drawn[k] == before[|before| - 1 - k]
    decreases |drawn|
  {
    if drawn != [] {
      var mid :| DrawStep(numDecks, before, drawn[0], mid) && Dealt(numDecks, mid, drawn[1..], after);
      assert mid + [drawn[0]] == before;
      DealtFromTop(numDecks, mid, drawn[1..], after);
      assert mid == before[..|mid|];
      forall k | 1 <= k < |drawn|
        ensures drawn[k] == before[|before| - 1 - k]
      {
        assert drawn[k] == drawn[1..][k - 1];
      }
    }
  }

  /** The four draws of a deal, one after the other, form one run of draws;
      from a shoe of at least 13 cards they are its last four cards, taken
      from the end. */
  lemma FourDraws(numDecks: nat, s0: seq<Card>, c0: Card, s1: seq<Card>, c1: Card, s2: seq<Card>,
                  c2: Card, s3: seq<Card>, c3: Card, s4: seq<Card>)
    requires DrawStep(numDecks, s0, c0, s1) && DrawStep(numDecks, s1, c1, s2)
    requires DrawStep(numDecks, s2, c2, s3) && DrawStep(numDecks, s3, c3, s4)
    ensures Dealt(numDecks, s0, [c0, c1, c2, c3], s4)
    ensures |s0| >= 13 ==>
      var n := |s0|;
      c0 == s0[n - 1] && c1 == s0[n - 2] && c2 == s0[n - 3] && c3 == s0[n - 4] && s4 == s0[..n - 4]
  {
    assert Dealt(numDecks, s0, [], s0);
    DealtExtend(numDecks, s0, [], s0, c0, s1);
    assert [] + [c0] == [c0];
    DealtExtend(numDecks, s0, [c0], s1, c1, s2);
    assert [c0] + [c1] == [c0, c1];
    DealtExtend(numDecks, s0, [c0, c1], s2, c2, s3);
    assert [c0, c1] + [c2] == [c0, c1, c2];
    DealtExtend(numDecks, s0, [c0, c1, c2], s3, c3, s4);
    assert [c0, c1, c2] + [c3] == [c0, c1, c2, c3];
    if |s0| >= 13 {
      DealtFromTop(numDecks, s0, [c0, c1, c2, c3], s4);
    }
  }

  /** No card occurs more often than there are decks. */
  ghost predicate WithinShoe(numDecks: nat, s: seq<Card>)
  {
    forall c: Card :: CardCount(s, c) <= numDecks
  }

  class Deck {
    var cards: seq<Card>
    const numDecks: nat

    /** The shoe only ever holds cards of a fresh shoe: no card more often
        than there are decks. */
    ghost predicate Valid()
      reads this
    {
      numDecks >= 1 && WithinShoe(numDecks, cards)
    }

    constructor (numDecks: nat)
      requires numDecks >= 1
      ensures Valid() && this.numDecks == numDecks
      ensures IsShuffledShoe(numDecks, cards)
    {
      this.numDecks := numDecks;
      cards := [];
      new;
      Reset();
    }

    /** Rebuilds the full shoe deck by deck, suit by suit, rank by rank, then
        shuffles it into an arbitrary order. */
    method Reset()
      requires numDecks >= 1
      modifies this
      ensures Valid()
      ensures IsShuffledShoe(numDecks, cards)
    {
      var built: seq<Card> := [];
      for d := 0 to numDecks
        invariant built == FreshShoe(d)
      {
        ghost var base := built;
        for i := 0 to |Suits|
          invariant built == base + OneDeck()[..13 * i]
        {
          for j := 0 to |Ranks|
            invariant built == base + OneDeck()[..13 * i + j]
          {
            OneDeckAt(i, j);
            TakeOneMore(OneDeck(), 13 * i + j);
            built := built + [Card(Suits[i], Ranks[j])];
          }
        }
        TakeAll(OneDeck());
      }
      ShuffledIffPermutation(numDecks, built);
      var shuffled :| multiset(shuffled) == multiset(built);
      ShuffledIffPermutation(numDecks, shuffled);
      cards := shuffled;
    }

    /** Reshuffles when fewer than 10 cards remain, then removes and returns the
        last card. */
    method Draw() returns (card: Card)
      requires Valid()
      modifies this
      ensures Valid()
      ensures DrawStep(numDecks, old(cards), card, cards)
      ensures |cards| == (if old(|cards|) < 10 then 52 * numDecks else old(|cards|)) - 1
    {
      if |cards| < 10 {
        Reset();
      }
      ghost var full := cards;
      card := cards[|cards| - 1];
      cards := cards[..|cards| - 1];
      assert cards + [card] == full;
      assert multiset(full) == multiset(cards) + multiset{card};
      forall c: Card
        ensures CardCount(cards, c) <= numDecks
      {
        assert CardCount(full, c) <= numDecks;
        assert multiset(cards)[c] <= multiset(full)[c];
      }
      DrawStepSize(numDecks, old(cards), card, cards);
    }
  }
}
