/** The blackjack value of a hand, as pure specification functions
    (blackjack.cpp, Player::handValue): the raw sum of base card values,
    the ace count, and the soft-ace adjustment. */
module Scoring {
  import opened Cards

  /** The base value of one card: Ten and the face cards count 10, an Ace
      counts 11 (a soft ace), every other rank counts its own number. */
  function CardValue(c: Card): (v: int)
    ensures 2 <= v <= 11
    ensures v == 11 <==> c.rank == Ace
    ensures v == 10 <==> RankNumber(c.rank) >= 10
    ensures 2 <= RankNumber(c.rank) <= 9 ==> v == RankNumber(c.rank)
  {
    var n := RankNumber(c.rank);
    if n >= 10 then 10
    else if n == RankNumber(Ace) then 11
    else n
  }

  /** The sum of the base values of the cards of a hand, every ace counted as 11.
      Defined on the last card so that it follows a left-to-right scan. */
  function RawSum(hand: seq<Card>): int
  {
    if hand == [] then 0
    else RawSum(hand[..|hand| - 1]) + CardValue(hand[|hand| - 1])
  }

  /** The number of aces in a hand. */
  function AceCount(hand: seq<Card>): nat
  {
    if hand == [] then 0
    else AceCount(hand[..|hand| - 1]) + (if hand[|hand| - 1].rank == Ace then 1 else 0)
  }

  /** Every card adds 2 to 11 to the raw sum, and at most one ace; with every
      ace counted as 1 instead, each card is still worth at least 1. */
  lemma {:induction false} RawSumBounds(hand: seq<Card>)
    ensures 2 * |hand| <= RawSum(hand) <= 11 * |hand|
    ensures AceCount(hand) <= |hand|
    ensures RawSum(hand) - 10 * AceCount(hand) >= |hand|
  {
    if hand != [] {
      RawSumBounds(hand[..|hand| - 1]);
    }
  }

  /** How many soft aces the adjustment demotes from 11 to 1: the least k in
      0..aces with raw - 10 * k <= 21, or aces when there is no such k. */
  function Demotions(raw: int, aces: nat): (k: nat)
    ensures k <= aces
    ensures raw - 10 * k <= 21 || k == aces
    ensures k == 0 || raw - 10 * (k - 1) > 21
  {
    if raw <= 21 then 0
    else if (raw - 12) / 10 <= aces then (raw - 12) / 10
    else aces
  }

  /** The value of a hand: the raw sum with as many aces demoted as it takes
      to reach 21 or less, as long as aces remain. */
  function Score(hand: seq<Card>): int
  {
    RawSum(hand) - 10 * Demotions(RawSum(hand), AceCount(hand))
  }

  /** The three facts Demotions promises determine it: any k with them is Demotions. */
  lemma DemotionsUnique(raw: int, aces: nat, k: nat)
    requires k <= aces
    requires raw - 10 * k <= 21 || k == aces
    requires k == 0 || raw - 10 * (k - 1) > 21
    ensures k == Demotions(raw, aces)
  {
    var d := Demotions(raw, aces);
    assert k < d ==> raw - 10 * k >= raw - 10 * (d - 1);
    assert d < k ==> raw - 10 * d >= raw - 10 * (k - 1);
  }

  /** The value lies between the hard total (every ace counted as 1) and the
      raw sum; it is over 21 only when every ace has been demoted, and a hand
      whose raw sum is at most 21 keeps it. */
  lemma ScoreBounds(hand: seq<Card>)
    ensures RawSum(hand) - 10 * AceCount(hand) <= Score(hand) <= RawSum(hand)
    ensures Score(hand) <= 21 || Score(hand) == RawSum(hand) - 10 * AceCount(hand)
    ensures RawSum(hand) <= 21 ==> Score(hand) == RawSum(hand)
    ensures Score(hand) >= |hand|
  {
    RawSumBounds(hand);
  }

  /** The value is the best total the hand can make: among the totals that
      count j of its aces as 1, every one of them that is at most 21 is at most
      the value, and the value is at most 21 whenever any of them is. */
  lemma ScoreIsBestTotal(hand: seq<Card>, j: nat)
    requires j <= AceCount(hand)
    ensures RawSum(hand) - 10 * j <= 21 ==> RawSum(hand) - 10 * j <= Score(hand) <= 21
  {
    var raw, aces := RawSum(hand), AceCount(hand);
    var k := Demotions(raw, aces);
    assert j < k ==> raw - 10 * j >= raw - 10 * (k - 1);
    assert Score(hand) == raw - 10 * k;
  }

  /** Appending a card adds its base value to the raw sum, and one to the ace
      count exactly when it is an ace. */
  lemma AppendCard(hand: seq<Card>, c: Card)
    ensures RawSum(hand + [c]) == RawSum(hand) + CardValue(c)
    ensures AceCount(hand + [c]) == AceCount(hand) + (if c.rank == Ace then 1 else 0)
  {
    assert (hand + [c])[..|hand|] == hand;
  }

  /** The raw sum and the ace count of a concatenation add up. */
  lemma {:induction false} AppendHands(a: seq<Card>, b: seq<Card>)
    ensures RawSum(a + b) == RawSum(a) + RawSum(b)
    ensures AceCount(a + b) == AceCount(a) + AceCount(b)
  {
    if b == [] {
      assert a + b == a;
    } else {
      var init, last := b[..|b| - 1], b[|b| - 1];
      assert a + b == (a + init) + [last];
      assert b == init + [last];
      AppendHands(a, init);
      AppendCard(a + init, last);
      AppendCard(init, last);
    }
  }

  /** Taking the card at place k out of a hand takes its base value off the raw
      sum, and one off the ace count when it is an ace. */
  lemma RemoveAt(b: seq<Card>, k: nat)
    requires k < |b|
    ensures RawSum(b) == RawSum(b[..k] + b[k + 1..]) + CardValue(b[k])
    ensures AceCount(b) == AceCount(b[..k] + b[k + 1..]) + (if b[k].rank == Ace then 1 else 0)
  {
    var p, x, q := b[..k], b[k], b[k + 1..];
    assert b == (p + [x]) + q;
    calc {
      RawSum(b);
      { AppendHands(p + [x], q); }
      RawSum(p + [x]) + RawSum(q);
      { AppendCard(p, x); }
      RawSum(p) + CardValue(x) + RawSum(q);
      { AppendHands(p, q); }
      RawSum(p + q) + CardValue(x);
    }
    calc {
      AceCount(b);
      { AppendHands(p + [x], q); }
      AceCount(p + [x]) + AceCount(q);
      { AppendCard(p, x); }
      AceCount(p) + (if x.rank == Ace then 1 else 0) + AceCount(q);
      { AppendHands(p, q); }
      AceCount(p + q) + (if x.rank == Ace then 1 else 0);
    }
  }

  /** Taking the card at place k out of a sequence takes one copy of it out
      of the multiset. */
  lemma MultisetRemoveAt(b: seq<Card>, k: nat)
    requires k < |b|
    ensures multiset(b[..k] + b[k + 1..]) == multiset(b) - multiset{b[k]}
  {
    assert b == b[..k] + [b[k]] + b[k + 1..];
  }

  /** The raw sum and the ace count depend only on which cards a hand holds,
      not on their order. */
  lemma {:induction false} SumsIgnoreOrder(a: seq<Card>, b: seq<Card>)
    requires multiset(a) == multiset(b)
    ensures RawSum(a) == RawSum(b) && AceCount(a) == AceCount(b)
  {
    if a == [] {
      assert |b| == |multiset(b)| == 0;
    } else {
      var init, last := a[..|a| - 1], a[|a| - 1];
      assert a == init + [last];
      assert last in multiset(b);
      var k :| 0 <= k < |b| && b[k] == last;
      MultisetRemoveAt(b, k);
      assert multiset(init) == multiset(a) - multiset{last};
      SumsIgnoreOrder(init, b[..k] + b[k + 1..]);
      RemoveAt(b, k);
    }
  }

  /** The value of a hand depends only on which cards it holds, not on the
      order in which they were dealt. */
  lemma ScoreIgnoresOrder(a: seq<Card>, b: seq<Card>)
    requires multiset(a) == multiset(b)
    ensures Score(a) == Score(b)
  {
    SumsIgnoreOrder(a, b);
  }

  /** Any two-card hand is worth between 4 (two twos) and 21. */
  lemma TwoCardRange(first: Card, second: Card)
    ensures 4 <= Score([first, second]) <= 21
  {
    AppendCard([], first);
    assert [first] + [second] == [first, second];
    AppendCard([first], second);
  }

  /** Ace and King make 21: the ace stays soft. */
  lemma ScoreAceKing()
    ensures Score([Card(Ace, Hearts), Card(King, Hearts)]) == 21
  {
    AppendCard([], Card(Ace, Hearts));
    AppendCard([Card(Ace, Hearts)], Card(King, Hearts));
    assert [Card(Ace, Hearts)] + [Card(King, Hearts)] == [Card(Ace, Hearts), Card(King, Hearts)];
  }

  /** Two Aces and a Nine make 21: 31 with one ace demoted. */
  lemma ScoreTwoAcesNine()
    ensures Score([Card(Ace, Hearts), Card(Ace, Diamonds), Card(Nine, Hearts)]) == 21
  {
    var aces := [Card(Ace, Hearts), Card(Ace, Diamonds)];
    AppendCard([], Card(Ace, Hearts));
    AppendCard([Card(Ace, Hearts)], Card(Ace, Diamonds));
    assert [Card(Ace, Hearts)] + [Card(Ace, Diamonds)] == aces;
    AppendCard(aces, Card(Nine, Hearts));
    assert aces + [Card(Nine, Hearts)] == [Card(Ace, Hearts), Card(Ace, Diamonds), Card(Nine, Hearts)];
  }

  /** Ten and Nine make 19, with no ace to adjust. */
  lemma ScoreTenNine()
    ensures Score([Card(Ten, Hearts), Card(Nine, Hearts)]) == 19
  {
    AppendCard([], Card(Ten, Hearts));
    AppendCard([Card(Ten, Hearts)], Card(Nine, Hearts));
    assert [Card(Ten, Hearts)] + [Card(Nine, Hearts)] == [Card(Ten, Hearts), Card(Nine, Hearts)];
  }
}
