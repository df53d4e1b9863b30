/** Playing cards: the rank and suit enumerations and the immutable card value
    (blackjack.cpp, enum Rank, enum Suit and class Card). */
module Cards {

  /** The thirteen ranks; the source numbers them ACE = 1 up to KING = 13. */
  datatype Rank = Ace | Two | Three | Four | Five | Six | Seven | Eight | Nine | Ten | Jack | Queen | King

  /** The four suits; the source numbers them HEARTS = 0 up to SPADES = 3. */
  datatype Suit = Hearts | Diamonds | Clubs | Spades

  /** A card has no identity beyond its rank and its suit. */
  datatype Card = Card(rank: Rank, suit: Suit)

  /** The integer value of a rank, as the C++ enumeration gives it. */
  function RankNumber(r: Rank): (n: int)
    ensures 1 <= n <= 13
    ensures n == 1 <==> r == Ace
    ensures n == 13 <==> r == King
  {
    match r
    case Ace => 1
    case Two => 2
    case Three => 3
    case Four => 4
    case Five => 5
    case Six => 6
    case Seven => 7
    case Eight => 8
    case Nine => 9
    case Ten => 10
    case Jack => 11
    case Queen => 12
    case King => 13
  }

  /** `static_cast<Rank>(n)` for an integer in the enumeration's range. */
  function RankOf(n: int): (r: Rank)
    requires 1 <= n <= 13
    ensures RankNumber(r) == n
  {
    if n == 1 then Ace
    else if n == 2 then Two
    else if n == 3 then Three
    else if n == 4 then Four
    else if n == 5 then Five
    else if n == 6 then Six
    else if n == 7 then Seven
    else if n == 8 then Eight
    else if n == 9 then Nine
    else if n == 10 then Ten
    else if n == 11 then Jack
    else if n == 12 then Queen
    else King
  }

  /** The integer value of a suit, as the C++ enumeration gives it. */
  function SuitNumber(s: Suit): (n: int)
    ensures 0 <= n <= 3
    ensures n == 0 <==> s == Hearts
    ensures n == 1 <==> s == Diamonds
  {
    match s
    case Hearts => 0
    case Diamonds => 1
    case Clubs => 2
    case Spades => 3
  }

  /** `static_cast<Suit>(n)` for an integer in the enumeration's range. */
  function SuitOf(n: int): (s: Suit)
    requires 0 <= n <= 3
    ensures SuitNumber(s) == n
  {
    if n == 0 then Hearts
    else if n == 1 then Diamonds
    else if n == 2 then Clubs
    else Spades
  }

  /** Casting the number of a rank back gives the rank itself, so the
      numbering is one-to-one. */
  lemma RankRoundTrip(r: Rank)
    ensures RankOf(RankNumber(r)) == r
  {
    match r
    case Ace =>
    case Two =>
    case Three =>
    case Four =>
    case Five =>
    case Six =>
    case Seven =>
    case Eight =>
    case Nine =>
    case Ten =>
    case Jack =>
    case Queen =>
    case King =>
  }

  /** Casting the number of a suit back gives the suit itself. */
  lemma SuitRoundTrip(s: Suit)
    ensures SuitOf(SuitNumber(s)) == s
  {
    match s
    case Hearts =>
    case Diamonds =>
    case Clubs =>
    case Spades =>
  }

  /** The place of a card in suit-major, rank-ascending order: all hearts
      first (Ace to King), then all diamonds, and so on. */
  function Position(c: Card): (p: int)
    ensures 0 <= p < 52
    ensures p / 13 == SuitNumber(c.suit) && p % 13 == RankNumber(c.rank) - 1
  {
    SuitNumber(c.suit) * 13 + RankNumber(c.rank) - 1
  }

  /** No card occurs twice. */
  predicate Distinct(s: seq<Card>) {
    forall i, j :: 0 <= i < j < |s| ==> s[i] != s[j]
  }

  /** A sequence without repetitions holds each card at most once. */
  lemma {:induction false} DistinctCount(s: seq<Card>, c: Card)
    requires Distinct(s)
    ensures multiset(s)[c] <= 1
  {
    if s != [] {
      var init, last := s[..|s| - 1], s[|s| - 1];
      assert s == init + [last];
      assert Distinct(init);
      DistinctCount(init, c);
      if c == last {
        forall k | 0 <= k < |init|
          ensures init[k] != c
        {
          assert s[k] != s[|s| - 1];
        }
        assert multiset(init)[c] == 0;
      }
    }
  }

  /** A sequence whose multiset holds each card at most once has no repetitions. */
  lemma CountDistinct(s: seq<Card>)
    requires forall c :: multiset(s)[c] <= 1
    ensures Distinct(s)
  {
    forall i, j | 0 <= i < j < |s|
      ensures s[i] != s[j]
    {
      assert s == s[..j] + s[j..];
      assert s[..j][i] == s[i];
      assert s[j..][0] == s[j];
      assert multiset(s)[s[j]] == multiset(s[..j])[s[j]] + multiset(s[j..])[s[j]];
    }
  }

  /** Reordering a sequence of distinct cards keeps it free of repetitions. */
  lemma DistinctPermutation(a: seq<Card>, b: seq<Card>)
    requires Distinct(a) && multiset(a) == multiset(b)
    ensures Distinct(b)
  {
    forall c ensures multiset(b)[c] <= 1 {
      DistinctCount(a, c);
    }
    CountDistinct(b);
  }
}
