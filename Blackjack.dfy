/** The deck, the hands and the single deal of the program (blackjack.cpp,
    classes Deck and Player and the function main). */
module Blackjack {
  import opened Cards
  import opened Scoring

  /** What drawing yields: a card, or nothing once the deck is exhausted. */
  datatype Option<T> = None | Some(value: T)

  /** The order in which a new deck holds its cards: suit-major over HEARTS
      and DIAMONDS (the suit loop stops at DIAMONDS), Ace to King within a suit. */
  function InitialCards(): (s: seq<Card>)
    ensures |s| == 26
  {
    seq(26, i requires 0 <= i < 26 => Card(RankOf(i % 13 + 1), SuitOf(i / 13)))
  }

  /** Card i of a new deck sits at place i of the suit-major, rank-ascending order. */
  lemma InitialCardsPosition(i: int)
    requires 0 <= i < 26
    ensures Position(InitialCards()[i]) == i
  {
  }

  /** A new deck is strictly ordered suit-major, rank-ascending, so no card occurs twice. */
  lemma InitialCardsOrdered()
    ensures forall i, j :: 0 <= i < j < 26 ==> Position(InitialCards()[i]) < Position(InitialCards()[j])
    ensures Distinct(InitialCards())
  {
    forall i | 0 <= i < 26
      ensures Position(InitialCards()[i]) == i
    {
      InitialCardsPosition(i);
    }
  }

  /** A new deck holds a card exactly when its suit is HEARTS or DIAMONDS,
      whatever its rank: no CLUBS and no SPADES. */
  lemma InitialCardsMembership(c: Card)
    ensures c in InitialCards() <==> c.suit == Hearts || c.suit == Diamonds
  {
    if c.suit == Hearts || c.suit == Diamonds {
      var i := Position(c);
      RankRoundTrip(c.rank);
      SuitRoundTrip(c.suit);
      assert InitialCards()[i] == c;
    }
  }

  /** A deck of cards, drawn from its end. */
  class Deck {
    var cards: seq<Card>

    /** Fills the deck suit by suit from HEARTS up to DIAMONDS, each suit Ace to King. */
    constructor ()
      ensures cards == InitialCards()
    {
      cards := [];
      new;
      var suit := SuitNumber(Hearts);
      while suit <= SuitNumber(Diamonds)
        invariant 0 <= suit <= 2
        invariant cards == InitialCards()[..13 * suit]
      {
        var rank := RankNumber(Ace);
        while rank <= RankNumber(King)
          invariant 1 <= rank <= 14
          invariant cards == InitialCards()[..13 * suit + rank - 1]
        {
          cards := cards + [Card(RankOf(rank), SuitOf(suit))];
          rank := rank + 1;
        }
        suit := suit + 1;
      }
    }

    /** Reorders the deck. Each step swaps the last unshuffled place with a place
        chosen freely among the unshuffled ones; the random generator that makes
        the choice is not modelled, so any choice is allowed. */
    method Shuffle()
      modifies this
      ensures multiset(cards) == multiset(old(cards))
      ensures |cards| == |old(cards)|
    {
      var i := |cards|;
      while i > 1
        invariant 0 <= i <= |cards|
        invariant |cards| == |old(cards)|
        invariant multiset(cards) == multiset(old(cards))
      {
        var j :| 0 <= j < i;
        cards := cards[i - 1 := cards[j]][j := cards[i - 1]];
        i := i - 1;
      }
    }

    /** Removes and returns the last card, or returns nothing and leaves an
        empty deck as it is. */
    method Draw() returns (card: Option<Card>)
      modifies this
      ensures old(cards) == [] ==> card == None && cards == []
      ensures old(cards) != [] ==>
        card == Some(old(cards)[|old(cards)| - 1]) && cards == old(cards)[..|old(cards)| - 1]
      ensures card.Some? ==> old(cards) == cards + [card.value]
    {
      if cards == [] {
        return None;
      }
      card := Some(cards[|cards| - 1]);
      cards := cards[..|cards| - 1];
    }
  }

  /** A hand of cards, scored with the blackjack ace rule. */
  class Player {
    var hand: seq<Card>

    /** A player starts with an empty hand. */
    constructor ()
      ensures hand == []
    {
      hand := [];
    }

    /** Puts a card at the end of the hand. */
    method AddCard(card: Card)
      modifies this
      ensures hand == old(hand) + [card]
    {
      hand := hand + [card];
    }

    /** The value of the hand: sums the base values while counting the aces,
        then demotes soft aces from 11 to 1 while the total is over 21. */
    method HandValue() returns (value: int)
      ensures value == Score(hand)
    {
      value := 0;
      var aces := 0;
      for i := 0 to |hand|
        invariant value == RawSum(hand[..i])
        invariant aces == AceCount(hand[..i])
      {
        var cardValue := RankNumber(hand[i].rank);
        if cardValue >= 10 {
          cardValue := 10;
        } else if cardValue == RankNumber(Ace) {
          aces := aces + 1;
          cardValue := 11;
        }
        AppendCard(hand[..i], hand[i]);
        assert hand[..i + 1] == hand[..i] + [hand[i]];
        value := value + cardValue;
      }
      assert hand[..|hand|] == hand;

      ghost var raw, total := value, aces;
      while value > 21 && aces > 0
        invariant 0 <= aces <= total
        invariant value == raw - 10 * (total - aces)
        invariant total - aces <= Demotions(raw, total)
      {
        value := value - 10;
        aces := aces - 1;
      }
    }
  }

  /** Asking a player for the value twice in a row gives the same number and
      changes nothing. */
  method HandValueTwice(p: Player) returns (first: int, second: int)
    ensures first == second
    ensures unchanged(p)
  {
    first := p.HandValue();
    second := p.HandValue();
  }

  /** Any reordering of a new deck holds no card twice. */
  lemma PermutedDeckDistinct(s: seq<Card>)
    requires multiset(s) == multiset(InitialCards())
    ensures Distinct(s)
  {
    InitialCardsOrdered();
    DistinctPermutation(InitialCards(), s);
  }

  /** Dealing the last four cards of an order without repetitions, two and two,
      leaves no card both in the rest and in a hand, nor in both hands. */
  lemma DealtDistinct(s: seq<Card>, n: nat)
    requires |s| == n + 4 && Distinct(s)
    ensures Distinct(s[..n] + [s[n + 3], s[n + 2]] + [s[n + 1], s[n]])
  {
    var all := s[..n] + [s[n + 3], s[n + 2]] + [s[n + 1], s[n]];
    forall i, j | 0 <= i < j < |all|
      ensures all[i] != all[j]
    {
      var fi := if i < n then i else 2 * n + 3 - i;
      var fj := if j < n then j else 2 * n + 3 - j;
      assert all[i] == s[fi] && all[j] == s[fj];
    }
  }

  /** `p.addCard(deck.drawCard())` on a deck that still holds a card: the last
      card of the deck moves to the end of the hand. */
  method DealCard(deck: Deck, p: Player)
    requires deck.cards != []
    modifies deck, p
    ensures deck.cards == old(deck.cards)[..|old(deck.cards)| - 1]
    ensures p.hand == old(p.hand) + [old(deck.cards)[|old(deck.cards)| - 1]]
  {
    var card := deck.Draw();
    p.AddCard(card.value);
  }

  /** What a round leaves, stated on the shuffled order s alone: 22 cards left
      and two hands of two, which together hold each card of a new deck exactly
      once, and two hand values between 4 and 21. */
  lemma RoundOutcome(s: seq<Card>)
    requires |s| == 26 && multiset(s) == multiset(InitialCards())
    ensures forall c :: c in InitialCards() <==> c in s[..22] || c in [s[25], s[24]] || c in [s[23], s[22]]
    ensures Distinct(s[..22] + [s[25], s[24]] + [s[23], s[22]])
    ensures 4 <= Score([s[25], s[24]]) <= 21 && 4 <= Score([s[23], s[22]]) <= 21
  {
    assert s == s[..22] + [s[22], s[23], s[24], s[25]];
    forall c
      ensures c in InitialCards() <==> c in s[..22] || c in [s[25], s[24]] || c in [s[23], s[22]]
    {
      assert c in InitialCards() <==> c in multiset(s);
    }
    PermutedDeckDistinct(s);
    DealtDistinct(s, 22);
    TwoCardRange(s[25], s[24]);
    TwoCardRange(s[23], s[22]);
  }

  /** The program's single round: a new deck is shuffled, the player and then
      the dealer are each dealt two cards from its end, and both hands are
      valued. `shuffled` is the deck's order right after the shuffle;
      RoundOutcome states what this leaves in terms of it. */
  method Deal() returns (deck: Deck, player: Player, dealer: Player,
                         playerValue: int, dealerValue: int, ghost shuffled: seq<Card>)
    ensures |shuffled| == 26 && multiset(shuffled) == multiset(InitialCards())
    ensures deck.cards == shuffled[..22]
    ensures player.hand == [shuffled[25], shuffled[24]]
    ensures dealer.hand == [shuffled[23], shuffled[22]]
    ensures playerValue == Score(player.hand) && dealerValue == Score(dealer.hand)
    ensures 4 <= playerValue <= 21 && 4 <= dealerValue <= 21
  {
    deck := new Deck();
    deck.Shuffle();
    shuffled := deck.cards;

    player := new Player();
    dealer := new Player();

    DealCard(deck, player);
    DealCard(deck, player);
    assert deck.cards == shuffled[..24] && player.hand == [shuffled[25], shuffled[24]];

    DealCard(deck, dealer);
    DealCard(deck, dealer);
    assert deck.cards == shuffled[..22] && dealer.hand == [shuffled[23], shuffled[22]];

    playerValue := player.HandValue();
    dealerValue := dealer.HandValue();

    TwoCardRange(shuffled[25], shuffled[24]);
    TwoCardRange(shuffled[23], shuffled[22]);
  }
}
