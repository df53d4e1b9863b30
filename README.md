# Blackjack deal, modelled in Dafny

The program builds a deck of playing cards, shuffles it, deals two cards to a
player and two to a dealer from the end of the deck, and reports the blackjack
value of each hand: Ten and the face cards count 10, other cards count their
rank, and an ace counts 11 unless that would take the hand over 21, in which
case it counts 1.

The model has three modules:

- `Cards` (Cards.dfy): the `Rank` and `Suit` enumerations with the integer
  numbering of the C++ enums (ACE = 1 … KING = 13, HEARTS = 0 … SPADES = 3),
  the `Card` value, and the `Distinct` predicate with its behaviour under
  reordering.
- `Scoring` (Scoring.dfy): the specification of `Player::handValue` as pure
  functions. `CardValue` is the base value of one card, `RawSum` and
  `AceCount` are what the first loop accumulates, `Demotions` is the closed
  form of the second loop (the least number of aces to count as 1), and
  `Score` is the hand value. The lemmas prove the bounds, the
  "best total" property, order independence, and the two-card range.
- `Blackjack` (Blackjack.dfy): the classes `Deck` and `Player`. Their
  `std::vector` fields are `seq<Card>` fields that the methods reassign. The
  constructor's nested loop, `Shuffle`, `Draw`, `AddCard` and the two-phase
  `HandValue` loop are imperative methods proved against the specification
  functions. `Deal` is the body of `main`.

The deck is modelled as the code builds it. The suit loop stops at
`DIAMONDS`, so a new deck holds 26 cards (HEARTS and DIAMONDS, Ace to King),
not 52. The model keeps this, and `InitialCardsMembership` states it. The
[4, 21] range for a two-card hand holds for any two cards (`TwoCardRange`),
so it does not depend on the deck size.

## Model

| member | source | states |
|---|---|---|
| `Cards.RankNumber` | blackjack.cpp:8-10 | a rank's number lies in 1..13; it is 1 exactly for ACE and 13 exactly for KING |
| `Cards.RankOf` | blackjack.cpp:33 | casting an integer in 1..13 to a rank gives the rank with that number |
| `Cards.SuitNumber` | blackjack.cpp:12-14 | a suit's number lies in 0..3; it is 0 exactly for HEARTS and 1 exactly for DIAMONDS |
| `Cards.SuitOf` | blackjack.cpp:33 | casting an integer in 0..3 to a suit gives the suit with that number |
| `Cards.RankRoundTrip` | blackjack.cpp:8-10 | casting a rank's number back gives the same rank, so the numbering is one-to-one |
| `Cards.SuitRoundTrip` | blackjack.cpp:12-14 | casting a suit's number back gives the same suit |
| `Cards.Position` | blackjack.cpp:31-32 | a card's place in suit-major, rank-ascending order lies in 0..51; dividing by 13 gives its suit number and the remainder its rank number minus one |
| `Cards.DistinctPermutation` | blackjack.cpp:38-42 | a reordering of a sequence of distinct cards has no repeated card either |
| `Scoring.CardValue` | blackjack.cpp:67-73 | a card's base value lies in 2..11; it is 11 exactly for an ace and 10 exactly for ranks numbered 10 or more; ranks 2..9 count their own number |
| `Scoring.RawSumBounds` | blackjack.cpp:64-75 | the first loop's sum is between 2 and 11 per card, at most one ace is counted per card, and with every ace at 1 each card still adds at least 1 |
| `Scoring.AppendCard` | blackjack.cpp:66-75 | one more card adds its base value to the sum, and 1 to the ace count exactly when it is an ace |
| `Scoring.AppendHands` | blackjack.cpp:66-75 | the sum and the ace count of two hands put together are the sums of their parts |
| `Scoring.Demotions` | blackjack.cpp:77-80 | the number of aces the second loop demotes is at most the ace count; after that many demotions the total is at most 21 or every ace is demoted; with one fewer the total would still be over 21 |
| `Scoring.DemotionsUnique` | blackjack.cpp:77-80 | these three facts determine the number of demotions: any k with them is `Demotions` |
| `Scoring.ScoreBounds` | blackjack.cpp:63-81 | the value is between the hard total (all aces at 1) and the raw sum; it is over 21 only when every ace is demoted; a raw sum of at most 21 is kept unchanged; the value is at least the number of cards |
| `Scoring.ScoreIsBestTotal` | blackjack.cpp:77-81 | the value is the best total available: it is at least every total of at most 21 that the hand can make by counting some of its aces as 1, and it is itself at most 21 whenever such a total exists |
| `Scoring.RemoveAt` | blackjack.cpp:66-75 | taking one card out of a hand reduces the sum by its base value, and the ace count by 1 exactly when it is an ace |
| `Scoring.SumsIgnoreOrder` | blackjack.cpp:64-75 | two hands with the same cards in any order have the same sum and the same ace count |
| `Scoring.ScoreIgnoresOrder` | blackjack.cpp:63-81 | two hands with the same cards in any order have the same value |
| `Scoring.TwoCardRange` | blackjack.cpp:95-102 | any two-card hand is worth between 4 and 21 |
| `Scoring.ScoreAceKing` | blackjack.cpp:63-81 | Ace and King are worth 21 |
| `Scoring.ScoreTwoAcesNine` | blackjack.cpp:77-81 | Ace, Ace and Nine are worth 21: the sum is 31 and one ace is demoted |
| `Scoring.ScoreTenNine` | blackjack.cpp:63-81 | Ten and Nine are worth 19 |
| `Blackjack.InitialCardsPosition` | blackjack.cpp:31-35 | card i of a new deck sits at place i of the suit-major, rank-ascending order |
| `Blackjack.InitialCardsOrdered` | blackjack.cpp:30-36 | a new deck is strictly increasing in suit-major, rank-ascending order, so none of its 26 cards occurs twice |
| `Blackjack.InitialCardsMembership` | blackjack.cpp:31 | a card is in a new deck exactly when its suit is HEARTS or DIAMONDS, whatever its rank: no CLUBS and no SPADES card is present |
| `Blackjack.Deck.constructor` | blackjack.cpp:30-36 | the nested suit and rank loops leave the deck holding exactly the 26 cards of `InitialCards`, in that order |
| `Blackjack.Deck.Shuffle` | blackjack.cpp:38-42 | shuffling keeps the same cards and the same number of cards; only the order may change |
| `Blackjack.Deck.Draw` | blackjack.cpp:44-51 | on an empty deck: returns nothing and the deck stays empty; otherwise: returns the last card and leaves the original sequence without its last element, so the length drops by one and the order of the rest is kept |
| `Blackjack.Player.constructor` | blackjack.cpp:84-85 | a new player's hand is empty |
| `Blackjack.Player.AddCard` | blackjack.cpp:59-61 | the new hand is the old hand with the card appended at the end |
| `Blackjack.Player.HandValue` | blackjack.cpp:63-82 | the two loops return `Score` of the hand; the method changes nothing |
| `Blackjack.HandValueTwice` | blackjack.cpp:63 | asking for the hand value twice gives the same number and leaves the player unchanged |
| `Blackjack.PermutedDeckDistinct` | blackjack.cpp:38-42 | every reordering of a new deck still has no card twice |
| `Blackjack.DealtDistinct` | blackjack.cpp:95-99 | dealing the last four cards of an order with no repeats, two by two, leaves no card in both the deck and a hand, and none in both hands |
| `Blackjack.DealCard` | blackjack.cpp:95-99 | `addCard(drawCard())` on a non-empty deck moves the deck's last card to the end of the hand |
| `Blackjack.RoundOutcome` | blackjack.cpp:88-102 | after a round, the 22 cards left and the two hands together hold exactly the cards of a new deck, none twice, and both hand values lie in [4, 21] |
| `Blackjack.Deal` | blackjack.cpp:88-105 | the deck holds the first 22 cards of the shuffled order; the player holds its cards 26 and 25 and the dealer its cards 24 and 23 (counting from 1); the shuffled order has exactly the cards of a new deck; the two returned values are the hands' `Score`s and each lies in [4, 21] |

## Left out

- Blackjack.Deck.Shuffle: states only that the result is a permutation. The
  random source (`std::random_device`, `std::mt19937`, `std::shuffle`) is
  replaced by a free choice of index at each swap. Uniformity and
  non-reproducibility are not modelled.
- Ownership through `std::unique_ptr`: cards are plain values, and drawing
  returns an `Option<Card>` instead of a possibly null pointer.
- Blackjack.Player.AddCard: takes a real card. The source also accepts a null
  pointer, and `handValue` would then dereference it, which is undefined
  behaviour. `main` never reaches this.
- Blackjack.DealCard: requires a non-empty deck for the same reason. Each of the
  four calls in `Deal` draws from a deck of 26, 25, 24 or 23 cards.
- Console output: the two lines `main` prints are not modelled. `Deal`
  returns the two values instead, together with the deck and the two players
  so that what they hold can be stated. `main`'s constant exit code 0 is not modelled.
- Integer width: `value` in `handValue` is a C++ `int`. The model uses
  unbounded integers. An overflow would need a hand of hundreds of millions of
  cards.
- The `rank()` and `suit()` accessors of `Card` are the datatype's fields.
  `Card` has no identity beyond its rank and suit.
