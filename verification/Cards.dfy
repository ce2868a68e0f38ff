/** Playing cards (internal/game/card.go). */
module Cards {
  // Blank is the empty string of an unset suit; OtherSuit and OtherRank stand for every
  // string that is not one of the named values.
  datatype Suit = Spades | Diamonds | Hearts | Clubs | NoSuit | Blank | OtherSuit {
    predicate Real() { Spades? || Diamonds? || Hearts? || Clubs? }
  }

  datatype Rank =
    Ace | King | Queen | Jack | Ten | Nine | Eight | Seven | Six | Five | Four | Three | Two | Joker | OtherRank
  {
    predicate Plain() { !Joker? && !OtherRank? }

    function Value(): int {
      match this
      case Ace => 14
      case King => 13
      case Queen => 12
      case Jack => 11
      case Ten => 10
      case Nine => 9
      case Eight => 8
      case Seven => 7
      case Six => 6
      case Five => 5
      case Four => 4
      case Three => 3
      case Two => 2
      case Joker => 0
      case OtherRank => 0
    }
  }

  datatype Card = Card(suit: Suit, rank: Rank) {
    predicate IsPoint() { rank.Ace? || rank.King? || rank.Queen? || rank.Jack? || rank.Ten? }
  }

  const JOKER := Card(NoSuit, Joker)
}
