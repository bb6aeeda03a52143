/** The table record (game/util/Game.js): a public part and a private part. */
module Games {
  import opened Wrappers
  import opened Cards
  import opened Decks
  import opened Players

  /**
   * One blind: its amount and the seat's player id. `None` is the sentinel -1
   * of the source, which no player id (a string uid) can equal.
   */
  datatype Blind = Blind(amount: int, playerId: Option<string>)

  /** One player's hole cards; `None` is an `undefined` popped from an empty deck. */
  datatype PlayerHand = PlayerHand(playerId: string, cards: seq<Option<Card>>)

  const BigBlindAmount: int := 100
  const SmallBlindAmount: int := 50

  class Game {
    // public
    var pot: int
    var bigBlind: Blind
    var smallBlind: Blind
    var currentPlayerId: Option<string>
    var players: seq<Player>
    var isStarted: bool
    // private
    var deck: Deck
    var playerHands: seq<PlayerHand>

    /** A fresh table: empty pot and seats, unassigned blinds, a new full deck. */
    constructor ()
      ensures pot == 0
      ensures bigBlind == Blind(BigBlindAmount, None) && smallBlind == Blind(SmallBlindAmount, None)
      ensures currentPlayerId == None && players == [] && !isStarted
      ensures fresh(deck) && deck.cards == FullDeck() && playerHands == []
    {
      pot := 0;
      bigBlind := Blind(BigBlindAmount, None);
      smallBlind := Blind(SmallBlindAmount, None);
      currentPlayerId := None;
      players := [];
      isStarted := false;
      deck := new Deck();
      playerHands := [];
    }
  }
}
