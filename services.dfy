/**
 * The table's seating and start logic (game/GameService.js). The socket
 * wiring, the broadcasts and the countdown chat messages are not modelled;
 * the start timer is the flag `startPending`, and its firing is a call of
 * `StartGame`.
 */
module Services {
  import opened Wrappers
  import opened Users
  import opened Cards
  import opened Decks
  import opened GameStates
  import opened Players
  import opened Games
  import opened Util

  /** `players.filter(p => p.id !== uid)`. */
  function WithoutId(ps: seq<Player>, uid: string): (r: seq<Player>)
    ensures |r| <= |ps|
    ensures forall p :: p in r <==> p in ps && p.id != uid
  {
    if ps == [] then []
    else (if ps[0].id == uid then [] else [ps[0]]) + WithoutId(ps[1..], uid)
  }

  /** Filtering distributes over concatenation, so the survivors keep their order. */
  lemma {:induction false} WithoutIdAppend(a: seq<Player>, b: seq<Player>, uid: string)
    ensures WithoutId(a + b, uid) == WithoutId(a, uid) + WithoutId(b, uid)
    decreases |a|
  {
    if a == [] {
      assert a + b == b;
    } else {
      assert (a + b)[1..] == a[1..] + b;
      WithoutIdAppend(a[1..], b, uid);
    }
  }

  /** A list without that id is left exactly as it is. */
  lemma {:induction false} WithoutIdAbsent(ps: seq<Player>, uid: string)
    requires forall i | 0 <= i < |ps| :: ps[i].id != uid
    ensures WithoutId(ps, uid) == ps
    decreases |ps|
  {
    if ps != [] {
      WithoutIdAbsent(ps[1..], uid);
    }
  }

  /** Number of seats holding the id. */
  function CountId(ps: seq<Player>, uid: string): nat
  {
    if ps == [] then 0 else (if ps[0].id == uid then 1 else 0) + CountId(ps[1..], uid)
  }

  /** Exactly the seats with that id are removed. */
  lemma {:induction false} WithoutIdLength(ps: seq<Player>, uid: string)
    ensures |WithoutId(ps, uid)| + CountId(ps, uid) == |ps|
    decreases |ps|
  {
    if ps != [] {
      WithoutIdLength(ps[1..], uid);
    }
  }

  /**
   * A new table whose stacks are untouched and whose small blind is still
   * unassigned always posts: seat 0 pays the small blind, seat 1 the big one.
   */
  lemma FreshTablePostsBlinds(ps: seq<Player>, small: Blind, big: Blind)
    requires |ps| >= 2 && small == Blind(SmallBlindAmount, None) && big.amount == BigBlindAmount
    requires forall i | 0 <= i < |ps| :: ps[i].money == StartingMoney
    ensures PostBlinds(ps, small, big).Ok?
    ensures PostBlinds(ps, small, big).value.smallSeat == 0 && PostBlinds(ps, small, big).value.bigSeat == 1
  {
    assert FirstIndex(ps, ps[0].id) == 0;
  }

  class GameService {
    var game: Game
    var gameState: Phase
    /** `startTimeout` holds a timer: a start was scheduled and not cleared. */
    var startPending: bool

    /**
     * The blind amounts never change. Until the game starts nobody has
     * posted a blind, the deck is still the full one, and the table is
     * either waiting (fewer than two players, no timer) or starting (at
     * least two players, timer pending).
     */
    ghost predicate Valid()
      reads this, game, game.deck
    {
      && game.bigBlind.amount == BigBlindAmount && game.smallBlind.amount == SmallBlindAmount
      && (!game.isStarted ==>
            && game.smallBlind.playerId == None
            && game.deck.cards == FullDeck()
            && (forall i | 0 <= i < |game.players| :: game.players[i].money == StartingMoney)
            && (gameState == WAITING_FOR_PLAYERS || gameState == STARTING)
            && (gameState == STARTING <==> startPending)
            && (|game.players| >= 2 <==> startPending))
    }

    /** The table may start: at least two players and not started yet. */
    function CanStartGame(): (r: bool)
      reads this, game
      ensures r <==> 2 <= |game.players| && !game.isStarted
    {
      |game.players| >= 2 && !game.isStarted
    }

    /** A new service: a fresh table, reset to WAITING_FOR_PLAYERS with no timer. */
    constructor ()
      ensures Valid() && fresh(game) && fresh(game.deck)
      ensures gameState == WAITING_FOR_PLAYERS && !startPending
      ensures game.players == [] && !game.isStarted && game.pot == 0 && game.deck.cards == FullDeck()
    {
      game := new Game();
      startPending := false;
      gameState := INITIALIZING;
      new;
      ResetGame();
    }

    /** `resetGame`: back to WAITING_FOR_PLAYERS and the timers cleared; the table itself is kept. */
    method ResetGame()
      modifies this
      ensures gameState == WAITING_FOR_PLAYERS && !startPending
      ensures game == old(game)
    {
      gameState := WAITING_FOR_PLAYERS;
      startPending := false;
    }

    /**
     * `addPlayer`: seat a new player at the end; once the table can start,
     * a table still waiting moves to STARTING and schedules the start.
     */
    method AddPlayer(user: User) returns (player: Player)
      requires Valid()
      modifies this, game`players
      ensures Valid() && game == old(game)
      ensures player == NewPlayer(user)
      ensures game.players == old(game.players) + [player]
      ensures if CanStartGame() && old(gameState) == WAITING_FOR_PLAYERS
              then gameState == STARTING && startPending
              else gameState == old(gameState) && startPending == old(startPending)
    {
      player := NewPlayer(user);
      game.players := game.players + [player];
      if CanStartGame() && gameState == WAITING_FOR_PLAYERS {
        gameState := Successor(gameState);
        startPending := true;
      }
    }

    /**
     * `removePlayer`: drop every seat with that id; if fewer than two remain
     * while a start is scheduled, reset.
     */
    method RemovePlayer(uid: string)
      requires Valid()
      modifies this, game`players
      ensures Valid() && game == old(game)
      ensures game.players == WithoutId(old(game.players), uid)
      ensures if |game.players| < 2 && old(startPending)
              then gameState == WAITING_FOR_PLAYERS && !startPending
              else gameState == old(gameState) && startPending == old(startPending)
    {
      game.players := WithoutId(game.players, uid);
      if |game.players| < 2 && startPending {
        ResetGame();
      }
    }

    /**
     * `startGame` (also what the start timer runs): a no-op unless the table
     * can start; otherwise one phase step, the started flag, the blinds and
     * the deal. On a valid service the blinds cannot fail.
     */
    method StartGame(picks: seq<int>) returns (r: Outcome<BlindError>)
      requires Valid() && ValidPicks(picks, |game.deck.cards|)
      modifies this, game, game.deck
      ensures Valid() && game == old(game) && game.deck == old(game.deck)
      ensures r == Pass
      ensures !old(CanStartGame()) ==> unchanged(this, game, game.deck)
      ensures old(CanStartGame()) ==>
        && gameState == Successor(old(gameState)) && startPending == old(startPending) && startPending
        && game.isStarted
        && PostBlinds(old(game.players), old(game.smallBlind), old(game.bigBlind)).Ok?
        && var post := PostBlinds(old(game.players), old(game.smallBlind), old(game.bigBlind)).value;
        && game.players == post.players
        && game.pot == old(game.pot) + post.added
        && game.smallBlind == old(game.smallBlind).(playerId := Some(post.smallId))
        && game.bigBlind == old(game.bigBlind).(playerId := Some(post.bigId))
        && game.currentPlayerId == Some(old(game.players)[post.currentSeat].id)
        && game.playerHands == DealtHands(Shuffled(old(game.deck.cards), picks), game.players)
        && game.deck.cards == AfterPops(Shuffled(old(game.deck.cards), picks), 2 * |game.players|)
        && forall c: Card :: (multiset(game.deck.cards) + Collected(game.playerHands))[c] == (if RealCard(c) then 1 else 0)
    {
      r := Pass;
      if CanStartGame() {
        FreshTablePostsBlinds(game.players, game.smallBlind, game.bigBlind);
        gameState := Successor(gameState);
        game.isStarted := true;
        r := SetupBlinds(game);
        if r.Pass? {
          DealCards(game, picks);
          forall c: Card ensures (multiset(game.deck.cards) + Collected(game.playerHands))[c] == (if RealCard(c) then 1 else 0) {
            FullDeckCovers(c);
          }
        }
      }
    }
  }
}
