/** Phase successor, hole-card dealing and blind posting (game/util/Util.js). */
module Util {
  import opened Wrappers
  import opened Cards
  import opened Decks
  import opened GameStates
  import opened Players
  import opened Games

  // ---------------------------------------------------------------------------
  // Phase successor

  /** The thrown "Invalid game state: <value>". */
  datatype StateError = InvalidGameState(value: string)

  /** The switch of `getNextGameState` on the ten phases. */
  function Successor(p: Phase): (q: Phase)
    ensures Index(q) == (Index(p) + 1) % 10
  {
    match p
    case INITIALIZING => WAITING_FOR_PLAYERS
    case WAITING_FOR_PLAYERS => STARTING
    case STARTING => DEALING_CARDS
    case DEALING_CARDS => PRE_FLOP
    case PRE_FLOP => FLOP
    case FLOP => TURN
    case TURN => RIVER
    case RIVER => SHOWDOWN
    case SHOWDOWN => GAME_OVER
    case GAME_OVER => INITIALIZING
  }

  /**
   * `getNextGameState` on an arbitrary value: the value of the next phase for
   * each of the ten values, an error for anything else.
   */
  function GetNextGameState(current: string): (r: Result<string, StateError>)
    ensures forall p: Phase :: Name(p) == current ==> r == Ok(Name(Successor(p)))
    ensures (forall p: Phase :: Name(p) != current) ==> r == Err(InvalidGameState(current))
  {
    FromNameSound(current);
    NameRoundTripAll();
    match FromName(current)
    case Some(p) => Ok(Name(Successor(p)))
    case None => Err(InvalidGameState(current))
  }

  lemma NameRoundTripAll()
    ensures forall p: Phase :: FromName(Name(p)) == Some(p)
  {
    forall p: Phase ensures FromName(Name(p)) == Some(p) {
      NameRoundTrip(p);
    }
  }

  /** The successor follows declaration order, wrapping from GAME_OVER to INITIALIZING. */
  lemma SuccessorFollowsDeclarationOrder(i: nat)
    requires i < |AllPhases|
    ensures Successor(AllPhases[i]) == AllPhases[(i + 1) % |AllPhases|]
  {
  }

  /** k applications of the successor. */
  function Advance(p: Phase, k: nat): Phase
    decreases k
  {
    if k == 0 then p else Advance(Successor(p), k - 1)
  }

  /** k steps from p land k places further along the declaration order. */
  lemma {:induction false} AdvanceIndex(p: Phase, k: nat)
    ensures Index(Advance(p, k)) == (Index(p) + k) % 10
    decreases k
  {
    if k > 0 {
      AdvanceIndex(Successor(p), k - 1);
      assert Index(Successor(p)) == (Index(p) + 1) % 10;
    }
  }

  /** Ten steps return every phase to itself, and no smaller positive number does. */
  lemma {:induction false} CycleOfTen(p: Phase, k: nat)
    requires 0 < k <= 10
    ensures Advance(p, k) == p <==> k == 10
  {
    AdvanceIndex(p, k);
    if Advance(p, k) == p {
      assert (Index(p) + k) % 10 == Index(p);
    }
  }

  // ---------------------------------------------------------------------------
  // Hole cards

  /** The card at position i, or `undefined`. */
  function CardAt(d: seq<Card>, i: int): Option<Card>
  {
    if 0 <= i < |d| then Some(d[i]) else None
  }

  /** The card the t-th `pop` (counting from 0) takes from the end of d. */
  function NthPop(d: seq<Card>, t: nat): Option<Card>
  {
    CardAt(d, |d| - 1 - t)
  }

  /** What is left of d after t pops. */
  function AfterPops(d: seq<Card>, t: nat): (r: seq<Card>)
    ensures |r| == if t <= |d| then |d| - t else 0
  {
    if t <= |d| then d[..|d| - t] else []
  }

  /** The cards seat k of n holds after `passes` rounds of the deal: one per round, in seat order. */
  function Received(d: seq<Card>, n: nat, k: nat, passes: nat): seq<Option<Card>>
    requires passes <= 2
  {
    if passes == 0 then []
    else if passes == 1 then [NthPop(d, k)]
    else [NthPop(d, k), NthPop(d, n + k)]
  }

  /** One `pop`: the last card of what is left (or `undefined`), and one card fewer left. */
  lemma PopStep(d: seq<Card>, t: nat, cards: seq<Card>)
    requires cards == AfterPops(d, t)
    ensures cards == [] ==> NthPop(d, t) == None && AfterPops(d, t + 1) == []
    ensures cards != [] ==> NthPop(d, t) == Some(cards[|cards| - 1]) && AfterPops(d, t + 1) == cards[..|cards| - 1]
    ensures multiset(cards) == multiset(AfterPops(d, t + 1)) + match NthPop(d, t) case Some(c) => multiset{c} case None => multiset{}
  {
    if cards != [] {
      assert cards == cards[..|cards| - 1] + [cards[|cards| - 1]];
    }
  }

  /** Pops made before round `pass` (0, 1 or 2) of a deal to n seats begins: pass * n. */
  function Start(pass: nat, n: nat): nat
  {
    if pass == 0 then 0 else if pass == 1 then n else n + n
  }

  /** In round p seat k receives the (p*n+k)-th pop. */
  lemma ReceivedStep(d: seq<Card>, n: nat, k: nat, pass: nat)
    requires pass < 2
    ensures Received(d, n, k, pass + 1) == Received(d, n, k, pass) + [NthPop(d, Start(pass, n) + k)]
  {
  }

  /** The hands after dealing from the shuffled deck d to the seated players. */
  function DealtHands(d: seq<Card>, players: seq<Player>): (r: seq<PlayerHand>)
    ensures |r| == |players|
    ensures forall k | 0 <= k < |r| :: r[k].playerId == players[k].id && |r[k].cards| == 2
  {
    seq(|players|, k requires 0 <= k < |players| => PlayerHand(players[k].id, Received(d, |players|, k, 2)))
  }

  /** The cards a hand actually holds (the `undefined` entries carry none). */
  function HandCards(cs: seq<Option<Card>>): multiset<Card>
  {
    if cs == [] then multiset{}
    else HandCards(cs[..|cs| - 1]) + match cs[|cs| - 1] case Some(c) => multiset{c} case None => multiset{}
  }

  /** All the cards held in the hands. */
  function Collected(hands: seq<PlayerHand>): multiset<Card>
  {
    if hands == [] then multiset{}
    else Collected(hands[..|hands| - 1]) + HandCards(hands[|hands| - 1].cards)
  }

  /** Appending one popped value to hand k adds exactly that card (or none) to the collected cards. */
  lemma {:induction false} CollectedPush(hands: seq<PlayerHand>, k: nat, c: Option<Card>)
    requires k < |hands|
    ensures Collected(hands[k := hands[k].(cards := hands[k].cards + [c])])
         == Collected(hands) + match c case Some(x) => multiset{x} case None => multiset{}
    decreases |hands|
  {
    var h := hands[k].cards;
    assert (h + [c])[..|h|] == h;
    var updated := hands[k := hands[k].(cards := h + [c])];
    if k < |hands| - 1 {
      assert updated[..|updated| - 1] == hands[..|hands| - 1][k := hands[k].(cards := h + [c])];
      CollectedPush(hands[..|hands| - 1], k, c);
    } else {
      assert updated[..|updated| - 1] == hands[..|hands| - 1];
    }
  }

  /** Hands with no cards hold no cards. */
  lemma {:induction false} CollectedEmpty(hands: seq<PlayerHand>)
    requires forall m | 0 <= m < |hands| :: hands[m].cards == []
    ensures Collected(hands) == multiset{}
    decreases |hands|
  {
    if hands != [] {
      CollectedEmpty(hands[..|hands| - 1]);
    }
  }

  /** With at least two cards per player every hand receives two real cards. */
  lemma DealtHandsFull(d: seq<Card>, players: seq<Player>, k: nat)
    requires 2 * |players| <= |d| && k < |players|
    ensures |DealtHands(d, players)| == |players|
    ensures DealtHands(d, players)[k].playerId == players[k].id
    ensures DealtHands(d, players)[k].cards == [Some(d[|d| - 1 - k]), Some(d[|d| - 1 - (|players| + k)])]
  {
  }

  /** One empty hand per player, in seating order. */
  function EmptyHands(ps: seq<Player>): (r: seq<PlayerHand>)
    ensures |r| == |ps|
    ensures forall k | 0 <= k < |r| :: r[k].playerId == ps[k].id && r[k].cards == []
    ensures Collected(r) == multiset{}
  {
    var hands := seq(|ps|, k requires 0 <= k < |ps| => PlayerHand(ps[k].id, []));
    CollectedEmpty(hands);
    hands
  }

  /** `setupHands`: one empty hand per seated player, in seating order. */
  method SetupHands(g: Game)
    modifies g
    ensures g.playerHands == EmptyHands(g.players)
    ensures g.players == old(g.players) && g.deck == old(g.deck) && g.pot == old(g.pot)
    ensures g.smallBlind == old(g.smallBlind) && g.bigBlind == old(g.bigBlind)
    ensures g.currentPlayerId == old(g.currentPlayerId) && g.isStarted == old(g.isStarted)
  {
    g.playerHands := [];
    var i := 0;
    while i < |g.players|
      invariant 0 <= i <= |g.players|
      invariant g.players == old(g.players) && g.deck == old(g.deck) && g.pot == old(g.pot)
      invariant g.smallBlind == old(g.smallBlind) && g.bigBlind == old(g.bigBlind)
      invariant g.currentPlayerId == old(g.currentPlayerId) && g.isStarted == old(g.isStarted)
      invariant g.playerHands == EmptyHands(g.players[..i])
    {
      assert EmptyHands(g.players[..i + 1]) == EmptyHands(g.players[..i]) + [PlayerHand(g.players[i].id, [])];
      g.playerHands := g.playerHands + [PlayerHand(g.players[i].id, [])];
      i := i + 1;
    }
    assert g.players[..i] == g.players;
  }

  /**
   * The state of the deal when round `pass` has served seats 0..k-1: those
   * hold one card more than the rest, the deck has lost exactly the cards
   * popped so far, and every card is either still in the deck or in a hand.
   */
  ghost predicate DealingAt(d: seq<Card>, players: seq<Player>, pass: nat, k: nat, cards: seq<Card>, hands: seq<PlayerHand>)
  {
    var n := |players|;
    && pass <= 2 && k <= n && (pass == 2 ==> k == 0) && |hands| == n
    && cards == AfterPops(d, Start(pass, n) + k)
    && (forall m | 0 <= m < k :: hands[m] == PlayerHand(players[m].id, Received(d, n, m, pass + 1)))
    && (forall m | k <= m < n :: hands[m] == PlayerHand(players[m].id, Received(d, n, m, pass)))
    && multiset(cards) + Collected(hands) == multiset(d)
  }

  /** One pop into hand k moves the deal on by one seat. */
  lemma DealingStep(d: seq<Card>, players: seq<Player>, pass: nat, k: nat, cards: seq<Card>, hands: seq<PlayerHand>,
                    card: Option<Card>, cards': seq<Card>, hands': seq<PlayerHand>)
    requires DealingAt(d, players, pass, k, cards, hands) && pass < 2 && k < |players|
    requires card == (if cards == [] then None else Some(cards[|cards| - 1]))
    requires cards' == (if cards == [] then cards else cards[..|cards| - 1])
    requires hands' == hands[k := hands[k].(cards := hands[k].cards + [card])]
    ensures DealingAt(d, players, pass, k + 1, cards', hands')
  {
    var n := |players|;
    PopStep(d, Start(pass, n) + k, cards);
    assert cards' == AfterPops(d, Start(pass, n) + k + 1);
    assert card == NthPop(d, Start(pass, n) + k);
    ReceivedStep(d, n, k, pass);
    assert hands'[k] == PlayerHand(players[k].id, Received(d, n, k, pass + 1));
    forall m | 0 <= m < n && m != k ensures hands'[m] == hands[m] {
    }
    CollectedPush(hands, k, card);
  }

  /** A finished round is the start of the next. */
  lemma DealingNextPass(d: seq<Card>, players: seq<Player>, pass: nat, cards: seq<Card>, hands: seq<PlayerHand>)
    requires pass < 2 && DealingAt(d, players, pass, |players|, cards, hands)
    ensures DealingAt(d, players, pass + 1, 0, cards, hands)
  {
  }

  /** The deal starts from the whole deck and empty hands. */
  lemma DealingStart(d: seq<Card>, players: seq<Player>)
    ensures DealingAt(d, players, 0, 0, d, EmptyHands(players))
  {
    CollectedEmpty(EmptyHands(players));
  }

  /** After two rounds the hands are the dealt hands and 2n cards have left the deck. */
  lemma DealingDone(d: seq<Card>, players: seq<Player>, cards: seq<Card>, hands: seq<PlayerHand>)
    requires DealingAt(d, players, 2, 0, cards, hands)
    ensures hands == DealtHands(d, players)
    ensures cards == AfterPops(d, 2 * |players|)
    ensures multiset(cards) + Collected(hands) == multiset(d)
  {
  }

  /**
   * The two passes of `dealCards` over fresh empty hands: in each pass every
   * hand, in seating order, receives the result of one `pop` from the end of
   * the deck. Cards are only moved, never copied or lost.
   */
  method DealRounds(d: seq<Card>, players: seq<Player>) returns (cards: seq<Card>, hands: seq<PlayerHand>)
    ensures hands == DealtHands(d, players)
    ensures cards == AfterPops(d, 2 * |players|)
    ensures multiset(cards) + Collected(hands) == multiset(d)
  {
    cards, hands := d, EmptyHands(players);
    DealingStart(d, players);
    var n := |hands|;
    var pass := 0;
    while pass < 2
      invariant 0 <= pass <= 2 && n == |players|
      invariant DealingAt(d, players, pass, 0, cards, hands)
    {
      var k := 0;
      while k < n
        invariant 0 <= k <= n
        invariant DealingAt(d, players, pass, k, cards, hands)
      {
        var card: Option<Card>;
        ghost var cards0, hands0 := cards, hands;
        if cards == [] {
          card := None;
        } else {
          card := Some(cards[|cards| - 1]);
          cards := cards[..|cards| - 1];
        }
        hands := hands[k := hands[k].(cards := hands[k].cards + [card])];
        DealingStep(d, players, pass, k, cards0, hands0, card, cards, hands);
        k := k + 1;
      }
      DealingNextPass(d, players, pass, cards, hands);
      pass := pass + 1;
    }
    DealingDone(d, players, cards, hands);
  }

  /** `dealCards`: fresh empty hands, a shuffle with the given draws, then the two passes. */
  method DealCards(g: Game, picks: seq<int>)
    requires ValidPicks(picks, |g.deck.cards|)
    modifies g, g.deck
    ensures g.deck == old(g.deck) && g.players == old(g.players)
    ensures g.playerHands == DealtHands(Shuffled(old(g.deck.cards), picks), g.players)
    ensures g.deck.cards == AfterPops(Shuffled(old(g.deck.cards), picks), 2 * |g.players|)
    ensures multiset(g.deck.cards) + Collected(g.playerHands) == multiset(old(g.deck.cards))
    ensures g.pot == old(g.pot) && g.smallBlind == old(g.smallBlind) && g.bigBlind == old(g.bigBlind)
    ensures g.currentPlayerId == old(g.currentPlayerId) && g.isStarted == old(g.isStarted)
  {
    SetupHands(g);
    g.deck.Shuffle(picks);
    var cards, hands := DealRounds(g.deck.cards, g.players);
    g.deck.cards := cards;
    g.playerHands := hands;
  }

  // ---------------------------------------------------------------------------
  // Blinds

  /** The errors `setupBlinds` throws. */
  datatype BlindError =
    | NotEnoughPlayers
    | SmallBlindNotFound
    | SmallBlindShort(name: Option<string>)
    | BigBlindShort(name: Option<string>)

  /** A successful posting: the seats, the new stacks, the chips added to the pot and the seat to act. */
  datatype Posting = Posting(players: seq<Player>, smallSeat: nat, bigSeat: nat,
                             smallId: string, bigId: string, added: int, currentSeat: nat)

  /** `players.findIndex(p => p.id === id)`: the first seat with that id, or -1. */
  function FirstIndex(ps: seq<Player>, id: string): (i: int)
    ensures -1 <= i < |ps|
    ensures i == -1 <==> forall k | 0 <= k < |ps| :: ps[k].id != id
    ensures 0 <= i ==> ps[i].id == id && forall k | 0 <= k < i :: ps[k].id != id
  {
    if ps == [] then -1
    else if ps[0].id == id then 0
    else
      var j := FirstIndex(ps[1..], id);
      if j == -1 then -1 else j + 1
  }

  /** The small-blind id: the recorded one, or the first seat's when still unassigned. */
  function SmallBlindId(ps: seq<Player>, small: Blind): (id: string)
    requires ps != []
    ensures small.playerId.None? ==> id == ps[0].id
    ensures small.playerId.Some? ==> id == small.playerId.value
  {
    match small.playerId
    case None => ps[0].id
    case Some(id) => id
  }

  /** `players[i].money -= amount`. */
  function Deduct(ps: seq<Player>, i: nat, amount: int): (r: seq<Player>)
    requires i < |ps|
    ensures |r| == |ps|
  {
    ps[i := ps[i].(money := ps[i].money - amount)]
  }

  /** Sum of all stacks. */
  function TotalMoney(ps: seq<Player>): int
  {
    if ps == [] then 0 else TotalMoney(ps[..|ps| - 1]) + ps[|ps| - 1].money
  }

  /** `setupBlinds` on values: every check first, then the two deductions. */
  function PostBlinds(ps: seq<Player>, small: Blind, big: Blind): (r: Result<Posting, BlindError>)
    ensures r.Ok? ==> |r.value.players| == |ps| && r.value.smallSeat < |ps| && r.value.bigSeat < |ps|
    ensures r.Ok? ==> r.value.currentSeat < |ps|
  {
    if |ps| < 2 then Err(NotEnoughPlayers)
    else
      var sbId := SmallBlindId(ps, small);
      var sb := FirstIndex(ps, sbId);
      if sb == -1 then Err(SmallBlindNotFound)
      else
        var bb := (sb + 1) % |ps|;
        if ps[sb].money < small.amount then Err(SmallBlindShort(ps[sb].name))
        else if ps[bb].money < big.amount then Err(BigBlindShort(ps[bb].name))
        else
          Ok(Posting(Deduct(Deduct(ps, sb, small.amount), bb, big.amount),
                     sb, bb, sbId, ps[bb].id, small.amount + big.amount, (bb + 1) % |ps|))
  }

  /** Replacing one stack changes the total by exactly the difference. */
  lemma {:induction false} TotalMoneyUpdate(ps: seq<Player>, i: nat, p: Player)
    requires i < |ps|
    ensures TotalMoney(ps[i := p]) == TotalMoney(ps) - ps[i].money + p.money
    decreases |ps|
  {
    var last := |ps| - 1;
    if i < last {
      assert ps[i := p][..last] == ps[..last][i := p];
      TotalMoneyUpdate(ps[..last], i, p);
    } else {
      assert ps[i := p][..last] == ps[..last];
    }
  }

  /** `setupBlinds` fails exactly when one of its four checks fails, and names the first that does. */
  lemma PostBlindsFailsIff(ps: seq<Player>, small: Blind, big: Blind)
    ensures |ps| < 2 ==> PostBlinds(ps, small, big) == Err(NotEnoughPlayers)
    ensures |ps| >= 2 && (forall k | 0 <= k < |ps| :: ps[k].id != SmallBlindId(ps, small))
            ==> PostBlinds(ps, small, big) == Err(SmallBlindNotFound)
    ensures |ps| >= 2 && (exists k | 0 <= k < |ps| :: ps[k].id == SmallBlindId(ps, small)) ==>
              var sb := FirstIndex(ps, SmallBlindId(ps, small));
              var bb := (sb + 1) % |ps|;
              (PostBlinds(ps, small, big).Ok? <==> ps[sb].money >= small.amount && ps[bb].money >= big.amount)
              && (ps[sb].money < small.amount ==> PostBlinds(ps, small, big) == Err(SmallBlindShort(ps[sb].name)))
              && (ps[sb].money >= small.amount && ps[bb].money < big.amount ==>
                    PostBlinds(ps, small, big) == Err(BigBlindShort(ps[bb].name)))
  {
  }

  /** A deduction takes the amount from one stack, leaves every other seat alone and lowers the total by it. */
  lemma DeductMoves(ps: seq<Player>, i: nat, amount: int)
    requires i < |ps|
    ensures Deduct(ps, i, amount)[i] == ps[i].(money := ps[i].money - amount)
    ensures forall k | 0 <= k < |ps| && k != i :: Deduct(ps, i, amount)[k] == ps[k]
    ensures TotalMoney(Deduct(ps, i, amount)) == TotalMoney(ps) - amount
  {
    TotalMoneyUpdate(ps, i, ps[i].(money := ps[i].money - amount));
  }

  /** Two deductions at distinct seats: each pays its amount, nobody else pays, the total drops by both. */
  lemma {:induction false} DeductTwice(ps: seq<Player>, i: nat, a: int, j: nat, b: int)
    requires i < |ps| && j < |ps| && i != j
    ensures var r := Deduct(Deduct(ps, i, a), j, b);
      && r[i].money == ps[i].money - a && r[j].money == ps[j].money - b
      && (forall k | 0 <= k < |ps| && k != i && k != j :: r[k] == ps[k])
      && (forall k | 0 <= k < |ps| :: r[k] == ps[k].(money := r[k].money))
      && TotalMoney(r) == TotalMoney(ps) - a - b
  {
    DeductMoves(ps, i, a);
    DeductMoves(Deduct(ps, i, a), j, b);
  }

  /**
   * On success the small blind pays exactly the small amount, the big blind
   * exactly the big amount, nobody else pays, no seat moves, and the pot grows
   * by what they paid.
   */
  lemma PostBlindsMoves(ps: seq<Player>, small: Blind, big: Blind, post: Posting)
    requires PostBlinds(ps, small, big) == Ok(post)
    ensures post.added == small.amount + big.amount
    ensures post.players[post.smallSeat].money == ps[post.smallSeat].money - small.amount
    ensures post.players[post.bigSeat].money == ps[post.bigSeat].money - big.amount
    ensures forall k | 0 <= k < |ps| && k != post.smallSeat && k != post.bigSeat :: post.players[k] == ps[k]
    ensures forall k | 0 <= k < |ps| :: post.players[k] == ps[k].(money := post.players[k].money)
    ensures TotalMoney(post.players) + post.added == TotalMoney(ps)
  {
    PostBlindsShape(ps, small, big, post);
    DeductTwice(ps, post.smallSeat, small.amount, post.bigSeat, big.amount);
  }

  /** A posting is two deductions at two distinct seats. */
  lemma PostBlindsShape(ps: seq<Player>, small: Blind, big: Blind, post: Posting)
    requires PostBlinds(ps, small, big) == Ok(post)
    ensures post.players == Deduct(Deduct(ps, post.smallSeat, small.amount), post.bigSeat, big.amount)
    ensures post.smallSeat != post.bigSeat && post.added == small.amount + big.amount
  {
  }

  /** Every check precedes a deduction, so no stack is driven below zero. */
  lemma PostBlindsKeepsMoneyNonNegative(ps: seq<Player>, small: Blind, big: Blind)
    requires forall k | 0 <= k < |ps| :: ps[k].money >= 0
    requires PostBlinds(ps, small, big).Ok?
    ensures forall k | 0 <= k < |ps| :: PostBlinds(ps, small, big).value.players[k].money >= 0
  {
  }

  /**
   * The seats: the small blind is the recorded id (or seat 0's), the big blind
   * the next seat round the table and never the same seat, and the first to
   * act the seat after the big blind, which heads-up is the small blind.
   */
  lemma PostBlindsSeats(ps: seq<Player>, small: Blind, big: Blind)
    requires PostBlinds(ps, small, big).Ok?
    ensures var post := PostBlinds(ps, small, big).value;
      && post.smallId == (if small.playerId.None? then ps[0].id else small.playerId.value)
      && ps[post.smallSeat].id == post.smallId
      && post.bigSeat == (post.smallSeat + 1) % |ps| && post.bigSeat != post.smallSeat
      && post.bigId == ps[post.bigSeat].id
      && post.currentSeat == (post.bigSeat + 1) % |ps|
      && (|ps| == 2 ==> post.currentSeat == post.smallSeat)
  {
  }

  /**
   * `setupBlinds`: validate, then deduct both blinds, record the blind ids,
   * grow the pot and hand the turn to the seat after the big blind. A failed
   * check leaves the table as it was.
   */
  method SetupBlinds(g: Game) returns (r: Outcome<BlindError>)
    modifies g
    ensures g.deck == old(g.deck) && g.playerHands == old(g.playerHands) && g.isStarted == old(g.isStarted)
    ensures match PostBlinds(old(g.players), old(g.smallBlind), old(g.bigBlind))
      case Err(e) =>
        && r == Fail(e) && g.players == old(g.players) && g.pot == old(g.pot)
        && g.smallBlind == old(g.smallBlind) && g.bigBlind == old(g.bigBlind)
        && g.currentPlayerId == old(g.currentPlayerId)
      case Ok(post) =>
        && r == Pass && g.players == post.players && g.pot == old(g.pot) + post.added
        && g.smallBlind == old(g.smallBlind).(playerId := Some(post.smallId))
        && g.bigBlind == old(g.bigBlind).(playerId := Some(post.bigId))
        && g.currentPlayerId == Some(old(g.players)[post.currentSeat].id)
  {
    var players := g.players;
    if |players| < 2 {
      return Fail(NotEnoughPlayers);
    }
    var smallBlindPlayerId := if g.smallBlind.playerId.None? then players[0].id else g.smallBlind.playerId.value;
    var smallBlindIndex := FirstIndex(players, smallBlindPlayerId);
    if smallBlindIndex == -1 {
      return Fail(SmallBlindNotFound);
    }
    var bigBlindIndex := (smallBlindIndex + 1) % |players|;
    var bigBlindPlayerId := players[bigBlindIndex].id;
    var smallBlindAmount := g.smallBlind.amount;
    var bigBlindAmount := g.bigBlind.amount;
    if players[smallBlindIndex].money < smallBlindAmount {
      return Fail(SmallBlindShort(players[smallBlindIndex].name));
    }
    if players[bigBlindIndex].money < bigBlindAmount {
      return Fail(BigBlindShort(players[bigBlindIndex].name));
    }
    g.players := Deduct(g.players, smallBlindIndex, smallBlindAmount);
    g.players := Deduct(g.players, bigBlindIndex, bigBlindAmount);
    g.smallBlind := g.smallBlind.(playerId := Some(smallBlindPlayerId));
    g.bigBlind := g.bigBlind.(playerId := Some(bigBlindPlayerId));
    g.pot := g.pot + smallBlindAmount + bigBlindAmount;
    var nextPlayerIndex := (bigBlindIndex + 1) % |players|;
    g.currentPlayerId := Some(g.players[nextPlayerIndex].id);
    r := Pass;
  }
}
