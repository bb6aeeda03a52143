# Royal Poker table engine — a Dafny model

This project models the server-side table engine of the Royal Poker backend in Dafny and proves properties of it. The model covers:

- the ten-phase game-state cycle and its successor function;
- the 52-card deck, its Fisher–Yates shuffle, and card labels;
- the table record, the player record and hole-card dealing;
- blind posting;
- the seating and start logic of `GameService`;
- the two bounded chat histories.

Most modules correspond to one source file. `History` serves both chat files, and `Wrappers` and `Users` hold shared definitions:

| module | file | form |
|---|---|---|
| `Cards` | game/util/Card.js | datatype and pure functions |
| `Decks` | game/util/Deck.js | class `Deck` with a `seq` of cards; constructor and in-place shuffle loops |
| `GameStates` | game/util/GameState.js | closed datatype `Phase` and its string values |
| `Players` | game/player.js | datatype `Player`, function `NewPlayer` |
| `Games` | game/util/Game.js | class `Game` holding the public and private table fields |
| `Util` | game/util/Util.js | pure `GetNextGameState`; imperative `SetupHands`, `DealCards`, `SetupBlinds` over a `Game`, each proved against a pure specification (`DealtHands`, `PostBlinds`) |
| `Services` | game/GameService.js | class `GameService` as a state machine over `gameState`, `startPending` and the table |
| `RoomChat` | game/chat.js | class `Chat` and its message builders |
| `GlobalChat` | chat/chat.js | class `ChatStore` for the module-level history |
| `History` | game/chat.js, chat/chat.js | the bounded push both chats perform |
| `Wrappers`, `Users` | — | `Option`/`Result`/`Outcome`, JavaScript truthiness and `${…}` rendering, and the authenticated user record |

Modelling conventions:

- **Undefined values.** JavaScript `undefined` is `None`. This covers a symbol lookup outside its table, a missing user claim, and `pop()` on an empty deck.
- **String rendering.** A template literal renders `None` as `"undefined"`.
- **Seat sentinel.** The sentinel `-1` in `blinds.*.playerId` and `currentPlayerId` is `None`. Player ids are string uids, so `=== -1` never matches a real id.
- **Players as values.** Players are values in a sequence. A blind deduction replaces the player at that seat.
- **Randomness.** `Math.floor(Math.random() * (i + 1))` in `shuffle` is replaced by a caller-supplied `picks[i]` with `0 <= picks[i] <= i` (`ValidPicks`).
- **Start timer.** The timer behind `startTimeout` is the boolean `startPending`. Its firing is an explicit `StartGame` call. As in the source, `startGame` does not clear it, so it stays set after the game starts. `GameService.Valid` ties the timer to the seating while the game has not started. `StartGame` then promises that the timer is still set after a start. `RemovePlayer` resets the service whenever fewer than two players remain and the timer is set. No operation clears `isStarted`: `AddPlayer` and `RemovePlayer` change only the players, and `StartGame` acts only on a table that has not started. Together these contracts give one consequence. If a started table drops below two players, the service goes back to WAITING_FOR_PLAYERS, but `isStarted` stays true. From then on the table can never start again.
- **Exceptions.** Errors the source throws are `Err`/`Fail` values. `startGame` advances the phase and sets `isStarted` before `setupBlinds` runs, exactly as the source does. `GameService.Valid` proves that `setupBlinds` cannot fail at that point: no blind has been posted yet, and every stack is still 100000.

`getNextGameState` takes an arbitrary string and rejects anything that is not one of the ten values. The service itself stores the phase as a `Phase` and steps it with `Successor`, the switch inside `getNextGameState`.

## Model

| member | source | states |
|---|---|---|
| `Users.NameOrEmail` | game/player.js:6 | `user.name \|\| user.email`: the name exactly when it is truthy, otherwise the email |
| `Cards.GetSuitSymbol` | game/util/Card.js:10-18 | defined exactly for suits 0..3, each a one-character symbol; undefined for every other key |
| `Cards.GetValueSymbol` | game/util/Card.js:21-38 | defined exactly for values 0..12, each one or two characters; undefined for every other key |
| `Cards.SuitSymbolRoundTrip` | game/util/Card.js:11-16 | each suit symbol reads back as its own suit, so ♥ ♦ ♣ ♠ are pairwise distinct |
| `Cards.ValueSymbolRoundTrip` | game/util/Card.js:22-36 | each value symbol A, 2, …, 10, J, Q, K reads back as its own value, so the thirteen are pairwise distinct |
| `Cards.NewCard` | game/util/Card.js:2-7 | the constructor keeps suit and value unchanged and caches exactly the getter results; both caches are defined iff the card is in range |
| `Cards.ToString` | game/util/Card.js:41-43 | the label of an in-range card has two or three characters |
| `Cards.ToStringOfRealCard` | game/util/Card.js:41-43 | the label of an in-range card is its value symbol followed by its suit symbol |
| `Cards.ToStringOutOfRange` | game/util/Card.js:10-43 | a card with an unknown suit renders its suit as "undefined" |
| `Cards.LabelRoundTrip` | game/util/Card.js:10-43 | the label of an in-range card parses back to its (suit, value): last character the suit, prefix the value |
| `Cards.ToStringInjective` | game/util/Card.js:10-43 | two in-range cards with the same label have the same suit and value |
| `Decks.FullDeck` | game/util/Deck.js:5-11 | the constructor's order holds exactly 52 cards |
| `Decks.FullDeckAt` | game/util/Deck.js:6-10 | position 13·suit+value of a new deck holds that suit and value |
| `Decks.FullDeckMembers` | game/util/Deck.js:6-10 | a card is in a new deck iff it is a real card (in range, symbols from the tables) |
| `Decks.FullDeckDistinct` | game/util/Deck.js:6-10 | the 52 cards of a new deck are pairwise distinct |
| `Decks.FullDeckCovers` | game/util/Deck.js:6-10 | a new deck holds every real card exactly once and nothing else |
| `Decks.Swap` | game/util/Deck.js:21 | the swap exchanges positions i and j and leaves every other position alone |
| `Decks.SwapPermutes` | game/util/Deck.js:21 | a swap keeps the multiset of cards |
| `Decks.Shuffled` | game/util/Deck.js:15-23 | the deck after a shuffle with the given draws has the same length and the same multiset of cards |
| `Decks.ShuffleDownKeepsAbove` | game/util/Deck.js:17-22 | the iterations i, i-1, …, 1 never touch a position above i |
| `Decks.ShuffleFixesTail` | game/util/Deck.js:17-22 | once the iteration for i has run, positions i..len-1 hold their final cards |
| `Decks.ShuffleLength` | game/util/Deck.js:15-23 | the shuffle keeps the length |
| `Decks.ShufflePermutes` | game/util/Deck.js:15-23 | the shuffle is a permutation: same length and same multiset of cards |
| `Decks.ShuffleShortDeck` | game/util/Deck.js:17 | a deck of at most one card is left unchanged |
| `Decks.ShuffledFullDeckCovers` | game/util/Deck.js:5-23 | a shuffled new deck still holds every real card exactly once |
| `Decks.Deck.constructor` | game/util/Deck.js:4-12 | the nested loops leave exactly `FullDeck()` in `cards` |
| `Decks.Deck.Shuffle` | game/util/Deck.js:15-23 | with in-bounds draws, `cards` becomes `Shuffled(old cards)`, a permutation of the old cards |
| `GameStates.NameRoundTrip` | game/util/GameState.js:3-12 | each constant's value is the string of its own name and reads back as that constant |
| `GameStates.FromNameSound` | game/util/GameState.js:3-12 | a string that reads as a constant is exactly that constant's value |
| `GameStates.NamesDistinct` | game/util/GameState.js:3-12 | two phases have equal values iff they are the same phase, so `==` on the values distinguishes phases |
| `GameStates.Index` | game/util/GameState.js:3-12 | every phase has a position in declaration order |
| `GameStates.ExactlyTen` | game/util/GameState.js:2-13 | the enumeration has exactly ten members, each listed once |
| `Players.NewPlayer` | game/player.js:4-10 | id is the uid, image the picture, name the name-or-email; money 100000; action NONE |
| `Games.Game.constructor` | game/util/Game.js:4-25 | pot 0; big blind 100 and small blind 50, both unassigned; no current player; no players; not started; a fresh full deck; no hands |
| `Util.Successor` | game/util/Util.js:6-26 | each phase's successor is the next phase in declaration order, wrapping from GAME_OVER to INITIALIZING |
| `Util.GetNextGameState` | game/util/Util.js:5-30 | each of the ten values maps to its successor's value; any other string is rejected with the invalid-state error |
| `Util.SuccessorFollowsDeclarationOrder` | game/util/Util.js:6-26 | the successor of the i-th declared phase is the (i+1 mod 10)-th |
| `Util.AdvanceIndex` | game/util/Util.js:6-26 | k successor steps move k places along the declaration order, modulo 10 |
| `Util.CycleOfTen` | game/util/Util.js:6-26 | ten steps return every phase to itself, and no smaller positive number of steps does |
| `Util.EmptyHands` | game/util/Util.js:33-39 | one hand per player, in seating order, with that player's id and no cards; together they hold no cards |
| `Util.SetupHands` | game/util/Util.js:32-40 | `playerHands` becomes one empty hand per seated player, in seating order; nothing else changes |
| `Util.CollectedPush` | game/util/Util.js:51-52 | pushing a popped value onto one hand adds exactly that card (or none, for undefined) to the cards held |
| `Util.CollectedEmpty` | game/util/Util.js:33-38 | empty hands hold no cards |
| `Util.PopStep` | game/util/Util.js:51 | a pop takes the last remaining card, or yields undefined from an empty deck, and the card leaves the deck |
| `Util.ReceivedStep` | game/util/Util.js:49-53 | in pass p, seat k receives the (p·N+k)-th pop |
| `Util.DealingStep` | game/util/Util.js:50-53 | one pop into hand k keeps the deal invariant: served seats hold one card more, the deck lost exactly the popped cards, no card is lost or copied |
| `Util.DealingNextPass` | game/util/Util.js:49-50 | a finished pass is the start of the next |
| `Util.DealingStart` | game/util/Util.js:43-48 | the deal starts from the whole deck and empty hands |
| `Util.DealingDone` | game/util/Util.js:49-54 | after two passes, player k holds the pops k and N+k, and 2N cards have left the deck |
| `Util.DealtHands` | game/util/Util.js:49-54 | after the deal there is one hand per player, in seating order, with that player's id and exactly two entries |
| `Util.DealtHandsFull` | game/util/Util.js:49-54 | with at least 2N cards, player k receives exactly the cards at positions len-1-k and len-1-(N+k) |
| `Util.DealRounds` | game/util/Util.js:49-54 | the two passes give the dealt hands, leave the deck minus 2N pops, and conserve every card |
| `Util.DealCards` | game/util/Util.js:42-55 | hands are dealt from the shuffled deck round-robin from its end; the hands plus the remaining deck are exactly the pre-deal cards; nothing else changes |
| `Util.FirstIndex` | game/util/Util.js:73 | `findIndex`: -1 iff no seat has the id, otherwise the first seat that has it |
| `Util.SmallBlindId` | game/util/Util.js:67-70 | the recorded small-blind id, or seat 0's id when the blind is still unassigned |
| `Util.Deduct` | game/util/Util.js:101-102 | a deduction keeps the number of seats |
| `Util.TotalMoneyUpdate` | game/util/Util.js:101-102 | replacing one stack changes the total by exactly the difference |
| `Util.DeductMoves` | game/util/Util.js:101-102 | a deduction takes the amount from one stack only and lowers the total by it |
| `Util.DeductTwice` | game/util/Util.js:101-102 | deductions at two distinct seats take exactly their amounts and touch no one else |
| `Util.PostBlinds` | game/util/Util.js:58-118 | on success the seats are unchanged in number and all three seat indices are in range |
| `Util.PostBlindsShape` | game/util/Util.js:80-109 | a posting is two deductions at two distinct seats, and it adds their sum to the pot |
| `Util.PostBlindsFailsIff` | game/util/Util.js:62-98 | fewer than 2 players, an unseated small-blind id, or a short small or big blind fails with that error, in the source's order, and the posting succeeds iff none of these holds |
| `Util.PostBlindsMoves` | game/util/Util.js:88-109 | the small blind pays exactly the small amount and the big blind exactly the big amount; nobody else pays; the pot grows by their sum; total money plus the added pot is conserved |
| `Util.PostBlindsKeepsMoneyNonNegative` | game/util/Util.js:91-102 | every check comes before a deduction, so non-negative stacks stay non-negative |
| `Util.PostBlindsSeats` | game/util/Util.js:66-115 | the small-blind id is the recorded one, or seat 0's when unassigned; the big blind is seat (sb+1) mod n, never the small blind's seat; the first to act is (bb+1) mod n, which with two players is the small blind |
| `Util.SetupBlinds` | game/util/Util.js:58-118 | a failed check leaves the table untouched; a success installs the posting's stacks, the blind ids, the pot and the current player |
| `Services.WithoutId` | game/GameService.js:64 | the filter keeps exactly the players whose id differs |
| `Services.WithoutIdAppend` | game/GameService.js:64 | the filter distributes over concatenation, so survivors keep their relative order |
| `Services.WithoutIdAbsent` | game/GameService.js:64 | removing an id nobody has changes nothing |
| `Services.WithoutIdLength` | game/GameService.js:64 | exactly as many players disappear as had the id |
| `Services.FreshTablePostsBlinds` | game/GameService.js:117-126 | on a table that has not started, blinds post from seats 0 and 1 without error |
| `Services.GameService.CanStartGame` | game/GameService.js:58-61 | the table can start exactly when at least two players are seated and the game has not started |
| `Services.GameService.constructor` | game/GameService.js:9-18 | a fresh table in WAITING_FOR_PLAYERS with no start timer pending |
| `Services.GameService.ResetGame` | game/GameService.js:20-28 | WAITING_FOR_PLAYERS and timers cleared; the table (players, pot, isStarted) is untouched |
| `Services.GameService.AddPlayer` | game/GameService.js:36-56 | the new player is appended and returned; WAITING_FOR_PLAYERS moves to STARTING and arms the timer exactly when the table can then start |
| `Services.GameService.RemovePlayer` | game/GameService.js:63-70 | every seat with the uid is removed; the service resets exactly when fewer than 2 remain and a start is pending |
| `Services.GameService.StartGame` | game/GameService.js:117-130 | a no-op unless the table can start; otherwise the start timer stays set, one phase step, `isStarted`, blinds posted and hands dealt, with every real card in exactly one place; a second call is therefore a no-op |
| `History.Push` | game/chat.js:13-17 | the history never exceeds 100 entries, the new message is last, the oldest is dropped only when the length would exceed 100, and what remains is a suffix in arrival order |
| `History.LastN` | chat/chat.js:5-9 | the last n entries have length min(n, total) |
| `History.PushKeepsLastN` | chat/chat.js:5-9 | pushing onto the last 100 messages gives the last 100 of the longer log |
| `RoomChat.JoinMessage` | game/chat.js:27-30 | a system message with no sender: the name-or-email (or "undefined") followed by " has joined the game." |
| `RoomChat.LeaveMessage` | game/chat.js:36-39 | a system message with no sender: the name-or-email (or "undefined") followed by " has left the game." |
| `RoomChat.UserMessage` | game/chat.js:45-54 | the text as sent, the local time, and a sender with the uid, email, name-or-email as display name, and picture |
| `RoomChat.JoinIsNotLeave` | game/chat.js:26-39 | a join announcement never has the text of a leave announcement |
| `RoomChat.JoinNameRecoverable` | game/chat.js:26-30 | equal join texts announce the same name-or-email |
| `RoomChat.SystemAndPlayerMessagesDiffer` | game/chat.js:26-52 | join and leave messages have no sender; a player's message carries the text verbatim and the name-or-email as display name |
| `RoomChat.Chat.constructor` | game/chat.js:4-7 | an empty history |
| `RoomChat.Chat.AddMessage` | game/chat.js:13-19 | the history becomes `Push` of the old one and stays the newest min(100, total) messages added |
| `RoomChat.Chat.AddJoinMessage` | game/chat.js:26-33 | adds the join announcement for the user |
| `RoomChat.Chat.AddLeaveMessage` | game/chat.js:35-42 | adds the leave announcement for the user |
| `RoomChat.Chat.SendMessage` | game/chat.js:44-57 | adds the player's message with sender uid, email, name-or-email and picture |
| `GlobalChat.ChatStore.constructor` | chat/chat.js:1-3 | an empty history |
| `GlobalChat.ChatStore.AddMessage` | chat/chat.js:5-10 | the history becomes `Push` of the old one and stays the newest min(100, total) messages added |

## Left out

- The socket server, HTTP bootstrap and authentication middleware (index.js, middleware/auth.js) are I/O and foreign calls. They are not part of this model.
- game/game.js is an older socket-driven table, superseded by `GameService`. It is not part of this model.
- `gameUpdate`, `setupSocketListeners`, `handleConnection`, `onDisconnect`, `updateChat`, `send`, and the per-socket hand emission in `GameService.dealCards` only broadcast or wire sockets. `send` is `addMessage` followed by a broadcast.
- The `setTimeout`/`setInterval` countdown and its chat messages are timers. Only the `startPending` flag and an explicit `StartGame` call are modelled.
- `console.log` output is not modelled.
- The `toLocaleTimeString()` timestamp of `sendMessage` is locale- and clock-dependent. It is a parameter.
- The uniform distribution of `Math.random` is not modelled. Any in-range sequence of draws is allowed.
- game/util/PlayerAction.js is not part of this model. The modelled code uses only `NONE`, so `PlayerAction` declares only that value.
- Betting, turn rotation, community cards and showdown do not exist in this source and are not modelled.
- `Util.DealRounds`: the nested pop loop runs on local copies of the deck and the hands, which are written back to the table at the end. The final state is the same, but intermediate states are not observable in place.
- Aliasing of `Player` objects is not modelled. Each seat is a value, and `smallBlindPlayer.money -= …` replaces the value at that seat. The source's players are distinct objects created by `addPlayer`, so the effect is the same.
- `Decks.Deck.Shuffle`: the draws are a parameter with `0 <= picks[i] <= i`, which is the range `Math.floor(Math.random() * (i + 1))` produces.
