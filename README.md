# Poker room server, modelled in Dafny

This project models the server of a small multiplayer Texas hold'em game
built on the rtag framework. It has four parts:

- `poker.dfy` (module `Poker`) and `game.dfy` (module `PokerGame`) model the
  rules engine `Impl` of `server/impl.ts`.
  - Creating a game, joining, starting the game, starting a round, call,
    raise and fold are each a function from the old game record to a
    `Result` and a new record.
  - The per-viewer projection `getUserState` is a function too.
  - `PokerGame.Game` is a class over the same fields. Its methods update the
    record in place with the source's loops: the `forEach` over the players,
    the `filter`s and the seat search of `maybeNextRound`. Each method is
    proved to leave exactly the record the matching `Poker` function gives.
- `methods.dfy` (module `Methods`) models `server/.rtag/methods.ts`:
  - the two-variant `Result` and its `modified`/`unmodified` constructors;
  - the `Context` handed to every command;
  - the `Methods<T>` contract.
- `store.dfy` (module `Store`) models the event-sourced room store of
  `server/.rtag/store.ts`.
  - The class `Store.Store` holds the module-level tables `states`,
    `changedStates`, `userResponses` and `subscriptions`.
  - It also holds the append-only log of each room and the updates sent so
    far.
  - It has `newState`, `handleUpdate`, `subscribeUser`, `unsubscribeUser`,
    `loadState` and the 100 ms tick.
  - Its invariant says every live room equals the replay of its log.
- `proxy.dfy` (module `Proxy`) models the connection table of
  `server/.rtag/proxy.ts`. The class `Proxy.Server` covers:
  - adding and deleting a client's sockets;
  - the store subscriptions made on a client's first socket and after its
    last;
  - the fan-out of a new user state to every socket of a client.

Chips, bets, pot and indices are unbounded integers.

Cards are opaque values and a deck is a sequence dealt from the front.

The deck order produced by `shuffleAll` is an input:
- a `shuffled` argument of `startGame` and `handleUpdate`;
- a map from log position to deck order for `loadState`.

## Model

| member | source | states |
|---|---|---|
| Methods.ModifiedResult | server/.rtag/methods.ts:18-20 | `Result.modified()` is the `modified` variant, which carries no error |
| Methods.UnmodifiedResult | server/.rtag/methods.ts:21-34 | `Result.unmodified(e)` is the `unmodified` variant carrying exactly `e` (absent when no error is given) |
| Methods.Seeded | server/.rtag/store.ts:66 | a fresh random stream remembers its seed and has drawn nothing |
| Poker.StandardDeck | server/impl.ts:41 | a new deck holds 52 distinct cards |
| Poker.NextStreet | server/impl.ts:227 | `roundStatus++` moves to the next status in declaration order |
| Poker.Draw | server/impl.ts:139-148 | drawing takes cards off the front: the drawn cards followed by the rest are the old deck, and n cards are drawn when the deck holds n |
| Poker.Deal | server/impl.ts:74-78 | every player keeps their seat with bet 0 and WAITING; when the deck holds two cards per player each is dealt two and the deck shrinks by that many |
| Poker.DealKeepsCards | server/impl.ts:74-78 | the hands dealt followed by the remaining deck are exactly the old deck: no card is lost or duplicated |
| Poker.ActiveIndex | server/impl.ts:90 | the active seat `activePlayerIndex % n` is a seat of the table |
| Poker.MakeBet | server/impl.ts:160-169 | the bettor's bet grows and chips shrink by the amount, the pot grows by it, the amount to call becomes the bettor's bet, the bettor is PLAYED, the turn index moves on by one, nothing else changes |
| Poker.MakeBetKeepsChips | server/impl.ts:160-169 | a bet moves chips from the bettor to the pot: chips plus pot are preserved |
| Poker.RaiseBet | server/impl.ts:150-158 | a raise bets as makeBet does and returns every other non-folded player to WAITING; folded players stay FOLDED |
| Poker.RaiseBetKeepsChips | server/impl.ts:150-158 | a raise preserves chips plus pot |
| Poker.UnfoldedIndices | server/impl.ts:189 | the remaining players are exactly the non-folded seats, in seat order |
| Poker.SeatSearch | server/impl.ts:208-214 | the search finds the first non-folded seat at or after the dealer, or reports that every seat is folded |
| Poker.MaybeNextRound | server/impl.ts:188-228 | seats and names stay in place whatever branch is taken |
| Poker.NextRoundKeepsHandsAndFolds | server/impl.ts:188-228 | every seat keeps its cards, and a seat is folded afterwards exactly when it was folded before |
| Poker.StreetOutcome | server/impl.ts:188-228 | when the round status is unchanged the state is unchanged; otherwise the round is DONE or the street advanced by one |
| Poker.EndStreet | server/impl.ts:208-227 | the end of a street keeps every seat in place |
| Poker.WinnerTakesPot | server/impl.ts:189-195 | with one non-folded player left, that player gains the pot, the hand is DONE, the pot is not emptied and nothing else changes |
| Poker.StreetContinues | server/impl.ts:197-199 | while a non-folded player has not played, maybeNextRound changes nothing |
| Poker.StreetEnds | server/impl.ts:215-227 | once every non-folded player has played, bets and amount to call are zeroed, non-folded players are WAITING, folded ones stay FOLDED, the status advances, pot, chips, dealer and blind stay |
| Poker.StreetEndsTurn | server/impl.ts:208-214 | the turn goes to the first non-folded seat at or after the dealer, and does not move when every seat is folded |
| Poker.StreetEndsReveal | server/impl.ts:222-226 | three cards come off the deck after the pre-flop, one after the flop and the turn, none otherwise, and revealed cards plus deck keep the cards |
| Poker.CreateGame | server/impl.ts:35-47 | a new game has only its creator, with 0 chips, no cards, bet 0 and WAITING, a full deck, status WAITING, no pot and nothing to call, dealer and turn index 0, no revealed cards and blind 0 |
| Poker.JoinGame | server/impl.ts:48-54 | a name already seated is rejected with "User already joined" and nothing changes; otherwise exactly one fresh player is appended, so names stay unique |
| Poker.SetChips | server/impl.ts:62 | every player gets the starting chips and nothing else about any seat changes |
| Poker.StartGame | server/impl.ts:55-66 | rejected with "Game already in-progress." unless WAITING and with "Must have 2 players to start." below two players, unchanged on rejection; on success every player holds the starting chips, the blind is the starting blind, the deck is the shuffled order and every other field is kept, the WAITING status included, so a second startGame is accepted and resets every player's chips |
| Poker.StartRound | server/impl.ts:67-85 | rejected with "Round in-progress." exactly when neither WAITING nor DONE, unchanged on rejection; on success the hand is PRE_FLOP, the dealer moves on one seat, the two blinds leave the turn three seats past the new dealer, the pot holds three times the blind, every seat holds the cards the deal gave it, the deck is what the deal left, the board and the blind are kept, and with two players or more the amount to call is twice the blind |
| Poker.NewHand | server/impl.ts:71-78 | the dealer moves on one seat, the turn goes to the seat after, the pot is emptied, the players and the deck are those of the deal, and nothing else changes |
| Poker.RaiseBetKeepsOthers | server/impl.ts:150-158 | a raise changes no seat but the bettor's, except that another seat may go back to WAITING |
| Poker.BlindsKeepHands | server/impl.ts:71-82 | after both blinds every seat still holds its dealt cards, the deck is what the deal left, the board and the blind are kept, and at two players or more the amount to call is twice the blind |
| Poker.StartRoundBlindSeats | server/impl.ts:71-82 | at two players or more the seat two past the old dealer bets the blind and the seat three past it twice the blind and has acted; each blind is paid from that seat's own chips; every other seat has bet nothing, keeps its chips and waits, and the small blind waits again unless it shares the big blind's name |
| Poker.StartRoundPostsBlinds | server/impl.ts:71-82 | starting a round takes exactly three times the blind from the players' chips |
| Poker.Call | server/impl.ts:86-98 | rejected with "Game is over" exactly when DONE and with "Not your turn" exactly when the active seat is someone else; unchanged on rejection; seats kept |
| Poker.CallBets | server/impl.ts:86-98 | a call that passes the turn checks is accepted and is makeBet of the amount owed followed by maybeNextRound |
| Poker.CallMatchesAmountToCall | server/impl.ts:86-98 | an accepted call that does not end the street leaves the caller's bet equal to the amount to call, takes the difference from their chips and adds it to the pot, marks them PLAYED and moves the turn on by one |
| Poker.CallEndsStreet | server/impl.ts:86-98 | an accepted call that changes the round status ends the round or advances the street by one |
| Poker.FoldedPlayerCallsBackIn | server/impl.ts:86-98 | as written: a folded player who holds the turn can call, and is no longer folded afterwards |
| Poker.FoldThenCall | server/impl.ts:112-125 | as written: at the flop with three players, the first folds and then calls, and the call is accepted and marks them PLAYED |
| Poker.TurnCheck | server/impl.ts:87-93 | a command is let through exactly when the round is not DONE and the user holds the turn; otherwise it is rejected with "Game is over" or "Not your turn" |
| Poker.SanitizePlayer | server/impl.ts:171-176 | only the cards can change; a player's cards are shown to themself and to everyone once the round is DONE and they have not folded, and are hidden otherwise |
| Poker.CreatePlayer | server/impl.ts:178-186 | a new player has the given name, 0 chips, no cards, bet 0 and status WAITING |
| Poker.Reveal | server/impl.ts:222-226 | revealed cards plus deck keep the cards; three come off after the pre-flop, one after the flop and the turn, none otherwise |
| Poker.Raise | server/impl.ts:99-111 | the same two rejections as call, unchanged on rejection; seats kept |
| Poker.RaiseBets | server/impl.ts:99-111 | a raise that passes the turn checks is accepted and is raiseBet of the requested amount followed by maybeNextRound |
| Poker.RaiseMatchesBet | server/impl.ts:99-111 | an accepted raise that does not end the street adds the amount to the raiser's bet, takes it from their chips into the pot, makes the new bet the amount to call, marks them PLAYED and moves the turn on by one |
| Poker.RaiseEndsStreet | server/impl.ts:99-111 | an accepted raise that changes the round status ends the round or advances the street by one |
| Poker.Fold | server/impl.ts:112-125 | the same two rejections as call, unchanged on rejection; seats kept |
| Poker.FoldActive | server/impl.ts:121 | marking the active player FOLDED keeps every seat's name and the street |
| Poker.FoldActiveFolds | server/impl.ts:121 | the active seat becomes FOLDED and nothing else in the game changes |
| Poker.FoldFolds | server/impl.ts:112-125 | after any accepted fold, whether or not it ends the street or the hand, the folder's seat is FOLDED and every seat keeps its cards |
| Poker.FoldKeepsTurn | server/impl.ts:112-125 | a fold that does not end the street leaves the turn index on the folded player |
| Poker.CommandsKeepNamesUnique | server/impl.ts:48-125 | no command renames, drops or duplicates a player, so names stay unique |
| Poker.SameSeatsKeepNamesUnique | server/impl.ts:48-125 | a command that keeps every seat's name keeps names unique |
| Poker.GetUserState | server/impl.ts:126-136 | the view has one entry per player, names the dealer and active seats modulo the table size, and copies pot, amount to call, status and revealed cards |
| Poker.ViewHidesOnlyCards | server/impl.ts:171-176 | a viewer sees every field of every player except the cards, which are shown exactly to their holder or, once DONE, for a player who did not fold |
| Poker.ViewsDependOnViewer | server/impl.ts:126-136 | two viewers of one game can be shown different states |
| PokerGame.Game.CreateGame | server/impl.ts:35-47 | the new record is Poker.CreateGame |
| PokerGame.Game.JoinGame | server/impl.ts:48-54 | the in-place update gives the result and record of Poker.JoinGame |
| PokerGame.Game.StartGame | server/impl.ts:55-66 | the in-place update gives the result and record of Poker.StartGame |
| PokerGame.Game.StartRound | server/impl.ts:67-85 | the in-place update gives the result and record of Poker.StartRound |
| PokerGame.Game.NewHand | server/impl.ts:71-78 | the in-place reset and deal give Poker.NewHand |
| PokerGame.Game.Call | server/impl.ts:86-98 | the in-place update gives the result and record of Poker.Call |
| PokerGame.Game.Raise | server/impl.ts:99-111 | the in-place update gives the result and record of Poker.Raise |
| PokerGame.Game.Fold | server/impl.ts:112-125 | the in-place update gives the result and record of Poker.Fold |
| PokerGame.Game.RaiseBet | server/impl.ts:150-158 | the in-place raise gives Poker.RaiseBet |
| PokerGame.Game.MakeBet | server/impl.ts:160-169 | the in-place bet gives Poker.MakeBet |
| PokerGame.Game.MaybeNextRound | server/impl.ts:188-228 | the in-place update gives Poker.MaybeNextRound |
| PokerGame.Game.EndStreet | server/impl.ts:208-227 | the in-place end of street gives Poker.EndStreet |
| PokerGame.Unfolded | server/impl.ts:189 | the filter loop yields exactly the non-folded seats |
| PokerGame.AnyToAct | server/impl.ts:197 | the loop answers whether a non-folded player has yet to play |
| PokerGame.DealHands | server/impl.ts:74-78 | the dealing loop gives Poker.Deal |
| PokerGame.FirstInHand | server/impl.ts:208-214 | the for loop finds the seat of Poker.SeatSearch |
| PokerGame.ClearAll | server/impl.ts:215-220 | the forEach gives Poker.ClearBets |
| Store.PokerMethodsRejectionsArePure | server/.rtag/store.ts:19 | the poker engine plugged into the store keeps the context's random stream on creation and leaves the state as it was whenever a command is rejected |
| Store.GetResult | server/.rtag/store.ts:121-138 | a command name is dispatched exactly when it is one of the six commands, and a rejected command leaves the state as it was |
| Store.GetResultRunsMethod | server/.rtag/store.ts:121-138 | the dispatch runs the matching field of the poker `Methods` instance |
| Store.ResponseOf | server/.rtag/store.ts:85 | a modified result records null, a rejected one its error or null |
| Store.RecordResponseKeepsOthers | server/.rtag/store.ts:86-94 | the response lands under room, user and message id; other message ids, users and rooms are kept and a repeated message id is overwritten |
| Store.CreateRoom | server/.rtag/store.ts:63-69 | a new room is Poker.CreateGame of its creator with a stream seeded from the seed |
| Store.ApplyRow | server/.rtag/store.ts:148-153 | a row naming one of the six commands gives the state getResult computes for it; a creation row or an unknown command leaves the room as it was; the random stream is kept |
| Store.ReplayFrom | server/.rtag/store.ts:148-153 | replaying rows from a starting room keeps that room's random stream |
| Store.Replay | server/.rtag/store.ts:140-156 | a log replays to a room exactly when it is non-empty and starts with a creation record |
| Store.ReplayFromExtended | server/.rtag/store.ts:148-153 | appending a row does not change the replay of the rows before it |
| Store.ReplayAppend | server/.rtag/store.ts:148-153 | replaying a log with one more row applies that row to the replay of the old log |
| Store.ReplayCreation | server/.rtag/store.ts:143-146 | a log holding only the creation record replays to the created room |
| Store.RunCommand | server/.rtag/store.ts:77-95 | a command on a known room keeps every room equal to its replay; a modified result marks the room changed and appends one command row, a rejected one appends nothing; the response is recorded |
| Store.Store.constructor | server/.rtag/store.ts:36-40 | the store starts with empty tables over the persisted logs |
| Store.Store.NewState | server/.rtag/store.ts:63-71 | the created room is stored and its log is exactly the one creation record; nothing else changes |
| Store.Store.HandleUpdate | server/.rtag/store.ts:72-96 | an unknown room or command name changes nothing; otherwise the room takes the command's state, a modified result marks it changed and appends one row, the response is recorded, and every room stays equal to its replay |
| Store.Store.LoadState | server/.rtag/store.ts:140-156 | the replay loop yields the replay of the room's log, and no room when the log is empty or does not start with a creation record |
| Store.Store.SubscribeUser | server/.rtag/store.ts:97-107 | an absent room is loaded from its log, the user joins its subscribers, and one update with no responses is sent to them; a room without a log makes the call fail with no change |
| Store.Store.UnsubscribeUser | server/.rtag/store.ts:108-118 | an unknown room is a no-op; with more than one subscriber the user is removed, otherwise the entry goes; a known room without an entry makes the call fail |
| Store.NoRepeatsAppend | server/.rtag/store.ts:45-58 | two batches for disjoint rooms, each without repeats, have none together |
| Store.NothingDueWhenIdle | server/.rtag/store.ts:59-60 | with no changed room and no response owed, a tick owes nothing |
| Store.RecordedResponseIsDue | server/.rtag/store.ts:52-58 | a response recorded for a subscribed user is delivered by the next tick |
| Store.RoomUpdates | server/.rtag/store.ts:47-57 | one room's updates go once each to the users owed one, with their responses or none |
| Store.ChangedRoomDue | server/.rtag/store.ts:45-51 | a changed room's updates are exactly the due ones of that room |
| Store.SendChangedRooms | server/.rtag/store.ts:45-51 | the changed-room loop completes exactly when every changed room has subscribers, sends every subscriber of each one update and drops those rooms' responses |
| Store.SendHolderRooms | server/.rtag/store.ts:52-58 | the response loop completes exactly when every room owing a response has subscribers, and sends only the subscribed users holding responses |
| Store.TickBatchDue | server/.rtag/store.ts:45-58 | the two loops together send exactly the due updates |
| Store.TickTables | server/.rtag/store.ts:44-61 | the tick completes exactly when it does not hit a room without subscribers; then it sends each due update once and leaves no response; otherwise it leaves the stalling entries in place |
| Store.Store.Tick | server/.rtag/store.ts:44-61 | as written: when it completes, every due update is sent once and both tables are cleared; when a room without subscribers is reached the tick throws, which is modelled as `completed == false` with the tables as the throw leaves them |
| Store.LastUnsubscribeStallsTick | server/.rtag/store.ts:44-61 | as written: after the only subscriber of a room with an owed response leaves, the next tick throws, and so does a second tick with nothing in between |
| Store.KeepSubscribed | server/.rtag/store.ts:45-47 | keeps exactly the changed rooms that have subscribers, without repeats |
| Store.DueOnlySubscribed | server/.rtag/store.ts:45-58 | restricting the tables to subscribed rooms changes nothing that is due |
| Store.FlushTables | server/.rtag/store.ts:44-61 | corrected tick: sends exactly the due updates, none twice |
| Store.Store.FlushTick | server/.rtag/store.ts:44-61 | corrected tick: exactly the due updates are sent once each, and both tables are empty afterwards |
| Proxy.LevelAppend | server/.rtag/proxy.ts:84-101 | one more store call changes a client's subscription level only for that client |
| Proxy.AlternatesAppend | server/.rtag/proxy.ts:84-101 | a call made from the state it switches from keeps the calls alternating |
| Proxy.AlternationKeepsLevel | server/.rtag/proxy.ts:84-101 | with alternating calls every client is subscribed at most once at any time |
| Proxy.SubscribeTracks | server/.rtag/proxy.ts:86-88 | creating a client's first entry together with one subscription keeps every client subscribed exactly while it has an entry |
| Proxy.UnsubscribeTracks | server/.rtag/proxy.ts:97-99 | deleting an emptied entry together with one unsubscription keeps every client subscribed exactly while it has an entry |
| Proxy.Server.constructor | server/.rtag/proxy.ts:26 | the table starts empty, with no call made and nothing sent |
| Proxy.Server.AddConnection | server/.rtag/proxy.ts:84-92 | a client's first socket creates its singleton entry and subscribes it once; a later socket only joins the set |
| Proxy.Server.DeleteConnection | server/.rtag/proxy.ts:94-101 | only the given socket leaves; an emptied entry is deleted and the client unsubscribed; a client without an entry makes the call fail with no change; an entry exists exactly while it has sockets, so subscriptions and unsubscriptions alternate |
| Proxy.Server.OnNewUserState | server/.rtag/proxy.ts:103-108 | the payload is sent once to every socket of the client and to no other; a client without an entry makes the call fail before any send |
| Proxy.JoinedServer.constructor | server/.rtag/proxy.ts:26 | as written: the table keyed by the joined string starts empty, with no call made |
| Proxy.JoinedServer.AddConnection | server/.rtag/proxy.ts:84-92 | as written: the socket joins the entry of the joined key, and Subscribe is sent exactly when that key was new |
| Proxy.JoinedServer.OnNewUserState | server/.rtag/proxy.ts:103-108 | as written: the payload goes to every socket under the joined key, and the call fails when the key has no entry |
| Proxy.CollidingClientsShareSockets | server/.rtag/proxy.ts:84-108 | as written: after user "c" joins room "ab" and user "bc" joins room "a", only "c" was subscribed and a state for "c" reaches both clients' sockets |
| Proxy.InTargets | server/.rtag/proxy.ts:105-107 | every send's socket is among the targets |
| Proxy.SendAll | server/.rtag/proxy.ts:105-107 | the loop sends the payload once to each socket of the set and to nothing else |
| Proxy.ClientKeysCollide | server/.rtag/proxy.ts:85 | as written: two different clients, user "c" in room "ab" and user "bc" in room "a", share the key "abc" |
| Proxy.ClientKeyFixedLength | server/.rtag/proxy.ts:85 | the joined key does identify clients when all room ids have one length |

## Left out

- I/O is not modelled: msgpack encoding, the HTTP and WebSocket servers, authentication, the Vite middleware and the 30-second ping timer. Requests and log records are datatypes and payloads are opaque bytes.
- The `setInterval` timer is not modelled: the tick is a method called by whoever drives the model.
- `Date.now()` and the `Math.random()` seed are parameters.
- `LogStore` file storage is not modelled: the log is an in-memory map from room id to its rows.
- The module hot reload through `dependency-tree` and `chokidar` is not modelled: the engine is fixed.
- The values drawn from `seedrandom` are not modelled. `Impl` never reads its `Context`, so a room's stream stays as seeded and only its seed is kept.
- `shuffleAll` of the `cards` library is not modelled: it uses the library's own randomness, so the shuffled order is an input. The store's invariant says each room equals the replay of its log under the orders the live run drew. Reloading a room whose game has started reproduces it only if the library shuffles the same way again, which the model does not claim.
- Poker.Draw: drawing from a deck with fewer cards than asked takes what is left. The library's behaviour on an exhausted deck is outside this model. Cards are opaque ordinals rather than the `rank + suit` strings. No hand returns its cards to the deck: only startGame replaces the deck, so hands dealt by repeated startRound calls without a new startGame run the deck down (Poker.StartRound states the deck left).
- Hand evaluation at the river is left out: it is commented out in the source. After the river the status simply advances.
- The order of `RoundStatus` (WAITING, PRE_FLOP, FLOP, TURN, RIVER, DONE) and the player statuses WAITING, PLAYED and FOLDED are taken from their use in `server/impl.ts`, since the server's type declarations are not part of this model.
- Nothing claims that chips stay non-negative; the source does not check.
- Store.Store.SubscribeUser: users are compared by value, while the source's `Set<UserData>` compares object identity; the same holds for Store.Store.UnsubscribeUser and the proxy's sockets.
- Store.Store.HandleUpdate: an in-place mutation of the shared state object is modelled as storing the new state value, so aliasing between tables is not captured.
- The `Methods` datatype also carries `startRound`, which `getResult` dispatches although the `Methods<T>` interface does not declare it.
- Poker.CreateGame: the creation arguments are ignored, as in the source.
- Chips, bets and pot are unbounded integers. Fractional or very large client-supplied amounts, and the rounding of JavaScript numbers, are not captured.
- Poker.Call: the turn is never moved past folded seats, so a folded player who holds the turn can call back in (Poker.FoldedPlayerCallsBackIn). No corrected turn rule is modelled, because the source does not say which seat should act next.
- Poker.StartGame: any order is accepted as `shuffled`; the model does not require it to be a permutation of the full deck, since `shuffleAll` is not modelled.
- Store.Store.NewState: requires a room id not yet in the log. The source would append a second creation record to an existing log; the model does not cover that case.
- Store.Replay: a log whose first row is not a creation record yields no room, while the source decodes whatever row 0 holds as creation arguments.
- Store.RecordResponse: its contract is stated by Store.RecordResponseKeepsOthers rather than on the function itself.
- A tick that throws is not followed further: in Node an exception escaping the `setInterval` callback ends the process by default, which the model does not represent; a later resubscription to the room would also end the stall.
- A failure of the source (a non-null assertion on a missing map entry, which throws) is modelled as an `ok` or `completed` result that is false, with no change where the source fails before changing anything.

## Findings

| source | as written | input that shows it | evidently intended | confidence | as-written member | corrected member |
|---|---|---|---|---|---|---|
| server/.rtag/store.ts:44-61 | the tick reads `subscriptions.get(stateId)!` for every changed room and every room owing a response; a room without a subscription entry throws before the tables are cleared, and the throw escapes the timer callback | the only subscriber of a room sends a rejected command and disconnects before the next tick | rooms without subscribers are skipped and both tables are cleared | not executed | Store.LastUnsubscribeStallsTick | Store.Store.FlushTick |
| server/.rtag/proxy.ts:84-108 | the client key is the room id and user id joined into one string | user "c" in room "ab" and user "bc" in room "a" both map to "abc": the second is never subscribed and receives the first one's updates | one entry per (room, user) pair | not executed | Proxy.CollidingClientsShareSockets | Proxy.Server.AddConnection |
