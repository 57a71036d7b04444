/** The event-sourced room store of server/.rtag/store.ts, hosting the poker
    game of server/impl.ts: the rooms held in memory, the per-room command
    log, the rooms changed since the last tick, the ledger of responses owed
    to users, and the subscription table. */
module Store {
  import opened Methods
  import opened Poker

  type StateId = string
  type MsgId = string
  type UserId = string

  /** A decoded client message: the command's name, the client's message id
      and the command's arguments. */
  datatype UpdateRequest = UpdateRequest(command: string, msgId: MsgId, args: Args)

  /** A decoded log record: the creation of a room, or a command that
      modified it. */
  datatype Record =
    | CreationRecord(seed: string, user: User, args: Args)
    | CommandRecord(command: string, user: User, args: Args)

  /** One row of a room's log: when the record was written, and the record. */
  datatype Row = Row(time: int, record: Record)

  /** A room in memory: the game state and the random stream attached to it.
      The poker game draws nothing from the stream, so it stays as seeded. */
  datatype Room = Room(state: State, rng: Rng)

  /** The order the card library's `shuffleAll` left the deck in, by position
      of the row in the room's log. The library shuffles with the process's
      own random source, not the room's stream, so these orders are inputs
      of the model and are not recorded in the log. */
  type Shuffles = map<nat, seq<Card>>

  /** What a user is told about one message: null (None) or an error. */
  type Response = Option<string>

  /** The responses owed, by room, then by user id, then by message id. */
  type Ledger = map<StateId, map<UserId, map<MsgId, Response>>>

  /** What `sendUpdate` hands to the connection layer: the room, the
      recipient, the recipient's view of the room and its responses. */
  datatype Update = Update(stateId: StateId, user: User, state: UserState, responses: map<MsgId, Response>)

  /** The command names `getResult` dispatches. */
  const Commands: set<string> := {"joinGame", "startGame", "startRound", "call", "raise", "fold"}

  // ---------------------------------------------------------------------
  // The game the store hosts

  /** `impl` as a value of the Methods interface; `shuffled` is the order the
      deck is shuffled into by a `startGame` that succeeds. Impl reads
      nothing from the context and leaves the stream as it was. */
  function PokerMethods(shuffled: seq<Card>): (m: Methods<State, Args, UserState>)
  {
    Methods(
      (user, ctx: Context, args) => Created(CreateGame(user), ctx.rng),
      (s, user, ctx: Context, args) => var r := JoinGame(s, user); Outcome(r.0, r.1, ctx.rng),
      (s, user, ctx: Context, args: Args) => var r := StartGame(s, args, shuffled); Outcome(r.0, r.1, ctx.rng),
      (s, user, ctx: Context, args) => var r := StartRound(s); Outcome(r.0, r.1, ctx.rng),
      (s, user, ctx: Context, args) => var r := Call(s, user); Outcome(r.0, r.1, ctx.rng),
      (s, user, ctx: Context, args: Args) => var r := Raise(s, user, args); Outcome(r.0, r.1, ctx.rng),
      (s, user, ctx: Context, args) => var r := Fold(s, user); Outcome(r.0, r.1, ctx.rng),
      (s, user) => GetUserState(s, user))
  }

  /** The game's methods keep the contract the store relies on: creation
      keeps the context's stream, and every command that rejects leaves the
      state as it was. */
  lemma PokerMethodsRejectionsArePure(shuffled: seq<Card>)
    ensures var m := PokerMethods(shuffled);
      forall user, ctx, args :: m.createGame(user, ctx, args).rng == ctx.rng
    ensures var m := PokerMethods(shuffled);
      forall s, user, ctx, args :: m.joinGame(s, user, ctx, args).result.Unmodified? ==> m.joinGame(s, user, ctx, args).state == s
    ensures var m := PokerMethods(shuffled);
      forall s, user, ctx, args :: m.startGame(s, user, ctx, args).result.Unmodified? ==> m.startGame(s, user, ctx, args).state == s
    ensures var m := PokerMethods(shuffled);
      forall s, user, ctx, args :: m.startRound(s, user, ctx, args).result.Unmodified? ==> m.startRound(s, user, ctx, args).state == s
    ensures var m := PokerMethods(shuffled);
      forall s, user, ctx, args :: m.call(s, user, ctx, args).result.Unmodified? ==> m.call(s, user, ctx, args).state == s
    ensures var m := PokerMethods(shuffled);
      forall s, user, ctx, args :: m.raise(s, user, ctx, args).result.Unmodified? ==> m.raise(s, user, ctx, args).state == s
    ensures var m := PokerMethods(shuffled);
      forall s, user, ctx, args :: m.fold(s, user, ctx, args).result.Unmodified? ==> m.fold(s, user, ctx, args).state == s
  {
    var m := PokerMethods(shuffled);
    forall s, user, ctx, args
      ensures m.joinGame(s, user, ctx, args).result.Unmodified? ==> m.joinGame(s, user, ctx, args).state == s
      ensures m.startGame(s, user, ctx, args).result.Unmodified? ==> m.startGame(s, user, ctx, args).state == s
      ensures m.startRound(s, user, ctx, args).result.Unmodified? ==> m.startRound(s, user, ctx, args).state == s
      ensures m.call(s, user, ctx, args).result.Unmodified? ==> m.call(s, user, ctx, args).state == s
      ensures m.raise(s, user, ctx, args).result.Unmodified? ==> m.raise(s, user, ctx, args).state == s
      ensures m.fold(s, user, ctx, args).result.Unmodified? ==> m.fold(s, user, ctx, args).state == s
    {
      var j := JoinGame(s, user);
      assert m.joinGame(s, user, ctx, args) == Outcome(j.0, j.1, ctx.rng);
      var g := StartGame(s, args, shuffled);
      assert m.startGame(s, user, ctx, args) == Outcome(g.0, g.1, ctx.rng);
      var d := StartRound(s);
      assert m.startRound(s, user, ctx, args) == Outcome(d.0, d.1, ctx.rng);
      var c := Call(s, user);
      assert m.call(s, user, ctx, args) == Outcome(c.0, c.1, ctx.rng);
      var r := Raise(s, user, args);
      assert m.raise(s, user, ctx, args) == Outcome(r.0, r.1, ctx.rng);
      var f := Fold(s, user);
      assert m.fold(s, user, ctx, args) == Outcome(f.0, f.1, ctx.rng);
    }
  }

  // ---------------------------------------------------------------------
  // getResult and the response it yields

  /** `getResult`: dispatch a command by name to the game; an unknown name
      yields nothing (undefined). A rejected command leaves the state as it
      was, which is what makes logging only modified commands enough. */
  function GetResult(state: State, user: User, command: string, args: Args, shuffled: seq<Card>)
    : (r: Option<(Result, State)>)
    ensures r.Some? <==> command in Commands
    ensures r.Some? && r.value.0.Unmodified? ==> r.value.1 == state
  {
    if command == "joinGame" then Some(JoinGame(state, user))
    else if command == "startGame" then Some(StartGame(state, args, shuffled))
    else if command == "startRound" then Some(StartRound(state))
    else if command == "call" then Some(Call(state, user))
    else if command == "raise" then Some(Raise(state, user, args))
    else if command == "fold" then Some(Fold(state, user))
    else None
  }

  /** Dispatching by name runs the method of that name of the game's Methods
      value, on the room's context. */
  lemma GetResultRunsMethod(state: State, user: User, command: string, ctx: Context, args: Args, shuffled: seq<Card>)
    requires command in Commands
    ensures var m := PokerMethods(shuffled);
      var o :=
        if command == "joinGame" then m.joinGame(state, user, ctx, args)
        else if command == "startGame" then m.startGame(state, user, ctx, args)
        else if command == "startRound" then m.startRound(state, user, ctx, args)
        else if command == "call" then m.call(state, user, ctx, args)
        else if command == "raise" then m.raise(state, user, ctx, args)
        else m.fold(state, user, ctx, args);
      GetResult(state, user, command, args, shuffled) == Some((o.result, o.state)) && o.rng == ctx.rng
  {
  }

  /** The response recorded for a result: null when it modified the state,
      otherwise its error, or null when it gave none. */
  function ResponseOf(r: Result): (resp: Response)
    ensures resp.None? <==> r.Modified? || r.error.None?
    ensures r.Unmodified? ==> resp == r.error
  {
    match r
    case Modified => None
    case Unmodified(error) => error
  }

  /** The ledger with `resp` recorded for message `msg` of user `uid` in
      room `id`. */
  function RecordResponse(ledger: Ledger, id: StateId, uid: UserId, msg: MsgId, resp: Response): Ledger
  {
    if id !in ledger then ledger[id := map[uid := map[msg := resp]]]
    else if uid !in ledger[id] then ledger[id := ledger[id][uid := map[msg := resp]]]
    else ledger[id := ledger[id][uid := ledger[id][uid][msg := resp]]]
  }

  /** Recording a response creates or overwrites the entry for that message
      and keeps every other entry, of that user, of that room and of the
      other rooms. */
  lemma RecordResponseKeepsOthers(ledger: Ledger, id: StateId, uid: UserId, msg: MsgId, resp: Response)
    ensures var l := RecordResponse(ledger, id, uid, msg, resp);
      && id in l && uid in l[id] && msg in l[id][uid] && l[id][uid][msg] == resp
      && l.Keys == ledger.Keys + {id}
      && (forall other :: other in ledger && other != id ==> l[other] == ledger[other])
      && (id in ledger ==> l[id].Keys == ledger[id].Keys + {uid})
      && (id in ledger ==> forall u :: u in ledger[id] && u != uid ==> l[id][u] == ledger[id][u])
      && l[id][uid].Keys == Held(ledger, id, uid).Keys + {msg}
      && forall m :: m in Held(ledger, id, uid) && m != msg ==> l[id][uid][m] == Held(ledger, id, uid)[m]
  {
  }

  /** The responses held for user `uid` in room `id`, or none. */
  function Held(ledger: Ledger, id: StateId, uid: UserId): map<MsgId, Response>
  {
    if id in ledger && uid in ledger[id] then ledger[id][uid] else map[]
  }

  // ---------------------------------------------------------------------
  // Replay of a room's log (loadState)

  /** The room that a creation record creates: a stream seeded from the
      recorded seed, and the game its creator created. */
  function CreateRoom(seed: string, user: User, args: Args): (r: Room)
    ensures r.state == CreateGame(user) && r.rng == Seeded(seed)
  {
    Room(CreateGame(user), Seeded(seed))
  }

  /** One logged row replayed on a room, with the deck order the shuffle
      gives this time. A creation record, decoded as a command, has no
      method name and so changes nothing. */
  function ApplyRow(room: Room, row: Row, shuffled: seq<Card>): (r: Room)
    ensures r.rng == room.rng
    ensures row.record.CreationRecord? ==> r == room
    ensures row.record.CommandRecord? && row.record.command !in Commands ==> r == room
    ensures row.record.CommandRecord? && row.record.command in Commands ==>
      r.state == GetResult(room.state, row.record.user, row.record.command, row.record.args, shuffled).value.1
  {
    match row.record
    case CreationRecord(_, _, _) => room
    case CommandRecord(command, user, args) =>
      match GetResult(room.state, user, command, args, shuffled)
      case None => room
      case Some(o) => Room(o.1, room.rng)
  }

  /** The deck order for the row at position `i`, or none. */
  function DeckAt(shuffles: Shuffles, i: nat): seq<Card>
  {
    if i in shuffles then shuffles[i] else []
  }

  /** The rows at positions 1 to n - 1 replayed in order on `start`. */
  function ReplayFrom(start: Room, rows: seq<Row>, shuffles: Shuffles, n: nat): (r: Room)
    requires 1 <= n <= |rows|
    ensures r.rng == start.rng
    decreases n
  {
    if n == 1 then start
    else ApplyRow(ReplayFrom(start, rows, shuffles, n - 1), rows[n - 1], DeckAt(shuffles, n - 1))
  }

  /** `loadState` as a value: a log whose first row creates the room,
      replayed row by row from there; nothing for an empty log. */
  function Replay(rows: seq<Row>, shuffles: Shuffles): (r: Option<Room>)
    ensures r.Some? <==> |rows| > 0 && rows[0].record.CreationRecord?
  {
    if |rows| == 0 || !rows[0].record.CreationRecord? then None
    else
      var c := rows[0].record;
      Some(ReplayFrom(CreateRoom(c.seed, c.user, c.args), rows, shuffles, |rows|))
  }

  /** Appending a row (and the deck order for it) does not change how the
      earlier rows replay. */
  lemma {:induction false} ReplayFromExtended(start: Room, rows: seq<Row>, shuffles: Shuffles, row: Row, deck: seq<Card>, n: nat)
    requires 1 <= n <= |rows|
    ensures ReplayFrom(start, rows + [row], shuffles[|rows| := deck], n) == ReplayFrom(start, rows, shuffles, n)
    decreases n
  {
    if n > 1 {
      ReplayFromExtended(start, rows, shuffles, row, deck, n - 1);
      assert (rows + [row])[n - 1] == rows[n - 1];
      assert DeckAt(shuffles[|rows| := deck], n - 1) == DeckAt(shuffles, n - 1);
    }
  }

  /** Appending a row to a log replays it after the rest. */
  lemma ReplayAppend(rows: seq<Row>, shuffles: Shuffles, row: Row, deck: seq<Card>)
    requires Replay(rows, shuffles).Some?
    ensures Replay(rows + [row], shuffles[|rows| := deck]) == Some(ApplyRow(Replay(rows, shuffles).value, row, deck))
  {
    var c := rows[0].record;
    var start := CreateRoom(c.seed, c.user, c.args);
    assert (rows + [row])[0] == rows[0];
    ReplayFromExtended(start, rows, shuffles, row, deck, |rows|);
    assert (rows + [row])[|rows|] == row;
  }

  /** A single creation row replays to the room it creates. */
  lemma ReplayCreation(time: int, seed: string, user: User, args: Args, shuffles: Shuffles)
    ensures Replay([Row(time, CreationRecord(seed, user, args))], shuffles) == Some(CreateRoom(seed, user, args))
  {
  }

  // ---------------------------------------------------------------------
  // The tick

  /** No room and recipient occurs twice in a batch of updates. */
  ghost predicate NoRepeats(batch: seq<Update>)
  {
    forall i, j :: 0 <= i < j < |batch| ==>
      batch[i].stateId != batch[j].stateId || batch[i].user != batch[j].user
  }

  /** Some room with a change or with responses owed has no subscription
      entry: the tick as written stops with an error when it reaches it. */
  ghost predicate Stalls(changed: seq<StateId>, ledger: Ledger, subs: map<StateId, set<User>>)
  {
    (exists i :: 0 <= i < |changed| && changed[i] !in subs) || (exists id :: id in ledger && id !in subs)
  }

  /** The updates a complete tick sends: every subscriber of a changed room,
      and every subscriber of another room who is owed responses, gets the
      room seen as that user, with the responses held for them (none, if
      nothing is held). */
  ghost predicate Due(states: map<StateId, Room>, changed: seq<StateId>,
      ledger: Ledger, subs: map<StateId, set<User>>, u: Update)
  {
    && u.stateId in states && u.stateId in subs && u.user in subs[u.stateId]
    && u.state == GetUserState(states[u.stateId].state, u.user)
    && u.responses == Held(ledger, u.stateId, u.user.id)
    && (u.stateId in changed || (u.stateId in ledger && u.user.id in ledger[u.stateId]))
  }

  lemma NoRepeatsAppend(a: seq<Update>, b: seq<Update>)
    requires NoRepeats(a) && NoRepeats(b)
    requires forall i, j :: 0 <= i < |a| && 0 <= j < |b| ==> a[i].stateId != b[j].stateId
    ensures NoRepeats(a + b)
  {
  }

  /** Rooms with neither a change nor a response owed produce no update. */
  lemma NothingDueWhenIdle(states: map<StateId, Room>,
      subs: map<StateId, set<User>>, u: Update)
    ensures !Due(states, [], map[], subs, u)
  {
  }

  /** A response recorded for a subscriber is in the update that subscriber
      gets at the next complete tick. */
  lemma RecordedResponseIsDue(states: map<StateId, Room>, changed: seq<StateId>,
      ledger: Ledger, subs: map<StateId, set<User>>,
                                       id: StateId, user: User, msg: MsgId, resp: Response)
    requires id in states && id in subs && user in subs[id]
    ensures var l := RecordResponse(ledger, id, user.id, msg, resp);
      var u := Update(id, user, GetUserState(states[id].state, user), Held(l, id, user.id));
      Due(states, changed, l, subs, u) && u.responses[msg] == resp
  {
    RecordResponseKeepsOthers(ledger, id, user.id, msg, resp);
  }

  /** The responses held in room `id`, by user id, or none. */
  function HeldRoom(ledger: Ledger, id: StateId): map<UserId, map<MsgId, Response>>
  {
    if id in ledger then ledger[id] else map[]
  }

  /** The ledger without the rooms listed in `ids`. */
  function Without(ledger: Ledger, ids: seq<StateId>): (l: Ledger)
    ensures forall id :: id in l <==> id in ledger && id !in ids
    ensures forall id :: id in l ==> l[id] == ledger[id]
  {
    map id | id in ledger && id !in ids :: ledger[id]
  }

  /** An update one room sends in a tick: to a subscriber (to one holding
      responses, unless `everyone`), the room seen as that subscriber, with
      the responses held for them or none. */
  ghost predicate RoomDue(id: StateId, state: State, users: set<User>,
      held: map<UserId, map<MsgId, Response>>, everyone: bool, u: Update)
  {
    && u.stateId == id && u.user in users
    && u.state == GetUserState(state, u.user)
    && (everyone || u.user.id in held)
    && u.responses == (if u.user.id in held then held[u.user.id] else map[])
  }

  /** An update the tick's second phase sends: to a subscriber of a room
      owed responses who holds some, with exactly those. */
  ghost predicate HolderDue(states: map<StateId, Room>, ledger: Ledger,
      subs: map<StateId, set<User>>, u: Update)
  {
    && u.stateId in ledger && u.stateId in states && u.stateId in subs
    && RoomDue(u.stateId, states[u.stateId].state, subs[u.stateId], ledger[u.stateId], false, u)
  }

  /** The updates for one room: every user of `users` (or, when `everyone`
      is false, every one holding responses) gets the room as they see it,
      once. */
  method RoomUpdates(id: StateId, state: State, users: set<User>,
      held: map<UserId, map<MsgId, Response>>, everyone: bool)
    returns (batch: seq<Update>)
    ensures NoRepeats(batch)
    ensures forall k :: 0 <= k < |batch| ==> batch[k].stateId == id
    ensures forall u :: u in batch <==> RoomDue(id, state, users, held, everyone, u)
  {
    batch := [];
    var left := users;
    ghost var visited: set<User> := {};
    while left != {}
      invariant left + visited == users && left !! visited
      invariant NoRepeats(batch)
      invariant forall k :: 0 <= k < |batch| ==> batch[k].stateId == id && batch[k].user in visited
      invariant forall u :: u in batch <==>
        RoomDue(id, state, users, held, everyone, u) && u.user in visited
      decreases left
    {
      var user :| user in left;
      if everyone || user.id in held {
        var responses := if user.id in held then held[user.id] else map[];
        var x := Update(id, user, GetUserState(state, user), responses);
        assert forall u :: u in batch + [x] <==> u in batch || u == x;
        batch := batch + [x];
      }
      left := left - {user};
      visited := visited + {user};
    }
  }

  /** The first phase's updates for a changed room are exactly the ones due
      for it. */
  lemma ChangedRoomDue(states: map<StateId, Room>, changed: seq<StateId>,
      ledger: Ledger, subs: map<StateId, set<User>>, id: StateId, batch: seq<Update>)
    requires id in states && id in subs && id in changed
    requires forall u :: u in batch <==>
      RoomDue(id, states[id].state, subs[id], HeldRoom(ledger, id), true, u)
    ensures forall u :: u in batch <==> Due(states, changed, ledger, subs, u) && u.stateId == id
  {
  }

  /** The tick's first phase: each changed room, in order, is sent to every
      subscriber with the responses held for them, and its responses are
      dropped. It stops at the first changed room without a subscription
      entry, with what it sent and dropped until then. */
  method SendChangedRooms(states: map<StateId, Room>, changed: seq<StateId>,
      ledger: Ledger, subs: map<StateId, set<User>>)
    returns (completed: bool, batch: seq<Update>, rest: Ledger)
    requires forall i :: 0 <= i < |changed| ==> changed[i] in states
    requires forall i, j :: 0 <= i < j < |changed| ==> changed[i] != changed[j]
    ensures completed <==> forall i :: 0 <= i < |changed| ==> changed[i] in subs
    ensures rest.Keys <= ledger.Keys && forall id :: id in rest ==> rest[id] == ledger[id]
    ensures completed ==>
      && rest == Without(ledger, changed)
      && NoRepeats(batch)
      && (forall k :: 0 <= k < |batch| ==> batch[k].stateId in changed)
      && forall u :: u in batch <==> Due(states, changed, ledger, subs, u) && u.stateId in changed
  {
    batch := [];
    rest := ledger;
    var i := 0;
    while i < |changed|
      invariant 0 <= i <= |changed|
      invariant forall k :: 0 <= k < i ==> changed[k] in subs
      invariant rest == Without(ledger, changed[..i])
      invariant NoRepeats(batch)
      invariant forall k :: 0 <= k < |batch| ==> batch[k].stateId in changed[..i]
      invariant forall u :: u in batch <==> Due(states, changed, ledger, subs, u) && u.stateId in changed[..i]
    {
      var id := changed[i];
      if id !in subs {
        return false, batch, rest;
      }
      var held := if id in rest then rest[id] else map[];
      assert id !in changed[..i];
      assert held == HeldRoom(ledger, id);
      var more := RoomUpdates(id, states[id].state, subs[id], held, true);
      ChangedRoomDue(states, changed, ledger, subs, id, more);
      NoRepeatsAppend(batch, more);
      assert changed[..i + 1] == changed[..i] + [id];
      forall u: Update
        ensures u in batch + more <==> Due(states, changed, ledger, subs, u) && u.stateId in changed[..i + 1]
      {
        assert u in batch + more <==> u in batch || u in more;
        assert u.stateId in changed[..i + 1] <==> u.stateId in changed[..i] || u.stateId == id;
      }
      batch := batch + more;
      rest := rest - {id};
      i := i + 1;
    }
    assert changed[..i] == changed;
    completed := true;
  }

  /** The tick's second phase: for each room owed responses, every
      subscriber holding some is sent them. It stops at a room without a
      subscription entry. */
  method SendHolderRooms(states: map<StateId, Room>, ledger: Ledger,
      subs: map<StateId, set<User>>)
    returns (completed: bool, batch: seq<Update>)
    requires ledger.Keys <= states.Keys
    ensures completed <==> ledger.Keys <= subs.Keys
    ensures completed ==>
      && NoRepeats(batch)
      && (forall k :: 0 <= k < |batch| ==> batch[k].stateId in ledger)
      && forall u :: u in batch <==> HolderDue(states, ledger, subs, u)
  {
    batch := [];
    var pending := ledger.Keys;
    ghost var done: set<StateId> := {};
    while pending != {}
      invariant pending + done == ledger.Keys && pending !! done
      invariant done <= subs.Keys
      invariant NoRepeats(batch)
      invariant forall k :: 0 <= k < |batch| ==> batch[k].stateId in done
      invariant forall u :: u in batch <==> HolderDue(states, ledger, subs, u) && u.stateId in done
      decreases pending
    {
      var id :| id in pending;
      if id !in subs {
        return false, batch;
      }
      var more := RoomUpdates(id, states[id].state, subs[id], ledger[id], false);
      assert forall u :: u in more <==> HolderDue(states, ledger, subs, u) && u.stateId == id;
      NoRepeatsAppend(batch, more);
      forall u
        ensures u in batch + more <==> HolderDue(states, ledger, subs, u) && u.stateId in done + {id}
      {
        assert u in batch + more <==> u in batch || u in more;
      }
      batch := batch + more;
      pending := pending - {id};
      done := done + {id};
    }
    completed := true;
  }

  /** The two phases together send exactly the updates due. */
  lemma TickBatchDue(states: map<StateId, Room>, changed: seq<StateId>,
      ledger: Ledger, subs: map<StateId, set<User>>, first: seq<Update>, second: seq<Update>)
    requires forall u :: u in first <==> Due(states, changed, ledger, subs, u) && u.stateId in changed
    requires forall u :: u in second <==> HolderDue(states, Without(ledger, changed), subs, u)
    ensures forall u :: u in first + second <==> Due(states, changed, ledger, subs, u)
  {
  }

  /** The tick's sends on the tables, as written: the changed rooms'
      updates, then the other rooms' updates. It stops at the first room
      without a subscription entry (completed is false), having dropped
      the responses of the changed rooms it got through. */
  method TickTables(states: map<StateId, Room>, changed: seq<StateId>, ledger: Ledger, subs: map<StateId, set<User>>)
    returns (completed: bool, batch: seq<Update>, rest: Ledger)
    requires forall i :: 0 <= i < |changed| ==> changed[i] in states
    requires forall i, j :: 0 <= i < j < |changed| ==> changed[i] != changed[j]
    requires ledger.Keys <= states.Keys
    ensures completed <==> !Stalls(changed, ledger, subs)
    ensures rest.Keys <= ledger.Keys
    ensures completed ==>
      && rest == map[]
      && NoRepeats(batch)
      && forall u :: u in batch <==> Due(states, changed, ledger, subs, u)
    ensures !completed ==> Stalls(changed, rest, subs)
  {
    var first, firstBatch, rest1 := SendChangedRooms(states, changed, ledger, subs);
    rest := rest1;
    batch := firstBatch;
    if !first {
      return false, batch, rest;
    }
    var second, secondBatch := SendHolderRooms(states, rest, subs);
    batch := batch + secondBatch;
    if !second {
      ghost var id :| id in rest && id !in subs;
      assert id in ledger;
      return false, batch, rest;
    }
    NoRepeatsAppend(firstBatch, secondBatch);
    TickBatchDue(states, changed, ledger, subs, firstBatch, secondBatch);
    completed := true;
    rest := map[];
  }

  /** The ids of `changed` that have a subscription entry, in order. */
  function KeepSubscribed(changed: seq<StateId>, subs: map<StateId, set<User>>): (r: seq<StateId>)
    ensures forall id :: id in r <==> id in changed && id in subs
    ensures (forall i, j :: 0 <= i < j < |changed| ==> changed[i] != changed[j]) ==>
      forall i, j :: 0 <= i < j < |r| ==> r[i] != r[j]
    decreases |changed|
  {
    if changed == [] then []
    else
      var n := |changed| - 1;
      var rest := KeepSubscribed(changed[..n], subs);
      assert forall i :: 0 <= i < n ==> changed[..n][i] == changed[i];
      if changed[n] in subs then rest + [changed[n]] else rest
  }

  /** The ledger's rooms that have a subscription entry. */
  function OnlySubscribed(ledger: Ledger, subs: map<StateId, set<User>>): (l: Ledger)
    ensures l.Keys == ledger.Keys * subs.Keys
    ensures forall id :: id in l ==> l[id] == ledger[id]
  {
    map id | id in ledger && id in subs :: ledger[id]
  }

  /** Rooms without a subscription entry have nobody to send to: leaving
      them out of the tables changes no update that is due. */
  lemma DueOnlySubscribed(states: map<StateId, Room>, changed: seq<StateId>, ledger: Ledger,
                          subs: map<StateId, set<User>>, u: Update)
    ensures Due(states, changed, ledger, subs, u) <==>
      Due(states, KeepSubscribed(changed, subs), OnlySubscribed(ledger, subs), subs, u)
  {
  }

  /** The tick's sends with a room nobody is subscribed to taken to have
      nobody to send to: it always completes, with exactly the updates due. */
  method FlushTables(states: map<StateId, Room>, changed: seq<StateId>, ledger: Ledger, subs: map<StateId, set<User>>)
    returns (batch: seq<Update>)
    requires forall i :: 0 <= i < |changed| ==> changed[i] in states
    requires forall i, j :: 0 <= i < j < |changed| ==> changed[i] != changed[j]
    requires ledger.Keys <= states.Keys
    ensures NoRepeats(batch)
    ensures forall u :: u in batch <==> Due(states, changed, ledger, subs, u)
  {
    var kept := KeepSubscribed(changed, subs);
    var owed := OnlySubscribed(ledger, subs);
    assert forall i :: 0 <= i < |kept| ==> kept[i] in kept;
    var completed, rest;
    completed, batch, rest := TickTables(states, kept, owed, subs);
    assert !Stalls(kept, owed, subs);
    forall u
      ensures u in batch <==> Due(states, changed, ledger, subs, u)
    {
      DueOnlySubscribed(states, changed, ledger, subs, u);
    }
  }

  lemma SubsetSize<T>(a: set<T>, b: set<T>)
    requires a <= b
    ensures |a| <= |b|
  {
    assert b == a + (b - a);
  }

  // ---------------------------------------------------------------------
  // The store

  /** The store's invariant, on its tables: every room in memory is the
      replay of its log (with the deck orders its live run drew), the
      changed rooms are distinct rooms in memory, and every table is about
      rooms in memory, each subscribed room having at least one subscriber. */
  ghost predicate Consistent(states: map<StateId, Room>, changed: seq<StateId>, ledger: Ledger,
                             subs: map<StateId, set<User>>, log: map<StateId, seq<Row>>,
                             drawn: map<StateId, Shuffles>)
  {
    && (forall id :: id in states ==> id in log && id in drawn)
    && (forall id {:trigger Replay(log[id], drawn[id])} :: id in states ==> Replay(log[id], drawn[id]) == Some(states[id]))
    && (forall i, j :: 0 <= i < j < |changed| ==> changed[i] != changed[j])
    && (forall i :: 0 <= i < |changed| ==> changed[i] in states)
    && ledger.Keys <= states.Keys
    && subs.Keys <= states.Keys
    && (forall id :: id in subs ==> subs[id] != {})
  }

  /** The tables after command `req` of `user` ran on room `id` with result
      `r` and new state `s`: the room takes the new state (the source
      mutates the state in place whatever the result); a modified result
      marks the room changed and logs the command; any result records a
      response for the message. */
  ghost predicate Handled(states: map<StateId, Room>, changed: seq<StateId>, ledger: Ledger,
                          log: map<StateId, seq<Row>>, id: StateId, user: User, req: UpdateRequest,
                          time: int, r: Result, s: State,
                          states': map<StateId, Room>, changed': seq<StateId>, ledger': Ledger,
                          log': map<StateId, seq<Row>>)
    requires id in states && id in log
  {
    && states' == states[id := states[id].(state := s)]
    && ledger' == RecordResponse(ledger, id, user.id, req.msgId, ResponseOf(r))
    && (r.Modified? ==>
          && log' == log[id := log[id] + [Row(time, CommandRecord(req.command, user, req.args))]]
          && (forall x :: x in changed' <==> x in changed || x == id))
    && (r.Unmodified? ==> log' == log && changed' == changed)
  }

  /** The body of `handleUpdate` once the room and the command are known:
      the tables it leaves keep the invariant, and a rejected command
      changes only the ledger. */
  method RunCommand(states: map<StateId, Room>, changed: seq<StateId>, ledger: Ledger,
                    subs: map<StateId, set<User>>, log: map<StateId, seq<Row>>,
                    ghost drawn: map<StateId, Shuffles>,
                    id: StateId, user: User, req: UpdateRequest, time: int, shuffled: seq<Card>)
    returns (states': map<StateId, Room>, changed': seq<StateId>, ledger': Ledger,
             log': map<StateId, seq<Row>>, ghost drawn': map<StateId, Shuffles>)
    requires Consistent(states, changed, ledger, subs, log, drawn)
    requires id in states && req.command in Commands
    ensures Consistent(states', changed', ledger', subs, log', drawn')
    ensures var o := GetResult(states[id].state, user, req.command, req.args, shuffled).value;
      Handled(states, changed, ledger, log, id, user, req, time, o.0, o.1, states', changed', ledger', log')
  {
    var room := states[id];
    var o := GetResult(room.state, user, req.command, req.args, shuffled).value;
    var row := Row(time, CommandRecord(req.command, user, req.args));
    states' := states[id := room.(state := o.1)];
    changed', log', drawn' := changed, log, drawn;
    if o.0.Modified? {
      if id !in changed {
        changed' := changed + [id];
      }
      log' := log[id := log[id] + [row]];
      ghost var at: nat := |log[id]|;
      ghost var d: Shuffles := drawn[id][at := shuffled];
      drawn' := drawn[id := d];
      ReplayAppend(log[id], drawn[id], row, shuffled);
      assert ApplyRow(room, row, shuffled) == room.(state := o.1);
    } else {
      assert room.(state := o.1) == room;
    }
    ledger' := RecordResponse(ledger, id, user.id, req.msgId, ResponseOf(o.0));
    RecordResponseKeepsOthers(ledger, id, user.id, req.msgId, ResponseOf(o.0));
  }

  class Store {
    /** `states` */
    var states: map<StateId, Room>
    /** `changedStates`, a set kept in insertion order. */
    var changedStates: seq<StateId>
    /** `userResponses` */
    var userResponses: Ledger
    /** `subscriptions` */
    var subscriptions: map<StateId, set<User>>
    /** The rows of the log store, per room. */
    var log: map<StateId, seq<Row>>
    /** Every update handed to the connection layer, in order. */
    var sent: seq<Update>
    /** The deck orders each room in memory drew, by position of the
        logged row that drew them. */
    ghost var drawn: map<StateId, Shuffles>

    ghost predicate Valid()
      reads this
    {
      Consistent(states, changedStates, userResponses, subscriptions, log, drawn)
    }

    /** The rows the log store holds for a room (none for an unknown room). */
    function LogOf(id: StateId): seq<Row>
      reads this
    {
      if id in log then log[id] else []
    }

    /** A store over the persisted logs, with nothing in memory. */
    constructor(persisted: map<StateId, seq<Row>>)
      ensures Valid()
      ensures log == persisted
      ensures states == map[] && changedStates == [] && userResponses == map[]
      ensures subscriptions == map[] && sent == []
    {
      log := persisted;
      states := map[];
      changedStates := [];
      userResponses := map[];
      subscriptions := map[];
      sent := [];
      drawn := map[];
    }

    /** `newState`: create a room and log its creation record. The seed and
        the time are inputs; the id is fresh (ids are random strings). */
    method NewState(stateId: StateId, user: User, args: Args, seed: string, time: int)
      requires Valid() && stateId !in log
      modifies this
      ensures Valid()
      ensures states == old(states)[stateId := CreateRoom(seed, user, args)]
      ensures log == old(log)[stateId := [Row(time, CreationRecord(seed, user, args))]]
      ensures changedStates == old(changedStates) && userResponses == old(userResponses)
      ensures subscriptions == old(subscriptions) && sent == old(sent)
    {
      ReplayCreation(time, seed, user, args, map[]);
      states := states[stateId := CreateRoom(seed, user, args)];
      log := log[stateId := [Row(time, CreationRecord(seed, user, args))]];
      drawn := drawn[stateId := map[]];
    }

    /** `handleUpdate`: run one command on a room in memory; nothing for a
        room not in memory or an unknown command. `shuffled` is the order a
        successful `startGame` shuffles the deck into. */
    method HandleUpdate(stateId: StateId, user: User, req: UpdateRequest, time: int, shuffled: seq<Card>)
      requires Valid()
      modifies this
      ensures Valid()
      ensures subscriptions == old(subscriptions) && sent == old(sent)
      ensures stateId !in old(states) || req.command !in Commands ==>
        && states == old(states) && log == old(log)
        && changedStates == old(changedStates) && userResponses == old(userResponses)
      ensures stateId in old(states) && req.command in Commands ==>
        var o := GetResult(old(states)[stateId].state, user, req.command, req.args, shuffled).value;
        Handled(old(states), old(changedStates), old(userResponses), old(log), stateId, user, req, time, o.0, o.1,
                states, changedStates, userResponses, log)
    {
      if stateId !in states || req.command !in Commands {
        return;
      }
      states, changedStates, userResponses, log, drawn :=
        RunCommand(states, changedStates, userResponses, subscriptions, log, drawn, stateId, user, req, time, shuffled);
      assert Valid();
    }

    /** `loadState`: rebuild a room from its log, replaying the creation
        record and then every logged command in order; `shuffles` are the
        deck orders the shuffle gives during this replay. */
    method LoadState(stateId: StateId, shuffles: Shuffles) returns (room: Option<Room>)
      ensures room == Replay(LogOf(stateId), shuffles)
    {
      var rows := LogOf(stateId);
      if |rows| == 0 || !rows[0].record.CreationRecord? {
        return None;
      }
      var c := rows[0].record;
      var current := CreateRoom(c.seed, c.user, c.args);
      ghost var start := current;
      var i := 1;
      while i < |rows|
        invariant 1 <= i <= |rows|
        invariant current == ReplayFrom(start, rows, shuffles, i)
      {
        current := ApplyRow(current, rows[i], DeckAt(shuffles, i));
        i := i + 1;
      }
      room := Some(current);
    }

    /** `subscribeUser`: load the room if it is not in memory, add the user
        to its subscribers and send them the room with no responses. With no
        log to load from, the source fails before changing anything. */
    method SubscribeUser(stateId: StateId, user: User, shuffles: Shuffles) returns (ok: bool)
      requires Valid()
      modifies this
      ensures Valid()
      ensures ok <==> stateId in old(states) || Replay(LogOf(stateId), shuffles).Some?
      ensures !ok ==> states == old(states) && subscriptions == old(subscriptions) && sent == old(sent)
      ensures ok ==>
        && stateId in states
        && states == old(states)[stateId := if stateId in old(states) then old(states)[stateId]
                                            else Replay(LogOf(stateId), shuffles).value]
        && subscriptions == old(subscriptions)[stateId := SubscribersOf(old(subscriptions), stateId) + {user}]
        && sent == old(sent) + [Update(stateId, user, GetUserState(states[stateId].state, user), map[])]
      ensures changedStates == old(changedStates) && userResponses == old(userResponses) && log == old(log)
    {
      if stateId !in states {
        var loaded := LoadState(stateId, shuffles);
        if loaded.None? {
          return false;
        }
        states := states[stateId := loaded.value];
        drawn := drawn[stateId := shuffles];
      }
      if stateId !in subscriptions {
        subscriptions := subscriptions[stateId := {user}];
      } else {
        subscriptions := subscriptions[stateId := subscriptions[stateId] + {user}];
      }
      assert subscriptions[stateId] == SubscribersOf(old(subscriptions), stateId) + {user};
      sent := sent + [Update(stateId, user, GetUserState(states[stateId].state, user), map[])];
      ok := true;
      assert Valid();
    }

    /** The subscribers of a room, or none. */
    static function SubscribersOf(subs: map<StateId, set<User>>, id: StateId): set<User>
    {
      if id in subs then subs[id] else {}
    }

    /** `unsubscribeUser`: nothing for a room not in memory; otherwise the
        user is removed when there are other subscribers, and the whole
        entry is dropped when there is one. A room in memory without an
        entry makes the source fail (ok is false) before any change. */
    method UnsubscribeUser(stateId: StateId, user: User) returns (ok: bool)
      requires Valid()
      modifies this
      ensures Valid()
      ensures ok <==> stateId !in states || stateId in old(subscriptions)
      ensures stateId !in states || !ok ==> subscriptions == old(subscriptions)
      ensures stateId in states && ok && |old(subscriptions)[stateId]| > 1 ==>
        subscriptions == old(subscriptions)[stateId := old(subscriptions)[stateId] - {user}]
      ensures stateId in states && ok && |old(subscriptions)[stateId]| <= 1 ==>
        subscriptions == old(subscriptions) - {stateId}
      ensures states == old(states) && changedStates == old(changedStates) && userResponses == old(userResponses)
      ensures log == old(log) && sent == old(sent)
    {
      if stateId !in states {
        return true;
      }
      if stateId !in subscriptions {
        return false;
      }
      var users := subscriptions[stateId];
      if |users| > 1 {
        assert users - {user} != {} by {
          if users - {user} == {} {
            assert users <= {user};
            SubsetSize(users, {user});
          }
        }
        subscriptions := subscriptions[stateId := users - {user}];
      } else {
        subscriptions := subscriptions - {stateId};
      }
      ok := true;
    }

    /** The body of the store's 100 ms timer, as written: the changed
        rooms' sends, then the other rooms' sends, then both tables cleared.
        A room in either table without a subscription entry makes the tick
        throw before the tables are cleared; the throw is modelled as
        completed being false, with the tables as the throw leaves them. */
    method Tick() returns (completed: bool, batch: seq<Update>)
      requires Valid()
      modifies this
      ensures Valid()
      ensures completed <==> !Stalls(old(changedStates), old(userResponses), old(subscriptions))
      ensures states == old(states) && subscriptions == old(subscriptions) && log == old(log)
      ensures sent == old(sent) + batch
      ensures completed ==>
        && changedStates == [] && userResponses == map[]
        && NoRepeats(batch)
        && forall u :: u in batch <==>
             Due(old(states), old(changedStates), old(userResponses), old(subscriptions), u)
      ensures !completed ==>
        && changedStates == old(changedStates)
        && Stalls(changedStates, userResponses, subscriptions)
    {
      var rest;
      completed, batch, rest := TickTables(states, changedStates, userResponses, subscriptions);
      sent := sent + batch;
      userResponses := rest;
      if completed {
        changedStates := [];
      }
    }


    /** The timer's body with rooms nobody is subscribed to skipped: it
        always completes, sends exactly the updates due and clears both
        tables. */
    method FlushTick() returns (batch: seq<Update>)
      requires Valid()
      modifies this
      ensures Valid()
      ensures states == old(states) && subscriptions == old(subscriptions) && log == old(log)
      ensures changedStates == [] && userResponses == map[]
      ensures sent == old(sent) + batch
      ensures NoRepeats(batch)
      ensures forall u :: u in batch <==>
        Due(old(states), old(changedStates), old(userResponses), old(subscriptions), u)
    {
      batch := FlushTables(states, changedStates, userResponses, subscriptions);
      sent := sent + batch;
      changedStates := [];
      userResponses := map[];
    }
  }

  /** A room's only subscriber sends a command and disconnects before the
      next tick: the response is owed in a room with no subscription entry,
      the next tick throws, and so does a second one with nothing in
      between. */
  method LastUnsubscribeStallsTick() returns (first: bool, second: bool)
    ensures !first && !second
  {
    var alice := User("a", "alice");
    var store := new Store(map[]);
    store.NewState("room", alice, Args(10, 100, 10), "seed", 0);
    var subscribed := store.SubscribeUser("room", alice, map[]);
    store.HandleUpdate("room", alice, UpdateRequest("joinGame", "m1", Args(0, 0, 0)), 1, []);
    var unsubscribed := store.UnsubscribeUser("room", alice);
    var batch;
    first, batch := store.Tick();
    second, batch := store.Tick();
  }
}
