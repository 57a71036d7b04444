/** The connection table of server/.rtag/proxy.ts: the open sockets of each
    client (a user in a room), the store's subscription calls made on a
    client's first connection and after its last, and the fan-out of a new
    user state to the client's sockets. */
module Proxy {
  import opened Methods

  type StateId = string
  type UserId = string

  /** An open WebSocket, by identity. */
  type Socket = nat

  /** The encoded bytes of a user state and its responses. */
  type Payload = seq<bv8>

  /** A client: one user in one room. */
  datatype Key = Key(stateId: StateId, userId: UserId)

  /** A call the proxy makes into the store. */
  datatype StoreCall =
    | Subscribe(stateId: StateId, user: User)
    | Unsubscribe(stateId: StateId, user: User)

  /** One `socket.send(data)`. */
  datatype Delivery = Delivery(socket: Socket, data: Payload)

  /** The client a call is about. */
  function KeyOf(c: StoreCall): Key
  {
    Key(c.stateId, c.user.id)
  }

  /** +1 for a subscription of client `k`, -1 for an unsubscription, 0 for
      another client's call. */
  function Delta(c: StoreCall, k: Key): int
  {
    if KeyOf(c) != k then 0 else if c.Subscribe? then 1 else -1
  }

  /** How many more subscriptions than unsubscriptions of client `k` the
      calls hold. */
  function Level(calls: seq<StoreCall>, k: Key): int
    decreases |calls|
  {
    if calls == [] then 0 else Level(calls[..|calls| - 1], k) + Delta(calls[|calls| - 1], k)
  }

  lemma LevelAppend(calls: seq<StoreCall>, c: StoreCall, k: Key)
    ensures Level(calls + [c], k) == Level(calls, k) + Delta(c, k)
  {
    assert (calls + [c])[..|calls|] == calls;
  }

  /** Every call finds its client in the state it switches from: a
      subscription only for a client not subscribed, an unsubscription only
      for a subscribed one. */
  ghost predicate Alternates(calls: seq<StoreCall>)
  {
    forall i :: 0 <= i < |calls| ==> Level(calls[..i], KeyOf(calls[i])) == if calls[i].Subscribe? then 0 else 1
  }

  lemma AlternatesAppend(calls: seq<StoreCall>, c: StoreCall)
    requires Alternates(calls)
    requires Level(calls, KeyOf(c)) == if c.Subscribe? then 0 else 1
    ensures Alternates(calls + [c])
  {
    forall i | 0 <= i < |calls| + 1
      ensures Level((calls + [c])[..i], KeyOf((calls + [c])[i])) == if (calls + [c])[i].Subscribe? then 0 else 1
    {
      if i < |calls| {
        assert (calls + [c])[..i] == calls[..i];
      } else {
        assert (calls + [c])[..i] == calls;
      }
    }
  }

  /** In alternating calls every client is subscribed at most once at any
      time: its subscriptions and unsubscriptions take turns, starting with
      a subscription. */
  lemma {:induction false} AlternationKeepsLevel(calls: seq<StoreCall>, k: Key)
    requires Alternates(calls)
    ensures 0 <= Level(calls, k) <= 1
    decreases |calls|
  {
    if calls != [] {
      var n := |calls| - 1;
      assert Alternates(calls[..n]) by {
        forall i | 0 <= i < n
          ensures Level(calls[..n][..i], KeyOf(calls[..n][i])) == if calls[..n][i].Subscribe? then 0 else 1
        {
          assert calls[..n][..i] == calls[..i];
        }
      }
      AlternationKeepsLevel(calls[..n], k);
      assert Level(calls[..n], KeyOf(calls[n])) == if calls[n].Subscribe? then 0 else 1;
    }
  }

  /** A client has an entry exactly while it has open sockets, and the
      store has been told of exactly the clients with an entry, each
      subscription and unsubscription taking turns. */
  ghost predicate Tracks(conns: map<Key, set<Socket>>, calls: seq<StoreCall>)
  {
    && (forall k :: k in conns ==> conns[k] != {})
    && Alternates(calls)
    && forall k :: Level(calls, k) == if k in conns then 1 else 0
  }

  /** Subscribing a client without an entry, under its first socket, keeps
      the table and the calls in step. */
  lemma SubscribeTracks(conns: map<Key, set<Socket>>, calls: seq<StoreCall>, stateId: StateId, user: User, socket: Socket)
    requires Tracks(conns, calls) && Key(stateId, user.id) !in conns
    ensures Tracks(conns[Key(stateId, user.id) := {socket}], calls + [Subscribe(stateId, user)])
  {
    var c := Subscribe(stateId, user);
    AlternatesAppend(calls, c);
    forall k
      ensures Level(calls + [c], k) == Level(calls, k) + Delta(c, k)
    {
      LevelAppend(calls, c, k);
    }
  }

  /** Unsubscribing a client as its entry is deleted keeps the table and the
      calls in step. */
  lemma UnsubscribeTracks(conns: map<Key, set<Socket>>, calls: seq<StoreCall>, stateId: StateId, user: User)
    requires Tracks(conns, calls) && Key(stateId, user.id) in conns
    ensures Tracks(conns - {Key(stateId, user.id)}, calls + [Unsubscribe(stateId, user)])
  {
    var c := Unsubscribe(stateId, user);
    AlternatesAppend(calls, c);
    forall k
      ensures Level(calls + [c], k) == Level(calls, k) + Delta(c, k)
    {
      LevelAppend(calls, c, k);
    }
  }

  /** The connection table and what the proxy has done through it. */
  class Server {
    /** `connections`, keyed by client. */
    var connections: map<Key, set<Socket>>
    /** Every call made into the store, in order. */
    var calls: seq<StoreCall>
    /** Every send made on a socket, in order. */
    var sent: seq<Delivery>

    /** The table and the store calls are in step. */
    ghost predicate Valid()
      reads this
    {
      Tracks(connections, calls)
    }

    constructor()
      ensures Valid()
      ensures connections == map[] && calls == [] && sent == []
    {
      connections := map[];
      calls := [];
      sent := [];
    }

    /** The sockets of a client, or none. */
    static function SocketsOf(conns: map<Key, set<Socket>>, k: Key): set<Socket>
    {
      if k in conns then conns[k] else {}
    }

    /** `addConnection`: the socket joins its client's set; the client's
        first socket subscribes it to the room. */
    method AddConnection(stateId: StateId, user: User, socket: Socket)
      requires Valid()
      modifies this
      ensures Valid()
      ensures var k := Key(stateId, user.id);
        connections == old(connections)[k := SocketsOf(old(connections), k) + {socket}]
      ensures Key(stateId, user.id) !in old(connections) ==> calls == old(calls) + [Subscribe(stateId, user)]
      ensures Key(stateId, user.id) in old(connections) ==> calls == old(calls)
      ensures sent == old(sent)
    {
      var k := Key(stateId, user.id);
      if k !in connections {
        SubscribeTracks(connections, calls, stateId, user, socket);
        assert SocketsOf(connections, k) + {socket} == {socket};
        connections := connections[k := {socket}];
        calls := calls + [Subscribe(stateId, user)];
      } else {
        connections := connections[k := connections[k] + {socket}];
      }
    }

    /** `deleteConnection`: the socket leaves its client's set; when none is
        left the entry goes and the client is unsubscribed. A client without
        an entry makes the source fail (ok is false) before any change. */
    method DeleteConnection(stateId: StateId, user: User, socket: Socket) returns (ok: bool)
      requires Valid()
      modifies this
      ensures Valid()
      ensures ok <==> Key(stateId, user.id) in old(connections)
      ensures !ok ==> connections == old(connections) && calls == old(calls)
      ensures ok ==> var k := Key(stateId, user.id);
        if old(connections)[k] - {socket} == {} then
          connections == old(connections) - {k} && calls == old(calls) + [Unsubscribe(stateId, user)]
        else
          connections == old(connections)[k := old(connections)[k] - {socket}] && calls == old(calls)
      ensures sent == old(sent)
    {
      var k := Key(stateId, user.id);
      if k !in connections {
        return false;
      }
      var left := connections[k] - {socket};
      if left == {} {
        UnsubscribeTracks(connections, calls, stateId, user);
        connections := connections - {k};
        calls := calls + [Unsubscribe(stateId, user)];
      } else {
        connections := connections[k := left];
      }
      ok := true;
    }

    /** `onNewUserState`: the payload is sent once on every socket of the
        client and on no other. A client without an entry makes the source
        fail (ok is false) before any send. */
    method OnNewUserState(stateId: StateId, user: User, data: Payload) returns (ok: bool, batch: seq<Delivery>)
      requires Valid()
      modifies this
      ensures Valid()
      ensures connections == old(connections) && calls == old(calls)
      ensures sent == old(sent) + batch
      ensures ok <==> Key(stateId, user.id) in connections
      ensures !ok ==> batch == []
      ensures ok ==> Fanout(batch, connections[Key(stateId, user.id)], data)
    {
      var k := Key(stateId, user.id);
      if k !in connections {
        return false, [];
      }
      batch := SendAll(connections[k], data);
      sent := sent + batch;
      ok := true;
    }
  }

  /** The sockets sends went to. */
  function Targets(batch: seq<Delivery>): set<Socket>
    decreases |batch|
  {
    if batch == [] then {} else Targets(batch[..|batch| - 1]) + {batch[|batch| - 1].socket}
  }

  lemma {:induction false} InTargets(batch: seq<Delivery>, i: nat)
    requires i < |batch|
    ensures batch[i].socket in Targets(batch)
    decreases |batch|
  {
    if i < |batch| - 1 {
      InTargets(batch[..|batch| - 1], i);
    }
  }

  /** Each socket of `sockets` gets `data` exactly once, and nothing else is
      sent. */
  ghost predicate Fanout(batch: seq<Delivery>, sockets: set<Socket>, data: Payload)
  {
    && Targets(batch) == sockets
    && (forall i :: 0 <= i < |batch| ==> batch[i].data == data)
    && (forall i, j :: 0 <= i < j < |batch| ==> batch[i].socket != batch[j].socket)
  }

  /** The sends of one fan-out, in the set's (unspecified) order. */
  method SendAll(sockets: set<Socket>, data: Payload) returns (batch: seq<Delivery>)
    ensures Fanout(batch, sockets, data)
    ensures |batch| == |sockets|
  {
    batch := [];
    var left := sockets;
    while left != {}
      invariant Targets(batch) + left == sockets && Targets(batch) !! left
      invariant |batch| + |left| == |sockets|
      invariant forall i :: 0 <= i < |batch| ==> batch[i].data == data
      invariant forall i, j :: 0 <= i < j < |batch| ==> batch[i].socket != batch[j].socket
      decreases left
    {
      var s :| s in left;
      forall i | 0 <= i < |batch|
        ensures batch[i].socket != s
      {
        InTargets(batch, i);
      }
      var next := batch + [Delivery(s, data)];
      assert next[..|batch|] == batch;
      batch := next;
      left := left - {s};
    }
  }

  // ---------------------------------------------------------------------
  // The key as the source builds it

  /** The source's key for a client: the room id and the user id joined
      into one string. */
  function ClientKey(stateId: StateId, user: User): string
  {
    stateId + user.id
  }

  /** Joined strings do not identify the client: a user "bc" in room "a"
      and a user "c" in room "ab" share the key "abc", so the second one to
      connect is never subscribed and each gets the other's updates. */
  lemma ClientKeysCollide()
    ensures var u := User("c", "carol");
      var v := User("bc", "bob");
      Key("ab", u.id) != Key("a", v.id) && ClientKey("ab", u) == ClientKey("a", v)
  {
    assert "ab" + "c" == "abc";
    assert "a" + "bc" == "abc";
  }

  /** The connection table as the source keys it, by the joined string. */
  class JoinedServer {
    var connections: map<string, set<Socket>>
    var calls: seq<StoreCall>

    constructor()
      ensures connections == map[] && calls == []
    {
      connections := map[];
      calls := [];
    }

    /** `addConnection` keyed by `ClientKey`. */
    method AddConnection(stateId: StateId, user: User, socket: Socket)
      modifies this
      ensures var k := ClientKey(stateId, user);
        connections == old(connections)[k := (if k in old(connections) then old(connections)[k] else {}) + {socket}]
      ensures ClientKey(stateId, user) !in old(connections) ==> calls == old(calls) + [Subscribe(stateId, user)]
      ensures ClientKey(stateId, user) in old(connections) ==> calls == old(calls)
    {
      var k := ClientKey(stateId, user);
      if k !in connections {
        assert {} + {socket} == {socket};
        connections := connections[k := {socket}];
        calls := calls + [Subscribe(stateId, user)];
      } else {
        connections := connections[k := connections[k] + {socket}];
      }
    }

    /** `onNewUserState` keyed by `ClientKey`: the sends for one client. */
    method OnNewUserState(stateId: StateId, user: User, data: Payload) returns (ok: bool, batch: seq<Delivery>)
      ensures ok <==> ClientKey(stateId, user) in connections
      ensures ok ==> Fanout(batch, connections[ClientKey(stateId, user)], data)
      ensures !ok ==> batch == []
    {
      var k := ClientKey(stateId, user);
      if k !in connections {
        return false, [];
      }
      batch := SendAll(connections[k], data);
      ok := true;
    }
  }

  /** With the joined key, user "c" connecting to room "ab" on socket 1 and
      user "bc" connecting to room "a" on socket 2 share one entry: only the
      first is ever subscribed to the store, and a new state for the first
      is sent to the second's socket too. */
  method CollidingClientsShareSockets() returns (calls: seq<StoreCall>, batch: seq<Delivery>)
    ensures calls == [Subscribe("ab", User("c", "carol"))]
    ensures Targets(batch) == {1, 2}
  {
    var carol := User("c", "carol");
    var bob := User("bc", "bob");
    ClientKeysCollide();
    var server := new JoinedServer();
    server.AddConnection("ab", carol, 1);
    server.AddConnection("a", bob, 2);
    assert server.connections[ClientKey("ab", carol)] == {1, 2};
    var ok;
    ok, batch := server.OnNewUserState("ab", carol, []);
    calls := server.calls;
  }

  /** The joined key does identify the client when every room id has the
      same length. */
  lemma ClientKeyFixedLength(a: StateId, b: StateId, u: User, v: User)
    requires |a| == |b|
    ensures ClientKey(a, u) == ClientKey(b, v) <==> Key(a, u.id) == Key(b, v.id)
  {
    if ClientKey(a, u) == ClientKey(b, v) {
      assert a == ClientKey(a, u)[..|a|];
      assert b == ClientKey(b, v)[..|b|];
      assert u.id == ClientKey(a, u)[|a|..];
      assert v.id == ClientKey(b, v)[|b|..];
    }
  }
}
