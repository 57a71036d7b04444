/** The poker rules of server/impl.ts at the level of values: every command
    is a function from the game state (and the caller) to a Result and the
    state the command leaves. The class in game.dfy performs the same
    commands in place and is proved equal to these functions. */
module Poker {
  import opened Methods

  /** A card as the deck deals it. Its printed name (rank and suit letter)
      is not modelled; a card is known by its place in a fresh deck. */
  datatype Card = Card(ordinal: nat)

  /** A freshly opened, unshuffled standard deck. */
  function StandardDeck(): (d: seq<Card>)
    ensures |d| == 52
    ensures forall i, j :: 0 <= i < j < |d| ==> d[i] != d[j]
  {
    seq(52, i requires 0 <= i < 52 => Card(i))
  }

  datatype PlayerStatus = Waiting | Played | Folded

  /** The street of the current hand, in the order the enum declares it. */
  datatype RoundStatus = RoundWaiting | PreFlop | Flop | Turn | River | Done

  /** The enum's numeric value. */
  function Ordinal(r: RoundStatus): nat
  {
    match r
    case RoundWaiting => 0
    case PreFlop => 1
    case Flop => 2
    case Turn => 3
    case River => 4
    case Done => 5
  }

  /** `roundStatus++` */
  function NextStreet(r: RoundStatus): (n: RoundStatus)
    requires r != Done
    ensures Ordinal(n) == Ordinal(r) + 1
  {
    match r
    case RoundWaiting => PreFlop
    case PreFlop => Flop
    case Flop => Turn
    case Turn => River
    case River => Done
  }

  datatype Player = Player(name: string, chips: int, cards: seq<Card>, currentBet: int, currentStatus: PlayerStatus)

  datatype InternalState = InternalState(
    players: seq<Player>,
    roundStatus: RoundStatus,
    deck: seq<Card>,
    dealerIndex: nat,
    activePlayerIndex: nat,
    revealedCards: seq<Card>,
    currentBlind: int,
    currentPot: int,
    amountToCall: int)

  /** A game always has a player: it is created with one and players are
      only ever added. */
  type State = s: InternalState | |s.players| > 0
    witness InternalState([Player("", 0, [], 0, Waiting)], RoundWaiting, [], 0, 0, [], 0, 0, 0)

  /** The request arguments of every command in one record: startGame reads
      the blind and the starting chips, raise reads the raise amount. */
  datatype Args = Args(startingBlind: int, startingChipsPerPlayer: int, raiseAmount: int)

  /** What one viewer is shown of the game. */
  datatype UserState = UserState(
    players: seq<Player>,
    dealer: string,
    activePlayer: string,
    currentPot: int,
    amountToCall: int,
    roundStatus: RoundStatus,
    revealedCards: seq<Card>)

  // ---------------------------------------------------------------------
  // Facts about player lists

  ghost predicate NamesUnique(ps: seq<Player>)
  {
    forall i, j :: 0 <= i < j < |ps| ==> ps[i].name != ps[j].name
  }

  predicate HasPlayer(ps: seq<Player>, name: string)
  {
    exists i :: 0 <= i < |ps| && ps[i].name == name
  }

  /** The two lists seat the same players, by name, in the same order. */
  ghost predicate SameSeats(ps: seq<Player>, qs: seq<Player>)
  {
    |ps| == |qs| && forall i :: 0 <= i < |ps| ==> ps[i].name == qs[i].name
  }

  lemma SameSeatsKeepNamesUnique(ps: seq<Player>, qs: seq<Player>)
    requires SameSeats(ps, qs) && NamesUnique(ps)
    ensures NamesUnique(qs)
  {
  }

  function TotalChips(ps: seq<Player>): int
  {
    if ps == [] then 0 else TotalChips(ps[..|ps| - 1]) + ps[|ps| - 1].chips
  }

  /** Replacing one player changes the table's chips by that player's change. */
  lemma {:induction false} TotalChipsUpdate(ps: seq<Player>, k: nat, p: Player)
    requires k < |ps|
    ensures TotalChips(ps[k := p]) == TotalChips(ps) - ps[k].chips + p.chips
    decreases |ps|
  {
    var n := |ps| - 1;
    if k < n {
      assert ps[k := p][..n] == ps[..n][k := p];
      TotalChipsUpdate(ps[..n], k, p);
    } else {
      assert ps[k := p][..n] == ps[..n];
    }
  }

  /** Lists that agree on every player's chips hold the same chips. */
  lemma {:induction false} TotalChipsSameChips(ps: seq<Player>, qs: seq<Player>)
    requires |ps| == |qs|
    requires forall i :: 0 <= i < |ps| ==> ps[i].chips == qs[i].chips
    ensures TotalChips(ps) == TotalChips(qs)
    decreases |ps|
  {
    if ps != [] {
      TotalChipsSameChips(ps[..|ps| - 1], qs[..|qs| - 1]);
    }
  }

  /** The cards held in the players' hands, in seat order. */
  function Hands(ps: seq<Player>): seq<Card>
  {
    if ps == [] then [] else Hands(ps[..|ps| - 1]) + ps[|ps| - 1].cards
  }

  // ---------------------------------------------------------------------
  // The deck

  /** `deck.draw(n)`: the first n cards, or what is left of the deck. */
  function Draw(deck: seq<Card>, n: nat): (r: (seq<Card>, seq<Card>))
    ensures r.0 + r.1 == deck
    ensures |r.0| == if n <= |deck| then n else |deck|
  {
    var k := if n <= |deck| then n else |deck|;
    (deck[..k], deck[k..])
  }

  /** The dealing loop of startRound: in seat order every player gets a
      hand of two cards from the top of the deck, no bet and WAITING. */
  function Deal(ps: seq<Player>, deck: seq<Card>): (r: (seq<Player>, seq<Card>))
    ensures |r.0| == |ps|
    ensures forall i :: 0 <= i < |ps| ==>
      r.0[i] == ps[i].(currentBet := 0, currentStatus := Waiting, cards := r.0[i].cards)
    ensures |deck| >= 2 * |ps| ==>
      |r.1| == |deck| - 2 * |ps| && forall i :: 0 <= i < |ps| ==> |r.0[i].cards| == 2
    decreases |ps|
  {
    if ps == [] then ([], deck)
    else
      var dealt := Deal(ps[..|ps| - 1], deck);
      var hand := Draw(dealt.1, 2);
      var last := ps[|ps| - 1].(currentBet := 0, currentStatus := Waiting, cards := hand.0);
      assert (dealt.0 + [last])[..|ps| - 1] == dealt.0;
      (dealt.0 + [last], hand.1)
  }

  /** Dealing neither creates nor loses cards: the hands, in seat order,
      followed by what is left are the deck dealt from. */
  lemma {:induction false} DealKeepsCards(ps: seq<Player>, deck: seq<Card>)
    ensures var r := Deal(ps, deck); Hands(r.0) + r.1 == deck
    decreases |ps|
  {
    if ps != [] {
      var n := |ps| - 1;
      DealKeepsCards(ps[..n], deck);
      var before := Deal(ps[..n], deck);
      var r := Deal(ps, deck);
      assert r.0[..n] == before.0;
      var hand := Draw(before.1, 2);
      calc {
        Hands(r.0) + r.1;
        Hands(before.0) + hand.0 + hand.1;
        Hands(before.0) + before.1;
        deck;
      }
    }
  }

  /** Dealing to one more seat draws that seat's hand from what is left. */
  lemma DealNext(ps: seq<Player>, deck: seq<Card>, i: nat)
    requires i < |ps|
    ensures var before := Deal(ps[..i], deck);
      var hand := Draw(before.1, 2);
      Deal(ps[..i + 1], deck)
        == (before.0 + [ps[i].(currentBet := 0, currentStatus := Waiting, cards := hand.0)], hand.1)
  {
    assert ps[..i + 1][..i] == ps[..i];
  }

  // ---------------------------------------------------------------------
  // Helpers of impl.ts

  /** `createPlayer` */
  function CreatePlayer(name: string): (p: Player)
    ensures p.name == name && p.chips == 0 && p.cards == [] && p.currentBet == 0
    ensures p.currentStatus == Waiting
  {
    Player(name, 0, [], 0, Waiting)
  }

  /** `activePlayerIndex % players.length` */
  function ActiveIndex(s: State): (k: nat)
    ensures k < |s.players|
  {
    s.activePlayerIndex % |s.players|
  }

  /** `makeBet`: the active player moves `amount` from their chips to their
      bet and to the pot, is marked PLAYED, sets the amount to call, and the
      turn passes to the next seat. Nothing stops the chips going negative. */
  function MakeBet(s: State, amount: int): (t: State)
    ensures var k := ActiveIndex(s);
      && SameSeats(s.players, t.players)
      && t.players[k].chips == s.players[k].chips - amount
      && t.players[k].currentBet == s.players[k].currentBet + amount
      && t.players[k].currentStatus == Played
      && t.players[k].cards == s.players[k].cards
      && (forall j :: 0 <= j < |s.players| && j != k ==> t.players[j] == s.players[j])
      && t.currentPot == s.currentPot + amount
      && t.amountToCall == t.players[k].currentBet
      && t.activePlayerIndex == s.activePlayerIndex + 1
      && t.(players := s.players, currentPot := s.currentPot, amountToCall := s.amountToCall,
            activePlayerIndex := s.activePlayerIndex) == s
  {
    var k := ActiveIndex(s);
    var p := s.players[k];
    var bettor := p.(currentBet := p.currentBet + amount, chips := p.chips - amount, currentStatus := Played);
    s.(players := s.players[k := bettor],
       currentPot := s.currentPot + amount,
       amountToCall := bettor.currentBet,
       activePlayerIndex := s.activePlayerIndex + 1)
  }

  /** The per-player step of raiseBet's loop. */
  function ResetOther(p: Player, bettor: string): Player
  {
    if bettor != p.name && p.currentStatus != Folded then p.(currentStatus := Waiting) else p
  }

  function ResetOthers(ps: seq<Player>, bettor: string): (qs: seq<Player>)
    ensures |qs| == |ps|
    ensures forall i :: 0 <= i < |ps| ==> qs[i] == ResetOther(ps[i], bettor)
  {
    seq(|ps|, i requires 0 <= i < |ps| => ResetOther(ps[i], bettor))
  }

  /** `raiseBet`: a bet by the active player, after which every other player
      who has not folded must act again. Folded players stay folded. */
  function RaiseBet(s: State, amount: int): (t: State)
    ensures var k := ActiveIndex(s);
      && SameSeats(s.players, t.players)
      && t.players[k].currentStatus == Played
      && t.players[k].currentBet == s.players[k].currentBet + amount
      && t.amountToCall == t.players[k].currentBet
      && t.activePlayerIndex == s.activePlayerIndex + 1
      && (forall j :: 0 <= j < |s.players| && s.players[j].currentStatus == Folded && j != k ==>
            t.players[j] == s.players[j])
      && (forall j ::
            0 <= j < |s.players| && s.players[j].currentStatus != Folded && s.players[j].name != s.players[k].name
            ==> t.players[j] == s.players[j].(currentStatus := Waiting))
    ensures var k := ActiveIndex(s);
      && t.players[k].chips == s.players[k].chips - amount
      && t.players[k].cards == s.players[k].cards
      && t.currentPot == s.currentPot + amount
      && t.(players := s.players, currentPot := s.currentPot, amountToCall := s.amountToCall,
            activePlayerIndex := s.activePlayerIndex) == s
  {
    var bettor := s.players[ActiveIndex(s)].name;
    var m := MakeBet(s, amount);
    var t := m.(players := ResetOthers(m.players, bettor));
    t
  }

  /** The indices of the players who have not folded, in seat order
      (`players.filter(p => p.currentStatus != FOLDED)`). */
  function UnfoldedIndices(ps: seq<Player>): (r: seq<nat>)
    ensures forall k :: 0 <= k < |r| ==> r[k] < |ps| && ps[r[k]].currentStatus != Folded
    ensures forall j :: 0 <= j < |ps| && ps[j].currentStatus != Folded ==> j in r
    ensures forall a, b :: 0 <= a < b < |r| ==> r[a] < r[b]
    decreases |ps|
  {
    if ps == [] then []
    else
      var n := |ps| - 1;
      UnfoldedIndices(ps[..n]) + if ps[n].currentStatus != Folded then [n] else []
  }

  /** Some player still in the hand has not acted since the last bet. */
  predicate Pending(ps: seq<Player>)
  {
    exists i :: 0 <= i < |ps| && ps[i].currentStatus != Folded && ps[i].currentStatus != Played
  }

  /** The player in the seat `offset` places after the dealer's. */
  function Seat(ps: seq<Player>, dealer: nat, offset: nat): Player
    requires |ps| > 0
  {
    ps[(dealer + offset) % |ps|]
  }

  /** The search loop of maybeNextRound: the first offset i, from `from` on,
      whose seat (dealer + i) % n holds a player who has not folded. */
  function SeatSearch(ps: seq<Player>, dealer: nat, from: nat): (r: Option<nat>)
    requires |ps| > 0
    ensures r.Some? ==> from <= r.value < |ps| && Seat(ps, dealer, r.value).currentStatus != Folded
    ensures r.Some? ==> forall i :: from <= i < r.value ==> Seat(ps, dealer, i).currentStatus == Folded
    ensures r.None? ==> forall i :: from <= i < |ps| ==> Seat(ps, dealer, i).currentStatus == Folded
    decreases |ps| - from
  {
    if from >= |ps| then None
    else if Seat(ps, dealer, from).currentStatus != Folded then Some(from)
    else SeatSearch(ps, dealer, from + 1)
  }

  /** The per-player step of the end-of-street loop. */
  function ClearBet(p: Player): Player
  {
    p.(currentBet := 0, currentStatus := if p.currentStatus != Folded then Waiting else p.currentStatus)
  }

  function ClearBets(ps: seq<Player>): (qs: seq<Player>)
    ensures |qs| == |ps|
    ensures forall i :: 0 <= i < |ps| ==> qs[i] == ClearBet(ps[i])
  {
    seq(|ps|, i requires 0 <= i < |ps| => ClearBet(ps[i]))
  }

  /** The cards turned up when a street ends, and the deck left. */
  function Reveal(status: RoundStatus, revealed: seq<Card>, deck: seq<Card>): (r: (seq<Card>, seq<Card>))
    ensures r.0 + r.1 == if status == PreFlop then deck else revealed + deck
    ensures status == PreFlop && |deck| >= 3 ==> r.0 == deck[..3] && r.1 == deck[3..]
    ensures (status == Flop || status == Turn) && |deck| >= 1 ==> r.0 == revealed + [deck[0]] && r.1 == deck[1..]
    ensures status != PreFlop && status != Flop && status != Turn ==> r == (revealed, deck)
  {
    if status == PreFlop then Draw(deck, 3)
    else if status == Flop || status == Turn then
      var d := Draw(deck, 1);
      (revealed + d.0, d.1)
    else (revealed, deck)
  }

  /** `maybeNextRound`: the hand ends when one player is left; the street
      ends when everyone still in has acted. */
  function MaybeNextRound(s: State): (t: State)
    requires s.roundStatus != Done
    ensures SameSeats(s.players, t.players)
  {
    var remaining := UnfoldedIndices(s.players);
    if |remaining| == 1 then
      var w := remaining[0];
      var winner := s.players[w].(chips := s.players[w].chips + s.currentPot);
      s.(players := s.players[w := winner], roundStatus := Done)
    else if Pending(s.players) then s
    else EndStreet(s)
  }

  /** The end of a betting street: the turn goes to the first player after
      the dealer who has not folded, bets are cleared, everyone still in
      must act again, the next cards are turned up and the street advances. */
  function EndStreet(s: State): (t: State)
    requires s.roundStatus != Done
    ensures SameSeats(s.players, t.players)
  {
    var next := SeatSearch(s.players, s.dealerIndex, 0);
    var active := if next.Some? then s.dealerIndex + next.value else s.activePlayerIndex;
    var shown := Reveal(s.roundStatus, s.revealedCards, s.deck);
    s.(players := ClearBets(s.players),
       activePlayerIndex := active,
       amountToCall := 0,
       revealedCards := shown.0,
       deck := shown.1,
       roundStatus := NextStreet(s.roundStatus))
  }

  // ---------------------------------------------------------------------
  // The commands of Impl

  /** `createGame`: a game in WAITING with its creator as the only player. */
  function CreateGame(user: User): (s: State)
    ensures s.players == [CreatePlayer(user.name)] && NamesUnique(s.players)
    ensures s.roundStatus == RoundWaiting && s.deck == StandardDeck()
    ensures TotalChips(s.players) == 0 && s.currentPot == 0 && s.amountToCall == 0
    ensures s.dealerIndex == 0 && s.activePlayerIndex == 0 && s.revealedCards == [] && s.currentBlind == 0
  {
    InternalState([CreatePlayer(user.name)], RoundWaiting, StandardDeck(), 0, 0, [], 0, 0, 0)
  }

  /** `joinGame` */
  function JoinGame(s: State, user: User): (r: (Result, State))
    ensures HasPlayer(s.players, user.name) <==> r.0 == Unmodified(Some("User already joined"))
    ensures HasPlayer(s.players, user.name) ==> r.1 == s
    ensures !HasPlayer(s.players, user.name) ==>
      && r.0.Modified?
      && r.1.players == s.players + [Player(user.name, 0, [], 0, Waiting)]
      && r.1.(players := s.players) == s
    ensures NamesUnique(s.players) ==> NamesUnique(r.1.players)
  {
    if HasPlayer(s.players, user.name) then (UnmodifiedResult(Some("User already joined")), s)
    else (ModifiedResult(), s.(players := s.players + [CreatePlayer(user.name)]))
  }

  /** Every player's stack set to `chips`. */
  function SetChips(ps: seq<Player>, chips: int): (qs: seq<Player>)
    ensures |qs| == |ps|
    ensures forall i :: 0 <= i < |ps| ==> qs[i] == ps[i].(chips := chips)
  {
    seq(|ps|, i requires 0 <= i < |ps| => ps[i].(chips := chips))
  }

  /** `startGame`: only from WAITING and with two players or more; deals
      everyone the starting chips and shuffles the whole deck (the shuffled
      order is the `shuffled` argument). */
  function StartGame(s: State, args: Args, shuffled: seq<Card>): (r: (Result, State))
    ensures s.roundStatus != RoundWaiting <==> r.0 == Unmodified(Some("Game already in-progress."))
    ensures s.roundStatus == RoundWaiting && |s.players| < 2 <==> r.0 == Unmodified(Some("Must have 2 players to start."))
    ensures r.0.Unmodified? ==> r.1 == s
    ensures r.0.Modified? <==> s.roundStatus == RoundWaiting && |s.players| >= 2
    ensures SameSeats(s.players, r.1.players)
    ensures r.0.Modified? ==>
      && (forall i :: 0 <= i < |s.players| ==> r.1.players[i] == s.players[i].(chips := args.startingChipsPerPlayer))
      && r.1.currentBlind == args.startingBlind
      && r.1.deck == shuffled
      && r.1.(players := s.players, currentBlind := s.currentBlind, deck := s.deck) == s
  {
    if s.roundStatus != RoundWaiting then (UnmodifiedResult(Some("Game already in-progress.")), s)
    else if |s.players| < 2 then (UnmodifiedResult(Some("Must have 2 players to start.")), s)
    else
      var ps := SetChips(s.players, args.startingChipsPerPlayer);
      (ModifiedResult(), s.(players := ps, currentBlind := args.startingBlind, deck := shuffled))
  }

  /** `startRound`: from WAITING or DONE, moves the button one seat, deals
      two cards to everyone, posts the small and the big blind and starts
      the pre-flop street. It does not check who asks. */
  function StartRound(s: State): (r: (Result, State))
    ensures s.roundStatus != RoundWaiting && s.roundStatus != Done <==> r.0 == Unmodified(Some("Round in-progress."))
    ensures r.0.Unmodified? ==> r.1 == s
    ensures SameSeats(s.players, r.1.players)
    ensures r.0.Modified? ==>
      && r.1.roundStatus == PreFlop
      && r.1.dealerIndex == s.dealerIndex + 1
      && r.1.activePlayerIndex == s.dealerIndex + 4
      && r.1.currentPot == 3 * s.currentBlind
      && r.1.deck == Deal(s.players, s.deck).1
      && (forall i :: 0 <= i < |s.players| ==> r.1.players[i].cards == Deal(s.players, s.deck).0[i].cards)
      && r.1.revealedCards == s.revealedCards && r.1.currentBlind == s.currentBlind
      && (|s.players| >= 2 ==> r.1.amountToCall == 2 * s.currentBlind)
  {
    if s.roundStatus != RoundWaiting && s.roundStatus != Done then (UnmodifiedResult(Some("Round in-progress.")), s)
    else
      var small := RaiseBet(NewHand(s), s.currentBlind);
      var big := RaiseBet(small, s.currentBlind * 2);
      BlindsKeepHands(s);
      (ModifiedResult(), big.(roundStatus := PreFlop))
  }

  /** The first steps of startRound: the button moves one seat, the turn
      goes to the seat after it, the pot is emptied and the hands are dealt. */
  function NewHand(s: State): (t: State)
    ensures t.dealerIndex == s.dealerIndex + 1 && t.activePlayerIndex == s.dealerIndex + 2
    ensures t.currentPot == 0 && |t.players| == |s.players|
    ensures (t.players, t.deck) == Deal(s.players, s.deck)
    ensures t.(players := s.players, deck := s.deck, dealerIndex := s.dealerIndex,
               activePlayerIndex := s.activePlayerIndex, currentPot := s.currentPot) == s
  {
    var dealer := s.dealerIndex + 1;
    var dealt := Deal(s.players, s.deck);
    s.(dealerIndex := dealer, activePlayerIndex := dealer + 1, currentPot := 0,
       players := dealt.0, deck := dealt.1)
  }

  /** A raise changes no other seat than the bettor's except for its status. */
  lemma RaiseBetKeepsOthers(s: State, amount: int)
    ensures var t := RaiseBet(s, amount); var k := ActiveIndex(s);
      forall j :: 0 <= j < |s.players| && j != k ==>
        && t.players[j].(currentStatus := s.players[j].currentStatus) == s.players[j]
        && (t.players[j] == s.players[j] || t.players[j].currentStatus == Waiting)
  {
    var k := ActiveIndex(s);
    var m := MakeBet(s, amount);
    forall j | 0 <= j < |s.players| && j != k
      ensures RaiseBet(s, amount).players[j].(currentStatus := s.players[j].currentStatus) == s.players[j]
      ensures RaiseBet(s, amount).players[j] == s.players[j] || RaiseBet(s, amount).players[j].currentStatus == Waiting
    {
      assert RaiseBet(s, amount).players[j] == ResetOther(m.players[j], s.players[k].name);
    }
  }

  /** The two blinds of startRound are posted on the dealt hands: every seat
      keeps the cards it was dealt, the deck left is what the deal left, the
      board and the blind stay, and with two players or more the amount to
      call is the big blind. */
  lemma BlindsKeepHands(s: State)
    ensures var small := RaiseBet(NewHand(s), s.currentBlind);
      var big := RaiseBet(small, s.currentBlind * 2);
      && big.deck == Deal(s.players, s.deck).1
      && (forall i :: 0 <= i < |s.players| ==> big.players[i].cards == Deal(s.players, s.deck).0[i].cards)
      && big.revealedCards == s.revealedCards && big.currentBlind == s.currentBlind
      && (|s.players| >= 2 ==> big.amountToCall == 2 * s.currentBlind)
  {
    var h := NewHand(s);
    var small := RaiseBet(h, s.currentBlind);
    var big := RaiseBet(small, s.currentBlind * 2);
    RaiseBetKeepsOthers(h, s.currentBlind);
    RaiseBetKeepsOthers(small, s.currentBlind * 2);
    if |s.players| >= 2 {
      var n := |s.players|;
      var ks := ActiveIndex(h);
      var kb := ActiveIndex(small);
      assert ks == (s.dealerIndex + 2) % n && kb == (s.dealerIndex + 3) % n;
      NextSeatDiffers(s.dealerIndex + 2, n);
      assert h.players[kb].currentBet == 0;
    }
  }

  /** With two players or more the small blind sits two seats after the old
      dealer and the big blind three: they hold one and two times the blind,
      paid from their own chips, the big blind has acted, and every other
      seat has bet nothing, paid nothing and waits. The small blind waits again unless it shares the big blind's
      name. */
  lemma StartRoundBlindSeats(s: State)
    requires StartRound(s).0.Modified? && |s.players| >= 2
    ensures var t := StartRound(s).1; var n := |s.players|;
      var ks := (s.dealerIndex + 2) % n; var kb := (s.dealerIndex + 3) % n;
      && t.players[ks].currentBet == s.currentBlind
      && t.players[kb].currentBet == 2 * s.currentBlind && t.players[kb].currentStatus == Played
      && (s.players[ks].name != s.players[kb].name ==> t.players[ks].currentStatus == Waiting)
      && t.players[ks].chips == s.players[ks].chips - s.currentBlind
      && t.players[kb].chips == s.players[kb].chips - 2 * s.currentBlind
      && forall j :: 0 <= j < n && j != ks && j != kb ==>
           && t.players[j].currentBet == 0 && t.players[j].currentStatus == Waiting
           && t.players[j].chips == s.players[j].chips
  {
    var h := NewHand(s);
    var small := RaiseBet(h, s.currentBlind);
    var n := |s.players|;
    var ks := ActiveIndex(h);
    var kb := ActiveIndex(small);
    assert ks == (s.dealerIndex + 2) % n && kb == (s.dealerIndex + 3) % n;
    NextSeatDiffers(s.dealerIndex + 2, n);
    RaiseBetKeepsOthers(h, s.currentBlind);
    RaiseBetKeepsOthers(small, s.currentBlind * 2);
  }

  /** At a table of two or more, consecutive indices name different seats. */
  lemma NextSeatDiffers(a: nat, n: nat)
    requires n >= 2
    ensures a % n != (a + 1) % n
  {
    var d := (a + 1) / n - a / n;
    assert n * (a / n) + a % n == a;
    assert n * ((a + 1) / n) + (a + 1) % n == a + 1;
    if d >= 1 {
      assert n * d >= n;
    } else {
      assert n * d <= 0;
    }
  }

  /** A bet moves chips from the bettor's stack to the pot and creates none. */
  lemma MakeBetKeepsChips(s: State, amount: int)
    ensures var t := MakeBet(s, amount);
      TotalChips(t.players) + t.currentPot == TotalChips(s.players) + s.currentPot
  {
    var k := ActiveIndex(s);
    TotalChipsUpdate(s.players, k, MakeBet(s, amount).players[k]);
  }

  /** Reopening the betting moves no chips. */
  lemma RaiseBetKeepsChips(s: State, amount: int)
    ensures var t := RaiseBet(s, amount);
      TotalChips(t.players) + t.currentPot == TotalChips(s.players) + s.currentPot
  {
    MakeBetKeepsChips(s, amount);
    var m := MakeBet(s, amount);
    TotalChipsSameChips(m.players, RaiseBet(s, amount).players);
  }

  /** Starting a round takes the two blinds, one and two times the blind,
      from the players' stacks into a pot emptied beforehand. */
  lemma StartRoundPostsBlinds(s: State)
    requires StartRound(s).0.Modified?
    ensures TotalChips(StartRound(s).1.players) == TotalChips(s.players) - 3 * s.currentBlind
  {
    TotalChipsSameChips(s.players, Deal(s.players, s.deck).0);
    var reseated := NewHand(s);
    RaiseBetKeepsChips(reseated, s.currentBlind);
    RaiseBetKeepsChips(RaiseBet(reseated, s.currentBlind), s.currentBlind * 2);
  }

  /** The checks shared by call, raise and fold. */
  function TurnCheck(s: State, user: User): (r: Option<string>)
    ensures r.None? <==> s.roundStatus != Done && s.players[ActiveIndex(s)].name == user.name
    ensures s.roundStatus == Done ==> r == Some("Game is over")
    ensures s.roundStatus != Done && r.Some? ==> r == Some("Not your turn")
  {
    if s.roundStatus == Done then Some("Game is over")
    else if s.players[ActiveIndex(s)].name != user.name then Some("Not your turn")
    else None
  }

  /** `call`: the active player matches the amount to call. */
  function Call(s: State, user: User): (r: (Result, State))
    ensures s.roundStatus == Done <==> r.0 == Unmodified(Some("Game is over"))
    ensures s.roundStatus != Done && s.players[ActiveIndex(s)].name != user.name
      <==> r.0 == Unmodified(Some("Not your turn"))
    ensures r.0.Unmodified? ==> r.1 == s
    ensures SameSeats(s.players, r.1.players)
  {
    match TurnCheck(s, user)
    case Some(reason) => (UnmodifiedResult(Some(reason)), s)
    case None =>
      var k := ActiveIndex(s);
      (ModifiedResult(), MaybeNextRound(MakeBet(s, s.amountToCall - s.players[k].currentBet)))
  }

  /** `raise`: the active player adds the raise amount to their bet. */
  function Raise(s: State, user: User, args: Args): (r: (Result, State))
    ensures s.roundStatus == Done <==> r.0 == Unmodified(Some("Game is over"))
    ensures s.roundStatus != Done && s.players[ActiveIndex(s)].name != user.name
      <==> r.0 == Unmodified(Some("Not your turn"))
    ensures r.0.Unmodified? ==> r.1 == s
    ensures SameSeats(s.players, r.1.players)
  {
    match TurnCheck(s, user)
    case Some(reason) => (UnmodifiedResult(Some(reason)), s)
    case None => (ModifiedResult(), MaybeNextRound(RaiseBet(s, args.raiseAmount)))
  }

  /** The active player's status set to FOLDED. */
  function FoldActive(s: State): (t: State)
    ensures SameSeats(s.players, t.players) && t.roundStatus == s.roundStatus
  {
    var k := ActiveIndex(s);
    s.(players := s.players[k := s.players[k].(currentStatus := Folded)])
  }
  /** Folding marks the active seat FOLDED and changes nothing else. */
  lemma FoldActiveFolds(s: State)
    ensures var t := FoldActive(s); var k := ActiveIndex(s);
      && t.players == s.players[k := s.players[k].(currentStatus := Folded)]
      && t.(players := s.players) == s
  {
    var k := ActiveIndex(s);
    assert FoldActive(s) == s.(players := s.players[k := s.players[k].(currentStatus := Folded)]);
  }


  /** `fold`: the active player folds. The turn index is not moved. */
  function Fold(s: State, user: User): (r: (Result, State))
    ensures s.roundStatus == Done <==> r.0 == Unmodified(Some("Game is over"))
    ensures s.roundStatus != Done && s.players[ActiveIndex(s)].name != user.name
      <==> r.0 == Unmodified(Some("Not your turn"))
    ensures r.0.Unmodified? ==> r.1 == s
    ensures SameSeats(s.players, r.1.players)
  {
    match TurnCheck(s, user)
    case Some(reason) => (UnmodifiedResult(Some(reason)), s)
    case None => (ModifiedResult(), MaybeNextRound(FoldActive(s)))
  }

  // ---------------------------------------------------------------------
  // What a viewer sees

  /** `sanitizePlayer`: a player's cards are shown to themselves, and to
      everyone once the hand is over if the player did not fold. */
  function SanitizePlayer(p: Player, viewer: string, status: RoundStatus): (q: Player)
    ensures q.(cards := []) == p.(cards := [])
    ensures q.cards == p.cards || q.cards == []
    ensures p.cards != [] ==>
      (q.cards == p.cards <==> p.name == viewer || (status == Done && p.currentStatus != Folded))
  {
    if p.name == viewer || (status == Done && p.currentStatus != Folded) then p
    else p.(cards := [])
  }

  /** `getUserState` */
  function GetUserState(s: State, user: User): (v: UserState)
    ensures |v.players| == |s.players|
    ensures v.dealer == s.players[s.dealerIndex % |s.players|].name
    ensures v.activePlayer == s.players[ActiveIndex(s)].name
    ensures v.currentPot == s.currentPot && v.amountToCall == s.amountToCall
    ensures v.roundStatus == s.roundStatus && v.revealedCards == s.revealedCards
  {
    var shown := seq(|s.players|, i requires 0 <= i < |s.players| => SanitizePlayer(s.players[i], user.name, s.roundStatus));
    UserState(shown,
              s.players[s.dealerIndex % |s.players|].name,
              s.players[ActiveIndex(s)].name,
              s.currentPot,
              s.amountToCall,
              s.roundStatus,
              s.revealedCards)
  }

  // ---------------------------------------------------------------------
  // Properties of the rules

  /** When exactly one player has not folded, that player wins the pot: it is
      added to their chips, the hand is DONE, and nothing else changes (the
      pot itself is not emptied). */
  lemma WinnerTakesPot(s: State)
    requires s.roundStatus != Done && |UnfoldedIndices(s.players)| == 1
    ensures var t := MaybeNextRound(s);
      && t.roundStatus == Done
      && |t.players| == |s.players|
      && (forall j :: 0 <= j < |s.players| ==>
            t.players[j] == if s.players[j].currentStatus != Folded
                            then s.players[j].(chips := s.players[j].chips + s.currentPot)
                            else s.players[j])
      && TotalChips(t.players) == TotalChips(s.players) + s.currentPot
      && t.(players := s.players, roundStatus := s.roundStatus) == s
  {
    var rem := UnfoldedIndices(s.players);
    var w := rem[0];
    forall j | 0 <= j < |s.players| && s.players[j].currentStatus != Folded
      ensures j == w
    {
      assert j in rem;
    }
    TotalChipsUpdate(s.players, w, s.players[w].(chips := s.players[w].chips + s.currentPot));
  }

  /** While someone still in the hand has to act, maybeNextRound changes nothing. */
  lemma StreetContinues(s: State)
    requires s.roundStatus != Done && |UnfoldedIndices(s.players)| != 1 && Pending(s.players)
    ensures MaybeNextRound(s) == s
  {
  }

  /** When everyone still in the hand has acted, the street ends: bets and
      the amount to call are cleared, everyone still in must act again and
      the street advances; chips and the pot stay as they are. */
  lemma StreetEnds(s: State)
    requires s.roundStatus != Done && |UnfoldedIndices(s.players)| != 1 && !Pending(s.players)
    ensures var t := MaybeNextRound(s);
      && t.roundStatus == NextStreet(s.roundStatus)
      && t.amountToCall == 0
      && |t.players| == |s.players|
      && (forall j :: 0 <= j < |s.players| ==>
            && t.players[j].currentBet == 0
            && t.players[j].currentStatus == (if s.players[j].currentStatus == Folded then Folded else Waiting)
            && t.players[j].(currentBet := 0, currentStatus := Waiting)
               == s.players[j].(currentBet := 0, currentStatus := Waiting))
      && t.currentPot == s.currentPot && t.dealerIndex == s.dealerIndex
      && t.currentBlind == s.currentBlind
  {
  }

  /** When the street ends, the turn goes to the first player at or after
      the dealer's seat who has not folded, and stays where it was if every
      seat holds a folded player. */
  lemma StreetEndsTurn(s: State)
    requires s.roundStatus != Done && |UnfoldedIndices(s.players)| != 1 && !Pending(s.players)
    ensures var t := MaybeNextRound(s);
      && ((forall i :: 0 <= i < |s.players| ==> Seat(s.players, s.dealerIndex, i).currentStatus == Folded) ==>
            t.activePlayerIndex == s.activePlayerIndex)
      && ((exists i :: 0 <= i < |s.players| && Seat(s.players, s.dealerIndex, i).currentStatus != Folded) ==>
            && s.dealerIndex <= t.activePlayerIndex < s.dealerIndex + |s.players|
            && Seat(s.players, s.dealerIndex, t.activePlayerIndex - s.dealerIndex).currentStatus != Folded
            && forall i :: 0 <= i < t.activePlayerIndex - s.dealerIndex ==>
                 Seat(s.players, s.dealerIndex, i).currentStatus == Folded)
  {
    var t := MaybeNextRound(s);
    assert t.activePlayerIndex == EndStreet(s).activePlayerIndex;
    var next := SeatSearch(s.players, s.dealerIndex, 0);
    if next.Some? {
      assert t.activePlayerIndex == s.dealerIndex + next.value;
    } else {
      assert t.activePlayerIndex == s.activePlayerIndex;
      assert forall i :: 0 <= i < |s.players| ==> Seat(s.players, s.dealerIndex, i).currentStatus == Folded;
    }
  }

  /** When the street ends the next community cards come off the top of the
      deck: three after the pre-flop, one after the flop and after the turn,
      none after the river (or before the first hand). */
  lemma StreetEndsReveal(s: State)
    requires s.roundStatus != Done && |UnfoldedIndices(s.players)| != 1 && !Pending(s.players)
    ensures var t := MaybeNextRound(s);
      && (s.roundStatus == PreFlop && |s.deck| >= 3 ==>
            t.revealedCards == s.deck[..3] && t.deck == s.deck[3..])
      && ((s.roundStatus == Flop || s.roundStatus == Turn) && |s.deck| >= 1 ==>
            t.revealedCards == s.revealedCards + [s.deck[0]] && t.deck == s.deck[1..])
      && (s.roundStatus == RoundWaiting || s.roundStatus == River ==>
            t.revealedCards == s.revealedCards && t.deck == s.deck)
      && t.revealedCards + t.deck == if s.roundStatus == PreFlop then s.deck else s.revealedCards + s.deck
  {
    assert MaybeNextRound(s) == EndStreet(s);
  }

  /** A fold that does not end the street leaves the turn with the player who
      just folded: the turn index is not moved past them. */
  lemma FoldKeepsTurn(s: State, user: User)
    requires Fold(s, user).0.Modified? && Fold(s, user).1.roundStatus == s.roundStatus
    ensures var t := Fold(s, user).1;
      && t.activePlayerIndex == s.activePlayerIndex
      && ActiveIndex(t) == ActiveIndex(s)
      && t.players[ActiveIndex(t)].name == user.name
      && t.players[ActiveIndex(t)].currentStatus == Folded
  {
    var f := FoldActive(s);
    if |UnfoldedIndices(f.players)| == 1 {
      WinnerTakesPot(f);
    } else if !Pending(f.players) {
      StreetEnds(f);
    }
  }

  /** An accepted call is a bet of the amount owed followed by maybeNextRound. */
  lemma CallBets(s: State, user: User)
    requires TurnCheck(s, user).None?
    ensures var k := ActiveIndex(s);
      Call(s, user).0.Modified? && Call(s, user).1 == MaybeNextRound(MakeBet(s, s.amountToCall - s.players[k].currentBet))
  {
    match TurnCheck(s, user)
    case None =>
  }

  /** Whatever branch maybeNextRound takes, every player keeps their cards,
      and a player is folded after it exactly when they were before. */
  lemma NextRoundKeepsHandsAndFolds(s: State)
    requires s.roundStatus != Done
    ensures var t := MaybeNextRound(s);
      forall i :: 0 <= i < |s.players| ==>
        && t.players[i].cards == s.players[i].cards
        && (t.players[i].currentStatus == Folded <==> s.players[i].currentStatus == Folded)
  {
    if |UnfoldedIndices(s.players)| != 1 && !Pending(s.players) {
      assert MaybeNextRound(s) == EndStreet(s);
    }
  }

  /** maybeNextRound either changes nothing, or ends the hand, or moves to
      the next street. */
  lemma StreetOutcome(s: State)
    requires s.roundStatus != Done
    ensures var t := MaybeNextRound(s);
      && (t.roundStatus == s.roundStatus ==> t == s)
      && (t.roundStatus != s.roundStatus ==> t.roundStatus == Done || t.roundStatus == NextStreet(s.roundStatus))
  {
    if |UnfoldedIndices(s.players)| != 1 && !Pending(s.players) {
      StreetEnds(s);
    }
  }

  /** A call that does not end the street leaves the caller's bet equal to
      the amount to call, their chips and the pot moved by the difference,
      the caller PLAYED and the turn on the next seat. */
  lemma CallMatchesAmountToCall(s: State, user: User)
    ensures var r := Call(s, user); var k := ActiveIndex(s);
      var owed := s.amountToCall - s.players[k].currentBet;
      r.0.Modified? && r.1.roundStatus == s.roundStatus ==>
        && r.1.players[k].currentBet == s.amountToCall
        && r.1.amountToCall == s.amountToCall
        && r.1.players[k].chips == s.players[k].chips - owed
        && r.1.players[k].currentStatus == Played
        && r.1.currentPot == s.currentPot + owed
        && r.1.activePlayerIndex == s.activePlayerIndex + 1
  {
    var r := Call(s, user);
    if r.0.Modified? && r.1.roundStatus == s.roundStatus {
      CallBets(s, user);
      var k := ActiveIndex(s);
      StreetOutcome(MakeBet(s, s.amountToCall - s.players[k].currentBet));
    }
  }

  /** A call that changes the street ends the hand or moves to the next
      street. */
  lemma CallEndsStreet(s: State, user: User)
    ensures var r := Call(s, user);
      r.0.Modified? && r.1.roundStatus != s.roundStatus ==>
        r.1.roundStatus == Done || r.1.roundStatus == NextStreet(s.roundStatus)
  {
    var r := Call(s, user);
    if r.0.Modified? {
      CallBets(s, user);
      var k := ActiveIndex(s);
      StreetOutcome(MakeBet(s, s.amountToCall - s.players[k].currentBet));
    }
  }

  /** An accepted raise is raiseBet of the requested amount followed by
      maybeNextRound. */
  lemma RaiseBets(s: State, user: User, args: Args)
    requires TurnCheck(s, user).None?
    ensures Raise(s, user, args).0.Modified? && Raise(s, user, args).1 == MaybeNextRound(RaiseBet(s, args.raiseAmount))
  {
    match TurnCheck(s, user)
    case None =>
  }

  /** A raise that does not end the street adds the amount to the raiser's
      bet, moves it from their chips to the pot, makes their bet the amount
      to call, marks them PLAYED and puts the turn on the next seat. */
  lemma RaiseMatchesBet(s: State, user: User, args: Args)
    ensures var r := Raise(s, user, args); var k := ActiveIndex(s);
      var amount := args.raiseAmount;
      r.0.Modified? && r.1.roundStatus == s.roundStatus ==>
        && r.1.players[k].currentBet == s.players[k].currentBet + amount
        && r.1.amountToCall == r.1.players[k].currentBet
        && r.1.players[k].chips == s.players[k].chips - amount
        && r.1.players[k].currentStatus == Played
        && r.1.currentPot == s.currentPot + amount
        && r.1.activePlayerIndex == s.activePlayerIndex + 1
  {
    var r := Raise(s, user, args);
    if r.0.Modified? && r.1.roundStatus == s.roundStatus {
      RaiseBets(s, user, args);
      StreetOutcome(RaiseBet(s, args.raiseAmount));
    }
  }

  /** A raise that changes the street ends the hand or moves to the next
      street. */
  lemma RaiseEndsStreet(s: State, user: User, args: Args)
    ensures var r := Raise(s, user, args);
      r.0.Modified? && r.1.roundStatus != s.roundStatus ==>
        r.1.roundStatus == Done || r.1.roundStatus == NextStreet(s.roundStatus)
  {
    var r := Raise(s, user, args);
    if r.0.Modified? {
      RaiseBets(s, user, args);
      StreetOutcome(RaiseBet(s, args.raiseAmount));
    }
  }

  /** After any accepted fold, whatever maybeNextRound then does, the folder's
      seat is FOLDED and every seat keeps its cards. */
  lemma FoldFolds(s: State, user: User)
    ensures var r := Fold(s, user); var k := ActiveIndex(s);
      r.0.Modified? ==>
        && r.1.players[k].currentStatus == Folded
        && forall i :: 0 <= i < |s.players| ==> r.1.players[i].cards == s.players[i].cards
  {
    if TurnCheck(s, user).None? {
      var f := FoldActive(s);
      FoldActiveFolds(s);
      assert Fold(s, user).1 == MaybeNextRound(f);
      NextRoundKeepsHandsAndFolds(f);
    }
  }

  /** Nothing keeps a folded player from acting: when a folded player holds
      the turn, their call is accepted and takes them back into the hand. */
  lemma FoldedPlayerCallsBackIn(s: State, user: User)
    requires s.roundStatus != Done
    requires s.players[ActiveIndex(s)].name == user.name && s.players[ActiveIndex(s)].currentStatus == Folded
    ensures Call(s, user).0.Modified?
    ensures Call(s, user).1.players[ActiveIndex(s)].currentStatus != Folded
  {
    var k := ActiveIndex(s);
    var m := MakeBet(s, s.amountToCall - s.players[k].currentBet);
    CallBets(s, user);
    assert m.players[k].currentStatus == Played;
    NextRoundKeepsHandsAndFolds(m);
  }

  /** Folding does not pass the turn, so the player who just folded may call
      straight away and is back in the hand: three players on the flop, the
      first folds and then calls. */
  lemma FoldThenCall()
    ensures var a := User("1", "a");
      var s: State := InternalState([Player("a", 10, [], 0, Waiting), Player("b", 10, [], 0, Waiting),
                                     Player("c", 10, [], 0, Waiting)], Flop, [], 0, 0, [], 0, 0, 0);
      var folded := Fold(s, a);
      && folded.0.Modified? && folded.1.players[0].currentStatus == Folded
      && Call(folded.1, a).0.Modified? && Call(folded.1, a).1.players[0].currentStatus == Played
  {
    var a := User("1", "a");
    var s: State := InternalState([Player("a", 10, [], 0, Waiting), Player("b", 10, [], 0, Waiting),
                                   Player("c", 10, [], 0, Waiting)], Flop, [], 0, 0, [], 0, 0, 0);
    var f := FoldActive(s);
    assert 1 in UnfoldedIndices(f.players) && 2 in UnfoldedIndices(f.players);
    StreetContinues(f);
    var t := Fold(s, a).1;
    assert t == f;
    CallBets(t, a);
    var m := MakeBet(t, t.amountToCall - t.players[ActiveIndex(t)].currentBet);
    assert 1 in UnfoldedIndices(m.players) && 2 in UnfoldedIndices(m.players);
    StreetContinues(m);
    assert ActiveIndex(t) == 0 && m.players[0].currentStatus == Played;
  }

  /** No command renames, drops or duplicates a player, so the names stay
      unique for the whole life of a game. */
  lemma CommandsKeepNamesUnique(s: State, user: User, args: Args, shuffled: seq<Card>)
    requires NamesUnique(s.players)
    ensures NamesUnique(JoinGame(s, user).1.players)
    ensures NamesUnique(StartGame(s, args, shuffled).1.players)
    ensures NamesUnique(StartRound(s).1.players)
    ensures NamesUnique(Call(s, user).1.players)
    ensures NamesUnique(Raise(s, user, args).1.players)
    ensures NamesUnique(Fold(s, user).1.players)
  {
    var started := StartGame(s, args, shuffled).1;
    SameSeatsKeepNamesUnique(s.players, started.players);
    var dealt := StartRound(s).1;
    SameSeatsKeepNamesUnique(s.players, dealt.players);
    var called := Call(s, user).1;
    SameSeatsKeepNamesUnique(s.players, called.players);
    var raised := Raise(s, user, args).1;
    SameSeatsKeepNamesUnique(s.players, raised.players);
    var folded := Fold(s, user).1;
    SameSeatsKeepNamesUnique(s.players, folded.players);
  }

  /** A viewer is shown every field of every player except, possibly, the
      cards; and a non-empty hand is shown exactly when it is the viewer's
      own, or when the hand is over and its holder did not fold. */
  lemma ViewHidesOnlyCards(s: State, user: User, i: nat)
    requires i < |s.players|
    ensures var v := GetUserState(s, user).players[i];
      && v.(cards := []) == s.players[i].(cards := [])
      && (v.cards == s.players[i].cards || v.cards == [])
      && (s.players[i].cards != [] ==>
            (v.cards == s.players[i].cards
             <==> s.players[i].name == user.name || (s.roundStatus == Done && s.players[i].currentStatus != Folded)))
  {
  }

  /** Two viewers of one game may be shown different things. */
  lemma ViewsDependOnViewer()
    ensures exists s: State, a: User, b: User :: GetUserState(s, a) != GetUserState(s, b)
  {
    var alice := User("1", "alice");
    var bob := User("2", "bob");
    var s: State := InternalState([Player("alice", 0, [Card(0), Card(1)], 0, Waiting), Player("bob", 0, [], 0, Waiting)],
                                  PreFlop, [], 0, 0, [], 0, 0, 0);
    ViewHidesOnlyCards(s, alice, 0);
    ViewHidesOnlyCards(s, bob, 0);
    assert GetUserState(s, alice).players[0] != GetUserState(s, bob).players[0];
  }
}
