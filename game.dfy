/** The game record of server/impl.ts as the server keeps it: one object
    whose fields every command updates in place, the players list included.
    Each method is proved to leave exactly the state, and return exactly the
    Result, that the value-level rules in module Poker give. */
module PokerGame {
  import opened Methods
  import opened Poker

  class Game {
    var players: seq<Player>
    var roundStatus: RoundStatus
    var deck: seq<Card>
    var dealerIndex: nat
    var activePlayerIndex: nat
    var revealedCards: seq<Card>
    var currentBlind: int
    var currentPot: int
    var amountToCall: int

    ghost predicate Valid()
      reads this
    {
      |players| > 0
    }

    /** The record as a value. */
    function Value(): State
      reads this
      requires Valid()
    {
      InternalState(players, roundStatus, deck, dealerIndex, activePlayerIndex,
                    revealedCards, currentBlind, currentPot, amountToCall)
    }

    /** `createGame` */
    constructor CreateGame(user: User)
      ensures Valid() && Value() == Poker.CreateGame(user)
    {
      players := [CreatePlayer(user.name)];
      dealerIndex := 0;
      activePlayerIndex := 0;
      roundStatus := RoundWaiting;
      deck := StandardDeck();
      revealedCards := [];
      currentBlind := 0;
      currentPot := 0;
      amountToCall := 0;
    }

    /** `joinGame` */
    method JoinGame(user: User) returns (r: Result)
      requires Valid()
      modifies this
      ensures Valid()
      ensures (r, Value()) == Poker.JoinGame(old(Value()), user)
    {
      var i := 0;
      while i < |players|
        invariant 0 <= i <= |players|
        invariant forall j :: 0 <= j < i ==> players[j].name != user.name
        modifies {}
      {
        if players[i].name == user.name {
          return UnmodifiedResult(Some("User already joined"));
        }
        i := i + 1;
      }
      players := players + [CreatePlayer(user.name)];
      r := ModifiedResult();
    }

    /** `startGame`; `shuffled` is the order `shuffleAll` leaves the deck in. */
    method StartGame(args: Args, shuffled: seq<Card>) returns (r: Result)
      requires Valid()
      modifies this
      ensures Valid()
      ensures (r, Value()) == Poker.StartGame(old(Value()), args, shuffled)
    {
      if RoundWaiting != roundStatus {
        return UnmodifiedResult(Some("Game already in-progress."));
      }
      if |players| < 2 {
        return UnmodifiedResult(Some("Must have 2 players to start."));
      }
      var ps := players;
      var i := 0;
      while i < |ps|
        invariant 0 <= i <= |ps| == |players|
        invariant forall j :: 0 <= j < i ==> ps[j] == players[j].(chips := args.startingChipsPerPlayer)
        invariant forall j :: i <= j < |ps| ==> ps[j] == players[j]
        modifies {}
      {
        ps := ps[i := ps[i].(chips := args.startingChipsPerPlayer)];
        i := i + 1;
      }
      assert ps == SetChips(players, args.startingChipsPerPlayer);
      players := ps;
      currentBlind := args.startingBlind;
      deck := shuffled;
      r := ModifiedResult();
    }

    /** `startRound` */
    method StartRound() returns (r: Result)
      requires Valid()
      modifies this
      ensures Valid()
      ensures (r, Value()) == Poker.StartRound(old(Value()))
    {
      if roundStatus != RoundWaiting && roundStatus != Done {
        return UnmodifiedResult(Some("Round in-progress."));
      }
      NewHand();
      RaiseBet(currentBlind);
      RaiseBet(currentBlind * 2);
      roundStatus := PreFlop;
      r := ModifiedResult();
    }

    /** The first steps of `startRound`, its dealing loop included: every
        player in seat order gets the next two cards of the deck, a zero bet
        and the WAITING status. */
    method NewHand()
      requires Valid()
      modifies this
      ensures Valid()
      ensures Value() == Poker.NewHand(old(Value()))
    {
      // The deal reads neither the button, the turn nor the pot, so it may
      // come before they are set.
      var dealt, rest := DealHands(players, deck);
      players, deck := dealt, rest;
      dealerIndex := dealerIndex + 1;
      activePlayerIndex := dealerIndex + 1;
      currentPot := 0;
    }

    /** `call` */
    method Call(user: User) returns (r: Result)
      requires Valid()
      modifies this
      ensures Valid()
      ensures (r, Value()) == Poker.Call(old(Value()), user)
    {
      if roundStatus == Done {
        return UnmodifiedResult(Some("Game is over"));
      }
      ghost var s0 := Value();
      var current := players[activePlayerIndex % |players|];
      if current.name != user.name {
        return UnmodifiedResult(Some("Not your turn"));
      }
      assert TurnCheck(s0, user).None?;
      MakeBet(amountToCall - current.currentBet);
      ghost var s1 := Value();
      assert s1 == Poker.MakeBet(s0, s0.amountToCall - s0.players[ActiveIndex(s0)].currentBet);
      MaybeNextRound();
      r := ModifiedResult();
      CallBets(s0, user);
    }

    /** `raise` */
    method Raise(user: User, args: Args) returns (r: Result)
      requires Valid()
      modifies this
      ensures Valid()
      ensures (r, Value()) == Poker.Raise(old(Value()), user, args)
    {
      if roundStatus == Done {
        return UnmodifiedResult(Some("Game is over"));
      }
      ghost var s0 := Value();
      var current := players[activePlayerIndex % |players|];
      if current.name != user.name {
        return UnmodifiedResult(Some("Not your turn"));
      }
      assert TurnCheck(s0, user).None?;
      RaiseBet(args.raiseAmount);
      ghost var s1 := Value();
      assert s1 == Poker.RaiseBet(s0, args.raiseAmount);
      MaybeNextRound();
      r := ModifiedResult();
    }

    /** `fold` */
    method Fold(user: User) returns (r: Result)
      requires Valid()
      modifies this
      ensures Valid()
      ensures (r, Value()) == Poker.Fold(old(Value()), user)
    {
      if roundStatus == Done {
        return UnmodifiedResult(Some("Game is over"));
      }
      ghost var s0 := Value();
      var k := activePlayerIndex % |players|;
      if players[k].name != user.name {
        return UnmodifiedResult(Some("Not your turn"));
      }
      assert TurnCheck(s0, user).None?;
      players := players[k := players[k].(currentStatus := Folded)];
      assert Value() == FoldActive(s0);
      MaybeNextRound();
      r := ModifiedResult();
    }

    /** `raiseBet` */
    method RaiseBet(amount: int)
      requires Valid()
      modifies this
      ensures Valid()
      ensures Value() == Poker.RaiseBet(old(Value()), amount)
    {
      var bettor := players[activePlayerIndex % |players|].name;
      MakeBet(amount);
      ghost var s1 := Value();
      var ps := players;
      var i := 0;
      while i < |ps|
        invariant 0 <= i <= |ps| == |players|
        invariant forall j :: 0 <= j < i ==> ps[j] == ResetOther(players[j], bettor)
        invariant forall j :: i <= j < |ps| ==> ps[j] == players[j]
        modifies {}
      {
        if bettor != ps[i].name && ps[i].currentStatus != Folded {
          ps := ps[i := ps[i].(currentStatus := Waiting)];
        }
        i := i + 1;
      }
      assert ps == ResetOthers(players, bettor);
      players := ps;
      assert Value() == s1.(players := ResetOthers(s1.players, bettor));
    }

    /** `makeBet` */
    method MakeBet(amount: int)
      requires Valid()
      modifies this
      ensures Valid()
      ensures Value() == Poker.MakeBet(old(Value()), amount)
    {
      var k := activePlayerIndex % |players|;
      players := players[k := players[k].(currentBet := players[k].currentBet + amount)];
      players := players[k := players[k].(chips := players[k].chips - amount)];
      currentPot := currentPot + amount;
      amountToCall := players[k].currentBet;
      activePlayerIndex := activePlayerIndex + 1;
      players := players[k := players[k].(currentStatus := Played)];
    }

    /** `maybeNextRound` */
    method MaybeNextRound()
      requires Valid() && roundStatus != Done
      modifies this
      ensures Valid()
      ensures Value() == Poker.MaybeNextRound(old(Value()))
    {
      var ps := players;
      var remaining := Unfolded(ps);
      if |remaining| == 1 {
        var w := remaining[0];
        players := ps[w := ps[w].(chips := ps[w].chips + currentPot)];
        roundStatus := Done;
        return;
      }

      var pending := AnyToAct(ps, remaining);
      if pending {
        return;
      }
      EndStreet();
    }

    /** The end-of-street part of `maybeNextRound`. */
    method EndStreet()
      requires Valid() && roundStatus != Done
      modifies this
      ensures Valid()
      ensures Value() == Poker.EndStreet(old(Value()))
    {
      var next := FirstInHand(players, dealerIndex);
      var cleared := ClearAll(players);
      ghost var shown := Reveal(roundStatus, revealedCards, deck);
      players := cleared;
      if next.Some? {
        activePlayerIndex := dealerIndex + next.value;
      }
      amountToCall := 0;
      if roundStatus == PreFlop {
        var drawn := Draw(deck, 3);
        revealedCards := drawn.0;
        deck := drawn.1;
      } else if roundStatus == Flop || roundStatus == Turn {
        var drawn := Draw(deck, 1);
        revealedCards := revealedCards + drawn.0;
        deck := drawn.1;
      }
      assert (revealedCards, deck) == shown;
      roundStatus := NextStreet(roundStatus);
    }
  }

  /** `players.filter(p => p.currentStatus != FOLDED)`, as the seat
      indices of the players it keeps. */
  method Unfolded(ps: seq<Player>) returns (remaining: seq<nat>)
    ensures remaining == UnfoldedIndices(ps)
  {
    remaining := [];
    var i := 0;
    while i < |ps|
      invariant 0 <= i <= |ps|
      invariant remaining == UnfoldedIndices(ps[..i])
    {
      if ps[i].currentStatus != Folded {
        remaining := remaining + [i];
      }
      assert ps[..i + 1][..i] == ps[..i];
      i := i + 1;
    }
    assert ps[..i] == ps;
  }

  /** `remainingPlayers.filter(p => p.currentStatus != PLAYED).length != 0`:
      whether someone still in the hand has yet to act. */
  method AnyToAct(ps: seq<Player>, remaining: seq<nat>) returns (pending: bool)
    requires remaining == UnfoldedIndices(ps)
    ensures pending == Pending(ps)
  {
    var undecided := 0;
    var m := 0;
    ghost var undecidedSeat: nat := 0;
    while m < |remaining|
      invariant 0 <= m <= |remaining|
      invariant undecided == 0 ==> forall n :: 0 <= n < m ==> ps[remaining[n]].currentStatus == Played
      invariant undecided != 0 ==>
        undecidedSeat < |ps| && ps[undecidedSeat].currentStatus != Folded && ps[undecidedSeat].currentStatus != Played
    {
      if ps[remaining[m]].currentStatus != Played {
        undecided := undecided + 1;
        undecidedSeat := remaining[m];
      }
      m := m + 1;
    }
    pending := undecided != 0;
    if !pending {
      forall j | 0 <= j < |ps| && ps[j].currentStatus != Folded
        ensures ps[j].currentStatus == Played
      {
        assert j in remaining;
      }
    }
  }

  /** The dealing loop of `startRound`: every player in seat order gets the
      next two cards of the deck, a zero bet and the WAITING status. */
  method DealHands(ps: seq<Player>, deck: seq<Card>) returns (dealt: seq<Player>, rest: seq<Card>)
    ensures (dealt, rest) == Deal(ps, deck)
  {
    dealt, rest := [], deck;
    var i := 0;
    while i < |ps|
      invariant 0 <= i <= |ps|
      invariant (dealt, rest) == Deal(ps[..i], deck)
    {
      DealNext(ps, deck, i);
      var hand := Draw(rest, 2);
      dealt := dealt + [ps[i].(currentBet := 0, currentStatus := Waiting, cards := hand.0)];
      rest := hand.1;
      i := i + 1;
    }
    assert ps[..i] == ps;
  }

  /** The search loop of `maybeNextRound`: the first offset from the
      dealer's seat whose player has not folded, if there is one. */
  method FirstInHand(ps: seq<Player>, dealer: nat) returns (next: Option<nat>)
    requires |ps| > 0
    ensures next == SeatSearch(ps, dealer, 0)
  {
    var i := 0;
    while i < |ps|
      invariant 0 <= i <= |ps|
      invariant SeatSearch(ps, dealer, i) == SeatSearch(ps, dealer, 0)
    {
      if Seat(ps, dealer, i).currentStatus != Folded {
        return Some(i);
      }
      i := i + 1;
    }
    return None;
  }

  /** The clearing loop of `maybeNextRound`: bets back to zero and every
      player still in the hand WAITING again. */
  method ClearAll(ps: seq<Player>) returns (cleared: seq<Player>)
    ensures cleared == ClearBets(ps)
  {
    cleared := ps;
    var i := 0;
    while i < |ps|
      invariant 0 <= i <= |ps| == |cleared|
      invariant forall j :: 0 <= j < i ==> cleared[j] == ClearBet(ps[j])
      invariant forall j :: i <= j < |ps| ==> cleared[j] == ps[j]
    {
      cleared := cleared[i := cleared[i].(currentBet := 0)];
      if cleared[i].currentStatus != Folded {
        cleared := cleared[i := cleared[i].(currentStatus := Waiting)];
      }
      i := i + 1;
    }
  }
}
