/**
 * mm.server.game.MatchFound: the LOBBY_SIZE players of a group that
 * formed, each with a flag telling whether it has accepted the match, and
 * a counter of acceptances. The acceptance timer is modelled by its
 * canceled flag only; its expiry is an event of the server.
 */
module MatchFinding {
  import opened Wrappers
  import opened Config

  /** getPlayersThatAccepted: the players whose flag is set. */
  function Accepted(players: map<string, bool>): (s: set<string>)
    ensures s <= players.Keys
    ensures forall u :: u in s <==> u in players && players[u]
  {
    set u | u in players && players[u]
  }

  /** getPlayersThatDidNotAccept: the players whose flag is clear. */
  function NotAccepted(players: map<string, bool>): (s: set<string>)
    ensures s <= players.Keys
    ensures forall u :: u in s <==> u in players && !players[u]
  {
    set u | u in players && !players[u]
  }

  /** The two sets split the players: together they are all of them, and no one is in both. */
  lemma AcceptedPartition(players: map<string, bool>)
    ensures Accepted(players) + NotAccepted(players) == players.Keys
    ensures Accepted(players) * NotAccepted(players) == {}
  {
  }

  /** A subset is no larger than the set it is part of. */
  lemma {:induction false} SubsetSize<T>(a: set<T>, b: set<T>)
    requires a <= b
    ensures |a| <= |b|
    decreases |a|
  {
    if a != {} {
      var x :| x in a;
      SubsetSize(a - {x}, b - {x});
    }
  }

  /** Everybody has accepted exactly when the accepted set is as large as the group. */
  lemma AllAcceptedIffFull(players: map<string, bool>)
    ensures |Accepted(players)| == |players| <==> forall u :: u in players ==> players[u]
  {
    var a := Accepted(players);
    if a != players.Keys {
      var v :| v in players.Keys && v !in a;
      SubsetSize(a, players.Keys - {v});
      assert |players.Keys - {v}| == |players.Keys| - 1;
    }
  }

  /** Setting an unset flag grows the accepted set by exactly that player. */
  lemma AcceptOne(players: map<string, bool>, u: string)
    requires u in players && !players[u]
    ensures Accepted(players[u := true]) == Accepted(players) + {u}
    ensures |Accepted(players[u := true])| == |Accepted(players)| + 1
  {
    assert Accepted(players[u := true]) == Accepted(players) + {u};
  }

  /** The group with nobody having accepted yet. */
  function Unaccepted(usernames: set<string>): (m: map<string, bool>)
    ensures m.Keys == usernames && Accepted(m) == {}
  {
    map u | u in usernames :: false
  }

  class MatchFound {
    var players: map<string, bool>
    var numPlayersAccepted: int
    var timerCanceled: bool

    /** The group keeps its size and the counter counts the set flags. */
    ghost predicate Valid()
      reads this
    {
      |players| == LOBBY_SIZE && numPlayersAccepted == |Accepted(players)|
    }

    /** The constructor once the size check has passed (see NewMatchFound). */
    constructor (usernames: set<string>)
      requires |usernames| == LOBBY_SIZE
      ensures Valid()
      ensures players == Unaccepted(usernames) && numPlayersAccepted == 0 && !timerCanceled
    {
      players := Unaccepted(usernames);
      numPlayersAccepted := 0;
      timerCanceled := false;
    }

    /** getPlayerUsernames. */
    function PlayerUsernames(): set<string>
      reads this
    {
      players.Keys
    }

    /** timerWasCanceled. */
    function TimerWasCanceled(): bool
      reads this
    {
      timerCanceled
    }

    /** playerAcceptedMatch: the player's flag; a player outside the group unboxes null. */
    function PlayerAcceptedMatch(username: string): (r: Result<bool>)
      reads this
      ensures username in players ==> r == Ok(username in Accepted(players))
      ensures username !in players ==> r == Fail(NullPointer)
    {
      if username in players then Ok(players[username]) else Fail(NullPointer)
    }

    /**
     * acceptMatch: the player's flag is set and the counter goes up, unless
     * the flag was already set; the result tells whether all LOBBY_SIZE
     * players have now accepted. A player outside the group unboxes null.
     */
    method AcceptMatch(username: string) returns (r: Result<bool>)
      requires Valid()
      modifies this
      ensures Valid()
      ensures username !in old(players) ==> r == Fail(NullPointer) && players == old(players)
      ensures username in old(players) ==> r.Ok? && players == old(players)[username := true]
      ensures username in old(players) && old(players)[username] ==> players == old(players)
      ensures r.Ok? ==> (r.value <==> forall u :: u in players ==> players[u])
      ensures numPlayersAccepted == |Accepted(players)| && timerCanceled == old(timerCanceled)
    {
      if username !in players {
        return Fail(NullPointer);
      }
      if !players[username] {
        AcceptOne(players, username);
        players := players[username := true];
        numPlayersAccepted := numPlayersAccepted + 1;
      } else {
        assert players[username := true] == players;
      }
      AllAcceptedIffFull(players);
      r := Ok(numPlayersAccepted == LOBBY_SIZE);
    }

    /** cancelTimer: the flag is set for good; nothing clears it. */
    method CancelTimer()
      modifies this
      ensures timerCanceled
      ensures players == old(players) && numPlayersAccepted == old(numPlayersAccepted)
    {
      timerCanceled := true;
    }
  }

  /** The MatchFound constructor: a group of another size than LOBBY_SIZE throws IllegalArgumentException. */
  method NewMatchFound(usernames: set<string>) returns (r: Result<MatchFound>)
    ensures |usernames| != LOBBY_SIZE <==> r == Fail(IllegalArgument)
    ensures r.Ok? ==> fresh(r.value) && r.value.Valid()
    ensures r.Ok? ==> r.value.players == Unaccepted(usernames) && r.value.numPlayersAccepted == 0
    ensures r.Ok? ==> !r.value.timerCanceled
  {
    if |usernames| != LOBBY_SIZE {
      return Fail(IllegalArgument);
    }
    var m := new MatchFound(usernames);
    r := Ok(m);
  }
}
