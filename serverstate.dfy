/**
 * The state mm.server.net.NetServer keeps, as values, and the invariant
 * its handlers keep between two requests.
 *
 * A Client object is a key of connectedClients and its fields are the
 * Session record that key maps to. The account a client holds is named by
 * its username; the account itself is the record the directory files
 * under that username (the objects AccountManager hands out are exactly the
 * ones it files). Each MatchFound and Lobby object is a record kept under a
 * number, and a client's matchFound and lobby fields hold that number.
 *
 * The handlers change this state one small step at a time, and each step
 * below keeps the invariant ServerInv, short of what an Exempt value says
 * is still being worked on.
 */
module ServerState {
  import opened Wrappers
  import opened Config
  import opened Data
  import opened MatchFinding
  import opened Lobbies
  import opened Accounts

  /** NetServer.ClientState. */
  datatype ClientState = DISCONNECTED | CONNECTED | IDLE | IN_MATCHMAKING | MATCH_FOUND | IN_LOBBY

  /** A connection; Client objects are told apart by identity, here by number, in connection order. */
  type ClientId = nat
  /** A MatchFound object. */
  type MatchId = nat
  /** A Lobby object. */
  type LobbyId = nat

  /** The fields of a Client (None is null). */
  datatype Session = Session(state: ClientState, account: Option<string>, matchFound: Option<MatchId>,
                             lobby: Option<LobbyId>, team: Option<Team>)

  /** The fields of a MatchFound object. */
  datatype MatchFoundState = MatchFoundState(players: map<string, bool>, numPlayersAccepted: int, timerCanceled: bool)

  /** The fields of a Lobby object. */
  datatype LobbyState = LobbyState(lineup: Lineup, timerCanceled: bool)

  /** The Client constructor: CONNECTED, every reference null. */
  function NewSession(): Session {
    Session(CONNECTED, None, None, None, None)
  }

  /** Logged in: any state after CONNECTED. */
  predicate LoggedIn(s: Session) {
    s.state != DISCONNECTED && s.state != CONNECTED
  }

  /**
   * The field comments of Client: an account once logged in, a MatchFound
   * exactly in MATCH_FOUND, a lobby and a team exactly in IN_LOBBY. (A
   * CONNECTED client may still hold an account: a login refused with
   * ALREADY_LOGGED_IN keeps the account it looked up.)
   */
  predicate WellFormedSession(s: Session) {
    && s.state != DISCONNECTED
    && (LoggedIn(s) ==> s.account.Some?)
    && (s.matchFound.Some? <==> s.state == MATCH_FOUND)
    && (s.lobby.Some? <==> s.state == IN_LOBBY)
    && (s.team.Some? <==> s.state == IN_LOBBY)
  }

  /** The MatchFound invariant: LOBBY_SIZE players, and the counter counts the set flags. */
  predicate ValidMatchFound(m: MatchFoundState) {
    |m.players| == LOBBY_SIZE && m.numPlayersAccepted == |Accepted(m.players)|
  }

  /** No username is seated twice in a lobby. */
  predicate Unique(l: Lineup) {
    var us := Usernames(l.blue) + Usernames(l.red);
    forall i, j :: 0 <= i < j < |us| ==> us[i] != us[j]
  }

  /**
   * A lobby of two full teams of valid players, each with a distinct
   * username, whose reserved heroes are all held by some slot.
   */
  predicate ValidLobby(l: Lineup) {
    && |l.blue| == TEAM_SIZE && |l.red| == TEAM_SIZE
    && AllLobbyPlayers(l.blue) && AllLobbyPlayers(l.red)
    && ReservedHeld(l) && Unique(l)
  }

  /**
   * Everything the handlers read and write: the sessions, the
   * authenticated map, the account directory, the matchmaker's waiting
   * players with their integer ranks, the MatchFound and Lobby objects, and
   * the objects whose timer task was scheduled and has not yet run.
   */
  datatype World = World(clients: map<ClientId, Session>, auth: map<string, ClientId>,
                         accounts: map<string, AccountState>, waiting: map<string, int>,
                         matches: map<MatchId, MatchFoundState>, lobbies: map<LobbyId, LobbyState>,
                         acceptTimers: set<MatchId>, selectTimers: set<LobbyId>)

  /**
   * What a handler may leave unfinished while it works through a group of
   * players: MatchFound and Lobby objects being built or taken apart, and
   * players IN_MATCHMAKING that are not (yet, or any more) in the matchmaker.
   */
  datatype Exempt = Exempt(matches: set<MatchId>, lobbies: set<LobbyId>, pending: set<string>)

  const NONE: Exempt := Exempt({}, {}, {})

  /** The username has an authenticated connected client. */
  ghost predicate Has(w: World, u: string) {
    u in w.auth && w.auth[u] in w.clients
  }

  /** The record of the client logged in as u. */
  ghost function At(w: World, u: string): Session
    requires Has(w, u)
  {
    w.clients[w.auth[u]]
  }

  /** Every client's record is well formed, names a filed account, and a logged-in one is authenticated. */
  ghost predicate SessionsOk(w: World) {
    forall c :: c in w.clients ==>
      && WellFormedSession(w.clients[c])
      && (w.clients[c].account.Some? ==> w.clients[c].account.value in w.accounts)
      && (LoggedIn(w.clients[c]) ==> w.clients[c].account.value in w.auth && w.auth[w.clients[c].account.value] == c)
  }

  /** authenticatedClients maps each username to a connected client logged in under it. */
  ghost predicate AuthOk(w: World) {
    forall u :: u in w.auth ==>
      w.auth[u] in w.clients && LoggedIn(w.clients[w.auth[u]]) && w.clients[w.auth[u]].account == Some(u)
  }

  /** Every filed account is valid. */
  ghost predicate AccountsOk(w: World) {
    forall u :: u in w.accounts ==> IsAccount(u, w.accounts[u])
  }

  ghost predicate Registry(w: World) {
    SessionsOk(w) && AuthOk(w) && AccountsOk(w)
  }

  /**
   * The matchmaker holds exactly the players IN_MATCHMAKING that are not
   * pending, each with its account's integer rank.
   */
  ghost predicate Queue(w: World, pending: set<string>) {
    && (forall u :: u in w.waiting ==>
          Has(w, u) && At(w, u).state == IN_MATCHMAKING && u !in pending &&
          u in w.accounts && w.waiting[u] == RoundRank(w.accounts[u].rank))
    && (forall u :: Has(w, u) && At(w, u).state == IN_MATCHMAKING && u !in pending ==> u in w.waiting)
    && (forall u :: u in pending ==> Has(w, u) && At(w, u).state == IN_MATCHMAKING && u !in w.waiting)
  }

  /** A valid MatchFound whose players are all in MATCH_FOUND with it, and whose timer runs. */
  ghost predicate LiveMatch(w: World, m: MatchId) {
    && m in w.matches && ValidMatchFound(w.matches[m]) && !w.matches[m].timerCanceled
    && forall u :: u in w.matches[m].players ==> Has(w, u) && At(w, u).matchFound == Some(m)
  }

  /** Every player in MATCH_FOUND is a player of its MatchFound, which is live unless exempt. */
  ghost predicate Matches(w: World, exempt: set<MatchId>) {
    forall u :: Has(w, u) && At(w, u).matchFound.Some? ==>
      && At(w, u).matchFound.value in w.matches && u in w.matches[At(w, u).matchFound.value].players
      && (At(w, u).matchFound.value !in exempt ==> LiveMatch(w, At(w, u).matchFound.value))
  }

  /** Every player of the team ps of lobby l is a client IN_LOBBY with l and team t. */
  ghost predicate Seated(w: World, l: LobbyId, ps: seq<LobbyPlayer>, t: Team) {
    forall i :: 0 <= i < |ps| ==>
      Has(w, ps[i].username) && At(w, ps[i].username).lobby == Some(l) && At(w, ps[i].username).team == Some(t)
  }

  /** A valid lobby whose players are all IN_LOBBY with it, and whose timer runs. */
  ghost predicate LiveLobby(w: World, l: LobbyId) {
    && l in w.lobbies && ValidLobby(w.lobbies[l].lineup) && !w.lobbies[l].timerCanceled
    && Seated(w, l, w.lobbies[l].lineup.blue, Blue) && Seated(w, l, w.lobbies[l].lineup.red, Red)
  }

  /** The team t of lobby l seats u. */
  ghost predicate SeatedIn(w: World, l: LobbyId, t: Team, u: string)
    requires l in w.lobbies
  {
    u in Usernames(TeamOf(w.lobbies[l].lineup, t))
  }

  /** Every player IN_LOBBY sits in its team of its lobby, which is live unless exempt. */
  ghost predicate InLobbies(w: World, exempt: set<LobbyId>) {
    forall u :: Has(w, u) && At(w, u).lobby.Some? ==>
      && At(w, u).lobby.value in w.lobbies && At(w, u).team.Some?
      && SeatedIn(w, At(w, u).lobby.value, At(w, u).team.value, u)
      && (At(w, u).lobby.value !in exempt ==> LiveLobby(w, At(w, u).lobby.value))
  }

  /**
   * A scheduled timer task belongs to an object; if its timer was not
   * canceled, the object is live (unless exempt).
   */
  ghost predicate Timers(w: World, x: Exempt) {
    && (forall m :: m in w.acceptTimers ==>
          m in w.matches && (m !in x.matches && !w.matches[m].timerCanceled ==> LiveMatch(w, m)))
    && (forall l :: l in w.selectTimers ==>
          l in w.lobbies && (l !in x.lobbies && !w.lobbies[l].timerCanceled ==> LiveLobby(w, l)))
  }

  /** The server's invariant, short of what x exempts. */
  ghost predicate ServerInv(w: World, x: Exempt) {
    && Registry(w)
    && Queue(w, x.pending)
    && Matches(w, x.matches)
    && InLobbies(w, x.lobbies)
    && Timers(w, x)
  }

  // --------------------------------------------------------------- frames

  /** Every user of us keeps its client and that client's record. */
  ghost predicate Keeps(w: World, w': World, us: set<string>) {
    forall v :: v in us && Has(w, v) ==> Has(w', v) && At(w', v) == At(w, v)
  }

  lemma LiveMatchFrame(w: World, w': World, m: MatchId)
    requires LiveMatch(w, m) && m in w'.matches && w'.matches[m] == w.matches[m]
    requires Keeps(w, w', w.matches[m].players.Keys)
    ensures LiveMatch(w', m)
  {
  }

  lemma SeatedFrame(w: World, w': World, l: LobbyId, ps: seq<LobbyPlayer>, t: Team, us: set<string>)
    requires Seated(w, l, ps, t) && Keeps(w, w', us)
    requires forall i :: 0 <= i < |ps| ==> ps[i].username in us
    ensures Seated(w', l, ps, t)
  {
  }

  lemma LiveLobbyFrame(w: World, w': World, l: LobbyId)
    requires LiveLobby(w, l) && l in w'.lobbies && w'.lobbies[l] == w.lobbies[l]
    requires Keeps(w, w', Members(w.lobbies[l].lineup))
    ensures LiveLobby(w', l)
  {
    var lu := w.lobbies[l].lineup;
    SeatedFrame(w, w', l, lu.blue, Blue, Members(lu));
    SeatedFrame(w, w', l, lu.red, Red, Members(lu));
  }

  /** Two users logged in on the same client are the same user. */
  lemma AuthInjective(w: World, u: string, v: string)
    requires AuthOk(w) && u in w.auth && v in w.auth && w.auth[u] == w.auth[v]
    ensures u == v
  {
  }

  // ------------------------------------------------------ moving a client

  /** The record of the client logged in as u becomes s. */
  ghost function Move(w: World, u: string, s: Session): World
    requires Has(w, u)
  {
    w.(clients := w.clients[w.auth[u] := s])
  }

  /** A move keeps every other user's client and record. */
  lemma MoveKeeps(w: World, u: string, s: Session, us: set<string>)
    requires AuthOk(w) && Has(w, u) && u !in us
    ensures Keeps(w, Move(w, u, s), us)
  {
    forall v | v in us && Has(w, v) ensures Has(Move(w, u, s), v) && At(Move(w, u, s), v) == At(w, v) {
      if w.auth[v] == w.auth[u] {
        AuthInjective(w, u, v);
      }
    }
  }

  /**
   * When the client logged in as u may take the record s: it stays logged
   * in as u and out of the matchmaker; the MatchFound or Lobby it leaves is
   * exempt, and so is the one it joins, which already counts it among its
   * players; and it is pending exactly when it ends IN_MATCHMAKING.
   */
  ghost predicate Movable(w: World, u: string, s: Session, x: Exempt, x': Exempt) {
    && Has(w, u) && u !in w.waiting
    && WellFormedSession(s) && LoggedIn(s) && s.account == At(w, u).account
    && (At(w, u).matchFound.Some? ==> At(w, u).matchFound.value in x.matches)
    && (At(w, u).lobby.Some? ==> At(w, u).lobby.value in x.lobbies)
    && (s.matchFound.Some? ==>
          s.matchFound.value in w.matches && s.matchFound.value in x'.matches &&
          u in w.matches[s.matchFound.value].players)
    && (s.lobby.Some? ==>
          s.lobby.value in w.lobbies && s.lobby.value in x'.lobbies && SeatedIn(w, s.lobby.value, s.team.value, u))
    && x.matches <= x'.matches && x.lobbies <= x'.lobbies
    && x'.pending == (x.pending - {u}) + (if s.state == IN_MATCHMAKING then {u} else {})
  }

  /** A player whose MatchFound is exempt plays in no live MatchFound outside the exempt ones. */
  lemma NotInLiveMatch(w: World, u: string, exempt: set<MatchId>, m: MatchId)
    requires Has(w, u) && (At(w, u).matchFound.Some? ==> At(w, u).matchFound.value in exempt)
    requires LiveMatch(w, m) && m !in exempt
    ensures u !in w.matches[m].players
  {
  }

  /** A player whose Lobby is exempt sits in no live Lobby outside the exempt ones. */
  lemma NotInLiveLobby(w: World, u: string, exempt: set<LobbyId>, l: LobbyId)
    requires Has(w, u) && (At(w, u).lobby.Some? ==> At(w, u).lobby.value in exempt)
    requires LiveLobby(w, l) && l !in exempt
    ensures u !in Members(w.lobbies[l].lineup)
  {
  }

  /** A move keeps every live MatchFound outside x'.matches live. */
  lemma MoveKeepsLiveMatch(w: World, u: string, s: Session, x: Exempt, x': Exempt, m: MatchId)
    requires AuthOk(w) && Movable(w, u, s, x, x') && LiveMatch(w, m) && m !in x'.matches
    ensures LiveMatch(Move(w, u, s), m)
  {
    NotInLiveMatch(w, u, x.matches, m);
    MoveKeeps(w, u, s, w.matches[m].players.Keys);
    LiveMatchFrame(w, Move(w, u, s), m);
  }

  /** A move keeps every live Lobby outside x'.lobbies live. */
  lemma MoveKeepsLiveLobby(w: World, u: string, s: Session, x: Exempt, x': Exempt, l: LobbyId)
    requires AuthOk(w) && Movable(w, u, s, x, x') && LiveLobby(w, l) && l !in x'.lobbies
    ensures LiveLobby(Move(w, u, s), l)
  {
    NotInLiveLobby(w, u, x.lobbies, l);
    MoveKeeps(w, u, s, Members(w.lobbies[l].lineup));
    LiveLobbyFrame(w, Move(w, u, s), l);
  }

  lemma MoveKeepsRegistry(w: World, u: string, s: Session, x: Exempt, x': Exempt)
    requires Registry(w) && Movable(w, u, s, x, x')
    ensures Registry(Move(w, u, s))
  {
    var w' := Move(w, u, s);
    forall c | c in w'.clients
      ensures LoggedIn(w'.clients[c]) ==> w'.clients[c].account.value in w'.auth && w'.auth[w'.clients[c].account.value] == c
    {
    }
    forall v | v in w'.auth ensures w'.auth[v] in w'.clients && LoggedIn(w'.clients[w'.auth[v]]) && w'.clients[w'.auth[v]].account == Some(v) {
    }
  }

  lemma MoveKeepsQueue(w: World, u: string, s: Session, x: Exempt, x': Exempt)
    requires AuthOk(w) && Queue(w, x.pending) && Movable(w, u, s, x, x')
    ensures Queue(Move(w, u, s), x'.pending)
  {
    var w' := Move(w, u, s);
    MoveKeeps(w, u, s, w.auth.Keys - {u});
    forall v | v in w'.waiting ensures Has(w', v) && At(w', v) == At(w, v) {
    }
    forall v | Has(w', v) && At(w', v).state == IN_MATCHMAKING && v !in x'.pending ensures v in w'.waiting {
      assert Has(w, v);
    }
    forall v | v in x'.pending ensures Has(w', v) && At(w', v).state == IN_MATCHMAKING && v !in w'.waiting {
    }
  }

  lemma MoveKeepsMatches(w: World, u: string, s: Session, x: Exempt, x': Exempt)
    requires AuthOk(w) && Matches(w, x.matches) && Movable(w, u, s, x, x')
    ensures Matches(Move(w, u, s), x'.matches)
  {
    var w' := Move(w, u, s);
    MoveKeeps(w, u, s, w.auth.Keys - {u});
    forall v | Has(w', v) && At(w', v).matchFound.Some? && At(w', v).matchFound.value !in x'.matches
      ensures LiveMatch(w', At(w', v).matchFound.value)
    {
      MoveKeepsLiveMatch(w, u, s, x, x', At(w', v).matchFound.value);
    }
  }

  lemma MoveKeepsInLobbies(w: World, u: string, s: Session, x: Exempt, x': Exempt)
    requires AuthOk(w) && InLobbies(w, x.lobbies) && Movable(w, u, s, x, x')
    ensures InLobbies(Move(w, u, s), x'.lobbies)
  {
    var w' := Move(w, u, s);
    MoveKeeps(w, u, s, w.auth.Keys - {u});
    forall v | Has(w', v) && At(w', v).lobby.Some? && At(w', v).lobby.value !in x'.lobbies
      ensures LiveLobby(w', At(w', v).lobby.value)
    {
      MoveKeepsLiveLobby(w, u, s, x, x', At(w', v).lobby.value);
    }
  }

  lemma MoveKeepsTimers(w: World, u: string, s: Session, x: Exempt, x': Exempt)
    requires AuthOk(w) && Timers(w, x) && Movable(w, u, s, x, x')
    ensures Timers(Move(w, u, s), x')
  {
    var w' := Move(w, u, s);
    forall m | m in w'.acceptTimers && m !in x'.matches && !w'.matches[m].timerCanceled ensures LiveMatch(w', m) {
      MoveKeepsLiveMatch(w, u, s, x, x', m);
    }
    forall l | l in w'.selectTimers && l !in x'.lobbies && !w'.lobbies[l].timerCanceled ensures LiveLobby(w', l) {
      MoveKeepsLiveLobby(w, u, s, x, x', l);
    }
  }

  /** Any allowed move keeps the invariant, with x' in place of x. */
  lemma MoveKeepsInv(w: World, u: string, s: Session, x: Exempt, x': Exempt)
    requires ServerInv(w, x) && Movable(w, u, s, x, x')
    ensures ServerInv(Move(w, u, s), x')
  {
    MoveKeepsRegistry(w, u, s, x, x');
    MoveKeepsQueue(w, u, s, x, x');
    MoveKeepsMatches(w, u, s, x, x');
    MoveKeepsInLobbies(w, u, s, x, x');
    MoveKeepsTimers(w, u, s, x, x');
  }

  // ------------------------------------------- steps that keep every user

  /** w' has the same users as w, each with the same record. */
  ghost predicate SameUsers(w: World, w': World) {
    && w'.auth == w.auth
    && (forall v :: Has(w', v) <==> Has(w, v))
    && (forall v :: Has(w, v) ==> At(w', v) == At(w, v))
  }

  /** The objects and the matchmaker are as in w. */
  ghost predicate SameObjects(w: World, w': World) {
    && w'.waiting == w.waiting && w'.matches == w.matches && w'.lobbies == w.lobbies
    && w'.acceptTimers == w.acceptTimers && w'.selectTimers == w.selectTimers
  }

  lemma SameUsersKeepsLive(w: World, w': World)
    requires SameUsers(w, w') && SameObjects(w, w')
    ensures forall m :: LiveMatch(w, m) ==> LiveMatch(w', m)
    ensures forall l :: LiveLobby(w, l) ==> LiveLobby(w', l)
  {
    forall m | LiveMatch(w, m) ensures LiveMatch(w', m) {
      LiveMatchFrame(w, w', m);
    }
    forall l | LiveLobby(w, l) ensures LiveLobby(w', l) {
      LiveLobbyFrame(w, w', l);
    }
  }

  lemma SameUsersKeepsQueue(w: World, w': World, p: set<string>)
    requires Queue(w, p) && SameUsers(w, w') && w'.waiting == w.waiting
    requires forall v :: v in w.waiting ==> v in w'.accounts && w'.accounts[v].rank == w.accounts[v].rank
    ensures Queue(w', p)
  {
  }

  lemma SameUsersKeepsMatches(w: World, w': World, x: Exempt)
    requires Matches(w, x.matches) && SameUsers(w, w') && SameObjects(w, w')
    ensures Matches(w', x.matches)
  {
    SameUsersKeepsLive(w, w');
  }

  lemma SameUsersKeepsInLobbies(w: World, w': World, x: Exempt)
    requires InLobbies(w, x.lobbies) && SameUsers(w, w') && SameObjects(w, w')
    ensures InLobbies(w', x.lobbies)
  {
    SameUsersKeepsLive(w, w');
  }

  lemma SameUsersKeepsTimers(w: World, w': World, x: Exempt)
    requires Timers(w, x) && SameUsers(w, w') && SameObjects(w, w')
    ensures Timers(w', x)
  {
    SameUsersKeepsLive(w, w');
  }

  /**
   * A step that keeps every user with its record, every object, and the
   * ranks of the waiting players, keeps all of the invariant but the
   * registry.
   */
  lemma SameUsersKeepsInv(w: World, w': World, x: Exempt)
    requires ServerInv(w, x) && Registry(w') && SameUsers(w, w') && SameObjects(w, w')
    requires forall v :: v in w.waiting ==> v in w'.accounts && w'.accounts[v].rank == w.accounts[v].rank
    ensures ServerInv(w', x)
  {
    SameUsersKeepsQueue(w, w', x.pending);
    SameUsersKeepsMatches(w, w', x);
    SameUsersKeepsInLobbies(w, w', x);
    SameUsersKeepsTimers(w, w', x);
  }

  // ------------------------------------------------- connecting, logging in

  lemma ConnectKeepsUsers(w: World, c: ClientId)
    requires Registry(w) && c !in w.clients
    ensures Registry(w.(clients := w.clients[c := NewSession()]))
    ensures SameUsers(w, w.(clients := w.clients[c := NewSession()]))
  {
  }

  /** A new CONNECTED client under a number not in use. */
  lemma ConnectKeepsInv(w: World, c: ClientId, x: Exempt)
    requires ServerInv(w, x) && c !in w.clients
    ensures ServerInv(w.(clients := w.clients[c := NewSession()]), x)
  {
    var w' := w.(clients := w.clients[c := NewSession()]);
    ConnectKeepsUsers(w, c);
    SameUsersKeepsInv(w, w', x);
  }

  /** A client state that holds no object and is not in the matchmaker. */
  predicate Unattached(s: Session) {
    s.matchFound.None? && s.lobby.None? && s.state != IN_MATCHMAKING
  }

  /** w' has the users of w with their records, and u besides, holding nothing. */
  ghost predicate Gains(w: World, w': World, u: string) {
    && !Has(w, u) && Has(w', u) && Unattached(At(w', u))
    && (forall v :: Has(w', v) <==> Has(w, v) || v == u)
    && (forall v :: Has(w, v) ==> At(w', v) == At(w, v))
  }

  lemma GainsKeepsQueue(w: World, w': World, u: string, p: set<string>)
    requires Queue(w, p) && Gains(w, w', u) && w'.waiting == w.waiting
    requires forall v :: v in w.waiting ==> v in w'.accounts && w'.accounts[v].rank == w.accounts[v].rank
    ensures Queue(w', p)
  {
  }

  lemma GainsKeepsLive(w: World, w': World, u: string)
    requires Gains(w, w', u) && SameObjects(w, w')
    ensures forall m :: LiveMatch(w, m) ==> LiveMatch(w', m)
    ensures forall l :: LiveLobby(w, l) ==> LiveLobby(w', l)
  {
    forall m | LiveMatch(w, m) ensures LiveMatch(w', m) {
      LiveMatchFrame(w, w', m);
    }
    forall l | LiveLobby(w, l) ensures LiveLobby(w', l) {
      LiveLobbyFrame(w, w', l);
    }
  }

  lemma GainsKeepsObjects(w: World, w': World, u: string, x: Exempt)
    requires Matches(w, x.matches) && InLobbies(w, x.lobbies) && Timers(w, x)
    requires Gains(w, w', u) && SameObjects(w, w')
    ensures Matches(w', x.matches) && InLobbies(w', x.lobbies) && Timers(w', x)
  {
    GainsKeepsLive(w, w', u);
  }

  /** w' has the users of w but u, with their records; u held only exempt objects and was not waiting. */
  ghost predicate Loses(w: World, w': World, u: string, x: Exempt) {
    && Has(w, u) && !Has(w', u) && u !in w.waiting
    && (At(w, u).matchFound.Some? ==> At(w, u).matchFound.value in x.matches)
    && (At(w, u).lobby.Some? ==> At(w, u).lobby.value in x.lobbies)
    && (forall v :: Has(w', v) <==> Has(w, v) && v != u)
    && (forall v :: Has(w', v) ==> At(w', v) == At(w, v))
  }

  lemma LosesKeepsQueue(w: World, w': World, u: string, x: Exempt)
    requires Queue(w, x.pending) && Loses(w, w', u, x) && w'.waiting == w.waiting
    requires forall v :: v in w.waiting ==> v in w'.accounts && w'.accounts[v].rank == w.accounts[v].rank
    ensures Queue(w', x.pending - {u})
  {
  }

  lemma LosesKeepsLiveMatch(w: World, w': World, u: string, x: Exempt, m: MatchId)
    requires Loses(w, w', u, x) && SameObjects(w, w') && LiveMatch(w, m) && m !in x.matches
    ensures LiveMatch(w', m)
  {
    NotInLiveMatch(w, u, x.matches, m);
    LiveMatchFrame(w, w', m);
  }

  lemma LosesKeepsLiveLobby(w: World, w': World, u: string, x: Exempt, l: LobbyId)
    requires Loses(w, w', u, x) && SameObjects(w, w') && LiveLobby(w, l) && l !in x.lobbies
    ensures LiveLobby(w', l)
  {
    NotInLiveLobby(w, u, x.lobbies, l);
    LiveLobbyFrame(w, w', l);
  }

  lemma LosesKeepsMatches(w: World, w': World, u: string, x: Exempt)
    requires Matches(w, x.matches) && Loses(w, w', u, x) && SameObjects(w, w')
    ensures Matches(w', x.matches)
  {
    forall v | Has(w', v) && At(w', v).matchFound.Some? && At(w', v).matchFound.value !in x.matches
      ensures LiveMatch(w', At(w', v).matchFound.value)
    {
      LosesKeepsLiveMatch(w, w', u, x, At(w', v).matchFound.value);
    }
  }

  lemma LosesKeepsInLobbies(w: World, w': World, u: string, x: Exempt)
    requires InLobbies(w, x.lobbies) && Loses(w, w', u, x) && SameObjects(w, w')
    ensures InLobbies(w', x.lobbies)
  {
    forall v | Has(w', v) && At(w', v).lobby.Some? && At(w', v).lobby.value !in x.lobbies
      ensures LiveLobby(w', At(w', v).lobby.value)
    {
      LosesKeepsLiveLobby(w, w', u, x, At(w', v).lobby.value);
    }
  }

  lemma LosesKeepsTimers(w: World, w': World, u: string, x: Exempt)
    requires Timers(w, x) && Loses(w, w', u, x) && SameObjects(w, w')
    ensures Timers(w', x)
  {
    forall m | m in w'.acceptTimers && m !in x.matches && !w'.matches[m].timerCanceled ensures LiveMatch(w', m) {
      LosesKeepsLiveMatch(w, w', u, x, m);
    }
    forall l | l in w'.selectTimers && l !in x.lobbies && !w'.lobbies[l].timerCanceled ensures LiveLobby(w', l) {
      LosesKeepsLiveLobby(w, w', u, x, l);
    }
  }

  /** The successful login of the CONNECTED client c as u, whose account is filed and who is not logged in. */
  ghost function LogIn(w: World, c: ClientId, u: string): World {
    w.(clients := w.clients[c := Session(IDLE, Some(u), None, None, None)], auth := w.auth[u := c])
  }

  lemma LogInKeepsRegistry(w: World, c: ClientId, u: string)
    requires Registry(w) && c in w.clients && w.clients[c].state == CONNECTED && u in w.accounts && u !in w.auth
    ensures Registry(LogIn(w, c, u))
  {
    var w' := LogIn(w, c, u);
    forall d | d in w'.clients
      ensures WellFormedSession(w'.clients[d]) && (w'.clients[d].account.Some? ==> w'.clients[d].account.value in w'.accounts)
      ensures LoggedIn(w'.clients[d]) ==> w'.clients[d].account.value in w'.auth && w'.auth[w'.clients[d].account.value] == d
    {
      if d != c {
        assert w'.clients[d] == w.clients[d];
      }
    }
    forall v | v in w'.auth
      ensures w'.auth[v] in w'.clients && LoggedIn(w'.clients[w'.auth[v]]) && w'.clients[w'.auth[v]].account == Some(v)
    {
      if v != u {
        assert w.auth[v] != c;
      }
    }
  }

  lemma LogInGains(w: World, c: ClientId, u: string)
    requires AuthOk(w) && c in w.clients && w.clients[c].state == CONNECTED && u !in w.auth
    ensures Gains(w, LogIn(w, c, u), u)
  {
    var w' := LogIn(w, c, u);
    forall v | Has(w, v) ensures At(w', v) == At(w, v) {
      assert w.auth[v] != c;
    }
  }

  lemma LogInKeepsInv(w: World, c: ClientId, u: string, x: Exempt)
    requires ServerInv(w, x) && c in w.clients && w.clients[c].state == CONNECTED && u in w.accounts && u !in w.auth
    ensures ServerInv(LogIn(w, c, u), x)
  {
    LogInKeepsRegistry(w, c, u);
    LogInGains(w, c, u);
    GainsKeepsQueue(w, LogIn(w, c, u), u, x.pending);
    GainsKeepsObjects(w, LogIn(w, c, u), u, x);
  }

  /** A CONNECTED client takes the filed account u without logging in (a login refused as ALREADY_LOGGED_IN). */
  lemma ClaimKeepsInv(w: World, c: ClientId, u: string, x: Exempt)
    requires ServerInv(w, x) && c in w.clients && w.clients[c].state == CONNECTED && u in w.accounts
    ensures ServerInv(w.(clients := w.clients[c := w.clients[c].(account := Some(u))]), x)
  {
    var w' := w.(clients := w.clients[c := w.clients[c].(account := Some(u))]);
    assert Registry(w') && SameUsers(w, w') by {
      forall v | Has(w, v) ensures At(w', v) == At(w, v) {
        assert w.auth[v] != c;
      }
    }
    SameUsersKeepsInv(w, w', x);
  }

  /** Filing an account, new or updated, under its own username keeps every client as it was. */
  lemma SetAccountKeepsRegistry(w: World, u: string, a: AccountState)
    requires Registry(w) && IsAccount(u, a)
    ensures Registry(w.(accounts := w.accounts[u := a])) && SameUsers(w, w.(accounts := w.accounts[u := a]))
  {
    var w' := w.(accounts := w.accounts[u := a]);
    assert SessionsOk(w') by {
      forall d | d in w'.clients && w'.clients[d].account.Some? ensures w'.clients[d].account.value in w'.accounts {
      }
    }
    assert AccountsOk(w') by {
      forall v | v in w'.accounts ensures IsAccount(v, w'.accounts[v]) {
      }
    }
  }

  /** A new account filed under a username that has none. */
  lemma FileAccountKeepsInv(w: World, u: string, a: AccountState, x: Exempt)
    requires ServerInv(w, x) && u !in w.accounts && IsAccount(u, a)
    ensures ServerInv(w.(accounts := w.accounts[u := a]), x)
  {
    SetAccountKeepsRegistry(w, u, a);
    SameUsersKeepsInv(w, w.(accounts := w.accounts[u := a]), x);
  }

  /**
   * The account of a player that is not waiting gets new values; its
   * username stays.
   */
  lemma UpdateAccountKeepsInv(w: World, u: string, a: AccountState, x: Exempt)
    requires ServerInv(w, x) && u in w.accounts && u !in w.waiting && IsAccount(u, a)
    ensures ServerInv(w.(accounts := w.accounts[u := a]), x)
  {
    SetAccountKeepsRegistry(w, u, a);
    SameUsersKeepsInv(w, w.(accounts := w.accounts[u := a]), x);
  }

  /**
   * The directory gets new values for some accounts, every one valid and
   * none of a waiting player's ranks changed; no username is removed.
   */
  lemma RefileKeepsInv(w: World, acc: map<string, AccountState>, x: Exempt)
    requires ServerInv(w, x)
    requires forall u :: u in w.accounts ==> u in acc
    requires forall u :: u in acc ==> IsAccount(u, acc[u])
    requires forall u :: u in w.waiting ==> u in acc && acc[u].rank == w.accounts[u].rank
    ensures ServerInv(w.(accounts := acc), x)
  {
    var w' := w.(accounts := acc);
    assert SessionsOk(w') by {
      forall d | d in w'.clients && w'.clients[d].account.Some? ensures w'.clients[d].account.value in w'.accounts {
      }
    }
    SameUsersKeepsInv(w, w', x);
  }

  /** The logged-in client c leaves the authenticated map and goes back to a fresh CONNECTED record. */
  ghost function LogOut(w: World, c: ClientId): World
    requires c in w.clients && w.clients[c].account.Some?
  {
    w.(clients := w.clients[c := NewSession()], auth := w.auth - {w.clients[c].account.value})
  }

  lemma LogOutKeepsRegistry(w: World, c: ClientId)
    requires Registry(w) && c in w.clients && w.clients[c].state == IDLE
    ensures Registry(LogOut(w, c))
  {
    var u := w.clients[c].account.value;
    var w' := LogOut(w, c);
    forall d | d in w'.clients
      ensures WellFormedSession(w'.clients[d]) && (w'.clients[d].account.Some? ==> w'.clients[d].account.value in w'.accounts)
      ensures LoggedIn(w'.clients[d]) ==> w'.clients[d].account.value in w'.auth && w'.auth[w'.clients[d].account.value] == d
    {
      if d != c {
        assert w'.clients[d] == w.clients[d];
        if LoggedIn(w.clients[d]) {
          assert w.clients[d].account.value != u;
        }
      }
    }
    forall v | v in w'.auth
      ensures w'.auth[v] in w'.clients && LoggedIn(w'.clients[w'.auth[v]]) && w'.clients[w'.auth[v]].account == Some(v)
    {
      assert w.auth[v] != c;
    }
  }

  lemma LogOutLoses(w: World, c: ClientId, x: Exempt)
    requires AuthOk(w) && c in w.clients && WellFormedSession(w.clients[c]) && w.clients[c].state == IDLE
    requires w.clients[c].account.value in w.auth && w.auth[w.clients[c].account.value] == c
    requires w.clients[c].account.value !in w.waiting
    ensures Loses(w, LogOut(w, c), w.clients[c].account.value, x)
  {
    var w' := LogOut(w, c);
    forall v | Has(w', v) ensures At(w', v) == At(w, v) {
      assert w.auth[v] != c;
    }
  }

  lemma LogOutKeepsInv(w: World, c: ClientId, x: Exempt)
    requires ServerInv(w, x) && c in w.clients && w.clients[c].state == IDLE
    ensures ServerInv(LogOut(w, c), x.(pending := x.pending - {w.clients[c].account.value}))
  {
    var u := w.clients[c].account.value;
    LogOutKeepsRegistry(w, c);
    LogOutLoses(w, c, x);
    LosesKeepsQueue(w, LogOut(w, c), u, x);
    LosesKeepsMatches(w, LogOut(w, c), u, x);
    LosesKeepsInLobbies(w, LogOut(w, c), u, x);
    LosesKeepsTimers(w, LogOut(w, c), u, x);
  }

  // ------------------------------------ steps on the matchmaker and the objects

  /** Two lineups seat the same usernames in the same places. */
  predicate SameSeats(a: Lineup, b: Lineup) {
    Usernames(a.blue) == Usernames(b.blue) && Usernames(a.red) == Usernames(b.red)
  }

  /**
   * w' keeps every user with its record and every object with its
   * players; apart from the MatchFound objects ms and the Lobby objects ls,
   * each object is exactly as it was. New objects may appear.
   */
  ghost predicate TablesStep(w: World, w': World, ms: set<MatchId>, ls: set<LobbyId>) {
    && SameUsers(w, w')
    && (forall m :: m in w.matches ==> m in w'.matches && w'.matches[m].players.Keys == w.matches[m].players.Keys)
    && (forall m :: m in w.matches && m !in ms ==> w'.matches[m] == w.matches[m])
    && (forall l :: l in w.lobbies ==> l in w'.lobbies && SameSeats(w.lobbies[l].lineup, w'.lobbies[l].lineup))
    && (forall l :: l in w.lobbies && l !in ls ==> w'.lobbies[l] == w.lobbies[l])
  }

  lemma TablesKeepLive(w: World, w': World, ms: set<MatchId>, ls: set<LobbyId>)
    requires TablesStep(w, w', ms, ls)
    ensures forall m :: LiveMatch(w, m) && m !in ms ==> LiveMatch(w', m)
    ensures forall l :: LiveLobby(w, l) && l !in ls ==> LiveLobby(w', l)
  {
    forall m | LiveMatch(w, m) && m !in ms ensures LiveMatch(w', m) {
      LiveMatchFrame(w, w', m);
    }
    forall l | LiveLobby(w, l) && l !in ls ensures LiveLobby(w', l) {
      LiveLobbyFrame(w, w', l);
    }
  }

  /**
   * The changed MatchFound objects, and those no longer exempt, must be
   * live in w' unless exempt there.
   */
  ghost predicate MatchesSettled(w': World, ms: set<MatchId>, e: set<MatchId>, e': set<MatchId>) {
    forall m :: (m in ms || m in e) && m !in e' ==> LiveMatch(w', m)
  }

  ghost predicate LobbiesSettled(w': World, ls: set<LobbyId>, e: set<LobbyId>, e': set<LobbyId>) {
    forall l :: (l in ls || l in e) && l !in e' ==> LiveLobby(w', l)
  }

  lemma TablesKeepMatches(w: World, w': World, ms: set<MatchId>, ls: set<LobbyId>, e: set<MatchId>, e': set<MatchId>)
    requires Matches(w, e) && TablesStep(w, w', ms, ls) && MatchesSettled(w', ms, e, e')
    ensures Matches(w', e')
  {
    TablesKeepLive(w, w', ms, ls);
    forall v | Has(w', v) && At(w', v).matchFound.Some?
      ensures At(w', v).matchFound.value in w'.matches && v in w'.matches[At(w', v).matchFound.value].players
      ensures At(w', v).matchFound.value !in e' ==> LiveMatch(w', At(w', v).matchFound.value)
    {
      assert Has(w, v) && At(w, v) == At(w', v);
    }
  }

  lemma TablesKeepInLobbies(w: World, w': World, ms: set<MatchId>, ls: set<LobbyId>, e: set<LobbyId>, e': set<LobbyId>)
    requires InLobbies(w, e) && TablesStep(w, w', ms, ls) && LobbiesSettled(w', ls, e, e')
    ensures InLobbies(w', e')
  {
    TablesKeepLive(w, w', ms, ls);
    forall v | Has(w', v) && At(w', v).lobby.Some?
      ensures At(w', v).lobby.value in w'.lobbies && At(w', v).team.Some?
      ensures SeatedIn(w', At(w', v).lobby.value, At(w', v).team.value, v)
      ensures At(w', v).lobby.value !in e' ==> LiveLobby(w', At(w', v).lobby.value)
    {
      assert Has(w, v) && At(w, v) == At(w', v);
    }
  }

  /** Every scheduled timer task of w' was scheduled in w, or its object is live. */
  ghost predicate TimersSettled(w: World, w': World) {
    && (forall m :: m in w'.acceptTimers ==> m in w.acceptTimers || LiveMatch(w', m))
    && (forall l :: l in w'.selectTimers ==> l in w.selectTimers || LiveLobby(w', l))
  }

  lemma TablesKeepTimers(w: World, w': World, ms: set<MatchId>, ls: set<LobbyId>, x: Exempt, x': Exempt)
    requires Timers(w, x) && TablesStep(w, w', ms, ls) && TimersSettled(w, w')
    requires MatchesSettled(w', ms, x.matches, x'.matches) && LobbiesSettled(w', ls, x.lobbies, x'.lobbies)
    ensures Timers(w', x')
  {
    TablesKeepLive(w, w', ms, ls);
  }

  lemma RegistryFrame(w: World, w': World)
    requires Registry(w) && w'.clients == w.clients && w'.auth == w.auth && w'.accounts == w.accounts
    ensures Registry(w')
  {
  }

  /**
   * A step that changes the matchmaker and the objects only, under the
   * conditions above, keeps the invariant as far as the queue holds.
   */
  lemma TablesKeepInv(w: World, w': World, ms: set<MatchId>, ls: set<LobbyId>, x: Exempt, x': Exempt)
    requires ServerInv(w, x) && TablesStep(w, w', ms, ls) && TimersSettled(w, w')
    requires w'.clients == w.clients && w'.accounts == w.accounts && Queue(w', x'.pending)
    requires MatchesSettled(w', ms, x.matches, x'.matches) && LobbiesSettled(w', ls, x.lobbies, x'.lobbies)
    ensures ServerInv(w', x')
  {
    RegistryFrame(w, w');
    TablesKeepMatches(w, w', ms, ls, x.matches, x'.matches);
    TablesKeepInLobbies(w, w', ms, ls, x.lobbies, x'.lobbies);
    TablesKeepTimers(w, w', ms, ls, x, x');
  }

  /** A step that leaves the clients, the authenticated map and the objects alone changes no table. */
  lemma NoTableChange(w: World, w': World)
    requires w'.clients == w.clients && w'.auth == w.auth && w'.matches == w.matches && w'.lobbies == w.lobbies
    ensures SameUsers(w, w') && TablesStep(w, w', {}, {})
  {
  }

  /** A step that leaves the scheduled timers alone. */
  lemma SameTimersSettled(w: World, w': World)
    requires w'.acceptTimers == w.acceptTimers && w'.selectTimers == w.selectTimers
    ensures TimersSettled(w, w')
  {
  }

  lemma DequeueKeepsQueue(w: World, u: string, p: set<string>)
    requires Queue(w, p) && u in w.waiting
    ensures Queue(w.(waiting := w.waiting - {u}), p + {u})
  {
  }

  /** removePlayer's step: u leaves the matchmaker and is pending. */
  lemma DequeueKeepsInv(w: World, u: string, x: Exempt)
    requires ServerInv(w, x) && u in w.waiting
    ensures ServerInv(w.(waiting := w.waiting - {u}), x.(pending := x.pending + {u}))
  {
    var w' := w.(waiting := w.waiting - {u});
    NoTableChange(w, w');
    SameTimersSettled(w, w');
    DequeueKeepsQueue(w, u, x.pending);
    TablesKeepInv(w, w', {}, {}, x, x.(pending := x.pending + {u}));
  }

  lemma EnqueueKeepsQueue(w: World, u: string, p: set<string>)
    requires Queue(w, p) && u in p && u in w.accounts
    ensures Queue(w.(waiting := w.waiting[u := RoundRank(w.accounts[u].rank)]), p - {u})
  {
  }

  /** addPlayer's step when no group forms: the pending u is waiting with its account's integer rank. */
  lemma EnqueueKeepsInv(w: World, u: string, x: Exempt)
    requires ServerInv(w, x) && u in x.pending
    ensures u in w.accounts
    ensures ServerInv(w.(waiting := w.waiting[u := RoundRank(w.accounts[u].rank)]), x.(pending := x.pending - {u}))
  {
    var w' := w.(waiting := w.waiting[u := RoundRank(w.accounts[u].rank)]);
    NoTableChange(w, w');
    SameTimersSettled(w, w');
    EnqueueKeepsQueue(w, u, x.pending);
    TablesKeepInv(w, w', {}, {}, x, x.(pending := x.pending - {u}));
  }

  /** A new MatchFound of the group g, none of whose players has accepted. */
  function NewMatch(g: set<string>): MatchFoundState {
    MatchFoundState(Unaccepted(g), 0, false)
  }

  lemma GroupDequeueKeepsQueue(w: World, u: string, g: set<string>, p: set<string>)
    requires Queue(w, p) && u in p && u in g && g <= w.waiting.Keys + {u} && u in w.accounts
    ensures Queue(w.(waiting := w.waiting[u := RoundRank(w.accounts[u].rank)] - g), p + g)
  {
  }

  /**
   * addPlayer's step when the group g forms around the pending player u:
   * the group leaves the matchmaker and every member is pending.
   */
  lemma GroupDequeueKeepsInv(w: World, u: string, g: set<string>, x: Exempt)
    requires ServerInv(w, x) && u in x.pending && u in g && g <= w.waiting.Keys + {u}
    ensures u in w.accounts
    ensures ServerInv(w.(waiting := w.waiting[u := RoundRank(w.accounts[u].rank)] - g), x.(pending := x.pending + g))
  {
    EnqueueKeepsInv(w, u, x);
    var w' := w.(waiting := w.waiting[u := RoundRank(w.accounts[u].rank)] - g);
    NoTableChange(w, w');
    SameTimersSettled(w, w');
    GroupDequeueKeepsQueue(w, u, g, x.pending);
    TablesKeepInv(w, w', {}, {}, x, x.(pending := x.pending + g));
  }

  lemma NewMatchTables(w: World, g: set<string>, m: MatchId, x: Exempt)
    requires m !in w.matches
    ensures var w' := w.(matches := w.matches[m := NewMatch(g)]);
      && SameUsers(w, w') && TablesStep(w, w', {}, {}) && TimersSettled(w, w')
      && MatchesSettled(w', {}, x.matches, x.matches + {m}) && LobbiesSettled(w', {}, x.lobbies, x.lobbies)
  {
  }

  /** A new MatchFound m of the group g, exempt until its players are moved to it. */
  lemma NewMatchKeepsInv(w: World, g: set<string>, m: MatchId, x: Exempt)
    requires ServerInv(w, x) && m !in w.matches
    ensures ServerInv(w.(matches := w.matches[m := NewMatch(g)]), x.(matches := x.matches + {m}))
  {
    var w' := w.(matches := w.matches[m := NewMatch(g)]);
    NewMatchTables(w, g, m, x);
    TablesKeepInv(w, w', {}, {}, x, x.(matches := x.matches + {m}));
  }

  /**
   * Starting the timer of a MatchFound m that is still exempt keeps the
   * invariant: only the scheduled timers change.
   */
  lemma StartExemptTimerKeepsInv(w: World, m: MatchId, x: Exempt)
    requires ServerInv(w, x) && m in x.matches && m in w.matches
    ensures ServerInv(w.(acceptTimers := w.acceptTimers + {m}), x)
  {
    var w' := w.(acceptTimers := w.acceptTimers + {m});
    NoTableChange(w, w');
    TablesKeepLive(w, w', {}, {});
    RegistryFrame(w, w');
    SameUsersKeepsQueue(w, w', x.pending);
    TablesKeepMatches(w, w', {}, {}, x.matches, x.matches);
    TablesKeepInLobbies(w, w', {}, {}, x.lobbies, x.lobbies);
  }

  /** A live MatchFound whose timer runs needs no exemption. */
  lemma LiveMatchUnexempt(w: World, m: MatchId, x: Exempt)
    requires ServerInv(w, x) && LiveMatch(w, m) && m in w.acceptTimers
    ensures ServerInv(w, x.(matches := x.matches - {m}))
  {
  }

  /** The record of m after u accepts. */
  function Accepting(mf: MatchFoundState, u: string): MatchFoundState {
    mf.(players := mf.players[u := true], numPlayersAccepted := mf.numPlayersAccepted + 1)
  }

  lemma AcceptStaysLive(w: World, u: string, m: MatchId)
    requires LiveMatch(w, m) && u in w.matches[m].players && !w.matches[m].players[u]
    ensures LiveMatch(w.(matches := w.matches[m := Accepting(w.matches[m], u)]), m)
  {
    var w' := w.(matches := w.matches[m := Accepting(w.matches[m], u)]);
    AcceptOne(w.matches[m].players, u);
    assert w'.matches[m].players.Keys == w.matches[m].players.Keys;
    forall v | v in w'.matches[m].players ensures Has(w', v) && At(w', v).matchFound == Some(m) {
      assert v in w.matches[m].players;
    }
  }

  lemma AcceptTables(w: World, u: string, m: MatchId, x: Exempt)
    requires LiveMatch(w, m) && u in w.matches[m].players && !w.matches[m].players[u]
    ensures var w' := w.(matches := w.matches[m := Accepting(w.matches[m], u)]);
      && SameUsers(w, w') && TablesStep(w, w', {m}, {}) && TimersSettled(w, w')
      && MatchesSettled(w', {m}, x.matches, x.matches) && LobbiesSettled(w', {}, x.lobbies, x.lobbies)
  {
    var w' := w.(matches := w.matches[m := Accepting(w.matches[m], u)]);
    AcceptStaysLive(w, u, m);
    assert TablesStep(w, w', {m}, {});
    TablesKeepLive(w, w', {m}, {});
  }

  /** acceptMatch by u, who had not accepted, on its live MatchFound. */
  lemma AcceptKeepsInv(w: World, u: string, m: MatchId, x: Exempt)
    requires ServerInv(w, x) && LiveMatch(w, m) && u in w.matches[m].players && !w.matches[m].players[u]
    ensures ServerInv(w.(matches := w.matches[m := Accepting(w.matches[m], u)]), x)
  {
    var w' := w.(matches := w.matches[m := Accepting(w.matches[m], u)]);
    AcceptTables(w, u, m, x);
    SameUsersKeepsQueue(w, w', x.pending);
    TablesKeepInv(w, w', {m}, {}, x, x);
  }

  lemma CancelMatchTables(w: World, m: MatchId, x: Exempt)
    requires m in w.matches
    ensures var w' := w.(matches := w.matches[m := w.matches[m].(timerCanceled := true)]);
      && SameUsers(w, w') && TablesStep(w, w', {m}, {}) && TimersSettled(w, w')
      && MatchesSettled(w', {m}, x.matches, x.matches + {m}) && LobbiesSettled(w', {}, x.lobbies, x.lobbies)
  {
  }

  /** cancelTimer on a MatchFound: it is exempt from then on. */
  lemma CancelMatchKeepsInv(w: World, m: MatchId, x: Exempt)
    requires ServerInv(w, x) && m in w.matches
    ensures ServerInv(w.(matches := w.matches[m := w.matches[m].(timerCanceled := true)]), x.(matches := x.matches + {m}))
  {
    var w' := w.(matches := w.matches[m := w.matches[m].(timerCanceled := true)]);
    CancelMatchTables(w, m, x);
    SameUsersKeepsQueue(w, w', x.pending);
    TablesKeepInv(w, w', {m}, {}, x, x.(matches := x.matches + {m}));
  }

  lemma FireAcceptTimerTables(w: World, m: MatchId, x: Exempt)
    ensures var w' := w.(acceptTimers := w.acceptTimers - {m});
      && SameUsers(w, w') && TablesStep(w, w', {}, {}) && TimersSettled(w, w')
      && MatchesSettled(w', {}, x.matches, x.matches + {m}) && LobbiesSettled(w', {}, x.lobbies, x.lobbies)
  {
  }

  /** The accept timer task of m runs: it is no longer scheduled, and m is exempt while the task works. */
  lemma FireAcceptTimerKeepsInv(w: World, m: MatchId, x: Exempt)
    requires ServerInv(w, x)
    ensures ServerInv(w.(acceptTimers := w.acceptTimers - {m}), x.(matches := x.matches + {m}))
  {
    var w' := w.(acceptTimers := w.acceptTimers - {m});
    FireAcceptTimerTables(w, m, x);
    SameUsersKeepsQueue(w, w', x.pending);
    TablesKeepInv(w, w', {}, {}, x, x.(matches := x.matches + {m}));
  }

  /** A MatchFound nobody holds any more, whose task is not scheduled unless canceled, needs no exemption. */
  lemma ReleaseMatchKeepsInv(w: World, m: MatchId, x: Exempt)
    requires ServerInv(w, x)
    requires forall v :: Has(w, v) ==> At(w, v).matchFound != Some(m)
    requires m in w.acceptTimers ==> w.matches[m].timerCanceled
    ensures ServerInv(w, x.(matches := x.matches - {m}))
  {
  }

  lemma CreateLobbyTables(w: World, l: LobbyId, lu: Lineup, x: Exempt)
    requires l !in w.lobbies
    ensures var w' := w.(lobbies := w.lobbies[l := LobbyState(lu, false)]);
      && SameUsers(w, w') && TablesStep(w, w', {}, {}) && TimersSettled(w, w')
      && MatchesSettled(w', {}, x.matches, x.matches) && LobbiesSettled(w', {}, x.lobbies, x.lobbies + {l})
  {
  }

  /** A new Lobby l, exempt until its players are moved to it. */
  lemma CreateLobbyKeepsInv(w: World, l: LobbyId, lu: Lineup, x: Exempt)
    requires ServerInv(w, x) && l !in w.lobbies
    ensures ServerInv(w.(lobbies := w.lobbies[l := LobbyState(lu, false)]), x.(lobbies := x.lobbies + {l}))
  {
    var w' := w.(lobbies := w.lobbies[l := LobbyState(lu, false)]);
    CreateLobbyTables(w, l, lu, x);
    SameUsersKeepsQueue(w, w', x.pending);
    TablesKeepInv(w, w', {}, {}, x, x.(lobbies := x.lobbies + {l}));
  }

  lemma StartSelectTimerTables(w: World, l: LobbyId, x: Exempt)
    requires LiveLobby(w, l)
    ensures var w' := w.(selectTimers := w.selectTimers + {l});
      && SameUsers(w, w') && TablesStep(w, w', {}, {}) && TimersSettled(w, w')
      && MatchesSettled(w', {}, x.matches, x.matches) && LobbiesSettled(w', {}, x.lobbies, x.lobbies - {l})
  {
    var w' := w.(selectTimers := w.selectTimers + {l});
    NoTableChange(w, w');
    TablesKeepLive(w, w', {}, {});
  }

  /** startTimer on a Lobby whose players all sit in it: it is live and its task scheduled. */
  lemma StartSelectTimerKeepsInv(w: World, l: LobbyId, x: Exempt)
    requires ServerInv(w, x) && LiveLobby(w, l)
    ensures ServerInv(w.(selectTimers := w.selectTimers + {l}), x.(lobbies := x.lobbies - {l}))
  {
    var w' := w.(selectTimers := w.selectTimers + {l});
    StartSelectTimerTables(w, l, x);
    SameUsersKeepsQueue(w, w', x.pending);
    TablesKeepInv(w, w', {}, {}, x, x.(lobbies := x.lobbies - {l}));
  }

  lemma CancelLobbyTables(w: World, l: LobbyId, x: Exempt)
    requires l in w.lobbies
    ensures var w' := w.(lobbies := w.lobbies[l := w.lobbies[l].(timerCanceled := true)]);
      && SameUsers(w, w') && TablesStep(w, w', {}, {l}) && TimersSettled(w, w')
      && MatchesSettled(w', {}, x.matches, x.matches) && LobbiesSettled(w', {l}, x.lobbies, x.lobbies + {l})
  {
  }

  /** cancelTimer on a Lobby: it is exempt from then on. */
  lemma CancelLobbyKeepsInv(w: World, l: LobbyId, x: Exempt)
    requires ServerInv(w, x) && l in w.lobbies
    ensures ServerInv(w.(lobbies := w.lobbies[l := w.lobbies[l].(timerCanceled := true)]), x.(lobbies := x.lobbies + {l}))
  {
    var w' := w.(lobbies := w.lobbies[l := w.lobbies[l].(timerCanceled := true)]);
    CancelLobbyTables(w, l, x);
    SameUsersKeepsQueue(w, w', x.pending);
    TablesKeepInv(w, w', {}, {l}, x, x.(lobbies := x.lobbies + {l}));
  }

  lemma FireSelectTimerTables(w: World, l: LobbyId, x: Exempt)
    ensures var w' := w.(selectTimers := w.selectTimers - {l});
      && SameUsers(w, w') && TablesStep(w, w', {}, {}) && TimersSettled(w, w')
      && MatchesSettled(w', {}, x.matches, x.matches) && LobbiesSettled(w', {}, x.lobbies, x.lobbies + {l})
  {
  }

  /** The select timer task of l runs: it is no longer scheduled, and l is exempt while the task works. */
  lemma FireSelectTimerKeepsInv(w: World, l: LobbyId, x: Exempt)
    requires ServerInv(w, x)
    ensures ServerInv(w.(selectTimers := w.selectTimers - {l}), x.(lobbies := x.lobbies + {l}))
  {
    var w' := w.(selectTimers := w.selectTimers - {l});
    FireSelectTimerTables(w, l, x);
    SameUsersKeepsQueue(w, w', x.pending);
    TablesKeepInv(w, w', {}, {}, x, x.(lobbies := x.lobbies + {l}));
  }

  /** A Lobby nobody sits in any more, whose task is not scheduled unless canceled, needs no exemption. */
  lemma ReleaseLobbyKeepsInv(w: World, l: LobbyId, x: Exempt)
    requires ServerInv(w, x)
    requires forall v :: Has(w, v) ==> At(w, v).lobby != Some(l)
    requires l in w.selectTimers ==> w.lobbies[l].timerCanceled
    ensures ServerInv(w, x.(lobbies := x.lobbies - {l}))
  {
  }

  /** A live Lobby whose lineup changes to a valid one seating the same players stays live. */
  lemma ReviseLobbyLive(w: World, l: LobbyId, lu: Lineup)
    requires LiveLobby(w, l) && SameSeats(w.lobbies[l].lineup, lu) && ValidLobby(lu)
    ensures LiveLobby(w.(lobbies := w.lobbies[l := w.lobbies[l].(lineup := lu)]), l)
  {
    var w' := w.(lobbies := w.lobbies[l := w.lobbies[l].(lineup := lu)]);
    var old_lu := w.lobbies[l].lineup;
    forall i | 0 <= i < |lu.blue|
      ensures Has(w', lu.blue[i].username) && At(w', lu.blue[i].username).lobby == Some(l)
      ensures At(w', lu.blue[i].username).team == Some(Blue)
    {
      assert lu.blue[i].username == Usernames(lu.blue)[i] == Usernames(old_lu.blue)[i] == old_lu.blue[i].username;
    }
    forall i | 0 <= i < |lu.red|
      ensures Has(w', lu.red[i].username) && At(w', lu.red[i].username).lobby == Some(l)
      ensures At(w', lu.red[i].username).team == Some(Red)
    {
      assert lu.red[i].username == Usernames(lu.red)[i] == Usernames(old_lu.red)[i] == old_lu.red[i].username;
    }
  }

  lemma ReviseLobbyTables(w: World, l: LobbyId, lu: Lineup, x: Exempt)
    requires LiveLobby(w, l) && SameSeats(w.lobbies[l].lineup, lu) && ValidLobby(lu)
    ensures var w' := w.(lobbies := w.lobbies[l := w.lobbies[l].(lineup := lu)]);
      && SameUsers(w, w') && TablesStep(w, w', {}, {l}) && TimersSettled(w, w')
      && MatchesSettled(w', {}, x.matches, x.matches) && LobbiesSettled(w', {l}, x.lobbies, x.lobbies)
  {
    var w' := w.(lobbies := w.lobbies[l := w.lobbies[l].(lineup := lu)]);
    ReviseLobbyLive(w, l, lu);
    assert TablesStep(w, w', {}, {l});
    TablesKeepLive(w, w', {}, {l});
  }

  /** trySelectHero on a live Lobby: the new lineup seats the same players and is valid. */
  lemma ReviseLobbyKeepsInv(w: World, l: LobbyId, lu: Lineup, x: Exempt)
    requires ServerInv(w, x) && LiveLobby(w, l) && SameSeats(w.lobbies[l].lineup, lu) && ValidLobby(lu)
    ensures ServerInv(w.(lobbies := w.lobbies[l := w.lobbies[l].(lineup := lu)]), x)
  {
    var w' := w.(lobbies := w.lobbies[l := w.lobbies[l].(lineup := lu)]);
    ReviseLobbyTables(w, l, lu, x);
    SameUsersKeepsQueue(w, w', x.pending);
    TablesKeepInv(w, w', {}, {l}, x, x);
  }

  // --------------------------------------------------- a client goes away

  /** connectedClients.remove, and the authenticated entry of a logged-in client. */
  ghost function Drop(w: World, c: ClientId): World
    requires c in w.clients
  {
    if LoggedIn(w.clients[c]) && w.clients[c].account.Some? then
      w.(clients := w.clients - {c}, auth := w.auth - {w.clients[c].account.value})
    else
      w.(clients := w.clients - {c})
  }

  lemma DropKeepsRegistry(w: World, c: ClientId)
    requires Registry(w) && c in w.clients
    ensures Registry(Drop(w, c))
  {
    var w' := Drop(w, c);
    forall d | d in w'.clients
      ensures WellFormedSession(w'.clients[d]) && (w'.clients[d].account.Some? ==> w'.clients[d].account.value in w'.accounts)
      ensures LoggedIn(w'.clients[d]) ==> w'.clients[d].account.value in w'.auth && w'.auth[w'.clients[d].account.value] == d
    {
      assert w'.clients[d] == w.clients[d];
    }
    forall v | v in w'.auth
      ensures w'.auth[v] in w'.clients && LoggedIn(w'.clients[w'.auth[v]]) && w'.clients[w'.auth[v]].account == Some(v)
    {
      assert w.auth[v] != c;
    }
  }

  lemma DropLoses(w: World, c: ClientId, x: Exempt)
    requires Registry(w) && c in w.clients && LoggedIn(w.clients[c])
    requires w.clients[c].account.value !in w.waiting
    requires w.clients[c].matchFound.Some? ==> w.clients[c].matchFound.value in x.matches
    requires w.clients[c].lobby.Some? ==> w.clients[c].lobby.value in x.lobbies
    ensures Loses(w, Drop(w, c), w.clients[c].account.value, x)
  {
    var w' := Drop(w, c);
    forall v | Has(w', v) ensures At(w', v) == At(w, v) {
      assert w.auth[v] != c;
    }
  }

  lemma DropUnknown(w: World, c: ClientId)
    requires Registry(w) && c in w.clients && !LoggedIn(w.clients[c])
    ensures SameUsers(w, Drop(w, c))
  {
    var w' := Drop(w, c);
    forall v | Has(w, v) ensures Has(w', v) && At(w', v) == At(w, v) {
      assert w.auth[v] != c;
    }
  }

  /**
   * The disconnected client leaves: if logged in, its player is out of the
   * matchmaker and holds only exempt objects, and it is no longer pending.
   */
  lemma DropKeepsInv(w: World, c: ClientId, x: Exempt)
    requires ServerInv(w, x) && c in w.clients
    requires LoggedIn(w.clients[c]) ==> w.clients[c].account.value !in w.waiting
    requires w.clients[c].matchFound.Some? ==> w.clients[c].matchFound.value in x.matches
    requires w.clients[c].lobby.Some? ==> w.clients[c].lobby.value in x.lobbies
    ensures ServerInv(Drop(w, c), x.(pending := x.pending - (if LoggedIn(w.clients[c]) then {w.clients[c].account.value} else {})))
  {
    var w' := Drop(w, c);
    DropKeepsRegistry(w, c);
    if LoggedIn(w.clients[c]) {
      var u := w.clients[c].account.value;
      DropLoses(w, c, x);
      LosesKeepsQueue(w, w', u, x);
      LosesKeepsMatches(w, w', u, x);
      LosesKeepsInLobbies(w, w', u, x);
      LosesKeepsTimers(w, w', u, x);
    } else {
      DropUnknown(w, c);
      assert x.(pending := x.pending - {}) == x;
      SameUsersKeepsInv(w, w', x);
    }
  }

  // ---------------------------------------------------- a lobby's lineup

  /** The Lobby.Player list onAcceptMatch builds: each player with its account's integer rank, in the order given. */
  function LobbyPlayers(order: seq<string>, accounts: map<string, AccountState>): (ps: seq<LobbyPlayer>)
    requires forall i :: 0 <= i < |order| ==> order[i] in accounts
    ensures |ps| == |order|
    ensures forall i :: 0 <= i < |order| ==> ps[i] == LobbyPlayer(order[i], RoundRank(accounts[order[i]].rank), None)
  {
    seq(|order|, i requires 0 <= i < |order| => LobbyPlayer(order[i], RoundRank(accounts[order[i]].rank), None))
  }

  /** Two equal entries make an element count twice. */
  lemma {:induction false} CountsTwice<T>(s: seq<T>, i: nat, j: nat)
    requires i < j < |s| && s[i] == s[j]
    ensures multiset(s)[s[i]] >= 2
  {
    assert s == s[..j] + [s[j]] + s[j + 1..];
    assert s[i] in s[..j];
    assert multiset(s) == multiset(s[..j]) + multiset{s[j]} + multiset(s[j + 1..]);
  }

  /** In a sequence of distinct elements each counts once at most. */
  lemma {:induction false} CountsOnce<T>(s: seq<T>, v: T)
    requires forall i, j :: 0 <= i < j < |s| ==> s[i] != s[j]
    ensures multiset(s)[v] <= 1
    decreases |s|
  {
    if s != [] {
      assert s == [s[0]] + s[1..];
      CountsOnce(s[1..], v);
      if v == s[0] {
        assert v !in s[1..];
      }
    }
  }

  /** An element of a sequence with the multiset of another sits somewhere in the other. */
  lemma FoundIn<T>(a: seq<T>, b: seq<T>, k: nat) returns (i: nat)
    requires multiset(a) == multiset(b) && k < |a|
    ensures i < |b| && b[i] == a[k]
  {
    assert a[k] in multiset(b);
    i :| i < |b| && b[i] == a[k];
  }

  /** Every player of the two teams is one of ps. */
  lemma DealtFrom(ps: seq<LobbyPlayer>, blue: seq<LobbyPlayer>, red: seq<LobbyPlayer>)
    requires multiset(blue) + multiset(red) == multiset(ps)
    ensures forall k :: 0 <= k < |blue| ==> blue[k] in ps
    ensures forall k :: 0 <= k < |red| ==> red[k] in ps
  {
    forall k | 0 <= k < |blue| ensures blue[k] in ps {
      assert blue[k] in multiset(blue);
      assert blue[k] in multiset(ps);
    }
    forall k | 0 <= k < |red| ensures red[k] in ps {
      assert red[k] in multiset(red);
      assert red[k] in multiset(ps);
    }
  }


  /** Teams dealt from players with distinct usernames seat no username twice. */
  lemma DealtUnique(ps: seq<LobbyPlayer>, blue: seq<LobbyPlayer>, red: seq<LobbyPlayer>)
    requires forall i, j :: 0 <= i < j < |ps| ==> ps[i].username != ps[j].username
    requires multiset(blue) + multiset(red) == multiset(ps)
    ensures Unique(Lineup(blue, red, {}))
  {
    var cs := blue + red;
    assert multiset(cs) == multiset(ps);
    var us := Usernames(blue) + Usernames(red);
    forall i, j | 0 <= i < j < |us| ensures us[i] != us[j] {
      assert us[i] == cs[i].username && us[j] == cs[j].username;
      var a := FoundIn(cs, ps, i);
      var b := FoundIn(cs, ps, j);
      if a == b {
        CountsTwice(cs, i, j);
        CountsOnce(ps, cs[i]);
        assert false;
      }
    }
  }

  /** The dealt teams seat exactly the usernames of ps. */
  lemma DealtMembers(ps: seq<LobbyPlayer>, blue: seq<LobbyPlayer>, red: seq<LobbyPlayer>)
    requires multiset(blue) + multiset(red) == multiset(ps)
    ensures forall u :: u in Members(Lineup(blue, red, {})) <==> u in Usernames(ps)
  {
    var cs := blue + red;
    assert multiset(cs) == multiset(ps);
    var us := Usernames(blue) + Usernames(red);
    forall u ensures u in Members(Lineup(blue, red, {})) <==> u in Usernames(ps) {
      if u in Usernames(ps) {
        var k :| 0 <= k < |ps| && Usernames(ps)[k] == u;
        var i := FoundIn(ps, cs, k);
        assert us[i] == cs[i].username;
      }
      if u in Members(Lineup(blue, red, {})) {
        var k :| 0 <= k < |us| && us[k] == u;
        assert us[k] == cs[k].username;
        var i := FoundIn(cs, ps, k);
        assert Usernames(ps)[i] == u;
      }
    }
  }

  /** Ten players with distinct usernames and no hero, dealt into two teams of five, make a valid lobby. */
  lemma BalancedLineupValid(ps: seq<LobbyPlayer>, blue: seq<LobbyPlayer>, red: seq<LobbyPlayer>)
    requires |ps| == LOBBY_SIZE && AllLobbyPlayers(ps) && forall i :: 0 <= i < |ps| ==> ps[i].selectedHero.None?
    requires forall i, j :: 0 <= i < j < |ps| ==> ps[i].username != ps[j].username
    requires |red| == (|ps| + 1) / 2 && |blue| == |ps| / 2 && multiset(blue) + multiset(red) == multiset(ps)
    ensures ValidLobby(Lineup(blue, red, {})) && Consistent(Lineup(blue, red, {}))
    ensures forall u :: u in Members(Lineup(blue, red, {})) <==> u in Usernames(ps)
  {
    DealtFrom(ps, blue, red);
    FreshLineupConsistent(blue, red);
    DealtUnique(ps, blue, red);
    DealtMembers(ps, blue, red);
  }

  /** Distinct usernames with valid filed accounts give valid Lobby players with no hero and distinct usernames. */
  lemma LobbyPlayersValid(order: seq<string>, accounts: map<string, AccountState>)
    requires forall i :: 0 <= i < |order| ==> order[i] in accounts && IsAccount(order[i], accounts[order[i]])
    requires forall i, j :: 0 <= i < j < |order| ==> order[i] != order[j]
    ensures var ps := LobbyPlayers(order, accounts);
      && AllLobbyPlayers(ps) && (forall i :: 0 <= i < |ps| ==> ps[i].selectedHero.None?)
      && (forall i, j :: 0 <= i < j < |ps| ==> ps[i].username != ps[j].username)
      && Usernames(ps) == order
  {
    var ps := LobbyPlayers(order, accounts);
    assert Usernames(ps) == order;
  }

  /** The two teams of Balanced(ps) hold the players of ps. */
  lemma BalancedPermutes(ps: seq<LobbyPlayer>)
    ensures multiset(Balanced(ps).blue) + multiset(Balanced(ps).red) == multiset(ps)
  {
    var l := Balanced(ps);
    SortByRankPermutes(ps);
    DealtPermutes(SortByRank(ps), l.blue, l.red);
  }

  /**
   * The lineup of the LOBBY_SIZE distinct players order, each with its
   * account's integer rank, is a valid lobby seating exactly them.
   */
  lemma BalancedValid(order: seq<string>, accounts: map<string, AccountState>)
    requires |order| == LOBBY_SIZE
    requires forall i :: 0 <= i < |order| ==> order[i] in accounts && IsAccount(order[i], accounts[order[i]])
    requires forall i, j :: 0 <= i < j < |order| ==> order[i] != order[j]
    ensures ValidLobby(Balanced(LobbyPlayers(order, accounts)))
    ensures forall u :: u in Members(Balanced(LobbyPlayers(order, accounts))) <==> u in order
  {
    var ps := LobbyPlayers(order, accounts);
    LobbyPlayersValid(order, accounts);
    BalancedPermutes(ps);
    var l := Balanced(ps);
    BalancedLineupValid(ps, l.blue, l.red);
  }

  /** No username of a lobby that seats nobody twice is on both teams. */
  lemma UniqueApart(l: Lineup)
    requires Unique(l)
    ensures forall u :: u in Usernames(l.blue) ==> u !in Usernames(l.red)
  {
    var us := Usernames(l.blue) + Usernames(l.red);
    forall u | u in Usernames(l.blue) ensures u !in Usernames(l.red) {
      var i :| 0 <= i < |Usernames(l.blue)| && Usernames(l.blue)[i] == u;
      assert us[i] == u;
      forall j | 0 <= j < |Usernames(l.red)| ensures Usernames(l.red)[j] != u {
        assert us[|Usernames(l.blue)| + j] == Usernames(l.red)[j];
      }
    }
  }

  /** Unique, player by player: no team repeats a username, and Blue and Red share none. */
  lemma UniqueBySlot(lu: Lineup)
    requires |lu.blue| == TEAM_SIZE && |lu.red| == TEAM_SIZE && Unique(lu)
    ensures forall i, j :: 0 <= i < j < TEAM_SIZE ==>
      lu.blue[i].username != lu.blue[j].username && lu.red[i].username != lu.red[j].username
    ensures forall i, j :: 0 <= i < TEAM_SIZE && 0 <= j < TEAM_SIZE ==> lu.blue[i].username != lu.red[j].username
  {
    var all := Usernames(lu.blue) + Usernames(lu.red);
    forall i, j | 0 <= i < j < TEAM_SIZE ensures lu.blue[i].username != lu.blue[j].username
      && lu.red[i].username != lu.red[j].username
    {
      assert all[i] == lu.blue[i].username && all[j] == lu.blue[j].username;
      assert all[TEAM_SIZE + i] == lu.red[i].username && all[TEAM_SIZE + j] == lu.red[j].username;
    }
    forall i, j | 0 <= i < TEAM_SIZE && 0 <= j < TEAM_SIZE ensures lu.blue[i].username != lu.red[j].username {
      assert all[i] == lu.blue[i].username && all[TEAM_SIZE + j] == lu.red[j].username;
    }
  }
}
