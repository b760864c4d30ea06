/**
 * mm.client.common.net.NetClient: the client's connection state machine.
 * Each request method checks the current state against its whitelist
 * (assertState), queues its request with the ServerMessenger and moves to
 * the state that awaits the reply; each notice handler of the inner
 * Messenger checks the state against its own whitelist (assertStateReceive)
 * and applies the notice. The connector thread's two outcomes and the
 * messenger's onDisconnect callback are events of their own; the user
 * callbacks are not modelled.
 */
module Client {
  import opened Wrappers
  import opened Config
  import opened Validation
  import opened Data
  import opened MsgWriting
  import opened Messages
  import opened TeamStates
  import opened ServerMessaging

  /** NetClient.State. */
  datatype State =
    | DISCONNECTED
    | CONNECTING
    | CONNECTED
    | LOGGING_IN
    | SIGNING_UP
    | IDLE
    | LOGGING_OUT
    | JOINING_MATCHMAKING
    | IN_MATCHMAKING
    | MATCH_FOUND
    | IN_LOBBY

  /** The states of a logged-in client: getAccountInfo's and getServerStats's whitelist. */
  predicate LoggedIn(s: State) {
    s in {IDLE, LOGGING_OUT, JOINING_MATCHMAKING, IN_MATCHMAKING, MATCH_FOUND, IN_LOBBY}
  }

  /**
   * The direct transitions the documentation of each State constant
   * allows; every state but DISCONNECTED may also be left for DISCONNECTED.
   */
  predicate Documented(from: State, to: State) {
    (to == DISCONNECTED && from != DISCONNECTED) ||
    match from
    case DISCONNECTED => to == CONNECTING
    case CONNECTING => to == CONNECTED
    case CONNECTED => to == LOGGING_IN || to == SIGNING_UP
    case LOGGING_IN => to == CONNECTED || to == IDLE
    case SIGNING_UP => to == CONNECTED || to == IDLE
    case IDLE => to == LOGGING_OUT || to == JOINING_MATCHMAKING
    case LOGGING_OUT => to == CONNECTED
    case JOINING_MATCHMAKING => to == IN_MATCHMAKING
    case IN_MATCHMAKING => to == IDLE || to == MATCH_FOUND
    case MATCH_FOUND => to == IDLE || to == IN_MATCHMAKING || to == IN_LOBBY
    case IN_LOBBY => to == IDLE
  }

  /** The one state in which a request method's assertState lets the request through. */
  function RequestFrom(r: Request): State {
    match r
    case Login(_, _) => CONNECTED
    case SignUp(_, _) => CONNECTED
    case Logout => IDLE
    case JoinMatchmaking => IDLE
    case LeaveMatchmaking => IN_MATCHMAKING
    case AcceptMatch => MATCH_FOUND
    case DeclineMatch => MATCH_FOUND
    case SelectHero(_) => IN_LOBBY
    case Chat(_) => IN_LOBBY
    case LeaveLobby => IN_LOBBY
  }

  /**
   * The state a request method moves to once its message is queued: only
   * login, signUp, logout and joinMatchmaking change it.
   */
  function RequestTo(r: Request): State {
    match r
    case Login(_, _) => LOGGING_IN
    case SignUp(_, _) => SIGNING_UP
    case Logout => LOGGING_OUT
    case JoinMatchmaking => JOINING_MATCHMAKING
    case _ => RequestFrom(r)
  }

  /** The states assertStateReceive admits for each notice from the server. */
  function ReceivedIn(n: Notice): set<State> {
    match n
    case LoginSucceeded(_, _) => {LOGGING_IN, SIGNING_UP}
    case LoginFailed(_) => {LOGGING_IN}
    case SignUpFailed(_) => {SIGNING_UP}
    case LogoutSucceeded => {LOGGING_OUT}
    case StatsUpdate(_) => {IDLE, LOGGING_OUT, JOINING_MATCHMAKING, IN_MATCHMAKING, MATCH_FOUND}
    case JoinedMatchmaking => {JOINING_MATCHMAKING, MATCH_FOUND}
    case LeftMatchmaking(_) => {IN_MATCHMAKING, MATCH_FOUND}
    case MatchFoundNotice(_) => {IN_MATCHMAKING}
    case MatchCanceled => {MATCH_FOUND}
    case PlayerAcceptedMatch => {MATCH_FOUND}
    case JoinedLobby(_, _) => {MATCH_FOUND}
    case LobbyDied(_) => {IN_LOBBY}
    case PlayerSelectedHero(_, _) => {IN_LOBBY}
    case ChatReceived(_, _) => {IN_LOBBY}
    case MatchPlayed(_, _) => {IN_LOBBY}
  }

  /** A TeamState as a value: its TeamInfo and the hero of each slot (None is null). */
  datatype TeamView = TeamView(info: TeamInfo, selected: seq<Option<Hero>>)

  /** The fields of a NetClient as a value; team is None when teamState is null. */
  datatype View = View(
    state: State,
    userRequestedDisconnect: bool,
    accountInfo: Option<AccountInfo>,
    serverStats: Option<ServerStats>,
    team: Option<TeamView>)

  /**
   * What the handlers rely on: a logged-in client holds a valid
   * AccountInfo and some ServerStats, and a client in a lobby holds a
   * TeamState of TEAM_SIZE slots.
   */
  predicate Coherent(v: View) {
    (LoggedIn(v.state) ==> v.accountInfo.Some? && IsAccountInfo(v.accountInfo.value) && v.serverStats.Some?) &&
    (v.state == IN_LOBBY ==> v.team.Some? && |v.team.value.selected| == TEAM_SIZE)
  }

  /** TeamState's constructor: TEAM_SIZE null slots. */
  function EmptySlots(n: nat): (s: seq<Option<Hero>>)
    ensures |s| == n && forall i :: 0 <= i < n ==> s[i] == None
  {
    if n == 0 then [] else EmptySlots(n - 1) + [None]
  }

  /** Whether the client's own team is the winner of a played match. */
  function Won(t: TeamView, s: MatchSummary): bool {
    t.info.team == s.winner
  }

  /**
   * login, signUp, logout, joinMatchmaking, leaveMatchmaking, acceptMatch,
   * declineMatch, selectHero, sendChatMessage and leaveLobby as one
   * function of the request: assertState throws IllegalStateException
   * outside the request's state; a validated writer of the send* method
   * throws IllegalArgumentException before the state changes; otherwise
   * the state becomes RequestTo(r).
   */
  function AfterRequest(v: View, r: Request): (res: Result<View>)
    ensures res.Ok? <==> v.state == RequestFrom(r) && RequestArgsValid(r)
    ensures res.Fail? ==> res.exc == (if v.state != RequestFrom(r) then IllegalState else IllegalArgument)
  {
    if v.state != RequestFrom(r) then Fail(IllegalState)
    else if !RequestArgsValid(r) then Fail(IllegalArgument)
    else Ok(v.(state := RequestTo(r)))
  }

  /**
   * The Messenger's on*Received handlers as one function of the notice:
   * assertStateReceive throws IllegalStateException outside ReceivedIn(n),
   * otherwise the handler's assignments. The notices are those the
   * ServerMessenger decodes.
   */
  function Receive(v: View, n: Notice): (res: Result<View>)
    requires Coherent(v) && IsDecodedNotice(n)
    ensures res.Ok? <==> v.state in ReceivedIn(n)
    ensures res.Fail? ==> res.exc == IllegalState
    ensures res.Ok? ==> Coherent(res.value)
    ensures res.Ok? ==> res.value.userRequestedDisconnect == v.userRequestedDisconnect
  {
    if v.state !in ReceivedIn(n) then Fail(IllegalState)
    else match n
      case LoginSucceeded(a, st) => Ok(v.(state := IDLE, accountInfo := Some(a), serverStats := Some(st)))
      case LoginFailed(_) => Ok(v.(state := CONNECTED))
      case SignUpFailed(_) => Ok(v.(state := CONNECTED))
      case LogoutSucceeded => Ok(v.(state := CONNECTED, accountInfo := None, serverStats := None))
      case StatsUpdate(st) => Ok(v.(serverStats := Some(st)))
      case JoinedMatchmaking => Ok(v.(state := IN_MATCHMAKING))
      case LeftMatchmaking(_) => Ok(v.(state := IDLE))
      case MatchFoundNotice(_) => Ok(v.(state := MATCH_FOUND))
      case MatchCanceled => Ok(v.(state := IN_MATCHMAKING))
      case PlayerAcceptedMatch => Ok(v)
      case JoinedLobby(t, _) => Ok(v.(state := IN_LOBBY, team := Some(TeamView(t, EmptySlots(TEAM_SIZE)))))
      case LobbyDied(_) => Ok(v.(state := IDLE, team := None))
      case PlayerSelectedHero(i, h) =>
        var t := v.team.value;
        Ok(v.(team := Some(t.(selected := t.selected[i := Some(h)]))))
      case ChatReceived(_, _) => Ok(v)
      case MatchPlayed(s, k) =>
        var a := v.accountInfo.value;
        var won := Won(v.team.value, s);
        Ok(v.(state := IDLE, team := None, accountInfo := Some(AccountInfo(
          a.username,
          a.numWonMatches + (if won then 1 else 0),
          a.numLostMatches + (if won then 0 else 1),
          k))))
  }

  /** Messenger.onDisconnect: from any state, DISCONNECTED with no account. */
  function Dropped(v: View): (w: View)
    ensures Coherent(w)
    ensures w.state == DISCONNECTED && !LoggedIn(w.state) && w.accountInfo.None?
  {
    v.(state := DISCONNECTED, accountInfo := None)
  }

  // ------------------------------------------------------------ properties

  /** Every notice handler moves along a transition the State documentation allows, or stays. */
  lemma ReceiveIsDocumented(v: View, n: Notice)
    requires Coherent(v) && IsDecodedNotice(n) && Receive(v, n).Ok?
    ensures Receive(v, n).value.state == v.state || Documented(v.state, Receive(v, n).value.state)
  {
  }

  /** Every request method moves along a documented transition, or stays. */
  lemma RequestIsDocumented(v: View, r: Request)
    requires AfterRequest(v, r).Ok?
    ensures AfterRequest(v, r).value.state == v.state || Documented(v.state, AfterRequest(v, r).value.state)
  {
  }

  /**
   * leaveMatchmaking, acceptMatch, declineMatch, selectHero,
   * sendChatMessage and leaveLobby never change the client's state: the
   * server's reply does.
   */
  lemma RequestsAwaitingReplyKeepState(v: View, r: Request)
    requires !(r.Login? || r.SignUp? || r.Logout? || r.JoinMatchmaking?)
    requires AfterRequest(v, r).Ok?
    ensures AfterRequest(v, r).value == v
  {
  }

  /** A request changes no part of the client but its state. */
  lemma RequestKeepsData(v: View, r: Request)
    requires AfterRequest(v, r).Ok?
    ensures AfterRequest(v, r).value.accountInfo == v.accountInfo
    ensures AfterRequest(v, r).value.serverStats == v.serverStats
    ensures AfterRequest(v, r).value.team == v.team
  {
  }

  /** LOGIN_FAILED and SIGN_UP_FAILED return to CONNECTED, keeping everything else. */
  lemma LoginFailedReturns(v: View, n: Notice)
    requires Coherent(v) && (n.LoginFailed? || n.SignUpFailed?) && Receive(v, n).Ok?
    ensures Receive(v, n).value == v.(state := CONNECTED)
    ensures v.state == (if n.LoginFailed? then LOGGING_IN else SIGNING_UP)
  {
  }

  /** LOGOUT_SUCCEEDED returns to CONNECTED and forgets the account and the statistics. */
  lemma LogoutForgets(v: View)
    requires Coherent(v) && Receive(v, LogoutSucceeded).Ok?
    ensures v.state == LOGGING_OUT
    ensures Receive(v, LogoutSucceeded).value.state == CONNECTED
    ensures Receive(v, LogoutSucceeded).value.accountInfo.None?
    ensures Receive(v, LogoutSucceeded).value.serverStats.None?
  {
  }

  /**
   * MATCH_PLAYED: the client is IDLE again with no team; its won count
   * grows by one exactly when its own team won, its lost count otherwise,
   * and its rank is the new rank.
   */
  lemma MatchPlayedScores(v: View, s: MatchSummary, k: int)
    requires Coherent(v) && IsIntegerRank(k) && Receive(v, MatchPlayed(s, k)).Ok?
    ensures v.state == IN_LOBBY
    ensures var w := Receive(v, MatchPlayed(s, k)).value;
      var a := v.accountInfo.value;
      var b := w.accountInfo.value;
      && w.state == IDLE && w.team.None?
      && b.username == a.username && b.rank == k
      && (v.team.value.info.team == s.winner <==> b.numWonMatches == a.numWonMatches + 1)
      && (v.team.value.info.team == s.winner <==> b.numLostMatches == a.numLostMatches)
      && b.numWonMatches + b.numLostMatches == a.numWonMatches + a.numLostMatches + 1
  {
  }

  /** PLAYER_SELECTED_HERO replaces only the named slot of the team. */
  lemma SelectedHeroOneSlot(v: View, i: int, h: Hero)
    requires Coherent(v) && 0 <= i < TEAM_SIZE && IsHero(h) && Receive(v, PlayerSelectedHero(i, h)).Ok?
    ensures var t := Receive(v, PlayerSelectedHero(i, h)).value.team.value;
      && t.info == v.team.value.info
      && t.selected[i] == Some(h)
      && forall j :: 0 <= j < TEAM_SIZE && j != i ==> t.selected[j] == v.team.value.selected[j]
  {
  }

  /**
   * A notice outside its whitelist changes nothing: the handler throws
   * before its first assignment.
   */
  lemma WrongStateRejected(v: View, n: Notice)
    requires Coherent(v) && IsDecodedNotice(n) && v.state !in ReceivedIn(n)
    ensures Receive(v, n) == Fail(IllegalState)
  {
  }

  /**
   * From CONNECTED, a login request followed by a LOGIN_SUCCEEDED notice
   * ends IDLE with that account and those statistics.
   */
  lemma LoginThenSucceeded(v: View, u: string, p: string, a: AccountInfo, st: ServerStats)
    requires Coherent(v) && v.state == CONNECTED
    requires IsValidUsername(u) && IsValidPassword(p) && IsAccountInfo(a) && IsServerStats(st)
    ensures AfterRequest(v, Login(u, p)).Ok?
    ensures var w := AfterRequest(v, Login(u, p)).value;
      Coherent(w) && Receive(w, LoginSucceeded(a, st)) == Ok(v.(state := IDLE, accountInfo := Some(a), serverStats := Some(st)))
  {
  }

  // ------------------------------------------------------------ the class

  class NetClient {
    var state: State
    /** Null until the first connection succeeds; the latest connection's messenger after. */
    var messenger: ServerMessenger?
    var userRequestedDisconnect: bool
    var accountInfo: Option<AccountInfo>
    var serverStats: Option<ServerStats>
    var teamState: TeamState?

    ghost function Current(): View
      reads this, teamState
    {
      View(state, userRequestedDisconnect, accountInfo, serverStats,
        if teamState == null then None else Some(TeamView(teamState.info, teamState.selectedHeroes)))
    }

    /** The queue the current messenger writes to, or none before the first connection. */
    ghost function Bases(): set<object>
      reads this
    {
      if messenger == null then {} else {messenger.base}
    }

    /** The messages the current messenger has queued, oldest first. */
    ghost function Outbox(): seq<string>
      reads this, Bases()
    {
      if messenger == null then [] else messenger.base.sent
    }

    ghost predicate Valid()
      reads this, teamState
    {
      Coherent(Current()) &&
      (state != DISCONNECTED && state != CONNECTING ==> messenger != null) &&
      (teamState != null ==> teamState.Valid())
    }

    /** NetClient(): DISCONNECTED, no messenger, no account, no statistics, no team. */
    constructor ()
      ensures Valid() && messenger == null
      ensures Current() == View(DISCONNECTED, false, None, None, None)
    {
      state := DISCONNECTED;
      messenger := null;
      userRequestedDisconnect := false;
      accountInfo := None;
      serverStats := None;
      teamState := null;
    }

    /** getState. */
    function GetState(): (s: State)
      reads this
      ensures s == Current().state
    {
      state
    }

    /** getAccountInfo: only while logged in, where an account is always held. */
    function GetAccountInfo(): (r: Result<AccountInfo>)
      reads this, teamState
      requires Valid()
      ensures r.Ok? <==> LoggedIn(state)
      ensures r.Ok? ==> Some(r.value) == accountInfo && IsAccountInfo(r.value)
      ensures r.Fail? ==> r.exc == IllegalState
    {
      if LoggedIn(state) then Ok(accountInfo.value) else Fail(IllegalState)
    }

    /** getServerStats: only while logged in. */
    function GetServerStats(): (r: Result<ServerStats>)
      reads this, teamState
      requires Valid()
      ensures r.Ok? <==> LoggedIn(state)
      ensures r.Ok? ==> Some(r.value) == serverStats
      ensures r.Fail? ==> r.exc == IllegalState
    {
      if LoggedIn(state) then Ok(serverStats.value) else Fail(IllegalState)
    }

    /** getTeamInfo: only in a lobby. */
    function GetTeamInfo(): (r: Result<TeamInfo>)
      reads this, teamState
      requires Valid()
      ensures r.Ok? <==> state == IN_LOBBY
      ensures r.Ok? ==> Current().team == Some(TeamView(r.value, teamState.selectedHeroes))
      ensures r.Fail? ==> r.exc == IllegalState
    {
      if state == IN_LOBBY then Ok(teamState.info) else Fail(IllegalState)
    }

    /** getUnselectedHeroes: only in a lobby; the concrete heroes no teammate holds, ascending. */
    method GetUnselectedHeroes() returns (r: Result<seq<Hero>>)
      requires Valid()
      ensures r.Ok? <==> state == IN_LOBBY
      ensures r.Fail? ==> r.exc == IllegalState
      ensures r.Ok? ==> Ascending(r.value)
      ensures r.Ok? ==> forall k :: 0 <= k < NUM_HEROES ==>
        (Concrete(k) in r.value <==> Some(Concrete(k)) !in Current().team.value.selected)
    {
      if state != IN_LOBBY {
        return Fail(IllegalState);
      }
      var heroes := teamState.GetUnselectedHeroes();
      r := Ok(heroes);
    }

    /** connect: only from DISCONNECTED; the connector thread is started and the state is CONNECTING. */
    method Connect() returns (o: Outcome)
      requires Valid()
      modifies this
      ensures Valid() && messenger == old(messenger) && teamState == old(teamState)
      ensures o.Pass? <==> old(state) == DISCONNECTED
      ensures o.Throw? ==> o.exc == IllegalState && Current() == old(Current())
      ensures o.Pass? ==> Current() == old(Current()).(state := CONNECTING)
    {
      if state != DISCONNECTED {
        return Throw(IllegalState);
      }
      state := CONNECTING;
      o := Pass;
    }

    /**
     * The connector thread when the socket could not be opened: the
     * disconnect request, if any, is forgotten and the state is
     * DISCONNECTED again.
     */
    method ConnectFailed()
      requires Valid() && state == CONNECTING
      modifies this
      ensures Valid() && messenger == old(messenger) && teamState == old(teamState)
      ensures Current() == old(Current()).(state := DISCONNECTED, userRequestedDisconnect := false)
    {
      userRequestedDisconnect := false;
      state := DISCONNECTED;
    }

    /**
     * The connector thread when the socket is open: the new messenger is
     * installed and the state is CONNECTED; a disconnect the user asked for
     * while CONNECTING is then carried out (the flag is cleared and the
     * messenger is told to disconnect).
     */
    method ConnectSucceeded(m: ServerMessenger)
      requires Valid() && state == CONNECTING
      requires !m.base.userRequestedDisconnect
      modifies this, m.base
      ensures Valid() && messenger == m && teamState == old(teamState)
      ensures Current() == old(Current()).(state := CONNECTED, userRequestedDisconnect := false)
      ensures m.base.sent == old(m.base.sent)
      ensures m.base.userRequestedDisconnect == (old(userRequestedDisconnect) && old(m.base.connected))
    {
      messenger := m;
      state := CONNECTED;
      if userRequestedDisconnect {
        userRequestedDisconnect := false;
        m.base.Disconnect();
      }
    }

    /**
     * disconnect: while CONNECTING only the flag is raised; in any other
     * state but DISCONNECTED the messenger is told to disconnect, and the
     * state changes when its onDisconnect follows.
     */
    method Disconnect()
      requires Valid()
      modifies this, Bases()
      ensures Valid() && messenger == old(messenger) && teamState == old(teamState)
      ensures Current() == old(Current()).(userRequestedDisconnect := old(state) == CONNECTING || old(userRequestedDisconnect))
      ensures Outbox() == old(Outbox())
      ensures old(state) != CONNECTING && old(state) != DISCONNECTED ==>
        messenger.base.userRequestedDisconnect == (old(messenger.base.userRequestedDisconnect) || old(messenger.base.connected))
    {
      if state == CONNECTING {
        userRequestedDisconnect := true;
      } else if state != DISCONNECTED {
        messenger.base.Disconnect();
      }
    }

    /**
     * The request methods login, signUp, logout, joinMatchmaking,
     * leaveMatchmaking, acceptMatch, declineMatch, selectHero,
     * sendChatMessage and leaveLobby: assertState, then the messenger's
     * send* method, then the new state.
     */
    method MakeRequest(r: Request) returns (o: Outcome)
      requires Valid()
      modifies this, Bases()
      ensures Valid() && messenger == old(messenger) && teamState == old(teamState)
      ensures o.Pass? <==> AfterRequest(old(Current()), r).Ok?
      ensures o.Throw? ==> o.exc == AfterRequest(old(Current()), r).exc
      ensures o.Throw? ==> Current() == old(Current()) && Outbox() == old(Outbox())
      ensures o.Pass? ==> Current() == AfterRequest(old(Current()), r).value
      ensures o.Pass? ==>
        messenger != null && Outbox() == old(Outbox()) + if messenger.base.connected then [Msg(RequestFields(r))] else []
    {
      if state != RequestFrom(r) {
        return Throw(IllegalState);
      }
      o := messenger.SendRequest(r);
      if o.Throw? {
        return;
      }
      state := RequestTo(r);
    }

    /**
     * The Messenger's on*Received handlers: assertStateReceive, then the
     * handler's assignments; JOINED_LOBBY gives the client a new TeamState.
     */
    method OnNoticeReceived(n: Notice) returns (o: Outcome)
      requires Valid() && IsDecodedNotice(n)
      modifies this, teamState
      ensures Valid() && messenger == old(messenger)
      ensures o.Pass? <==> Receive(old(Current()), n).Ok?
      ensures o.Throw? ==> o.exc == IllegalState && Current() == old(Current())
      ensures o.Pass? ==> Current() == Receive(old(Current()), n).value
      ensures n.JoinedLobby? && o.Pass? ==> fresh(teamState)
      ensures !n.JoinedLobby? && teamState != null ==> teamState == old(teamState)
    {
      if state !in ReceivedIn(n) {
        return Throw(IllegalState);
      }
      match n {
        case LoginSucceeded(a, st) =>
          state := IDLE;
          accountInfo := Some(a);
          serverStats := Some(st);
        case LoginFailed(_) =>
          state := CONNECTED;
        case SignUpFailed(_) =>
          state := CONNECTED;
        case LogoutSucceeded =>
          state := CONNECTED;
          accountInfo := None;
          serverStats := None;
        case StatsUpdate(st) =>
          serverStats := Some(st);
        case JoinedMatchmaking =>
          state := IN_MATCHMAKING;
        case LeftMatchmaking(_) =>
          state := IDLE;
        case MatchFoundNotice(_) =>
          state := MATCH_FOUND;
        case MatchCanceled =>
          state := IN_MATCHMAKING;
        case PlayerAcceptedMatch =>
        case JoinedLobby(t, _) =>
          state := IN_LOBBY;
          teamState := new TeamState(t);
          assert teamState.selectedHeroes == EmptySlots(TEAM_SIZE);
        case LobbyDied(_) =>
          state := IDLE;
          teamState := null;
        case PlayerSelectedHero(i, h) =>
          var _ := teamState.SetSelectedHero(i, Some(h));
        case ChatReceived(_, _) =>
        case MatchPlayed(s, k) =>
          state := IDLE;
          var a := accountInfo.value;
          var won := teamState.info.team == s.winner;
          accountInfo := Some(AccountInfo(
            a.username,
            a.numWonMatches + (if won then 1 else 0),
            a.numLostMatches + (if won then 0 else 1),
            k));
          teamState := null;
      }
      o := Pass;
    }

    /** Messenger.onDisconnect: DISCONNECTED with no account, from any state. */
    method OnDisconnect()
      requires Valid()
      modifies this
      ensures Valid() && messenger == old(messenger) && teamState == old(teamState)
      ensures Current() == Dropped(old(Current()))
    {
      accountInfo := None;
      state := DISCONNECTED;
    }
  }
}
