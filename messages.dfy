/**
 * The messages of the protocol as values: a Request is what a client sends
 * (ClientToServerMsgId and its arguments), a Notice what the server sends
 * (ServerToClientMsgId and its arguments). Each has the list of fields its
 * send* method writes; durations travel as the text of their field.
 */
module Messages {
  import opened Wrappers
  import opened Config
  import opened Validation
  import opened Decimal
  import opened Data
  import opened MsgIds
  import opened MsgWriting
  import opened Codec

  datatype Request =
    | Login(username: string, password: string)
    | SignUp(username: string, password: string)
    | Logout
    | JoinMatchmaking
    | LeaveMatchmaking
    | AcceptMatch
    | DeclineMatch
    | SelectHero(hero: Hero)
    | Chat(text: string)
    | LeaveLobby

  datatype Notice =
    | LoginSucceeded(info: AccountInfo, stats: ServerStats)
    | LoginFailed(loginError: LoginError)
    | SignUpFailed(signUpError: SignUpError)
    | LogoutSucceeded
    | StatsUpdate(stats: ServerStats)
    | JoinedMatchmaking
    | LeftMatchmaking(cause: LeftMatchmakingCause)
    | MatchFoundNotice(timeToAccept: string)
    | MatchCanceled
    | PlayerAcceptedMatch
    | JoinedLobby(teamInfo: TeamInfo, timeToSelect: string)
    | LobbyDied(causeOfDeath: LobbyCauseOfDeath)
    | PlayerSelectedHero(playerIndex: int, hero: Hero)
    | ChatReceived(playerIndex: int, text: string)
    | MatchPlayed(summary: MatchSummary, newRank: int)

  function RequestId(r: Request): ClientMsgId {
    match r
    case Login(_, _) => LOGIN
    case SignUp(_, _) => SIGN_UP
    case Logout => LOGOUT
    case JoinMatchmaking => JOIN_MATCHMAKING
    case LeaveMatchmaking => LEAVE_MATCHMAKING
    case AcceptMatch => ACCEPT_MATCH
    case DeclineMatch => DECLINE_MATCH
    case SelectHero(_) => SELECT_HERO
    case Chat(_) => CHAT_MESSAGE
    case LeaveLobby => LEAVE_LOBBY
  }

  function NoticeId(n: Notice): ServerMsgId {
    match n
    case LoginSucceeded(_, _) => LOGIN_SUCCEEDED
    case LoginFailed(_) => LOGIN_FAILED
    case SignUpFailed(_) => SIGN_UP_FAILED
    case LogoutSucceeded => LOGOUT_SUCCEEDED
    case StatsUpdate(_) => SERVER_STATS
    case JoinedMatchmaking => JOINED_MATCHMAKING
    case LeftMatchmaking(_) => LEFT_MATCHMAKING
    case MatchFoundNotice(_) => MATCH_FOUND
    case MatchCanceled => MATCH_CANCELED
    case PlayerAcceptedMatch => PLAYER_ACCEPTED_MATCH
    case JoinedLobby(_, _) => JOINED_LOBBY
    case LobbyDied(_) => LOBBY_DIED
    case PlayerSelectedHero(_, _) => PLAYER_SELECTED_HERO
    case ChatReceived(_, _) => CHAT_MESSAGE_RECEIVED
    case MatchPlayed(_, _) => MATCH_PLAYED
  }

  /** The fields a request's send* method writes after its tag. */
  function RequestArgs(r: Request): seq<string> {
    match r
    case Login(u, p) => [u, p]
    case SignUp(u, p) => [u, p]
    case SelectHero(h) => [HeroToString(h)]
    case Chat(t) => [t]
    case _ => []
  }

  /** The fields a request's message consists of: its tag, then its arguments. */
  function RequestFields(r: Request): (fs: seq<string>)
    ensures fs != [] && fs[0] == ClientMsgIdName(RequestId(r))
  {
    [ClientMsgIdName(RequestId(r))] + RequestArgs(r)
  }

  /** The fields a notice's send* method writes after its tag. */
  function NoticeArgs(n: Notice): seq<string> {
    match n
    case LoginSucceeded(a, st) => AccountInfoFields(a) + ServerStatsFields(st)
    case LoginFailed(e) => [LoginErrorName(e)]
    case SignUpFailed(e) => [SignUpErrorName(e)]
    case StatsUpdate(st) => ServerStatsFields(st)
    case LeftMatchmaking(c) => [LeftMatchmakingCauseName(c)]
    case MatchFoundNotice(d) => [d]
    case JoinedLobby(t, d) => TeamInfoFields(t) + [d]
    case LobbyDied(c) => [LobbyCauseOfDeathName(c)]
    case PlayerSelectedHero(i, h) => [IntToString(i), HeroToString(h)]
    case ChatReceived(i, t) => [IntToString(i), t]
    case MatchPlayed(s, k) => MatchSummaryFields(s) + [IntToString(k)]
    case _ => []
  }

  function NoticeFields(n: Notice): (fs: seq<string>)
    ensures fs != [] && fs[0] == ServerMsgIdName(NoticeId(n))
  {
    [ServerMsgIdName(NoticeId(n))] + NoticeArgs(n)
  }

  /** The checks of the validated writers a request's send* method calls. */
  predicate RequestArgsValid(r: Request) {
    match r
    case Login(u, p) => IsValidUsername(u) && IsValidPassword(p)
    case SignUp(u, p) => IsValidUsername(u) && IsValidPassword(p)
    case Chat(t) => IsValidChatMessage(t)
    case _ => true
  }

  /** The checks of the validated writers a notice's send* method calls. */
  predicate NoticeArgsValid(n: Notice) {
    match n
    case PlayerSelectedHero(i, _) => 0 <= i < TEAM_SIZE
    case ChatReceived(i, t) => 0 <= i < TEAM_SIZE && IsValidChatMessage(t)
    case MatchPlayed(_, k) => IsIntegerRank(k)
    case _ => true
  }

  /**
   * MessengerBase.sendMessage: an empty message and one holding '\r' are
   * refused. The second test the code means to make, for '\n', repeats the
   * '\r' test, so a line feed goes through.
   */
  predicate IsSendable(m: string) {
    m != [] && '\r' !in m
  }

  /**
   * How a send* method leaves the queue: one more message when it
   * completes on a connected messenger, untouched when the messenger is
   * disconnected or the method throws, and every throw is an
   * IllegalArgumentException.
   */
  predicate SentAs(o: Outcome, m: string, connected: bool, before: seq<string>, after: seq<string>) {
    && (o.Pass? ==> after == if connected then before + [m] else before)
    && (o.Throw? ==> o.exc == IllegalArgument && after == before)
  }

  /** A duration's field as the reader takes it back. */
  predicate DurationOnWire(d: string) {
    d != [] && ':' !in d
  }

  /** A request that Java objects can make: a hero is constructed in range. */
  predicate IsWellFormedRequest(r: Request) {
    RequestArgsValid(r) && (r.SelectHero? ==> IsHero(r.hero))
  }

  /**
   * A notice whose values are valid Java objects and whose every field the
   * reader takes back: counts within int, durations one field each.
   */
  predicate IsWellFormedNotice(n: Notice) {
    NoticeArgsValid(n) &&
    match n
    case LoginSucceeded(a, st) => AccountInfoOnWire(a) && ServerStatsOnWire(st)
    case StatsUpdate(st) => ServerStatsOnWire(st)
    case MatchFoundNotice(d) => DurationOnWire(d)
    case JoinedLobby(t, d) => IsTeamInfo(t) && DurationOnWire(d)
    case PlayerSelectedHero(_, h) => IsHero(h)
    case MatchPlayed(s, _) => MatchSummaryOnWire(s)
    case _ => true
  }

  /** No character but ':' is in a message that none of its fields holds. */
  lemma {:induction false} MsgAvoids(L: seq<string>, c: char)
    requires c != ':' && forall i :: 0 <= i < |L| ==> c !in L[i]
    ensures c !in Msg(L)
    decreases |L|
  {
    if |L| > 1 {
      MsgAvoids(L[1..], c);
    }
  }

  /** Every request with valid arguments passes sendMessage's check. */
  lemma RequestsAreSendable(r: Request)
    requires RequestArgsValid(r)
    ensures IsSendable(Msg(RequestFields(r)))
  {
    var fs := RequestFields(r);
    MsgStartsWithFirst(fs);
    RequestArgsAvoidReturn(r);
    assert '\r' !in fs[0] by { TagAvoidsReturn(RequestId(r)); }
    assert forall i :: 1 <= i < |fs| ==> fs[i] == RequestArgs(r)[i - 1];
    MsgAvoids(fs, '\r');
  }

  /** No request tag holds a carriage return. */
  lemma TagAvoidsReturn(c: ClientMsgId)
    ensures '\r' !in ClientMsgIdName(c)
  {
    ClientMsgIdNameRoundTrip(c);
  }

  /** No argument of a request with valid arguments holds a carriage return. */
  lemma RequestArgsAvoidReturn(r: Request)
    requires RequestArgsValid(r)
    ensures forall i :: 0 <= i < |RequestArgs(r)| ==> '\r' !in RequestArgs(r)[i]
  {
    match r
    case Login(u, p) =>
      assert '\r' !in u by { assert forall k :: 0 <= k < |u| ==> IsAsciiLetterOrDigit(u[k]); }
      assert '\r' !in p by { assert forall k :: 0 <= k < |p| ==> !IsLineBreak(p[k]); }
    case SignUp(u, p) =>
      assert '\r' !in u by { assert forall k :: 0 <= k < |u| ==> IsAsciiLetterOrDigit(u[k]); }
      assert '\r' !in p by { assert forall k :: 0 <= k < |p| ==> !IsLineBreak(p[k]); }
    case Chat(t) =>
      assert '\r' !in t by { assert forall k :: 0 <= k < |t| ==> !IsLineBreak(t[k]); }
    case _ =>
  }

  /**
   * MessengerBase as far as the messengers use it: sendMessage checks the
   * message and, while the messenger is connected, queues it for the
   * writer thread, whose socket I/O is not modelled; sent is that queue,
   * oldest first. connected is socket != null (isConnected). disconnect
   * only raises userRequestedDisconnect and closes the socket: the socket
   * becomes null when the reader and writer threads have both ended
   * (ConnectionLost), and the onDisconnect callback follows as an event of
   * its own.
   */
  class MessengerBase {
    var sent: seq<string>
    var connected: bool
    var userRequestedDisconnect: bool

    /** The constructor, on an open socket. */
    constructor ()
      ensures sent == [] && connected && !userRequestedDisconnect
    {
      sent := [];
      connected := true;
      userRequestedDisconnect := false;
    }

    /** disconnect(): only a connected messenger records the request; the queue is left as it is. */
    method Disconnect()
      modifies this
      ensures userRequestedDisconnect == (old(userRequestedDisconnect) || old(connected))
      ensures sent == old(sent) && connected == old(connected)
    {
      if connected {
        userRequestedDisconnect := true;
      }
    }

    /** runProc once both threads have ended: the socket is null, the messenger disconnected. */
    method ConnectionLost()
      modifies this
      ensures !connected
      ensures sent == old(sent) && userRequestedDisconnect == old(userRequestedDisconnect)
    {
      connected := false;
    }

    /**
     * sendMessage: an empty message or one holding '\r' throws
     * IllegalArgumentException; a disconnected messenger drops the message.
     */
    method SendMessage(message: string) returns (o: Outcome)
      modifies this
      ensures o.Pass? <==> IsSendable(message)
      ensures SentAs(o, message, connected, old(sent), sent)
      ensures connected == old(connected) && userRequestedDisconnect == old(userRequestedDisconnect)
    {
      if |message| == 0 {
        return Throw(IllegalArgument);
      }
      if '\r' in message || '\r' in message {
        return Throw(IllegalArgument);
      }
      if connected {
        sent := sent + [message];
      }
      o := Pass;
    }
  }

  /** The first step of every send* method: a new writer holding the message's tag. */
  method StartMessage(tag: string) returns (writer: MsgWriter)
    ensures fresh(writer) && !writer.wroteTerminalItem
    ensures writer.message == AppendAll([], [tag])
  {
    writer := new MsgWriter();
    var _ := writer.WriteString(tag);
    AppendAllSnoc([], [], tag);
  }

  /**
   * The last step of every send* method: the writer holds the message of
   * fs, which sendMessage checks and queues.
   */
  method DeliverMessage(base: MessengerBase, writer: MsgWriter, ghost fs: seq<string>) returns (o: Outcome)
    requires fs != [] && fs[0] != [] && writer.message == AppendAll([], fs)
    modifies base
    ensures o.Pass? <==> IsSendable(Msg(fs))
    ensures SentAs(o, Msg(fs), base.connected, old(base.sent), base.sent)
    ensures base.connected == old(base.connected) && base.userRequestedDisconnect == old(base.userRequestedDisconnect)
  {
    AppendAllIsMsg(fs);
    o := base.SendMessage(writer.ToString());
  }
}
