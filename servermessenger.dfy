/**
 * mm.client.common.net.ServerMessenger: the client's end of the
 * connection. It encodes the requests the client makes and decodes each
 * notice the server sends.
 */
module ServerMessaging {
  import opened Wrappers
  import opened Config
  import opened Validation
  import opened Decimal
  import opened Data
  import opened MsgIds
  import opened MsgReading
  import opened MsgWriting
  import opened Messages

  /**
   * What the readers' checks guarantee of a decoded notice: the value
   * constructors' checks, a player index in range, a valid hero and rank,
   * and a non-empty chat text.
   */
  predicate IsDecodedNotice(n: Notice) {
    match n
    case LoginSucceeded(a, st) => IsAccountInfo(a) && IsServerStats(st)
    case StatsUpdate(st) => IsServerStats(st)
    case JoinedLobby(t, _) => |t.players| == TEAM_SIZE
    case PlayerSelectedHero(i, h) => 0 <= i < TEAM_SIZE && IsHero(h)
    case ChatReceived(i, t) => 0 <= i < TEAM_SIZE && t != []
    case MatchPlayed(_, k) => IsIntegerRank(k)
    case _ => true
  }

  /**
   * What onMessageReceived reads: the tag (readServerToClientMsgId), the
   * arguments of that tag's case, and the text left unread after them. A
   * chat message is the terminal remainder, not checked against the chat
   * pattern.
   */
  function ParseNotice(msg: string): (r: Result<Read<Notice>>)
    ensures msg == [] ==> r == Fail(IllegalState)
    ensures r.Ok? ==> IsDecodedNotice(r.value.value)
  {
    var id :- ReadServerMsgIdField(msg);
    ParseNoticeArgs(id.value, id.rest)
  }

  /** The case of onMessageReceived's switch for tag id, reading from s. */
  function ParseNoticeArgs(id: ServerMsgId, s: string): (r: Result<Read<Notice>>)
    ensures r.Ok? ==> NoticeId(r.value.value) == id
    ensures r.Ok? ==> IsDecodedNotice(r.value.value)
  {
    match id
    case LOGIN_SUCCEEDED => ReadLoginSucceeded(s)
    case LOGIN_FAILED => ReadLoginFailed(s)
    case SIGN_UP_FAILED => ReadSignUpFailed(s)
    case LOGOUT_SUCCEEDED => Ok(Read(LogoutSucceeded, s))
    case SERVER_STATS => ReadStatsUpdate(s)
    case JOINED_MATCHMAKING => Ok(Read(JoinedMatchmaking, s))
    case LEFT_MATCHMAKING => ReadLeftMatchmaking(s)
    case MATCH_FOUND => ReadMatchFound(s)
    case MATCH_CANCELED => Ok(Read(MatchCanceled, s))
    case PLAYER_ACCEPTED_MATCH => Ok(Read(PlayerAcceptedMatch, s))
    case JOINED_LOBBY => ReadJoinedLobby(s)
    case LOBBY_DIED => ReadLobbyDied(s)
    case PLAYER_SELECTED_HERO => ReadPlayerSelectedHero(s)
    case CHAT_MESSAGE_RECEIVED => ReadChatReceived(s)
    case MATCH_PLAYED => ReadMatchPlayed(s)
  }

  // The cases of the switch that read arguments, one function each.

  function ReadLoginSucceeded(s: string): (r: Result<Read<Notice>>)
    ensures r.Ok? ==> r.value.value.LoginSucceeded? && IsDecodedNotice(r.value.value)
  {
    var a :- ReadAccountInfoField(s);
    var st :- ReadServerStatsField(a.rest);
    Ok(Read(LoginSucceeded(a.value, st.value), st.rest))
  }

  function ReadLoginFailed(s: string): (r: Result<Read<Notice>>)
    ensures r.Ok? ==> r.value.value.LoginFailed?
  {
    var e :- ReadLoginErrorField(s);
    Ok(Read(LoginFailed(e.value), e.rest))
  }

  function ReadSignUpFailed(s: string): (r: Result<Read<Notice>>)
    ensures r.Ok? ==> r.value.value.SignUpFailed?
  {
    var e :- ReadSignUpErrorField(s);
    Ok(Read(SignUpFailed(e.value), e.rest))
  }

  function ReadStatsUpdate(s: string): (r: Result<Read<Notice>>)
    ensures r.Ok? ==> r.value.value.StatsUpdate? && IsDecodedNotice(r.value.value)
  {
    var st :- ReadServerStatsField(s);
    Ok(Read(StatsUpdate(st.value), st.rest))
  }

  function ReadLeftMatchmaking(s: string): (r: Result<Read<Notice>>)
    ensures r.Ok? ==> r.value.value.LeftMatchmaking?
  {
    var c :- ReadLeftMatchmakingCauseField(s);
    Ok(Read(LeftMatchmaking(c.value), c.rest))
  }

  function ReadMatchFound(s: string): (r: Result<Read<Notice>>)
    ensures r.Ok? ==> r.value.value.MatchFoundNotice?
  {
    var d :- ReadDurationField(s);
    Ok(Read(MatchFoundNotice(d.value), d.rest))
  }

  function ReadJoinedLobby(s: string): (r: Result<Read<Notice>>)
    ensures r.Ok? ==> r.value.value.JoinedLobby? && IsDecodedNotice(r.value.value)
  {
    var t :- ReadTeamInfoField(s);
    var d :- ReadDurationField(t.rest);
    Ok(Read(JoinedLobby(t.value, d.value), d.rest))
  }

  function ReadLobbyDied(s: string): (r: Result<Read<Notice>>)
    ensures r.Ok? ==> r.value.value.LobbyDied?
  {
    var c :- ReadLobbyCauseOfDeathField(s);
    Ok(Read(LobbyDied(c.value), c.rest))
  }

  function ReadPlayerSelectedHero(s: string): (r: Result<Read<Notice>>)
    ensures r.Ok? ==> r.value.value.PlayerSelectedHero? && IsDecodedNotice(r.value.value)
  {
    var i :- ReadPlayerIndexField(s);
    var h :- ReadHeroField(i.rest);
    Ok(Read(PlayerSelectedHero(i.value, h.value), h.rest))
  }

  /** The chat text is the terminal remainder, with no check of the chat pattern. */
  function ReadChatReceived(s: string): (r: Result<Read<Notice>>)
    ensures r.Ok? ==> r.value.value.ChatReceived? && IsDecodedNotice(r.value.value)
  {
    var i :- ReadPlayerIndexField(s);
    var t :- ReadTerminalField(i.rest);
    Ok(Read(ChatReceived(i.value, t.value), t.rest))
  }

  function ReadMatchPlayed(s: string): (r: Result<Read<Notice>>)
    ensures r.Ok? ==> r.value.value.MatchPlayed? && IsDecodedNotice(r.value.value)
  {
    var m :- ReadMatchSummaryField(s);
    var k :- ReadIntegerRankField(m.rest);
    Ok(Read(MatchPlayed(m.value, k.value), k.rest))
  }

  class ServerMessenger {
    /** The connection's MessengerBase, which queues what is sent. */
    const base: MessengerBase

    constructor ()
      ensures fresh(base) && base.sent == [] && !base.userRequestedDisconnect
    {
      base := new MessengerBase();
    }

    /**
     * onMessageReceived: the notice is decoded and passed to its handler
     * (dispatched); only then is text left unread refused with a
     * RuntimeException. A decoding failure reaches no handler.
     */
    method OnMessageReceived(msg: string) returns (dispatched: Option<Notice>, o: Outcome)
      ensures ParseNotice(msg).Fail? ==> dispatched == None && o == Throw(ParseNotice(msg).exc)
      ensures ParseNotice(msg).Ok? ==> dispatched == Some(ParseNotice(msg).value.value)
      ensures ParseNotice(msg).Ok? ==> (o.Pass? <==> ParseNotice(msg).value.rest == [])
      ensures ParseNotice(msg).Ok? && o.Throw? ==> o.exc == Runtime
    {
      var reader := new MsgReader(msg);
      var id := reader.ReadServerToClientMsgId();
      if id.Fail? {
        return None, Throw(id.exc);
      }
      var notice: Notice;
      match id.value {
        case LOGIN_SUCCEEDED =>
          var a := reader.ReadAccountInfo();
          if a.Fail? {
            return None, Throw(a.exc);
          }
          var st := reader.ReadServerStats();
          if st.Fail? {
            return None, Throw(st.exc);
          }
          notice := LoginSucceeded(a.value, st.value);
        case LOGIN_FAILED =>
          var e := reader.ReadLoginError();
          if e.Fail? {
            return None, Throw(e.exc);
          }
          notice := LoginFailed(e.value);
        case SIGN_UP_FAILED =>
          var e := reader.ReadSignUpError();
          if e.Fail? {
            return None, Throw(e.exc);
          }
          notice := SignUpFailed(e.value);
        case LOGOUT_SUCCEEDED =>
          notice := LogoutSucceeded;
        case SERVER_STATS =>
          var st := reader.ReadServerStats();
          if st.Fail? {
            return None, Throw(st.exc);
          }
          notice := StatsUpdate(st.value);
        case JOINED_MATCHMAKING =>
          notice := JoinedMatchmaking;
        case LEFT_MATCHMAKING =>
          var c := reader.ReadLeftMatchmakingCause();
          if c.Fail? {
            return None, Throw(c.exc);
          }
          notice := LeftMatchmaking(c.value);
        case MATCH_FOUND =>
          var d := reader.ReadDuration();
          if d.Fail? {
            return None, Throw(d.exc);
          }
          notice := MatchFoundNotice(d.value);
        case MATCH_CANCELED =>
          notice := MatchCanceled;
        case PLAYER_ACCEPTED_MATCH =>
          notice := PlayerAcceptedMatch;
        case JOINED_LOBBY =>
          var t := reader.ReadTeamInfo();
          if t.Fail? {
            return None, Throw(t.exc);
          }
          var d := reader.ReadDuration();
          if d.Fail? {
            return None, Throw(d.exc);
          }
          notice := JoinedLobby(t.value, d.value);
        case LOBBY_DIED =>
          var c := reader.ReadLobbyCauseOfDeath();
          if c.Fail? {
            return None, Throw(c.exc);
          }
          notice := LobbyDied(c.value);
        case PLAYER_SELECTED_HERO =>
          var i := reader.ReadPlayerIndex();
          if i.Fail? {
            return None, Throw(i.exc);
          }
          var h := reader.ReadHero();
          if h.Fail? {
            return None, Throw(h.exc);
          }
          notice := PlayerSelectedHero(i.value, h.value);
        case CHAT_MESSAGE_RECEIVED =>
          var i := reader.ReadPlayerIndex();
          if i.Fail? {
            return None, Throw(i.exc);
          }
          var t := reader.ReadTerminalString();
          if t.Fail? {
            return None, Throw(t.exc);
          }
          notice := ChatReceived(i.value, t.value);
        case MATCH_PLAYED =>
          var m := reader.ReadMatchSummary();
          if m.Fail? {
            return None, Throw(m.exc);
          }
          var k := reader.ReadIntegerRank();
          if k.Fail? {
            return None, Throw(k.exc);
          }
          notice := MatchPlayed(m.value, k.value);
      }
      dispatched := Some(notice);
      if !reader.IsEmpty() {
        o := Throw(Runtime);
      } else {
        o := Pass;
      }
    }

    /** A send* method whose request has no arguments. */
    method SendTagOnly(r: Request) returns (o: Outcome)
      requires RequestArgs(r) == []
      modifies base
      ensures o.Pass?
      ensures SentAs(o, Msg(RequestFields(r)), base.connected, old(base.sent), base.sent)
    {
      var writer := StartMessage(ClientMsgIdName(RequestId(r)));
      RequestsAreSendable(r);
      o := DeliverMessage(base, writer, RequestFields(r));
    }

    /** sendLogin and sendSignUp: the validated username, then the validated password as the terminal field. */
    method SendCredentials(r: Request) returns (o: Outcome)
      requires r.Login? || r.SignUp?
      modifies base
      ensures o.Pass? <==> IsValidUsername(r.username) && IsValidPassword(r.password)
      ensures SentAs(o, Msg(RequestFields(r)), base.connected, old(base.sent), base.sent)
    {
      var writer := StartMessage(ClientMsgIdName(RequestId(r)));
      ghost var fs := [ClientMsgIdName(RequestId(r))];
      o := writer.WriteUsername(r.username);
      if o.Throw? {
        return;
      }
      AppendAllSnoc([], fs, r.username);
      fs := fs + [r.username];
      o := writer.WritePassword(r.password);
      if o.Throw? {
        return;
      }
      AppendAllSnoc([], fs, r.password);
      fs := fs + [r.password];
      assert fs == RequestFields(r);
      RequestsAreSendable(r);
      o := DeliverMessage(base, writer, fs);
    }

    /** sendLogin. */
    method SendLogin(username: string, password: string) returns (o: Outcome)
      modifies base
      ensures o.Pass? <==> IsValidUsername(username) && IsValidPassword(password)
      ensures SentAs(o, Msg(RequestFields(Login(username, password))), base.connected, old(base.sent), base.sent)
    {
      o := SendCredentials(Login(username, password));
    }

    /** sendSignUp. */
    method SendSignUp(username: string, password: string) returns (o: Outcome)
      modifies base
      ensures o.Pass? <==> IsValidUsername(username) && IsValidPassword(password)
      ensures SentAs(o, Msg(RequestFields(SignUp(username, password))), base.connected, old(base.sent), base.sent)
    {
      o := SendCredentials(SignUp(username, password));
    }

    /** sendLogout. */
    method SendLogout() returns (o: Outcome)
      modifies base
      ensures o.Pass? && SentAs(o, Msg(RequestFields(Logout)), base.connected, old(base.sent), base.sent)
    {
      o := SendTagOnly(Logout);
    }

    /** sendJoinMatchmaking. */
    method SendJoinMatchmaking() returns (o: Outcome)
      modifies base
      ensures o.Pass? && SentAs(o, Msg(RequestFields(JoinMatchmaking)), base.connected, old(base.sent), base.sent)
    {
      o := SendTagOnly(JoinMatchmaking);
    }

    /** sendLeaveMatchmaking. */
    method SendLeaveMatchmaking() returns (o: Outcome)
      modifies base
      ensures o.Pass? && SentAs(o, Msg(RequestFields(LeaveMatchmaking)), base.connected, old(base.sent), base.sent)
    {
      o := SendTagOnly(LeaveMatchmaking);
    }

    /** sendAcceptMatch. */
    method SendAcceptMatch() returns (o: Outcome)
      modifies base
      ensures o.Pass? && SentAs(o, Msg(RequestFields(AcceptMatch)), base.connected, old(base.sent), base.sent)
    {
      o := SendTagOnly(AcceptMatch);
    }

    /** sendDeclineMatch. */
    method SendDeclineMatch() returns (o: Outcome)
      modifies base
      ensures o.Pass? && SentAs(o, Msg(RequestFields(DeclineMatch)), base.connected, old(base.sent), base.sent)
    {
      o := SendTagOnly(DeclineMatch);
    }

    /** sendSelectHero: the hero's text, "random" or its index. */
    method SendSelectHero(h: Hero) returns (o: Outcome)
      modifies base
      ensures o.Pass? && SentAs(o, Msg(RequestFields(SelectHero(h))), base.connected, old(base.sent), base.sent)
    {
      var writer := StartMessage(ClientMsgIdName(SELECT_HERO));
      var _ := writer.WriteString(HeroToString(h));
      AppendAllSnoc([], [ClientMsgIdName(SELECT_HERO)], HeroToString(h));
      RequestsAreSendable(SelectHero(h));
      o := DeliverMessage(base, writer, RequestFields(SelectHero(h)));
    }

    /** sendChatMessage: the validated text as the terminal field. */
    method SendChatMessage(text: string) returns (o: Outcome)
      modifies base
      ensures o.Pass? <==> IsValidChatMessage(text)
      ensures SentAs(o, Msg(RequestFields(Chat(text))), base.connected, old(base.sent), base.sent)
    {
      var writer := StartMessage(ClientMsgIdName(CHAT_MESSAGE));
      o := writer.WriteChatMessage(text);
      if o.Throw? {
        return;
      }
      AppendAllSnoc([], [ClientMsgIdName(CHAT_MESSAGE)], text);
      RequestsAreSendable(Chat(text));
      o := DeliverMessage(base, writer, RequestFields(Chat(text)));
    }

    /** sendLeaveLobby. */
    method SendLeaveLobby() returns (o: Outcome)
      modifies base
      ensures o.Pass? && SentAs(o, Msg(RequestFields(LeaveLobby)), base.connected, old(base.sent), base.sent)
    {
      o := SendTagOnly(LeaveLobby);
    }

    /** The send* method of the request r: it passes iff r's arguments are valid. */
    method SendRequest(r: Request) returns (o: Outcome)
      modifies base
      ensures o.Pass? <==> RequestArgsValid(r)
      ensures SentAs(o, Msg(RequestFields(r)), base.connected, old(base.sent), base.sent)
    {
      match r {
        case Login(u, p) => o := SendLogin(u, p);
        case SignUp(u, p) => o := SendSignUp(u, p);
        case Logout => o := SendLogout();
        case JoinMatchmaking => o := SendJoinMatchmaking();
        case LeaveMatchmaking => o := SendLeaveMatchmaking();
        case AcceptMatch => o := SendAcceptMatch();
        case DeclineMatch => o := SendDeclineMatch();
        case SelectHero(h) => o := SendSelectHero(h);
        case Chat(t) => o := SendChatMessage(t);
        case LeaveLobby => o := SendLeaveLobby();
      }
    }
  }
}
