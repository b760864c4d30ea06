/**
 * mm.server.net.ClientMessenger: the server's end of one connection. It
 * decodes each request a client sends and hands it to its handler, and it
 * encodes the notices the server sends back.
 */
module ClientMessaging {
  import opened Wrappers
  import opened Config
  import opened Validation
  import opened Decimal
  import opened Data
  import opened MsgIds
  import opened MsgReading
  import opened MsgWriting
  import opened Messages

  /**
   * What onMessageReceived reads: the tag (ClientToServerMsgId.valueOf of
   * the first field), then the arguments of that tag's case, and the text
   * left unread after them.
   */
  function ParseRequest(msg: string): (r: Result<Read<Request>>)
    ensures msg == [] ==> r == Fail(IllegalState)
    ensures r.Ok? ==> IsWellFormedRequest(r.value.value)
  {
    var f :- ReadField(msg);
    var id :- ClientMsgIdValueOf(f.value);
    var s := f.rest;
    match id
    case LOGIN =>
      var u :- ReadUsernameField(s);
      var p :- ReadPasswordField(u.rest);
      Ok(Read(Login(u.value, p.value), p.rest))
    case SIGN_UP =>
      var u :- ReadUsernameField(s);
      var p :- ReadPasswordField(u.rest);
      Ok(Read(SignUp(u.value, p.value), p.rest))
    case LOGOUT => Ok(Read(Logout, s))
    case JOIN_MATCHMAKING => Ok(Read(JoinMatchmaking, s))
    case LEAVE_MATCHMAKING => Ok(Read(LeaveMatchmaking, s))
    case ACCEPT_MATCH => Ok(Read(AcceptMatch, s))
    case DECLINE_MATCH => Ok(Read(DeclineMatch, s))
    case SELECT_HERO =>
      var h :- ReadHeroField(s);
      Ok(Read(SelectHero(h.value), h.rest))
    case CHAT_MESSAGE =>
      var c :- ReadChatMessageField(s);
      Ok(Read(Chat(c.value), c.rest))
    case LEAVE_LOBBY => Ok(Read(LeaveLobby, s))
  }

  /** The fields of a MATCH_PLAYED message: the tag, the summary, the rank. */
  lemma MatchPlayedFields(s: MatchSummary, k: int)
    ensures NoticeFields(MatchPlayed(s, k)) == [ServerMsgIdName(MATCH_PLAYED)] + MatchSummaryFields(s) + [IntToString(k)]
    ensures ServerMsgIdName(MATCH_PLAYED) != []
  {
    assert NoticeArgs(MatchPlayed(s, k)) == MatchSummaryFields(s) + [IntToString(k)];
  }

  /** sendMatchPlayed's writes: the tag, the match summary, then the validated new rank. */
  method WriteMatchPlayed(s: MatchSummary, newRank: int) returns (writer: MsgWriter, o: Outcome)
    ensures fresh(writer)
    ensures o.Pass? <==> IsIntegerRank(newRank)
    ensures o.Throw? ==> o.exc == IllegalArgument
    ensures o.Pass? ==> writer.message == AppendAll([], NoticeFields(MatchPlayed(s, newRank)))
    ensures NoticeFields(MatchPlayed(s, newRank))[0] != []
  {
    MatchPlayedFields(s, newRank);
    writer := StartMessage(ServerMsgIdName(MATCH_PLAYED));
    ghost var fs := [ServerMsgIdName(MATCH_PLAYED)] + MatchSummaryFields(s);
    var _ := writer.WriteMatchSummary(s);
    AppendAllConcat([], [ServerMsgIdName(MATCH_PLAYED)], MatchSummaryFields(s));
    o := writer.WriteIntegerRank(newRank);
    if o.Throw? {
      return;
    }
    AppendAllSnoc([], fs, IntToString(newRank));
  }

  class ClientMessenger {
    /** The connection's MessengerBase, which queues what is sent. */
    const base: MessengerBase

    constructor ()
      ensures fresh(base) && base.sent == []
    {
      base := new MessengerBase();
    }

    /**
     * onMessageReceived: the request is decoded and passed to its handler
     * (dispatched); only then is text left unread refused with a
     * RuntimeException. A decoding failure reaches no handler.
     */
    method OnMessageReceived(msg: string) returns (dispatched: Option<Request>, o: Outcome)
      ensures ParseRequest(msg).Fail? ==> dispatched == None && o == Throw(ParseRequest(msg).exc)
      ensures ParseRequest(msg).Ok? ==> dispatched == Some(ParseRequest(msg).value.value)
      ensures ParseRequest(msg).Ok? ==> (o.Pass? <==> ParseRequest(msg).value.rest == [])
      ensures ParseRequest(msg).Ok? && o.Throw? ==> o.exc == Runtime
    {
      var reader := new MsgReader(msg);
      var f := reader.ReadString();
      if f.Fail? {
        return None, Throw(f.exc);
      }
      var id := ClientMsgIdValueOf(f.value);
      if id.Fail? {
        return None, Throw(id.exc);
      }
      var request: Request;
      match id.value {
        case LOGIN =>
          var u := reader.ReadUsername();
          if u.Fail? {
            return None, Throw(u.exc);
          }
          var p := reader.ReadPassword();
          if p.Fail? {
            return None, Throw(p.exc);
          }
          request := Login(u.value, p.value);
        case SIGN_UP =>
          var u := reader.ReadUsername();
          if u.Fail? {
            return None, Throw(u.exc);
          }
          var p := reader.ReadPassword();
          if p.Fail? {
            return None, Throw(p.exc);
          }
          request := SignUp(u.value, p.value);
        case LOGOUT =>
          request := Logout;
        case JOIN_MATCHMAKING =>
          request := JoinMatchmaking;
        case LEAVE_MATCHMAKING =>
          request := LeaveMatchmaking;
        case ACCEPT_MATCH =>
          request := AcceptMatch;
        case DECLINE_MATCH =>
          request := DeclineMatch;
        case SELECT_HERO =>
          var h := reader.ReadHero();
          if h.Fail? {
            return None, Throw(h.exc);
          }
          request := SelectHero(h.value);
        case CHAT_MESSAGE =>
          var c := reader.ReadChatMessage();
          if c.Fail? {
            return None, Throw(c.exc);
          }
          request := Chat(c.value);
        case LEAVE_LOBBY =>
          request := LeaveLobby;
      }
      dispatched := Some(request);
      if !reader.IsEmpty() {
        o := Throw(Runtime);
      } else {
        o := Pass;
      }
    }

    /** A send* method whose notice has no arguments. */
    method SendTagOnly(n: Notice) returns (o: Outcome)
      requires NoticeArgs(n) == []
      modifies base
      ensures o.Pass? <==> IsSendable(Msg(NoticeFields(n)))
      ensures SentAs(o, Msg(NoticeFields(n)), base.connected, old(base.sent), base.sent)
    {
      var writer := StartMessage(ServerMsgIdName(NoticeId(n)));
      o := DeliverMessage(base, writer, NoticeFields(n));
    }

    /** A send* method whose notice has one plain field. */
    method SendOneField(n: Notice, f: string) returns (o: Outcome)
      requires NoticeArgs(n) == [f]
      modifies base
      ensures o.Pass? <==> IsSendable(Msg(NoticeFields(n)))
      ensures SentAs(o, Msg(NoticeFields(n)), base.connected, old(base.sent), base.sent)
    {
      var writer := StartMessage(ServerMsgIdName(NoticeId(n)));
      var _ := writer.WriteString(f);
      AppendAllSnoc([], [ServerMsgIdName(NoticeId(n))], f);
      o := DeliverMessage(base, writer, NoticeFields(n));
    }

    /** sendLoginSucceeded: the account info, then the server stats. */
    method SendLoginSucceeded(a: AccountInfo, st: ServerStats) returns (o: Outcome)
      modifies base
      ensures o.Pass? <==> IsSendable(Msg(NoticeFields(LoginSucceeded(a, st))))
      ensures SentAs(o, Msg(NoticeFields(LoginSucceeded(a, st))), base.connected, old(base.sent), base.sent)
    {
      var writer := StartMessage(ServerMsgIdName(LOGIN_SUCCEEDED));
      ghost var fs := [ServerMsgIdName(LOGIN_SUCCEEDED)];
      var _ := writer.WriteAccountInfo(a);
      AppendAllConcat([], fs, AccountInfoFields(a));
      fs := fs + AccountInfoFields(a);
      var _ := writer.WriteServerStats(st);
      AppendAllConcat([], fs, ServerStatsFields(st));
      fs := fs + ServerStatsFields(st);
      assert fs == NoticeFields(LoginSucceeded(a, st));
      o := DeliverMessage(base, writer, fs);
    }

    /** sendLoginFailed. */
    method SendLoginFailed(e: LoginError) returns (o: Outcome)
      modifies base
      ensures o.Pass? <==> IsSendable(Msg(NoticeFields(LoginFailed(e))))
      ensures SentAs(o, Msg(NoticeFields(LoginFailed(e))), base.connected, old(base.sent), base.sent)
    {
      o := SendOneField(LoginFailed(e), LoginErrorName(e));
    }

    /** sendSignUpFailed. */
    method SendSignUpFailed(e: SignUpError) returns (o: Outcome)
      modifies base
      ensures o.Pass? <==> IsSendable(Msg(NoticeFields(SignUpFailed(e))))
      ensures SentAs(o, Msg(NoticeFields(SignUpFailed(e))), base.connected, old(base.sent), base.sent)
    {
      o := SendOneField(SignUpFailed(e), SignUpErrorName(e));
    }

    /** sendLogoutSucceeded. */
    method SendLogoutSucceeded() returns (o: Outcome)
      modifies base
      ensures o.Pass? <==> IsSendable(Msg(NoticeFields(LogoutSucceeded)))
      ensures SentAs(o, Msg(NoticeFields(LogoutSucceeded)), base.connected, old(base.sent), base.sent)
    {
      o := SendTagOnly(LogoutSucceeded);
    }

    /** sendServerStats. */
    method SendServerStats(st: ServerStats) returns (o: Outcome)
      modifies base
      ensures o.Pass? <==> IsSendable(Msg(NoticeFields(StatsUpdate(st))))
      ensures SentAs(o, Msg(NoticeFields(StatsUpdate(st))), base.connected, old(base.sent), base.sent)
    {
      var writer := StartMessage(ServerMsgIdName(SERVER_STATS));
      var _ := writer.WriteServerStats(st);
      AppendAllConcat([], [ServerMsgIdName(SERVER_STATS)], ServerStatsFields(st));
      o := DeliverMessage(base, writer, NoticeFields(StatsUpdate(st)));
    }

    /** sendJoinedMatchmaking. */
    method SendJoinedMatchmaking() returns (o: Outcome)
      modifies base
      ensures o.Pass? <==> IsSendable(Msg(NoticeFields(JoinedMatchmaking)))
      ensures SentAs(o, Msg(NoticeFields(JoinedMatchmaking)), base.connected, old(base.sent), base.sent)
    {
      o := SendTagOnly(JoinedMatchmaking);
    }

    /** sendLeftMatchmaking. */
    method SendLeftMatchmaking(c: LeftMatchmakingCause) returns (o: Outcome)
      modifies base
      ensures o.Pass? <==> IsSendable(Msg(NoticeFields(LeftMatchmaking(c))))
      ensures SentAs(o, Msg(NoticeFields(LeftMatchmaking(c))), base.connected, old(base.sent), base.sent)
    {
      o := SendOneField(LeftMatchmaking(c), LeftMatchmakingCauseName(c));
    }

    /** sendMatchFound: the time to accept, as the text of its field. */
    method SendMatchFound(timeToAccept: string) returns (o: Outcome)
      modifies base
      ensures o.Pass? <==> IsSendable(Msg(NoticeFields(MatchFoundNotice(timeToAccept))))
      ensures SentAs(o, Msg(NoticeFields(MatchFoundNotice(timeToAccept))), base.connected, old(base.sent), base.sent)
    {
      o := SendOneField(MatchFoundNotice(timeToAccept), timeToAccept);
    }

    /** sendMatchCanceled. */
    method SendMatchCanceled() returns (o: Outcome)
      modifies base
      ensures o.Pass? <==> IsSendable(Msg(NoticeFields(MatchCanceled)))
      ensures SentAs(o, Msg(NoticeFields(MatchCanceled)), base.connected, old(base.sent), base.sent)
    {
      o := SendTagOnly(MatchCanceled);
    }

    /** sendPlayerAcceptedMatch. */
    method SendPlayerAcceptedMatch() returns (o: Outcome)
      modifies base
      ensures o.Pass? <==> IsSendable(Msg(NoticeFields(PlayerAcceptedMatch)))
      ensures SentAs(o, Msg(NoticeFields(PlayerAcceptedMatch)), base.connected, old(base.sent), base.sent)
    {
      o := SendTagOnly(PlayerAcceptedMatch);
    }

    /** sendJoinedLobby: the team info, then the time to select a hero. */
    method SendJoinedLobby(t: TeamInfo, timeToSelect: string) returns (o: Outcome)
      modifies base
      ensures o.Pass? <==> IsSendable(Msg(NoticeFields(JoinedLobby(t, timeToSelect))))
      ensures SentAs(o, Msg(NoticeFields(JoinedLobby(t, timeToSelect))), base.connected, old(base.sent), base.sent)
    {
      var writer := StartMessage(ServerMsgIdName(JOINED_LOBBY));
      ghost var fs := [ServerMsgIdName(JOINED_LOBBY)];
      var _ := writer.WriteTeamInfo(t);
      AppendAllConcat([], fs, TeamInfoFields(t));
      fs := fs + TeamInfoFields(t);
      var _ := writer.WriteString(timeToSelect);
      AppendAllSnoc([], fs, timeToSelect);
      fs := fs + [timeToSelect];
      assert fs == NoticeFields(JoinedLobby(t, timeToSelect));
      o := DeliverMessage(base, writer, fs);
    }

    /** sendLobbyDied. */
    method SendLobbyDied(c: LobbyCauseOfDeath) returns (o: Outcome)
      modifies base
      ensures o.Pass? <==> IsSendable(Msg(NoticeFields(LobbyDied(c))))
      ensures SentAs(o, Msg(NoticeFields(LobbyDied(c))), base.connected, old(base.sent), base.sent)
    {
      o := SendOneField(LobbyDied(c), LobbyCauseOfDeathName(c));
    }

    /** sendPlayerSelectedHero: a validated player index, then the hero. */
    method SendPlayerSelectedHero(i: int, h: Hero) returns (o: Outcome)
      modifies base
      ensures o.Pass? <==> 0 <= i < TEAM_SIZE && IsSendable(Msg(NoticeFields(PlayerSelectedHero(i, h))))
      ensures SentAs(o, Msg(NoticeFields(PlayerSelectedHero(i, h))), base.connected, old(base.sent), base.sent)
    {
      var writer := StartMessage(ServerMsgIdName(PLAYER_SELECTED_HERO));
      ghost var fs := [ServerMsgIdName(PLAYER_SELECTED_HERO)];
      o := writer.WritePlayerIndex(i);
      if o.Throw? {
        return;
      }
      AppendAllSnoc([], fs, IntToString(i));
      fs := fs + [IntToString(i)];
      var _ := writer.WriteString(HeroToString(h));
      AppendAllSnoc([], fs, HeroToString(h));
      fs := fs + [HeroToString(h)];
      assert fs == NoticeFields(PlayerSelectedHero(i, h));
      o := DeliverMessage(base, writer, fs);
    }

    /** sendChatMessage: a validated player index, then the validated text as the terminal field. */
    method SendChatMessage(i: int, text: string) returns (o: Outcome)
      modifies base
      ensures o.Pass? <==> 0 <= i < TEAM_SIZE && IsValidChatMessage(text) && IsSendable(Msg(NoticeFields(ChatReceived(i, text))))
      ensures SentAs(o, Msg(NoticeFields(ChatReceived(i, text))), base.connected, old(base.sent), base.sent)
    {
      var writer := StartMessage(ServerMsgIdName(CHAT_MESSAGE_RECEIVED));
      ghost var fs := [ServerMsgIdName(CHAT_MESSAGE_RECEIVED)];
      o := writer.WritePlayerIndex(i);
      if o.Throw? {
        return;
      }
      AppendAllSnoc([], fs, IntToString(i));
      fs := fs + [IntToString(i)];
      o := writer.WriteChatMessage(text);
      if o.Throw? {
        return;
      }
      AppendAllSnoc([], fs, text);
      fs := fs + [text];
      assert fs == NoticeFields(ChatReceived(i, text));
      o := DeliverMessage(base, writer, fs);
    }

    /** sendMatchPlayed: the match summary, then the validated new rank. */
    method SendMatchPlayed(s: MatchSummary, newRank: int) returns (o: Outcome)
      modifies base
      ensures o.Pass? <==> IsIntegerRank(newRank) && IsSendable(Msg(NoticeFields(MatchPlayed(s, newRank))))
      ensures SentAs(o, Msg(NoticeFields(MatchPlayed(s, newRank))), base.connected, old(base.sent), base.sent)
    {
      var writer;
      writer, o := WriteMatchPlayed(s, newRank);
      if o.Throw? {
        return;
      }
      o := DeliverMessage(base, writer, NoticeFields(MatchPlayed(s, newRank)));
    }
  }
}
