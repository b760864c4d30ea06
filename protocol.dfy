/**
 * The two directions of the protocol end to end: what a send* method of
 * one messenger queues is decoded by the other messenger's
 * onMessageReceived into the same request or notice, with nothing left
 * over.
 */
module Protocol {
  import opened Wrappers
  import opened Config
  import opened Validation
  import opened Decimal
  import opened Data
  import opened MsgIds
  import opened MsgReading
  import opened MsgWriting
  import opened Codec
  import opened Messages
  import opened ClientMessaging
  import opened ServerMessaging

  /** A message's tag is read back as one field, leaving the message of its arguments. */
  lemma ReadTag(tag: string, args: seq<string>)
    requires tag != [] && ':' !in tag
    ensures ReadField(Msg([tag] + args)) == Ok(Read(tag, Msg(args)))
  {
    ReadFieldHead(tag, args);
  }

  /** A single plain field read as the last one of a message. */
  lemma ReadLastField(f: string)
    requires f != [] && ':' !in f
    ensures ReadField(Msg([f])) == Ok(Read(f, []))
  {
    ReadFieldOf(f, []);
  }

  /**
   * ClientMessenger decodes what ServerMessenger sends: for every request
   * whose arguments pass the send* method's checks, the message is parsed
   * back to that request and the reader is left empty.
   */
  lemma RequestRoundTrip(r: Request)
    requires IsWellFormedRequest(r)
    ensures ParseRequest(Msg(RequestFields(r))) == Ok(Read(r, []))
  {
    var tag := ClientMsgIdName(RequestId(r));
    var args := RequestArgs(r);
    ClientMsgIdNameRoundTrip(RequestId(r));
    ReadTag(tag, args);
    match r
    case Login(u, p) =>
      ValidUsernameIsField(u);
      ReadFieldMsg(args);
      assert args[1..] == [p];
    case SignUp(u, p) =>
      ValidUsernameIsField(u);
      ReadFieldMsg(args);
      assert args[1..] == [p];
    case SelectHero(h) =>
      ReadLastField(HeroToString(h));
      HeroStringRoundTrip(h);
    case Chat(t) =>
    case Logout =>
    case JoinMatchmaking =>
    case LeaveMatchmaking =>
    case AcceptMatch =>
    case DeclineMatch =>
    case LeaveLobby =>
  }

  /** The notice's tag is read back by readServerToClientMsgId. */
  lemma ReadNoticeTag(n: Notice)
    ensures ReadServerMsgIdField(Msg(NoticeFields(n))) == Ok(Read(NoticeId(n), Msg(NoticeArgs(n))))
  {
    ServerMsgIdNameRoundTrip(NoticeId(n));
    ServerMsgIdNameIsField(NoticeId(n));
    ReadTag(ServerMsgIdName(NoticeId(n)), NoticeArgs(n));
  }

  /** A notice whose arguments are read back by its case of the switch is read back whole. */
  lemma FromArgs(n: Notice)
    requires ParseNoticeArgs(NoticeId(n), Msg(NoticeArgs(n))) == Ok(Read(n, []))
    ensures ParseNotice(Msg(NoticeFields(n))) == Ok(Read(n, []))
  {
    ReadNoticeTag(n);
  }

  /** LOGIN_SUCCEEDED: the account's fields, then the server's. */
  lemma LoginSucceededRoundTrip(a: AccountInfo, st: ServerStats)
    requires AccountInfoOnWire(a) && ServerStatsOnWire(st)
    ensures ParseNotice(Msg(NoticeFields(LoginSucceeded(a, st)))) == Ok(Read(LoginSucceeded(a, st), []))
  {
    ReadNoticeTag(LoginSucceeded(a, st));
    ReadAccountInfoMsg(a, ServerStatsFields(st));
    ReadServerStatsMsg(st, []);
    assert ServerStatsFields(st) + [] == ServerStatsFields(st);
  }

  /** LOGIN_FAILED: the error's name. */
  lemma LoginFailedRoundTrip(e: LoginError)
    ensures ParseNotice(Msg(NoticeFields(LoginFailed(e)))) == Ok(Read(LoginFailed(e), []))
  {
    ReadNoticeTag(LoginFailed(e));
    LoginErrorNameRoundTrip(e);
    ReadLastField(LoginErrorName(e));
  }

  /** SIGN_UP_FAILED: the error's name. */
  lemma SignUpFailedRoundTrip(e: SignUpError)
    ensures ParseNotice(Msg(NoticeFields(SignUpFailed(e)))) == Ok(Read(SignUpFailed(e), []))
  {
    ReadNoticeTag(SignUpFailed(e));
    SignUpErrorNameRoundTrip(e);
    ReadLastField(SignUpErrorName(e));
  }

  /** SERVER_STATS: the four counts. */
  lemma StatsUpdateRoundTrip(st: ServerStats)
    requires ServerStatsOnWire(st)
    ensures ParseNotice(Msg(NoticeFields(StatsUpdate(st)))) == Ok(Read(StatsUpdate(st), []))
  {
    var n := StatsUpdate(st);
    assert NoticeArgs(n) == ServerStatsFields(st) + [];
    ReadServerStatsMsg(st, []);
    assert ReadServerStatsField(Msg(NoticeArgs(n))) == Ok(Read(st, []));
    assert ReadStatsUpdate(Msg(NoticeArgs(n))) == Ok(Read(n, []));
    StatsCase(st, Msg(NoticeArgs(n)));
    FromArgs(n);
  }

  /** SERVER_STATS takes the switch's case for it. */
  lemma StatsCase(st: ServerStats, s: string)
    ensures ParseNoticeArgs(NoticeId(StatsUpdate(st)), s) == ReadStatsUpdate(s)
  {
  }

  /** LEFT_MATCHMAKING: the cause's name. */
  lemma LeftMatchmakingRoundTrip(c: LeftMatchmakingCause)
    ensures ParseNotice(Msg(NoticeFields(LeftMatchmaking(c)))) == Ok(Read(LeftMatchmaking(c), []))
  {
    ReadNoticeTag(LeftMatchmaking(c));
    LeftMatchmakingCauseNameRoundTrip(c);
    ReadLastField(LeftMatchmakingCauseName(c));
  }

  /** MATCH_FOUND: the time to accept. */
  lemma MatchFoundRoundTrip(d: string)
    requires DurationOnWire(d)
    ensures ParseNotice(Msg(NoticeFields(MatchFoundNotice(d)))) == Ok(Read(MatchFoundNotice(d), []))
  {
    ReadNoticeTag(MatchFoundNotice(d));
    ReadLastField(d);
  }

  /** JOINED_LOBBY: the team, then the time to select a hero. */
  lemma JoinedLobbyRoundTrip(t: TeamInfo, d: string)
    requires IsTeamInfo(t) && DurationOnWire(d)
    ensures ParseNotice(Msg(NoticeFields(JoinedLobby(t, d)))) == Ok(Read(JoinedLobby(t, d), []))
  {
    JoinedLobbyArgs(t, d);
    FromArgs(JoinedLobby(t, d));
  }

  /** JOINED_LOBBY's case of the switch. */
  lemma JoinedLobbyArgs(t: TeamInfo, d: string)
    requires IsTeamInfo(t) && DurationOnWire(d)
    ensures ParseNoticeArgs(JOINED_LOBBY, Msg(NoticeArgs(JoinedLobby(t, d)))) == Ok(Read(JoinedLobby(t, d), []))
  {
    assert NoticeArgs(JoinedLobby(t, d)) == TeamInfoFields(t) + [d];
    ReadTeamInfoMsg(t, [d]);
    ReadLastField(d);
    assert ReadTeamInfoField(Msg(TeamInfoFields(t) + [d])) == Ok(Read(t, Msg([d])));
  }

  /** LOBBY_DIED: the cause's name. */
  lemma LobbyDiedRoundTrip(c: LobbyCauseOfDeath)
    ensures ParseNotice(Msg(NoticeFields(LobbyDied(c)))) == Ok(Read(LobbyDied(c), []))
  {
    LobbyDiedArgs(c);
    FromArgs(LobbyDied(c));
  }

  /** LOBBY_DIED's case of the switch. */
  lemma LobbyDiedArgs(c: LobbyCauseOfDeath)
    ensures ParseNoticeArgs(LOBBY_DIED, Msg(NoticeArgs(LobbyDied(c)))) == Ok(Read(LobbyDied(c), []))
  {
    LobbyCauseOfDeathNameRoundTrip(c);
    ReadLastField(LobbyCauseOfDeathName(c));
  }

  /** PLAYER_SELECTED_HERO: the index, then the hero. */
  lemma PlayerSelectedHeroRoundTrip(i: int, h: Hero)
    requires 0 <= i < TEAM_SIZE && IsHero(h)
    ensures ParseNotice(Msg(NoticeFields(PlayerSelectedHero(i, h)))) == Ok(Read(PlayerSelectedHero(i, h), []))
  {
    PlayerSelectedHeroArgs(i, h);
    FromArgs(PlayerSelectedHero(i, h));
  }

  /** PLAYER_SELECTED_HERO's case of the switch. */
  lemma PlayerSelectedHeroArgs(i: int, h: Hero)
    requires 0 <= i < TEAM_SIZE && IsHero(h)
    ensures ParseNoticeArgs(PLAYER_SELECTED_HERO, Msg(NoticeArgs(PlayerSelectedHero(i, h)))) == Ok(Read(PlayerSelectedHero(i, h), []))
  {
    var args := NoticeArgs(PlayerSelectedHero(i, h));
    ReadIntHead(args, i);
    assert args[1..] == [HeroToString(h)];
    assert ReadPlayerIndexField(Msg(args)) == Ok(Read(i, HeroToString(h)));
    ReadLastField(HeroToString(h));
    HeroStringRoundTrip(h);
    assert ReadHeroField(HeroToString(h)) == Ok(Read(h, []));
  }

  /** CHAT_MESSAGE_RECEIVED: the index, then the text as the terminal field. */
  lemma ChatReceivedRoundTrip(i: int, text: string)
    requires 0 <= i < TEAM_SIZE && text != []
    ensures ParseNotice(Msg(NoticeFields(ChatReceived(i, text)))) == Ok(Read(ChatReceived(i, text), []))
  {
    ChatReceivedArgs(i, text);
    FromArgs(ChatReceived(i, text));
  }

  /** CHAT_MESSAGE_RECEIVED's case of the switch. */
  lemma ChatReceivedArgs(i: int, text: string)
    requires 0 <= i < TEAM_SIZE && text != []
    ensures ParseNoticeArgs(CHAT_MESSAGE_RECEIVED, Msg(NoticeArgs(ChatReceived(i, text)))) == Ok(Read(ChatReceived(i, text), []))
  {
    var args := NoticeArgs(ChatReceived(i, text));
    ReadIntHead(args, i);
    assert args[1..] == [text];
    assert ReadPlayerIndexField(Msg(args)) == Ok(Read(i, text));
  }

  /** MATCH_PLAYED's case of the switch, on a text whose summary is read back. */
  lemma MatchPlayedArgs(text: string, s: MatchSummary, k: int)
    requires ReadMatchSummaryField(text) == Ok(Read(s, IntToString(k))) && IsIntegerRank(k)
    ensures ParseNoticeArgs(MATCH_PLAYED, text) == Ok(Read(MatchPlayed(s, k), []))
  {
    ReadMatchPlayedOf(text, s, k);
    MatchPlayedCase(MATCH_PLAYED, text);
  }

  /** The switch sends MATCH_PLAYED to readMatchPlayed. */
  lemma MatchPlayedCase(id: ServerMsgId, text: string)
    requires id.MATCH_PLAYED?
    ensures ParseNoticeArgs(id, text) == ReadMatchPlayed(text)
  {
  }

  /** readMatchSummary, then the rank, give the MATCH_PLAYED notice. */
  lemma ReadMatchPlayedOf(text: string, s: MatchSummary, k: int)
    requires ReadMatchSummaryField(text) == Ok(Read(s, IntToString(k))) && IsIntegerRank(k)
    ensures ReadMatchPlayed(text) == Ok(Read(MatchPlayed(s, k), []))
  {
    IntegerRankRead(k);
  }

  /** A rank written alone is read back whole. */
  lemma IntegerRankRead(k: int)
    requires IsIntegerRank(k)
    ensures ReadIntegerRankField(IntToString(k)) == Ok(Read(k, []))
  {
    ReadIntHead([IntToString(k)], k);
  }

  /** MATCH_PLAYED: the summary, then the new rank. */
  lemma MatchPlayedRoundTrip(s: MatchSummary, k: int)
    requires MatchSummaryOnWire(s) && IsIntegerRank(k)
    ensures ParseNotice(Msg(NoticeFields(MatchPlayed(s, k)))) == Ok(Read(MatchPlayed(s, k), []))
  {
    var n := MatchPlayed(s, k);
    ReadNoticeTag(n);
    assert NoticeArgs(n) == MatchSummaryFields(s) + [IntToString(k)];
    ReadMatchSummaryMsg(s, [IntToString(k)]);
    MatchPlayedArgs(Msg(NoticeArgs(n)), s, k);
  }

  /** The notices without arguments: the tag alone. */
  lemma TagOnlyRoundTrip(n: Notice)
    requires n.LogoutSucceeded? || n.JoinedMatchmaking? || n.MatchCanceled? || n.PlayerAcceptedMatch?
    ensures ParseNotice(Msg(NoticeFields(n))) == Ok(Read(n, []))
  {
    assert NoticeArgs(n) == [] && Msg([]) == [];
    FromArgs(n);
  }

  /**
   * ServerMessenger decodes what ClientMessenger sends: for every notice
   * whose values are valid and travel intact, the message is parsed back
   * to that notice and the reader is left empty.
   */
  lemma NoticeRoundTrip(n: Notice)
    requires IsWellFormedNotice(n)
    ensures ParseNotice(Msg(NoticeFields(n))) == Ok(Read(n, []))
  {
    match n
    case LoginSucceeded(a, st) => LoginSucceededRoundTrip(a, st);
    case LoginFailed(e) => LoginFailedRoundTrip(e);
    case SignUpFailed(e) => SignUpFailedRoundTrip(e);
    case LogoutSucceeded => TagOnlyRoundTrip(n);
    case StatsUpdate(st) => StatsUpdateRoundTrip(st);
    case JoinedMatchmaking => TagOnlyRoundTrip(n);
    case LeftMatchmaking(c) => LeftMatchmakingRoundTrip(c);
    case MatchFoundNotice(d) => MatchFoundRoundTrip(d);
    case MatchCanceled => TagOnlyRoundTrip(n);
    case PlayerAcceptedMatch => TagOnlyRoundTrip(n);
    case JoinedLobby(t, d) => JoinedLobbyRoundTrip(t, d);
    case LobbyDied(c) => LobbyDiedRoundTrip(c);
    case PlayerSelectedHero(i, h) => PlayerSelectedHeroRoundTrip(i, h);
    case ChatReceived(i, t) => ChatReceivedRoundTrip(i, t);
    case MatchPlayed(s, k) => MatchPlayedRoundTrip(s, k);
  }

  /** A chat line the server's sender refuses but the client's reader takes. */
  lemma ChatWithLineFeedAccepted()
    ensures !IsValidChatMessage("a\nb")
    ensures ParseNotice(Msg(NoticeFields(ChatReceived(0, "a\nb")))).Ok?
  {
    ChatReceivedRoundTrip(0, "a\nb");
    assert !NoLineBreak("a\nb") by {
      assert "a\nb"[1] == '\n';
    }
  }
}
