/** The message tags of mm.common.net: ClientToServerMsgId and ServerToClientMsgId. */
module MsgIds {
  import opened Wrappers

  datatype ClientMsgId =
    | LOGIN | SIGN_UP | LOGOUT | JOIN_MATCHMAKING | LEAVE_MATCHMAKING
    | ACCEPT_MATCH | DECLINE_MATCH | SELECT_HERO | CHAT_MESSAGE | LEAVE_LOBBY

  datatype ServerMsgId =
    | LOGIN_SUCCEEDED | LOGIN_FAILED | SIGN_UP_FAILED | LOGOUT_SUCCEEDED | SERVER_STATS
    | JOINED_MATCHMAKING | LEFT_MATCHMAKING | MATCH_FOUND | MATCH_CANCELED
    | PLAYER_ACCEPTED_MATCH | JOINED_LOBBY | LOBBY_DIED | PLAYER_SELECTED_HERO
    | CHAT_MESSAGE_RECEIVED | MATCH_PLAYED

  /** The constant's name, as toString gives it. */
  function ClientMsgIdName(id: ClientMsgId): string {
    match id
    case LOGIN => "LOGIN"
    case SIGN_UP => "SIGN_UP"
    case LOGOUT => "LOGOUT"
    case JOIN_MATCHMAKING => "JOIN_MATCHMAKING"
    case LEAVE_MATCHMAKING => "LEAVE_MATCHMAKING"
    case ACCEPT_MATCH => "ACCEPT_MATCH"
    case DECLINE_MATCH => "DECLINE_MATCH"
    case SELECT_HERO => "SELECT_HERO"
    case CHAT_MESSAGE => "CHAT_MESSAGE"
    case LEAVE_LOBBY => "LEAVE_LOBBY"
  }

  /** ClientToServerMsgId.valueOf: an unknown name throws IllegalArgumentException. */
  function ClientMsgIdValueOf(s: string): (r: Result<ClientMsgId>)
    ensures r.Ok? ==> ClientMsgIdName(r.value) == s
    ensures r.Fail? ==> r.exc == IllegalArgument
  {
    if s == "LOGIN" then Ok(LOGIN)
    else if s == "SIGN_UP" then Ok(SIGN_UP)
    else if s == "LOGOUT" then Ok(LOGOUT)
    else if s == "JOIN_MATCHMAKING" then Ok(JOIN_MATCHMAKING)
    else if s == "LEAVE_MATCHMAKING" then Ok(LEAVE_MATCHMAKING)
    else if s == "ACCEPT_MATCH" then Ok(ACCEPT_MATCH)
    else if s == "DECLINE_MATCH" then Ok(DECLINE_MATCH)
    else if s == "SELECT_HERO" then Ok(SELECT_HERO)
    else if s == "CHAT_MESSAGE" then Ok(CHAT_MESSAGE)
    else if s == "LEAVE_LOBBY" then Ok(LEAVE_LOBBY)
    else Fail(IllegalArgument)
  }

  /** The Java constant is CHAT_MESSAGE; it is renamed here only to keep one Dafny name per constructor. */
  function ServerMsgIdName(id: ServerMsgId): string {
    match id
    case LOGIN_SUCCEEDED => "LOGIN_SUCCEEDED"
    case LOGIN_FAILED => "LOGIN_FAILED"
    case SIGN_UP_FAILED => "SIGN_UP_FAILED"
    case LOGOUT_SUCCEEDED => "LOGOUT_SUCCEEDED"
    case SERVER_STATS => "SERVER_STATS"
    case JOINED_MATCHMAKING => "JOINED_MATCHMAKING"
    case LEFT_MATCHMAKING => "LEFT_MATCHMAKING"
    case MATCH_FOUND => "MATCH_FOUND"
    case MATCH_CANCELED => "MATCH_CANCELED"
    case PLAYER_ACCEPTED_MATCH => "PLAYER_ACCEPTED_MATCH"
    case JOINED_LOBBY => "JOINED_LOBBY"
    case LOBBY_DIED => "LOBBY_DIED"
    case PLAYER_SELECTED_HERO => "PLAYER_SELECTED_HERO"
    case CHAT_MESSAGE_RECEIVED => "CHAT_MESSAGE"
    case MATCH_PLAYED => "MATCH_PLAYED"
  }

  /** ServerToClientMsgId.valueOf: an unknown name throws IllegalArgumentException. */
  function ServerMsgIdValueOf(s: string): (r: Result<ServerMsgId>)
    ensures r.Ok? ==> ServerMsgIdName(r.value) == s
    ensures r.Fail? ==> r.exc == IllegalArgument
  {
    if s == "LOGIN_SUCCEEDED" then Ok(LOGIN_SUCCEEDED)
    else if s == "LOGIN_FAILED" then Ok(LOGIN_FAILED)
    else if s == "SIGN_UP_FAILED" then Ok(SIGN_UP_FAILED)
    else if s == "LOGOUT_SUCCEEDED" then Ok(LOGOUT_SUCCEEDED)
    else if s == "SERVER_STATS" then Ok(SERVER_STATS)
    else if s == "JOINED_MATCHMAKING" then Ok(JOINED_MATCHMAKING)
    else if s == "LEFT_MATCHMAKING" then Ok(LEFT_MATCHMAKING)
    else LaterServerMsgId(s)
  }

  /** ServerMsgIdValueOf for the constants from MATCH_FOUND on. */
  function LaterServerMsgId(s: string): (r: Result<ServerMsgId>)
    ensures r.Ok? ==> ServerMsgIdName(r.value) == s
    ensures r.Fail? ==> r.exc == IllegalArgument
  {
    if s == "MATCH_FOUND" then Ok(MATCH_FOUND)
    else if s == "MATCH_CANCELED" then Ok(MATCH_CANCELED)
    else if s == "PLAYER_ACCEPTED_MATCH" then Ok(PLAYER_ACCEPTED_MATCH)
    else if s == "JOINED_LOBBY" then Ok(JOINED_LOBBY)
    else if s == "LOBBY_DIED" then Ok(LOBBY_DIED)
    else if s == "PLAYER_SELECTED_HERO" then Ok(PLAYER_SELECTED_HERO)
    else if s == "CHAT_MESSAGE" then Ok(CHAT_MESSAGE_RECEIVED)
    else if s == "MATCH_PLAYED" then Ok(MATCH_PLAYED)
    else Fail(IllegalArgument)
  }

  lemma ClientMsgIdNameRoundTrip(c: ClientMsgId)
    ensures ClientMsgIdValueOf(ClientMsgIdName(c)) == Ok(c)
    ensures ClientMsgIdName(c) != [] && ':' !in ClientMsgIdName(c)
  {
    match c
    case LOGIN =>
    case SIGN_UP =>
    case LOGOUT =>
    case JOIN_MATCHMAKING =>
    case LEAVE_MATCHMAKING =>
    case ACCEPT_MATCH =>
    case DECLINE_MATCH =>
    case SELECT_HERO =>
    case CHAT_MESSAGE =>
    case LEAVE_LOBBY =>
  }

  lemma ServerMsgIdNameRoundTrip(c: ServerMsgId)
    ensures ServerMsgIdValueOf(ServerMsgIdName(c)) == Ok(c)
    ensures ServerMsgIdName(c) != []
  {
    if c.LOGIN_SUCCEEDED? || c.LOGIN_FAILED? || c.SIGN_UP_FAILED? || c.LOGOUT_SUCCEEDED? || c.SERVER_STATS? {
      AccountTagsRoundTrip(c);
    } else if c.JOINED_MATCHMAKING? || c.LEFT_MATCHMAKING? || c.MATCH_FOUND? || c.MATCH_CANCELED? || c.PLAYER_ACCEPTED_MATCH? {
      MatchmakingTagsRoundTrip(c);
    } else {
      LobbyTagsRoundTrip(c);
    }
  }

  /** The tags of the account and statistics notices. */
  lemma AccountTagsRoundTrip(c: ServerMsgId)
    requires c.LOGIN_SUCCEEDED? || c.LOGIN_FAILED? || c.SIGN_UP_FAILED? || c.LOGOUT_SUCCEEDED? || c.SERVER_STATS?
    ensures ServerMsgIdValueOf(ServerMsgIdName(c)) == Ok(c) && ServerMsgIdName(c) != []
  {
    match c
    case LOGIN_SUCCEEDED =>
    case LOGIN_FAILED =>
    case SIGN_UP_FAILED =>
    case LOGOUT_SUCCEEDED =>
    case SERVER_STATS =>
  }

  /** The tags of the matchmaking notices. */
  lemma MatchmakingTagsRoundTrip(c: ServerMsgId)
    requires c.JOINED_MATCHMAKING? || c.LEFT_MATCHMAKING? || c.MATCH_FOUND? || c.MATCH_CANCELED? || c.PLAYER_ACCEPTED_MATCH?
    ensures ServerMsgIdValueOf(ServerMsgIdName(c)) == Ok(c) && ServerMsgIdName(c) != []
  {
    match c
    case JOINED_MATCHMAKING =>
    case LEFT_MATCHMAKING =>
    case MATCH_FOUND =>
    case MATCH_CANCELED =>
    case PLAYER_ACCEPTED_MATCH =>
  }

  /** The tags of the lobby notices. */
  lemma LobbyTagsRoundTrip(c: ServerMsgId)
    requires c.JOINED_LOBBY? || c.LOBBY_DIED? || c.PLAYER_SELECTED_HERO? || c.CHAT_MESSAGE_RECEIVED? || c.MATCH_PLAYED?
    ensures ServerMsgIdValueOf(ServerMsgIdName(c)) == Ok(c) && ServerMsgIdName(c) != []
  {
    if c.CHAT_MESSAGE_RECEIVED? || c.MATCH_PLAYED? {
      InLobbyTagsRoundTrip(c);
    } else {
      match c
      case JOINED_LOBBY =>
      case LOBBY_DIED =>
      case PLAYER_SELECTED_HERO =>
    }
  }

  /** The tags of the notices sent while in a lobby: a chat line, the match played. */
  lemma InLobbyTagsRoundTrip(c: ServerMsgId)
    requires c.CHAT_MESSAGE_RECEIVED? || c.MATCH_PLAYED?
    ensures ServerMsgIdValueOf(ServerMsgIdName(c)) == Ok(c) && ServerMsgIdName(c) != []
  {
    match c
    case CHAT_MESSAGE_RECEIVED =>
    case MATCH_PLAYED =>
  }

  /** Every server tag is a single non-empty field. */
  lemma ServerMsgIdNameIsField(c: ServerMsgId)
    ensures ':' !in ServerMsgIdName(c)
  {
    if c.LOGIN_SUCCEEDED? || c.LOGIN_FAILED? || c.SIGN_UP_FAILED? || c.LOGOUT_SUCCEEDED? || c.SERVER_STATS? {
      AccountTagsAreFields(c);
    } else if c.JOINED_MATCHMAKING? || c.LEFT_MATCHMAKING? || c.MATCH_FOUND? || c.MATCH_CANCELED? || c.PLAYER_ACCEPTED_MATCH? {
      MatchmakingTagsAreFields(c);
    } else {
      LobbyTagsAreFields(c);
    }
  }

  /** The tags of the account and statistics notices hold no colon. */
  lemma AccountTagsAreFields(c: ServerMsgId)
    requires c.LOGIN_SUCCEEDED? || c.LOGIN_FAILED? || c.SIGN_UP_FAILED? || c.LOGOUT_SUCCEEDED? || c.SERVER_STATS?
    ensures ':' !in ServerMsgIdName(c)
  {
    var n := ServerMsgIdName(c);
    forall i | 0 <= i < |n| ensures n[i] != ':' {
      match c
      case LOGIN_SUCCEEDED =>
      case LOGIN_FAILED =>
      case SIGN_UP_FAILED =>
      case LOGOUT_SUCCEEDED =>
      case SERVER_STATS =>
    }
  }

  /** The tags of the matchmaking notices hold no colon. */
  lemma MatchmakingTagsAreFields(c: ServerMsgId)
    requires c.JOINED_MATCHMAKING? || c.LEFT_MATCHMAKING? || c.MATCH_FOUND? || c.MATCH_CANCELED? || c.PLAYER_ACCEPTED_MATCH?
    ensures ':' !in ServerMsgIdName(c)
  {
    var n := ServerMsgIdName(c);
    forall i | 0 <= i < |n| ensures n[i] != ':' {
      match c
      case JOINED_MATCHMAKING =>
      case LEFT_MATCHMAKING =>
      case MATCH_FOUND =>
      case MATCH_CANCELED =>
      case PLAYER_ACCEPTED_MATCH =>
    }
  }

  /** The tags of the lobby notices hold no colon. */
  lemma LobbyTagsAreFields(c: ServerMsgId)
    requires c.JOINED_LOBBY? || c.LOBBY_DIED? || c.PLAYER_SELECTED_HERO? || c.CHAT_MESSAGE_RECEIVED? || c.MATCH_PLAYED?
    ensures ':' !in ServerMsgIdName(c)
  {
    var n := ServerMsgIdName(c);
    forall i | 0 <= i < |n| ensures n[i] != ':' {
      match c
      case JOINED_LOBBY =>
      case LOBBY_DIED =>
      case PLAYER_SELECTED_HERO =>
      case CHAT_MESSAGE_RECEIVED =>
      case MATCH_PLAYED =>
    }
  }
}
