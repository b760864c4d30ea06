/**
 * The value classes of mm.common.data: Team, the heroes, TeamInfo,
 * MatchSummary, AccountInfo, ServerStats and the error/cause enums.
 * Each Java constructor that validates becomes a function returning a
 * Result; the objects themselves are immutable values.
 */
module Data {
  import opened Wrappers
  import opened Config
  import opened Validation
  import opened Decimal

  // ---------------------------------------------------------------- Team

  datatype Team = Blue | Red

  function TeamIndex(t: Team): (i: nat)
    ensures i < 2
  {
    match t
    case Blue => 0
    case Red => 1
  }

  /** Team.fromIndex: 0 is BLUE, 1 is RED, anything else throws. */
  function TeamFromIndex(i: int): (r: Result<Team>)
    ensures r.Ok? <==> i == 0 || i == 1
    ensures r.Ok? ==> TeamIndex(r.value) == i
    ensures r.Fail? ==> r.exc == IllegalArgument
  {
    if i == 0 then Ok(Blue) else if i == 1 then Ok(Red) else Fail(IllegalArgument)
  }

  lemma TeamIndexRoundTrip(t: Team)
    ensures TeamFromIndex(TeamIndex(t)) == Ok(t)
  {
  }

  /** Team.other */
  function OtherTeam(t: Team): (o: Team)
    ensures o != t
  {
    match t
    case Blue => Red
    case Red => Blue
  }

  lemma OtherTeamInvolutive(t: Team)
    ensures OtherTeam(OtherTeam(t)) == t
  {
  }

  /** The enum constant's name, as toString gives it and valueOf reads it. */
  function TeamName(t: Team): string {
    match t
    case Blue => "BLUE"
    case Red => "RED"
  }

  function TeamValueOf(s: string): (r: Result<Team>)
    ensures r.Ok? ==> TeamName(r.value) == s
  {
    if s == "BLUE" then Ok(Blue) else if s == "RED" then Ok(Red) else Fail(IllegalArgument)
  }

  // -------------------------------------------------------------- Heroes

  /** A hero is a ConcreteHero with an index, or the RandomHero. */
  datatype Hero = Concrete(index: int) | Random

  /** A hero object as the ConcreteHero constructor allows it to exist. */
  predicate IsHero(h: Hero) {
    h.Concrete? ==> 0 <= h.index < NUM_HEROES
  }

  type ConcreteHero = h: Hero | h.Concrete? && 0 <= h.index < NUM_HEROES witness Concrete(0)

  /** The ConcreteHero constructor: it accepts exactly the indices [0, NUM_HEROES). */
  function NewConcreteHero(index: int): (r: Result<ConcreteHero>)
    ensures r.Ok? <==> 0 <= index < NUM_HEROES
    ensures r.Ok? ==> r.value.index == index
    ensures r.Fail? ==> r.exc == IllegalArgument
  {
    if index < 0 || index >= NUM_HEROES then Fail(IllegalArgument) else Ok(Concrete(index))
  }

  const LETTERS: string := "αβγΔδεζηθικΛλμνΞξοΠπρΣστυφχψΩω"

  /** getLetter: the index-th letter for a concrete hero, '?' for the random one. */
  function HeroLetter(h: Hero): (c: char)
    requires IsHero(h)
    ensures h.Random? ==> c == '?'
    ensures h.Concrete? ==> c == LETTERS[h.index] && c != '?'
  {
    match h
    case Concrete(i) => LETTERS[i]
    case Random => '?'
  }

  /** Distinct concrete heroes are drawn with distinct letters. */
  lemma LettersDistinct(h1: ConcreteHero, h2: ConcreteHero)
    requires h1.index != h2.index
    ensures HeroLetter(h1) != HeroLetter(h2)
  {
    assert |LETTERS| == NUM_HEROES;
    assert forall i, j :: 0 <= i < j < |LETTERS| ==> LETTERS[i] != LETTERS[j];
  }

  /** toString: the decimal index, or "random". */
  function HeroToString(h: Hero): (s: string)
    ensures h.Random? ==> s == "random"
    ensures s != [] && ':' !in s
  {
    match h
    case Random => "random"
    case Concrete(i) => IntToString(i)
  }

  /**
   * Hero.fromString: "random" is the random hero; otherwise the text must
   * be an int (NumberFormatException is turned into IllegalArgumentException)
   * and a valid ConcreteHero index.
   */
  function HeroFromString(s: string): (r: Result<Hero>)
    ensures s == "random" ==> r == Ok(Random)
    ensures r.Ok? ==> IsHero(r.value)
    ensures r.Fail? ==> r.exc == IllegalArgument
  {
    if s == "random" then Ok(Random)
    else
      match ParseInt(s)
      case Fail(_) => Fail(IllegalArgument)
      case Ok(i) => match NewConcreteHero(i) { case Ok(h) => Ok(h) case Fail(e) => Fail(e) }
  }

  /** fromString of a decimal int gives the concrete hero with that index, when it is one. */
  lemma HeroFromDecimal(i: int)
    requires IsInt32(i)
    ensures HeroFromString(IntToString(i)).Ok? <==> 0 <= i < NUM_HEROES
    ensures HeroFromString(IntToString(i)).Ok? ==> HeroFromString(IntToString(i)).value == Concrete(i)
  {
    IntToStringParses(i);
    assert IntToString(i) != "random" by {
      assert "random"[0] == 'r';
    }
  }

  /** A text that is not "random" and has a character that is no digit or sign is refused. */
  lemma HeroFromNonNumeric(s: string, k: nat)
    requires s != "random" && k < |s| && !IsDigit(s[k]) && s[k] != '-' && s[k] != '+'
    ensures HeroFromString(s) == Fail(IllegalArgument)
  {
    NonNumericFails(s, k);
  }

  /** fromString(h.toString()) equals h for every hero h. */
  lemma HeroStringRoundTrip(h: Hero)
    requires IsHero(h)
    ensures HeroFromString(HeroToString(h)) == Ok(h)
  {
    if h.Concrete? {
      HeroFromDecimal(h.index);
    }
  }

  /**
   * equals(Object): a ConcreteHero equals exactly the concrete heroes with
   * its index; a RandomHero equals exactly the random heroes. None is null.
   */
  function HeroEquals(h: Hero, other: Option<Hero>): (b: bool)
    ensures b <==> other == Some(h)
  {
    match h
    case Concrete(i) => other.Some? && other.value.Concrete? && other.value.index == i
    case Random => other.Some? && other.value.Random?
  }

  // ------------------------------------------------------------ TeamInfo

  datatype TeamInfoPlayer = TeamInfoPlayer(username: string, rank: int)

  datatype TeamInfo = TeamInfo(team: Team, players: seq<TeamInfoPlayer>)

  predicate IsTeamInfoPlayer(p: TeamInfoPlayer) {
    IsValidUsername(p.username) && IsIntegerRank(p.rank)
  }

  predicate IsTeamInfo(t: TeamInfo) {
    |t.players| == TEAM_SIZE && forall i :: 0 <= i < |t.players| ==> IsTeamInfoPlayer(t.players[i])
  }

  /** TeamInfo.Player(username, rank): a valid username, then an integer rank. */
  function NewTeamInfoPlayer(username: string, rank: int): (r: Result<TeamInfoPlayer>)
    ensures r.Ok? <==> IsValidUsername(username) && IsIntegerRank(rank)
    ensures r.Ok? ==> r.value.username == username && r.value.rank == rank
    ensures r.Fail? ==> r.exc == IllegalArgument
  {
    var u :- ValidateUsername(username);
    var k :- ValidateIntegerRank(rank);
    Ok(TeamInfoPlayer(u, k))
  }

  /**
   * TeamInfo(team, players): a null team throws NullPointerException, a list
   * of another size than TEAM_SIZE IllegalArgumentException. The value keeps
   * its own copy of the list.
   */
  function NewTeamInfo(team: Option<Team>, players: seq<TeamInfoPlayer>): (r: Result<TeamInfo>)
    ensures r.Ok? <==> team.Some? && |players| == TEAM_SIZE
    ensures team.None? ==> r == Fail(NullPointer)
    ensures team.Some? && |players| != TEAM_SIZE ==> r == Fail(IllegalArgument)
    ensures r.Ok? ==> r.value.team == team.value && r.value.players == players
  {
    if team.None? then Fail(NullPointer)
    else if |players| != TEAM_SIZE then Fail(IllegalArgument)
    else Ok(TeamInfo(team.value, players))
  }

  // -------------------------------------------------------- MatchSummary

  datatype SummaryPlayer = SummaryPlayer(
    username: string, hero: ConcreteHero, kills: int, assists: int, deaths: int)

  /** The winner and both teams' players; the lists are not checked for size. */
  datatype MatchSummary = MatchSummary(winner: Team, blue: seq<SummaryPlayer>, red: seq<SummaryPlayer>)

  predicate IsSummaryPlayer(p: SummaryPlayer) {
    IsValidUsername(p.username) && p.kills >= 0 && p.assists >= 0 && p.deaths >= 0
  }

  /**
   * MatchSummary.Player: a valid username, a non-null hero (None is null),
   * then non-negative kills, assists and deaths, checked in that order.
   */
  function NewSummaryPlayer(username: string, hero: Option<ConcreteHero>, kills: int, assists: int, deaths: int)
    : (r: Result<SummaryPlayer>)
    ensures r.Ok? <==> IsValidUsername(username) && hero.Some? && kills >= 0 && assists >= 0 && deaths >= 0
    ensures r.Ok? ==> r.value == SummaryPlayer(username, hero.value, kills, assists, deaths)
    ensures IsValidUsername(username) && hero.None? ==> r == Fail(NullPointer)
    ensures !IsValidUsername(username) ==> r == Fail(IllegalArgument)
  {
    var u :- ValidateUsername(username);
    if hero.None? then Fail(NullPointer)
    else
      var k :- ValidateCount(kills);
      var a :- ValidateCount(assists);
      var d :- ValidateCount(deaths);
      Ok(SummaryPlayer(u, hero.value, k, a, d))
  }

  /** MatchSummary.getPlayers(team): the list given for that team. */
  function SummaryPlayers(s: MatchSummary, team: Team): (ps: seq<SummaryPlayer>)
    ensures team == Blue ==> ps == s.blue
    ensures team == Red ==> ps == s.red
  {
    if team == Blue then s.blue else s.red
  }

  // --------------------------------------------------------- AccountInfo

  datatype AccountInfo = AccountInfo(username: string, numWonMatches: int, numLostMatches: int, rank: int)

  predicate IsAccountInfo(a: AccountInfo) {
    IsValidUsername(a.username) && a.numWonMatches >= 0 && a.numLostMatches >= 0 && IsIntegerRank(a.rank)
  }

  /** AccountInfo(username, won, lost, rank), validated in that order. */
  function NewAccountInfo(username: string, won: int, lost: int, rank: int): (r: Result<AccountInfo>)
    ensures r.Ok? <==> IsValidUsername(username) && won >= 0 && lost >= 0 && IsIntegerRank(rank)
    ensures r.Ok? ==> r.value == AccountInfo(username, won, lost, rank) && IsAccountInfo(r.value)
    ensures r.Fail? ==> r.exc == IllegalArgument
  {
    var u :- ValidateUsername(username);
    var w :- ValidateCount(won);
    var l :- ValidateCount(lost);
    var k :- ValidateIntegerRank(rank);
    Ok(AccountInfo(u, w, l, k))
  }

  // --------------------------------------------------------- ServerStats

  datatype ServerStats = ServerStats(
    numRegisteredPlayers: int, numPlayersLoggedIn: int, numPlayersInMatchmaking: int, numLobbies: int)

  predicate IsServerStats(s: ServerStats) {
    s.numRegisteredPlayers >= 0 && s.numPlayersLoggedIn >= 0 && s.numPlayersInMatchmaking >= 0 && s.numLobbies >= 0
  }

  /** ServerStats(registered, loggedIn, inMatchmaking, lobbies): four non-negative counts. */
  function NewServerStats(registered: int, loggedIn: int, inMatchmaking: int, lobbies: int): (r: Result<ServerStats>)
    ensures r.Ok? <==> registered >= 0 && loggedIn >= 0 && inMatchmaking >= 0 && lobbies >= 0
    ensures r.Ok? ==> r.value == ServerStats(registered, loggedIn, inMatchmaking, lobbies) && IsServerStats(r.value)
    ensures r.Fail? ==> r.exc == IllegalArgument
  {
    var a :- ValidateCount(registered);
    var b :- ValidateCount(loggedIn);
    var c :- ValidateCount(inMatchmaking);
    var d :- ValidateCount(lobbies);
    Ok(ServerStats(a, b, c, d))
  }

  // ------------------------------------------------------------ The enums

  datatype LoginError = InvalidUsername | InvalidPassword | UsernameDoesntExist | WrongPassword | AlreadyLoggedIn

  datatype SignUpError = SignUpInvalidUsername | SignUpInvalidPassword | UsernameExists

  datatype LeftMatchmakingCause = Voluntary | FailedToAcceptMatch | DeclinedMatch

  datatype LobbyCauseOfDeath = PlayerLeft | PlayerDidntSelectHero

  function LoginErrorName(e: LoginError): string {
    match e
    case InvalidUsername => "INVALID_USERNAME"
    case InvalidPassword => "INVALID_PASSWORD"
    case UsernameDoesntExist => "USERNAME_DOESNT_EXIST"
    case WrongPassword => "WRONG_PASSWORD"
    case AlreadyLoggedIn => "ALREADY_LOGGED_IN"
  }

  function LoginErrorValueOf(s: string): (r: Result<LoginError>)
    ensures r.Ok? ==> LoginErrorName(r.value) == s
    ensures r.Fail? ==> r.exc == IllegalArgument
  {
    if s == "INVALID_USERNAME" then Ok(InvalidUsername)
    else if s == "INVALID_PASSWORD" then Ok(InvalidPassword)
    else if s == "USERNAME_DOESNT_EXIST" then Ok(UsernameDoesntExist)
    else if s == "WRONG_PASSWORD" then Ok(WrongPassword)
    else if s == "ALREADY_LOGGED_IN" then Ok(AlreadyLoggedIn)
    else Fail(IllegalArgument)
  }

  function SignUpErrorName(e: SignUpError): string {
    match e
    case SignUpInvalidUsername => "INVALID_USERNAME"
    case SignUpInvalidPassword => "INVALID_PASSWORD"
    case UsernameExists => "USERNAME_EXISTS"
  }

  function SignUpErrorValueOf(s: string): (r: Result<SignUpError>)
    ensures r.Ok? ==> SignUpErrorName(r.value) == s
    ensures r.Fail? ==> r.exc == IllegalArgument
  {
    if s == "INVALID_USERNAME" then Ok(SignUpInvalidUsername)
    else if s == "INVALID_PASSWORD" then Ok(SignUpInvalidPassword)
    else if s == "USERNAME_EXISTS" then Ok(UsernameExists)
    else Fail(IllegalArgument)
  }

  function LeftMatchmakingCauseName(c: LeftMatchmakingCause): string {
    match c
    case Voluntary => "VOLUNTARY"
    case FailedToAcceptMatch => "FAILED_TO_ACCEPT_MATCH"
    case DeclinedMatch => "DECLINED_MATCH"
  }

  function LeftMatchmakingCauseValueOf(s: string): (r: Result<LeftMatchmakingCause>)
    ensures r.Ok? ==> LeftMatchmakingCauseName(r.value) == s
    ensures r.Fail? ==> r.exc == IllegalArgument
  {
    if s == "VOLUNTARY" then Ok(Voluntary)
    else if s == "FAILED_TO_ACCEPT_MATCH" then Ok(FailedToAcceptMatch)
    else if s == "DECLINED_MATCH" then Ok(DeclinedMatch)
    else Fail(IllegalArgument)
  }

  function LobbyCauseOfDeathName(c: LobbyCauseOfDeath): string {
    match c
    case PlayerLeft => "PLAYER_LEFT"
    case PlayerDidntSelectHero => "PLAYER_DIDNT_SELECT_HERO"
  }

  function LobbyCauseOfDeathValueOf(s: string): (r: Result<LobbyCauseOfDeath>)
    ensures r.Ok? ==> LobbyCauseOfDeathName(r.value) == s
    ensures r.Fail? ==> r.exc == IllegalArgument
  {
    if s == "PLAYER_LEFT" then Ok(PlayerLeft)
    else if s == "PLAYER_DIDNT_SELECT_HERO" then Ok(PlayerDidntSelectHero)
    else Fail(IllegalArgument)
  }

  /** Every Team's name is a single non-empty field that valueOf reads back. */
  lemma TeamNameRoundTrip(t: Team)
    ensures TeamValueOf(TeamName(t)) == Ok(t) && TeamName(t) != [] && ':' !in TeamName(t)
  {
  }

  /** Every LoginError's name is a single non-empty field that valueOf reads back. */
  lemma LoginErrorNameRoundTrip(e: LoginError)
    ensures LoginErrorValueOf(LoginErrorName(e)) == Ok(e) && LoginErrorName(e) != [] && ':' !in LoginErrorName(e)
  {
  }

  /** Every SignUpError's name is a single non-empty field that valueOf reads back. */
  lemma SignUpErrorNameRoundTrip(e: SignUpError)
    ensures SignUpErrorValueOf(SignUpErrorName(e)) == Ok(e) && SignUpErrorName(e) != [] && ':' !in SignUpErrorName(e)
  {
  }

  /** Every LeftMatchmakingCause's name is a single non-empty field that valueOf reads back. */
  lemma LeftMatchmakingCauseNameRoundTrip(c: LeftMatchmakingCause)
    ensures LeftMatchmakingCauseValueOf(LeftMatchmakingCauseName(c)) == Ok(c)
    ensures LeftMatchmakingCauseName(c) != [] && ':' !in LeftMatchmakingCauseName(c)
  {
  }

  /** Every LobbyCauseOfDeath's name is a single non-empty field that valueOf reads back. */
  lemma LobbyCauseOfDeathNameRoundTrip(c: LobbyCauseOfDeath)
    ensures LobbyCauseOfDeathValueOf(LobbyCauseOfDeathName(c)) == Ok(c)
    ensures LobbyCauseOfDeathName(c) != [] && ':' !in LobbyCauseOfDeathName(c)
  {
  }
}
