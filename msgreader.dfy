/**
 * mm.common.net.MsgReader: a message is read field by field from the
 * front; a field ends at the first ':' or at the end of the text, and a
 * terminal field takes everything that is left.
 *
 * The functions below say what each read yields (the value and the text
 * still unread); class MsgReader performs the reads on its own state and
 * is proved to agree with them.
 */
module MsgReading {
  import opened Wrappers
  import opened Config
  import opened Validation
  import opened Decimal
  import opened Data
  import opened MsgIds

  /** The value one read yields and the text it leaves unread. */
  datatype Read<+T> = Read(value: T, rest: string)

  /** The position of the first ':' of s at or after i. */
  function ColonFrom(s: string, i: nat): (k: Option<nat>)
    requires i <= |s|
    ensures k.Some? ==> i <= k.value < |s|
    decreases |s| - i
  {
    if i == |s| then None
    else if s[i] == ':' then Some(i)
    else ColonFrom(s, i + 1)
  }

  /** The position of the first ':' of s (StringBuilder.indexOf). */
  function FirstColon(s: string): (k: Option<nat>)
    ensures k.Some? ==> k.value < |s|
  {
    ColonFrom(s, 0)
  }

  lemma {:induction false} ColonFromIsFirst(s: string, i: nat)
    requires i <= |s| && forall j :: 0 <= j < i ==> s[j] != ':'
    ensures ColonFrom(s, i).None? <==> ':' !in s
    ensures ColonFrom(s, i).Some? ==> s[ColonFrom(s, i).value] == ':' && ':' !in s[..ColonFrom(s, i).value]
    decreases |s| - i
  {
    if i < |s| && s[i] != ':' {
      ColonFromIsFirst(s, i + 1);
    }
  }

  lemma FirstColonIsFirst(s: string)
    ensures FirstColon(s).None? <==> ':' !in s
    ensures FirstColon(s).Some? ==> s[FirstColon(s).value] == ':' && ':' !in s[..FirstColon(s).value]
  {
    ColonFromIsFirst(s, 0);
  }

  /**
   * readString: an empty remainder is "message exhausted"; otherwise the
   * text up to the first ':' (or all of it), dropping that ':'.
   */
  function ReadField(s: string): (r: Result<Read<string>>)
    ensures r.Fail? <==> s == []
    ensures r.Fail? ==> r.exc == IllegalState
  {
    if s == [] then Fail(IllegalState)
    else
      match FirstColon(s)
      case None => Ok(Read(s, []))
      case Some(k) => Ok(Read(s[..k], s[k + 1..]))
  }

  /**
   * What readString yields: a colon-free field and a strictly shorter
   * remainder; the whole text when it has no ':', and otherwise a split of
   * the text around its first ':'.
   */
  lemma ReadFieldSplits(s: string)
    requires s != []
    ensures ':' !in ReadField(s).value.value && |ReadField(s).value.rest| < |s|
    ensures ':' !in s ==> ReadField(s).value == Read(s, [])
    ensures ':' in s ==> s == ReadField(s).value.value + ":" + ReadField(s).value.rest
  {
    FirstColonIsFirst(s);
    if FirstColon(s).Some? {
      var k := FirstColon(s).value;
      assert s == s[..k] + ":" + s[k + 1..];
    }
  }

  /** readTerminalString: the whole non-empty remainder, colons included. */
  function ReadTerminalField(s: string): (r: Result<Read<string>>)
    ensures r.Fail? <==> s == []
    ensures r.Fail? ==> r.exc == IllegalState
    ensures r.Ok? ==> r.value == Read(s, [])
  {
    if s == [] then Fail(IllegalState) else Ok(Read(s, []))
  }

  lemma {:induction false} ColonFromAt(s: string, i: nat, p: nat)
    requires i <= p < |s| && s[p] == ':' && forall j :: i <= j < p ==> s[j] != ':'
    ensures ColonFrom(s, i) == Some(p)
    decreases p - i
  {
    if i < p {
      ColonFromAt(s, i + 1, p);
    }
  }

  lemma FirstColonOf(f: string, rest: string)
    requires ':' !in f
    ensures FirstColon(f + ":" + rest) == Some(|f|)
  {
    var s := f + ":" + rest;
    forall j | 0 <= j < |f| ensures s[j] != ':' {
      assert s[j] == f[j];
    }
    ColonFromAt(s, 0, |f|);
  }

  /** A colon-free field is read back whole, wherever the text goes on. */
  lemma ReadFieldOf(f: string, rest: string)
    requires ':' !in f
    ensures ReadField(f + ":" + rest) == Ok(Read(f, rest))
    ensures f != [] ==> ReadField(f) == Ok(Read(f, []))
  {
    FirstColonOf(f, rest);
    FirstColonIsFirst(f);
    var s := f + ":" + rest;
    assert s[..|f|] == f;
    assert s[|f| + 1..] == rest;
  }

  function ReadIntField(s: string): Result<Read<int>> {
    var f :- ReadField(s);
    var n :- ParseInt(f.value);
    Ok(Read(n, f.rest))
  }

  function ReadUsernameField(s: string): (r: Result<Read<string>>)
    ensures r.Ok? ==> IsValidUsername(r.value.value)
  {
    var f :- ReadField(s);
    var u :- ValidateUsername(f.value);
    Ok(Read(u, f.rest))
  }

  function ReadPasswordField(s: string): (r: Result<Read<string>>)
    ensures r.Ok? ==> IsValidPassword(r.value.value) && r.value.rest == []
  {
    var f :- ReadTerminalField(s);
    var p :- ValidatePassword(f.value);
    Ok(Read(p, f.rest))
  }

  function ReadChatMessageField(s: string): (r: Result<Read<string>>)
    ensures r.Ok? ==> IsValidChatMessage(r.value.value) && r.value.rest == []
  {
    var f :- ReadTerminalField(s);
    var c :- ValidateChatMessage(f.value);
    Ok(Read(c, f.rest))
  }

  function ReadIntegerRankField(s: string): (r: Result<Read<int>>)
    ensures r.Ok? ==> IsIntegerRank(r.value.value)
  {
    var n :- ReadIntField(s);
    var k :- ValidateIntegerRank(n.value);
    Ok(Read(k, n.rest))
  }

  function ReadPlayerIndexField(s: string): (r: Result<Read<int>>)
    ensures r.Ok? ==> 0 <= r.value.value < TEAM_SIZE
  {
    var n :- ReadIntField(s);
    var k :- ValidatePlayerIndex(n.value);
    Ok(Read(k, n.rest))
  }

  function ReadClientMsgIdField(s: string): Result<Read<ClientMsgId>> {
    var f :- ReadField(s);
    var id :- ClientMsgIdValueOf(f.value);
    Ok(Read(id, f.rest))
  }

  function ReadServerMsgIdField(s: string): Result<Read<ServerMsgId>> {
    var f :- ReadField(s);
    var id :- ServerMsgIdValueOf(f.value);
    Ok(Read(id, f.rest))
  }

  function ReadLoginErrorField(s: string): Result<Read<LoginError>> {
    var f :- ReadField(s);
    var e :- LoginErrorValueOf(f.value);
    Ok(Read(e, f.rest))
  }

  function ReadSignUpErrorField(s: string): Result<Read<SignUpError>> {
    var f :- ReadField(s);
    var e :- SignUpErrorValueOf(f.value);
    Ok(Read(e, f.rest))
  }

  function ReadLeftMatchmakingCauseField(s: string): Result<Read<LeftMatchmakingCause>> {
    var f :- ReadField(s);
    var c :- LeftMatchmakingCauseValueOf(f.value);
    Ok(Read(c, f.rest))
  }

  function ReadLobbyCauseOfDeathField(s: string): Result<Read<LobbyCauseOfDeath>> {
    var f :- ReadField(s);
    var c :- LobbyCauseOfDeathValueOf(f.value);
    Ok(Read(c, f.rest))
  }

  function ReadTeamField(s: string): Result<Read<Team>> {
    var f :- ReadField(s);
    var t :- TeamValueOf(f.value);
    Ok(Read(t, f.rest))
  }

  function ReadHeroField(s: string): (r: Result<Read<Hero>>)
    ensures r.Ok? ==> IsHero(r.value.value)
  {
    var f :- ReadField(s);
    var h :- HeroFromString(f.value);
    Ok(Read(h, f.rest))
  }

  /** A duration travels as one field; its numeric form is not modelled. */
  function ReadDurationField(s: string): Result<Read<string>> {
    ReadField(s)
  }

  /** readServerStats: four ints, then the constructor's checks. */
  function ReadServerStatsField(s: string): (r: Result<Read<ServerStats>>)
    ensures r.Ok? ==> IsServerStats(r.value.value)
  {
    var a :- ReadIntField(s);
    var b :- ReadIntField(a.rest);
    var c :- ReadIntField(b.rest);
    var d :- ReadIntField(c.rest);
    var st :- NewServerStats(a.value, b.value, c.value, d.value);
    Ok(Read(st, d.rest))
  }

  /** readAccountInfo: a plain username field and three ints, then the constructor's checks. */
  function ReadAccountInfoField(s: string): (r: Result<Read<AccountInfo>>)
    ensures r.Ok? ==> IsAccountInfo(r.value.value)
  {
    var u :- ReadField(s);
    var w :- ReadIntField(u.rest);
    var l :- ReadIntField(w.rest);
    var k :- ReadIntField(l.rest);
    var info :- NewAccountInfo(u.value, w.value, l.value, k.value);
    Ok(Read(info, k.rest))
  }

  /** n values read one after the other by step, in order (the loops of the composite readers). */
  function ReadSeq<T>(step: string -> Result<Read<T>>, s: string, n: nat): (r: Result<Read<seq<T>>>)
    ensures r.Ok? ==> |r.value.value| == n
  {
    if n == 0 then Ok(Read([], s))
    else
      match ReadSeq(step, s, n - 1)
      case Fail(e) => Fail(e)
      case Ok(vs) =>
        match step(vs.rest)
        case Fail(e) => Fail(e)
        case Ok(v) => Ok(Read(vs.value + [v.value], v.rest))
  }

  /** One more successful step extends the sequence read so far. */
  lemma ReadSeqStep<T>(step: string -> Result<Read<T>>, s: string, n: nat, vs: seq<T>, mid: string, v: T, rest: string)
    requires ReadSeq(step, s, n) == Ok(Read(vs, mid)) && step(mid) == Ok(Read(v, rest))
    ensures ReadSeq(step, s, n + 1) == Ok(Read(vs + [v], rest))
  {
  }

  /** The same, for a sequence split before its last element. */
  lemma ReadSeqLast<T>(step: string -> Result<Read<T>>, s: string, vs: seq<T>, mid: string, rest: string)
    requires vs != [] && ReadSeq(step, s, |vs| - 1) == Ok(Read(vs[..|vs| - 1], mid))
    requires step(mid) == Ok(Read(vs[|vs| - 1], rest))
    ensures ReadSeq(step, s, |vs|) == Ok(Read(vs, rest))
  {
    assert vs[..|vs| - 1] + [vs[|vs| - 1]] == vs;
  }

  /** A failed step fails the sequence read so far. */
  lemma ReadSeqStepFails<T>(step: string -> Result<Read<T>>, s: string, n: nat, vs: seq<T>, mid: string)
    requires ReadSeq(step, s, n) == Ok(Read(vs, mid)) && step(mid).Fail?
    ensures ReadSeq(step, s, n + 1) == Fail(step(mid).exc)
  {
  }

  /** A step that fails after k successful ones fails the whole sequence of n > k. */
  lemma ReadSeqFailsAt<T>(step: string -> Result<Read<T>>, s: string, k: nat, n: nat, vs: seq<T>, mid: string)
    requires k < n && ReadSeq(step, s, k) == Ok(Read(vs, mid)) && step(mid).Fail?
    ensures ReadSeq(step, s, n) == Fail(step(mid).exc)
  {
    ReadSeqStepFails(step, s, k, vs, mid);
    ReadSeqFailure(step, s, k + 1, n);
  }

  /** Once one step fails, the whole sequence fails with the same exception. */
  lemma {:induction false} ReadSeqFailure<T>(step: string -> Result<Read<T>>, s: string, k: nat, n: nat)
    requires k <= n && ReadSeq(step, s, k).Fail?
    ensures ReadSeq(step, s, n) == Fail(ReadSeq(step, s, k).exc)
    decreases n
  {
    if k < n {
      ReadSeqFailure(step, s, k, n - 1);
    }
  }

  /** One (username, rank) pair of readTeamInfo's loop. */
  function ReadTeamPlayer(s: string): Result<Read<TeamInfoPlayer>> {
    var u :- ReadField(s);
    var k :- ReadIntField(u.rest);
    var p :- NewTeamInfoPlayer(u.value, k.value);
    Ok(Read(p, k.rest))
  }

  /** readTeamInfo: a team tag, then exactly TEAM_SIZE (username, rank) pairs. */
  function ReadTeamInfoField(s: string): (r: Result<Read<TeamInfo>>)
    ensures r.Ok? ==> |r.value.value.players| == TEAM_SIZE
  {
    var t :- ReadTeamField(s);
    var ps :- ReadSeq(ReadTeamPlayer, t.rest, TEAM_SIZE);
    var info := NewTeamInfo(Some(t.value), ps.value).value;
    Ok(Read(info, ps.rest))
  }

  /**
   * One player group of readMatchSummary: a username, a hero index (the
   * ConcreteHero constructor runs at once), kills, assists and deaths, then
   * the MatchSummary.Player checks.
   */
  function ReadSummaryPlayer(s: string): Result<Read<SummaryPlayer>> {
    var u :- ReadField(s);
    var i :- ReadIntField(u.rest);
    var h :- NewConcreteHero(i.value);
    var k :- ReadIntField(i.rest);
    var a :- ReadIntField(k.rest);
    var d :- ReadIntField(a.rest);
    var p :- NewSummaryPlayer(u.value, Some(h), k.value, a.value, d.value);
    Ok(Read(p, d.rest))
  }

  /** The TEAM_SIZE groups of one team: readMatchSummary's inner loop. */
  function ReadSummaryTeam(s: string): Result<Read<seq<SummaryPlayer>>> {
    ReadSeq(ReadSummaryPlayer, s, TEAM_SIZE)
  }

  /** readMatchSummary: the winner, then TEAM_SIZE groups for BLUE, then TEAM_SIZE for RED. */
  function ReadMatchSummaryField(s: string): Result<Read<MatchSummary>> {
    var w :- ReadTeamField(s);
    var ts :- ReadSeq(ReadSummaryTeam, w.rest, 2);
    Ok(Read(MatchSummary(w.value, ts.value[0], ts.value[1]), ts.rest))
  }

  /** A method's result and the reader's new remainder are those the specification gives. */
  predicate Agrees<T(==)>(r: Result<T>, spec: Result<Read<T>>, remaining: string) {
    match spec
    case Ok(rd) => r == Ok(rd.value) && remaining == rd.rest
    case Fail(e) => r == Fail(e)
  }

  class MsgReader {
    /** The part of the message not read yet. */
    var remaining: string

    constructor (message: string)
      ensures remaining == message
    {
      remaining := message;
    }

    /** isEmpty: whether the message has been fully consumed. */
    predicate IsEmpty()
      reads this
    {
      |remaining| == 0
    }

    method ReadString() returns (r: Result<string>)
      modifies this
      ensures Agrees(r, ReadField(old(remaining)), remaining)
    {
      if |remaining| == 0 {
        return Fail(IllegalState);
      }
      var nextColon := FirstColon(remaining);
      if nextColon.None? {
        r := Ok(remaining);
        remaining := [];
      } else {
        r := Ok(remaining[..nextColon.value]);
        remaining := remaining[nextColon.value + 1..];
      }
    }

    method ReadTerminalString() returns (r: Result<string>)
      modifies this
      ensures Agrees(r, ReadTerminalField(old(remaining)), remaining)
    {
      if |remaining| == 0 {
        return Fail(IllegalState);
      }
      r := Ok(remaining);
      remaining := [];
    }

    /** Integer.valueOf(readString()) */
    method ReadInt() returns (r: Result<int>)
      modifies this
      ensures Agrees(r, ReadIntField(old(remaining)), remaining)
    {
      var f := ReadString();
      if f.Fail? {
        return Fail(f.exc);
      }
      r := ParseInt(f.value);
    }

    method ReadUsername() returns (r: Result<string>)
      modifies this
      ensures Agrees(r, ReadUsernameField(old(remaining)), remaining)
    {
      var f := ReadString();
      if f.Fail? {
        return Fail(f.exc);
      }
      r := ValidateUsername(f.value);
    }

    method ReadPassword() returns (r: Result<string>)
      modifies this
      ensures Agrees(r, ReadPasswordField(old(remaining)), remaining)
    {
      var f := ReadTerminalString();
      if f.Fail? {
        return Fail(f.exc);
      }
      r := ValidatePassword(f.value);
    }

    method ReadChatMessage() returns (r: Result<string>)
      modifies this
      ensures Agrees(r, ReadChatMessageField(old(remaining)), remaining)
    {
      var f := ReadTerminalString();
      if f.Fail? {
        return Fail(f.exc);
      }
      r := ValidateChatMessage(f.value);
    }

    /** Double.valueOf and validateDuration are not modelled: the field is kept as text. */
    method ReadDuration() returns (r: Result<string>)
      modifies this
      ensures Agrees(r, ReadDurationField(old(remaining)), remaining)
    {
      r := ReadString();
    }

    method ReadIntegerRank() returns (r: Result<int>)
      modifies this
      ensures Agrees(r, ReadIntegerRankField(old(remaining)), remaining)
    {
      var n := ReadInt();
      if n.Fail? {
        return Fail(n.exc);
      }
      r := ValidateIntegerRank(n.value);
    }

    method ReadPlayerIndex() returns (r: Result<int>)
      modifies this
      ensures Agrees(r, ReadPlayerIndexField(old(remaining)), remaining)
    {
      var n := ReadInt();
      if n.Fail? {
        return Fail(n.exc);
      }
      r := ValidatePlayerIndex(n.value);
    }

    method ReadClientToServerMsgId() returns (r: Result<ClientMsgId>)
      modifies this
      ensures Agrees(r, ReadClientMsgIdField(old(remaining)), remaining)
    {
      var f := ReadString();
      if f.Fail? {
        return Fail(f.exc);
      }
      r := ClientMsgIdValueOf(f.value);
    }

    method ReadServerToClientMsgId() returns (r: Result<ServerMsgId>)
      modifies this
      ensures Agrees(r, ReadServerMsgIdField(old(remaining)), remaining)
    {
      var f := ReadString();
      if f.Fail? {
        return Fail(f.exc);
      }
      r := ServerMsgIdValueOf(f.value);
    }

    method ReadLoginError() returns (r: Result<LoginError>)
      modifies this
      ensures Agrees(r, ReadLoginErrorField(old(remaining)), remaining)
    {
      var f := ReadString();
      if f.Fail? {
        return Fail(f.exc);
      }
      r := LoginErrorValueOf(f.value);
    }

    method ReadSignUpError() returns (r: Result<SignUpError>)
      modifies this
      ensures Agrees(r, ReadSignUpErrorField(old(remaining)), remaining)
    {
      var f := ReadString();
      if f.Fail? {
        return Fail(f.exc);
      }
      r := SignUpErrorValueOf(f.value);
    }

    method ReadLeftMatchmakingCause() returns (r: Result<LeftMatchmakingCause>)
      modifies this
      ensures Agrees(r, ReadLeftMatchmakingCauseField(old(remaining)), remaining)
    {
      var f := ReadString();
      if f.Fail? {
        return Fail(f.exc);
      }
      r := LeftMatchmakingCauseValueOf(f.value);
    }

    method ReadLobbyCauseOfDeath() returns (r: Result<LobbyCauseOfDeath>)
      modifies this
      ensures Agrees(r, ReadLobbyCauseOfDeathField(old(remaining)), remaining)
    {
      var f := ReadString();
      if f.Fail? {
        return Fail(f.exc);
      }
      r := LobbyCauseOfDeathValueOf(f.value);
    }

    /** Team.valueOf(readString()), the first step of the two composite readers. */
    method ReadTeam() returns (r: Result<Team>)
      modifies this
      ensures Agrees(r, ReadTeamField(old(remaining)), remaining)
    {
      var f := ReadString();
      if f.Fail? {
        return Fail(f.exc);
      }
      r := TeamValueOf(f.value);
    }

    method ReadHero() returns (r: Result<Hero>)
      modifies this
      ensures Agrees(r, ReadHeroField(old(remaining)), remaining)
    {
      var f := ReadString();
      if f.Fail? {
        return Fail(f.exc);
      }
      r := HeroFromString(f.value);
    }

    method ReadServerStats() returns (r: Result<ServerStats>)
      modifies this
      ensures Agrees(r, ReadServerStatsField(old(remaining)), remaining)
    {
      var a := ReadInt();
      if a.Fail? { return Fail(a.exc); }
      var b := ReadInt();
      if b.Fail? { return Fail(b.exc); }
      var c := ReadInt();
      if c.Fail? { return Fail(c.exc); }
      var d := ReadInt();
      if d.Fail? { return Fail(d.exc); }
      r := NewServerStats(a.value, b.value, c.value, d.value);
    }

    method ReadAccountInfo() returns (r: Result<AccountInfo>)
      modifies this
      ensures Agrees(r, ReadAccountInfoField(old(remaining)), remaining)
    {
      var u := ReadString();
      if u.Fail? { return Fail(u.exc); }
      var w := ReadInt();
      if w.Fail? { return Fail(w.exc); }
      var l := ReadInt();
      if l.Fail? { return Fail(l.exc); }
      var k := ReadInt();
      if k.Fail? { return Fail(k.exc); }
      r := NewAccountInfo(u.value, w.value, l.value, k.value);
    }

    method ReadTeamInfo() returns (r: Result<TeamInfo>)
      modifies this
      ensures Agrees(r, ReadTeamInfoField(old(remaining)), remaining)
    {
      var team := ReadTeam();
      if team.Fail? { return Fail(team.exc); }
      var players := ReadTeamInfoPlayers(TEAM_SIZE);
      if players.Fail? { return Fail(players.exc); }
      r := NewTeamInfo(Some(team.value), players.value);
    }

    /** The loop of readTeamInfo: n (username, rank) pairs. */
    method ReadTeamInfoPlayers(n: nat) returns (r: Result<seq<TeamInfoPlayer>>)
      modifies this
      ensures Agrees(r, ReadSeq(ReadTeamPlayer, old(remaining), n), remaining)
    {
      ghost var start := remaining;
      var players: seq<TeamInfoPlayer> := [];
      var i := 0;
      while i < n
        invariant 0 <= i <= n
        invariant ReadSeq(ReadTeamPlayer, start, i) == Ok(Read(players, remaining))
      {
        ghost var before := remaining;
        var p := ReadTeamInfoPlayer();
        if p.Fail? {
          ReadSeqFailsAt(ReadTeamPlayer, start, i, n, players, before);
          return Fail(p.exc);
        }
        ReadSeqStep(ReadTeamPlayer, start, i, players, before, p.value, remaining);
        players := players + [p.value];
        i := i + 1;
      }
      r := Ok(players);
    }

    method ReadMatchSummary() returns (r: Result<MatchSummary>)
      modifies this
      ensures Agrees(r, ReadMatchSummaryField(old(remaining)), remaining)
    {
      var winner := ReadTeam();
      if winner.Fail? { return Fail(winner.exc); }
      ghost var start := remaining;
      var players: seq<seq<SummaryPlayer>> := [];
      var i := 0;
      while i < 2
        invariant 0 <= i <= 2
        invariant ReadSeq(ReadSummaryTeam, start, i) == Ok(Read(players, remaining))
      {
        ghost var before := remaining;
        var team := ReadTeamPlayers(TEAM_SIZE);
        if team.Fail? {
          ReadSeqStepFails(ReadSummaryTeam, start, i, players, before);
          ReadSeqFailure(ReadSummaryTeam, start, i + 1, 2);
          return Fail(team.exc);
        }
        ReadSeqStep(ReadSummaryTeam, start, i, players, before, team.value, remaining);
        players := players + [team.value];
        i := i + 1;
      }
      r := Ok(MatchSummary(winner.value, players[0], players[1]));
    }

    /** The inner loop of readMatchSummary: the TEAM_SIZE players of one team. */
    method ReadTeamPlayers(n: nat) returns (r: Result<seq<SummaryPlayer>>)
      modifies this
      ensures Agrees(r, ReadSeq(ReadSummaryPlayer, old(remaining), n), remaining)
    {
      ghost var start := remaining;
      var team: seq<SummaryPlayer> := [];
      var j := 0;
      while j < n
        invariant 0 <= j <= n
        invariant ReadSeq(ReadSummaryPlayer, start, j) == Ok(Read(team, remaining))
      {
        ghost var before := remaining;
        var p := ReadPlayer();
        if p.Fail? {
          ReadSeqFailsAt(ReadSummaryPlayer, start, j, n, team, before);
          return Fail(p.exc);
        }
        ReadSeqStep(ReadSummaryPlayer, start, j, team, before, p.value, remaining);
        team := team + [p.value];
        j := j + 1;
      }
      r := Ok(team);
    }

    /** The body of readTeamInfo's loop: one TeamInfo.Player. */
    method ReadTeamInfoPlayer() returns (r: Result<TeamInfoPlayer>)
      modifies this
      ensures Agrees(r, ReadTeamPlayer(old(remaining)), remaining)
    {
      var u := ReadString();
      if u.Fail? { return Fail(u.exc); }
      var k := ReadInt();
      if k.Fail? { return Fail(k.exc); }
      r := NewTeamInfoPlayer(u.value, k.value);
    }

    /** The body of readMatchSummary's inner loop: one MatchSummary.Player. */
    method ReadPlayer() returns (r: Result<SummaryPlayer>)
      modifies this
      ensures Agrees(r, ReadSummaryPlayer(old(remaining)), remaining)
    {
      var u := ReadString();
      if u.Fail? { return Fail(u.exc); }
      var i := ReadInt();
      if i.Fail? { return Fail(i.exc); }
      var h := NewConcreteHero(i.value);
      if h.Fail? { return Fail(h.exc); }
      var k := ReadInt();
      if k.Fail? { return Fail(k.exc); }
      var a := ReadInt();
      if a.Fail? { return Fail(a.exc); }
      var d := ReadInt();
      if d.Fail? { return Fail(d.exc); }
      r := NewSummaryPlayer(u.value, Some(h.value), k.value, a.value, d.value);
    }
  }
}
