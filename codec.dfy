/**
 * The round trips of the composite values: what writeAccountInfo,
 * writeServerStats, writeTeamInfo and writeMatchSummary write is read back
 * by readAccountInfo, readServerStats, readTeamInfo and readMatchSummary,
 * whatever fields follow it in the message.
 *
 * Every count travels through Integer.toString and Integer.valueOf, so a
 * value comes back only when its counts fit in a Java int; the *OnWire
 * predicates say so.
 */
module Codec {
  import opened Wrappers
  import opened Config
  import opened Validation
  import opened Decimal
  import opened Data
  import opened MsgReading
  import opened MsgWriting

  /** An AccountInfo whose counts Integer.valueOf reads back. */
  predicate AccountInfoOnWire(a: AccountInfo) {
    IsAccountInfo(a) && IsInt32(a.numWonMatches) && IsInt32(a.numLostMatches)
  }

  /** ServerStats whose counts Integer.valueOf reads back. */
  predicate ServerStatsOnWire(st: ServerStats) {
    IsServerStats(st) && IsInt32(st.numRegisteredPlayers) && IsInt32(st.numPlayersLoggedIn) &&
    IsInt32(st.numPlayersInMatchmaking) && IsInt32(st.numLobbies)
  }

  /** A MatchSummary.Player whose counts Integer.valueOf reads back. */
  predicate SummaryPlayerOnWire(p: SummaryPlayer) {
    IsSummaryPlayer(p) && IsInt32(p.kills) && IsInt32(p.assists) && IsInt32(p.deaths)
  }

  /** One team of a summary as readMatchSummary expects it: TEAM_SIZE readable players. */
  predicate SummaryTeamOnWire(ps: seq<SummaryPlayer>) {
    |ps| == TEAM_SIZE && forall i :: 0 <= i < |ps| ==> SummaryPlayerOnWire(ps[i])
  }

  predicate MatchSummaryOnWire(s: MatchSummary) {
    SummaryTeamOnWire(s.blue) && SummaryTeamOnWire(s.red)
  }

  // ------------------------------------------------------------ one field

  /** A decimal field is parsed back to its int. */
  lemma ReadIntHead(L: seq<string>, n: int)
    requires L != [] && L[0] == IntToString(n) && IsInt32(n)
    ensures ReadIntField(Msg(L)) == Ok(Read(n, Msg(L[1..])))
  {
    ReadFieldMsg(L);
    IntToStringParses(n);
  }

  /** A plain non-empty colon-free field followed by more fields. */
  lemma ReadFieldHead(f: string, B: seq<string>)
    requires f != [] && ':' !in f
    ensures ReadField(Msg([f] + B)) == Ok(Read(f, Msg(B)))
  {
    ReadFieldMsg([f] + B);
    assert ([f] + B)[1..] == B;
  }

  // ------------------------------------------------------- flat composites

  /** readAccountInfo reads back writeAccountInfo. */
  lemma ReadAccountInfoMsg(a: AccountInfo, B: seq<string>)
    requires AccountInfoOnWire(a)
    ensures ReadAccountInfoField(Msg(AccountInfoFields(a) + B)) == Ok(Read(a, Msg(B)))
  {
    var L := AccountInfoFields(a) + B;
    ValidUsernameIsField(a.username);
    ReadFieldMsg(L);
    ReadIntHead(L[1..], a.numWonMatches);
    assert L[1..][1..] == L[2..];
    ReadIntHead(L[2..], a.numLostMatches);
    assert L[2..][1..] == L[3..];
    ReadIntHead(L[3..], a.rank);
    assert L[3..][1..] == B;
  }

  /** readServerStats reads back writeServerStats. */
  lemma ReadServerStatsMsg(st: ServerStats, B: seq<string>)
    requires ServerStatsOnWire(st)
    ensures ReadServerStatsField(Msg(ServerStatsFields(st) + B)) == Ok(Read(st, Msg(B)))
  {
    var L := ServerStatsFields(st) + B;
    ReadIntHead(L, st.numRegisteredPlayers);
    ReadIntHead(L[1..], st.numPlayersLoggedIn);
    assert L[1..][1..] == L[2..];
    ReadIntHead(L[2..], st.numPlayersInMatchmaking);
    assert L[2..][1..] == L[3..];
    ReadIntHead(L[3..], st.numLobbies);
    assert L[3..][1..] == B;
  }

  // ------------------------------------------------------------- TeamInfo

  /** The two fields writeTeamInfo's loop writes for one player. */
  function TeamPlayerPair(p: TeamInfoPlayer): (fs: seq<string>)
    ensures fs == [p.username, IntToString(p.rank)]
  {
    [p.username, IntToString(p.rank)]
  }

  /** One (username, rank) pair of writeTeamInfo's loop, read back by readTeamInfo's loop. */
  lemma ReadTeamPlayerMsg(p: TeamInfoPlayer, B: seq<string>)
    requires IsTeamInfoPlayer(p)
    ensures ReadTeamPlayer(Msg(TeamPlayerPair(p) + B)) == Ok(Read(p, Msg(B)))
  {
    var L := [p.username, IntToString(p.rank)] + B;
    ValidUsernameIsField(p.username);
    ReadFieldMsg(L);
    ReadIntHead(L[1..], p.rank);
    assert L[1..][1..] == B;
  }

  /** The fields of a team's players, split before the last player's pair. */
  lemma TeamPlayersSnoc(ps: seq<TeamInfoPlayer>, B: seq<string>)
    requires ps != []
    ensures TeamPlayersFields(ps) + B == TeamPlayersFields(ps[..|ps| - 1]) + (TeamPlayerPair(ps[|ps| - 1]) + B)
  {
    var front, last := TeamPlayersFields(ps[..|ps| - 1]), TeamPlayerPair(ps[|ps| - 1]);
    assert TeamPlayersFields(ps) == front + last;
    AppendAssoc(front, last, B);
  }

  /** The last turn of readTeamInfo's loop, given the turns before it. */
  lemma ReadTeamPlayersLast(ps: seq<TeamInfoPlayer>, B: seq<string>)
    requires ps != [] && IsTeamInfoPlayer(ps[|ps| - 1])
    requires ReadSeq(ReadTeamPlayer, Msg(TeamPlayersFields(ps[..|ps| - 1]) + (TeamPlayerPair(ps[|ps| - 1]) + B)), |ps| - 1)
          == Ok(Read(ps[..|ps| - 1], Msg(TeamPlayerPair(ps[|ps| - 1]) + B)))
    ensures ReadSeq(ReadTeamPlayer, Msg(TeamPlayersFields(ps) + B), |ps|) == Ok(Read(ps, Msg(B)))
  {
    var init, p := ps[..|ps| - 1], ps[|ps| - 1];
    var whole := Msg(TeamPlayersFields(ps) + B);
    assert whole == Msg(TeamPlayersFields(init) + (TeamPlayerPair(p) + B)) by {
      TeamPlayersSnoc(ps, B);
    }
    ReadTeamPlayerMsg(p, B);
    ReadSeqLast(ReadTeamPlayer, whole, ps, Msg(TeamPlayerPair(p) + B), Msg(B));
  }

  /** The whole loop: the players come back in list order. */
  lemma {:induction false} ReadTeamPlayersMsg(ps: seq<TeamInfoPlayer>, B: seq<string>)
    requires forall i :: 0 <= i < |ps| ==> IsTeamInfoPlayer(ps[i])
    ensures ReadSeq(ReadTeamPlayer, Msg(TeamPlayersFields(ps) + B), |ps|) == Ok(Read(ps, Msg(B)))
    decreases |ps|
  {
    if ps == [] {
      assert TeamPlayersFields(ps) + B == B;
    } else {
      ReadTeamPlayersMsg(ps[..|ps| - 1], TeamPlayerPair(ps[|ps| - 1]) + B);
      ReadTeamPlayersLast(ps, B);
    }
  }

  /** readTeamInfo reads back writeTeamInfo. */
  lemma ReadTeamInfoMsg(t: TeamInfo, B: seq<string>)
    requires IsTeamInfo(t)
    ensures ReadTeamInfoField(Msg(TeamInfoFields(t) + B)) == Ok(Read(t, Msg(B)))
  {
    TeamNameRoundTrip(t.team);
    var rest := TeamPlayersFields(t.players) + B;
    assert TeamInfoFields(t) + B == [TeamName(t.team)] + rest;
    ReadFieldHead(TeamName(t.team), rest);
    ReadTeamPlayersMsg(t.players, B);
  }

  // --------------------------------------------------------- MatchSummary

  /** One player group of writeMatchSummary, read back by readMatchSummary's loop. */
  lemma ReadSummaryPlayerMsg(p: SummaryPlayer, B: seq<string>)
    requires SummaryPlayerOnWire(p)
    ensures ReadSummaryPlayer(Msg(SummaryPlayerFields(p) + B)) == Ok(Read(p, Msg(B)))
  {
    var L := SummaryPlayerFields(p) + B;
    ValidUsernameIsField(p.username);
    ReadFieldMsg(L);
    ReadIntHead(L[1..], p.hero.index);
    assert L[1..][1..] == L[2..];
    ReadIntHead(L[2..], p.kills);
    assert L[2..][1..] == L[3..];
    ReadIntHead(L[3..], p.assists);
    assert L[3..][1..] == L[4..];
    ReadIntHead(L[4..], p.deaths);
    assert L[4..][1..] == B;
    SummaryPlayerRebuilt(p);
  }

  /** The checks of MatchSummary.Player and of the hero's index pass on the values written. */
  lemma SummaryPlayerRebuilt(p: SummaryPlayer)
    requires SummaryPlayerOnWire(p)
    ensures NewConcreteHero(p.hero.index) == Ok(p.hero)
    ensures NewSummaryPlayer(p.username, Some(p.hero), p.kills, p.assists, p.deaths) == Ok(p)
  {
  }

  /** The fields of a team, split before its last player's group. */
  lemma SummaryPlayersSnoc(ps: seq<SummaryPlayer>, B: seq<string>)
    requires ps != []
    ensures SummaryPlayersFields(ps) + B == SummaryPlayersFields(ps[..|ps| - 1]) + (SummaryPlayerFields(ps[|ps| - 1]) + B)
  {
    var front, last := SummaryPlayersFields(ps[..|ps| - 1]), SummaryPlayerFields(ps[|ps| - 1]);
    assert SummaryPlayersFields(ps) == front + last;
    AppendAssoc(front, last, B);
  }

  lemma AppendAssoc<T>(X: seq<T>, Y: seq<T>, Z: seq<T>)
    ensures (X + Y) + Z == X + (Y + Z)
  {
  }

  /** The last turn of one team's loop, given the turns before it. */
  lemma ReadSummaryPlayersLast(ps: seq<SummaryPlayer>, B: seq<string>)
    requires ps != [] && SummaryPlayerOnWire(ps[|ps| - 1])
    requires ReadSeq(ReadSummaryPlayer, Msg(SummaryPlayersFields(ps[..|ps| - 1]) + (SummaryPlayerFields(ps[|ps| - 1]) + B)), |ps| - 1)
          == Ok(Read(ps[..|ps| - 1], Msg(SummaryPlayerFields(ps[|ps| - 1]) + B)))
    ensures ReadSeq(ReadSummaryPlayer, Msg(SummaryPlayersFields(ps) + B), |ps|) == Ok(Read(ps, Msg(B)))
  {
    var init, p := ps[..|ps| - 1], ps[|ps| - 1];
    var whole := Msg(SummaryPlayersFields(ps) + B);
    assert whole == Msg(SummaryPlayersFields(init) + (SummaryPlayerFields(p) + B)) by {
      SummaryPlayersSnoc(ps, B);
    }
    ReadSummaryPlayerMsg(p, B);
    ReadSeqLast(ReadSummaryPlayer, whole, ps, Msg(SummaryPlayerFields(p) + B), Msg(B));
  }

  /** One team's loop: the players come back in list order. */
  lemma {:induction false} ReadSummaryPlayersMsg(ps: seq<SummaryPlayer>, B: seq<string>)
    requires forall i :: 0 <= i < |ps| ==> SummaryPlayerOnWire(ps[i])
    ensures ReadSeq(ReadSummaryPlayer, Msg(SummaryPlayersFields(ps) + B), |ps|) == Ok(Read(ps, Msg(B)))
    decreases |ps|
  {
    if ps == [] {
      assert SummaryPlayersFields(ps) + B == B;
    } else {
      ReadSummaryPlayersMsg(ps[..|ps| - 1], SummaryPlayerFields(ps[|ps| - 1]) + B);
      ReadSummaryPlayersLast(ps, B);
    }
  }

  /** One team of readMatchSummary: TEAM_SIZE player groups. */
  lemma ReadSummaryTeamMsg(ps: seq<SummaryPlayer>, B: seq<string>)
    requires SummaryTeamOnWire(ps)
    ensures ReadSummaryTeam(Msg(SummaryPlayersFields(ps) + B)) == Ok(Read(ps, Msg(B)))
  {
    ReadSummaryPlayersMsg(ps, B);
  }

  /** readMatchSummary's outer loop: BLUE's groups, then RED's. */
  lemma ReadSummaryTeamsMsg(blue: seq<SummaryPlayer>, red: seq<SummaryPlayer>, B: seq<string>)
    requires SummaryTeamOnWire(blue) && SummaryTeamOnWire(red)
    ensures ReadSeq(ReadSummaryTeam, Msg(SummaryPlayersFields(blue) + (SummaryPlayersFields(red) + B)), 2)
         == Ok(Read([blue, red], Msg(B)))
  {
    var redRest := SummaryPlayersFields(red) + B;
    var start := Msg(SummaryPlayersFields(blue) + redRest);
    ReadSummaryTeamMsg(blue, redRest);
    ReadSummaryTeamMsg(red, B);
    assert ReadSeq(ReadSummaryTeam, start, 0) == Ok(Read([], start));
    ReadSeqStep(ReadSummaryTeam, start, 0, [], start, blue, Msg(redRest));
    assert [] + [blue] == [blue];
    ReadSeqStep(ReadSummaryTeam, start, 1, [blue], Msg(redRest), red, Msg(B));
    assert [blue] + [red] == [blue, red];
  }

  /** readMatchSummary reads back writeMatchSummary: the winner, BLUE, then RED. */
  lemma ReadMatchSummaryMsg(s: MatchSummary, B: seq<string>)
    requires MatchSummaryOnWire(s)
    ensures ReadMatchSummaryField(Msg(MatchSummaryFields(s) + B)) == Ok(Read(s, Msg(B)))
  {
    TeamNameRoundTrip(s.winner);
    var blueRest := SummaryPlayersFields(s.blue) + (SummaryPlayersFields(s.red) + B);
    assert MatchSummaryFields(s) + B == [TeamName(s.winner)] + blueRest;
    ReadFieldHead(TeamName(s.winner), blueRest);
    ReadSummaryTeamsMsg(s.blue, s.red, B);
  }
}
