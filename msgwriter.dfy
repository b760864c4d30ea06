/**
 * mm.common.net.MsgWriter: a message is built field by field; each field
 * after the first is preceded by ':' and a terminal field ends the message.
 *
 * Append and AppendAll say what the writes build; class MsgWriter performs
 * them on its own state. Msg is the message whose fields are a given list,
 * and the lemmas at the end read such messages back with the functions of
 * MsgReading.
 */
module MsgWriting {
  import opened Wrappers
  import opened Config
  import opened Validation
  import opened Decimal
  import opened Data
  import opened MsgIds
  import opened MsgReading

  /** writeString on a message built so far: a ':' first unless the message is still empty. */
  function Append(m: string, f: string): (r: string)
    ensures |r| == |m| + |f| + (if m == [] then 0 else 1)
  {
    if |m| > 0 then m + ":" + f else f
  }

  /** The fields fs written one after the other, in order, after m. */
  function AppendAll(m: string, fs: seq<string>): string {
    if fs == [] then m else Append(AppendAll(m, fs[..|fs| - 1]), fs[|fs| - 1])
  }

  /** The message whose fields are L: the fields joined by ':'. */
  function Msg(L: seq<string>): string {
    if |L| == 0 then []
    else if |L| == 1 then L[0]
    else L[0] + ":" + Msg(L[1..])
  }

  /** A field list whose every field can be read back by readString. */
  predicate ColonFree(L: seq<string>) {
    forall i :: 0 <= i < |L| ==> ':' !in L[i]
  }

  // ---------------------------------------------------------- field lists

  /** writeServerStats: the four counts in decimal. */
  function ServerStatsFields(st: ServerStats): (fs: seq<string>)
    ensures |fs| == 4
  {
    [IntToString(st.numRegisteredPlayers), IntToString(st.numPlayersLoggedIn),
     IntToString(st.numPlayersInMatchmaking), IntToString(st.numLobbies)]
  }

  /** writeAccountInfo: the username as it is, then won, lost and the rank in decimal. */
  function AccountInfoFields(a: AccountInfo): (fs: seq<string>)
    ensures |fs| == 4
  {
    [a.username, IntToString(a.numWonMatches), IntToString(a.numLostMatches), IntToString(a.rank)]
  }

  /** The loop of writeTeamInfo: each player's username and rank, in list order. */
  function TeamPlayersFields(ps: seq<TeamInfoPlayer>): (fs: seq<string>)
    ensures |fs| == 2 * |ps|
  {
    if ps == [] then []
    else
      var p := ps[|ps| - 1];
      TeamPlayersFields(ps[..|ps| - 1]) + [p.username, IntToString(p.rank)]
  }

  /** writeTeamInfo: the team, then its players. */
  function TeamInfoFields(t: TeamInfo): (fs: seq<string>)
    ensures |fs| == 1 + 2 * |t.players|
  {
    [TeamName(t.team)] + TeamPlayersFields(t.players)
  }

  /** One player of writeMatchSummary: username, hero index, kills, assists, deaths. */
  function SummaryPlayerFields(p: SummaryPlayer): (fs: seq<string>)
    ensures |fs| == 5
  {
    [p.username, IntToString(p.hero.index), IntToString(p.kills), IntToString(p.assists), IntToString(p.deaths)]
  }

  /** One of writeMatchSummary's loops: the players of one team, in list order. */
  function SummaryPlayersFields(ps: seq<SummaryPlayer>): (fs: seq<string>)
    ensures |fs| == 5 * |ps|
  {
    if ps == [] then []
    else SummaryPlayersFields(ps[..|ps| - 1]) + SummaryPlayerFields(ps[|ps| - 1])
  }

  /** writeMatchSummary: the winner, then the BLUE players, then the RED players. */
  function MatchSummaryFields(s: MatchSummary): (fs: seq<string>)
    ensures |fs| == 1 + 5 * |s.blue| + 5 * |s.red|
  {
    [TeamName(s.winner)] + SummaryPlayersFields(s.blue) + SummaryPlayersFields(s.red)
  }

  // ------------------------------------------------------------ the writer

  class MsgWriter {
    /** The message encoded so far. */
    var message: string
    /** Whether a terminal field has been written. */
    var wroteTerminalItem: bool

    constructor ()
      ensures message == [] && !wroteTerminalItem
    {
      message := [];
      wroteTerminalItem := false;
    }

    /** toString: the message encoded so far. */
    function ToString(): string
      reads this
    {
      message
    }

    /**
     * writeString: refused once a terminal field has been written;
     * otherwise the field goes after a ':' unless the message is empty.
     */
    method WriteString(str: string) returns (o: Outcome)
      modifies this
      ensures old(wroteTerminalItem) ==> o == Throw(IllegalState) && message == old(message)
      ensures !old(wroteTerminalItem) ==> o == Pass && message == Append(old(message), str)
      ensures wroteTerminalItem == old(wroteTerminalItem)
    {
      if wroteTerminalItem {
        return Throw(IllegalState);
      }
      if |message| > 0 {
        message := message + ":";
      }
      message := message + str;
      o := Pass;
    }

    /** writeTerminalString: writeString, then no further field may follow. */
    method WriteTerminalString(str: string) returns (o: Outcome)
      modifies this
      ensures old(wroteTerminalItem) ==> o == Throw(IllegalState) && message == old(message)
      ensures !old(wroteTerminalItem) ==> o == Pass && message == Append(old(message), str)
      ensures wroteTerminalItem
    {
      o := WriteString(str);
      if o.Throw? {
        return;
      }
      wroteTerminalItem := true;
    }

    /** The fields fs, one writeString each; the first refusal ends the sequence. */
    method WriteFields(fs: seq<string>) returns (o: Outcome)
      modifies this
      ensures old(wroteTerminalItem) && fs != [] ==> o == Throw(IllegalState) && message == old(message)
      ensures !old(wroteTerminalItem) || fs == [] ==> o == Pass && message == AppendAll(old(message), fs)
      ensures wroteTerminalItem == old(wroteTerminalItem)
    {
      var i := 0;
      while i < |fs|
        invariant 0 <= i <= |fs|
        invariant wroteTerminalItem == old(wroteTerminalItem)
        invariant old(wroteTerminalItem) ==> message == old(message) && i == 0
        invariant !old(wroteTerminalItem) ==> message == AppendAll(old(message), fs[..i])
      {
        o := WriteString(fs[i]);
        if o.Throw? {
          return;
        }
        assert fs[..i + 1][..i] == fs[..i];
        i := i + 1;
      }
      assert fs[..i] == fs;
      o := Pass;
    }

    /** writeUsername: an invalid username throws and nothing is written. */
    method WriteUsername(username: string) returns (o: Outcome)
      modifies this
      ensures !IsValidUsername(username) ==> o == Throw(IllegalArgument) && message == old(message)
      ensures IsValidUsername(username) && old(wroteTerminalItem) ==> o == Throw(IllegalState) && message == old(message)
      ensures IsValidUsername(username) && !old(wroteTerminalItem) ==> o == Pass && message == Append(old(message), username)
      ensures wroteTerminalItem == old(wroteTerminalItem)
    {
      var u := ValidateUsername(username);
      if u.Fail? {
        return Throw(u.exc);
      }
      o := WriteString(u.value);
    }

    /** writePassword: validated, then written as the terminal field. */
    method WritePassword(password: string) returns (o: Outcome)
      modifies this
      ensures !IsValidPassword(password) ==> o == Throw(IllegalArgument) && message == old(message)
      ensures !IsValidPassword(password) ==> wroteTerminalItem == old(wroteTerminalItem)
      ensures IsValidPassword(password) && old(wroteTerminalItem) ==> o == Throw(IllegalState) && message == old(message)
      ensures IsValidPassword(password) && !old(wroteTerminalItem) ==> o == Pass && message == Append(old(message), password)
      ensures IsValidPassword(password) ==> wroteTerminalItem
    {
      var p := ValidatePassword(password);
      if p.Fail? {
        return Throw(p.exc);
      }
      o := WriteTerminalString(p.value);
    }

    /** writeChatMessage: validated, then written as the terminal field. */
    method WriteChatMessage(text: string) returns (o: Outcome)
      modifies this
      ensures !IsValidChatMessage(text) ==> o == Throw(IllegalArgument) && message == old(message)
      ensures !IsValidChatMessage(text) ==> wroteTerminalItem == old(wroteTerminalItem)
      ensures IsValidChatMessage(text) && old(wroteTerminalItem) ==> o == Throw(IllegalState) && message == old(message)
      ensures IsValidChatMessage(text) && !old(wroteTerminalItem) ==> o == Pass && message == Append(old(message), text)
      ensures IsValidChatMessage(text) ==> wroteTerminalItem
    {
      var c := ValidateChatMessage(text);
      if c.Fail? {
        return Throw(c.exc);
      }
      o := WriteTerminalString(c.value);
    }

    /** writeIntegerRank: a rank outside [MIN_RANK, MAX_RANK] throws; otherwise its decimal form. */
    method WriteIntegerRank(rank: int) returns (o: Outcome)
      modifies this
      ensures !IsIntegerRank(rank) ==> o == Throw(IllegalArgument) && message == old(message)
      ensures IsIntegerRank(rank) && old(wroteTerminalItem) ==> o == Throw(IllegalState) && message == old(message)
      ensures IsIntegerRank(rank) && !old(wroteTerminalItem) ==> o == Pass && message == Append(old(message), IntToString(rank))
      ensures wroteTerminalItem == old(wroteTerminalItem)
    {
      var k := ValidateIntegerRank(rank);
      if k.Fail? {
        return Throw(k.exc);
      }
      o := WriteString(IntToString(k.value));
    }

    /** writePlayerIndex: an index outside [0, TEAM_SIZE) throws; otherwise its decimal form. */
    method WritePlayerIndex(index: int) returns (o: Outcome)
      modifies this
      ensures !(0 <= index < TEAM_SIZE) ==> o == Throw(IllegalArgument) && message == old(message)
      ensures 0 <= index < TEAM_SIZE && old(wroteTerminalItem) ==> o == Throw(IllegalState) && message == old(message)
      ensures 0 <= index < TEAM_SIZE && !old(wroteTerminalItem) ==> o == Pass && message == Append(old(message), IntToString(index))
      ensures wroteTerminalItem == old(wroteTerminalItem)
    {
      var k := ValidatePlayerIndex(index);
      if k.Fail? {
        return Throw(k.exc);
      }
      o := WriteString(IntToString(k.value));
    }

    /** writeServerStats: the four counts. */
    method WriteServerStats(st: ServerStats) returns (o: Outcome)
      modifies this
      ensures old(wroteTerminalItem) ==> o == Throw(IllegalState) && message == old(message)
      ensures !old(wroteTerminalItem) ==> o == Pass && message == AppendAll(old(message), ServerStatsFields(st))
      ensures wroteTerminalItem == old(wroteTerminalItem)
    {
      o := WriteFields(ServerStatsFields(st));
    }

    /** writeAccountInfo: the username (not validated again) and three counts. */
    method WriteAccountInfo(a: AccountInfo) returns (o: Outcome)
      modifies this
      ensures old(wroteTerminalItem) ==> o == Throw(IllegalState) && message == old(message)
      ensures !old(wroteTerminalItem) ==> o == Pass && message == AppendAll(old(message), AccountInfoFields(a))
      ensures wroteTerminalItem == old(wroteTerminalItem)
    {
      o := WriteFields(AccountInfoFields(a));
    }

    /** writeTeamInfo: the team, then a loop over the players. */
    method WriteTeamInfo(t: TeamInfo) returns (o: Outcome)
      modifies this
      ensures old(wroteTerminalItem) ==> o == Throw(IllegalState) && message == old(message)
      ensures !old(wroteTerminalItem) ==> o == Pass && message == AppendAll(old(message), TeamInfoFields(t))
      ensures wroteTerminalItem == old(wroteTerminalItem)
    {
      o := WriteString(TeamName(t.team));
      if o.Throw? {
        return;
      }
      ghost var start := message;
      var i := 0;
      while i < |t.players|
        invariant 0 <= i <= |t.players|
        invariant !wroteTerminalItem && wroteTerminalItem == old(wroteTerminalItem)
        invariant message == AppendAll(start, TeamPlayersFields(t.players[..i]))
      {
        var p := t.players[i];
        o := WriteString(p.username);
        o := WriteString(IntToString(p.rank));
        assert t.players[..i + 1][..i] == t.players[..i];
        AppendAllPair(start, TeamPlayersFields(t.players[..i]), p.username, IntToString(p.rank));
        i := i + 1;
      }
      assert t.players[..i] == t.players;
      AppendAllConcat(old(message), [TeamName(t.team)], TeamPlayersFields(t.players));
      o := Pass;
    }

    /** writeMatchSummary: the winner, then the loop over BLUE, then the loop over RED. */
    method WriteMatchSummary(s: MatchSummary) returns (o: Outcome)
      modifies this
      ensures old(wroteTerminalItem) ==> o == Throw(IllegalState) && message == old(message)
      ensures !old(wroteTerminalItem) ==> o == Pass && message == AppendAll(old(message), MatchSummaryFields(s))
      ensures wroteTerminalItem == old(wroteTerminalItem)
    {
      o := WriteString(TeamName(s.winner));
      if o.Throw? {
        return;
      }
      ghost var afterWinner := message;
      o := WriteSummaryPlayers(s.blue);
      ghost var afterBlue := message;
      o := WriteSummaryPlayers(s.red);
      AppendAllConcat(old(message), [TeamName(s.winner)], SummaryPlayersFields(s.blue));
      AppendAllConcat(old(message), [TeamName(s.winner)] + SummaryPlayersFields(s.blue), SummaryPlayersFields(s.red));
      o := Pass;
    }

    /** One loop of writeMatchSummary: five fields per player, in list order. */
    method WriteSummaryPlayers(ps: seq<SummaryPlayer>) returns (o: Outcome)
      modifies this
      requires !wroteTerminalItem
      ensures o == Pass && !wroteTerminalItem
      ensures message == AppendAll(old(message), SummaryPlayersFields(ps))
    {
      ghost var start := message;
      var i := 0;
      while i < |ps|
        invariant 0 <= i <= |ps|
        invariant !wroteTerminalItem
        invariant message == AppendAll(start, SummaryPlayersFields(ps[..i]))
      {
        ghost var before := message;
        o := WriteFields(SummaryPlayerFields(ps[i]));
        assert ps[..i + 1][..i] == ps[..i];
        AppendAllConcat(start, SummaryPlayersFields(ps[..i]), SummaryPlayerFields(ps[i]));
        i := i + 1;
      }
      assert ps[..i] == ps;
      o := Pass;
    }
  }

  // ------------------------------------------------------ writing lemmas

  /** Writing fs and then gs writes fs + gs. */
  lemma {:induction false} AppendAllConcat(m: string, fs: seq<string>, gs: seq<string>)
    ensures AppendAll(AppendAll(m, fs), gs) == AppendAll(m, fs + gs)
    decreases |gs|
  {
    if gs == [] {
      assert fs + gs == fs;
    } else {
      AppendAllConcat(m, fs, gs[..|gs| - 1]);
      assert (fs + gs)[..|fs + gs| - 1] == fs + gs[..|gs| - 1];
    }
  }

  /** One more field after fs. */
  lemma AppendAllSnoc(m: string, fs: seq<string>, f: string)
    ensures Append(AppendAll(m, fs), f) == AppendAll(m, fs + [f])
  {
    assert (fs + [f])[..|fs|] == fs;
  }

  /** Two more fields after fs. */
  lemma AppendAllPair(m: string, fs: seq<string>, a: string, b: string)
    ensures Append(Append(AppendAll(m, fs), a), b) == AppendAll(m, fs + [a, b])
  {
    assert (fs + [a, b])[..|fs| + 1] == fs + [a];
    assert (fs + [a])[..|fs|] == fs;
  }

  /** The message of L and one more field. */
  lemma {:induction false} MsgSnoc(L: seq<string>, f: string)
    requires L != []
    ensures Msg(L + [f]) == Msg(L) + ":" + f
    decreases |L|
  {
    if |L| > 1 {
      MsgSnoc(L[1..], f);
      assert (L + [f])[1..] == L[1..] + [f];
    }
  }

  /** The message of L starts with L's first field. */
  lemma {:induction false} MsgStartsWithFirst(L: seq<string>)
    requires L != []
    ensures |Msg(L)| >= |L[0]| && Msg(L)[..|L[0]|] == L[0]
  {
  }

  /**
   * The fields written into an empty writer, the first of them non-empty,
   * make the message whose fields they are: every field after the first is
   * preceded by exactly one ':'.
   */
  lemma {:induction false} AppendAllIsMsg(fs: seq<string>)
    requires fs != [] && fs[0] != []
    ensures AppendAll([], fs) == Msg(fs)
    decreases |fs|
  {
    if |fs| == 1 {
      assert fs[..0] == [];
    } else {
      var init := fs[..|fs| - 1];
      AppendAllIsMsg(init);
      MsgStartsWithFirst(init);
      MsgSnoc(init, fs[|fs| - 1]);
      assert init + [fs[|fs| - 1]] == fs;
    }
  }

  // ------------------------------------------------------ reading lemmas

  /** readString on the message of L yields L's first field and leaves the rest of L. */
  lemma ReadFieldMsg(L: seq<string>)
    requires L != [] && ':' !in L[0] && (|L| > 1 || L[0] != [])
    ensures ReadField(Msg(L)) == Ok(Read(L[0], Msg(L[1..])))
  {
    ReadFieldOf(L[0], Msg(L[1..]));
  }

  /** readTerminalString on the message of one non-empty field, colons allowed. */
  lemma ReadTerminalFieldMsg(f: string)
    requires f != []
    ensures ReadTerminalField(Msg([f])) == Ok(Read(f, Msg([])))
  {
  }

  /**
   * Reading |A| plain fields from the message of A + B yields A and leaves
   * the message of B, when every field of A is colon-free and the last one
   * is non-empty if nothing follows it.
   */
  lemma {:induction false} ReadFieldsMsg(A: seq<string>, B: seq<string>)
    requires ColonFree(A) && (A != [] && B == [] ==> A[|A| - 1] != [])
    ensures ReadSeq(ReadField, Msg(A + B), |A|) == Ok(Read(A, Msg(B)))
    decreases |A|
  {
    if A == [] {
      assert A + B == B;
    } else {
      var init := A[..|A| - 1];
      var a := A[|A| - 1];
      assert init + ([a] + B) == A + B;
      ReadFieldsMsg(init, [a] + B);
      ReadFieldMsg([a] + B);
      assert ([a] + B)[1..] == B;
      ReadSeqStep(ReadField, Msg(A + B), |init|, init, Msg([a] + B), a, Msg(B));
      assert init + [a] == A;
    }
  }

  /**
   * The round trip of MsgWriter and MsgReader: fields written into an
   * empty writer, the first and last non-empty and none holding ':', read
   * back one readString each, give the same fields and leave the reader
   * empty.
   */
  lemma WriteReadRoundTrip(fs: seq<string>)
    requires fs != [] && fs[0] != [] && fs[|fs| - 1] != [] && ColonFree(fs)
    ensures ReadSeq(ReadField, AppendAll([], fs), |fs|) == Ok(Read(fs, []))
  {
    AppendAllIsMsg(fs);
    ReadFieldsMsg(fs, []);
    assert fs + [] == fs;
  }

  /**
   * The same with a terminal last field, which may hold ':': the plain
   * fields come back one readString each and readTerminalString gives the
   * last one whole.
   */
  lemma WriteReadTerminalRoundTrip(fs: seq<string>, t: string)
    requires fs != [] && fs[0] != [] && ColonFree(fs) && t != []
    ensures ReadSeq(ReadField, AppendAll([], fs + [t]), |fs|) == Ok(Read(fs, t))
    ensures ReadTerminalField(t) == Ok(Read(t, []))
  {
    AppendAllIsMsg(fs + [t]);
    ReadFieldsMsg(fs, [t]);
  }
}
