/**
 * mm.server.auth: Account (a player's credentials, match counters and
 * rank) and AccountManager (the in-memory directory of accounts, with the
 * login and register checks).
 *
 * The rank is a double in the source; here it is a real number, and
 * Math.round is floor(rank + 1/2).
 */
module Accounts {
  import opened Wrappers
  import opened Config
  import opened Validation
  import opened Decimal
  import opened Data
  import opened MsgReading
  import opened MsgWriting

  /** What the five-argument constructor checks: a valid username and password, counts >= 0, a rank in range. */
  predicate IsAccountState(username: string, password: string, won: int, lost: int, rank: real) {
    IsValidUsername(username) && IsValidPassword(password) && won >= 0 && lost >= 0 && IsDoubleRank(rank)
  }

  /** The fields of an Account other than its username, which is the key it is filed under. */
  datatype AccountState = AccountState(password: string, numWonMatches: int, numLostMatches: int, rank: real)

  predicate IsAccount(username: string, a: AccountState) {
    IsAccountState(username, a.password, a.numWonMatches, a.numLostMatches, a.rank)
  }

  /** Math.round(rank) for a rank in [MIN_RANK, MAX_RANK]: the nearest integer, halves upwards. */
  function RoundRank(rank: real): (k: int)
    ensures rank - 1.0 / 2.0 < k as real <= rank + 1.0 / 2.0
    ensures IsDoubleRank(rank) ==> IsIntegerRank(k)
  {
    (rank + 1.0 / 2.0).Floor
  }

  class Account {
    const username: string
    const password: string
    var numWonMatches: int
    var numLostMatches: int
    var rank: real

    ghost predicate Valid()
      reads this
    {
      IsAccountState(username, password, numWonMatches, numLostMatches, rank)
    }

    /** The constructor once its checks have passed (see NewAccount). */
    constructor (username: string, password: string, won: int, lost: int, rank: real)
      requires IsAccountState(username, password, won, lost, rank)
      ensures Valid()
      ensures this.username == username && this.password == password
      ensures numWonMatches == won && numLostMatches == lost && this.rank == rank
    {
      this.username := username;
      this.password := password;
      numWonMatches := won;
      numLostMatches := lost;
      this.rank := rank;
    }

    /** getIntegerRank. */
    function IntegerRank(): (k: int)
      reads this
      requires Valid()
      ensures IsIntegerRank(k) && rank - 1.0 / 2.0 < k as real <= rank + 1.0 / 2.0
    {
      RoundRank(rank)
    }

    /** getAccountInfo: the username, both counts and the integer rank. */
    function GetAccountInfo(): (a: AccountInfo)
      reads this
      requires Valid()
      ensures IsAccountInfo(a)
      ensures a.username == username && a.numWonMatches == numWonMatches && a.numLostMatches == numLostMatches
      ensures a.rank == IntegerRank()
    {
      AccountInfo(username, numWonMatches, numLostMatches, IntegerRank())
    }

    /** incrementNumWonMatches: one more win, nothing else changes. */
    method IncrementNumWonMatches()
      requires Valid()
      modifies this
      ensures Valid()
      ensures numWonMatches == old(numWonMatches) + 1
      ensures numLostMatches == old(numLostMatches) && rank == old(rank)
    {
      numWonMatches := numWonMatches + 1;
    }

    /** incrementNumLostMatches: one more loss, nothing else changes. */
    method IncrementNumLostMatches()
      requires Valid()
      modifies this
      ensures Valid()
      ensures numLostMatches == old(numLostMatches) + 1
      ensures numWonMatches == old(numWonMatches) && rank == old(rank)
    {
      numLostMatches := numLostMatches + 1;
    }

    /** setDoubleRank: a rank outside [MIN_RANK, MAX_RANK] throws and the old rank stays. */
    method SetDoubleRank(newRank: real) returns (o: Outcome)
      requires Valid()
      modifies this
      ensures Valid()
      ensures o.Pass? <==> IsDoubleRank(newRank)
      ensures o.Throw? ==> o.exc == IllegalArgument && rank == old(rank)
      ensures o.Pass? ==> rank == newRank
      ensures numWonMatches == old(numWonMatches) && numLostMatches == old(numLostMatches)
    {
      var r := ValidateDoubleRank(newRank);
      if r.Fail? {
        return Throw(r.exc);
      }
      rank := r.value;
      o := Pass;
    }
  }

  /** The five-argument constructor: any failed check throws IllegalArgumentException. */
  method NewAccount(username: string, password: string, won: int, lost: int, rank: real) returns (r: Result<Account>)
    ensures r.Ok? <==> IsAccountState(username, password, won, lost, rank)
    ensures r.Fail? ==> r.exc == IllegalArgument
    ensures r.Ok? ==> fresh(r.value) && r.value.Valid() && r.value.username == username && r.value.password == password
    ensures r.Ok? ==> r.value.numWonMatches == won && r.value.numLostMatches == lost && r.value.rank == rank
  {
    if !IsAccountState(username, password, won, lost, rank) {
      return Fail(IllegalArgument);
    }
    var a := new Account(username, password, won, lost, rank);
    r := Ok(a);
  }

  /** The two-argument constructor: no matches yet and rank INITIAL_RANK. */
  method NewPlayerAccount(username: string, password: string) returns (r: Result<Account>)
    ensures r.Ok? <==> IsValidUsername(username) && IsValidPassword(password)
    ensures r.Fail? ==> r.exc == IllegalArgument
    ensures r.Ok? ==> fresh(r.value) && r.value.Valid() && r.value.username == username && r.value.password == password
    ensures r.Ok? ==> r.value.numWonMatches == 0 && r.value.numLostMatches == 0 && r.value.rank == INITIAL_RANK
  {
    r := NewAccount(username, password, 0, 0, INITIAL_RANK);
  }

  // ----------------------------------------------------- Account.fromString

  /** The pieces of s between its ':' characters, empty ones included. */
  function SplitAtColons(s: string): (parts: seq<string>)
    ensures |parts| >= 1
    decreases |s|
  {
    match FirstColon(s)
    case None => [s]
    case Some(k) => [s[..k]] + SplitAtColons(s[k + 1..])
  }

  function DropTrailingEmpty(parts: seq<string>): (r: seq<string>)
    ensures |r| <= |parts| && r == parts[..|r|]
    ensures r != [] ==> r[|r| - 1] != []
  {
    if parts != [] && parts[|parts| - 1] == [] then DropTrailingEmpty(parts[..|parts| - 1]) else parts
  }

  /**
   * String.split(":"): the text itself when it has no ':'; otherwise the
   * pieces with the trailing empty ones removed.
   */
  function JavaSplit(s: string): (parts: seq<string>)
    ensures ':' !in s ==> parts == [s]
  {
    if ':' !in s then [s] else DropTrailingEmpty(SplitAtColons(s))
  }

  /** The values of one line of the account file. */
  datatype AccountLine = AccountLine(username: string, password: string, won: int, lost: int, rank: real)

  function CheckLine(l: AccountLine): (r: Result<AccountLine>)
    ensures r.Ok? <==> IsAccountState(l.username, l.password, l.won, l.lost, l.rank)
    ensures r.Ok? ==> r.value == l
    ensures r.Fail? ==> r.exc == IllegalArgument
  {
    if IsAccountState(l.username, l.password, l.won, l.lost, l.rank) then Ok(l) else Fail(IllegalArgument)
  }

  /**
   * Account.fromString as written: exactly five ':'-separated parts, the
   * counts as Integer.parseInt, the rank as Double.parseDouble (a
   * parameter here), then the constructor's checks.
   */
  function FromString(str: string, parseDouble: string -> Result<real>): (r: Result<AccountLine>)
    ensures |JavaSplit(str)| != 5 ==> r == Fail(IllegalArgument)
    ensures r.Ok? ==> |JavaSplit(str)| == 5 && r.value.username == JavaSplit(str)[0] && r.value.password == JavaSplit(str)[1]
    ensures r.Ok? ==> IsAccountState(r.value.username, r.value.password, r.value.won, r.value.lost, r.value.rank)
    ensures r.Ok? ==> ParseInt(JavaSplit(str)[2]) == Ok(r.value.won) && ParseInt(JavaSplit(str)[3]) == Ok(r.value.lost)
    ensures r.Ok? ==> parseDouble(JavaSplit(str)[4]) == Ok(r.value.rank)
  {
    var parts := JavaSplit(str);
    if |parts| != 5 then Fail(IllegalArgument)
    else
      var won :- ParseInt(parts[2]);
      var lost :- ParseInt(parts[3]);
      var rank :- parseDouble(parts[4]);
      CheckLine(AccountLine(parts[0], parts[1], won, lost, rank))
  }

  /**
   * Account.fromString as intended: the first part is the username, the last
   * three the counts and the rank, and everything between them, ':'
   * included, the password.
   */
  function FromStringCorrected(str: string, parseDouble: string -> Result<real>): (r: Result<AccountLine>)
    ensures |SplitAtColons(str)| < 5 ==> r == Fail(IllegalArgument)
    ensures r.Ok? ==> IsAccountState(r.value.username, r.value.password, r.value.won, r.value.lost, r.value.rank)
    ensures r.Ok? ==> r.value.username == SplitAtColons(str)[0]
  {
    var parts := SplitAtColons(str);
    var n := |parts|;
    if n < 5 then Fail(IllegalArgument)
    else
      var won :- ParseInt(parts[n - 3]);
      var lost :- ParseInt(parts[n - 2]);
      var rank :- parseDouble(parts[n - 1]);
      CheckLine(AccountLine(parts[0], Msg(parts[1..n - 3]), won, lost, rank))
  }

  lemma SplitColonFree(f: string)
    requires ':' !in f
    ensures SplitAtColons(f) == [f]
  {
    FirstColonIsFirst(f);
  }

  /** Splitting at a ':' splits each side on its own. */
  lemma {:induction false} SplitConcat(x: string, y: string)
    ensures SplitAtColons(x + ":" + y) == SplitAtColons(x) + SplitAtColons(y)
    decreases |x|
  {
    var s := x + ":" + y;
    FirstColonIsFirst(x);
    if ':' !in x {
      FirstColonOf(x, y);
      assert s[..|x|] == x && s[|x| + 1..] == y;
    } else {
      var k := FirstColon(x).value;
      FirstColonOf(x[..k], x[k + 1..] + ":" + y);
      assert s == x[..k] + ":" + (x[k + 1..] + ":" + y);
      assert s[..k] == x[..k];
      assert s[k + 1..] == x[k + 1..] + ":" + y;
      SplitConcat(x[k + 1..], y);
    }
  }

  /** Joining the pieces with ':' gives the text back. */
  lemma {:induction false} JoinSplit(s: string)
    ensures Msg(SplitAtColons(s)) == s
    decreases |s|
  {
    FirstColonIsFirst(s);
    if FirstColon(s).Some? {
      var k := FirstColon(s).value;
      JoinSplit(s[k + 1..]);
      var parts := SplitAtColons(s);
      assert parts[1..] == SplitAtColons(s[k + 1..]);
      assert s == s[..k] + ":" + s[k + 1..];
    }
  }

  /** The pieces of the fields, joined by ':', are the pieces of each field in turn. */
  lemma {:induction false} SplitMsg(fs: seq<string>)
    requires ColonFree(fs) && fs != []
    ensures SplitAtColons(Msg(fs)) == fs
    decreases |fs|
  {
    SplitColonFree(fs[0]);
    if |fs| > 1 {
      SplitConcat(fs[0], Msg(fs[1..]));
      SplitMsg(fs[1..]);
      assert fs == [fs[0]] + fs[1..];
    }
  }

  /** The five fields Account.toString writes, its last field (the %f rank) given as text. */
  function AccountLineFields(username: string, password: string, won: int, lost: int, rankText: string): seq<string> {
    [username, password, IntToString(won), IntToString(lost), rankText]
  }

  /** As written, a line without ':' in its password splits into its five fields and is read back. */
  lemma FromStringOfColonFreeLine(username: string, password: string, won: int, lost: int, rankText: string,
                                  parseDouble: string -> Result<real>, rank: real)
    requires IsAccountState(username, password, won, lost, rank) && IsInt32(won) && IsInt32(lost)
    requires ':' !in password && ':' !in rankText && rankText != [] && parseDouble(rankText) == Ok(rank)
    ensures FromString(Msg(AccountLineFields(username, password, won, lost, rankText)), parseDouble)
      == Ok(AccountLine(username, password, won, lost, rank))
  {
    var fs := AccountLineFields(username, password, won, lost, rankText);
    IntToStringParses(won);
    IntToStringParses(lost);
    SplitMsg(fs);
    assert Msg(fs) == username + ":" + Msg(fs[1..]);
    assert ':' in Msg(fs);
  }

  /**
   * As written, a password holding ':' (which isValidPassword allows) makes
   * Account.toString produce a line with more than five parts, which
   * fromString rejects: the account is saved but cannot be loaded again.
   */
  lemma FromStringRejectsColonPassword(parseDouble: string -> Result<real>)
    ensures IsAccountState("alice", "abc:defg", 0, 0, 0.0)
    ensures FromString(Msg(AccountLineFields("alice", "abc:defg", 0, 0, "0.000000")), parseDouble) == Fail(IllegalArgument)
  {
    ColonPasswordAccountValid();
    ColonPasswordLineSplits();
  }

  /** alice's account, password "abc:defg", is a valid Account. */
  lemma ColonPasswordAccountValid()
    ensures IsAccountState("alice", "abc:defg", 0, 0, 0.0)
  {
    var u, p := "alice", "abc:defg";
    assert u[0] == 'a' && u[1] == 'l' && u[2] == 'i' && u[3] == 'c' && u[4] == 'e';
    assert forall i :: 0 <= i < |u| ==> IsAsciiLetterOrDigit(u[i]);
    assert p[0] == 'a' && p[1] == 'b' && p[2] == 'c' && p[3] == ':' && p[4] == 'd' && p[5] == 'e' && p[6] == 'f' && p[7] == 'g';
    assert NoLineBreak(p);
  }

  /** The line of that account splits into six parts, the last non-empty. */
  lemma ColonPasswordLineSplits()
    ensures |JavaSplit(Msg(AccountLineFields("alice", "abc:defg", 0, 0, "0.000000")))| == 6
  {
    var fs := AccountLineFields("alice", "abc:defg", 0, 0, "0.000000");
    ColonPasswordPieces();
    var parts := SplitAtColons(Msg(fs));
    assert |parts| == 6 && parts[5] == "0.000000";
    assert ':' in Msg(fs) by {
      assert Msg(fs)[5] == ':';
    }
  }

  /** The ':' inside the password cuts it in two: the pieces are the user name, both halves and the other fields. */
  lemma ColonPasswordPieces()
    ensures var fs := AccountLineFields("alice", "abc:defg", 0, 0, "0.000000");
      SplitAtColons(Msg(fs)) == ["alice", "abc", "defg"] + fs[2..]
  {
    var fs := AccountLineFields("alice", "abc:defg", 0, 0, "0.000000");
    var tail := fs[2..];
    assert ColonFree(tail);
    SplitMsg(tail);
    assert "abc:defg" == "abc" + ":" + "defg";
    SplitConcat("abc", "defg");
    SplitColonFree("abc");
    SplitColonFree("defg");
    SplitConcat("abc:defg", Msg(tail));
    SplitConcat("alice", "abc:defg" + ":" + Msg(tail));
    SplitColonFree("alice");
    assert fs[1..][1..] == tail;
    assert Msg(fs) == "alice" + ":" + ("abc:defg" + ":" + Msg(tail));
  }

  /** As intended, every valid account line comes back whole, whatever its password holds. */
  lemma FromStringCorrectedRoundTrip(username: string, password: string, won: int, lost: int, rankText: string,
                                     parseDouble: string -> Result<real>, rank: real)
    requires IsAccountState(username, password, won, lost, rank) && IsInt32(won) && IsInt32(lost)
    requires ':' !in rankText && parseDouble(rankText) == Ok(rank)
    ensures FromStringCorrected(Msg(AccountLineFields(username, password, won, lost, rankText)), parseDouble)
      == Ok(AccountLine(username, password, won, lost, rank))
  {
    var tail := [IntToString(won), IntToString(lost), rankText];
    IntToStringParses(won);
    IntToStringParses(lost);
    LineSplits(username, password, won, lost, rankText);
    var parts := [username] + (SplitAtColons(password) + tail);
    var n := |parts|;
    assert parts[1..n - 3] == SplitAtColons(password);
    JoinSplit(password);
  }

  /** A line splits into its username, the pieces of its password and its last three fields. */
  lemma LineSplits(username: string, password: string, won: int, lost: int, rankText: string)
    requires IsValidUsername(username) && ':' !in rankText && IsInt32(won) && IsInt32(lost)
    ensures SplitAtColons(Msg(AccountLineFields(username, password, won, lost, rankText)))
         == [username] + (SplitAtColons(password) + [IntToString(won), IntToString(lost), rankText])
  {
    var tail := [IntToString(won), IntToString(lost), rankText];
    IntToStringParses(won);
    IntToStringParses(lost);
    assert ColonFree(tail);
    SplitMsg(tail);
    SplitConcat(password, Msg(tail));
    SplitConcat(username, password + ":" + Msg(tail));
    SplitColonFree(username);
    assert username + ":" + (password + ":" + Msg(tail)) == Msg(AccountLineFields(username, password, won, lost, rankText));
  }

  // ---------------------------------------------------------- AccountManager

  /**
   * The checks of login, in their order, given the password filed under
   * the username if there is one: None when all of them pass.
   */
  function LoginRefusal(username: string, password: string, filed: Option<string>): (e: Option<LoginError>)
    ensures !IsValidUsername(username) ==> e == Some(InvalidUsername)
    ensures IsValidUsername(username) && !IsValidPassword(password) ==> e == Some(InvalidPassword)
    ensures IsValidUsername(username) && IsValidPassword(password) && filed.None? ==> e == Some(UsernameDoesntExist)
    ensures IsValidUsername(username) && IsValidPassword(password) && filed.Some? && filed.value != password ==>
      e == Some(WrongPassword)
    ensures e.None? <==> IsValidUsername(username) && IsValidPassword(password) && filed == Some(password)
  {
    if !IsValidUsername(username) then Some(InvalidUsername)
    else if !IsValidPassword(password) then Some(InvalidPassword)
    else if filed.None? then Some(UsernameDoesntExist)
    else if password != filed.value then Some(WrongPassword)
    else None
  }

  /** The checks of register, in their order, given whether the username is taken: None when all pass. */
  function RegisterRefusal(username: string, password: string, taken: bool): (e: Option<SignUpError>)
    ensures !IsValidUsername(username) ==> e == Some(SignUpInvalidUsername)
    ensures IsValidUsername(username) && !IsValidPassword(password) ==> e == Some(SignUpInvalidPassword)
    ensures IsValidUsername(username) && IsValidPassword(password) && taken ==> e == Some(UsernameExists)
    ensures e.None? <==> IsValidUsername(username) && IsValidPassword(password) && !taken
  {
    if !IsValidUsername(username) then Some(SignUpInvalidUsername)
    else if !IsValidPassword(password) then Some(SignUpInvalidPassword)
    else if taken then Some(UsernameExists)
    else None
  }

  class AccountManager {
    var accounts: map<string, Account>

    /** Each account is filed under its own username. */
    ghost predicate Valid()
      reads this
    {
      forall u :: u in accounts ==> accounts[u].username == u
    }

    /** The constructor without an account file: no accounts. */
    constructor ()
      ensures Valid() && accounts == map[]
    {
      accounts := map[];
    }

    /** getNumAccounts. */
    function NumAccounts(): (n: nat)
      reads this
      ensures n == |accounts.Keys|
    {
      |accounts|
    }

    /**
     * login: INVALID_USERNAME, INVALID_PASSWORD, USERNAME_DOESNT_EXIST and
     * WRONG_PASSWORD, checked in that order; otherwise the stored account
     * itself. Nothing is changed.
     */
    function Login(username: string, password: string): (r: Checked<Account, LoginError>)
      reads this
      ensures !IsValidUsername(username) ==> r == Refused(InvalidUsername)
      ensures IsValidUsername(username) && !IsValidPassword(password) ==> r == Refused(InvalidPassword)
      ensures IsValidUsername(username) && IsValidPassword(password) && username !in accounts ==>
        r == Refused(UsernameDoesntExist)
      ensures (IsValidUsername(username) && IsValidPassword(password) && username in accounts &&
               accounts[username].password != password) ==> r == Refused(WrongPassword)
      ensures r.Done? <==> (IsValidUsername(username) && IsValidPassword(password) && username in accounts &&
                            accounts[username].password == password)
      ensures r.Done? ==> r.value == accounts[username]
    {
      var filed := if username in accounts then Some(accounts[username].password) else None;
      var e := LoginRefusal(username, password, filed);
      if e.Some? then Refused(e.value) else Done(accounts[username])
    }

    /**
     * register: INVALID_USERNAME, INVALID_PASSWORD and USERNAME_EXISTS,
     * checked in that order, leave the directory as it was; otherwise one
     * new account is filed under the username, and logging in with the
     * same credentials returns it.
     */
    method Register(username: string, password: string) returns (r: Checked<Account, SignUpError>)
      requires Valid()
      modifies this
      ensures Valid()
      ensures !IsValidUsername(username) ==> r == Refused(SignUpInvalidUsername)
      ensures IsValidUsername(username) && !IsValidPassword(password) ==> r == Refused(SignUpInvalidPassword)
      ensures IsValidUsername(username) && IsValidPassword(password) && username in old(accounts) ==>
        r == Refused(UsernameExists)
      ensures r.Refused? ==> accounts == old(accounts)
      ensures r.Done? <==> IsValidUsername(username) && IsValidPassword(password) && username !in old(accounts)
      ensures r.Done? ==> fresh(r.value) && r.value.Valid() && accounts == old(accounts)[username := r.value]
      ensures r.Done? ==> r.value.numWonMatches == 0 && r.value.numLostMatches == 0 && r.value.rank == INITIAL_RANK
      ensures r.Done? ==> NumAccounts() == old(NumAccounts()) + 1 && Login(username, password) == Done(r.value)
    {
      var e := RegisterRefusal(username, password, username in accounts);
      if e.Some? {
        return Refused(e.value);
      }
      var a := new Account(username, password, 0, 0, INITIAL_RANK);
      accounts := accounts[username := a];
      r := Done(a);
    }
  }
}
