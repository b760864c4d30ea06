/**
 * mm.common.util.Validation: the username, password and chat-message
 * patterns of Config, and the range checks that either return their
 * argument or throw IllegalArgumentException.
 */
module Validation {
  import opened Wrappers
  import opened Config

  predicate IsAsciiLetterOrDigit(c: char) {
    'a' <= c <= 'z' || 'A' <= c <= 'Z' || '0' <= c <= '9'
  }

  predicate IsLineBreak(c: char) {
    c == '\r' || c == '\n'
  }

  predicate NoLineBreak(s: string) {
    forall i :: 0 <= i < |s| ==> !IsLineBreak(s[i])
  }

  /** USERNAME_PATTERN ^[a-zA-Z0-9]{4,20}$ */
  predicate IsValidUsername(s: string) {
    4 <= |s| <= 20 && forall i :: 0 <= i < |s| ==> IsAsciiLetterOrDigit(s[i])
  }

  /** PASSWORD_PATTERN ^[^\r\n]{6,40}$ */
  predicate IsValidPassword(s: string) {
    6 <= |s| <= 40 && NoLineBreak(s)
  }

  /** CHAT_MESSAGE_PATTERN ^[^\r\n]+$ */
  predicate IsValidChatMessage(s: string) {
    1 <= |s| && NoLineBreak(s)
  }

  /** A valid username is a single, non-empty wire field: it has no ':' in it. */
  lemma ValidUsernameIsField(s: string)
    requires IsValidUsername(s)
    ensures s != [] && ':' !in s
  {
  }

  /** A password may contain ':'; this is why it travels as a terminal field. */
  lemma PasswordMayContainColon()
    ensures IsValidPassword("abc:def") && ':' in "abc:def"
  {
  }

  function ValidateUsername(s: string): (r: Result<string>)
    ensures r.Ok? <==> IsValidUsername(s)
    ensures r.Ok? ==> r.value == s
    ensures r.Fail? ==> r.exc == IllegalArgument
  {
    if IsValidUsername(s) then Ok(s) else Fail(IllegalArgument)
  }

  function ValidatePassword(s: string): (r: Result<string>)
    ensures r.Ok? <==> IsValidPassword(s)
    ensures r.Ok? ==> r.value == s
    ensures r.Fail? ==> r.exc == IllegalArgument
  {
    if IsValidPassword(s) then Ok(s) else Fail(IllegalArgument)
  }

  function ValidateChatMessage(s: string): (r: Result<string>)
    ensures r.Ok? <==> IsValidChatMessage(s)
    ensures r.Ok? ==> r.value == s
    ensures r.Fail? ==> r.exc == IllegalArgument
  {
    if IsValidChatMessage(s) then Ok(s) else Fail(IllegalArgument)
  }

  function ValidateCount(n: int): (r: Result<int>)
    ensures r.Ok? <==> n >= 0
    ensures r.Ok? ==> r.value == n
    ensures r.Fail? ==> r.exc == IllegalArgument
  {
    if n < 0 then Fail(IllegalArgument) else Ok(n)
  }

  predicate IsIntegerRank(rank: int) {
    MIN_RANK <= rank <= MAX_RANK
  }

  predicate IsDoubleRank(rank: real) {
    MIN_RANK as real <= rank <= MAX_RANK as real
  }

  function ValidateIntegerRank(rank: int): (r: Result<int>)
    ensures r.Ok? <==> MIN_RANK <= rank <= MAX_RANK
    ensures r.Ok? ==> r.value == rank
    ensures r.Fail? ==> r.exc == IllegalArgument
  {
    if rank < MIN_RANK || rank > MAX_RANK then Fail(IllegalArgument) else Ok(rank)
  }

  function ValidateDoubleRank(rank: real): (r: Result<real>)
    ensures r.Ok? <==> MIN_RANK as real <= rank <= MAX_RANK as real
    ensures r.Ok? ==> r.value == rank
    ensures r.Fail? ==> r.exc == IllegalArgument
  {
    if rank < MIN_RANK as real || rank > MAX_RANK as real then Fail(IllegalArgument) else Ok(rank)
  }

  function ValidatePlayerIndex(index: int): (r: Result<int>)
    ensures r.Ok? <==> 0 <= index < TEAM_SIZE
    ensures r.Ok? ==> r.value == index
    ensures r.Fail? ==> r.exc == IllegalArgument
  {
    if index < 0 || index >= TEAM_SIZE then Fail(IllegalArgument) else Ok(index)
  }
}
