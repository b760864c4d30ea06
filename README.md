# Matchmaking server, wire protocol and client, in Dafny

A model of the core of the `sd-1718` matchmaking system: the server's
matchmaker (rank buckets that form groups of ten), the match-acceptance
barrier (`MatchFound`), the hero-selection lobby (`Lobby`), the server's
per-client session state machine (`NetServer`), the colon-delimited wire
codec (`MsgWriter`/`MsgReader`) with the two messengers that encode and
decode every request and notice, the account directory, the value classes
(`Hero`, `Team`, `TeamInfo`, `MatchSummary`, `AccountInfo`, `ServerStats`),
the configuration constants, and the client's state machine (`NetClient`,
`TeamState`).

Layout, one module per source component:

| file | module | models |
|---|---|---|
| wrappers.dfy | Wrappers | `Result`, `Outcome`, `Checked`, `Option`; Java exceptions as values |
| config.dfy | Config | `Config.java` |
| validation.dfy | Validation | `Validation.java` |
| decimal.dfy | Decimal | `Integer.toString` / `Integer.parseInt` on ASCII digits |
| data.dfy | Data | `Hero`, `ConcreteHero`, `RandomHero`, `Team`, `TeamInfo`, `MatchSummary`, `AccountInfo`, `ServerStats`, the error and cause enums |
| msgids.dfy | MsgIds | the two message-tag enums and their names |
| msgwriter.dfy | MsgWriting | class `MsgWriter` and the field lists of each typed writer |
| msgreader.dfy | MsgReading | class `MsgReader` and the reading functions it is proved against |
| codec.dfy | Codec | round trips of the composite writers and readers |
| messages.dfy | Messages | requests and notices as datatypes, `MessengerBase.sendMessage` as a queue |
| servermessenger.dfy | ServerMessaging | class `ServerMessenger` (client side: sends requests, decodes notices) |
| clientmessenger.dfy | ClientMessaging | class `ClientMessenger` (server side: decodes requests, sends notices) |
| protocol.dfy | Protocol | the request and notice round trips between the two messengers |
| account.dfy | Accounts | classes `Account` and `AccountManager`, the account-file line format |
| matchmaker.dfy | Matchmaking | class `Matchmaker` |
| matchfound.dfy | MatchFinding | class `MatchFound` |
| lobby.dfy | Lobbies | class `Lobby`, team balancing, hero reservation, `playMatch` |
| serverstate.dfy | ServerState | the server's world of sessions and objects, its invariant |
| serverloops.dfy | ServerLoops | the server's loops over groups of players |
| netserver.dfy | Server | class `NetServer` and its handlers |
| teamstate.dfy | TeamStates | class `TeamState` |
| netclient.dfy | Client | class `NetClient` and the client's transition functions |

Objects whose fields the source updates in place are classes with
`modifies` frames (`Matchmaker`, `MatchFound`, `Lobby`, `MsgWriter`,
`MsgReader`, the messengers, `Account`, `AccountManager`, `TeamState`,
`NetClient`, `NetServer`). Each method is proved against a specification
function, and the properties the source promises are proved as lemmas
about those functions. Inside `NetServer` the per-client records, the
`MatchFound` and `Lobby` objects, the account directory and the scheduled
timer tasks are kept as maps of values (a `World`). The server's `Matchmaker`
stays an object. Every handler ensures the new `World` in terms of the
old one and the notices it sent (a `seq<Delivery>` standing in for the
`send*` calls), and keeps the server invariant `ServerInv`. Several
handlers return a ghost boolean that carries their postcondition
predicate (`ensures done && done == P(...)`), which keeps the solver's
work small.

Timers are events: a handler such as `OnFailedToAcceptMatch` is the timer
task, and `cancelTimer` sets a flag. The random draws of `playMatch` and of
the rank changes are parameters. Integer ranks are `int`; the stored
double rank is a `real`.

## Model

| member | source | states |
|---|---|---|
| Validation.ValidUsernameIsField | sd-1718/projects/common/src/mm/common/util/Validation.java:14-20 | a valid username (4–20 ASCII letters or digits) is a non-empty field with no ':' |
| Validation.PasswordMayContainColon | sd-1718/projects/common/src/mm/common/util/Validation.java:22-28 | isValidPassword admits a password holding ':' |
| Validation.ValidateUsername | sd-1718/projects/common/src/mm/common/util/Validation.java:40-46 | returns the argument unchanged iff it is a valid username, else IllegalArgumentException |
| Validation.ValidatePassword | sd-1718/projects/common/src/mm/common/util/Validation.java:48-54 | returns the argument unchanged iff it is a valid password, else IllegalArgumentException |
| Validation.ValidateChatMessage | sd-1718/projects/common/src/mm/common/util/Validation.java:56-66 | returns the argument unchanged iff it is non-empty with no '\r' or '\n', else IllegalArgumentException |
| Validation.ValidateCount | sd-1718/projects/common/src/mm/common/util/Validation.java:68-74 | accepts exactly the non-negative counts |
| Validation.ValidateIntegerRank | sd-1718/projects/common/src/mm/common/util/Validation.java:84-90 | accepts exactly [MIN_RANK, MAX_RANK] |
| Validation.ValidateDoubleRank | sd-1718/projects/common/src/mm/common/util/Validation.java:92-98 | accepts exactly the reals in [MIN_RANK, MAX_RANK] |
| Validation.ValidatePlayerIndex | sd-1718/projects/common/src/mm/common/util/Validation.java:100-110 | accepts exactly [0, TEAM_SIZE) |
| Decimal.IntToStringParses | sd-1718/projects/common/src/mm/common/net/MsgReader.java:120-128 | parseInt(toString(n)) == n for every 32-bit n, so every int the writers print is read back |
| Decimal.NonNumericFails | sd-1718/projects/common/src/mm/common/data/Hero.java:33-42 | a text with a character that is neither a digit nor a sign is never a number |
| Decimal.ParseInt | sd-1718/projects/common/src/mm/common/net/MsgReader.java:120-128 | every number read fits in 32 bits; every failure is NumberFormatException; the empty text fails (which texts parse is stated by IntToStringParses and NonNumericFails) |
| Data.TeamFromIndex | sd-1718/projects/common/src/mm/common/data/Team.java:47-58 | 0 is BLUE, 1 is RED, any other index IllegalArgumentException |
| Data.TeamIndexRoundTrip | sd-1718/projects/common/src/mm/common/data/Team.java:34-58 | fromIndex(getIndex(t)) == t |
| Data.OtherTeam | sd-1718/projects/common/src/mm/common/data/Team.java:66-75 | other(t) differs from t |
| Data.OtherTeamInvolutive | sd-1718/projects/common/src/mm/common/data/Team.java:66-75 | other(other(t)) == t |
| Data.NewConcreteHero | sd-1718/projects/common/src/mm/common/data/ConcreteHero.java:33-55 | accepts exactly [0, NUM_HEROES), and the hero keeps the index getIndex returns |
| Data.HeroLetter | sd-1718/projects/common/src/mm/common/data/ConcreteHero.java:17-61 | the index-th letter for a concrete hero; '?' for the random hero (RandomHero.java:16-19) |
| Data.LettersDistinct | sd-1718/projects/common/src/mm/common/data/ConcreteHero.java:17-61 | distinct concrete heroes have distinct letters |
| Data.HeroToString | sd-1718/projects/common/src/mm/common/data/ConcreteHero.java:64-67 | "random" for the random hero; always one non-empty field without ':' (that a concrete hero prints its index is HeroStringRoundTrip) |
| Data.HeroFromString | sd-1718/projects/common/src/mm/common/data/Hero.java:26-43 | "random" is the random hero; whatever is read is a valid hero; every failure is IllegalArgumentException (decimals: HeroFromDecimal, other texts: HeroFromNonNumeric) |
| Data.HeroFromDecimal | sd-1718/projects/common/src/mm/common/data/Hero.java:33-36 | fromString of a decimal int is the concrete hero with that index |
| Data.HeroFromNonNumeric | sd-1718/projects/common/src/mm/common/data/Hero.java:37-42 | a non-numeric text other than "random" throws IllegalArgumentException |
| Data.HeroStringRoundTrip | sd-1718/projects/common/src/mm/common/data/Hero.java:26-43 | fromString(h.toString()) == h for every hero |
| Data.HeroEquals | sd-1718/projects/common/src/mm/common/data/ConcreteHero.java:70-78 | true exactly for a non-null hero equal to this one: the same index for concrete heroes, any random hero for the random one (RandomHero.java:28-31) |
| Data.NewTeamInfoPlayer | sd-1718/projects/common/src/mm/common/data/TeamInfo.java:34-48 | a valid username and an integer rank, kept as given, else IllegalArgumentException |
| Data.NewTeamInfo | sd-1718/projects/common/src/mm/common/data/TeamInfo.java:64-102 | a null team throws NullPointerException, a list of another size than TEAM_SIZE IllegalArgumentException; otherwise the value holds the team and its own copy of the list |
| Data.NewSummaryPlayer | sd-1718/projects/common/src/mm/common/data/MatchSummary.java:40-78 | valid username, non-null concrete hero, non-negative kills, assists and deaths, checked in that order; the getters return the arguments |
| Data.SummaryPlayers | sd-1718/projects/common/src/mm/common/data/MatchSummary.java:126-140 | getPlayers(team) is the list given for that team |
| Data.NewAccountInfo | sd-1718/projects/common/src/mm/common/data/AccountInfo.java:37-91 | valid username, won ≥ 0, lost ≥ 0, rank in range, in that order; the getters return the arguments |
| Data.NewServerStats | sd-1718/projects/common/src/mm/common/data/ServerStats.java:35-88 | four non-negative counts, in order; the getters return the arguments |
| Data.TeamNameRoundTrip | sd-1718/projects/common/src/mm/common/net/MsgReader.java:185-200 | every Team's name is one non-empty field that valueOf reads back |
| Data.LoginErrorNameRoundTrip | sd-1718/projects/common/src/mm/common/net/MsgReader.java:140-143 | every LoginError's name is one non-empty field that valueOf reads back |
| Data.SignUpErrorNameRoundTrip | sd-1718/projects/common/src/mm/common/net/MsgReader.java:145-148 | every SignUpError's name is one non-empty field that valueOf reads back |
| Data.LeftMatchmakingCauseNameRoundTrip | sd-1718/projects/common/src/mm/common/net/MsgReader.java:150-153 | every LeftMatchmakingCause's name is one non-empty field that valueOf reads back |
| Data.LobbyCauseOfDeathNameRoundTrip | sd-1718/projects/common/src/mm/common/net/MsgReader.java:155-158 | every LobbyCauseOfDeath's name is one non-empty field that valueOf reads back |
| MsgIds.ClientMsgIdValueOf | sd-1718/projects/common/src/mm/common/net/MsgReader.java:130-133 | valueOf gives the tag of that name; an unknown name throws IllegalArgumentException |
| MsgIds.ServerMsgIdValueOf | sd-1718/projects/common/src/mm/common/net/MsgReader.java:135-138 | valueOf gives the tag of that name; an unknown name throws IllegalArgumentException |
| MsgIds.ClientMsgIdNameRoundTrip | sd-1718/projects/common/src/mm/common/net/MsgWriter.java:106-109 | every request tag written is read back as itself, as one field |
| MsgIds.ServerMsgIdNameRoundTrip | sd-1718/projects/common/src/mm/common/net/MsgWriter.java:111-114 | every notice tag written is read back as itself |
| MsgIds.ServerMsgIdNameIsField | sd-1718/projects/common/src/mm/common/net/MsgWriter.java:111-114 | every notice tag is one non-empty field with no ':' |
| MsgWriting.MsgWriter.constructor | sd-1718/projects/common/src/mm/common/net/MsgWriter.java:36-41 | an empty message, no terminal item |
| MsgWriting.MsgWriter.WriteString | sd-1718/projects/common/src/mm/common/net/MsgWriter.java:58-67 | refused (IllegalStateException, nothing written) after a terminal item; otherwise the field after a ':' unless the message is empty |
| MsgWriting.MsgWriter.WriteTerminalString | sd-1718/projects/common/src/mm/common/net/MsgWriter.java:69-74 | writeString, then no further field is accepted |
| MsgWriting.MsgWriter.WriteUsername | sd-1718/projects/common/src/mm/common/net/MsgWriter.java:76-79 | an invalid username throws and nothing is written |
| MsgWriting.MsgWriter.WritePassword | sd-1718/projects/common/src/mm/common/net/MsgWriter.java:81-84 | an invalid password throws and nothing is written; otherwise a terminal field |
| MsgWriting.MsgWriter.WriteChatMessage | sd-1718/projects/common/src/mm/common/net/MsgWriter.java:86-89 | an invalid chat text throws and nothing is written; otherwise a terminal field |
| MsgWriting.MsgWriter.WriteIntegerRank | sd-1718/projects/common/src/mm/common/net/MsgWriter.java:96-99 | a rank outside [MIN_RANK, MAX_RANK] throws and nothing is written; otherwise its decimal form |
| MsgWriting.MsgWriter.WritePlayerIndex | sd-1718/projects/common/src/mm/common/net/MsgWriter.java:101-104 | an index outside [0, TEAM_SIZE) throws and nothing is written |
| MsgWriting.MsgWriter.WriteServerStats | sd-1718/projects/common/src/mm/common/net/MsgWriter.java:141-147 | the four counts, in order |
| MsgWriting.MsgWriter.WriteAccountInfo | sd-1718/projects/common/src/mm/common/net/MsgWriter.java:149-155 | the username, won, lost and the rank |
| MsgWriting.MsgWriter.WriteTeamInfo | sd-1718/projects/common/src/mm/common/net/MsgWriter.java:157-166 | the team, then each player's username and rank in list order |
| MsgWriting.MsgWriter.WriteMatchSummary | sd-1718/projects/common/src/mm/common/net/MsgWriter.java:168-189 | the winner, then BLUE's players, then RED's, five fields each |
| MsgWriting.MsgWriter.WriteSummaryPlayers | sd-1718/projects/common/src/mm/common/net/MsgWriter.java:175-188 | one team's loop: five fields per player, in list order |
| MsgWriting.AppendAllIsMsg | sd-1718/projects/common/src/mm/common/net/MsgWriter.java:58-67 | fields written into an empty writer, the first non-empty, make the fields joined by ':' |
| MsgWriting.ReadFieldMsg | sd-1718/projects/common/src/mm/common/net/MsgReader.java:63-86 | readString on a joined message yields its first field and leaves the rest joined |
| MsgWriting.ReadFieldsMsg | sd-1718/projects/common/src/mm/common/net/MsgReader.java:63-86 | reading as many plain fields as A holds from the message of A + B yields A and leaves the message of B |
| MsgWriting.WriteReadRoundTrip | sd-1718/projects/common/src/mm/common/net/MsgWriter.java:58-67 | fields written, first and last non-empty and none holding ':', are read back one readString each and the reader ends empty |
| MsgWriting.WriteReadTerminalRoundTrip | sd-1718/projects/common/src/mm/common/net/MsgWriter.java:69-74 | the same with a terminal last field, which may hold ':', read back whole by readTerminalString |
| MsgReading.FirstColonIsFirst | sd-1718/projects/common/src/mm/common/net/MsgReader.java:70-71 | indexOf(':') finds the first ':' or reports none |
| MsgReading.ReadField | sd-1718/projects/common/src/mm/common/net/MsgReader.java:63-86 | an empty remainder throws "message exhausted"; otherwise the text up to the first ':' |
| MsgReading.ReadFieldSplits | sd-1718/projects/common/src/mm/common/net/MsgReader.java:63-86 | the field is colon-free, the remainder strictly shorter; with no ':' the whole text and an empty remainder, otherwise a split around the first ':' |
| MsgReading.ReadFieldOf | sd-1718/projects/common/src/mm/common/net/MsgReader.java:78-85 | a colon-free field followed by ':' is read back whole |
| MsgReading.ReadTerminalField | sd-1718/projects/common/src/mm/common/net/MsgReader.java:88-98 | the whole non-empty remainder, colons included, leaving nothing |
| MsgReading.ReadSeqFailure | sd-1718/projects/common/src/mm/common/net/MsgReader.java:185-225 | once one step of a composite reader's loop fails, the whole read fails with that exception |
| MsgReading.ReadTeamInfoField | sd-1718/projects/common/src/mm/common/net/MsgReader.java:185-200 | a TeamInfo read always has exactly TEAM_SIZE players (that it is the one written is Codec.ReadTeamInfoMsg) |
| MsgReading.ReadServerStatsField | sd-1718/projects/common/src/mm/common/net/MsgReader.java:165-173 | statistics read always pass the ServerStats checks |
| MsgReading.ReadAccountInfoField | sd-1718/projects/common/src/mm/common/net/MsgReader.java:175-183 | account data read always pass the AccountInfo checks |
| MsgReading.ReadHeroField | sd-1718/projects/common/src/mm/common/net/MsgReader.java:160-163 | a hero read is always a valid hero |
| MsgReading.ReadUsernameField | sd-1718/projects/common/src/mm/common/net/MsgReader.java:100-103 | a username read is always valid |
| MsgReading.ReadPasswordField | sd-1718/projects/common/src/mm/common/net/MsgReader.java:105-108 | the terminal remainder, refused unless a valid password |
| MsgReading.ReadChatMessageField | sd-1718/projects/common/src/mm/common/net/MsgReader.java:110-113 | the terminal remainder, refused unless a valid chat text |
| MsgReading.ReadIntegerRankField | sd-1718/projects/common/src/mm/common/net/MsgReader.java:120-123 | an int field outside [MIN_RANK, MAX_RANK] is refused |
| MsgReading.ReadPlayerIndexField | sd-1718/projects/common/src/mm/common/net/MsgReader.java:125-128 | an int field outside [0, TEAM_SIZE) is refused |
| MsgReading.MsgReader.constructor | sd-1718/projects/common/src/mm/common/net/MsgReader.java:44-47 | the whole message remains |
| MsgReading.MsgReader.ReadString | sd-1718/projects/common/src/mm/common/net/MsgReader.java:63-86 | result and new remainder are those ReadField gives; a failure leaves the remainder |
| MsgReading.MsgReader.ReadTerminalString | sd-1718/projects/common/src/mm/common/net/MsgReader.java:88-98 | result and new remainder are those ReadTerminalField gives |
| MsgReading.MsgReader.ReadInt | sd-1718/projects/common/src/mm/common/net/MsgReader.java:120-128 | Integer.valueOf of the next field |
| MsgReading.MsgReader.ReadUsername | sd-1718/projects/common/src/mm/common/net/MsgReader.java:100-103 | as ReadUsernameField |
| MsgReading.MsgReader.ReadPassword | sd-1718/projects/common/src/mm/common/net/MsgReader.java:105-108 | as ReadPasswordField |
| MsgReading.MsgReader.ReadChatMessage | sd-1718/projects/common/src/mm/common/net/MsgReader.java:110-113 | as ReadChatMessageField |
| MsgReading.MsgReader.ReadIntegerRank | sd-1718/projects/common/src/mm/common/net/MsgReader.java:120-123 | as ReadIntegerRankField |
| MsgReading.MsgReader.ReadPlayerIndex | sd-1718/projects/common/src/mm/common/net/MsgReader.java:125-128 | as ReadPlayerIndexField |
| MsgReading.MsgReader.ReadClientToServerMsgId | sd-1718/projects/common/src/mm/common/net/MsgReader.java:130-133 | valueOf of the next field |
| MsgReading.MsgReader.ReadServerToClientMsgId | sd-1718/projects/common/src/mm/common/net/MsgReader.java:135-138 | valueOf of the next field |
| MsgReading.MsgReader.ReadLoginError | sd-1718/projects/common/src/mm/common/net/MsgReader.java:140-143 | valueOf of the next field |
| MsgReading.MsgReader.ReadSignUpError | sd-1718/projects/common/src/mm/common/net/MsgReader.java:145-148 | valueOf of the next field |
| MsgReading.MsgReader.ReadLeftMatchmakingCause | sd-1718/projects/common/src/mm/common/net/MsgReader.java:150-153 | valueOf of the next field |
| MsgReading.MsgReader.ReadLobbyCauseOfDeath | sd-1718/projects/common/src/mm/common/net/MsgReader.java:155-158 | valueOf of the next field |
| MsgReading.MsgReader.ReadHero | sd-1718/projects/common/src/mm/common/net/MsgReader.java:160-163 | as ReadHeroField |
| MsgReading.MsgReader.ReadServerStats | sd-1718/projects/common/src/mm/common/net/MsgReader.java:165-173 | as ReadServerStatsField |
| MsgReading.MsgReader.ReadAccountInfo | sd-1718/projects/common/src/mm/common/net/MsgReader.java:175-183 | as ReadAccountInfoField |
| MsgReading.MsgReader.ReadTeamInfo | sd-1718/projects/common/src/mm/common/net/MsgReader.java:185-200 | as ReadTeamInfoField, the loop proved against ReadSeq |
| MsgReading.MsgReader.ReadMatchSummary | sd-1718/projects/common/src/mm/common/net/MsgReader.java:202-225 | the winner, TEAM_SIZE groups for BLUE, TEAM_SIZE for RED, as ReadMatchSummaryField |
| Codec.ReadAccountInfoMsg | sd-1718/projects/common/src/mm/common/net/MsgReader.java:175-183 | readAccountInfo reads back what writeAccountInfo wrote (MsgWriter.java:149-155) |
| Codec.ReadServerStatsMsg | sd-1718/projects/common/src/mm/common/net/MsgReader.java:165-173 | readServerStats reads back writeServerStats (MsgWriter.java:141-147) |
| Codec.ReadTeamPlayersMsg | sd-1718/projects/common/src/mm/common/net/MsgReader.java:190-197 | readTeamInfo's loop gives back the players writeTeamInfo's loop wrote, in order |
| Codec.ReadTeamInfoMsg | sd-1718/projects/common/src/mm/common/net/MsgReader.java:185-200 | readTeamInfo reads back writeTeamInfo (MsgWriter.java:157-166) |
| Codec.ReadSummaryPlayersMsg | sd-1718/projects/common/src/mm/common/net/MsgReader.java:210-222 | one team's loop of readMatchSummary gives back the players, in order |
| Codec.ReadMatchSummaryMsg | sd-1718/projects/common/src/mm/common/net/MsgReader.java:202-225 | readMatchSummary reads back writeMatchSummary (MsgWriter.java:168-189) |
| Messages.RequestsAreSendable | sd-1718/projects/common/src/mm/common/net/MessengerBase.java:294-309 | every request with valid arguments passes sendMessage's check |
| Messages.MessengerBase.SendMessage | sd-1718/projects/common/src/mm/common/net/MessengerBase.java:294-309 | an empty message or one holding '\r' throws and queues nothing; otherwise the message is queued iff the messenger is connected (isConnected, line 307) |
| Messages.MessengerBase.Disconnect | sd-1718/projects/common/src/mm/common/net/MessengerBase.java:194-233 | the disconnect request is recorded iff the socket is still there (line 218); the queue and the connection flag stay, as the close is asynchronous |
| Messages.MessengerBase.ConnectionLost | sd-1718/projects/common/src/mm/common/net/MessengerBase.java:69-88 | once both threads have ended the socket is null: the messenger is disconnected, queue and disconnect request as they were |
| Messages.StartMessage | sd-1718/projects/server/src/mm/server/net/ClientMessenger.java:151-162 | every send* begins with a fresh writer holding the tag |
| Messages.DeliverMessage | sd-1718/projects/server/src/mm/server/net/ClientMessenger.java:151-162 | every send* ends by handing the writer's message to sendMessage |
| ServerMessaging.ParseNotice | sd-1718/projects/client-common/src/mm/client/common/net/ServerMessenger.java:51-185 | the tag, that tag's arguments, and the text left unread |
| ServerMessaging.ServerMessenger.OnMessageReceived | sd-1718/projects/client-common/src/mm/client/common/net/ServerMessenger.java:51-185 | a decoded notice is dispatched; only then is unread text refused with RuntimeException; a decoding failure dispatches nothing |
| ServerMessaging.ServerMessenger.SendLogin | sd-1718/projects/client-common/src/mm/client/common/net/ServerMessenger.java:198-207 | LOGIN:username:password, password terminal; invalid credentials throw and queue nothing |
| ServerMessaging.ServerMessenger.SendSignUp | sd-1718/projects/client-common/src/mm/client/common/net/ServerMessenger.java:218-227 | SIGN_UP:username:password, password terminal |
| ServerMessaging.ServerMessenger.SendLogout | sd-1718/projects/client-common/src/mm/client/common/net/ServerMessenger.java:232-239 | the tag alone |
| ServerMessaging.ServerMessenger.SendJoinMatchmaking | sd-1718/projects/client-common/src/mm/client/common/net/ServerMessenger.java:244-251 | the tag alone |
| ServerMessaging.ServerMessenger.SendLeaveMatchmaking | sd-1718/projects/client-common/src/mm/client/common/net/ServerMessenger.java:256-263 | the tag alone |
| ServerMessaging.ServerMessenger.SendAcceptMatch | sd-1718/projects/client-common/src/mm/client/common/net/ServerMessenger.java:268-275 | the tag alone |
| ServerMessaging.ServerMessenger.SendDeclineMatch | sd-1718/projects/client-common/src/mm/client/common/net/ServerMessenger.java:280-287 | the tag alone |
| ServerMessaging.ServerMessenger.SendSelectHero | sd-1718/projects/client-common/src/mm/client/common/net/ServerMessenger.java:296-304 | SELECT_HERO:<index or random> |
| ServerMessaging.ServerMessenger.SendChatMessage | sd-1718/projects/client-common/src/mm/client/common/net/ServerMessenger.java:315-323 | an invalid text throws and queues nothing; otherwise the text as terminal field |
| ServerMessaging.ServerMessenger.SendLeaveLobby | sd-1718/projects/client-common/src/mm/client/common/net/ServerMessenger.java:328-335 | the tag alone |
| ServerMessaging.ServerMessenger.SendRequest | sd-1718/projects/client-common/src/mm/client/common/net/ServerMessenger.java:198-335 | the send* method of a request: it passes iff the request's arguments are valid, and then queues the request's message on a connected messenger |
| ClientMessaging.ParseRequest | sd-1718/projects/server/src/mm/server/net/ClientMessenger.java:51-138 | the tag (unknown names throw), that tag's validated arguments, and the text left unread |
| ClientMessaging.ClientMessenger.OnMessageReceived | sd-1718/projects/server/src/mm/server/net/ClientMessenger.java:51-138 | a decoded request is dispatched; only then is unread text refused with RuntimeException |
| ClientMessaging.ClientMessenger.SendLoginSucceeded | sd-1718/projects/server/src/mm/server/net/ClientMessenger.java:151-162 | the tag, four account fields, four stats fields |
| ClientMessaging.ClientMessenger.SendLoginFailed | sd-1718/projects/server/src/mm/server/net/ClientMessenger.java:172-180 | the tag and the error's name |
| ClientMessaging.ClientMessenger.SendSignUpFailed | sd-1718/projects/server/src/mm/server/net/ClientMessenger.java:190-198 | the tag and the error's name |
| ClientMessaging.ClientMessenger.SendLogoutSucceeded | sd-1718/projects/server/src/mm/server/net/ClientMessenger.java:204-211 | the tag alone |
| ClientMessaging.ClientMessenger.SendServerStats | sd-1718/projects/server/src/mm/server/net/ClientMessenger.java:220-228 | the tag and four counts |
| ClientMessaging.ClientMessenger.SendJoinedMatchmaking | sd-1718/projects/server/src/mm/server/net/ClientMessenger.java:234-241 | the tag alone |
| ClientMessaging.ClientMessenger.SendLeftMatchmaking | sd-1718/projects/server/src/mm/server/net/ClientMessenger.java:251-259 | the tag and the cause's name |
| ClientMessaging.ClientMessenger.SendMatchFound | sd-1718/projects/server/src/mm/server/net/ClientMessenger.java:270-278 | the tag and the duration's field |
| ClientMessaging.ClientMessenger.SendMatchCanceled | sd-1718/projects/server/src/mm/server/net/ClientMessenger.java:284-291 | the tag alone |
| ClientMessaging.ClientMessenger.SendPlayerAcceptedMatch | sd-1718/projects/server/src/mm/server/net/ClientMessenger.java:297-304 | the tag alone |
| ClientMessaging.ClientMessenger.SendJoinedLobby | sd-1718/projects/server/src/mm/server/net/ClientMessenger.java:316-325 | the tag, the team info, the duration |
| ClientMessaging.ClientMessenger.SendLobbyDied | sd-1718/projects/server/src/mm/server/net/ClientMessenger.java:333-341 | the tag and the cause's name |
| ClientMessaging.ClientMessenger.SendPlayerSelectedHero | sd-1718/projects/server/src/mm/server/net/ClientMessenger.java:353-362 | a validated index, then the hero; an invalid index throws and queues nothing |
| ClientMessaging.ClientMessenger.SendChatMessage | sd-1718/projects/server/src/mm/server/net/ClientMessenger.java:375-384 | a validated index, then the validated text as terminal field |
| ClientMessaging.ClientMessenger.SendMatchPlayed | sd-1718/projects/server/src/mm/server/net/ClientMessenger.java:396-405 | the summary, then the validated rank; a rank out of range throws and queues nothing |
| Protocol.RequestRoundTrip | sd-1718/projects/client-common/src/mm/client/common/net/ServerMessenger.java:198-335 | every request a send* method accepts is decoded by onMessageReceived (ClientMessenger.java:51-138) to the same request, leaving nothing unread |
| Protocol.NoticeRoundTrip | sd-1718/projects/server/src/mm/server/net/ClientMessenger.java:151-405 | every valid notice sent is decoded by the client's onMessageReceived (ServerMessenger.java:51-185) to the same notice, leaving nothing unread |
| Protocol.LoginSucceededRoundTrip | sd-1718/projects/client-common/src/mm/client/common/net/ServerMessenger.java:59-66 | LOGIN_SUCCEEDED carries four account fields, then four stats fields, read back as such |
| Protocol.ChatReceivedRoundTrip | sd-1718/projects/client-common/src/mm/client/common/net/ServerMessenger.java:160-166 | CHAT_MESSAGE carries an index, then the text read as the terminal remainder |
| Protocol.MatchPlayedRoundTrip | sd-1718/projects/client-common/src/mm/client/common/net/ServerMessenger.java:169-177 | MATCH_PLAYED carries the summary, then the new rank |
| Protocol.ChatWithLineFeedAccepted | sd-1718/projects/client-common/src/mm/client/common/net/ServerMessenger.java:160-166 | the client reader takes a chat text the server's sender would refuse, because no chat-pattern check is made |
| Accounts.RoundRank | sd-1718/projects/server/src/mm/server/auth/Account.java:72-75 | Math.round of an in-range rank: the nearest integer, halves upwards, itself in range |
| Accounts.Account.constructor | sd-1718/projects/server/src/mm/server/auth/Account.java:30-43 | the fields as given |
| Accounts.Account.IntegerRank | sd-1718/projects/server/src/mm/server/auth/Account.java:72-75 | the rounded rank, within [MIN_RANK, MAX_RANK] |
| Accounts.Account.GetAccountInfo | sd-1718/projects/server/src/mm/server/auth/Account.java:77-85 | the username, both counts and the integer rank |
| Accounts.Account.IncrementNumWonMatches | sd-1718/projects/server/src/mm/server/auth/Account.java:89-92 | one more win, nothing else changes |
| Accounts.Account.IncrementNumLostMatches | sd-1718/projects/server/src/mm/server/auth/Account.java:94-97 | one more loss, nothing else changes |
| Accounts.Account.SetDoubleRank | sd-1718/projects/server/src/mm/server/auth/Account.java:99-102 | a rank outside the range throws and the old rank stays |
| Accounts.NewAccount | sd-1718/projects/server/src/mm/server/auth/Account.java:30-43 | a failed username, password, count or rank check throws IllegalArgumentException |
| Accounts.NewPlayerAccount | sd-1718/projects/server/src/mm/server/auth/Account.java:25-28 | no wins, no losses, rank INITIAL_RANK |
| Accounts.JavaSplit | sd-1718/projects/server/src/mm/server/auth/Account.java:110 | String.split(":") of a text without ':' is the text itself (JoinSplit: the pieces joined by ':' give the text back) |
| Accounts.JoinSplit | sd-1718/projects/server/src/mm/server/auth/Account.java:110 | joining the pieces with ':' gives the text back |
| Accounts.FromString | sd-1718/projects/server/src/mm/server/auth/Account.java:106-132 | a line of other than five parts throws; otherwise the counts parsed and the constructor's checks made |
| Accounts.FromStringOfColonFreeLine | sd-1718/projects/server/src/mm/server/auth/Account.java:106-144 | a line toString writes, password without ':', is read back |
| Accounts.FromStringRejectsColonPassword | sd-1718/projects/server/src/mm/server/auth/Account.java:110-113 | a valid account whose password holds ':' is written as a line fromString refuses |
| Accounts.FromStringCorrected | sd-1718/projects/server/src/mm/server/auth/Account.java:106-132 | the intended reading: username first, counts and rank last, the password everything between |
| Accounts.FromStringCorrectedRoundTrip | sd-1718/projects/server/src/mm/server/auth/Account.java:106-144 | every valid account line is read back whole, whatever its password holds |
| Accounts.LoginRefusal | sd-1718/projects/server/src/mm/server/auth/AccountManager.java:89-109 | INVALID_USERNAME, INVALID_PASSWORD, USERNAME_DOESNT_EXIST, WRONG_PASSWORD, first failing one wins |
| Accounts.RegisterRefusal | sd-1718/projects/server/src/mm/server/auth/AccountManager.java:116-129 | INVALID_USERNAME, INVALID_PASSWORD, USERNAME_EXISTS, first failing one wins |
| Accounts.AccountManager.constructor | sd-1718/projects/server/src/mm/server/auth/AccountManager.java:28-31 | no accounts |
| Accounts.AccountManager.NumAccounts | sd-1718/projects/server/src/mm/server/auth/AccountManager.java:58-61 | the number of filed accounts |
| Accounts.AccountManager.Login | sd-1718/projects/server/src/mm/server/auth/AccountManager.java:89-114 | the first failing check, otherwise the stored account itself; nothing changes |
| Accounts.AccountManager.Register | sd-1718/projects/server/src/mm/server/auth/AccountManager.java:116-140 | a refusal leaves the directory; otherwise exactly one new account, the count grows by one, and a login with the same credentials returns it |
| Matchmaking.BucketIndices | sd-1718/projects/server/src/mm/server/game/Matchmaker.java:26-42 | MIN_RANK gives bucket 0 only, MAX_RANK the last bucket only, any other r the buckets r−1 and r, lower first |
| Matchmaking.CoveringBucketsAreAdjacent | sd-1718/projects/server/src/mm/server/game/Matchmaker.java:26-42 | a player waiting in bucket b waits only in b and its neighbours |
| Matchmaking.SomeBucketCovers | sd-1718/projects/server/src/mm/server/game/Matchmaker.java:26-42 | every rank in range has a bucket |
| Matchmaking.CountIsDistinctNames | sd-1718/projects/server/src/mm/server/game/Matchmaker.java:111-149 | under the invariant, playerCount is the number of distinct names in the buckets |
| Matchmaking.InsertKeepsInv | sd-1718/projects/server/src/mm/server/game/Matchmaker.java:111-121 | with no bucket filling, the player is in exactly its buckets and the count grows by one |
| Matchmaking.DrainKeepsInv | sd-1718/projects/server/src/mm/server/game/Matchmaker.java:124-149 | draining the filled bucket takes its names out of every bucket and the count down by LOBBY_SIZE |
| Matchmaking.RemoveKeepsInv | sd-1718/projects/server/src/mm/server/game/Matchmaker.java:167-187 | removing a waiting player keeps the invariant, count one less |
| Matchmaking.RemoveFromBuckets | sd-1718/projects/server/src/mm/server/game/Matchmaker.java:167-187 | removal from the rank's buckets removes from every bucket; the name was in one of them iff it was waiting |
| Matchmaking.Matchmaker.constructor | sd-1718/projects/server/src/mm/server/game/Matchmaker.java:52-60 | NUM_BUCKETS empty buckets, count zero |
| Matchmaking.Matchmaker.PlayerCount | sd-1718/projects/server/src/mm/server/game/Matchmaker.java:69-72 | the number of waiting players |
| Matchmaking.Matchmaker.AddPlayer | sd-1718/projects/server/src/mm/server/game/Matchmaker.java:89-155 | invalid arguments throw IllegalArgumentException and a player already waiting IllegalStateException, changing nothing; otherwise null with the player waiting, or the first filled bucket's LOBBY_SIZE names, which leave every bucket; no later bucket receives the player |
| Matchmaking.Matchmaker.FillBuckets | sd-1718/projects/server/src/mm/server/game/Matchmaker.java:114-150 | the insertion loop stops at the first bucket that fills |
| Matchmaking.Matchmaker.DrainBucket | sd-1718/projects/server/src/mm/server/game/Matchmaker.java:124-149 | the names leave both neighbours, a copy is taken, the bucket is cleared and the count drops by LOBBY_SIZE |
| Matchmaking.Matchmaker.RemovePlayer | sd-1718/projects/server/src/mm/server/game/Matchmaker.java:167-187 | invalid arguments throw; a player in none of its buckets IllegalStateException; otherwise the name leaves its buckets and the count drops by one |
| MatchFinding.Accepted | sd-1718/projects/server/src/mm/server/game/MatchFound.java:81-90 | exactly the players whose flag is set |
| MatchFinding.NotAccepted | sd-1718/projects/server/src/mm/server/game/MatchFound.java:92-101 | exactly the players whose flag is clear |
| MatchFinding.AcceptedPartition | sd-1718/projects/server/src/mm/server/game/MatchFound.java:76-101 | the two sets partition getPlayerUsernames |
| MatchFinding.AllAcceptedIffFull | sd-1718/projects/server/src/mm/server/game/MatchFound.java:122-131 | everyone has accepted iff the accepted set has the group's size |
| MatchFinding.AcceptOne | sd-1718/projects/server/src/mm/server/game/MatchFound.java:124-128 | setting a clear flag grows the accepted set by exactly that player |
| MatchFinding.MatchFound.constructor | sd-1718/projects/server/src/mm/server/game/MatchFound.java:51-58 | every flag clear, counter 0, timer not canceled |
| MatchFinding.MatchFound.PlayerAcceptedMatch | sd-1718/projects/server/src/mm/server/game/MatchFound.java:108-111 | the player's flag, nothing changed; a player outside the group is a NullPointerException |
| MatchFinding.MatchFound.AcceptMatch | sd-1718/projects/server/src/mm/server/game/MatchFound.java:122-131 | a player of the group always gets a result and its flag set; idempotent; the counter stays the number of set flags; true iff all LOBBY_SIZE players have accepted |
| MatchFinding.MatchFound.CancelTimer | sd-1718/projects/server/src/mm/server/game/MatchFound.java:146-150 | the flag is set; nothing clears it (TimerWasCanceled, 103-106) |
| MatchFinding.NewMatchFound | sd-1718/projects/server/src/mm/server/game/MatchFound.java:42-66 | a group of another size than LOBBY_SIZE throws IllegalArgumentException |
| Lobbies.NewLobbyPlayer | sd-1718/projects/server/src/mm/server/game/Lobby.java:64-70 | valid username and integer rank, no hero yet |
| Lobbies.SortByRankPermutes | sd-1718/projects/server/src/mm/server/game/Lobby.java:90-93 | the sort is a permutation |
| Lobbies.SortByRankSorted | sd-1718/projects/server/src/mm/server/game/Lobby.java:90-93 | the sort is ascending by rank |
| Lobbies.SortByRankStable | sd-1718/projects/server/src/mm/server/game/Lobby.java:90-93 | players of equal rank keep their input order |
| Lobbies.SortByRankOfSorted | sd-1718/projects/server/src/mm/server/game/Lobby.java:90-93 | an input already sorted is unchanged |
| Lobbies.CreateBalancedTeams | sd-1718/projects/server/src/mm/server/game/Lobby.java:85-106 | rank order dealt alternately starting with RED; the two teams together are a permutation of the input |
| Lobbies.DealtBalanced | sd-1718/projects/server/src/mm/server/game/Lobby.java:95-104 | Red gets positions 0, 2, 4, … and Blue 1, 3, 5, … of the sorted order |
| Lobbies.LowestRankFirst | sd-1718/projects/server/src/mm/server/game/Lobby.java:95-104 | the lowest-ranked player goes to Red |
| Lobbies.Select | sd-1718/projects/server/src/mm/server/game/Lobby.java:250-279 | trySelectHero as intended: a rejection changes nothing |
| Lobbies.SelectAgreesWithAsWritten | sd-1718/projects/server/src/mm/server/game/Lobby.java:255-278 | the two agree on every accepted pick |
| Lobbies.SelectAccepts | sd-1718/projects/server/src/mm/server/game/Lobby.java:266-278 | a random hero is never rejected and reserves nothing; reselecting one's own hero succeeds |
| Lobbies.SelectKeepsConsistent | sd-1718/projects/server/src/mm/server/game/Lobby.java:255-278 | the intended selection keeps reserved == held, all distinct |
| Lobbies.SelectAsWrittenKeepsReservedHeld | sd-1718/projects/server/src/mm/server/game/Lobby.java:255-278 | as written, every reserved index stays held by some slot |
| Lobbies.SelectAsWrittenDuplicates | sd-1718/projects/server/src/mm/server/game/Lobby.java:259-271 | as written, a rejected pick and a later one leave two slots with the same hero |
| Lobbies.SelectNeverDuplicates | sd-1718/projects/server/src/mm/server/game/Lobby.java:259-271 | the intended selection keeps the heroes distinct |
| Lobbies.PlayTeamIsPlayed | sd-1718/projects/server/src/mm/server/game/Lobby.java:212-229 | each player kept in order, concrete picks kept, random ones drawn in [0, NUM_HEROES), kills and deaths in [0, 30], assists in [0, 10] |
| Lobbies.Play | sd-1718/projects/server/src/mm/server/game/Lobby.java:208-247 | the winner from its draw; Blue's and Red's summaries in team order |
| Lobbies.PlayerIndex | sd-1718/projects/server/src/mm/server/game/Lobby.java:180-191 | the position in Blue, else in Red; in neither, IllegalArgumentException |
| Lobbies.TeamInfoFor | sd-1718/projects/server/src/mm/server/game/Lobby.java:167-177 | each player's username and rank, in team order |
| Lobbies.Lobby.constructor | sd-1718/projects/server/src/mm/server/game/Lobby.java:121-144 | balanced teams, nothing reserved, timer not canceled |
| Lobbies.Lobby.TeamPlayerUsernames | sd-1718/projects/server/src/mm/server/game/Lobby.java:157-165 | the team's usernames, in order |
| Lobbies.Lobby.AllPlayerUsernames | sd-1718/projects/server/src/mm/server/game/Lobby.java:148-155 | the usernames of both teams |
| Lobbies.Lobby.TeamInfoOf | sd-1718/projects/server/src/mm/server/game/Lobby.java:167-177 | the team's TeamInfo |
| Lobbies.Lobby.TeamPlayerIndex | sd-1718/projects/server/src/mm/server/game/Lobby.java:180-191 | as PlayerIndex on the lobby's teams |
| Lobbies.Lobby.CancelTimer | sd-1718/projects/server/src/mm/server/game/Lobby.java:294-298 | the flag is set for good |
| Lobbies.Lobby.DidEveryPlayerSelectAHero | sd-1718/projects/server/src/mm/server/game/Lobby.java:198-206 | true iff all TEAM_SIZE slots of both teams hold a hero |
| Lobbies.Lobby.TrySelectHero | sd-1718/projects/server/src/mm/server/game/Lobby.java:250-279 | an invalid index throws; otherwise the pick as SelectAsWritten, keeping every reserved index held |
| Lobbies.Lobby.PlayMatch | sd-1718/projects/server/src/mm/server/game/Lobby.java:208-247 | Play on the lobby's teams |
| ServerState.MoveKeepsInv | sd-1718/projects/server/src/mm/server/net/NetServer.java:77-89 | any allowed change of one client's record keeps the server invariant |
| ServerState.AuthInjective | sd-1718/projects/server/src/mm/server/net/NetServer.java:748-751 | two users logged in on the same client are the same user |
| Server.NetServer.constructor | sd-1718/projects/server/src/mm/server/net/NetServer.java:855-898 | no clients, an empty matchmaker, counter 0, no lobbies |
| Server.NetServer.GetStats | sd-1718/projects/server/src/mm/server/net/NetServer.java:907-915 | the registered accounts and the logged-in players (the other two fields: Server.StatsOfValid) |
| Server.StatsOfValid | sd-1718/projects/server/src/mm/server/net/NetServer.java:907-915 | under the server invariant the statistics are valid, the matchmaking count equals the matchmaker's waiting players, and there are 0 lobbies |
| Server.NetServer.Connect | sd-1718/projects/server/src/mm/server/net/NetServer.java:760-785 | a new CONNECTED client |
| Server.NetServer.OnLogin | sd-1718/projects/server/src/mm/server/net/NetServer.java:310-335 | only when CONNECTED; a refusal sends LOGIN_FAILED with the first failing check; a name already logged in ALREADY_LOGGED_IN; otherwise authenticated, IDLE, LOGIN_SUCCEEDED |
| Server.NetServer.OnSignUp | sd-1718/projects/server/src/mm/server/net/NetServer.java:338-362 | only when CONNECTED; a refusal sends SIGN_UP_FAILED; otherwise a new account, authenticated, IDLE |
| Server.NetServer.OnLogout | sd-1718/projects/server/src/mm/server/net/NetServer.java:365-378 | only when IDLE; leaves the authenticated map, CONNECTED with no account |
| Server.NetServer.AddThisPlayerToMatchmaking | sd-1718/projects/server/src/mm/server/net/NetServer.java:171-208 | counter up by one; a formed group drops it by LOBBY_SIZE and its members go MATCH_FOUND sharing one new MatchFound |
| Server.NetServer.OnJoinMatchmaking | sd-1718/projects/server/src/mm/server/net/NetServer.java:381-400 | whitelist IDLE, IN_MATCHMAKING, MATCH_FOUND; only IDLE acts |
| Server.NetServer.OnLeaveMatchmaking | sd-1718/projects/server/src/mm/server/net/NetServer.java:403-427 | only IN_MATCHMAKING acts: IDLE, out of the matchmaker, counter down by one, LEFT_MATCHMAKING (VOLUNTARY) |
| Server.NetServer.OnAcceptMatch | sd-1718/projects/server/src/mm/server/net/NetServer.java:430-520 | a repeated acceptance does nothing; the last acceptance opens a lobby and moves every member IN_LOBBY with lobby and team set and matchFound null |
| Server.OpenedSeatsPlayers | sd-1718/projects/server/src/mm/server/net/NetServer.java:441-517 | once the lobby is open every player of the match is IN_LOBBY on its balanced team with no MatchFound |
| Server.JoinedTellsEach | sd-1718/projects/server/src/mm/server/net/NetServer.java:490-512 | JOINED_LOBBY reaches each member once, with its own team's TeamInfo |
| Server.NetServer.OnDeclineMatch | sd-1718/projects/server/src/mm/server/net/NetServer.java:523-562 | only MATCH_FOUND acts: the others are requeued and sent MATCH_CANCELED; MATCH_FOUND goes to exactly the players that hold a MatchFound formed meanwhile; the decliner goes IDLE with LEFT_MATCHMAKING (DECLINED_MATCH) |
| Server.NetServer.OnFailedToAcceptMatch | sd-1718/projects/server/src/mm/server/net/NetServer.java:111-148 | a canceled timer does nothing; otherwise non-acceptors go IDLE with FAILED_TO_ACCEPT_MATCH, acceptors are requeued with MATCH_CANCELED, and MATCH_FOUND goes to exactly the players that hold a MatchFound formed meanwhile |
| Server.NetServer.OnFailedToSelectHeroAsWritten | sd-1718/projects/server/src/mm/server/net/NetServer.java:150-169 | the select-hero timer task as written, canceled or not: over the lobby's usernames in their Set's iteration order, each player's client goes IDLE with lobby and team null (matchFound kept) and is told LOBBY_DIED, in that order, up to the first player with no client, where it throws NullPointerException; it passes iff every player has a client; an uncanceled run passes and keeps the invariant |
| ServerLoops.UnseatUntilMissing | sd-1718/projects/server/src/mm/server/net/NetServer.java:156-167 | the forEach over the lobby's usernames: stops at the first user with no authenticated client; the users before it are changed and told, in order |
| ServerLoops.FirstMissing | sd-1718/projects/server/src/mm/server/net/NetServer.java:156-160 | the index of the first username with no authenticated client: all before it have one |
| Server.FailedToSelectAsWrittenLive | sd-1718/projects/server/src/mm/server/net/NetServer.java:150-169 | the loop reaches every player iff all are authenticated; on an uncanceled lobby it does, and the state it leaves keeps the invariant |
| Server.SeatedUnseat | sd-1718/projects/server/src/mm/server/net/NetServer.java:159-162 | on a live lobby, leaving matchFound as it was is the same as clearing it: no seated player holds a MatchFound |
| Server.FailedToSelectAsWrittenBreaksQueue | sd-1718/projects/server/src/mm/server/net/NetServer.java:150-169 | after a canceled lobby, a former player back in matchmaking whom the loop reaches is sent IDLE while the matchmaker keeps it |
| Server.NetServer.OnFailedToSelectHero | sd-1718/projects/server/src/mm/server/net/NetServer.java:150-169 | with the canceled check: a canceled timer does nothing, otherwise every player IDLE with LOBBY_DIED (PLAYER_DIDNT_SELECT_HERO) |
| Server.NetServer.OnLeaveLobby | sd-1718/projects/server/src/mm/server/net/NetServer.java:696-727 | only IN_LOBBY acts: the lobby timer is canceled and every player IDLE with LOBBY_DIED (PLAYER_LEFT) |
| Server.NetServer.OnChatMessage | sd-1718/projects/server/src/mm/server/net/NetServer.java:665-693 | only IN_LOBBY acts: each teammate, in team order, gets the text with the sender's index; nothing changes |
| Server.NetServer.OnSelectHero | sd-1718/projects/server/src/mm/server/net/NetServer.java:565-662 | the pick as trySelectHero; the team told if taken; after the last pick the accounts are scored, the lobby canceled and every player IDLE with MATCH_PLAYED and its new rank |
| Server.Scored | sd-1718/projects/server/src/mm/server/net/NetServer.java:613-634 | a winner one more win and rank min(MAX_RANK, r + d); a loser one more loss and rank max(MIN_RANK, r − d) |
| Server.RewardedAccounts | sd-1718/projects/server/src/mm/server/net/NetServer.java:599-634 | each winner scored once as a win with its slot's delta, each loser as a loss, every other account unchanged |
| Server.RewardedValid | sd-1718/projects/server/src/mm/server/net/NetServer.java:599-634 | every account stays valid |
| Server.SelectKeepsLobby | sd-1718/projects/server/src/mm/server/net/NetServer.java:580-597 | a pick keeps a valid lobby valid with the same players in the same slots |
| Server.NetServer.OnDisconnect | sd-1718/projects/server/src/mm/server/net/NetServer.java:229-307 | IN_LOBBY: the others IDLE; MATCH_FOUND: the others requeued, and MATCH_FOUND sent to exactly the players that hold a MatchFound formed meanwhile; IN_MATCHMAKING: removed, counter down; the client is gone and its authenticated entry too iff logged in |
| Server.NetServer.BroadcastStats | sd-1718/projects/server/src/mm/server/net/NetServer.java:822-838 | SERVER_STATS to exactly the clients in IDLE, IN_MATCHMAKING or MATCH_FOUND, nothing changed |
| TeamStates.TeamState.constructor | sd-1718/projects/client-common/src/mm/client/common/data/TeamState.java:25-33 | TEAM_SIZE empty slots |
| TeamStates.TeamState.GetUnselectedHeroes | sd-1718/projects/client-common/src/mm/client/common/data/TeamState.java:42-52 | the concrete heroes 0..NUM_HEROES−1 ascending, less those some slot holds |
| TeamStates.UnselectedMembers | sd-1718/projects/client-common/src/mm/client/common/data/TeamState.java:42-52 | a hero is kept iff it is listed and no slot holds it |
| TeamStates.UnselectedAscending | sd-1718/projects/client-common/src/mm/client/common/data/TeamState.java:42-52 | the result stays ascending |
| TeamStates.TeamState.GetSelectedHero | sd-1718/projects/client-common/src/mm/client/common/data/TeamState.java:54-57 | an index outside [0, TEAM_SIZE) throws |
| TeamStates.TeamState.SetSelectedHero | sd-1718/projects/client-common/src/mm/client/common/data/TeamState.java:59-62 | only the given slot changes |
| Client.AfterRequest | sd-1718/projects/client-common/src/mm/client/common/net/NetClient.java:833-995 | succeeds iff the state is the request's one and its arguments are valid; IllegalStateException or IllegalArgumentException otherwise |
| Client.Receive | sd-1718/projects/client-common/src/mm/client/common/net/NetClient.java:179-415 | succeeds iff the state is in the notice's whitelist, else IllegalStateException; keeps the client coherent |
| Client.Dropped | sd-1718/projects/client-common/src/mm/client/common/net/NetClient.java:165-176 | the client left behind is DISCONNECTED, holds no account and is coherent |
| Client.ReceiveIsDocumented | sd-1718/projects/client-common/src/mm/client/common/net/NetClient.java:62-153 | every notice moves along a transition the State documentation allows |
| Client.RequestIsDocumented | sd-1718/projects/client-common/src/mm/client/common/net/NetClient.java:62-153 | every request moves along a documented transition |
| Client.RequestsAwaitingReplyKeepState | sd-1718/projects/client-common/src/mm/client/common/net/NetClient.java:908-995 | leaveMatchmaking, acceptMatch, declineMatch, selectHero, sendChatMessage, leaveLobby never change the state |
| Client.RequestKeepsData | sd-1718/projects/client-common/src/mm/client/common/net/NetClient.java:833-995 | a request changes nothing but the state |
| Client.LoginFailedReturns | sd-1718/projects/client-common/src/mm/client/common/net/NetClient.java:197-220 | LOGIN_FAILED and SIGN_UP_FAILED return to CONNECTED |
| Client.LogoutForgets | sd-1718/projects/client-common/src/mm/client/common/net/NetClient.java:223-236 | LOGOUT_SUCCEEDED returns to CONNECTED with no account and no stats |
| Client.MatchPlayedScores | sd-1718/projects/client-common/src/mm/client/common/net/NetClient.java:389-415 | IDLE again; won + 1 iff the own team won, lost + 1 otherwise; the new rank |
| Client.SelectedHeroOneSlot | sd-1718/projects/client-common/src/mm/client/common/net/NetClient.java:356-373 | only the named slot of the team changes |
| Client.WrongStateRejected | sd-1718/projects/client-common/src/mm/client/common/net/NetClient.java:493-509 | a notice outside its whitelist throws IllegalStateException and changes nothing |
| Client.LoginThenSucceeded | sd-1718/projects/client-common/src/mm/client/common/net/NetClient.java:833-840 | login then LOGIN_SUCCEEDED ends IDLE with that account and those stats (179-194) |
| Client.NetClient.constructor | sd-1718/projects/client-common/src/mm/client/common/net/NetClient.java:516-554 | DISCONNECTED, nothing held |
| Client.NetClient.GetState | sd-1718/projects/client-common/src/mm/client/common/net/NetClient.java:563-566 | the state |
| Client.NetClient.GetAccountInfo | sd-1718/projects/client-common/src/mm/client/common/net/NetClient.java:579-591 | only while logged in, else IllegalStateException |
| Client.NetClient.GetServerStats | sd-1718/projects/client-common/src/mm/client/common/net/NetClient.java:604-616 | only while logged in |
| Client.NetClient.GetTeamInfo | sd-1718/projects/client-common/src/mm/client/common/net/NetClient.java:627-632 | only IN_LOBBY |
| Client.NetClient.GetUnselectedHeroes | sd-1718/projects/client-common/src/mm/client/common/net/NetClient.java:634-639 | only IN_LOBBY; the team's unselected heroes |
| Client.NetClient.Connect | sd-1718/projects/client-common/src/mm/client/common/net/NetClient.java:659-665 | only from DISCONNECTED; then CONNECTING |
| Client.NetClient.ConnectFailed | sd-1718/projects/client-common/src/mm/client/common/net/NetClient.java:703-727 | the flag cleared, DISCONNECTED |
| Client.NetClient.ConnectSucceeded | sd-1718/projects/client-common/src/mm/client/common/net/NetClient.java:697-754 | the messenger installed, CONNECTED; a disconnect requested while connecting is carried out, and recorded by the messenger iff it is still connected |
| Client.NetClient.Disconnect | sd-1718/projects/client-common/src/mm/client/common/net/NetClient.java:767-773 | CONNECTING: only the flag; any other state but DISCONNECTED: the messenger told, which records it iff still connected; the state stays |
| Client.NetClient.MakeRequest | sd-1718/projects/client-common/src/mm/client/common/net/NetClient.java:833-995 | the new state is AfterRequest's; the messenger's queue gains the request's message exactly when it succeeds on a connected messenger |
| Client.NetClient.OnNoticeReceived | sd-1718/projects/client-common/src/mm/client/common/net/NetClient.java:179-415 | the new client is Receive's |
| Client.NetClient.OnDisconnect | sd-1718/projects/client-common/src/mm/client/common/net/NetClient.java:165-176 | the new client is Dropped's |

## Left out

- Sockets, the reader and writer threads of `MessengerBase`, and `BlockingQueue` are not modelled. `sendMessage` appends to a queue (`MessengerBase.sent`) while `socket != null` (`MessengerBase.connected`), and a decoded message reaches its handler as a return value.
- `sendMessage` tests for '\r' twice and never for '\n' (MessengerBase.java:299). The model follows the code: a line feed passes, so a notice is not guaranteed to stay one line.
- Concurrency: every handler runs alone under the server's lock; interleavings with timer threads are modelled as separate events.
- Timers: `startTimer`, `cancelTimer` and the `Timer` threads become a `canceled` flag and a set of scheduled tasks; a task runs when its handler (`OnFailedToAcceptMatch`, `OnFailedToSelectHero`) is called. `statsTimer`, `acceptConnections`' thread and `stop` are left out; `BroadcastStats` is the timer's task.
- Randomness: the draws of `playMatch` and the rank deltas `0.8 + 0.4·nextDouble()` are parameters, constrained to their ranges.
- Floating point: the stored rank is a `real`; `Math.round` is floor(x + ½) on in-range ranks; `Account.toString`'s `%f` rank field and `Double.parseDouble` are a parameter text and a parameter function.
- Durations (`writeDuration`, `readDuration`, `validateDuration`) travel as an opaque field text; their numeric form is not modelled.
- Accounts.Account.IncrementNumWonMatches: does not model 32-bit wrap-around of the counter, because the counts are unbounded `int`.
- Accounts.Account.IncrementNumLostMatches: does not model 32-bit wrap-around of the counter, for the same reason.
- Decimal.ParseInt: accepts ASCII digits only; Java's `Integer.parseInt` also takes other Unicode decimal digits, which the model refuses.
- `AccountManager`'s file loading and saving (`Files.lines`, `Files.write`) is I/O; the manager starts empty.
- The callbacks of `NetClient` (`setOn*`, `clearCallbacks`), `waitUntilDisconnected` and the address resolution of `connect`'s connector thread are not modelled; the thread's two outcomes are the methods `ConnectFailed` and `ConnectSucceeded`.
- Client.NetClient.OnNoticeReceived: the old hero read by `onPlayerSelectedHeroReceived` only feeds a callback and is not kept.
- Server.NetServer.OnAcceptMatch: the order in which a `Set` is iterated is left open (the lobby is built from some listing of the players).
- The lobby list of `NetServer` is never appended to, so `GetStats` reports 0 lobbies as the code does.
- `Util`, the `client-gui` tree, the test client, the `Arguments` classes, the `Main` classes and the `MasterServer`/`Client` console prototype are not part of this model.

## Findings

| source | as written | input that shows it | evidently intended | confidence | as-written member | corrected member |
|---|---|---|---|---|---|---|
| sd-1718/projects/server/src/mm/server/game/Lobby.java:259-271 | the slot's old concrete index is released before the reservation test, so a rejected pick still frees it | Blue slot 0 holds hero 3, slot 1 hero 5; slot 0 asks for 5 (rejected, 3 freed); slot 2 then gets 3 | a rejected pick changes nothing | not executed | Lobbies.SelectAsWrittenDuplicates | Lobbies.SelectNeverDuplicates |
| sd-1718/projects/server/src/mm/server/auth/Account.java:110-113 | the saved line is split at every ':' and must have exactly five parts, but a valid password may hold ':' | user alice, password "abc:defg": the line splits into six parts and is refused | the password is everything between the username and the last three fields | not executed | Accounts.FromStringRejectsColonPassword | Accounts.FromStringCorrectedRoundTrip |
| sd-1718/projects/server/src/mm/server/net/NetServer.java:150-169 | the select-hero timeout does not check whether the lobby's timer was canceled | a player leaves the lobby (timer canceled) and a former teammate rejoins matchmaking before the task runs: it is sent to IDLE while still queued | the task ends at once when canceled, as onFailedToAcceptMatch does (line 115) | not executed | Server.FailedToSelectAsWrittenBreaksQueue | Server.NetServer.OnFailedToSelectHero |
