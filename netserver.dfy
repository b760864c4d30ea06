/**
 * mm.server.net.NetServer: the server's fields and the handlers of its
 * inner Client class, each run under the server's one lock.
 *
 * The fields are those of ServerState's World: the Client objects as
 * Session records under their numbers, the authenticated map, the account
 * directory as AccountState records, and the MatchFound and Lobby objects
 * as records under their numbers. The Matchmaker stays an object, used
 * through its methods.
 *
 * Each handler returns the send* calls it makes, in the order it makes
 * them. Timer expiries are events: OnFailedToAcceptMatch and
 * OnFailedToSelectHero may be called for any MatchFound or Lobby whose
 * timer task was scheduled and has not yet run (acceptTimers,
 * selectTimers), canceled or not, because Timer.cancel does not stop a
 * task that is already waiting for the lock. Random draws are parameters.
 *
 * A new Client, MatchFound or Lobby gets a number above every number in
 * use, so client numbers follow connection order.
 */
module Server {
  import opened Wrappers
  import opened Config
  import opened Validation
  import opened Data
  import opened Messages
  import opened Matchmaking
  import opened MatchFinding
  import opened Lobbies
  import opened Accounts
  import opened ServerState
  import opened ServerLoops

  /** Account.getAccountInfo of the account filed under u. */
  function InfoOf(u: string, a: AccountState): (i: AccountInfo)
    ensures IsAccount(u, a) ==> IsAccountInfo(i)
    ensures i.username == u && i.numWonMatches == a.numWonMatches && i.numLostMatches == a.numLostMatches
    ensures a.rank - 1.0 / 2.0 < i.rank as real <= a.rank + 1.0 / 2.0
  {
    AccountInfo(u, a.numWonMatches, a.numLostMatches, RoundRank(a.rank))
  }

  /** AboveAll(s, n): n is above every number of s. */
  predicate AboveAll(s: set<nat>, n: nat) {
    forall k :: k in s ==> k < n
  }

  /** Some number is above every number of a finite set. */
  lemma {:induction false} Above(s: set<nat>) returns (n: nat)
    ensures AboveAll(s, n)
    decreases |s|
  {
    if s == {} {
      n := 0;
    } else {
      var k :| k in s;
      var n' := Above(s - {k});
      n := if k < n' then n' else k + 1;
      forall j | j in s ensures j < n {
        if j != k {
          assert j in s - {k};
        }
      }
    }
  }

  /** A freshly formed MatchFound whose players were all moved to it is live. */
  lemma FormedLive(w: World, g: set<string>, m: MatchId)
    requires AuthOk(w) && forall v :: v in g ==> Has(w, v)
    requires m in w.matches && w.matches[m] == NewMatch(g) && |g| == LOBBY_SIZE
    ensures LiveMatch(w.(clients := Changed(w.clients, ClientsOf(w.clients, w.auth, g), ToMatch(m))), m)
  {
    var w' := w.(clients := Changed(w.clients, ClientsOf(w.clients, w.auth, g), ToMatch(m)));
    forall v | v in g ensures Has(w', v) && At(w', v).matchFound == Some(m) {
      assert w.auth[v] in ClientsOf(w.clients, w.auth, g);
    }
  }

  // The handlers' steps on the server state, each stated for the state
  // w' the handler leaves, so that a handler proves its invariant once.

  /** A new connection keeps the invariant. */
  lemma ConnectStep(w: World, w': World, c: ClientId)
    requires ServerInv(w, NONE) && c !in w.clients && w' == w.(clients := w.clients[c := NewSession()])
    ensures ServerInv(w', NONE)
  {
    ConnectKeepsInv(w, c, NONE);
  }

  /** A login refused as ALREADY_LOGGED_IN keeps the invariant though the client keeps the account. */
  lemma ClaimStep(w: World, w': World, c: ClientId, u: string)
    requires ServerInv(w, NONE) && c in w.clients && w.clients[c].state == CONNECTED && u in w.accounts
    requires w' == w.(clients := w.clients[c := w.clients[c].(account := Some(u))])
    ensures ServerInv(w', NONE)
  {
    ClaimKeepsInv(w, c, u, NONE);
  }

  /** A successful login keeps the invariant. */
  lemma LogInStep(w: World, w': World, c: ClientId, u: string)
    requires ServerInv(w, NONE) && c in w.clients && w.clients[c].state == CONNECTED && u in w.accounts && u !in w.auth
    requires w' == LogIn(w, c, u)
    ensures ServerInv(w', NONE)
  {
    LogInKeepsInv(w, c, u, NONE);
  }

  /** Filing a new valid account keeps the invariant. */
  lemma FileStep(w: World, w': World, u: string, a: AccountState)
    requires ServerInv(w, NONE) && u !in w.accounts && IsAccount(u, a) && w' == w.(accounts := w.accounts[u := a])
    ensures ServerInv(w', NONE)
  {
    FileAccountKeepsInv(w, u, a, NONE);
  }

  /** A logout keeps the invariant. */
  lemma LogOutStep(w: World, w': World, c: ClientId)
    requires ServerInv(w, NONE) && c in w.clients && w.clients[c].state == IDLE && w' == LogOut(w, c)
    ensures ServerInv(w', NONE)
  {
    LogOutKeepsInv(w, c, NONE);
  }

  /** The username a logged-in client holds. */
  ghost function UserOf(w: World, c: ClientId): string
    requires c in w.clients && w.clients[c].account.Some?
  {
    w.clients[c].account.value
  }

  /** An IDLE client that goes IN_MATCHMAKING keeps the invariant short of its player not yet in the matchmaker. */
  lemma JoinStep(w: World, w': World, c: ClientId)
    requires ServerInv(w, NONE) && c in w.clients && w.clients[c].state == IDLE
    requires w' == w.(clients := w.clients[c := Apply(ToQueue, w.clients[c])])
    ensures w.clients[c].account.Some? && ServerInv(w', NONE.(pending := {UserOf(w, c)}))
  {
    var u := UserOf(w, c);
    MoveKeepsInv(w, u, Apply(ToQueue, w.clients[c]), NONE, NONE.(pending := {u}));
  }

  /** A waiting player taken out of the matchmaker is pending. */
  lemma WithdrawStep(w: World, w': World, u: string, x: Exempt)
    requires ServerInv(w, x) && u in w.waiting
    ensures u in w.accounts && w.waiting[u] == RoundRank(w.accounts[u].rank)
    ensures w' == w.(waiting := w.waiting - {u}) ==> ServerInv(w', x.(pending := x.pending + {u}))
  {
    DequeueKeepsInv(w, u, x);
  }

  /** A pending player whose client goes IDLE is no longer pending. */
  lemma IdleStep(w: World, w': World, c: ClientId, u: string, x: Exempt)
    requires ServerInv(w, x) && c in w.clients && w.clients[c].state == IN_MATCHMAKING
    requires w.clients[c].account == Some(u) && u in x.pending
    requires w' == w.(clients := w.clients[c := Apply(ToIdle, w.clients[c])])
    ensures ServerInv(w', x.(pending := x.pending - {u}))
  {
    MoveKeepsInv(w, u, Apply(ToIdle, w.clients[c]), x, x.(pending := x.pending - {u}));
  }

  /** A pending player put back into the matchmaker, with no group formed, keeps the invariant. */
  lemma EnqueueStep(w: World, w': World, u: string, x: Exempt)
    requires ServerInv(w, x) && u in x.pending
    ensures u in w.accounts
    ensures w' == w.(waiting := w.waiting[u := RoundRank(w.accounts[u].rank)]) ==> ServerInv(w', x.(pending := x.pending - {u}))
  {
    EnqueueKeepsInv(w, u, x);
  }

  /**
   * The group g the matchmaker forms around the pending player u leaves
   * it: the invariant holds short of all of g, and g holds no other
   * pending player.
   */
  lemma DrainStep(w: World, w': World, u: string, g: set<string>, x: Exempt)
    requires ServerInv(w, x) && u in x.pending && u in g && g <= w.waiting.Keys + {u} && u in w.accounts
    requires w' == w.(waiting := w.waiting[u := RoundRank(w.accounts[u].rank)] - g)
    ensures ServerInv(w', x.(pending := x.pending + g))
    ensures (x.pending + g) - g == x.pending - {u}
  {
    GroupDequeueKeepsInv(w, u, g, x);
    forall v | v in g && v != u ensures v !in x.pending {
      assert v in w.waiting;
    }
  }

  /** Pending players are each logged in on a client of their own. */
  lemma PendingOwned(w: World, g: set<string>, x: Exempt)
    requires ServerInv(w, x) && g <= x.pending
    ensures Owned(w.clients, w.auth, g)
  {
    AuthOwned(w, g);
  }

  /**
   * A new MatchFound m of g whose timer is started, exempt until its
   * players are moved to it, keeps the invariant.
   */
  lemma NewMatchStep(w: World, w': World, g: set<string>, m: MatchId, x: Exempt)
    requires ServerInv(w, x) && m !in w.matches
    requires w' == w.(matches := w.matches[m := NewMatch(g)], acceptTimers := w.acceptTimers + {m})
    ensures ServerInv(w', x.(matches := x.matches + {m}))
  {
    NewMatchKeepsInv(w, g, m, x);
    StartExemptTimerKeepsInv(w.(matches := w.matches[m := NewMatch(g)]), m, x.(matches := x.matches + {m}));
  }

  /**
   * The pending players of the new MatchFound m going MATCH_FOUND with it
   * make m live and end its exemption, and the others pending's.
   */
  lemma MoveStep(w: World, w': World, g: set<string>, m: MatchId, x: Exempt)
    requires ServerInv(w, x) && m in x.matches && m in w.matches && w.matches[m] == NewMatch(g) && m in w.acceptTimers
    requires g <= x.pending && |g| == LOBBY_SIZE
    requires w' == w.(clients := Changed(w.clients, ClientsOf(w.clients, w.auth, g), ToMatch(m)))
    ensures ServerInv(w', x.(pending := x.pending - g, matches := x.matches - {m}))
  {
    MatchAllKeepsInv(w, g, m, x, x.pending - g);
    FormedLive(w, g, m);
    LiveMatchUnexempt(w', m, x.(pending := x.pending - g));
  }

  // A MatchFound taken apart sends its players back to matchmaking one by
  // one, and each one's addThisPlayerToMatchmaking may form a new
  // MatchFound of waiting players, some of them requeued just before.

  /** u is back in matchmaking, or in a MatchFound none of known. */
  ghost predicate Requeued(w: World, u: string, known: set<MatchId>) {
    Has(w, u) && (At(w, u).state == IN_MATCHMAKING || (At(w, u).matchFound.Some? && At(w, u).matchFound.value !in known))
  }

  /** v holds a MatchFound that w0 does not have. */
  ghost predicate InNewMatch(w0: World, w: World, v: string) {
    Has(w, v) && At(w, v).matchFound.Some? && At(w, v).matchFound.value !in w0.matches
  }

  /** Every MatchFound a player holds is one the server has. */
  ghost predicate HeldKnown(w: World) {
    forall v :: Has(w, v) && At(w, v).matchFound.Some? ==> At(w, v).matchFound.value in w.matches
  }

  /**
   * The MATCH_FOUND notices of sent went, through auth, to exactly the
   * players that hold in w a MatchFound w0 does not have: each of them got
   * one, and no other client got any.
   */
  ghost predicate FoundTold(w0: World, w: World, auth: map<string, ClientId>, sent: seq<Delivery>, t: string) {
    && (forall v :: InNewMatch(w0, w, v) ==> v in auth && Delivery(auth[v], MatchFoundNotice(t)) in sent)
    && (forall i :: 0 <= i < |sent| && sent[i].notice == MatchFoundNotice(t) ==>
          exists v :: InNewMatch(w0, w, v) && v in auth && auth[v] == sent[i].to)
  }

  /**
   * From w to w' the connections and the authenticated map stay, and every
   * player outside done keeps its record, unless it was waiting and is now
   * in a MatchFound that w does not have.
   */
  ghost predicate Evolves(w: World, w': World, done: set<string>) {
    && w'.auth == w.auth && w'.clients.Keys == w.clients.Keys
    && forall v :: Has(w, v) && v !in done ==>
         || At(w', v) == At(w, v)
         || (v in w.waiting && At(w', v).matchFound.Some? && At(w', v).matchFound.value !in w.matches)
  }

  /** A player in MATCH_FOUND sent back to IN_MATCHMAKING is pending. */
  lemma RequeueStep(w: World, w': World, u: string, x: Exempt)
    requires ServerInv(w, x) && Has(w, u) && At(w, u).matchFound.Some? && At(w, u).matchFound.value in x.matches
    requires w' == Move(w, u, Apply(ToQueue, At(w, u)))
    ensures u !in x.pending && u !in w.waiting && (x.pending + {u}) - {u} == x.pending
    ensures ServerInv(w', x.(pending := x.pending + {u}))
  {
    var s := Apply(ToQueue, At(w, u));
    assert x.pending + {u} == (x.pending - {u}) + {u};
    assert Movable(w, u, s, x, x.(pending := x.pending + {u}));
    MoveKeepsInv(w, u, s, x, x.(pending := x.pending + {u}));
  }

  /**
   * The requeued player u, re-added to the matchmaker, is queued or in the
   * new MatchFound m of the group g it filled; only waiting players joined it.
   */
  lemma RequeueEvolves(w: World, w': World, u: string, formed: bool, g: set<string>, m: MatchId)
    requires AuthOk(w) && Has(w, u) && w'.auth == w.auth
    requires formed ==> u in g && g <= w.waiting.Keys + {u} && m !in w.matches
    requires w'.clients == var cs1 := w.clients[w.auth[u] := Apply(ToQueue, At(w, u))];
      if formed then Changed(cs1, ClientsOf(cs1, w.auth, g), ToMatch(m)) else cs1
    ensures Evolves(w, w', {u}) && Requeued(w', u, w.matches.Keys)
  {
    forall v | Has(w, v) && v != u
      ensures At(w', v) == At(w, v) || (v in w.waiting && At(w', v).matchFound.Some? && At(w', v).matchFound.value !in w.matches)
    {
      if w.auth[v] == w.auth[u] {
        AuthInjective(w, u, v);
      }
    }
    if formed {
      assert w.auth[u] in ClientsOf(w.clients[w.auth[u] := Apply(ToQueue, At(w, u))], w.auth, g);
    }
  }

  /** Every entry of a stays in b. */
  ghost predicate Grows<K, V>(a: map<K, V>, b: map<K, V>) {
    forall k :: k in a ==> k in b && b[k] == a[k]
  }

  /** The only timer tasks scheduled from w to w' belong to MatchFound objects w does not have. */
  ghost predicate TimersGrow(w: World, w': World) {
    forall k :: k in w'.acceptTimers ==> k in w.acceptTimers || k !in w.matches
  }

  lemma NewEntryGrows<K, V>(a: map<K, V>, k: K, v: V)
    requires k !in a
    ensures Grows(a, a[k := v])
  {
  }

  lemma NoticesAfterFirst(sent: seq<Delivery>, rest: seq<Delivery>, n: Notice)
    requires |sent| == |rest| + 1 && sent[1..] == rest
    requires forall i :: 0 <= i < |rest| ==> rest[i].notice == n
    ensures forall i :: 1 <= i < |sent| ==> sent[i].notice == n
  {
    forall i | 1 <= i < |sent| ensures sent[i].notice == n {
      assert sent[i] == rest[i - 1];
    }
  }

  /** A MATCH_CANCELED sent first changes nothing about who was told MATCH_FOUND. */
  lemma ToldAfterFirst(w0: World, w: World, auth: map<string, ClientId>, sent: seq<Delivery>, rest: seq<Delivery>, t: string)
    requires |sent| == |rest| + 1 && sent[1..] == rest && sent[0].notice == MatchCanceled
    requires FoundTold(w0, w, auth, rest, t)
    ensures FoundTold(w0, w, auth, sent, t)
  {
    forall v | InNewMatch(w0, w, v) ensures v in auth && Delivery(auth[v], MatchFoundNotice(t)) in sent {
      assert Delivery(auth[v], MatchFoundNotice(t)) in sent[1..];
    }
    forall i | 0 <= i < |sent| && sent[i].notice == MatchFoundNotice(t)
      ensures exists v :: InNewMatch(w0, w, v) && v in auth && auth[v] == sent[i].to
    {
      assert sent[i] == rest[i - 1];
    }
  }

  /**
   * What re-adding u to the matchmaker did, in terms of the worlds before
   * and after: the MatchFound it may have formed is new and only the
   * players it went to were sent anything.
   */
  lemma RequeueOutcome(w: World, w': World, u: string, formed: Option<(set<string>, MatchId)>, rest: seq<Delivery>, t: string)
    requires AuthOk(w) && Has(w, u) && w'.auth == w.auth
    requires formed.None? ==> w'.matches == w.matches && rest == []
    requires formed.Some? ==>
      var (g, m) := formed.value;
      && u in g && g <= w.waiting.Keys + {u} && g <= w.auth.Keys
      && m !in w.matches && w'.matches == w.matches[m := NewMatch(g)]
      && OncePerUser(rest, w.auth, g, MatchFoundNotice(t))
    requires w'.clients == var cs1 := w.clients[w.auth[u] := Apply(ToQueue, At(w, u))];
      if formed.Some? then Changed(cs1, ClientsOf(cs1, w.auth, formed.value.0), ToMatch(formed.value.1)) else cs1
    requires w'.acceptTimers == (if formed.Some? then w.acceptTimers + {formed.value.1} else w.acceptTimers)
    requires HeldKnown(w)
    ensures Evolves(w, w', {u}) && Requeued(w', u, w.matches.Keys)
    ensures Grows(w.matches, w'.matches) && TimersGrow(w, w')
    ensures forall i :: 0 <= i < |rest| ==> rest[i].notice == MatchFoundNotice(t)
    ensures FoundTold(w, w', w.auth, rest, t)
    ensures Has(w', u) && (At(w', u).matchFound.Some? ==> At(w', u).matchFound.value !in w.matches)
  {
    RequeueTold(w, w', u, formed, rest, t);
    if formed.Some? {
      RequeueEvolves(w, w', u, true, formed.value.0, formed.value.1);
      NewEntryGrows(w.matches, formed.value.1, NewMatch(formed.value.0));
      SameNotice(rest, w.auth, formed.value.0, MatchFoundNotice(t));
    } else {
      RequeueEvolves(w, w', u, false, {}, 0);
    }
  }

  /** The record of v once u is re-added to the matchmaker, which may have formed the MatchFound m of g. */
  lemma RequeuedRecord(w: World, w': World, u: string, formed: Option<(set<string>, MatchId)>, v: string)
    requires AuthOk(w) && Has(w, u) && w'.auth == w.auth && Has(w, v)
    requires w'.clients == var cs1 := w.clients[w.auth[u] := Apply(ToQueue, At(w, u))];
      if formed.Some? then Changed(cs1, ClientsOf(cs1, w.auth, formed.value.0), ToMatch(formed.value.1)) else cs1
    ensures Has(w', v)
    ensures At(w', v) == if formed.Some? && v in formed.value.0 then Apply(ToMatch(formed.value.1), At(w, v))
                         else if v == u then Apply(ToQueue, At(w, u)) else At(w, v)
  {
    var cs1 := w.clients[w.auth[u] := Apply(ToQueue, At(w, u))];
    if w.auth[v] == w.auth[u] {
      AuthInjective(w, u, v);
    }
    assert cs1[w.auth[v]].account == Some(v);
    if formed.Some? {
      assert w.auth[v] in ClientsOf(cs1, w.auth, formed.value.0) <==> v in formed.value.0;
    }
  }

  /**
   * Re-adding u to the matchmaker sent MATCH_FOUND to exactly the players
   * of the MatchFound it formed, if any; u itself holds no MatchFound w has.
   */
  lemma RequeueTold(w: World, w': World, u: string, formed: Option<(set<string>, MatchId)>, rest: seq<Delivery>, t: string)
    requires AuthOk(w) && Has(w, u) && w'.auth == w.auth && HeldKnown(w)
    requires formed.None? ==> rest == []
    requires formed.Some? ==>
      var (g, m) := formed.value;
      g <= w.auth.Keys && m !in w.matches && OncePerUser(rest, w.auth, g, MatchFoundNotice(t))
    requires w'.clients == var cs1 := w.clients[w.auth[u] := Apply(ToQueue, At(w, u))];
      if formed.Some? then Changed(cs1, ClientsOf(cs1, w.auth, formed.value.0), ToMatch(formed.value.1)) else cs1
    ensures FoundTold(w, w', w.auth, rest, t)
    ensures Has(w', u) && (At(w', u).matchFound.Some? ==> At(w', u).matchFound.value !in w.matches)
  {
    var n := MatchFoundNotice(t);
    RequeuedRecord(w, w', u, formed, u);
    forall v | Has(w', v)
      ensures InNewMatch(w, w', v) ==> v in w.auth && Delivery(w.auth[v], n) in rest
    {
      RequeuedRecord(w, w', u, formed, v);
      if formed.Some? && v in formed.value.0 {
        assert Delivery(w.auth[v], n) in Deliveries(w.auth, formed.value.0, n);
      }
    }
    forall i | 0 <= i < |rest| && rest[i].notice == n
      ensures exists v :: InNewMatch(w, w', v) && v in w.auth && w.auth[v] == rest[i].to
    {
      var (g, m) := formed.value;
      assert rest[i] in Deliveries(w.auth, g, n);
      var v :| v in g && rest[i] == Delivery(w.auth[v], n);
      RequeuedRecord(w, w', u, formed, v);
      assert InNewMatch(w, w', v);
    }
  }

  /** Two steps of players leaving a MatchFound make one. */
  lemma EvolvesTrans(w0: World, w1: World, w2: World, done: set<string>, u: string, x: Exempt)
    requires ServerInv(w0, x) && ServerInv(w1, x) && w0.matches.Keys <= w1.matches.Keys
    requires Evolves(w0, w1, done) && Evolves(w1, w2, {u})
    ensures Evolves(w0, w2, done + {u})
  {
    forall v | Has(w0, v) && v !in done + {u}
      ensures At(w2, v) == At(w0, v) || (v in w0.waiting && At(w2, v).matchFound.Some? && At(w2, v).matchFound.value !in w0.matches)
    {
      if At(w2, v) != At(w1, v) {
        assert v in w1.waiting;
        assert At(w1, v).state == IN_MATCHMAKING;
      }
    }
  }

  /** The players requeued so far stay requeued while another one is. */
  lemma RequeuedStays(w1: World, w2: World, done: set<string>, u: string, known: set<MatchId>)
    requires Evolves(w1, w2, {u}) && known <= w1.matches.Keys
    requires forall v :: v in done ==> Requeued(w1, v, known)
    requires Requeued(w2, u, w1.matches.Keys)
    ensures forall v :: v in done + {u} ==> Requeued(w2, v, known)
  {
  }

  /** After the players of s are requeued, only players that held m before and are not in s hold it. */
  lemma HoldersAfter(w0: World, w2: World, s: set<string>, m: MatchId)
    requires SessionsOk(w2) && m in w0.matches && Evolves(w0, w2, s)
    requires forall v :: v in s ==> Requeued(w2, v, w0.matches.Keys)
    ensures forall v :: Has(w2, v) && At(w2, v).matchFound == Some(m) ==> v !in s && At(w0, v).matchFound == Some(m)
  {
    forall v | Has(w2, v) && At(w2, v).matchFound == Some(m) ensures v !in s && At(w0, v).matchFound == Some(m) {
      assert WellFormedSession(At(w2, v));
    }
  }

  /** Grows is transitive. */
  lemma GrowsTrans<K, V>(a: map<K, V>, b: map<K, V>, c: map<K, V>)
    requires Grows(a, b) && Grows(b, c)
    ensures Grows(a, c)
  {
  }

  /**
   * What taking apart a MatchFound sent so far: MATCH_CANCELED to each
   * player of done, and otherwise only MATCH_FOUND notices.
   */
  ghost predicate CanceledFirst(sent: seq<Delivery>, auth: map<string, ClientId>, done: set<string>, t: string) {
    && (forall v :: v in done ==> v in auth && Delivery(auth[v], MatchCanceled) in sent)
    && (forall i :: 0 <= i < |sent| ==>
          || sent[i].notice == MatchFoundNotice(t)
          || (sent[i].notice == MatchCanceled && exists v :: v in done && v in auth && auth[v] == sent[i].to))
  }

  lemma CanceledStep(sent: seq<Delivery>, more: seq<Delivery>, auth: map<string, ClientId>, done: set<string>, u: string, t: string)
    requires CanceledFirst(sent, auth, done, t) && u in auth
    requires |more| > 0 && more[0] == Delivery(auth[u], MatchCanceled)
    requires forall i :: 1 <= i < |more| ==> more[i].notice == MatchFoundNotice(t)
    ensures CanceledFirst(sent + more, auth, done + {u}, t)
  {
    var all := sent + more;
    assert all[|sent|] == more[0];
    forall i | 0 <= i < |all|
      ensures || all[i].notice == MatchFoundNotice(t)
              || (all[i].notice == MatchCanceled && exists v :: v in done + {u} && v in auth && auth[v] == all[i].to)
    {
      if i < |sent| {
        assert all[i] == sent[i];
        if all[i].notice != MatchFoundNotice(t) {
          var v :| v in done && v in auth && auth[v] == all[i].to;
          assert v in done + {u};
        }
      } else {
        assert all[i] == more[i - |sent|];
        if i == |sent| {
          assert u in done + {u};
        }
      }
    }
  }

  /** Taking apart a MatchFound of w0, done so far for the players done, has reached w. */
  ghost predicate Progress(w0: World, w: World, done: set<string>, sent: seq<Delivery>, t: string) {
    && w.accounts == w0.accounts && w.lobbies == w0.lobbies && w.selectTimers == w0.selectTimers
    && Grows(w0.matches, w.matches) && TimersGrow(w0, w)
    && Evolves(w0, w, done)
    && (forall v :: v in done ==> Requeued(w, v, w0.matches.Keys))
    && CanceledFirst(sent, w.auth, done, t)
    && FoundTold(w0, w, w0.auth, sent, t)
  }

  /** Where requeueing starts: every player in s holds the MatchFound m in w0. */
  ghost predicate Holders(w0: World, s: set<string>, m: MatchId, x: Exempt) {
    && ServerInv(w0, x) && m in x.matches && x.matches <= w0.matches.Keys
    && forall v :: v in s ==> Has(w0, v) && At(w0, v).matchFound == Some(m)
  }

  lemma ProgressStart(w0: World, t: string)
    requires HeldKnown(w0)
    ensures Progress(w0, w0, {}, [], t)
  {
  }

  /** A player of the MatchFound not yet requeued still holds it. */
  lemma StillHolds(w0: World, w: World, done: set<string>, sent: seq<Delivery>, t: string, u: string, m: MatchId, x: Exempt)
    requires ServerInv(w0, x) && Progress(w0, w, done, sent, t)
    requires Has(w0, u) && At(w0, u).matchFound == Some(m) && u !in done
    ensures Has(w, u) && At(w, u).matchFound == Some(m)
  {
    assert WellFormedSession(At(w0, u));
  }

  /** Requeue one more player u. */
  lemma ProgressStep(w0: World, w1: World, w2: World, done: set<string>, sent: seq<Delivery>, more: seq<Delivery>,
                     t: string, u: string, x: Exempt)
    requires ServerInv(w0, x) && ServerInv(w1, x) && Progress(w0, w1, done, sent, t)
    requires w2.accounts == w1.accounts && w2.lobbies == w1.lobbies && w2.selectTimers == w1.selectTimers
    requires Grows(w1.matches, w2.matches) && TimersGrow(w1, w2)
    requires Evolves(w1, w2, {u}) && Requeued(w2, u, w1.matches.Keys)
    requires u in w1.auth && |more| > 0 && more[0] == Delivery(w1.auth[u], MatchCanceled)
    requires forall i :: 1 <= i < |more| ==> more[i].notice == MatchFoundNotice(t)
    requires FoundTold(w1, w2, w1.auth, more, t) && !InNewMatch(w0, w1, u)
    requires Has(w2, u) && (At(w2, u).matchFound.Some? ==> At(w2, u).matchFound.value !in w1.matches)
    ensures Progress(w0, w2, done + {u}, sent + more, t)
  {
    EvolvesTrans(w0, w1, w2, done, u, x);
    RequeuedStays(w1, w2, done, u, w0.matches.Keys);
    GrowsTrans(w0.matches, w1.matches, w2.matches);
    CanceledStep(sent, more, w1.auth, done, u, t);
    FoundToldStep(w0, w1, w2, sent, more, t, u);
  }

  /**
   * The MATCH_FOUND notices of two steps together went to exactly the
   * players in a MatchFound new since w0: one that is new since w1 was
   * told in the second step, one new since w0 only in the first, and the
   * step leaves every other player's MatchFound alone.
   */
  lemma FoundToldStep(w0: World, w1: World, w2: World, sent: seq<Delivery>, more: seq<Delivery>, t: string, u: string)
    requires w1.auth == w0.auth && Grows(w0.matches, w1.matches) && Evolves(w1, w2, {u})
    requires FoundTold(w0, w1, w0.auth, sent, t) && FoundTold(w1, w2, w1.auth, more, t)
    requires !InNewMatch(w0, w1, u)
    requires Has(w2, u) && (At(w2, u).matchFound.Some? ==> At(w2, u).matchFound.value !in w1.matches)
    ensures FoundTold(w0, w2, w0.auth, sent + more, t)
  {
    var n, all := MatchFoundNotice(t), sent + more;
    forall v | InNewMatch(w0, w2, v) ensures v in w0.auth && Delivery(w0.auth[v], n) in all {
      if !InNewMatch(w1, w2, v) {
        assert InNewMatch(w0, w1, v);
      }
    }
    forall i | 0 <= i < |all| && all[i].notice == n
      ensures exists v :: InNewMatch(w0, w2, v) && v in w0.auth && w0.auth[v] == all[i].to
    {
      if i < |sent| {
        assert all[i] == sent[i];
        var v :| InNewMatch(w0, w1, v) && v in w0.auth && w0.auth[v] == sent[i].to;
        assert InNewMatch(w0, w2, v);
      } else {
        assert all[i] == more[i - |sent|];
        var v :| InNewMatch(w1, w2, v) && v in w1.auth && w1.auth[v] == more[i - |sent|].to;
        assert InNewMatch(w0, w2, v);
      }
    }
  }

  // ------------------------------------------------- a MatchFound taken apart

  /** The world right after the timer of the MatchFound m is canceled. */
  ghost function Canceled(w: World, m: MatchId): World
    requires m in w.matches
  {
    w.(matches := w.matches[m := w.matches[m].(timerCanceled := true)])
  }

  /** Canceling the timer of m exempts m. */
  lemma CancelStep(w: World, w': World, m: MatchId, x: Exempt)
    requires ServerInv(w, x) && m in w.matches && w' == Canceled(w, m)
    ensures ServerInv(w', x.(matches := x.matches + {m}))
  {
    CancelMatchKeepsInv(w, m, x);
  }

  /** A client in MATCH_FOUND is logged in as a player of its live MatchFound. */
  lemma MatchOf(w: World, c: ClientId)
    requires ServerInv(w, NONE) && c in w.clients && w.clients[c].state == MATCH_FOUND
    ensures w.clients[c].account.Some? && w.clients[c].matchFound.Some?
    ensures var u, m := w.clients[c].account.value, w.clients[c].matchFound.value;
      && Has(w, u) && w.auth[u] == c && u !in w.waiting
      && LiveMatch(w, m) && u in w.matches[m].players
  {
    var u := w.clients[c].account.value;
    assert WellFormedSession(w.clients[c]);
    assert Has(w, u) && At(w, u) == w.clients[c];
  }

  /** A client IN_LOBBY is logged in as a player of its live lobby, seated on its team. */
  lemma LobbyOf(w: World, c: ClientId)
    requires ServerInv(w, NONE) && c in w.clients && w.clients[c].state == IN_LOBBY
    ensures w.clients[c].account.Some? && w.clients[c].lobby.Some? && w.clients[c].team.Some?
    ensures var u, l := w.clients[c].account.value, w.clients[c].lobby.value;
      && Has(w, u) && w.auth[u] == c && u !in w.waiting && w.clients[c].matchFound.None?
      && LiveLobby(w, l) && SeatedIn(w, l, w.clients[c].team.value, u) && u in Members(w.lobbies[l].lineup)
  {
    var u := w.clients[c].account.value;
    assert WellFormedSession(w.clients[c]);
    assert Has(w, u) && At(w, u) == w.clients[c];
  }

  /** Exempting m alone. */
  lemma ExemptMatch(m: MatchId)
    ensures NONE.(matches := NONE.matches + {m}) == NONE.(matches := {m})
  {
    assert NONE.matches + {m} == {m};
  }

  /**
   * Once the players of m other than u are requeued, u is as it was and is
   * the only one holding m.
   */
  lemma LastHolder(w0: World, w: World, u: string, m: MatchId, sent: seq<Delivery>, t: string, x: Exempt)
    requires ServerInv(w0, x) && SessionsOk(w) && m in w0.matches && Has(w0, u) && At(w0, u).matchFound == Some(m)
    requires Progress(w0, w, w0.matches[m].players.Keys - {u}, sent, t)
    ensures Has(w, u) && w.auth[u] == w0.auth[u] && At(w, u) == At(w0, u)
    ensures forall v :: Has(w, v) && At(w, v).matchFound == Some(m) ==> v == u
  {
    var s := w0.matches[m].players.Keys - {u};
    assert WellFormedSession(At(w0, u));
    HoldersAfter(w0, w, s, m);
  }

  /** After the others left, the last holder u of m goes IDLE and m needs no exemption. */
  lemma DismissStep(w: World, w': World, c: ClientId, u: string, m: MatchId, x: Exempt)
    requires ServerInv(w, x) && m in x.matches && Has(w, u) && w.auth[u] == c && At(w, u).matchFound == Some(m)
    requires forall v :: Has(w, v) && At(w, v).matchFound == Some(m) ==> v == u
    requires m in w.matches && w.matches[m].timerCanceled
    requires w' == w.(clients := w.clients[c := Apply(ToIdle, w.clients[c])])
    ensures ServerInv(w', x.(matches := x.matches - {m}))
  {
    assert WellFormedSession(At(w, u));
    assert Releasable(w, u, x);
    IdleMovable(w, u, x);
    MoveKeepsInv(w, u, Apply(ToIdle, At(w, u)), x, x);
    forall v | Has(w', v) ensures At(w', v).matchFound != Some(m) {
      if w.auth[v] == c {
        AuthInjective(w, u, v);
      }
    }
    ReleaseMatchKeepsInv(w', m, x);
  }

  /** After the others left, the last holder u of m disconnects and m needs no exemption. */
  lemma DropHolderStep(w: World, c: ClientId, u: string, m: MatchId, x: Exempt)
    requires ServerInv(w, x) && m in x.matches && Has(w, u) && w.auth[u] == c && At(w, u).matchFound == Some(m)
    requires forall v :: Has(w, v) && At(w, v).matchFound == Some(m) ==> v == u
    requires m in w.matches && w.matches[m].timerCanceled
    ensures c in w.clients && ServerInv(Drop(w, c), x.(matches := x.matches - {m}))
  {
    assert WellFormedSession(At(w, u));
    assert u !in x.pending && x.(pending := x.pending - {u}) == x;
    DropKeepsInv(w, c, x);
    var w' := Drop(w, c);
    forall v | Has(w', v) ensures At(w', v).matchFound != Some(m) {
      if w.auth[v] == c {
        AuthInjective(w, u, v);
      }
    }
    ReleaseMatchKeepsInv(w', m, x);
  }

  /**
   * The MatchFound m, as it is in w0, is taken apart for all its players
   * outside gone: each of them is back in matchmaking (or in a new
   * MatchFound) and was sent MATCH_CANCELED, and every player outside m
   * has its record unless it was waiting and went into a new MatchFound.
   */
  ghost predicate Dissolved(w0: World, w': World, gone: set<string>, m: MatchId, sent: seq<Delivery>, t: string)
    requires m in w0.matches
  {
    var others := w0.matches[m].players.Keys - gone;
    && w'.accounts == w0.accounts && w'.lobbies == w0.lobbies && w'.selectTimers == w0.selectTimers
    && Grows(w0.matches, w'.matches) && TimersGrow(w0, w')
    && (forall v :: v in others ==> Requeued(w', v, w0.matches.Keys))
    && CanceledFirst(sent, w0.auth, others, t)
    && FoundTold(w0, w', w0.auth, sent, t)
    && (forall v :: Has(w0, v) && v !in w0.matches[m].players ==>
          && Has(w', v)
          && (|| At(w', v) == At(w0, v)
              || (v in w0.waiting && At(w', v).matchFound.Some? && At(w', v).matchFound.value !in w0.matches)))
  }

  /** Once the others are requeued, whatever happens to the players of gone alone leaves m dissolved. */
  lemma DissolvedAfter(w0: World, mid: World, w': World, gone: set<string>, m: MatchId, sent: seq<Delivery>, t: string)
    requires m in w0.matches && gone <= w0.matches[m].players.Keys
    requires Progress(w0, mid, w0.matches[m].players.Keys - gone, sent, t)
    requires w'.accounts == mid.accounts && w'.lobbies == mid.lobbies && w'.selectTimers == mid.selectTimers
    requires w'.matches == mid.matches && w'.acceptTimers == mid.acceptTimers
    requires forall v :: v !in gone && Has(mid, v) ==> Has(w', v) && At(w', v) == At(mid, v)
    requires forall v :: Has(w', v) ==> Has(mid, v)
    requires forall v :: v in gone ==> !InNewMatch(w0, mid, v) && !InNewMatch(w0, w', v)
    ensures Dissolved(w0, w', gone, m, sent, t)
  {
    ToldAfter(w0, mid, w', gone, sent, t);
  }

  /** What happens to the players of gone alone changes no one's right to a MATCH_FOUND. */
  lemma ToldAfter(w0: World, mid: World, w': World, gone: set<string>, sent: seq<Delivery>, t: string)
    requires FoundTold(w0, mid, w0.auth, sent, t)
    requires forall v :: v !in gone && Has(mid, v) ==> Has(w', v) && At(w', v) == At(mid, v)
    requires forall v :: Has(w', v) ==> Has(mid, v)
    requires forall v :: v in gone ==> !InNewMatch(w0, mid, v) && !InNewMatch(w0, w', v)
    ensures FoundTold(w0, w', w0.auth, sent, t)
  {
    forall v | InNewMatch(w0, w', v) ensures InNewMatch(w0, mid, v) {
    }
    forall v | InNewMatch(w0, mid, v) ensures InNewMatch(w0, w', v) {
    }
  }

  /**
   * DECLINE_MATCH on the client c logged in as u in the MatchFound m: m is
   * dissolved for the others, c is IDLE, and the last thing sent is
   * LEFT_MATCHMAKING (DECLINED_MATCH) to c.
   */
  ghost predicate MatchDeclined(w: World, w': World, c: ClientId, sent: seq<Delivery>, t: string)
    requires c in w.clients && w.clients[c].account.Some? && w.clients[c].matchFound.Some?
    requires w.clients[c].matchFound.value in w.matches
  {
    var u, m := w.clients[c].account.value, w.clients[c].matchFound.value;
    && |sent| > 0 && sent[|sent| - 1] == Delivery(c, LeftMatchmaking(DeclinedMatch))
    && Dissolved(Canceled(w, m), w', {u}, m, sent[..|sent| - 1], t)
    && w'.auth == w.auth && c in w'.clients && w'.clients[c] == Apply(ToIdle, w.clients[c])
  }

  lemma DeclineOutcome(w: World, mid: World, w': World, c: ClientId, u: string, m: MatchId, sent: seq<Delivery>, t: string,
                        progressed: bool)
    requires c in w.clients && w.clients[c].account == Some(u) && w.clients[c].matchFound == Some(m)
    requires m in w.matches && u in w.matches[m].players
    requires progressed && progressed == Progress(Canceled(w, m), mid, w.matches[m].players.Keys - {u}, sent, t)
    requires AuthOk(mid) && Has(mid, u) && mid.auth[u] == c && mid.clients[c] == w.clients[c]
    requires w' == mid.(clients := mid.clients[c := Apply(ToIdle, mid.clients[c])])
    ensures MatchDeclined(w, w', c, sent + [Delivery(c, LeftMatchmaking(DeclinedMatch))], t)
  {
    forall v | v != u && Has(mid, v) ensures Has(w', v) && At(w', v) == At(mid, v) {
      if mid.auth[v] == c {
        AuthInjective(mid, u, v);
      }
    }
    DissolvedAfter(Canceled(w, m), mid, w', {u}, m, sent, t);
    var all := sent + [Delivery(c, LeftMatchmaking(DeclinedMatch))];
    assert all[..|all| - 1] == sent;
  }

  // ------------------------------------------------ the accept timer runs out

  /** The world once the accept timer task of m has run and the players of m that did not accept are IDLE. */
  ghost function Expired(w: World, m: MatchId): World
    requires m in w.matches
  {
    w.(clients := Changed(w.clients, ClientsOf(w.clients, w.auth, NotAccepted(w.matches[m].players)), ToIdle),
       acceptTimers := w.acceptTimers - {m})
  }

  /** The task of a canceled MatchFound m finishes at once, and nobody holds m. */
  lemma FireCanceledStep(w: World, m: MatchId)
    requires ServerInv(w, NONE) && m in w.matches && w.matches[m].timerCanceled
    ensures ServerInv(w.(acceptTimers := w.acceptTimers - {m}), NONE)
  {
    var w' := w.(acceptTimers := w.acceptTimers - {m});
    FireAcceptTimerKeepsInv(w, m, NONE);
    ExemptMatch(m);
    ReleaseMatchKeepsInv(w', m, NONE.(matches := {m}));
  }

  /**
   * When the timer task of m runs, m is live; once it is no longer
   * scheduled m is exempt and each of its players can be sent to IDLE.
   */
  lemma ExpiryStep(w: World, w': World, m: MatchId)
    requires ServerInv(w, NONE) && m in w.acceptTimers && m in w.matches && !w.matches[m].timerCanceled
    requires w' == w.(acceptTimers := w.acceptTimers - {m})
    ensures LiveMatch(w, m) && ServerInv(w', NONE.(matches := {m}))
    ensures forall v :: v in NotAccepted(w'.matches[m].players) ==> Releasable(w', v, NONE.(matches := {m}))
  {
    FireAcceptTimerKeepsInv(w, m, NONE);
    ExemptMatch(m);
    forall v | v in NotAccepted(w'.matches[m].players) ensures Releasable(w', v, NONE.(matches := {m})) {
      assert WellFormedSession(At(w', v));
    }
  }

  /** Once the players of the live MatchFound m that did not accept are IDLE, exactly those that accepted hold it. */
  lemma AcceptorsHold(w: World, m: MatchId)
    requires ServerInv(w, NONE) && LiveMatch(w, m)
    ensures var e, a := Expired(w, m), Accepted(w.matches[m].players);
      && (forall v :: v in a ==> Has(e, v) && At(e, v).matchFound == Some(m))
      && (forall v :: Has(e, v) && v in NotAccepted(w.matches[m].players) ==> At(e, v) == Apply(ToIdle, At(w, v)))
      && (forall v :: Has(e, v) && At(e, v).matchFound == Some(m) ==> v in a)
  {
    var e, q := Expired(w, m), NotAccepted(w.matches[m].players);
    forall v | Has(e, v) ensures At(e, v) == if v in q then Apply(ToIdle, At(w, v)) else At(w, v) {
      if w.auth[v] in ClientsOf(w.clients, w.auth, q) {
        var v' :| v' in q && v' in w.auth && w.auth[v'] == w.auth[v];
        AuthInjective(w, v, v');
      }
    }
  }

  /**
   * The accept timer of the MatchFound m ran out before everyone accepted,
   * from w to w': its players that did not accept are IDLE and were sent
   * LEFT_MATCHMAKING (FAILED_TO_ACCEPT_MATCH), first and once each, and m
   * is dissolved for the players that accepted: nobody holds it any more
   * and its timer is no longer scheduled.
   */
  ghost predicate AcceptTimedOut(w: World, w': World, m: MatchId, sent: seq<Delivery>, t: string)
    requires m in w.matches
  {
    var q := NotAccepted(w.matches[m].players);
    && q <= w.auth.Keys && |q| <= |sent| && w'.auth == w.auth
    && (forall v :: Has(w', v) ==> At(w', v).matchFound != Some(m)) && m !in w'.acceptTimers
    && OncePerUser(sent[..|q|], w.auth, q, LeftMatchmaking(FailedToAcceptMatch))
    && (forall v :: v in q ==> Has(w, v) && Has(w', v) && At(w', v) == Apply(ToIdle, At(w, v)))
    && Dissolved(Expired(w, m), w', q, m, sent[|q|..], t)
  }

  /** Once the players of s that alone held m are requeued, nobody holds m. */
  lemma NoHolderLeft(e: World, w': World, s: set<string>, m: MatchId, rest: seq<Delivery>, t: string)
    requires SessionsOk(w') && m in e.matches && Progress(e, w', s, rest, t)
    requires forall v :: Has(e, v) && At(e, v).matchFound == Some(m) ==> v in s
    ensures forall v :: Has(w', v) ==> At(w', v).matchFound != Some(m)
  {
    HoldersAfter(e, w', s, m);
  }

  /** With nobody left holding the expired match m, the invariant holds without exemption. */
  lemma TimedOutReleased(w: World, w': World, m: MatchId, sent: seq<Delivery>, t: string, failed: bool)
    requires ServerInv(w', NONE.(matches := {m})) && m in w.matches
    requires failed && failed == AcceptTimedOut(w, w', m, sent, t)
    ensures ServerInv(w', NONE)
  {
    ExemptMatch(m);
    ReleaseMatchKeepsInv(w', m, NONE.(matches := {m}));
  }

  /** The players of a live MatchFound are not waiting in the matchmaker. */
  lemma PlayersNotWaiting(w: World, m: MatchId)
    requires SessionsOk(w) && Queue(w, {}) && LiveMatch(w, m)
    ensures forall v :: v in w.matches[m].players ==> v !in w.waiting
  {
    forall v | v in w.matches[m].players ensures v !in w.waiting {
      assert WellFormedSession(At(w, v));
    }
  }

  /**
   * What the expiry of m does to its players, from w: those that did not
   * accept were not waiting and are IDLE, and exactly those that accepted
   * still hold m.
   */
  ghost predicate ExpiryFacts(w: World, m: MatchId)
    requires m in w.matches
  {
    var e, q, a := Expired(w, m), NotAccepted(w.matches[m].players), Accepted(w.matches[m].players);
    && q * a == {} && w.matches[m].players.Keys - q == a
    && (forall v :: v in q ==> Has(w, v) && v !in w.waiting)
    && (forall v :: Has(e, v) && v in q ==> At(e, v) == Apply(ToIdle, At(w, v)))
    && (forall v :: v in a ==> Has(e, v) && At(e, v).matchFound == Some(m))
    && (forall v :: Has(e, v) && At(e, v).matchFound == Some(m) ==> v in a)
  }

  lemma ExpiryFactsHold(w: World, m: MatchId)
    requires ServerInv(w, NONE) && LiveMatch(w, m)
    ensures ExpiryFacts(w, m)
  {
    AcceptedPartition(w.matches[m].players);
    AcceptorsHold(w, m);
    PlayersNotWaiting(w, m);
    assert w.matches[m].players.Keys - NotAccepted(w.matches[m].players) == Accepted(w.matches[m].players);
  }

  /** The players that did not accept stay as the expiry left them. */
  lemma QuittersIdle(w: World, e: World, w': World, q: set<string>, a: set<string>)
    requires e.auth == w.auth && e.clients.Keys == w.clients.Keys && e.waiting == w.waiting && q * a == {}
    requires forall v :: v in q ==> Has(w, v) && v !in w.waiting
    requires forall v :: Has(e, v) && v in q ==> At(e, v) == Apply(ToIdle, At(w, v))
    requires Evolves(e, w', a)
    ensures forall v :: v in q ==> Has(w, v) && Has(w', v) && At(w', v) == Apply(ToIdle, At(w, v))
  {
    forall v | v in q ensures Has(w, v) && Has(w', v) && At(w', v) == Apply(ToIdle, At(w, v)) {
      assert w.auth[v] in e.clients;
      assert v !in q * a;
    }
  }

  /** The pieces of an accept timeout put together. */
  lemma TimedOutShape(w: World, w': World, m: MatchId, quit: seq<Delivery>, rest: seq<Delivery>, t: string)
    requires m in w.matches && NotAccepted(w.matches[m].players) <= w.auth.Keys && w'.auth == w.auth
    requires OncePerUser(quit, w.auth, NotAccepted(w.matches[m].players), LeftMatchmaking(FailedToAcceptMatch))
    requires forall v :: v in NotAccepted(w.matches[m].players) ==> Has(w, v) && Has(w', v) && At(w', v) == Apply(ToIdle, At(w, v))
    requires Dissolved(Expired(w, m), w', NotAccepted(w.matches[m].players), m, rest, t)
    requires (forall v :: Has(w', v) ==> At(w', v).matchFound != Some(m)) && m !in w'.acceptTimers
    ensures AcceptTimedOut(w, w', m, quit + rest, t)
  {
    var all := quit + rest;
    assert all[..|quit|] == quit && all[|quit|..] == rest;
  }

  /**
   * The accept timer of the live MatchFound m ran out, from w to e: it is
   * no longer scheduled, and its players that did not accept are IDLE and
   * were sent LEFT_MATCHMAKING (FAILED_TO_ACCEPT_MATCH) once each in quit.
   */
  ghost predicate ExpiredFrom(w: World, e: World, m: MatchId, quit: seq<Delivery>) {
    && m in w.matches && e == Expired(w, m) && ExpiryFacts(w, m)
    && NotAccepted(w.matches[m].players) <= w.auth.Keys
    && OncePerUser(quit, w.auth, NotAccepted(w.matches[m].players), LeftMatchmaking(FailedToAcceptMatch))
  }

  /** After the expiry the players that accepted still hold m, ready to be requeued. */
  lemma AcceptorsReady(w: World, e: World, m: MatchId, quit: seq<Delivery>, expired: bool)
    requires expired && expired == ExpiredFrom(w, e, m, quit)
    ensures m in e.matches && e.matches[m] == w.matches[m]
    ensures forall v :: v in Accepted(e.matches[m].players) ==> Has(e, v) && At(e, v).matchFound == Some(m)
  {
  }

  /**
   * The outcome of an accept timeout: the quitters are IDLE, m is no
   * longer held or scheduled, and the invariant holds without exemption.
   */
  lemma TimedOutOutcome(w: World, e: World, w': World, m: MatchId, quit: seq<Delivery>, rest: seq<Delivery>, t: string,
                        expired: bool, progressed: bool)
    requires expired && expired == ExpiredFrom(w, e, m, quit)
    requires progressed && progressed == Progress(e, w', Accepted(e.matches[m].players), rest, t)
    requires SessionsOk(w')
    ensures AcceptTimedOut(w, w', m, quit + rest, t)
  {
    var q, a := NotAccepted(w.matches[m].players), Accepted(w.matches[m].players);
    NoHolderLeft(e, w', a, m, rest, t);
    QuittersIdle(w, e, w', q, a);
    DissolvedAfter(e, w', w', q, m, rest, t);
    TimedOutShape(w, w', m, quit, rest, t);
  }

  // ------------------------------------------------ the last acceptance

  /** The world after u, a player of m who had not accepted, accepts. */
  ghost function AfterAccept(w: World, m: MatchId, u: string): World
    requires m in w.matches
  {
    w.(matches := w.matches[m := Accepting(w.matches[m], u)])
  }

  /** u accepts m: the invariant holds, m stays live, and the counter is full iff nobody is left to accept. */
  lemma AcceptStep(w: World, w': World, u: string, m: MatchId)
    requires ServerInv(w, NONE) && LiveMatch(w, m) && u in w.matches[m].players && !w.matches[m].players[u]
    requires w' == AfterAccept(w, m, u)
    ensures ServerInv(w', NONE) && LiveMatch(w', m)
    ensures w'.matches[m].numPlayersAccepted == LOBBY_SIZE <==> NotAccepted(w'.matches[m].players) == {}
  {
    AcceptKeepsInv(w, u, m, NONE);
    AcceptStaysLive(w, u, m);
    AllAcceptedIffFull(w'.matches[m].players);
  }

  /** Every one of m's LOBBY_SIZE players is logged in and holds m. */
  ghost predicate HeldBy(w: World, m: MatchId) {
    && m in w.matches && |w.matches[m].players| == LOBBY_SIZE
    && forall v :: v in w.matches[m].players ==> Has(w, v) && At(w, v).matchFound == Some(m)
  }

  lemma CanceledHeld(w: World, w': World, m: MatchId)
    requires LiveMatch(w, m) && w' == Canceled(w, m)
    ensures HeldBy(w', m)
  {
    forall v | v in w'.matches[m].players ensures Has(w', v) && At(w', v).matchFound == Some(m) {
      assert v in w.matches[m].players;
    }
  }

  /** Every user of us has a valid filed account. */
  ghost predicate Filed(us: set<string>, accounts: map<string, AccountState>) {
    forall v :: v in us ==> v in accounts && IsAccount(v, accounts[v])
  }

  /** The players of m have valid filed accounts. */
  lemma PlayersFiled(w: World, m: MatchId)
    requires Registry(w) && HeldBy(w, m)
    ensures Filed(w.matches[m].players.Keys, w.accounts)
  {
    forall v | v in w.matches[m].players ensures v in w.accounts && IsAccount(v, w.accounts[v]) {
      assert w.clients[w.auth[v]].account == Some(v);
    }
  }

  /**
   * lu is the balanced lineup of the LOBBY_SIZE players us, listed as order,
   * each with its account's integer rank: a valid lobby seating exactly us.
   */
  ghost predicate Dealt(lu: Lineup, order: seq<string>, us: set<string>, accounts: map<string, AccountState>) {
    && |order| == LOBBY_SIZE && Listing(order, us)
    && (forall i :: 0 <= i < |order| ==> order[i] in accounts) && lu == Balanced(LobbyPlayers(order, accounts))
    && ValidLobby(lu) && forall v :: v in Members(lu) <==> v in us
  }

  /**
   * The Lobby onAcceptMatch builds: the players us in the iteration order
   * of the Set, each with its account's integer rank, dealt into balanced
   * teams.
   */
  method BuildLineup(us: set<string>, accounts: map<string, AccountState>, ghost filed: bool)
    returns (lu: Lineup, ghost order: seq<string>, ghost dealt: bool)
    requires |us| == LOBBY_SIZE && filed && filed == Filed(us, accounts)
    ensures dealt && dealt == Dealt(lu, order, us, accounts)
  {
    var o := Listed(us);
    assert forall i :: 0 <= i < |o| ==> o[i] in NameSet(o);
    var ps := LobbyPlayers(o, accounts);
    var blue, red := CreateBalancedTeams(ps);
    DealtBalanced(ps, blue, red);
    BalancedValid(o, accounts);
    lu, order := Lineup(blue, red, {}), o;
    dealt := Dealt(lu, order, us, accounts);
  }

  /** The new Lobby l, exempt until its players are seated. */
  lemma AddLobbyStep(w: World, w': World, m: MatchId, l: LobbyId, lu: Lineup)
    requires ServerInv(w, NONE.(matches := {m})) && l !in w.lobbies
    requires w' == w.(lobbies := w.lobbies[l := LobbyState(lu, false)])
    ensures ServerInv(w', NONE.(matches := {m}, lobbies := {l}))
  {
    CreateLobbyKeepsInv(w, l, lu, NONE.(matches := {m}));
    assert NONE.(matches := {m}).(lobbies := NONE.(matches := {m}).lobbies + {l}) == NONE.(matches := {m}, lobbies := {l});
  }

  /** A live MatchFound is held by all its players. */
  lemma LiveHeld(w: World, m: MatchId)
    requires LiveMatch(w, m)
    ensures HeldBy(w, m)
  {
  }

  /**
   * The lobby l is built from the players of m, whose timer is canceled
   * and who all still hold m; l's timer is not started yet.
   */
  ghost predicate Prepared(w: World, m: MatchId, l: LobbyId) {
    && HeldBy(w, m) && w.matches[m].timerCanceled
    && l in w.lobbies && ValidLobby(w.lobbies[l].lineup) && !w.lobbies[l].timerCanceled
    && forall v :: v in Members(w.lobbies[l].lineup) <==> v in w.matches[m].players
  }

  /** Canceling m and adding the lobby dealt from its players prepares the lobby. */
  lemma PreparedAfter(w: World, w': World, m: MatchId, l: LobbyId, lu: Lineup, order: seq<string>)
    requires LiveMatch(w, m) && l !in w.lobbies && Dealt(lu, order, w.matches[m].players.Keys, w.accounts)
    requires w' == Canceled(w, m).(lobbies := w.lobbies[l := LobbyState(lu, false)])
    ensures Prepared(w', m, l)
  {
    CanceledHeld(w, Canceled(w, m), m);
  }

  /** Every user of us may be seated in team t of the lobby l. */
  ghost predicate AllSeatable(w: World, us: set<string>, l: LobbyId, t: Team, x: Exempt) {
    l in w.lobbies && forall v :: v in us ==> Seatable(w, v, l, t, x)
  }

  /** The players of the prepared lobby l, held by m, may be seated in their teams. */
  lemma SeatsReady(w: World, m: MatchId, l: LobbyId, x: Exempt)
    requires SessionsOk(w) && Prepared(w, m, l) && m in x.matches
    ensures AllSeatable(w, NameSet(Usernames(w.lobbies[l].lineup.blue)), l, Blue, x)
    ensures AllSeatable(w, NameSet(Usernames(w.lobbies[l].lineup.red)), l, Red, x)
  {
    var lu := w.lobbies[l].lineup;
    forall v | v in NameSet(Usernames(lu.blue)) ensures Seatable(w, v, l, Blue, x) {
      assert v in Members(lu);
      assert WellFormedSession(At(w, v));
    }
    forall v | v in NameSet(Usernames(lu.red)) ensures Seatable(w, v, l, Red, x) {
      assert v in Members(lu);
      assert WellFormedSession(At(w, v));
    }
  }

  /** Seating the users us keeps every other user's record, so the users vs, none of them in us, stay seatable. */
  lemma StillSeatable(w: World, us: set<string>, vs: set<string>, l: LobbyId, t: Team, t': Team, x: Exempt)
    requires AuthOk(w) && l in w.lobbies && us * vs == {} && us <= w.auth.Keys
    requires forall v :: v in vs ==> Seatable(w, v, l, t', x)
    ensures forall v :: v in vs ==>
      Seatable(w.(clients := Changed(w.clients, ClientsOf(w.clients, w.auth, us), ToSeat(l, t))), v, l, t', x)
  {
    var w' := w.(clients := Changed(w.clients, ClientsOf(w.clients, w.auth, us), ToSeat(l, t)));
    AuthOwned(w, us);
    forall v | v in vs ensures Seatable(w', v, l, t', x) {
      AuthOwned(w, {v});
      assert v !in us * vs;
      ChangedAt(w.clients, w.auth, us, ToSeat(l, t), v);
    }
  }

  /** The clients cs after Blue, then Red, of the lineup lu are seated in lobby l. */
  ghost function SeatedClients(cs: map<ClientId, Session>, auth: map<string, ClientId>, lu: Lineup, l: LobbyId): map<ClientId, Session> {
    var b := Changed(cs, ClientsOf(cs, auth, NameSet(Usernames(lu.blue))), ToSeat(l, Blue));
    Changed(b, ClientsOf(b, auth, NameSet(Usernames(lu.red))), ToSeat(l, Red))
  }

  /** Blue, then Red, of the lineup lu seated in lobby l. */
  ghost function SeatBoth(w: World, lu: Lineup, l: LobbyId): World {
    w.(clients := SeatedClients(w.clients, w.auth, lu, l))
  }

  /**
   * The two loops over the teams of the lineup lu, Blue then Red: each
   * player goes IN_LOBBY with l and its team and matchFound null, and is
   * sent JOINED_LOBBY with its team's TeamInfo, in team order.
   */
  method SeatLineup(cs: map<ClientId, Session>, auth: map<string, ClientId>, lu: Lineup, l: LobbyId, t: string)
    returns (cs': map<ClientId, Session>, sent: seq<Delivery>)
    requires Owned(cs, auth, Members(lu)) && |lu.blue| == TEAM_SIZE && |lu.red| == TEAM_SIZE
    ensures cs' == SeatedClients(cs, auth, lu, l)
    ensures sent == Joined(auth, lu, t)
  {
    var blue, red;
    var b;
    b, blue := ChangeInOrder(cs, auth, Usernames(lu.blue), ToSeat(l, Blue), JoinedLobby(TeamInfoFor(lu, Blue).value, t));
    OwnedChanged(cs, auth, NameSet(Usernames(lu.red)), ClientsOf(cs, auth, NameSet(Usernames(lu.blue))), ToSeat(l, Blue));
    cs', red := ChangeInOrder(b, auth, Usernames(lu.red), ToSeat(l, Red), JoinedLobby(TeamInfoFor(lu, Red).value, t));
    sent := blue + red;
  }

  /** The players of the prepared lobby l own their clients; its teams are full. */
  lemma SeatingReady(w: World, m: MatchId, l: LobbyId)
    requires AuthOk(w) && Prepared(w, m, l)
    ensures Owned(w.clients, w.auth, Members(w.lobbies[l].lineup))
    ensures |w.lobbies[l].lineup.blue| == TEAM_SIZE && |w.lobbies[l].lineup.red| == TEAM_SIZE
  {
    var lu := w.lobbies[l].lineup;
    assert Members(lu) <= w.auth.Keys by {
      forall v | v in Members(lu) ensures v in w.auth.Keys {
        assert v in w.matches[m].players;
      }
    }
    AuthOwned(w, Members(lu));
  }

  /** The prepared lobby l, held by m, short of x, about to be seated. */
  ghost predicate Seating(w: World, m: MatchId, l: LobbyId, x: Exempt) {
    ServerInv(w, x) && l in x.lobbies && m in x.matches && Prepared(w, m, l)
  }

  /** Both teams of lu seated in l, in w', and told so by sent; l is settled. */
  ghost predicate SeatsTaken(w: World, w': World, m: MatchId, l: LobbyId, lu: Lineup, sent: seq<Delivery>, t: string) {
    && |lu.blue| == TEAM_SIZE && |lu.red| == TEAM_SIZE && Members(lu) <= w.auth.Keys
    && w' == SeatBoth(w, lu, l) && sent == Joined(w.auth, lu, t) && Settled(w', m, l)
  }

  /** Seating both teams of the prepared lobby l keeps the invariant short of x and settles l. */
  lemma SeatsStep(w: World, w': World, m: MatchId, l: LobbyId, x: Exempt, ready: bool)
    requires ready && ready == Seating(w, m, l, x)
    requires w' == SeatBoth(w, w.lobbies[l].lineup, l)
    ensures ServerInv(w', x) && Settled(w', m, l)
  {
    var lu := w.lobbies[l].lineup;
    var bs, rs := NameSet(Usernames(lu.blue)), NameSet(Usernames(lu.red));
    SeatsReady(w, m, l, x);
    SeatAllKeepsInv(w, bs, l, Blue, x);
    UniqueApart(lu);
    StillSeatable(w, bs, rs, l, Blue, Red, x);
    var b := w.(clients := Changed(w.clients, ClientsOf(w.clients, w.auth, bs), ToSeat(l, Blue)));
    SeatAllKeepsInv(b, rs, l, Red, x);
    SettledAfter(w, w', m, l, x.matches);
  }

  /** A member of lu, seated on its own team, holds no MatchFound any more. */
  lemma SeatedRecord(w: World, lu: Lineup, l: LobbyId, v: string)
    requires AuthOk(w) && Members(lu) <= w.auth.Keys && v in Members(lu)
    requires forall u :: u in Usernames(lu.blue) ==> u !in Usernames(lu.red)
    ensures Has(SeatBoth(w, lu, l), v)
    ensures At(SeatBoth(w, lu, l), v) ==
      Session(IN_LOBBY, At(w, v).account, None, Some(l), Some(if v in Usernames(lu.blue) then Blue else Red))
  {
    var bs, rs := NameSet(Usernames(lu.blue)), NameSet(Usernames(lu.red));
    AuthOwned(w, Members(lu));
    OwnedChanged(w.clients, w.auth, Members(lu), ClientsOf(w.clients, w.auth, bs), ToSeat(l, Blue));
    ChangedAt(w.clients, w.auth, bs, ToSeat(l, Blue), v);
    ChangedAt(Changed(w.clients, ClientsOf(w.clients, w.auth, bs), ToSeat(l, Blue)), w.auth, rs, ToSeat(l, Red), v);
  }

  /** Both teams of l seated in order: the lobby is live and every member holds no MatchFound. */
  lemma BothSeated(w: World, r: World, l: LobbyId)
    requires AuthOk(w) && l in w.lobbies && ValidLobby(w.lobbies[l].lineup) && !w.lobbies[l].timerCanceled
    requires Members(w.lobbies[l].lineup) <= w.auth.Keys && r == SeatBoth(w, w.lobbies[l].lineup, l)
    ensures LiveLobby(r, l) && forall v :: v in Members(w.lobbies[l].lineup) ==> Has(r, v) && At(r, v).matchFound.None?
  {
    var lu := w.lobbies[l].lineup;
    UniqueApart(lu);
    forall v | v in Members(lu) ensures Has(r, v) && At(r, v).matchFound.None? {
      SeatedRecord(w, lu, l, v);
    }
    forall i | 0 <= i < |lu.blue|
      ensures Has(r, lu.blue[i].username) && At(r, lu.blue[i].username).lobby == Some(l)
      ensures At(r, lu.blue[i].username).team == Some(Blue)
    {
      assert Usernames(lu.blue)[i] == lu.blue[i].username;
      SeatedRecord(w, lu, l, lu.blue[i].username);
    }
    forall i | 0 <= i < |lu.red|
      ensures Has(r, lu.red[i].username) && At(r, lu.red[i].username).lobby == Some(l)
      ensures At(r, lu.red[i].username).team == Some(Red)
    {
      assert Usernames(lu.red)[i] == lu.red[i].username;
      SeatedRecord(w, lu, l, lu.red[i].username);
    }
  }

  /** Once the players of m hold no MatchFound, nobody holds m. */
  lemma NobodyHolds(w: World, m: MatchId, x: set<MatchId>)
    requires Matches(w, x) && m in w.matches
    requires forall v :: v in w.matches[m].players ==> Has(w, v) && At(w, v).matchFound.None?
    ensures forall v :: Has(w, v) ==> At(w, v).matchFound != Some(m)
  {
  }

  /** Both teams of lobby l sit in it, nobody holds the canceled m any more. */
  ghost predicate Settled(w: World, m: MatchId, l: LobbyId) {
    && m in w.matches && w.matches[m].timerCanceled && LiveLobby(w, l)
    && forall v :: Has(w, v) ==> At(w, v).matchFound != Some(m)
  }

  /** Seating both teams of the prepared lobby l settles it. */
  lemma SettledAfter(w: World, w': World, m: MatchId, l: LobbyId, e: set<MatchId>)
    requires AuthOk(w) && Prepared(w, m, l) && Members(w.lobbies[l].lineup) <= w.auth.Keys
    requires w' == SeatBoth(w, w.lobbies[l].lineup, l) && Matches(w', e)
    ensures Settled(w', m, l)
  {
    BothSeated(w, w', l);
    NobodyHolds(w', m, e);
  }

  /** startTimer on the settled lobby l: nothing is exempt any more. */
  lemma StartStep(w: World, w': World, m: MatchId, l: LobbyId)
    requires ServerInv(w, NONE.(matches := {m}, lobbies := {l})) && Settled(w, m, l)
    requires w' == w.(selectTimers := w.selectTimers + {l})
    ensures ServerInv(w', NONE)
  {
    ReleaseMatchKeepsInv(w, m, NONE.(matches := {m}, lobbies := {l}));
    assert NONE.(matches := {m}, lobbies := {l}).(matches := NONE.(matches := {m}, lobbies := {l}).matches - {m})
      == NONE.(lobbies := {l});
    StartSelectTimerKeepsInv(w, l, NONE.(lobbies := {l}));
    assert NONE.(lobbies := {l}).(lobbies := NONE.(lobbies := {l}).lobbies - {l}) == NONE;
  }

  /** The world once Lobby l, built from the players of m in the order given, is open. */
  ghost function Opened(w: World, m: MatchId, l: LobbyId, order: seq<string>): World
    requires m in w.matches && forall i :: 0 <= i < |order| ==> order[i] in w.accounts
  {
    var lu := Balanced(LobbyPlayers(order, w.accounts));
    SeatBoth(Canceled(w, m).(lobbies := w.lobbies[l := LobbyState(lu, false)]), lu, l).(selectTimers := w.selectTimers + {l})
  }

  /** sendJoinedLobby to Blue's players in team order with Blue's TeamInfo, then the same for Red. */
  ghost function Joined(auth: map<string, ClientId>, lu: Lineup, t: string): seq<Delivery>
    requires |lu.blue| == TEAM_SIZE && |lu.red| == TEAM_SIZE && Members(lu) <= auth.Keys
  {
    Tell(auth, Usernames(lu.blue), JoinedLobby(TeamInfoFor(lu, Blue).value, t))
      + Tell(auth, Usernames(lu.red), JoinedLobby(TeamInfoFor(lu, Red).value, t))
  }

  /**
   * Every player of m accepted in w: the timer of m is canceled, a new
   * Lobby l deals the players, listed as order, into balanced teams by
   * their accounts' integer ranks, each team is seated in its order and
   * told its TeamInfo and the time to select a hero, and l's timer is
   * started.
   */
  ghost predicate LobbyOpened(w: World, w': World, m: MatchId, l: LobbyId, order: seq<string>, sent: seq<Delivery>,
                              t: string) {
    && OpenedWorld(w, w', m, l, order)
    && sent == Joined(w.auth, Balanced(LobbyPlayers(order, w.accounts)), t)
  }

  /** The world part of LobbyOpened: w' is w with Lobby l open, dealt from the players of m listed as order. */
  ghost predicate OpenedWorld(w: World, w': World, m: MatchId, l: LobbyId, order: seq<string>) {
    && m in w.matches && l !in w.lobbies && |order| == LOBBY_SIZE
    && Listing(order, w.matches[m].players.Keys)
    && (forall i :: 0 <= i < |order| ==> order[i] in w.accounts)
    && Members(Balanced(LobbyPlayers(order, w.accounts))) <= w.auth.Keys
    && w' == Opened(w, m, l, order)
  }

  /** The three steps of opening a lobby, taken in turn, open it. */
  lemma OpenedFrom(w: World, w1: World, w2: World, w': World, m: MatchId, l: LobbyId, lu: Lineup, order: seq<string>,
                   sent: seq<Delivery>, t: string)
    requires LiveMatch(w, m) && l !in w.lobbies && Dealt(lu, order, w.matches[m].players.Keys, w.accounts)
    requires w1 == Canceled(w, m).(lobbies := w.lobbies[l := LobbyState(lu, false)])
    requires Members(lu) <= w.auth.Keys
    requires w2 == SeatBoth(w1, lu, l) && sent == Joined(w.auth, lu, t)
    requires w' == w2.(selectTimers := w2.selectTimers + {l})
    ensures LobbyOpened(w, w', m, l, order, sent, t)
  {
  }

  /**
   * Once the lobby is open, every player of m is IN_LOBBY in l, on its
   * team of the balanced lineup, and holds no MatchFound; m's timer is
   * canceled and l's started.
   */
  lemma OpenedSeatsPlayers(w: World, w': World, m: MatchId, l: LobbyId, order: seq<string>)
    requires Registry(w) && OpenedWorld(w, w', m, l, order)
    ensures var lu := Balanced(LobbyPlayers(order, w.accounts));
      && ValidLobby(lu) && l in w'.lobbies && w'.lobbies[l] == LobbyState(lu, false) && l in w'.selectTimers
      && m in w'.matches && w'.matches[m].timerCanceled
      && forall v :: v in w.matches[m].players ==>
           Has(w', v) && At(w', v) == Session(IN_LOBBY, At(w, v).account, None, Some(l),
                                             Some(if v in Usernames(lu.blue) then Blue else Red))
  {
    var lu := Balanced(LobbyPlayers(order, w.accounts));
    BalancedValid(order, w.accounts);
    OpenedShape(w, w', m, l, order, lu);
    SeatedPlayers(w, w', m, l, lu);
  }

  /**
   * sendJoinedLobby reaches every member of the lineup lu once, on its
   * own client, with the TeamInfo of its own team.
   */
  lemma JoinedTellsEach(auth: map<string, ClientId>, lu: Lineup, t: string)
    requires ValidLobby(lu) && Members(lu) <= auth.Keys
    ensures |Joined(auth, lu, t)| == LOBBY_SIZE
    ensures forall v :: v in Members(lu) ==>
      var team := if v in Usernames(lu.blue) then Blue else Red;
      Delivery(auth[v], JoinedLobby(TeamInfoFor(lu, team).value, t)) in Joined(auth, lu, t)
  {
    var bt, rt := JoinedLobby(TeamInfoFor(lu, Blue).value, t), JoinedLobby(TeamInfoFor(lu, Red).value, t);
    var blue, red := Tell(auth, Usernames(lu.blue), bt), Tell(auth, Usernames(lu.red), rt);
    UniqueApart(lu);
    forall v | v in Members(lu)
      ensures var team := if v in Usernames(lu.blue) then Blue else Red;
        Delivery(auth[v], JoinedLobby(TeamInfoFor(lu, team).value, t)) in Joined(auth, lu, t)
    {
      if v in Usernames(lu.blue) {
        var i :| 0 <= i < |Usernames(lu.blue)| && Usernames(lu.blue)[i] == v;
        assert (blue + red)[i] == blue[i];
      } else {
        var i :| 0 <= i < |Usernames(lu.red)| && Usernames(lu.red)[i] == v;
        assert (blue + red)[|blue| + i] == red[i];
      }
    }
  }

  /** The parts of the world that opening the lobby l changes, one by one. */
  lemma OpenedShape(w: World, w': World, m: MatchId, l: LobbyId, order: seq<string>, lu: Lineup)
    requires m in w.matches && (forall i :: 0 <= i < |order| ==> order[i] in w.accounts)
    requires lu == Balanced(LobbyPlayers(order, w.accounts)) && w' == Opened(w, m, l, order)
    ensures w'.lobbies == w.lobbies[l := LobbyState(lu, false)] && w'.selectTimers == w.selectTimers + {l}
    ensures w'.matches == w.matches[m := w.matches[m].(timerCanceled := true)]
    ensures w'.auth == w.auth && w'.clients == SeatedClients(w.clients, w.auth, lu, l)
  {
  }

  /** Each player of the lineup lu, seated in l: IN_LOBBY on its team, with no MatchFound. */
  lemma SeatedPlayers(w: World, w': World, m: MatchId, l: LobbyId, lu: Lineup)
    requires AuthOk(w) && ValidLobby(lu) && m in w.matches && Members(lu) <= w.auth.Keys
    requires forall v :: v in Members(lu) <==> v in w.matches[m].players
    requires w'.auth == w.auth && w'.clients == SeatedClients(w.clients, w.auth, lu, l)
    ensures forall v :: v in w.matches[m].players ==>
      Has(w', v) && At(w', v) == Session(IN_LOBBY, At(w, v).account, None, Some(l),
                                         Some(if v in Usernames(lu.blue) then Blue else Red))
  {
    UniqueApart(lu);
    forall v | v in w.matches[m].players
      ensures Has(w', v) && At(w', v) == Session(IN_LOBBY, At(w, v).account, None, Some(l),
                                                 Some(if v in Usernames(lu.blue) then Blue else Red))
    {
      SeatedRecord(w, lu, l, v);
    }
  }

  /** c, in MATCH_FOUND, has not accepted its MatchFound yet. */
  ghost predicate FirstAcceptance(w: World, c: ClientId) {
    && c in w.clients && w.clients[c].state == MATCH_FOUND
    && w.clients[c].account.Some? && w.clients[c].matchFound.Some?
    && w.clients[c].matchFound.value in w.matches
    && var m := w.clients[c].matchFound.value;
    && w.clients[c].account.value in w.matches[m].players && !w.matches[m].players[w.clients[c].account.value]
  }

  /**
   * onAcceptMatchReceived for a first acceptance: every player of the
   * MatchFound, in some order, is sent PLAYER_ACCEPTED_MATCH, the
   * acceptance is recorded, and if nobody is left to accept, the lobby opens.
   */
  ghost predicate MatchAccepted(w: World, w': World, c: ClientId, sent: seq<Delivery>, l: LobbyId, order: seq<string>,
                                t: string)
    requires FirstAcceptance(w, c)
  {
    var u, m := w.clients[c].account.value, w.clients[c].matchFound.value;
    var w1 := AfterAccept(w, m, u);
    var n := |w.matches[m].players|;
    && w.matches[m].players.Keys <= w.auth.Keys && n <= |sent|
    && OncePerUser(sent[..n], w.auth, w.matches[m].players.Keys, PlayerAcceptedMatch)
    && if NotAccepted(w1.matches[m].players) != {} then w' == w1 && sent[n..] == []
       else LobbyOpened(w1, w', m, l, order, sent[n..], t)
  }

  /** The notices of an acceptance, then the lobby opened when it was the last, make up MatchAccepted. */
  lemma AcceptedFrom(w: World, w1: World, w': World, c: ClientId, notes: seq<Delivery>, joined: seq<Delivery>,
                     l: LobbyId, order: seq<string>, t: string, full: bool, done: bool)
    requires FirstAcceptance(w, c)
    requires var u, m := w.clients[c].account.value, w.clients[c].matchFound.value;
      && w1 == AfterAccept(w, m, u) && m in w1.matches
      && w.matches[m].players.Keys <= w.auth.Keys
      && OncePerUser(notes, w.auth, w.matches[m].players.Keys, PlayerAcceptedMatch)
      && (full <==> NotAccepted(w1.matches[m].players) == {})
      && (full ==> done && done == LobbyOpened(w1, w', m, l, order, joined, t))
      && (!full ==> w' == w1 && joined == [])
    ensures MatchAccepted(w, w', c, notes + joined, l, order, t)
  {
    var sent := notes + joined;
    assert sent[..|notes|] == notes && sent[|notes|..] == joined;
  }

  // A lobby dies when a player leaves it, when its select timer runs out,
  // or when a player disconnects from it: its players go IDLE.

  /** lobby.cancelTimer() on the Lobby l. */
  ghost function LobbyCanceled(w: World, l: LobbyId): World
    requires l in w.lobbies
  {
    w.(lobbies := w.lobbies[l := w.lobbies[l].(timerCanceled := true)])
  }

  /** Canceling l's timer leaves its players seated; l alone is exempt. */
  lemma CanceledSeated(w: World, l: LobbyId)
    requires LiveLobby(w, l)
    ensures var w' := LobbyCanceled(w, l); var lu := w.lobbies[l].lineup;
      && w'.lobbies[l].lineup == lu && Seated(w', l, lu.blue, Blue) && Seated(w', l, lu.red, Red)
    ensures NONE.(lobbies := NONE.lobbies + {l}) == NONE.(lobbies := {l})
  {
    assert NONE.lobbies + {l} == {l};
  }

  /** The loop over the players us: each goes IDLE with matchFound, lobby and team null. */
  ghost function Idled(w: World, us: set<string>): World {
    w.(clients := Changed(w.clients, ClientsOf(w.clients, w.auth, us), ToIdle))
  }

  /** After Idled, each user of us is IDLE with nothing held, and every other user keeps its record. */
  lemma IdledRecords(w: World, us: set<string>)
    requires AuthOk(w)
    ensures forall v :: Has(Idled(w, us), v) <==> Has(w, v)
    ensures forall v :: Has(w, v) ==>
      At(Idled(w, us), v) == if v in us then Session(IDLE, Some(v), None, None, None) else At(w, v)
  {
    forall v | Has(w, v)
      ensures At(Idled(w, us), v) == if v in us then Session(IDLE, Some(v), None, None, None) else At(w, v)
    {
      assert w.auth[v] in ClientsOf(w.clients, w.auth, us) <==> v in us;
    }
  }

  /** The players us of the exempt lobby l, seated in it, can each go IDLE. */
  lemma SeatedReleasable(w: World, l: LobbyId, us: set<string>, x: Exempt)
    requires ServerInv(w, x) && l in x.lobbies && l in w.lobbies && us <= Members(w.lobbies[l].lineup)
    requires Seated(w, l, w.lobbies[l].lineup.blue, Blue) && Seated(w, l, w.lobbies[l].lineup.red, Red)
    ensures forall u :: u in us ==> Releasable(w, u, x)
  {
    var lu := w.lobbies[l].lineup;
    forall u | u in us ensures Releasable(w, u, x) {
      if u in Usernames(lu.blue) {
        var i :| 0 <= i < |lu.blue| && Usernames(lu.blue)[i] == u;
        assert Has(w, lu.blue[i].username);
      } else {
        var i :| 0 <= i < |lu.red| && Usernames(lu.red)[i] == u;
        assert Has(w, lu.red[i].username);
      }
    }
  }

  /** Once the players of l are IDLE, nobody sits in l. */
  lemma EmptiedLobby(w: World, l: LobbyId, us: set<string>, x: set<LobbyId>)
    requires AuthOk(w) && InLobbies(w, x) && l in w.lobbies && Members(w.lobbies[l].lineup) <= us
    ensures forall v :: Has(Idled(w, us), v) ==> At(Idled(w, us), v).lobby != Some(l)
  {
    IdledRecords(w, us);
  }

  /** The select timer task of a canceled lobby runs: nobody sits in it, so nothing is exempt. */
  lemma FireCanceledSelect(w: World, l: LobbyId)
    requires ServerInv(w, NONE) && l in w.lobbies && w.lobbies[l].timerCanceled
    ensures ServerInv(w.(selectTimers := w.selectTimers - {l}), NONE)
  {
    var w' := w.(selectTimers := w.selectTimers - {l});
    FireSelectTimerKeepsInv(w, l, NONE);
    assert NONE.(lobbies := NONE.lobbies + {l}) == NONE.(lobbies := {l});
    forall v | Has(w', v) ensures At(w', v).lobby != Some(l) {
      assert Has(w, v);
    }
    ReleaseLobbyKeepsInv(w', l, NONE.(lobbies := {l}));
    assert NONE.(lobbies := {l}).(lobbies := {l} - {l}) == NONE;
  }

  /** The select timer task of l runs uncanceled: l is live, its players seated, and l alone exempt. */
  lemma FiredSeated(w: World, l: LobbyId)
    requires ServerInv(w, NONE) && l in w.selectTimers && !w.lobbies[l].timerCanceled
    ensures LiveLobby(w, l)
    ensures var w' := w.(selectTimers := w.selectTimers - {l}); var lu := w.lobbies[l].lineup;
      && Seated(w', l, lu.blue, Blue) && Seated(w', l, lu.red, Red)
    ensures NONE.(lobbies := NONE.lobbies + {l}) == NONE.(lobbies := {l})
  {
    assert NONE.lobbies + {l} == {l};
  }

  /**
   * The select timer task of the live lobby l runs: once the timer is
   * gone and every player of l is IDLE, the invariant holds again.
   */
  lemma FiredSelectKeepsInv(w: World, l: LobbyId)
    requires ServerInv(w, NONE) && l in w.selectTimers && !w.lobbies[l].timerCanceled
    ensures Members(w.lobbies[l].lineup) <= w.auth.Keys
    ensures ServerInv(Idled(w.(selectTimers := w.selectTimers - {l}), Members(w.lobbies[l].lineup)), NONE)
  {
    FiredSeated(w, l);
    var w1 := w.(selectTimers := w.selectTimers - {l});
    var us := Members(w.lobbies[l].lineup);
    var x := NONE.(lobbies := {l});
    FireSelectTimerKeepsInv(w, l, NONE);
    SeatedReleasable(w1, l, us, x);
    IdleAllKeepsInv(w1, us, x);
    EmptiedLobby(w1, l, us, x.lobbies);
    ReleaseLobbyKeepsInv(Idled(w1, us), l, x);
    assert x.(lobbies := x.lobbies - {l}) == NONE;
  }

  /**
   * onFailedToSelectHero as the code has it: the select timer task of l,
   * without asking whether the timer was canceled, walks the usernames of
   * l in the iteration order order and sets each one's client IDLE with
   * lobby and team null (matchFound as it was), until a user with no
   * client throws.
   */
  ghost function FailedToSelectAsWritten(w: World, l: LobbyId, order: seq<string>): World {
    var k := FirstMissing(order, w.auth);
    w.(selectTimers := w.selectTimers - {l},
       clients := Changed(w.clients, ClientsOf(w.clients, w.auth, NameSet(order[..k])), Unseat))
  }

  /** The players of a live lobby are all authenticated and IN_LOBBY, so none holds a MatchFound. */
  lemma SeatedHoldNoMatch(w: World, l: LobbyId)
    requires Registry(w) && LiveLobby(w, l)
    ensures forall u :: u in Members(w.lobbies[l].lineup) ==> Has(w, u) && At(w, u).matchFound.None?
  {
    var lu := w.lobbies[l].lineup;
    forall u | u in Members(lu) ensures Has(w, u) && At(w, u).matchFound.None? {
      if u in Usernames(lu.blue) {
        var i :| 0 <= i < |lu.blue| && Usernames(lu.blue)[i] == u;
        assert Has(w, lu.blue[i].username);
      } else {
        var i :| 0 <= i < |lu.red| && Usernames(lu.red)[i] == u;
        assert Has(w, lu.red[i].username);
      }
    }
  }

  /**
   * So the change the loop of onFailedToSelectHero makes to every player
   * of a live lobby is the one to IDLE with everything null.
   */
  lemma SeatedUnseat(w: World, l: LobbyId, order: seq<string>)
    requires Registry(w) && LiveLobby(w, l) && Listing(order, Members(w.lobbies[l].lineup))
    ensures Changed(w.clients, ClientsOf(w.clients, w.auth, NameSet(order)), Unseat)
         == Idled(w, Members(w.lobbies[l].lineup)).clients
  {
    var us := Members(w.lobbies[l].lineup);
    SeatedHoldNoMatch(w, l);
    forall u | u in us && u in w.auth && w.auth[u] in w.clients ensures w.clients[w.auth[u]].matchFound.None? {
      assert At(w, u).matchFound.None?;
    }
    UnseatAsIdle(w.clients, w.auth, us);
  }

  /** When the loop of the task as written meets no missing user, it changes the clients of all of order. */
  lemma ReachedAll(w: World, l: LobbyId, order: seq<string>)
    requires FirstMissing(order, w.auth) == |order|
    ensures FailedToSelectAsWritten(w, l, order)
         == w.(selectTimers := w.selectTimers - {l},
               clients := Changed(w.clients, ClientsOf(w.clients, w.auth, NameSet(order)), Unseat))
  {
    assert order[..|order|] == order;
  }

  /**
   * The loop of the task as written reaches every player of l exactly when
   * all of them are authenticated; on a live lobby it does, and the task
   * keeps the invariant.
   */
  lemma FailedToSelectAsWrittenLive(w: World, l: LobbyId, order: seq<string>)
    requires ServerInv(w, NONE) && l in w.selectTimers && Listing(order, Members(w.lobbies[l].lineup))
    ensures FirstMissing(order, w.auth) == |order| <==> Members(w.lobbies[l].lineup) <= w.auth.Keys
    ensures !w.lobbies[l].timerCanceled ==>
      FirstMissing(order, w.auth) == |order| && ServerInv(FailedToSelectAsWritten(w, l, order), NONE)
  {
    var k := FirstMissing(order, w.auth);
    if k < |order| {
      assert order[k] in Members(w.lobbies[l].lineup);
    }
    if !w.lobbies[l].timerCanceled {
      var w1 := w.(selectTimers := w.selectTimers - {l});
      FiredSelectKeepsInv(w, l);
      FiredSeated(w, l);
      SeatedUnseat(w1, l, order);
      ListedAllFound(order, Members(w.lobbies[l].lineup), w.auth);
      ReachedAll(w, l, order);
      assert FailedToSelectAsWritten(w, l, order) == Idled(w1, Members(w.lobbies[l].lineup));
    }
  }

  /**
   * If the lobby l was canceled (a player left it) and one of its former
   * players has since rejoined matchmaking, the task as written, once its
   * loop reaches that player, sends it to IDLE while the matchmaker keeps
   * it: the invariant fails.
   */
  lemma FailedToSelectAsWrittenBreaksQueue(w: World, l: LobbyId, order: seq<string>, u: string)
    requires ServerInv(w, NONE) && l in w.selectTimers && w.lobbies[l].timerCanceled
    requires Listing(order, Members(w.lobbies[l].lineup))
    requires u in order[..FirstMissing(order, w.auth)] && Has(w, u) && At(w, u).state == IN_MATCHMAKING
    ensures !ServerInv(FailedToSelectAsWritten(w, l, order), NONE)
  {
    assert u in w.waiting;
    ReachedIdle(w, l, order, u);
  }

  /** A user the loop of the task as written reaches is IDLE afterwards; the matchmaker is untouched. */
  lemma ReachedIdle(w: World, l: LobbyId, order: seq<string>, u: string)
    requires AuthOk(w) && u in order[..FirstMissing(order, w.auth)]
    ensures var w' := FailedToSelectAsWritten(w, l, order);
      Has(w', u) && At(w', u).state == IDLE && w'.waiting == w.waiting
  {
    var us := NameSet(order[..FirstMissing(order, w.auth)]);
    AuthOwned(w, us);
    ChangedAt(w.clients, w.auth, us, Unseat, u);
  }

  // ---------------------------------------------------- picking a hero

  /** The player u seated in team t finds itself at getTeamPlayerIndex's index of t. */
  lemma IndexInTeam(lu: Lineup, t: Team, u: string)
    requires ValidLobby(lu) && u in Usernames(TeamOf(lu, t))
    ensures PlayerIndex(lu, u).Ok? && PlayerIndex(lu, u).value < |TeamOf(lu, t)|
    ensures TeamOf(lu, t)[PlayerIndex(lu, u).value].username == u
  {
    if t == Red {
      var b :| 0 <= b < |lu.red| && Usernames(lu.red)[b] == u;
      var all := Usernames(lu.blue) + Usernames(lu.red);
      forall a | 0 <= a < |lu.blue| ensures Usernames(lu.blue)[a] != u {
        assert all[a] == Usernames(lu.blue)[a] && all[|lu.blue| + b] == u;
      }
    }
  }

  /** A setHero keeps every username in its place. */
  lemma SetHeroKeepsNames(ps: seq<LobbyPlayer>, i: nat, hero: Hero)
    requires i < |ps|
    ensures Usernames(ps[i := ps[i].(selectedHero := Some(hero))]) == Usernames(ps)
  {
    var qs := ps[i := ps[i].(selectedHero := Some(hero))];
    assert forall k :: 0 <= k < |ps| ==> Usernames(qs)[k] == Usernames(ps)[k];
  }

  /** trySelectHero, accepted or not, keeps a valid lobby valid, with the same players in the same slots. */
  lemma SelectKeepsLobby(lu: Lineup, t: Team, i: nat, hero: Hero)
    requires ValidLobby(lu) && i < |TeamOf(lu, t)| && IsHero(hero)
    ensures ValidLobby(SelectAsWritten(lu, t, i, hero).1) && SameSeats(lu, SelectAsWritten(lu, t, i, hero).1)
  {
    SelectAsWrittenKeepsReservedHeld(lu, t, i, hero);
    var r := SelectAsWritten(lu, t, i, hero).1;
    if SelectAsWritten(lu, t, i, hero).0 {
      if t == Blue {
        SetHeroKeepsNames(lu.blue, i, hero);
        assert r.blue == lu.blue[i := lu.blue[i].(selectedHero := Some(hero))];
      } else {
        SetHeroKeepsNames(lu.red, i, hero);
        assert r.red == lu.red[i := lu.red[i].(selectedHero := Some(hero))];
      }
    }
  }

  // ---------------------------------------------------- a match is played

  /** 0.8 + 0.4 * r.nextDouble(): the rank change drawn for one player. */
  predicate IsDelta(d: real) {
    4.0 / 5.0 <= d < 6.0 / 5.0
  }

  predicate AllDeltas(ds: seq<real>) {
    forall i :: 0 <= i < |ds| ==> IsDelta(ds[i])
  }

  /**
   * A player's account after the match: a winner has one more win and its
   * rank up by d but at most MAX_RANK, a loser one more loss and its rank
   * down by d but at least MIN_RANK.
   */
  function Scored(a: AccountState, won: bool, d: real): (r: AccountState)
    requires IsDelta(d)
    ensures r.password == a.password
    ensures r.numWonMatches == a.numWonMatches + (if won then 1 else 0)
    ensures r.numLostMatches == a.numLostMatches + (if won then 0 else 1)
    ensures IsDoubleRank(a.rank) ==> IsDoubleRank(r.rank)
    ensures IsDoubleRank(a.rank) && won ==> a.rank < r.rank <= a.rank + d || r.rank == a.rank == MAX_RANK as real
    ensures IsDoubleRank(a.rank) && !won ==> a.rank - d <= r.rank < a.rank || r.rank == a.rank == MIN_RANK as real
    ensures r.rank != a.rank + d && r.rank != a.rank - d ==> r.rank == (if won then MAX_RANK else MIN_RANK) as real
  {
    var k := if won then a.rank + d else a.rank - d;
    var rank := if won && k > MAX_RANK as real then MAX_RANK as real
                else if !won && k < MIN_RANK as real then MIN_RANK as real
                else k;
    AccountState(a.password, a.numWonMatches + (if won then 1 else 0), a.numLostMatches + (if won then 0 else 1), rank)
  }

  /** Scoring keeps an account valid. */
  lemma ScoredValid(u: string, a: AccountState, won: bool, d: real)
    requires IsAccount(u, a) && IsDelta(d)
    ensures IsAccount(u, Scored(a, won, d))
  {
  }

  /** No username appears twice. */
  predicate NoRepeats(us: seq<string>) {
    forall i, j :: 0 <= i < j < |us| ==> us[i] != us[j]
  }

  /**
   * The forEach over a team's list: each player's account, as it then is,
   * Scored with the delta drawn for its slot.
   */
  function ScoredTeam(acc: map<string, AccountState>, us: seq<string>, won: bool, ds: seq<real>): (r: map<string, AccountState>)
    requires |ds| == |us| && AllDeltas(ds) && forall i :: 0 <= i < |us| ==> us[i] in acc
    ensures r.Keys == acc.Keys
    ensures forall v :: v in acc && v !in us ==> r[v] == acc[v]
    ensures NoRepeats(us) ==> forall i :: 0 <= i < |us| ==> r[us[i]] == Scored(acc[us[i]], won, ds[i])
  {
    if us == [] then acc
    else
      var k := |us| - 1;
      var p := ScoredTeam(acc, us[..k], won, ds[..k]);
      ScoredLast(acc, us, won, ds, us[..k], ds[..k], p);
      p[us[k] := Scored(p[us[k]], won, ds[k])]
  }

  /** ScoredTeam's last turn, given what the turns before it did (p). */
  lemma ScoredLast(acc: map<string, AccountState>, us: seq<string>, won: bool, ds: seq<real>,
                    front: seq<string>, dfront: seq<real>, p: map<string, AccountState>)
    requires us != [] && |ds| == |us| && AllDeltas(ds) && forall i :: 0 <= i < |us| ==> us[i] in acc
    requires front == us[..|us| - 1] && dfront == ds[..|us| - 1]
    requires p.Keys == acc.Keys
    requires forall v :: v in acc && v !in front ==> p[v] == acc[v]
    requires NoRepeats(front) ==> forall i :: 0 <= i < |front| ==> p[front[i]] == Scored(acc[front[i]], won, dfront[i])
    ensures var k := |us| - 1; var r := p[us[k] := Scored(p[us[k]], won, ds[k])];
      && r.Keys == acc.Keys
      && (forall v :: v in acc && v !in us ==> r[v] == acc[v])
      && (NoRepeats(us) ==> forall i :: 0 <= i < |us| ==> r[us[i]] == Scored(acc[us[i]], won, ds[i]))
  {
    var k := |us| - 1;
    var r := p[us[k] := Scored(p[us[k]], won, ds[k])];
    forall v | v in acc && v !in us ensures r[v] == acc[v] {
      assert v !in us[..k];
    }
    if NoRepeats(us) {
      assert NoRepeats(us[..k]);
      assert us[k] !in us[..k];
      forall i | 0 <= i < |us| ensures r[us[i]] == Scored(acc[us[i]], won, ds[i]) {
        if i < k {
          assert us[..k][i] == us[i] && ds[..k][i] == ds[i];
          assert us[i] != us[k];
        }
      }
    }
  }

  /** Both loops over the accounts: the winners' team, then the other. */
  function Rewarded(acc: map<string, AccountState>, lu: Lineup, winner: Team, wins: seq<real>, losses: seq<real>)
    : map<string, AccountState>
    requires ValidLobby(lu) && Members(lu) <= acc.Keys
    requires |wins| == TEAM_SIZE && |losses| == TEAM_SIZE && AllDeltas(wins) && AllDeltas(losses)
  {
    var first := ScoredTeam(acc, Usernames(TeamOf(lu, winner)), true, wins);
    ScoredTeam(first, Usernames(TeamOf(lu, OtherTeam(winner))), false, losses)
  }

  /** The two teams of a valid lobby share no player, and no team repeats one. */
  lemma TeamsApart(lu: Lineup, t: Team)
    requires ValidLobby(lu)
    ensures NoRepeats(Usernames(TeamOf(lu, t))) && NoRepeats(Usernames(TeamOf(lu, OtherTeam(t))))
    ensures forall i :: 0 <= i < TEAM_SIZE ==> TeamOf(lu, t)[i].username !in Usernames(TeamOf(lu, OtherTeam(t)))
  {
    UniqueBySlot(lu);
    var mine, theirs := TeamOf(lu, t), TeamOf(lu, OtherTeam(t));
    forall i, j | 0 <= i < j < TEAM_SIZE ensures mine[i].username != mine[j].username && theirs[i].username != theirs[j].username {
    }
    forall i, j | 0 <= i < TEAM_SIZE && 0 <= j < TEAM_SIZE ensures mine[i].username != theirs[j].username {
    }
  }

  /** Two team loops over disjoint teams: each player Scored once, with its own slot's delta. */
  lemma ScoredTwice(acc: map<string, AccountState>, ws: seq<string>, ls: seq<string>, wins: seq<real>, losses: seq<real>)
    requires |wins| == |ws| && |losses| == |ls| && AllDeltas(wins) && AllDeltas(losses)
    requires (forall i :: 0 <= i < |ws| ==> ws[i] in acc && ws[i] !in ls) && forall i :: 0 <= i < |ls| ==> ls[i] in acc
    requires NoRepeats(ws) && NoRepeats(ls)
    ensures ScoredTeam(ScoredTeam(acc, ws, true, wins), ls, false, losses).Keys == acc.Keys
    ensures forall v :: v in acc && v !in ws && v !in ls ==> ScoredTeam(ScoredTeam(acc, ws, true, wins), ls, false, losses)[v] == acc[v]
    ensures forall i :: 0 <= i < |ws| ==> ScoredTeam(ScoredTeam(acc, ws, true, wins), ls, false, losses)[ws[i]] == Scored(acc[ws[i]], true, wins[i])
    ensures forall i :: 0 <= i < |ls| ==> ScoredTeam(ScoredTeam(acc, ws, true, wins), ls, false, losses)[ls[i]] == Scored(acc[ls[i]], false, losses[i])
  {
  }

  /** The winners' accounts after a played match: each Scored as a win with its slot's delta. */
  lemma RewardedWinners(acc: map<string, AccountState>, lu: Lineup, winner: Team, wins: seq<real>, losses: seq<real>)
    requires ValidLobby(lu) && Members(lu) <= acc.Keys
    requires |wins| == TEAM_SIZE && |losses| == TEAM_SIZE && AllDeltas(wins) && AllDeltas(losses)
    ensures forall i :: 0 <= i < TEAM_SIZE ==>
      Rewarded(acc, lu, winner, wins, losses)[Usernames(TeamOf(lu, winner))[i]]
        == Scored(acc[Usernames(TeamOf(lu, winner))[i]], true, wins[i])
  {
    TeamsApart(lu, winner);
    ScoredTwice(acc, Usernames(TeamOf(lu, winner)), Usernames(TeamOf(lu, OtherTeam(winner))), wins, losses);
  }

  /** The losers' accounts after a played match: each Scored as a loss with its slot's delta. */
  lemma RewardedLosers(acc: map<string, AccountState>, lu: Lineup, winner: Team, wins: seq<real>, losses: seq<real>)
    requires ValidLobby(lu) && Members(lu) <= acc.Keys
    requires |wins| == TEAM_SIZE && |losses| == TEAM_SIZE && AllDeltas(wins) && AllDeltas(losses)
    ensures forall i :: 0 <= i < TEAM_SIZE ==>
      Rewarded(acc, lu, winner, wins, losses)[Usernames(TeamOf(lu, OtherTeam(winner)))[i]]
        == Scored(acc[Usernames(TeamOf(lu, OtherTeam(winner)))[i]], false, losses[i])
  {
    TeamsApart(lu, winner);
    ScoredTwice(acc, Usernames(TeamOf(lu, winner)), Usernames(TeamOf(lu, OtherTeam(winner))), wins, losses);
  }

  /** A played match touches no account but its players'. */
  lemma RewardedOthers(acc: map<string, AccountState>, lu: Lineup, winner: Team, wins: seq<real>, losses: seq<real>)
    requires ValidLobby(lu) && Members(lu) <= acc.Keys
    requires |wins| == TEAM_SIZE && |losses| == TEAM_SIZE && AllDeltas(wins) && AllDeltas(losses)
    ensures Rewarded(acc, lu, winner, wins, losses).Keys == acc.Keys
    ensures forall v :: v in acc && v !in Members(lu) ==> Rewarded(acc, lu, winner, wins, losses)[v] == acc[v]
  {
    TeamsApart(lu, winner);
    ScoredTwice(acc, Usernames(TeamOf(lu, winner)), Usernames(TeamOf(lu, OtherTeam(winner))), wins, losses);
  }

  /**
   * After a played match, each winner's account is Scored as a win with
   * its slot's delta, each loser's as a loss, and every other account is
   * as it was.
   */
  lemma RewardedAccounts(acc: map<string, AccountState>, lu: Lineup, winner: Team, wins: seq<real>, losses: seq<real>)
    requires ValidLobby(lu) && Members(lu) <= acc.Keys
    requires |wins| == TEAM_SIZE && |losses| == TEAM_SIZE && AllDeltas(wins) && AllDeltas(losses)
    ensures Rewarded(acc, lu, winner, wins, losses).Keys == acc.Keys
    ensures forall v :: v in acc && v !in Members(lu) ==> Rewarded(acc, lu, winner, wins, losses)[v] == acc[v]
    ensures forall i :: 0 <= i < TEAM_SIZE ==>
      Rewarded(acc, lu, winner, wins, losses)[TeamOf(lu, winner)[i].username]
        == Scored(acc[TeamOf(lu, winner)[i].username], true, wins[i])
    ensures forall i :: 0 <= i < TEAM_SIZE ==>
      Rewarded(acc, lu, winner, wins, losses)[TeamOf(lu, OtherTeam(winner))[i].username]
        == Scored(acc[TeamOf(lu, OtherTeam(winner))[i].username], false, losses[i])
  {
    RewardedOthers(acc, lu, winner, wins, losses);
    RewardedWinners(acc, lu, winner, wins, losses);
    RewardedLosers(acc, lu, winner, wins, losses);
  }

  /** Every player of a lineup is in the one team or in the other. */
  lemma TeamsCover(lu: Lineup, t: Team)
    ensures forall v :: v in Members(lu) ==> v in Usernames(TeamOf(lu, t)) || v in Usernames(TeamOf(lu, OtherTeam(t)))
  {
  }

  /** After a played match the account of u is still valid. */
  lemma RewardedOneValid(acc: map<string, AccountState>, lu: Lineup, winner: Team, wins: seq<real>, losses: seq<real>, u: string)
    requires ValidLobby(lu) && Members(lu) <= acc.Keys && forall v :: v in acc ==> IsAccount(v, acc[v])
    requires |wins| == TEAM_SIZE && |losses| == TEAM_SIZE && AllDeltas(wins) && AllDeltas(losses)
    requires u in Rewarded(acc, lu, winner, wins, losses)
    ensures IsAccount(u, Rewarded(acc, lu, winner, wins, losses)[u])
  {
    var r := Rewarded(acc, lu, winner, wins, losses);
    RewardedOthers(acc, lu, winner, wins, losses);
    assert u in acc;
    var ws, ls := Usernames(TeamOf(lu, winner)), Usernames(TeamOf(lu, OtherTeam(winner)));
    if u in ls {
      var i :| 0 <= i < TEAM_SIZE && ls[i] == u;
      RewardedLosers(acc, lu, winner, wins, losses);
      assert r[u] == Scored(acc[u], false, losses[i]);
      ScoredValid(u, acc[u], false, losses[i]);
    } else if u in ws {
      var i :| 0 <= i < TEAM_SIZE && ws[i] == u;
      RewardedWinners(acc, lu, winner, wins, losses);
      assert r[u] == Scored(acc[u], true, wins[i]);
      ScoredValid(u, acc[u], true, wins[i]);
    } else {
      TeamsCover(lu, winner);
    }
  }

  /** After a played match every account is still valid. */
  lemma RewardedValid(acc: map<string, AccountState>, lu: Lineup, winner: Team, wins: seq<real>, losses: seq<real>)
    requires ValidLobby(lu) && Members(lu) <= acc.Keys && forall u :: u in acc ==> IsAccount(u, acc[u])
    requires |wins| == TEAM_SIZE && |losses| == TEAM_SIZE && AllDeltas(wins) && AllDeltas(losses)
    ensures forall u :: u in Rewarded(acc, lu, winner, wins, losses) ==> IsAccount(u, Rewarded(acc, lu, winner, wins, losses)[u])
  {
    forall u | u in Rewarded(acc, lu, winner, wins, losses)
      ensures IsAccount(u, Rewarded(acc, lu, winner, wins, losses)[u])
    {
      RewardedOneValid(acc, lu, winner, wins, losses, u);
    }
  }

  /** A prefix of the team one player longer has that player Scored at the end. */
  lemma ScoredTeamStep(acc: map<string, AccountState>, us: seq<string>, won: bool, ds: seq<real>, i: int)
    requires |ds| == |us| && AllDeltas(ds) && (forall j :: 0 <= j < |us| ==> us[j] in acc) && 0 <= i < |us|
    ensures ScoredTeam(acc, us[..i + 1], won, ds[..i + 1])
      == ScoredTeam(acc, us[..i], won, ds[..i])[us[i] := Scored(ScoredTeam(acc, us[..i], won, ds[..i])[us[i]], won, ds[i])]
  {
    assert us[..i + 1][..i] == us[..i];
    assert ds[..i + 1][..i] == ds[..i];
  }

  /** The forEach over a team's list that scores each player with its slot's delta. */
  method ScoreTeam(acc: map<string, AccountState>, us: seq<string>, won: bool, ds: seq<real>)
    returns (r: map<string, AccountState>)
    requires |ds| == |us| && AllDeltas(ds) && forall i :: 0 <= i < |us| ==> us[i] in acc
    ensures r == ScoredTeam(acc, us, won, ds)
  {
    r := acc;
    for i := 0 to |us|
      invariant r == ScoredTeam(acc, us[..i], won, ds[..i])
    {
      ScoredTeamStep(acc, us, won, ds, i);
      r := r[us[i] := Scored(r[us[i]], won, ds[i])];
    }
    assert us[..|us|] == us && ds[..|ds|] == ds;
  }

  // ------------------------------------------------ a player's seat

  /**
   * The seat of the client c IN_LOBBY: its lobby, that lobby's lineup, its
   * team, and the index getTeamPlayerIndex gives its player in that team.
   */
  ghost function SeatOf(w: World, c: ClientId): (r: (LobbyId, Lineup, Team, nat))
    requires ServerInv(w, NONE) && c in w.clients && w.clients[c].state == IN_LOBBY
    ensures w.clients[c].lobby == Some(r.0) && w.clients[c].team == Some(r.2) && w.clients[c].account.Some?
    ensures LiveLobby(w, r.0) && w.lobbies[r.0].lineup == r.1
    ensures PlayerIndex(r.1, w.clients[c].account.value) == Ok(r.3)
    ensures r.3 < TEAM_SIZE && TeamOf(r.1, r.2)[r.3].username == w.clients[c].account.value
  {
    LobbyOf(w, c);
    var u, l, t := w.clients[c].account.value, w.clients[c].lobby.value, w.clients[c].team.value;
    IndexInTeam(w.lobbies[l].lineup, t, u);
    (l, w.lobbies[l].lineup, t, PlayerIndex(w.lobbies[l].lineup, u).value)
  }

  /** The players of a live lobby are logged in, filed and not waiting. */
  lemma LobbyFiled(w: World, l: LobbyId)
    requires ServerInv(w, NONE) && LiveLobby(w, l)
    ensures var lu := w.lobbies[l].lineup;
      && Members(lu) <= w.auth.Keys && Members(lu) <= w.accounts.Keys
      && (forall v :: v in Members(lu) ==> v !in w.waiting)
  {
    var lu := w.lobbies[l].lineup;
    forall v | v in Members(lu) ensures Has(w, v) && At(w, v).lobby == Some(l) {
      if v in Usernames(lu.blue) {
        var i :| 0 <= i < |lu.blue| && Usernames(lu.blue)[i] == v;
      } else {
        var i :| 0 <= i < |lu.red| && Usernames(lu.red)[i] == v;
      }
    }
    forall v | v in Members(lu) ensures v in w.accounts && v !in w.waiting {
      assert WellFormedSession(At(w, v));
    }
  }

  /** Each player of either team of a live lobby is logged in. */
  lemma TeamAuthed(w: World, l: LobbyId, t: Team)
    requires ServerInv(w, NONE) && LiveLobby(w, l)
    ensures forall k :: 0 <= k < TEAM_SIZE ==> Usernames(TeamOf(w.lobbies[l].lineup, t))[k] in w.auth
  {
    LobbyFiled(w, l);
    var us := Usernames(TeamOf(w.lobbies[l].lineup, t));
    forall k | 0 <= k < TEAM_SIZE ensures us[k] in w.auth {
      assert us[k] in us;
    }
  }

  // ---------------------------------------------------- selecting a hero

  /**
   * trySelectHero by the client c IN_LOBBY at its own seat: whether the
   * hero was taken, and the lobby's new lineup, valid with the same seats.
   */
  ghost function PickOf(w: World, c: ClientId, hero: Hero): (r: (bool, Lineup))
    requires ServerInv(w, NONE) && c in w.clients && w.clients[c].state == IN_LOBBY && IsHero(hero)
    ensures ValidLobby(r.1) && SameSeats(SeatOf(w, c).1, r.1)
  {
    var s := SeatOf(w, c);
    SelectKeepsLobby(s.1, s.2, s.3, hero);
    SelectAsWritten(s.1, s.2, s.3, hero)
  }

  /** The world once the pick of c is stored in its lobby. */
  ghost function Picked(w: World, c: ClientId, hero: Hero): World
    requires ServerInv(w, NONE) && c in w.clients && w.clients[c].state == IN_LOBBY && IsHero(hero)
  {
    var l := SeatOf(w, c).0;
    w.(lobbies := w.lobbies[l := w.lobbies[l].(lineup := PickOf(w, c, hero).1)])
  }

  /**
   * One sendPlayerSelectedHero, with the index of c and the hero, to each
   * player of the team of c in team order if the hero was taken; nothing
   * otherwise.
   */
  ghost function PickTold(w: World, c: ClientId, hero: Hero): seq<Delivery>
    requires ServerInv(w, NONE) && c in w.clients && w.clients[c].state == IN_LOBBY && IsHero(hero)
  {
    var s := SeatOf(w, c);
    TeamAuthed(w, s.0, s.2);
    if PickOf(w, c, hero).0 then
      Tell(w.auth, Usernames(TeamOf(PickOf(w, c, hero).1, s.2)), PlayerSelectedHero(s.3, hero))
    else []
  }

  /** The pick of c keeps the invariant, and its lobby live. */
  lemma PickStep(w: World, c: ClientId, hero: Hero)
    requires ServerInv(w, NONE) && c in w.clients && w.clients[c].state == IN_LOBBY && IsHero(hero)
    ensures ServerInv(Picked(w, c, hero), NONE) && LiveLobby(Picked(w, c, hero), SeatOf(w, c).0)
  {
    var s := SeatOf(w, c);
    ReviseLobbyKeepsInv(w, s.0, PickOf(w, c, hero).1, NONE);
    LobbyOf(Picked(w, c, hero), c);
  }

  /**
   * The accounts of the players of the live lobby l are filed, every
   * account is valid, and no waiting player sits in l.
   */
  lemma ScoreStep(w: World, l: LobbyId)
    requires ServerInv(w, NONE) && LiveLobby(w, l)
    ensures Members(w.lobbies[l].lineup) <= w.accounts.Keys
    ensures forall t: Team, k :: 0 <= k < TEAM_SIZE ==> Usernames(TeamOf(w.lobbies[l].lineup, t))[k] in w.accounts
    ensures forall u :: u in w.accounts ==> IsAccount(u, w.accounts[u])
    ensures forall u :: u in w.waiting ==> u in w.accounts && u !in Members(w.lobbies[l].lineup)
  {
    var lu := w.lobbies[l].lineup;
    LobbyFiled(w, l);
    forall t: Team, k | 0 <= k < TEAM_SIZE ensures Usernames(TeamOf(lu, t))[k] in w.accounts {
      assert Usernames(TeamOf(lu, t))[k] in Usernames(TeamOf(lu, t));
    }
  }

  /** A played match keeps every account filed and valid, and the rank of everyone outside the lobby. */
  lemma RewardedRefile(acc: map<string, AccountState>, lu: Lineup, winner: Team, wins: seq<real>, losses: seq<real>,
                       waiting: map<string, int>)
    requires ValidLobby(lu) && Members(lu) <= acc.Keys && forall u :: u in acc ==> IsAccount(u, acc[u])
    requires |wins| == TEAM_SIZE && |losses| == TEAM_SIZE && AllDeltas(wins) && AllDeltas(losses)
    requires forall u :: u in waiting ==> u in acc && u !in Members(lu)
    ensures var r := Rewarded(acc, lu, winner, wins, losses);
      && (forall u :: u in acc ==> u in r)
      && (forall u :: u in r ==> IsAccount(u, r[u]))
      && (forall u :: u in waiting ==> u in r && r[u].rank == acc[u].rank)
  {
    RewardedOthers(acc, lu, winner, wins, losses);
    RewardedValid(acc, lu, winner, wins, losses);
  }

  /** A live lobby stays live whatever the account directory holds. */
  lemma RefiledLive(w: World, acc: map<string, AccountState>, l: LobbyId)
    requires LiveLobby(w, l)
    ensures LiveLobby(w.(accounts := acc), l)
  {
    var lu := w.lobbies[l].lineup;
    SeatedFrame(w, w.(accounts := acc), l, lu.blue, Blue, Members(lu));
    SeatedFrame(w, w.(accounts := acc), l, lu.red, Red, Members(lu));
  }

  /** Canceling the live lobby l leaves each of its players releasable, with l exempt. */
  lemma EndStep(w: World, l: LobbyId)
    requires ServerInv(w, NONE) && LiveLobby(w, l)
    ensures var x := NONE.(lobbies := {l}); var w1 := LobbyCanceled(w, l);
      && ServerInv(w1, x) && (forall u :: u in Members(w.lobbies[l].lineup) ==> Releasable(w1, u, x))
      && w1.lobbies[l].lineup == w.lobbies[l].lineup
  {
    CancelLobbyKeepsInv(w, l, NONE);
    CanceledSeated(w, l);
    SeatedReleasable(LobbyCanceled(w, l), l, Members(w.lobbies[l].lineup), NONE.(lobbies := {l}));
  }

  /** Once every player of the canceled lobby l is IDLE, nothing is exempt. */
  lemma EndedStep(w: World, l: LobbyId)
    requires ServerInv(w, NONE) && l in w.lobbies
    requires ServerInv(Idled(LobbyCanceled(w, l), Members(w.lobbies[l].lineup)), NONE.(lobbies := {l}))
    ensures ServerInv(Idled(LobbyCanceled(w, l), Members(w.lobbies[l].lineup)), NONE)
  {
    var x := NONE.(lobbies := {l});
    var w1 := LobbyCanceled(w, l);
    var us := Members(w.lobbies[l].lineup);
    CancelLobbyKeepsInv(w, l, NONE);
    assert NONE.(lobbies := NONE.lobbies + {l}) == x;
    EmptiedLobby(w1, l, us, {l});
    ReleaseLobbyKeepsInv(Idled(w1, us), l, x);
    assert x.(lobbies := x.lobbies - {l}) == NONE;
  }

  /** The random values of one played match: r.nextInt(2), each slot's draws, each slot's rank change. */
  datatype Dice = Dice(winner: int, blue: seq<Draw>, red: seq<Draw>, wins: seq<real>, losses: seq<real>)

  predicate IsDice(d: Dice) {
    && 0 <= d.winner < 2 && |d.blue| == TEAM_SIZE && |d.red| == TEAM_SIZE && AllDraws(d.blue) && AllDraws(d.red)
    && |d.wins| == TEAM_SIZE && |d.losses| == TEAM_SIZE && AllDeltas(d.wins) && AllDeltas(d.losses)
  }

  /**
   * The match of lobby l is played with winner and d: every player's
   * account Rewarded, the timer of l canceled and every player IDLE.
   */
  ghost function MatchOver(w: World, l: LobbyId, winner: Team, d: Dice): (r: World)
    requires l in w.lobbies && ValidLobby(w.lobbies[l].lineup) && Members(w.lobbies[l].lineup) <= w.accounts.Keys
    requires IsDice(d)
    ensures r.accounts.Keys == w.accounts.Keys && r.auth == w.auth
  {
    var lu := w.lobbies[l].lineup;
    RewardedOthers(w.accounts, lu, winner, d.wins, d.losses);
    Idled(LobbyCanceled(w.(accounts := Rewarded(w.accounts, lu, winner, d.wins, d.losses)), l), Members(lu))
  }

  /**
   * SELECT_HERO from the client c IN_LOBBY: the pick is stored and its
   * team told of it if taken; if now every player has a hero, the match is
   * played with d, the accounts Rewarded, the lobby canceled, and every
   * player IDLE and sent MATCH_PLAYED with the summary and its new integer
   * rank, after the PLAYER_SELECTED_HERO calls.
   */
  ghost predicate HeroSelected(w: World, w': World, c: ClientId, hero: Hero, d: Dice, sent: seq<Delivery>)
    requires ServerInv(w, NONE) && c in w.clients && w.clients[c].state == IN_LOBBY && IsHero(hero) && IsDice(d)
  {
    var l, lu, told := SeatOf(w, c).0, PickOf(w, c, hero).1, PickTold(w, c, hero);
    LobbyFiled(w, l);
    if AllSelected(lu.blue) && AllSelected(lu.red) then
      var s := Play(lu, d.winner, d.blue, d.red);
      var w1 := Picked(w, c, hero);
      && w' == MatchOver(w1, l, s.winner, d)
      && |told| <= |sent| && sent[..|told|] == told
      && PlayedOncePerUser(sent[|told|..], w.auth, w'.accounts, Members(lu), s)
    else
      w' == Picked(w, c, hero) && sent == told
  }

  /** The whole of a select-hero that played the match, from its parts. */
  lemma SelectedAndPlayed(w: World, w1: World, w': World, c: ClientId, hero: Hero, d: Dice,
                          told: seq<Delivery>, played: seq<Delivery>)
    requires ServerInv(w, NONE) && c in w.clients && w.clients[c].state == IN_LOBBY && IsHero(hero) && IsDice(d)
    requires w1 == Picked(w, c, hero) && told == PickTold(w, c, hero)
    requires var lu := PickOf(w, c, hero).1; AllSelected(lu.blue) && AllSelected(lu.red)
    requires var l, lu := SeatOf(w, c).0, PickOf(w, c, hero).1; var s := Play(lu, d.winner, d.blue, d.red);
      && Members(lu) <= w.accounts.Keys && Members(lu) <= w.auth.Keys
      && w' == MatchOver(w1, l, s.winner, d)
      && PlayedOncePerUser(played, w.auth, w'.accounts, Members(lu), s)
    ensures HeroSelected(w, w', c, hero, d, told + played)
  {
    var all := told + played;
    assert all[..|told|] == told && all[|told|..] == played;
  }

  // ------------------------------------------------------ disconnecting

  /**
   * onDisconnect of the client c IN_LOBBY: the timer of its lobby is
   * canceled, every other player of it goes IDLE and is sent LOBBY_DIED
   * (PLAYER_LEFT), and c is gone with its player.
   */
  ghost predicate LeftLobby(w: World, w': World, c: ClientId, sent: seq<Delivery>)
    requires ServerInv(w, NONE) && c in w.clients && w.clients[c].state == IN_LOBBY
  {
    LobbyOf(w, c);
    var l, u := w.clients[c].lobby.value, w.clients[c].account.value;
    var us := Members(w.lobbies[l].lineup) - {u};
    LobbyFiled(w, l);
    && w' == Drop(Idled(LobbyCanceled(w, l), us), c)
    && OncePerUser(sent, w.auth, us, LobbyDied(PlayerLeft))
  }

  /**
   * onDisconnect of the client c in MATCH_FOUND: its MatchFound is
   * canceled and taken apart for the other players, and c is gone with its
   * player.
   */
  ghost predicate LeftMatch(w: World, w': World, c: ClientId, sent: seq<Delivery>, t: string)
    requires ServerInv(w, NONE) && c in w.clients && w.clients[c].state == MATCH_FOUND
  {
    MatchOf(w, c);
    var u, m := w.clients[c].account.value, w.clients[c].matchFound.value;
    && Dissolved(Canceled(w, m), w', {u}, m, sent, t)
    && c !in w'.clients && u !in w'.auth
  }

  /** onDisconnect of the client c IN_MATCHMAKING: its player leaves the matchmaker, and c is gone with it. */
  ghost predicate LeftQueue(w: World, w': World, c: ClientId)
    requires ServerInv(w, NONE) && c in w.clients && w.clients[c].state == IN_MATCHMAKING
  {
    assert WellFormedSession(w.clients[c]);
    w' == Drop(w.(waiting := w.waiting - {w.clients[c].account.value}), c)
  }

  /**
   * onDisconnect of the client c, by its state (LeftLobby, LeftMatch,
   * LeftQueue); in any other state c is just gone, with its player if it
   * logged in.
   */
  ghost predicate Disconnected(w: World, w': World, c: ClientId, sent: seq<Delivery>, t: string)
    requires ServerInv(w, NONE) && c in w.clients
  {
    var state := w.clients[c].state;
    if state == IN_LOBBY then LeftLobby(w, w', c, sent)
    else if state == MATCH_FOUND then LeftMatch(w, w', c, sent, t)
    else if state == IN_MATCHMAKING then sent == [] && LeftQueue(w, w', c)
    else sent == [] && w' == Drop(w, c)
  }

  /** Dropping the client c of the logged-in u leaves every other user as it was. */
  lemma DropKeepsOthers(w: World, c: ClientId, u: string)
    requires AuthOk(w) && Has(w, u) && w.auth[u] == c
    ensures forall v :: Has(Drop(w, c), v) <==> v != u && Has(w, v)
    ensures forall v :: Has(Drop(w, c), v) ==> At(Drop(w, c), v) == At(w, v)
  {
    forall v | v != u && Has(w, v) ensures w.auth[v] != c {
      if w.auth[v] == c {
        AuthInjective(w, u, v);
      }
    }
  }

  /** Once the other players of l are IDLE, only u can still sit in l. */
  lemma OnlyLeaverSeated(w1: World, u: string, l: LobbyId)
    requires AuthOk(w1) && InLobbies(w1, {l}) && l in w1.lobbies
    ensures var w2 := Idled(w1, Members(w1.lobbies[l].lineup) - {u});
      forall v :: Has(w2, v) && At(w2, v).lobby == Some(l) ==> v == u
  {
    var us := Members(w1.lobbies[l].lineup) - {u};
    IdledRecords(w1, us);
    forall v | Has(w1, v) && v !in us && At(w1, v).lobby == Some(l) ensures v == u {
      assert SeatedIn(w1, l, At(w1, v).team.value, v);
    }
  }

  /**
   * Once its lobby l is canceled and every other player of l is IDLE, the
   * client c of u, seated in l, can go.
   */
  lemma LeaverDrops(w1: World, w2: World, c: ClientId, u: string, l: LobbyId)
    requires ServerInv(w2, NONE.(lobbies := {l})) && AuthOk(w1) && InLobbies(w1, {l})
    requires l in w1.lobbies && w1.lobbies[l].timerCanceled
    requires Has(w1, u) && w1.auth[u] == c && At(w1, u).lobby == Some(l) && u !in w1.waiting
    requires w2 == Idled(w1, Members(w1.lobbies[l].lineup) - {u})
    ensures c in w2.clients && ServerInv(Drop(w2, c), NONE)
  {
    var x := NONE.(lobbies := {l});
    LeaverGoes(w1, w2, c, u, l);
    OnlyLeaverSeated(w1, u, l);
    DropKeepsOthers(w2, c, u);
    ReleaseLobbyKeepsInv(Drop(w2, c), l, x);
    assert x.(lobbies := x.lobbies - {l}) == NONE;
  }

  /** The client c of u can go while l is still exempt; u is the same in w2 as in w1. */
  lemma LeaverGoes(w1: World, w2: World, c: ClientId, u: string, l: LobbyId)
    requires ServerInv(w2, NONE.(lobbies := {l})) && AuthOk(w1)
    requires Has(w1, u) && w1.auth[u] == c && At(w1, u).lobby == Some(l) && u !in w1.waiting
    requires l in w1.lobbies && w2 == Idled(w1, Members(w1.lobbies[l].lineup) - {u})
    ensures c in w2.clients && Has(w2, u) && w2.auth[u] == c
    ensures ServerInv(Drop(w2, c), NONE.(lobbies := {l}))
  {
    var x := NONE.(lobbies := {l});
    IdledRecords(w1, Members(w1.lobbies[l].lineup) - {u});
    assert Has(w2, u) && At(w2, u) == At(w1, u);
    assert WellFormedSession(At(w1, u));
    assert x.(pending := x.pending - {u}) == x;
    DropKeepsInv(w2, c, x);
  }

  /** The client c in CONNECTED or IDLE holds nothing and can go. */
  lemma IdleDrops(w: World, c: ClientId)
    requires ServerInv(w, NONE) && c in w.clients && w.clients[c].state in {CONNECTED, IDLE}
    ensures ServerInv(Drop(w, c), NONE)
  {
    assert WellFormedSession(w.clients[c]);
    if LoggedIn(w.clients[c]) {
      var u := w.clients[c].account.value;
      assert NONE.(pending := NONE.pending - {u}) == NONE;
    } else {
      assert NONE.(pending := NONE.pending - {}) == NONE;
    }
    DropKeepsInv(w, c, NONE);
  }

  /** The whole of a disconnect from MATCH_FOUND, from its parts. */
  lemma DisconnectedFromMatch(w: World, mid: World, w': World, c: ClientId, u: string, m: MatchId, sent: seq<Delivery>,
                              t: string, progressed: bool)
    requires ServerInv(w, NONE) && c in w.clients && w.clients[c].state == MATCH_FOUND
    requires w.clients[c].account == Some(u) && w.clients[c].matchFound == Some(m)
    requires m in w.matches && u in w.matches[m].players
    requires progressed && progressed == Progress(Canceled(w, m), mid, w.matches[m].players.Keys - {u}, sent, t)
    requires AuthOk(mid) && Has(mid, u) && mid.auth[u] == c && mid.clients[c] == w.clients[c]
    requires w' == Drop(mid, c)
    ensures LeftMatch(w, w', c, sent, t)
  {
    DropKeepsOthers(mid, c, u);
    DissolvedAfter(Canceled(w, m), mid, w', {u}, m, sent, t);
  }

  /** Once m is taken apart, dropping the client c of its last holder u keeps the invariant, as LeftMatch says. */
  lemma DroppedFromMatch(w: World, mid: World, c: ClientId, u: string, m: MatchId, sent: seq<Delivery>,
                         t: string, progressed: bool)
    requires ServerInv(w, NONE) && c in w.clients && w.clients[c].state == MATCH_FOUND
    requires w.clients[c].account == Some(u) && w.clients[c].matchFound == Some(m)
    requires m in w.matches && u in w.matches[m].players
    requires progressed && progressed == Progress(Canceled(w, m), mid, w.matches[m].players.Keys - {u}, sent, t)
    requires ServerInv(mid, NONE.(matches := {m})) && Has(mid, u) && mid.auth[u] == c && mid.clients[c] == w.clients[c]
    requires forall v :: Has(mid, v) && At(mid, v).matchFound == Some(m) ==> v == u
    requires m in mid.matches && mid.matches[m].timerCanceled
    ensures c in mid.clients && ServerInv(Drop(mid, c), NONE)
    ensures LeftMatch(w, Drop(mid, c), c, sent, t)
  {
    LastHolderDrops(mid, c, u, m);
    DisconnectedFromMatch(w, mid, Drop(mid, c), c, u, m, sent, t, progressed);
  }

  /** Dropping the client c of u, the last holder of the taken-apart m, leaves nothing exempt. */
  lemma LastHolderDrops(mid: World, c: ClientId, u: string, m: MatchId)
    requires ServerInv(mid, NONE.(matches := {m})) && Has(mid, u) && mid.auth[u] == c && At(mid, u).matchFound == Some(m)
    requires forall v :: Has(mid, v) && At(mid, v).matchFound == Some(m) ==> v == u
    requires m in mid.matches && mid.matches[m].timerCanceled
    ensures c in mid.clients && ServerInv(Drop(mid, c), NONE)
  {
    DropHolderStep(mid, c, u, m, NONE.(matches := {m}));
    assert NONE.(matches := {m}).(matches := {m} - {m}) == NONE;
  }

  // -------------------------------------------------- server statistics

  /** broadcastServerStats sends to a client in IDLE, IN_MATCHMAKING or MATCH_FOUND. */
  predicate StatsListener(s: Session) {
    s.state == IDLE || s.state == IN_MATCHMAKING || s.state == MATCH_FOUND
  }

  /** A nonempty set of client numbers has a least one. */
  lemma {:induction false} LeastExists(s: set<ClientId>)
    requires s != {}
    ensures exists m :: m in s && forall k :: k in s ==> m <= k
  {
    var x :| x in s;
    if s != {x} {
      LeastExists(s - {x});
      var y :| y in s - {x} && forall k :: k in s - {x} ==> y <= k;
      var least := if x < y then x else y;
      forall k | k in s ensures least <= k {
        if k != x {
          assert k in s - {x};
        }
      }
    } else {
      assert forall k :: k in s ==> x <= k;
    }
  }

  /**
   * n went, by increasing number, to each client in IDLE, IN_MATCHMAKING or
   * MATCH_FOUND outside rest, and every client in rest comes later.
   */
  ghost predicate ToldListeners(cs: map<ClientId, Session>, n: Notice, sent: seq<Delivery>, rest: set<ClientId>) {
    && rest <= cs.Keys
    && (forall d :: d in sent <==> d.to in cs && d.to !in rest && StatsListener(cs[d.to]) && d.notice == n)
    && (forall i, j :: 0 <= i < j < |sent| ==> sent[i].to < sent[j].to)
    && (forall i, k :: 0 <= i < |sent| && k in rest ==> sent[i].to < k)
  }

  /** The least client c of rest is handled next. */
  lemma ListenStep(cs: map<ClientId, Session>, n: Notice, sent: seq<Delivery>, rest: set<ClientId>, c: ClientId)
    requires ToldListeners(cs, n, sent, rest) && c in rest && forall k :: k in rest ==> c <= k
    ensures ToldListeners(cs, n, if StatsListener(cs[c]) then sent + [Delivery(c, n)] else sent, rest - {c})
  {
  }

  /** The loop over connectedClients: n to each client in IDLE, IN_MATCHMAKING or MATCH_FOUND, by increasing number. */
  method TellListeners(cs: map<ClientId, Session>, n: Notice) returns (sent: seq<Delivery>)
    ensures forall d :: d in sent <==> d.to in cs && StatsListener(cs[d.to]) && d.notice == n
    ensures forall i, j :: 0 <= i < j < |sent| ==> sent[i].to < sent[j].to
  {
    var rest := cs.Keys;
    sent := [];
    while rest != {}
      invariant ToldListeners(cs, n, sent, rest)
      decreases |rest|
    {
      LeastExists(rest);
      var c :| c in rest && forall k :: k in rest ==> c <= k;
      ListenStep(cs, n, sent, rest, c);
      if StatsListener(cs[c]) {
        sent := sent + [Delivery(c, n)];
      }
      rest := rest - {c};
    }
  }

  /**
   * Under the invariant getStats gives valid statistics: its counter is
   * the number of players in the matchmaker and there are no lobbies.
   */
  lemma StatsOfValid(s: NetServer)
    requires s.Valid()
    ensures IsServerStats(s.GetStats())
    ensures s.GetStats().numPlayersInMatchmaking == |s.matchmaker.waiting|
    ensures s.GetStats().numLobbies == 0
  {
  }

  /**
   * The server object. Several of its steps end with a ghost bool that is
   * true and equal to a predicate of the worlds before and after
   * (`ensures done && done == P(..)`): a caller hands the bool on by name
   * instead of restating P, which keeps each proof obligation small.
   */
  class NetServer {
    /** The AccountManager's directory: each account under its username. */
    var accounts: map<string, AccountState>
    const matchmaker: Matchmaker
    var numPlayersInMatchmaking: int
    /** The texts of the two durations, as writeDuration gives them. */
    const timeToAcceptMatch: string
    const timeToSelectHero: string
    var connectedClients: map<ClientId, Session>
    var authenticatedClients: map<string, ClientId>
    /** Nothing is ever added to this list. */
    const lobbies: seq<LobbyId>
    /** The MatchFound and Lobby objects created so far. */
    var matchFounds: map<MatchId, MatchFoundState>
    var lobbyStates: map<LobbyId, LobbyState>
    /** The MatchFound and Lobby objects whose timer task was scheduled and has not run. */
    ghost var acceptTimers: set<MatchId>
    ghost var selectTimers: set<LobbyId>

    ghost function Current(): World
      reads this, matchmaker
    {
      World(connectedClients, authenticatedClients, accounts, matchmaker.waiting, matchFounds, lobbyStates,
            acceptTimers, selectTimers)
    }

    /**
     * The server's invariant short of x: the matchmaker's own, the counter
     * equal to the matchmaker's, the lobby list empty.
     */
    ghost predicate ValidBut(x: Exempt)
      reads this, matchmaker
    {
      && lobbies == []
      && matchmaker.Valid() && numPlayersInMatchmaking == matchmaker.playerCount
      && ServerInv(Current(), x)
    }

    /** The invariant between handler calls. */
    ghost predicate Valid()
      reads this, matchmaker
    {
      ValidBut(NONE)
    }

    /**
     * The constructor, with an empty account directory (the account file
     * is I/O) and the two durations' texts.
     */
    constructor (timeToAcceptMatch: string, timeToSelectHero: string)
      ensures Valid() && fresh(matchmaker)
      ensures connectedClients == map[] && authenticatedClients == map[]
      ensures numPlayersInMatchmaking == 0 && accounts == map[] && matchmaker.waiting == map[]
      ensures matchFounds == map[] && lobbyStates == map[]
      ensures this.timeToAcceptMatch == timeToAcceptMatch && this.timeToSelectHero == timeToSelectHero
    {
      accounts := map[];
      matchmaker := new Matchmaker();
      numPlayersInMatchmaking := 0;
      this.timeToAcceptMatch := timeToAcceptMatch;
      this.timeToSelectHero := timeToSelectHero;
      connectedClients := map[];
      authenticatedClients := map[];
      lobbies := [];
      matchFounds := map[];
      lobbyStates := map[];
      acceptTimers := {};
      selectTimers := {};
    }

    /**
     * getStats: the registered accounts, the logged-in players, the
     * counter, which is the number of players in the matchmaker, and the
     * size of the lobby list, which stays 0.
     */
    function GetStats(): (st: ServerStats)
      reads this
      ensures st.numRegisteredPlayers == |accounts| && st.numPlayersLoggedIn == |authenticatedClients|
    {
      ServerStats(|accounts|, |authenticatedClients|, numPlayersInMatchmaking, |lobbies|)
    }

    /** acceptConnections: a new Client, CONNECTED, joins connectedClients. */
    method Connect() returns (c: ClientId)
      requires Valid()
      modifies this
      ensures Valid()
      ensures forall k :: k in old(connectedClients) ==> k < c
      ensures connectedClients == old(connectedClients)[c := NewSession()]
      ensures authenticatedClients == old(authenticatedClients) && accounts == old(accounts)
      ensures numPlayersInMatchmaking == old(numPlayersInMatchmaking)
      ensures matchFounds == old(matchFounds) && lobbyStates == old(lobbyStates)
    {
      ghost var w := Current();
      ghost var n := Above(connectedClients.Keys);
      c :| AboveAll(connectedClients.Keys, c);
      assert AboveAll(connectedClients.Keys, c);
      assert c !in connectedClients.Keys;
      connectedClients := connectedClients[c := NewSession()];
      ConnectStep(w, Current(), c);
    }

    /**
     * The end of a successful login or registration: the client is
     * authenticated under u, goes IDLE and gets its account info and the
     * stats. The client holds no account yet, and u is not logged in.
     */
    method Authenticate(c: ClientId, u: string) returns (sent: seq<Delivery>)
      requires Valid() && c in connectedClients && connectedClients[c].state == CONNECTED
      requires u in accounts && u !in authenticatedClients
      modifies this
      ensures Valid()
      ensures connectedClients == old(connectedClients)[c := Session(IDLE, Some(u), None, None, None)]
      ensures authenticatedClients == old(authenticatedClients)[u := c]
      ensures accounts == old(accounts) && numPlayersInMatchmaking == old(numPlayersInMatchmaking)
      ensures matchFounds == old(matchFounds) && lobbyStates == old(lobbyStates)
      ensures sent == [Delivery(c, LoginSucceeded(InfoOf(u, accounts[u]), GetStats()))]
    {
      ghost var w := Current();
      connectedClients, authenticatedClients :=
        connectedClients[c := Session(IDLE, Some(u), None, None, None)], authenticatedClients[u := c];
      LogInStep(w, Current(), c, u);
      sent := [Delivery(c, LoginSucceeded(InfoOf(u, accounts[u]), GetStats()))];
    }

    /**
     * onLoginReceived, only when CONNECTED. A refused login sends
     * LOGIN_FAILED with the first failing check. A username already logged
     * in sends ALREADY_LOGGED_IN, but the client keeps the account it
     * looked up. Otherwise the client is authenticated under the username,
     * goes IDLE and gets its account info and the stats.
     */
    method OnLogin(c: ClientId, username: string, password: string) returns (o: Outcome, sent: seq<Delivery>)
      requires Valid() && c in connectedClients
      modifies this
      ensures Valid()
      ensures o.Pass? <==> old(connectedClients[c].state) == CONNECTED
      ensures o.Throw? ==> o.exc == IllegalState && unchanged(this) && sent == []
      ensures accounts == old(accounts) && numPlayersInMatchmaking == old(numPlayersInMatchmaking)
      ensures matchFounds == old(matchFounds) && lobbyStates == old(lobbyStates)
      ensures o.Pass? ==>
        var e := LoginRefusal(username, password, if username in accounts then Some(accounts[username].password) else None);
        && (e.Some? ==>
              && connectedClients == old(connectedClients) && authenticatedClients == old(authenticatedClients)
              && sent == [Delivery(c, LoginFailed(e.value))])
        && (e.None? && username in old(authenticatedClients) ==>
              && connectedClients == old(connectedClients)[c := old(connectedClients[c]).(account := Some(username))]
              && authenticatedClients == old(authenticatedClients)
              && sent == [Delivery(c, LoginFailed(AlreadyLoggedIn))])
        && (e.None? && username !in old(authenticatedClients) ==>
              && connectedClients == old(connectedClients)[c := Session(IDLE, Some(username), None, None, None)]
              && authenticatedClients == old(authenticatedClients)[username := c]
              && sent == [Delivery(c, LoginSucceeded(InfoOf(username, accounts[username]), GetStats()))])
    {
      if connectedClients[c].state != CONNECTED {
        return Throw(IllegalState), [];
      }
      ghost var w := Current();
      var filed := if username in accounts then Some(accounts[username].password) else None;
      var e := LoginRefusal(username, password, filed);
      if e.Some? {
        return Pass, [Delivery(c, LoginFailed(e.value))];
      }
      if username in authenticatedClients {
        connectedClients := connectedClients[c := connectedClients[c].(account := Some(username))];
        ClaimStep(w, Current(), c, username);
        return Pass, [Delivery(c, LoginFailed(AlreadyLoggedIn))];
      }
      sent := Authenticate(c, username);
      o := Pass;
    }

    /**
     * onSignUpReceived, only when CONNECTED. A refused registration sends
     * SIGN_UP_FAILED with the first failing check; otherwise a new account
     * with no matches and the initial rank is filed, and the client is
     * authenticated, goes IDLE and gets its account info and the stats.
     */
    method OnSignUp(c: ClientId, username: string, password: string) returns (o: Outcome, sent: seq<Delivery>)
      requires Valid() && c in connectedClients
      modifies this
      ensures Valid()
      ensures o.Pass? <==> old(connectedClients[c].state) == CONNECTED
      ensures o.Throw? ==> o.exc == IllegalState && unchanged(this) && sent == []
      ensures numPlayersInMatchmaking == old(numPlayersInMatchmaking)
      ensures matchFounds == old(matchFounds) && lobbyStates == old(lobbyStates)
      ensures o.Pass? ==>
        var e := RegisterRefusal(username, password, username in old(accounts));
        && (e.Some? ==>
              && accounts == old(accounts)
              && connectedClients == old(connectedClients) && authenticatedClients == old(authenticatedClients)
              && sent == [Delivery(c, SignUpFailed(e.value))])
        && (e.None? ==>
              && accounts == old(accounts)[username := AccountState(password, 0, 0, INITIAL_RANK)]
              && connectedClients == old(connectedClients)[c := Session(IDLE, Some(username), None, None, None)]
              && authenticatedClients == old(authenticatedClients)[username := c]
              && sent == [Delivery(c, LoginSucceeded(InfoOf(username, accounts[username]), GetStats()))])
    {
      if connectedClients[c].state != CONNECTED {
        return Throw(IllegalState), [];
      }
      var e := RegisterRefusal(username, password, username in accounts);
      if e.Some? {
        return Pass, [Delivery(c, SignUpFailed(e.value))];
      }
      ghost var w := Current();
      var a := AccountState(password, 0, 0, INITIAL_RANK);
      accounts := accounts[username := a];
      FileStep(w, Current(), username, a);
      sent := Authenticate(c, username);
      o := Pass;
    }

    /** onLogoutReceived, only when IDLE: the client leaves the authenticated map and is CONNECTED with no account. */
    method OnLogout(c: ClientId) returns (o: Outcome, sent: seq<Delivery>)
      requires Valid() && c in connectedClients
      modifies this
      ensures Valid()
      ensures o.Pass? <==> old(connectedClients[c].state) == IDLE
      ensures o.Throw? ==> o.exc == IllegalState && unchanged(this) && sent == []
      ensures accounts == old(accounts) && numPlayersInMatchmaking == old(numPlayersInMatchmaking)
      ensures matchFounds == old(matchFounds) && lobbyStates == old(lobbyStates)
      ensures o.Pass? ==>
        && old(connectedClients[c].account).Some?
        && connectedClients == old(connectedClients)[c := NewSession()]
        && authenticatedClients == old(authenticatedClients) - {old(connectedClients[c].account).value}
        && sent == [Delivery(c, LogoutSucceeded)]
    {
      if connectedClients[c].state != IDLE {
        return Throw(IllegalState), [];
      }
      ghost var w := Current();
      var u := connectedClients[c].account.value;
      authenticatedClients := authenticatedClients - {u};
      connectedClients := connectedClients[c := NewSession()];
      LogOutStep(w, Current(), c);
      sent := [Delivery(c, LogoutSucceeded)];
      o := Pass;
    }

    /**
     * matchmaker.addPlayer for a valid player not waiting: it joins the
     * waiting players, or it fills a group of LOBBY_SIZE of them, itself
     * included, which leaves matchmaking.
     */
    method Enter(u: string, rank: int) returns (g: Option<set<string>>)
      requires matchmaker.Valid() && IsValidUsername(u) && IsIntegerRank(rank) && u !in matchmaker.waiting
      modifies matchmaker
      ensures matchmaker.Valid()
      ensures g.None? ==> matchmaker.waiting == old(matchmaker.waiting)[u := rank] && matchmaker.playerCount == old(matchmaker.playerCount) + 1
      ensures g.Some? ==>
        && u in g.value && |g.value| == LOBBY_SIZE && g.value <= old(matchmaker.waiting).Keys + {u}
        && matchmaker.waiting == old(matchmaker.waiting)[u := rank] - g.value
        && matchmaker.playerCount == old(matchmaker.playerCount) + 1 - LOBBY_SIZE
    {
      var r := matchmaker.AddPlayer(u, rank);
      g := r.value;
    }

    /**
     * The loop over the players of the new MatchFound m of the pending
     * group g: each one's client goes MATCH_FOUND with m and is sent
     * MATCH_FOUND with the time to accept.
     */
    method MoveToMatch(g: set<string>, m: MatchId, ghost x: Exempt) returns (sent: seq<Delivery>)
      requires ValidBut(x) && m in x.matches && m in matchFounds && matchFounds[m] == NewMatch(g) && m in acceptTimers
      requires g <= x.pending && |g| == LOBBY_SIZE
      modifies this
      ensures ValidBut(x.(pending := x.pending - g, matches := x.matches - {m}))
      ensures connectedClients == Changed(old(connectedClients), ClientsOf(old(connectedClients), authenticatedClients, g), ToMatch(m))
      ensures accounts == old(accounts) && authenticatedClients == old(authenticatedClients)
      ensures numPlayersInMatchmaking == old(numPlayersInMatchmaking) && matchFounds == old(matchFounds)
      ensures lobbyStates == old(lobbyStates) && acceptTimers == old(acceptTimers) && selectTimers == old(selectTimers)
      ensures g <= authenticatedClients.Keys
      ensures OncePerUser(sent, authenticatedClients, g, MatchFoundNotice(timeToAcceptMatch))
    {
      ghost var w := Current();
      PendingOwned(w, g, x);
      connectedClients, sent := ChangeUsers(connectedClients, authenticatedClients, g, ToMatch(m),
                                            MatchFoundNotice(timeToAcceptMatch));
      MoveStep(w, Current(), g, m, x);
    }

    /**
     * The MatchFound of a pending group g: a new MatchFound m of g is
     * created, g's players are moved to it, and m's timer starts (the
     * timer's bookkeeping is entered first; no timer task can run before
     * the handler returns).
     */
    method CreateMatchFound(g: set<string>, ghost x: Exempt) returns (sent: seq<Delivery>, m: MatchId)
      requires ValidBut(x) && g <= x.pending && |g| == LOBBY_SIZE && x.matches <= matchFounds.Keys
      modifies this
      ensures ValidBut(x.(pending := x.pending - g))
      ensures m !in old(matchFounds) && matchFounds == old(matchFounds)[m := NewMatch(g)]
      ensures connectedClients == Changed(old(connectedClients), ClientsOf(old(connectedClients), authenticatedClients, g), ToMatch(m))
      ensures acceptTimers == old(acceptTimers) + {m}
      ensures accounts == old(accounts) && authenticatedClients == old(authenticatedClients)
      ensures numPlayersInMatchmaking == old(numPlayersInMatchmaking)
      ensures lobbyStates == old(lobbyStates) && selectTimers == old(selectTimers)
      ensures g <= authenticatedClients.Keys
      ensures OncePerUser(sent, authenticatedClients, g, MatchFoundNotice(timeToAcceptMatch))
    {
      ghost var w := Current();
      ghost var n := Above(matchFounds.Keys);
      m :| AboveAll(matchFounds.Keys, m);
      assert AboveAll(matchFounds.Keys, m);
      ghost var x1 := x.(matches := x.matches + {m});
      NewMatchStep(w, w.(matches := w.matches[m := NewMatch(g)], acceptTimers := w.acceptTimers + {m}), g, m, x);
      OpenMatch(m, g, x1);
      assert x1.(pending := x1.pending - g, matches := x1.matches - {m}) == x.(pending := x.pending - g);
      sent := MoveToMatch(g, m, x1);
    }

    /**
     * addThisPlayerToMatchmaking, for the client c IN_MATCHMAKING whose
     * player x holds pending. The player enters the matchmaker with its
     * account's integer rank and the counter grows by one. When that fills
     * a group g, the counter drops by LOBBY_SIZE and g gets its MatchFound.
     */
    method AddThisPlayerToMatchmaking(c: ClientId, ghost x: Exempt) returns (sent: seq<Delivery>, ghost formed: Option<(set<string>, MatchId)>)
      requires ValidBut(x) && c in connectedClients && connectedClients[c].state == IN_MATCHMAKING
      requires connectedClients[c].account.Some? && connectedClients[c].account.value in x.pending
      requires x.matches <= matchFounds.Keys
      modifies this, matchmaker
      ensures ValidBut(x.(pending := x.pending - {old(connectedClients[c].account.value)}))
      ensures accounts == old(accounts) && authenticatedClients == old(authenticatedClients)
      ensures lobbyStates == old(lobbyStates) && selectTimers == old(selectTimers)
      ensures var u := old(connectedClients[c].account.value);
        var waiting' := old(matchmaker.waiting)[u := RoundRank(accounts[u].rank)];
        && (formed.None? ==>
              && matchmaker.waiting == waiting' && numPlayersInMatchmaking == old(numPlayersInMatchmaking) + 1
              && connectedClients == old(connectedClients) && matchFounds == old(matchFounds)
              && acceptTimers == old(acceptTimers) && sent == [])
        && (formed.Some? ==>
              var (g, m) := formed.value;
              && u in g && |g| == LOBBY_SIZE && g <= old(matchmaker.waiting).Keys + {u}
              && matchmaker.waiting == waiting' - g
              && numPlayersInMatchmaking == old(numPlayersInMatchmaking) + 1 - LOBBY_SIZE
              && m !in old(matchFounds) && matchFounds == old(matchFounds)[m := NewMatch(g)]
              && connectedClients == Changed(old(connectedClients), ClientsOf(old(connectedClients), authenticatedClients, g), ToMatch(m))
              && acceptTimers == old(acceptTimers) + {m}
              && g <= authenticatedClients.Keys
              && OncePerUser(sent, authenticatedClients, g, MatchFoundNotice(timeToAcceptMatch)))
    {
      ghost var w := Current();
      var u := connectedClients[c].account.value;
      var rank := RoundRank(accounts[u].rank);
      var r := Enter(u, rank);
      numPlayersInMatchmaking := numPlayersInMatchmaking + 1;
      if r.None? {
        EnqueueStep(w, Current(), u, x);
        return [], None;
      }
      var g := r.value;
      numPlayersInMatchmaking := numPlayersInMatchmaking - LOBBY_SIZE;
      DrainStep(w, Current(), u, g, x);
      var m;
      sent, m := CreateMatchFound(g, x.(pending := x.pending + g));
      formed := Some((g, m));
    }

    /**
     * matchmaker.removePlayer for a waiting player u, with its account's
     * integer rank, and the counter's decrement: u is pending.
     */
    method Withdraw(u: string, ghost x: Exempt)
      requires ValidBut(x) && u in matchmaker.waiting
      modifies this, matchmaker
      ensures ValidBut(x.(pending := x.pending + {u}))
      ensures matchmaker.waiting == old(matchmaker.waiting) - {u}
      ensures numPlayersInMatchmaking == old(numPlayersInMatchmaking) - 1
      ensures connectedClients == old(connectedClients) && authenticatedClients == old(authenticatedClients)
      ensures accounts == old(accounts) && matchFounds == old(matchFounds) && lobbyStates == old(lobbyStates)
      ensures acceptTimers == old(acceptTimers) && selectTimers == old(selectTimers)
    {
      ghost var w := Current();
      WithdrawStep(w, w, u, x);
      var o := matchmaker.RemovePlayer(u, RoundRank(accounts[u].rank));
      numPlayersInMatchmaking := numPlayersInMatchmaking - 1;
      WithdrawStep(w, Current(), u, x);
    }

    /**
     * One player u of a MatchFound being taken apart: its client goes
     * IN_MATCHMAKING with matchFound null and its player is re-added to the
     * matchmaker, which may form a new MatchFound.
     */
    method RequeueCore(u: string, ghost x: Exempt) returns (rest: seq<Delivery>, ghost formed: Option<(set<string>, MatchId)>)
      requires ValidBut(x) && x.matches <= matchFounds.Keys
      requires Has(Current(), u) && At(Current(), u).matchFound.Some? && At(Current(), u).matchFound.value in x.matches
      modifies this, matchmaker
      ensures ValidBut(x)
      ensures accounts == old(accounts) && authenticatedClients == old(authenticatedClients)
      ensures lobbyStates == old(lobbyStates) && selectTimers == old(selectTimers)
      ensures var w, w' := old(Current()), Current();
        && (formed.None? ==> w'.matches == w.matches && rest == [])
        && (formed.Some? ==>
              var (g, m) := formed.value;
              && u in g && g <= w.waiting.Keys + {u} && g <= w.auth.Keys
              && m !in w.matches && w'.matches == w.matches[m := NewMatch(g)]
              && OncePerUser(rest, w.auth, g, MatchFoundNotice(timeToAcceptMatch)))
        && w'.acceptTimers == (if formed.Some? then w.acceptTimers + {formed.value.1} else w.acceptTimers)
        && w'.clients == var cs1 := w.clients[w.auth[u] := Apply(ToQueue, At(w, u))];
             if formed.Some? then Changed(cs1, ClientsOf(cs1, w.auth, formed.value.0), ToMatch(formed.value.1)) else cs1
    {
      ghost var w := Current();
      var c := authenticatedClients[u];
      connectedClients := connectedClients[c := Apply(ToQueue, connectedClients[c])];
      RequeueStep(w, Current(), u, x);
      rest, formed := AddThisPlayerToMatchmaking(c, x.(pending := x.pending + {u}));
    }

    /** RequeueCore, and the player u is sent MATCH_CANCELED first. */
    method Requeue(u: string, ghost x: Exempt) returns (sent: seq<Delivery>)
      requires ValidBut(x) && x.matches <= matchFounds.Keys
      requires Has(Current(), u) && At(Current(), u).matchFound.Some? && At(Current(), u).matchFound.value in x.matches
      modifies this, matchmaker
      ensures ValidBut(x)
      ensures accounts == old(accounts) && authenticatedClients == old(authenticatedClients)
      ensures lobbyStates == old(lobbyStates) && selectTimers == old(selectTimers)
      ensures Grows(old(matchFounds), matchFounds) && TimersGrow(old(Current()), Current())
      ensures Evolves(old(Current()), Current(), {u}) && Requeued(Current(), u, old(matchFounds).Keys)
      ensures |sent| > 0 && sent[0] == Delivery(authenticatedClients[u], MatchCanceled)
      ensures forall i :: 1 <= i < |sent| ==> sent[i].notice == MatchFoundNotice(timeToAcceptMatch)
      ensures FoundTold(old(Current()), Current(), authenticatedClients, sent, timeToAcceptMatch)
      ensures Has(Current(), u) && (At(Current(), u).matchFound.Some? ==> At(Current(), u).matchFound.value !in old(matchFounds))
    {
      ghost var w := Current();
      var rest;
      ghost var formed;
      rest, formed := RequeueCore(u, x);
      RequeueOutcome(w, Current(), u, formed, rest, timeToAcceptMatch);
      sent := [Delivery(authenticatedClients[u], MatchCanceled)] + rest;
      NoticesAfterFirst(sent, rest, MatchFoundNotice(timeToAcceptMatch));
      ToldAfterFirst(w, Current(), w.auth, sent, rest, timeToAcceptMatch);
    }

    /** Requeue one more player of s, one not yet done. */
    method RequeueNext(m: MatchId, ghost w0: World, s: set<string>, done: set<string>,
                       sent: seq<Delivery>, ghost progressed: bool, ghost x: Exempt)
      returns (done': set<string>, sent': seq<Delivery>)
      requires ValidBut(x) && Holders(w0, s, m, x) && done <= s && done != s
      requires progressed && progressed == Progress(w0, Current(), done, sent, timeToAcceptMatch)
      modifies this, matchmaker
      ensures ValidBut(x) && done' <= s && |s - done'| < |s - done|
      ensures Progress(w0, Current(), done', sent', timeToAcceptMatch)
    {
      var u := SomeLeft(s, done);
      FewerLeft(s, done, u);
      var more := RequeueOne(u, m, w0, s, done, sent, progressed, x);
      done', sent' := done + {u}, sent + more;
    }

    /**
     * One more player u of the MatchFound m being taken apart is requeued;
     * progressed is the progress made so far, handed on whole.
     */
    method RequeueOne(u: string, m: MatchId, ghost w0: World, ghost s: set<string>, ghost done: set<string>,
                      ghost sent: seq<Delivery>, ghost progressed: bool, ghost x: Exempt)
      returns (more: seq<Delivery>)
      requires ValidBut(x) && Holders(w0, s, m, x) && u in s && u !in done
      requires progressed && progressed == Progress(w0, Current(), done, sent, timeToAcceptMatch)
      modifies this, matchmaker
      ensures ValidBut(x)
      ensures Progress(w0, Current(), done + {u}, sent + more, timeToAcceptMatch)
    {
      ghost var w1 := Current();
      assert x.matches <= matchFounds.Keys;
      StillHolds(w0, w1, done, sent, timeToAcceptMatch, u, m, x);
      more := Requeue(u, x);
      ProgressStep(w0, w1, Current(), done, sent, more, timeToAcceptMatch, u, x);
    }

    /**
     * The players s of a MatchFound m being taken apart go back to
     * matchmaking one by one, each sent MATCH_CANCELED and re-added to the
     * matchmaker; new MatchFounds formed meanwhile are sent MATCH_FOUND.
     */
    method RequeueAll(s: set<string>, m: MatchId, ghost x: Exempt) returns (sent: seq<Delivery>, ghost progressed: bool)
      requires ValidBut(x) && m in x.matches && x.matches <= matchFounds.Keys
      requires forall v :: v in s ==> Has(Current(), v) && At(Current(), v).matchFound == Some(m)
      modifies this, matchmaker
      ensures ValidBut(x)
      ensures progressed && progressed == Progress(old(Current()), Current(), s, sent, timeToAcceptMatch)
    {
      ghost var w0 := Current();
      sent := [];
      var done := {};
      ProgressStart(w0, timeToAcceptMatch);
      // The progress made, kept in a ghost variable so that each round
      // hands it on whole to the next.
      progressed := Progress(w0, Current(), done, sent, timeToAcceptMatch);
      assert Holders(w0, s, m, x);
      while done != s
        invariant done <= s && ValidBut(x) && Holders(w0, s, m, x)
        invariant progressed && progressed == Progress(w0, Current(), done, sent, timeToAcceptMatch)
        decreases |s - done|
      {
        done, sent := RequeueNext(m, w0, s, done, sent, progressed, x);
        progressed := Progress(w0, Current(), done, sent, timeToAcceptMatch);
      }
    }

    /** cancelTimer on the MatchFound m: its task will do nothing. */
    method CancelMatch(m: MatchId, ghost x: Exempt)
      requires ValidBut(x) && m in matchFounds
      modifies this
      ensures ValidBut(x.(matches := x.matches + {m}))
      ensures Current() == Canceled(old(Current()), m)
    {
      ghost var w := Current();
      matchFounds := matchFounds[m := matchFounds[m].(timerCanceled := true)];
      CancelStep(w, Current(), m, x);
    }

    /**
     * The client c in MATCH_FOUND takes its MatchFound m apart: the timer of m
     * is canceled and the other players of m are requeued; c alone still
     * holds m.
     */
    method TakeApart(c: ClientId) returns (sent: seq<Delivery>, u: string, m: MatchId, ghost progressed: bool)
      requires Valid() && c in connectedClients && connectedClients[c].state == MATCH_FOUND
      modifies this, matchmaker
      ensures old(connectedClients[c].account) == Some(u) && old(connectedClients[c].matchFound) == Some(m)
      ensures m in old(matchFounds) && ValidBut(NONE.(matches := {m}))
      ensures progressed
      ensures progressed == Progress(Canceled(old(Current()), m), Current(), old(matchFounds[m].players).Keys - {u}, sent, timeToAcceptMatch)
      ensures Has(Current(), u) && authenticatedClients[u] == c && At(Current(), u) == old(connectedClients[c])
      ensures forall v :: Has(Current(), v) && At(Current(), v).matchFound == Some(m) ==> v == u
      ensures m in matchFounds && matchFounds[m].timerCanceled && u in old(matchFounds[m].players)
    {
      MatchOf(Current(), c);
      u := connectedClients[c].account.value;
      m := connectedClients[c].matchFound.value;
      ExemptMatch(m);
      CancelMatch(m, NONE);
      ghost var w0 := Current();
      sent, progressed := RequeueAll(matchFounds[m].players.Keys - {u}, m, NONE.(matches := {m}));
      LastHolder(w0, Current(), u, m, sent, timeToAcceptMatch, NONE.(matches := {m}));
    }

    /**
     * The client c, the last holder of the canceled MatchFound m, goes IDLE;
     * m needs no exemption any more.
     */
    method Dismiss(c: ClientId, ghost u: string, ghost m: MatchId)
      requires ValidBut(NONE.(matches := {m})) && Has(Current(), u) && authenticatedClients[u] == c
      requires At(Current(), u).matchFound == Some(m)
      requires forall v :: Has(Current(), v) && At(Current(), v).matchFound == Some(m) ==> v == u
      requires m in matchFounds && matchFounds[m].timerCanceled
      modifies this
      ensures Valid()
      ensures Current() == old(Current()).(clients := old(connectedClients)[c := Apply(ToIdle, old(connectedClients[c]))])
    {
      ghost var w := Current();
      connectedClients := connectedClients[c := Apply(ToIdle, connectedClients[c])];
      ExemptMatch(m);
      DismissStep(w, Current(), c, u, m, NONE.(matches := {m}));
    }

    /**
     * The client c in MATCH_FOUND declines: its MatchFound is canceled,
     * every other player goes back to matchmaking and is sent
     * MATCH_CANCELED, and c goes IDLE and is sent LEFT_MATCHMAKING
     * (DECLINED_MATCH).
     */
    method DeclineMatch(c: ClientId) returns (sent: seq<Delivery>, ghost declined: bool)
      requires Valid() && c in connectedClients && connectedClients[c].state == MATCH_FOUND
      modifies this, matchmaker
      ensures Valid()
      ensures old(connectedClients[c].account).Some? && old(connectedClients[c].matchFound).Some?
      ensures old(connectedClients[c].matchFound).value in old(matchFounds)
      ensures declined && declined == MatchDeclined(old(Current()), Current(), c, sent, timeToAcceptMatch)
    {
      ghost var w := Current();
      var rest, u, m;
      ghost var progressed;
      rest, u, m, progressed := TakeApart(c);
      ghost var mid := Current();
      Dismiss(c, u, m);
      sent := rest + [Delivery(c, LeftMatchmaking(DeclinedMatch))];
      DeclineOutcome(w, mid, Current(), c, u, m, rest, timeToAcceptMatch, progressed);
      declined := MatchDeclined(w, Current(), c, sent, timeToAcceptMatch);
    }

    /**
     * onDeclineMatchReceived, in IDLE, IN_MATCHMAKING, MATCH_FOUND or
     * IN_LOBBY; only a client in MATCH_FOUND acts, as DeclineMatch says.
     */
    method OnDeclineMatch(c: ClientId) returns (o: Outcome, sent: seq<Delivery>, ghost declined: bool)
      requires Valid() && c in connectedClients
      modifies this, matchmaker
      ensures Valid()
      ensures o.Pass? <==> old(connectedClients[c].state) in {IDLE, IN_MATCHMAKING, MATCH_FOUND, IN_LOBBY}
      ensures o.Throw? ==> o.exc == IllegalState
      ensures old(connectedClients[c].state) != MATCH_FOUND ==>
        sent == [] && unchanged(this) && matchmaker.waiting == old(matchmaker.waiting)
      ensures old(connectedClients[c].state) == MATCH_FOUND ==>
        && old(connectedClients[c].account).Some? && old(connectedClients[c].matchFound).Some?
        && old(connectedClients[c].matchFound).value in old(matchFounds)
        && declined && declined == MatchDeclined(old(Current()), Current(), c, sent, timeToAcceptMatch)
    {
      var state := connectedClients[c].state;
      if state !in {IDLE, IN_MATCHMAKING, MATCH_FOUND, IN_LOBBY} {
        return Throw(IllegalState), [], false;
      }
      if state != MATCH_FOUND {
        return Pass, [], false;
      }
      sent, declined := DeclineMatch(c);
      o := Pass;
    }

    /**
     * The loop that sends each player of us, holding only what x exempts,
     * to IDLE with matchFound, lobby and team null, and sends it n.
     */
    method IdleGroup(us: set<string>, n: Notice, ghost x: Exempt) returns (sent: seq<Delivery>)
      requires ValidBut(x) && forall u :: u in us ==> Releasable(Current(), u, x)
      modifies this
      ensures ValidBut(x) && us <= authenticatedClients.Keys
      ensures Current() == old(Current()).(clients := Changed(old(connectedClients), ClientsOf(old(connectedClients), authenticatedClients, us), ToIdle))
      ensures OncePerUser(sent, authenticatedClients, us, n)
    {
      connectedClients, sent := IdleUsers(connectedClients, authenticatedClients, us, n, Current(), x);
    }

    /**
     * The accept timer task of the live MatchFound m runs: it is no longer
     * scheduled, and the players of m that did not accept go IDLE and are
     * sent LEFT_MATCHMAKING (FAILED_TO_ACCEPT_MATCH); m is exempt.
     */
    method Expire(m: MatchId) returns (sent: seq<Delivery>, ghost expired: bool)
      requires Valid() && m in acceptTimers && m in matchFounds && !matchFounds[m].timerCanceled
      modifies this
      ensures ValidBut(NONE.(matches := {m}))
      ensures expired && expired == ExpiredFrom(old(Current()), Current(), m, sent)
    {
      ghost var w := Current();
      acceptTimers := acceptTimers - {m};
      ExpiryStep(w, Current(), m);
      sent := IdleGroup(NotAccepted(matchFounds[m].players), LeftMatchmaking(FailedToAcceptMatch), NONE.(matches := {m}));
      ExpiryFactsHold(w, m);
      expired := ExpiredFrom(w, Current(), m, sent);
    }

    /**
     * After the expiry of m from w, the players that accepted go back to
     * matchmaking and m is released.
     */
    method RequeueAcceptors(m: MatchId, ghost w: World, ghost quit: seq<Delivery>, ghost expired: bool)
      returns (rest: seq<Delivery>, ghost failed: bool)
      requires ValidBut(NONE.(matches := {m})) && m in matchFounds
      requires expired && expired == ExpiredFrom(w, Current(), m, quit)
      modifies this, matchmaker
      ensures ValidBut(NONE.(matches := {m})) && m in w.matches
      ensures failed && failed == AcceptTimedOut(w, Current(), m, quit + rest, timeToAcceptMatch)
    {
      ghost var e := Current();
      AcceptorsReady(w, e, m, quit, expired);
      ghost var progressed;
      rest, progressed := RequeueAll(Accepted(matchFounds[m].players), m, NONE.(matches := {m}));
      TimedOutOutcome(w, e, Current(), m, quit, rest, timeToAcceptMatch, expired, progressed);
      failed := AcceptTimedOut(w, Current(), m, quit + rest, timeToAcceptMatch);
    }

    /**
     * The accept timer of the MatchFound m ran out and was not canceled:
     * the players that did not accept go IDLE, and those that accepted go
     * back to matchmaking.
     */
    method FailedToAccept(m: MatchId) returns (sent: seq<Delivery>, ghost failed: bool)
      requires Valid() && m in acceptTimers && m in matchFounds && !matchFounds[m].timerCanceled
      modifies this, matchmaker
      ensures Valid()
      ensures failed && failed == AcceptTimedOut(old(Current()), Current(), m, sent, timeToAcceptMatch)
    {
      ghost var w := Current();
      var quit, rest;
      ghost var expired;
      quit, expired := Expire(m);
      rest, failed := RequeueAcceptors(m, w, quit, expired);
      sent := quit + rest;
      TimedOutReleased(w, Current(), m, sent, timeToAcceptMatch, failed);
    }

    /**
     * onFailedToAcceptMatch, the accept timer task of the MatchFound m: if
     * its timer was canceled the task just ends, otherwise FailedToAccept.
     */
    method OnFailedToAcceptMatch(m: MatchId) returns (sent: seq<Delivery>, ghost failed: bool)
      requires Valid() && m in acceptTimers
      modifies this, matchmaker
      ensures Valid() && m in old(matchFounds)
      ensures old(matchFounds[m].timerCanceled) ==>
        sent == [] && Current() == old(Current()).(acceptTimers := old(acceptTimers) - {m})
      ensures !old(matchFounds[m].timerCanceled) ==>
        failed && failed == AcceptTimedOut(old(Current()), Current(), m, sent, timeToAcceptMatch)
    {
      if matchFounds[m].timerCanceled {
        ghost var w := Current();
        acceptTimers := acceptTimers - {m};
        FireCanceledStep(w, m);
        return [], false;
      }
      sent, failed := FailedToAccept(m);
    }

    /**
     * The client c IDLE goes IN_MATCHMAKING, is sent JOINED_MATCHMAKING, and
     * its player enters the matchmaker, which may fill a group g that gets a
     * new MatchFound m.
     */
    method JoinQueue(c: ClientId) returns (sent: seq<Delivery>, ghost formed: Option<(set<string>, MatchId)>)
      requires Valid() && c in connectedClients && connectedClients[c].state == IDLE
      modifies this, matchmaker
      ensures Valid()
      ensures accounts == old(accounts) && authenticatedClients == old(authenticatedClients)
      ensures lobbyStates == old(lobbyStates) && selectTimers == old(selectTimers)
      ensures old(connectedClients[c].account).Some?
      ensures var u := old(connectedClients[c].account.value);
        var waiting' := old(matchmaker.waiting)[u := RoundRank(accounts[u].rank)];
        var cs' := old(connectedClients)[c := Apply(ToQueue, old(connectedClients[c]))];
        && |sent| > 0 && sent[0] == Delivery(c, JoinedMatchmaking)
        && (formed.None? ==>
              && matchmaker.waiting == waiting' && numPlayersInMatchmaking == old(numPlayersInMatchmaking) + 1
              && connectedClients == cs' && matchFounds == old(matchFounds)
              && acceptTimers == old(acceptTimers) && sent == [Delivery(c, JoinedMatchmaking)])
        && (formed.Some? ==>
              var (g, m) := formed.value;
              && u in g && |g| == LOBBY_SIZE && g <= old(matchmaker.waiting).Keys + {u}
              && matchmaker.waiting == waiting' - g
              && numPlayersInMatchmaking == old(numPlayersInMatchmaking) + 1 - LOBBY_SIZE
              && m !in old(matchFounds) && matchFounds == old(matchFounds)[m := NewMatch(g)]
              && connectedClients == Changed(cs', ClientsOf(cs', authenticatedClients, g), ToMatch(m))
              && acceptTimers == old(acceptTimers) + {m}
              && g <= authenticatedClients.Keys
              && OncePerUser(sent[1..], authenticatedClients, g, MatchFoundNotice(timeToAcceptMatch)))
    {
      ghost var w := Current();
      ghost var u := connectedClients[c].account.value;
      ghost var x1 := NONE.(pending := {u});
      assert x1.(pending := x1.pending - {u}) == NONE;
      connectedClients := connectedClients[c := Apply(ToQueue, connectedClients[c])];
      JoinStep(w, Current(), c);
      var rest;
      rest, formed := AddThisPlayerToMatchmaking(c, x1);
      sent := [Delivery(c, JoinedMatchmaking)] + rest;
      assert sent[1..] == rest;
    }

    /**
     * onJoinMatchmakingReceived, in IDLE, IN_MATCHMAKING or MATCH_FOUND;
     * only an IDLE client acts, as JoinQueue says.
     */
    method OnJoinMatchmaking(c: ClientId) returns (o: Outcome, sent: seq<Delivery>, ghost formed: Option<(set<string>, MatchId)>)
      requires Valid() && c in connectedClients
      modifies this, matchmaker
      ensures Valid()
      ensures o.Pass? <==> old(connectedClients[c].state) in {IDLE, IN_MATCHMAKING, MATCH_FOUND}
      ensures o.Throw? ==> o.exc == IllegalState
      ensures old(connectedClients[c].state) != IDLE ==>
        && formed.None? && sent == [] && unchanged(this) && matchmaker.waiting == old(matchmaker.waiting)
      ensures accounts == old(accounts) && authenticatedClients == old(authenticatedClients)
      ensures lobbyStates == old(lobbyStates) && selectTimers == old(selectTimers)
      ensures old(connectedClients[c].state) == IDLE ==>
        var u := old(connectedClients[c].account.value);
        var waiting' := old(matchmaker.waiting)[u := RoundRank(accounts[u].rank)];
        var cs' := old(connectedClients)[c := Apply(ToQueue, old(connectedClients[c]))];
        && |sent| > 0 && sent[0] == Delivery(c, JoinedMatchmaking)
        && (formed.None? ==>
              && matchmaker.waiting == waiting' && numPlayersInMatchmaking == old(numPlayersInMatchmaking) + 1
              && connectedClients == cs' && matchFounds == old(matchFounds)
              && acceptTimers == old(acceptTimers) && sent == [Delivery(c, JoinedMatchmaking)])
        && (formed.Some? ==>
              var (g, m) := formed.value;
              && u in g && |g| == LOBBY_SIZE && g <= old(matchmaker.waiting).Keys + {u}
              && matchmaker.waiting == waiting' - g
              && numPlayersInMatchmaking == old(numPlayersInMatchmaking) + 1 - LOBBY_SIZE
              && m !in old(matchFounds) && matchFounds == old(matchFounds)[m := NewMatch(g)]
              && connectedClients == Changed(cs', ClientsOf(cs', authenticatedClients, g), ToMatch(m))
              && acceptTimers == old(acceptTimers) + {m}
              && g <= authenticatedClients.Keys
              && OncePerUser(sent[1..], authenticatedClients, g, MatchFoundNotice(timeToAcceptMatch)))
    {
      var state := connectedClients[c].state;
      if state !in {IDLE, IN_MATCHMAKING, MATCH_FOUND} {
        return Throw(IllegalState), [], None;
      }
      if state != IDLE {
        return Pass, [], None;
      }
      sent, formed := JoinQueue(c);
      o := Pass;
    }

    /**
     * The client c IN_MATCHMAKING goes IDLE, its player leaves the
     * matchmaker and the counter drops by one.
     */
    method LeaveQueue(c: ClientId)
      requires Valid() && c in connectedClients && connectedClients[c].state == IN_MATCHMAKING
      modifies this, matchmaker
      ensures Valid()
      ensures old(connectedClients[c].account).Some?
      ensures connectedClients == old(connectedClients)[c := Apply(ToIdle, old(connectedClients[c]))]
      ensures matchmaker.waiting == old(matchmaker.waiting) - {old(connectedClients[c].account.value)}
      ensures numPlayersInMatchmaking == old(numPlayersInMatchmaking) - 1
      ensures accounts == old(accounts) && authenticatedClients == old(authenticatedClients)
      ensures matchFounds == old(matchFounds) && lobbyStates == old(lobbyStates)
    {
      var u := connectedClients[c].account.value;
      ghost var x1 := NONE.(pending := NONE.pending + {u});
      assert x1.(pending := x1.pending - {u}) == NONE;
      Withdraw(u, NONE);
      var cs := connectedClients[c := Apply(ToIdle, connectedClients[c])];
      IdleStep(Current(), Current().(clients := cs), c, u, x1);
      SetClients(cs, NONE);
    }

    /**
     * onLeaveMatchmakingReceived, in IDLE, IN_MATCHMAKING or MATCH_FOUND;
     * only a client IN_MATCHMAKING acts: it goes IDLE, its player leaves the
     * matchmaker, the counter drops by one, and it is sent
     * LEFT_MATCHMAKING (VOLUNTARY).
     */
    method OnLeaveMatchmaking(c: ClientId) returns (o: Outcome, sent: seq<Delivery>)
      requires Valid() && c in connectedClients
      modifies this, matchmaker
      ensures Valid()
      ensures o.Pass? <==> old(connectedClients[c].state) in {IDLE, IN_MATCHMAKING, MATCH_FOUND}
      ensures o.Throw? ==> o.exc == IllegalState
      ensures old(connectedClients[c].state) != IN_MATCHMAKING ==>
        sent == [] && unchanged(this) && matchmaker.waiting == old(matchmaker.waiting)
      ensures accounts == old(accounts) && authenticatedClients == old(authenticatedClients)
      ensures matchFounds == old(matchFounds) && lobbyStates == old(lobbyStates)
      ensures old(connectedClients[c].state) == IN_MATCHMAKING ==>
        && old(connectedClients[c].account).Some?
        && connectedClients == old(connectedClients)[c := Apply(ToIdle, old(connectedClients[c]))]
        && matchmaker.waiting == old(matchmaker.waiting) - {old(connectedClients[c].account.value)}
        && numPlayersInMatchmaking == old(numPlayersInMatchmaking) - 1
        && sent == [Delivery(c, LeftMatchmaking(Voluntary))]
    {
      var state := connectedClients[c].state;
      if state !in {IDLE, IN_MATCHMAKING, MATCH_FOUND} {
        return Throw(IllegalState), [];
      }
      if state != IN_MATCHMAKING {
        return Pass, [];
      }
      LeaveQueue(c);
      sent := [Delivery(c, LeftMatchmaking(Voluntary))];
      o := Pass;
    }

    /** acceptMatch by u, a player of the live m who had not accepted: full says nobody is left to accept. */
    method RecordAcceptance(u: string, m: MatchId) returns (full: bool)
      requires Valid() && LiveMatch(Current(), m) && u in matchFounds[m].players && !matchFounds[m].players[u]
      modifies this
      ensures Valid() && LiveMatch(Current(), m)
      ensures Current() == AfterAccept(old(Current()), m, u)
      ensures full <==> NotAccepted(matchFounds[m].players) == {}
    {
      var mf := Accepting(matchFounds[m], u);
      AcceptStep(Current(), Current().(matches := matchFounds[m := mf]), u, m);
      SetMatches(matchFounds[m := mf], NONE);
      full := mf.numPlayersAccepted == LOBBY_SIZE;
    }

    /**
     * The first acceptance by u, holding m: every player of m, in some
     * order, is sent PLAYER_ACCEPTED_MATCH, then acceptMatch records u's
     * acceptance; full says whether every player has now accepted.
     */
    method NoteAcceptance(u: string, m: MatchId) returns (sent: seq<Delivery>, full: bool)
      requires Valid() && LiveMatch(Current(), m) && u in matchFounds[m].players && !matchFounds[m].players[u]
      modifies this
      ensures Valid() && LiveMatch(Current(), m)
      ensures Current() == AfterAccept(old(Current()), m, u)
      ensures old(matchFounds[m].players).Keys <= authenticatedClients.Keys
      ensures OncePerUser(sent, authenticatedClients, old(matchFounds[m].players).Keys, PlayerAcceptedMatch)
      ensures full <==> NotAccepted(matchFounds[m].players) == {}
    {
      AuthOwned(Current(), matchFounds[m].players.Keys);
      sent := Notify(connectedClients, authenticatedClients, matchFounds[m].players.Keys, PlayerAcceptedMatch);
      full := RecordAcceptance(u, m);
    }

    /** A new Lobby lu, under an unused id, exempt until its players are seated. */
    method AddLobby(m: MatchId, lu: Lineup) returns (l: LobbyId)
      requires ValidBut(NONE.(matches := {m}))
      modifies this
      ensures ValidBut(NONE.(matches := {m}, lobbies := {l}))
      ensures l !in old(lobbyStates) && Current() == old(Current()).(lobbies := old(lobbyStates)[l := LobbyState(lu, false)])
    {
      ghost var w := Current();
      ghost var n := Above(lobbyStates.Keys);
      l :| AboveAll(lobbyStates.Keys, l);
      assert AboveAll(lobbyStates.Keys, l);
      lobbyStates := lobbyStates[l := LobbyState(lu, false)];
      AddLobbyStep(w, Current(), m, l, lu);
    }

    /**
     * Every player of m accepted: m's timer is canceled and new
     * Lobby(lobbyPlayers, ...) deals them into teams; its timer is not
     * started yet.
     */
    method PrepareLobby(m: MatchId) returns (l: LobbyId, lu: Lineup, ghost order: seq<string>, ghost dealt: bool,
                                             ghost prepared: bool)
      requires Valid() && LiveMatch(Current(), m)
      modifies this
      ensures ValidBut(NONE.(matches := {m}, lobbies := {l}))
      ensures l !in old(lobbyStates)
      ensures Current() == Canceled(old(Current()), m).(lobbies := old(lobbyStates)[l := LobbyState(lu, false)])
      ensures dealt && dealt == Dealt(lu, order, old(matchFounds[m].players.Keys), old(accounts))
      ensures prepared && prepared == Prepared(Current(), m, l)
    {
      ghost var w := Current();
      LiveHeld(w, m);
      PlayersFiled(w, m);
      lu, order, dealt := BuildLineup(matchFounds[m].players.Keys, accounts, Filed(matchFounds[m].players.Keys, accounts));
      ExemptMatch(m);
      CancelMatch(m, NONE);
      l := AddLobby(m, lu);
      PreparedAfter(w, Current(), m, l, lu, order);
      prepared := Prepared(Current(), m, l);
    }

    /** The teams of the prepared lobby l are seated, Blue then Red; nobody holds m any more. */
    method SeatTeams(m: MatchId, l: LobbyId, lu: Lineup, ghost prepared: bool) returns (sent: seq<Delivery>, ghost seated: bool)
      requires ValidBut(NONE.(matches := {m}, lobbies := {l}))
      requires prepared && prepared == Prepared(Current(), m, l) && lu == lobbyStates[l].lineup
      modifies this
      ensures ValidBut(NONE.(matches := {m}, lobbies := {l}))
      ensures seated && seated == SeatsTaken(old(Current()), Current(), m, l, lu, sent, timeToSelectHero)
    {
      ghost var w := Current();
      ghost var x := NONE.(matches := {m}, lobbies := {l});
      SeatingReady(w, m, l);
      var cs;
      cs, sent := SeatLineup(connectedClients, authenticatedClients, lu, l, timeToSelectHero);
      SeatsStep(w, w.(clients := cs), m, l, x, Seating(w, m, l, x));
      seated := SeatsTaken(w, w.(clients := cs), m, l, lu, sent, timeToSelectHero);
      SetClients(cs, x);
    }

    /** The clients' records replaced by cs, which keeps the invariant short of x. */
    method SetClients(cs: map<ClientId, Session>, ghost x: Exempt)
      requires lobbies == [] && matchmaker.Valid() && numPlayersInMatchmaking == matchmaker.playerCount
      requires ServerInv(Current().(clients := cs), x)
      modifies this
      ensures ValidBut(x)
      ensures Current() == old(Current()).(clients := cs)
    {
      connectedClients := cs;
    }

    /** The select timer task of l has run: it is no longer scheduled, and the clients are cs. */
    method RetireSelectTimer(l: LobbyId, cs: map<ClientId, Session>)
      requires lobbies == [] && matchmaker.Valid() && numPlayersInMatchmaking == matchmaker.playerCount
      modifies this
      ensures Current() == old(Current()).(selectTimers := old(selectTimers) - {l}, clients := cs)
      ensures ServerInv(Current(), NONE) ==> Valid()
    {
      selectTimers, connectedClients := selectTimers - {l}, cs;
    }

    /** lobby.startTimer() on the settled lobby l. */
    method StartLobby(m: MatchId, l: LobbyId, ghost settled: bool)
      requires ValidBut(NONE.(matches := {m}, lobbies := {l})) && settled && settled == Settled(Current(), m, l)
      modifies this
      ensures Valid() && Current() == old(Current()).(selectTimers := old(selectTimers) + {l})
    {
      ghost var w := Current();
      selectTimers := selectTimers + {l};
      StartStep(w, Current(), m, l);
    }

    /**
     * Every player of m accepted: m's timer is canceled, the lobby is
     * built, its teams are seated and its timer is started.
     */
    method OpenLobby(m: MatchId) returns (sent: seq<Delivery>, l: LobbyId, ghost order: seq<string>, ghost done: bool)
      requires Valid() && LiveMatch(Current(), m)
      modifies this
      ensures Valid()
      ensures done && done == LobbyOpened(old(Current()), Current(), m, l, order, sent, timeToSelectHero)
    {
      ghost var w := Current();
      var lu;
      ghost var dealt, prepared, seated;
      l, lu, order, dealt, prepared := PrepareLobby(m);
      ghost var w1 := Current();
      sent, seated := SeatTeams(m, l, lu, prepared);
      ghost var w2 := Current();
      StartLobby(m, l, Settled(w2, m, l));
      OpenedFrom(w, w1, w2, Current(), m, l, lu, order, sent, timeToSelectHero);
      done := LobbyOpened(w, Current(), m, l, order, sent, timeToSelectHero);
    }

    /**
     * onAcceptMatchReceived, in IDLE, IN_MATCHMAKING, MATCH_FOUND or
     * IN_LOBBY; only a first acceptance in MATCH_FOUND acts, as
     * MatchAccepted says. A repeated acceptance does nothing.
     */
    method OnAcceptMatch(c: ClientId) returns (o: Outcome, sent: seq<Delivery>, ghost l: LobbyId, ghost order: seq<string>,
                                               ghost accepted: bool)
      requires Valid() && c in connectedClients
      modifies this
      ensures Valid()
      ensures o.Pass? <==> old(connectedClients[c].state) in {IDLE, IN_MATCHMAKING, MATCH_FOUND, IN_LOBBY}
      ensures o.Throw? ==> o.exc == IllegalState
      ensures !FirstAcceptance(old(Current()), c) ==> sent == [] && unchanged(this)
      ensures FirstAcceptance(old(Current()), c) ==>
        accepted && accepted == MatchAccepted(old(Current()), Current(), c, sent, l, order, timeToSelectHero)
    {
      ghost var w := Current();
      var state := connectedClients[c].state;
      if state !in {IDLE, IN_MATCHMAKING, MATCH_FOUND, IN_LOBBY} {
        return Throw(IllegalState), [], 0, [], false;
      }
      if state != MATCH_FOUND {
        return Pass, [], 0, [], false;
      }
      MatchOf(w, c);
      var u := connectedClients[c].account.value;
      var m := connectedClients[c].matchFound.value;
      if matchFounds[m].players[u] {
        return Pass, [], 0, [], false;
      }
      sent, l, order, accepted := AcceptFirst(c, u, m);
      o := Pass;
    }

    /** The first acceptance by c, the client of u holding m: the branch of onAcceptMatchReceived that acts. */
    method AcceptFirst(c: ClientId, u: string, m: MatchId)
      returns (sent: seq<Delivery>, ghost l: LobbyId, ghost order: seq<string>, ghost accepted: bool)
      requires Valid() && FirstAcceptance(Current(), c)
      requires u == connectedClients[c].account.value && m == connectedClients[c].matchFound.value
      modifies this
      ensures Valid()
      ensures accepted && accepted == MatchAccepted(old(Current()), Current(), c, sent, l, order, timeToSelectHero)
    {
      ghost var w := Current();
      MatchOf(w, c);
      var notes, full := NoteAcceptance(u, m);
      ghost var w1 := Current();
      l, order := 0, [];
      var joined := [];
      ghost var done := false;
      if full {
        joined, l, order, done := OpenLobby(m);
      }
      sent := notes + joined;
      AcceptedFrom(w, w1, Current(), c, notes, joined, l, order, timeToSelectHero, full, done);
      accepted := MatchAccepted(w, Current(), c, sent, l, order, timeToSelectHero);
    }

    /** lobby.cancelTimer() on the Lobby l: it is exempt from then on. */
    method CancelLobby(l: LobbyId, ghost x: Exempt)
      requires ValidBut(x) && l in lobbyStates
      modifies this
      ensures ValidBut(x.(lobbies := x.lobbies + {l}))
      ensures Current() == LobbyCanceled(old(Current()), l)
    {
      ghost var w := Current();
      lobbyStates := lobbyStates[l := lobbyStates[l].(timerCanceled := true)];
      CancelLobbyKeepsInv(w, l, x);
    }

    /**
     * The loop over the players us of the exempt lobby l, all seated in
     * it: each goes IDLE with lobby and team null and is sent n.
     */
    method IdleSeated(l: LobbyId, us: set<string>, n: Notice, ghost x: Exempt) returns (sent: seq<Delivery>)
      requires ValidBut(x) && l in x.lobbies && l in lobbyStates && us <= Members(lobbyStates[l].lineup)
      requires Seated(Current(), l, lobbyStates[l].lineup.blue, Blue) && Seated(Current(), l, lobbyStates[l].lineup.red, Red)
      modifies this
      ensures ValidBut(x) && us <= authenticatedClients.Keys
      ensures Current() == Idled(old(Current()), us)
      ensures OncePerUser(sent, authenticatedClients, us, n)
    {
      SeatedReleasable(Current(), l, us, x);
      sent := IdleGroup(us, n, x);
    }

    /**
     * The client c IN_LOBBY leaves: the timer of its lobby l is canceled,
     * and every player of l goes IDLE and is sent LOBBY_DIED (PLAYER_LEFT).
     */
    method LeaveLobby(c: ClientId) returns (sent: seq<Delivery>, l: LobbyId)
      requires Valid() && c in connectedClients && connectedClients[c].state == IN_LOBBY
      modifies this
      ensures Valid() && old(connectedClients[c].lobby) == Some(l) && l in old(lobbyStates)
      ensures Members(old(lobbyStates[l].lineup)) <= authenticatedClients.Keys
      ensures Current() == Idled(LobbyCanceled(old(Current()), l), Members(old(lobbyStates[l].lineup)))
      ensures OncePerUser(sent, authenticatedClients, Members(old(lobbyStates[l].lineup)), LobbyDied(PlayerLeft))
    {
      ghost var w := Current();
      l := connectedClients[c].lobby.value;
      LobbyOf(w, c);
      var us := Members(lobbyStates[l].lineup);
      CancelLobby(l, NONE);
      CanceledSeated(w, l);
      sent := IdleSeated(l, us, LobbyDied(PlayerLeft), NONE.(lobbies := {l}));
      ghost var x := NONE.(lobbies := {l});
      EmptiedLobby(LobbyCanceled(w, l), l, us, x.lobbies);
      ReleaseLobbyKeepsInv(Current(), l, x);
      assert x.(lobbies := x.lobbies - {l}) == NONE;
    }

    /**
     * onLeaveLobbyReceived, in IN_LOBBY or IDLE; only a client IN_LOBBY
     * acts, as LeaveLobby says.
     */
    method OnLeaveLobby(c: ClientId) returns (o: Outcome, sent: seq<Delivery>, ghost l: LobbyId)
      requires Valid() && c in connectedClients
      modifies this
      ensures Valid()
      ensures o.Pass? <==> old(connectedClients[c].state) in {IN_LOBBY, IDLE}
      ensures o.Throw? ==> o.exc == IllegalState
      ensures old(connectedClients[c].state) != IN_LOBBY ==> sent == [] && unchanged(this)
      ensures old(connectedClients[c].state) == IN_LOBBY ==>
        && old(connectedClients[c].lobby) == Some(l) && l in old(lobbyStates)
        && Members(old(lobbyStates[l].lineup)) <= authenticatedClients.Keys
        && Current() == Idled(LobbyCanceled(old(Current()), l), Members(old(lobbyStates[l].lineup)))
        && OncePerUser(sent, authenticatedClients, Members(old(lobbyStates[l].lineup)), LobbyDied(PlayerLeft))
    {
      var state := connectedClients[c].state;
      if state !in {IN_LOBBY, IDLE} {
        return Throw(IllegalState), [], 0;
      }
      if state != IN_LOBBY {
        return Pass, [], 0;
      }
      sent, l := LeaveLobby(c);
      o := Pass;
    }

    /**
     * The select timer task of the live lobby l runs: it is no longer
     * scheduled, and every player of l goes IDLE and is sent LOBBY_DIED
     * (PLAYER_DIDNT_SELECT_HERO).
     */
    method FailedToSelect(l: LobbyId) returns (sent: seq<Delivery>)
      requires Valid() && l in selectTimers && l in lobbyStates && !lobbyStates[l].timerCanceled
      modifies this
      ensures Valid()
      ensures Members(old(lobbyStates[l].lineup)) <= authenticatedClients.Keys
      ensures Current() == Idled(old(Current()).(selectTimers := old(selectTimers) - {l}), Members(old(lobbyStates[l].lineup)))
      ensures OncePerUser(sent, authenticatedClients, Members(old(lobbyStates[l].lineup)), LobbyDied(PlayerDidntSelectHero))
    {
      ghost var w := Current();
      FiredSeated(w, l);
      var us := Members(lobbyStates[l].lineup);
      selectTimers := selectTimers - {l};
      FireSelectTimerKeepsInv(w, l, NONE);
      ghost var x := NONE.(lobbies := {l});
      ghost var w1 := Current();
      sent := IdleSeated(l, us, LobbyDied(PlayerDidntSelectHero), x);
      EmptiedLobby(w1, l, us, x.lobbies);
      ReleaseLobbyKeepsInv(Current(), l, x);
      assert x.(lobbies := x.lobbies - {l}) == NONE;
    }

    /**
     * onFailedToSelectHero as the code has it: the select timer task of the
     * lobby l, whether or not the timer was canceled, walks the lobby's
     * usernames in the iteration order order of their Set, sets each one's
     * client IDLE with lobby and team null and sends it LOBBY_DIED
     * (PLAYER_DIDNT_SELECT_HERO). A player of a canceled lobby who has since
     * disconnected has no client under its name: the loop stops there, with
     * the players before it already changed and told, and throws
     * NullPointerException. Only an uncanceled run keeps the invariant.
     */
    method OnFailedToSelectHeroAsWritten(l: LobbyId, order: seq<string>) returns (o: Outcome, sent: seq<Delivery>)
      requires Valid() && l in selectTimers && l in lobbyStates && Listing(order, Members(lobbyStates[l].lineup))
      modifies this
      ensures var w := old(Current()); var k := FirstMissing(order, w.auth);
        && (o.Pass? <==> k == |order|)
        && (o.Pass? <==> Members(w.lobbies[l].lineup) <= w.auth.Keys)
        && (o.Throw? ==> o.exc == NullPointer)
        && Current() == FailedToSelectAsWritten(w, l, order)
        && sent == Tell(w.auth, order[..k], LobbyDied(PlayerDidntSelectHero))
      ensures !old(lobbyStates[l].timerCanceled) ==> o.Pass? && Valid()
    {
      FailedToSelectAsWrittenLive(Current(), l, order);
      var cs, told, k := UnseatUntilMissing(connectedClients, authenticatedClients, order, LobbyDied(PlayerDidntSelectHero));
      RetireSelectTimer(l, cs);
      sent := told;
      o := if k == |order| then Pass else Throw(NullPointer);
    }

    /**
     * onFailedToSelectHero, the select timer task of the lobby l, with the
     * canceled check that onFailedToAcceptMatch makes: if the timer was
     * canceled the task just ends, otherwise FailedToSelect.
     */
    method OnFailedToSelectHero(l: LobbyId) returns (sent: seq<Delivery>)
      requires Valid() && l in selectTimers
      modifies this
      ensures Valid() && l in old(lobbyStates)
      ensures old(lobbyStates[l].timerCanceled) ==>
        sent == [] && Current() == old(Current()).(selectTimers := old(selectTimers) - {l})
      ensures !old(lobbyStates[l].timerCanceled) ==>
        && Members(old(lobbyStates[l].lineup)) <= authenticatedClients.Keys
        && Current() == Idled(old(Current()).(selectTimers := old(selectTimers) - {l}), Members(old(lobbyStates[l].lineup)))
        && OncePerUser(sent, authenticatedClients, Members(old(lobbyStates[l].lineup)), LobbyDied(PlayerDidntSelectHero))
    {
      if lobbyStates[l].timerCanceled {
        ghost var w := Current();
        selectTimers := selectTimers - {l};
        FireCanceledSelect(w, l);
        return [];
      }
      sent := FailedToSelect(l);
    }

    /**
     * onChatMessageReceived, in IDLE or IN_LOBBY; only a client IN_LOBBY
     * acts: each player of its team, in team order, is sent the text with
     * the index of the sender. Nothing changes.
     */
    method OnChatMessage(c: ClientId, text: string) returns (o: Outcome, sent: seq<Delivery>)
      requires Valid() && c in connectedClients
      ensures o.Pass? <==> connectedClients[c].state in {IDLE, IN_LOBBY}
      ensures o.Throw? ==> o.exc == IllegalState
      ensures connectedClients[c].state != IN_LOBBY ==> sent == []
      ensures connectedClients[c].state == IN_LOBBY ==>
        var s := SeatOf(Current(), c);
        && (forall k :: 0 <= k < TEAM_SIZE ==> Usernames(TeamOf(s.1, s.2))[k] in authenticatedClients)
        && sent == Tell(authenticatedClients, Usernames(TeamOf(s.1, s.2)), ChatReceived(s.3, text))
    {
      var state := connectedClients[c].state;
      if state !in {IDLE, IN_LOBBY} {
        return Throw(IllegalState), [];
      }
      if state != IN_LOBBY {
        return Pass, [];
      }
      ghost var s := SeatOf(Current(), c);
      TeamAuthed(Current(), s.0, s.2);
      var u, l, t := connectedClients[c].account.value, connectedClients[c].lobby.value, connectedClients[c].team.value;
      var i := PlayerIndex(lobbyStates[l].lineup, u).value;
      sent := TellInOrder(authenticatedClients, Usernames(TeamOf(lobbyStates[l].lineup, t)), ChatReceived(i, text));
      o := Pass;
    }

    /** The Lobby objects replaced by ls, which keeps the invariant short of x. */
    method SetLobbies(ls: map<LobbyId, LobbyState>, ghost x: Exempt)
      requires lobbies == [] && matchmaker.Valid() && numPlayersInMatchmaking == matchmaker.playerCount
      requires ServerInv(Current().(lobbies := ls), x)
      modifies this
      ensures ValidBut(x) && Current() == old(Current()).(lobbies := ls)
    {
      lobbyStates := ls;
    }

    /** The MatchFound m of g recorded, with its acceptance timer started. */
    method OpenMatch(m: MatchId, g: set<string>, ghost x: Exempt)
      requires lobbies == [] && matchmaker.Valid() && numPlayersInMatchmaking == matchmaker.playerCount
      requires ServerInv(Current().(matches := matchFounds[m := NewMatch(g)], acceptTimers := acceptTimers + {m}), x)
      modifies this
      ensures ValidBut(x)
      ensures Current() == old(Current()).(matches := old(matchFounds)[m := NewMatch(g)], acceptTimers := old(acceptTimers) + {m})
    {
      matchFounds, acceptTimers := matchFounds[m := NewMatch(g)], acceptTimers + {m};
    }

    /** The MatchFound objects replaced by ms, which keeps the invariant short of x. */
    method SetMatches(ms: map<MatchId, MatchFoundState>, ghost x: Exempt)
      requires lobbies == [] && matchmaker.Valid() && numPlayersInMatchmaking == matchmaker.playerCount
      requires ServerInv(Current().(matches := ms), x)
      modifies this
      ensures ValidBut(x) && Current() == old(Current()).(matches := ms)
    {
      matchFounds := ms;
    }

    /** The account directory replaced by acc, which keeps every account and every waiting player's rank. */
    method SetAccounts(acc: map<string, AccountState>, ghost x: Exempt)
      requires ValidBut(x) && (forall u :: u in accounts ==> u in acc) && forall u :: u in acc ==> IsAccount(u, acc[u])
      requires forall u :: u in matchmaker.waiting ==> u in acc && acc[u].rank == accounts[u].rank
      modifies this
      ensures ValidBut(x) && Current() == old(Current()).(accounts := acc)
    {
      RefileKeepsInv(Current(), acc, x);
      accounts := acc;
    }

    /** The clients' records and the Lobby objects replaced by cs and ls, which keep the invariant short of x. */
    method SetTables(cs: map<ClientId, Session>, ls: map<LobbyId, LobbyState>, ghost x: Exempt)
      requires lobbies == [] && matchmaker.Valid() && numPlayersInMatchmaking == matchmaker.playerCount
      requires ServerInv(Current().(clients := cs, lobbies := ls), x)
      modifies this
      ensures ValidBut(x) && Current() == old(Current()).(clients := cs, lobbies := ls)
    {
      connectedClients, lobbyStates := cs, ls;
    }

    /**
     * The client c IN_LOBBY picks hero: trySelectHero at its seat, as the
     * code has it, and PLAYER_SELECTED_HERO to its team if the hero was
     * taken.
     */
    method PickHero(c: ClientId, hero: Hero) returns (sent: seq<Delivery>, l: LobbyId)
      requires Valid() && c in connectedClients && connectedClients[c].state == IN_LOBBY && IsHero(hero)
      modifies this
      ensures Valid() && l == SeatOf(old(Current()), c).0 && LiveLobby(Current(), l)
      ensures Current() == Picked(old(Current()), c, hero)
      ensures sent == PickTold(old(Current()), c, hero)
    {
      ghost var w := Current();
      ghost var s := SeatOf(w, c);
      PickStep(w, c, hero);
      TeamAuthed(w, s.0, s.2);
      var u, t := connectedClients[c].account.value, connectedClients[c].team.value;
      l := connectedClients[c].lobby.value;
      var i := PlayerIndex(lobbyStates[l].lineup, u).value;
      var pick := SelectAsWritten(lobbyStates[l].lineup, t, i, hero);
      assert pick == PickOf(w, c, hero);
      SetLobbies(lobbyStates[l := lobbyStates[l].(lineup := pick.1)], NONE);
      sent := [];
      if pick.0 {
        sent := TellInOrder(authenticatedClients, Usernames(TeamOf(pick.1, t)), PlayerSelectedHero(i, hero));
      }
    }

    /**
     * The two accounts loops of a match played in the live lobby l: the
     * winners' accounts, then the losers', each Scored with its slot's
     * delta.
     */
    method ScoreMatch(l: LobbyId, winner: Team, wins: seq<real>, losses: seq<real>)
      requires Valid() && LiveLobby(Current(), l)
      requires |wins| == TEAM_SIZE && |losses| == TEAM_SIZE && AllDeltas(wins) && AllDeltas(losses)
      modifies this
      ensures Valid() && LiveLobby(Current(), l) && Members(lobbyStates[l].lineup) <= old(accounts).Keys
      ensures Current() == old(Current()).(accounts := Rewarded(old(accounts), lobbyStates[l].lineup, winner, wins, losses))
    {
      ghost var w := Current();
      ScoreStep(w, l);
      var lu := lobbyStates[l].lineup;
      var acc := ScoreTeam(accounts, Usernames(TeamOf(lu, winner)), true, wins);
      acc := ScoreTeam(acc, Usernames(TeamOf(lu, OtherTeam(winner))), false, losses);
      RewardedRefile(accounts, lu, winner, wins, losses, matchmaker.waiting);
      RefiledLive(w, acc, l);
      SetAccounts(acc, NONE);
    }

    /**
     * The last loop of a match played in the live lobby l with summary s:
     * the timer of l is canceled and each player goes IDLE and is sent
     * MATCH_PLAYED with s and its integer rank.
     */
    method EndMatch(l: LobbyId, s: MatchSummary) returns (sent: seq<Delivery>)
      requires Valid() && LiveLobby(Current(), l)
      modifies this
      ensures Valid()
      ensures Members(old(lobbyStates[l].lineup)) <= authenticatedClients.Keys
      ensures Members(old(lobbyStates[l].lineup)) <= accounts.Keys
      ensures Current() == Idled(LobbyCanceled(old(Current()), l), Members(old(lobbyStates[l].lineup)))
      ensures PlayedOncePerUser(sent, authenticatedClients, accounts, Members(old(lobbyStates[l].lineup)), s)
    {
      ghost var w := Current();
      var us := Members(lobbyStates[l].lineup);
      EndStep(w, l);
      var cs;
      cs, sent := IdlePlayed(connectedClients, authenticatedClients, accounts, us, s, LobbyCanceled(w, l), NONE.(lobbies := {l}));
      EndedStep(w, l);
      SetTables(cs, lobbyStates[l := lobbyStates[l].(timerCanceled := true)], NONE);
    }

    /**
     * SELECT_HERO from the client c IN_LOBBY, as HeroSelected says: the
     * pick, and the match played out with d once every player has a hero.
     */
    method SelectHero(c: ClientId, hero: Hero, d: Dice) returns (sent: seq<Delivery>, ghost selected: bool)
      requires Valid() && c in connectedClients && connectedClients[c].state == IN_LOBBY && IsHero(hero) && IsDice(d)
      modifies this
      ensures Valid()
      ensures selected && selected == HeroSelected(old(Current()), Current(), c, hero, d, sent)
    {
      ghost var w := Current();
      var told, l := PickHero(c, hero);
      ghost var w1 := Current();
      var lu := lobbyStates[l].lineup;
      if !(AllSelected(lu.blue) && AllSelected(lu.red)) {
        sent := told;
        selected := HeroSelected(w, Current(), c, hero, d, sent);
        return;
      }
      var s := Play(lu, d.winner, d.blue, d.red);
      ScoreMatch(l, s.winner, d.wins, d.losses);
      var played := EndMatch(l, s);
      sent := told + played;
      SelectedAndPlayed(w, w1, Current(), c, hero, d, told, played);
      selected := HeroSelected(w, Current(), c, hero, d, sent);
    }

    /**
     * onSelectHeroReceived, in IDLE or IN_LOBBY; only a client IN_LOBBY
     * acts, as HeroSelected says, with d the draws of the match it may
     * complete.
     */
    method OnSelectHero(c: ClientId, hero: Hero, d: Dice) returns (o: Outcome, sent: seq<Delivery>, ghost selected: bool)
      requires Valid() && c in connectedClients && IsHero(hero) && IsDice(d)
      modifies this
      ensures Valid()
      ensures o.Pass? <==> old(connectedClients[c].state) in {IDLE, IN_LOBBY}
      ensures o.Throw? ==> o.exc == IllegalState
      ensures old(connectedClients[c].state) != IN_LOBBY ==> sent == [] && unchanged(this)
      ensures old(connectedClients[c].state) == IN_LOBBY ==>
        selected && selected == HeroSelected(old(Current()), Current(), c, hero, d, sent)
    {
      var state := connectedClients[c].state;
      if state !in {IDLE, IN_LOBBY} {
        return Throw(IllegalState), [], false;
      }
      if state != IN_LOBBY {
        return Pass, [], false;
      }
      sent, selected := SelectHero(c, hero, d);
      o := Pass;
    }

    /** The client c is gone: removed from connectedClients and, if logged in, its player from authenticatedClients. */
    method DropClient(c: ClientId, ghost x: Exempt)
      requires lobbies == [] && matchmaker.Valid() && numPlayersInMatchmaking == matchmaker.playerCount
      requires c in connectedClients && ServerInv(Drop(Current(), c), x)
      modifies this
      ensures ValidBut(x) && Current() == Drop(old(Current()), c)
    {
      if LoggedIn(connectedClients[c]) && connectedClients[c].account.Some? {
        authenticatedClients := authenticatedClients - {connectedClients[c].account.value};
      }
      connectedClients := connectedClients - {c};
    }

    /** onDisconnect of the client c IN_LOBBY, as LeftLobby says. */
    method DisconnectFromLobby(c: ClientId) returns (sent: seq<Delivery>, ghost gone: bool)
      requires Valid() && c in connectedClients && connectedClients[c].state == IN_LOBBY
      modifies this
      ensures Valid()
      ensures gone && gone == LeftLobby(old(Current()), Current(), c, sent)
    {
      ghost var w := Current();
      LobbyOf(w, c);
      var l, u := connectedClients[c].lobby.value, connectedClients[c].account.value;
      var us := Members(lobbyStates[l].lineup) - {u};
      EndStep(w, l);
      var cs;
      cs, sent := IdleUsers(connectedClients, authenticatedClients, us, LobbyDied(PlayerLeft), LobbyCanceled(w, l), NONE.(lobbies := {l}));
      LeaverDrops(LobbyCanceled(w, l), Idled(LobbyCanceled(w, l), us), c, u, l);
      SetTables(cs, lobbyStates[l := lobbyStates[l].(timerCanceled := true)], NONE.(lobbies := {l}));
      DropClient(c, NONE);
      gone := LeftLobby(w, Current(), c, sent);
    }

    /** onDisconnect of the client c in MATCH_FOUND, as LeftMatch says. */
    method DisconnectFromMatch(c: ClientId) returns (sent: seq<Delivery>, ghost gone: bool)
      requires Valid() && c in connectedClients && connectedClients[c].state == MATCH_FOUND
      modifies this, matchmaker
      ensures Valid()
      ensures gone && gone == LeftMatch(old(Current()), Current(), c, sent, timeToAcceptMatch)
    {
      ghost var w := Current();
      var u, m;
      ghost var progressed;
      sent, u, m, progressed := TakeApart(c);
      DroppedFromMatch(w, Current(), c, u, m, sent, timeToAcceptMatch, progressed);
      DropClient(c, NONE);
      gone := LeftMatch(w, Current(), c, sent, timeToAcceptMatch);
    }

    /** onDisconnect of the client c IN_MATCHMAKING, as LeftQueue says; the counter drops by one. */
    method DisconnectFromQueue(c: ClientId) returns (ghost gone: bool)
      requires Valid() && c in connectedClients && connectedClients[c].state == IN_MATCHMAKING
      modifies this, matchmaker
      ensures Valid() && numPlayersInMatchmaking == old(numPlayersInMatchmaking) - 1
      ensures gone && gone == LeftQueue(old(Current()), Current(), c)
    {
      ghost var w := Current();
      assert WellFormedSession(connectedClients[c]);
      var u := connectedClients[c].account.value;
      ghost var x1 := NONE.(pending := NONE.pending + {u});
      assert x1.(pending := x1.pending - {u}) == NONE;
      Withdraw(u, NONE);
      DropKeepsInv(Current(), c, x1);
      DropClient(c, NONE);
      gone := LeftQueue(w, Current(), c);
    }

    /** onDisconnect of the client c, as Disconnected says. */
    method OnDisconnect(c: ClientId) returns (sent: seq<Delivery>, ghost gone: bool)
      requires Valid() && c in connectedClients
      modifies this, matchmaker
      ensures Valid()
      ensures gone && gone == Disconnected(old(Current()), Current(), c, sent, timeToAcceptMatch)
    {
      ghost var w := Current();
      var state := connectedClients[c].state;
      if state == IN_LOBBY {
        sent, gone := DisconnectFromLobby(c);
      } else if state == MATCH_FOUND {
        sent, gone := DisconnectFromMatch(c);
      } else if state == IN_MATCHMAKING {
        gone := DisconnectFromQueue(c);
        sent := [];
      } else {
        assert WellFormedSession(connectedClients[c]);
        IdleDrops(w, c);
        DropClient(c, NONE);
        sent := [];
      }
      gone := Disconnected(w, Current(), c, sent, timeToAcceptMatch);
    }

    /**
     * broadcastServerStats: SERVER_STATS with getStats to each client in
     * IDLE, IN_MATCHMAKING or MATCH_FOUND, in the order of connectedClients,
     * which is the order of the client numbers. Nothing changes.
     */
    method BroadcastStats() returns (sent: seq<Delivery>)
      ensures forall d :: d in sent <==>
        d.to in connectedClients && StatsListener(connectedClients[d.to]) && d.notice == StatsUpdate(GetStats())
      ensures forall i, j :: 0 <= i < j < |sent| ==> sent[i].to < sent[j].to
    {
      sent := TellListeners(connectedClients, StatsUpdate(GetStats()));
    }
  }
}
